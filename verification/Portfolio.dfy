/** portfolio/portfolio.py: positions by pair, the balance, and the execution of signals. */
module Portfolios {
  import opened Pricing
  import opened Positions

  datatype Side = Buy | Sell

  datatype OrderEvent = OrderEvent(pair: string, units: int, side: Side)

  datatype Holding = Holding(terms: Terms, book: Book)

  /** The portfolio's state as a value: what the class below holds in its fields and in the
      positions they point to. */
  datatype Account = Account(balance: real, holdings: map<string, Holding>)

  /** What became of a signal: not executed for want of a quote; an exception out of the
      position's constructor; a new position; more units; a closed position; or nothing,
      because the signal is for other units than the position holds. */
  datatype Outcome = Unquoted | Failed | DidOpen | DidAdd | DidClose | Mismatched

  function TypeFor(side: Side): PositionType {
    if side == Buy then Long else Short
  }

  /** Python's int() of a decimal. */
  function Truncated(x: real): int {
    if x >= 0.0 then x.Floor else -((-x).Floor)
  }

  lemma TruncationIsTowardZero(x: real)
    ensures x >= 0.0 ==> 0.0 <= Truncated(x) as real <= x < Truncated(x) as real + 1.0
    ensures x <= 0.0 ==> Truncated(x) as real - 1.0 < x <= Truncated(x) as real <= 0.0
  {
  }

  /** Holdings filed under their own pair, in the account's currency, with units to value. */
  ghost predicate WellFiled(holdings: map<string, Holding>, base: string) {
    forall p <- holdings ::
      holdings[p].terms.pair == p && holdings[p].terms.base == base && holdings[p].book.units != 0.0
  }

  /** The pairs an action on `pair` looks up are keys of the ticker. */
  predicate Listed(pair: string, base: string, prices: Prices) {
    pair in prices && (SameCurrency(pair, base) || ConversionPair(pair, base) in prices)
  }

  /** The branch execute_signal takes (portfolio/portfolio.py:147-198). */
  ghost function Verdict(a: Account, base: string, lot: int, side: Side, pair: string, prices: Prices): Outcome {
    if !AllQuoted(prices) then Unquoted
    else if pair !in a.holdings then
      (if lot == 0 || !Listed(pair, base, prices) then Failed else DidOpen)
    else if a.holdings[pair].terms.side == TypeFor(side) then
      (if a.holdings[pair].book.units + lot as real == 0.0 then Failed else DidAdd)
    else if a.holdings[pair].book.units == lot as real then DidClose
    else Mismatched
  }

  ghost function Executed(a: Account, base: string, lot: int, side: Side, pair: string, prices: Prices): Account
    requires WellFiled(a.holdings, base) && (pair in a.holdings && AllQuoted(prices) ==> Listed(pair, base, prices))
  {
    match Verdict(a, base, lot, side, pair, prices)
    case DidOpen => OpenedIn(a, base, TypeFor(side), pair, lot as real, prices)
    case DidAdd => AddedTo(a, base, pair, lot as real, prices)
    case DidClose => ClosedOut(a, base, pair, prices)
    case _ => a
  }

  /** A signal is dropped, and changes nothing, exactly when some quote is missing. */
  lemma Unexecuted(a: Account, base: string, lot: int, side: Side, pair: string, prices: Prices)
    requires WellFiled(a.holdings, base) && (pair in a.holdings && AllQuoted(prices) ==> Listed(pair, base, prices))
    ensures Verdict(a, base, lot, side, pair, prices).Unquoted? <==> !AllQuoted(prices)
    ensures !AllQuoted(prices) ==> Executed(a, base, lot, side, pair, prices) == a
  {
  }

  function OpenedIn(a: Account, base: string, side: PositionType, pair: string, units: real, prices: Prices): Account
    requires units != 0.0 && Valuable(pair, base, prices)
  {
    var t := Terms(base, side, pair);
    a.(holdings := a.holdings[pair := Holding(t, Opened(t, units, prices))])
  }

  function AddedTo(a: Account, base: string, pair: string, units: real, prices: Prices): Account
    requires pair in a.holdings && a.holdings[pair].book.units + units != 0.0
    requires Valuable(a.holdings[pair].terms.pair, a.holdings[pair].terms.base, prices)
  {
    var h := a.holdings[pair];
    a.(holdings := a.holdings[pair := h.(book := Added(h.terms, h.book, units, prices))])
  }

  function ClosedOut(a: Account, base: string, pair: string, prices: Prices): Account
    requires pair in a.holdings
    requires Valuable(a.holdings[pair].terms.pair, a.holdings[pair].terms.base, prices)
  {
    var h := a.holdings[pair];
    Account(a.balance + ClosingPnl(h.terms, h.book, prices), a.holdings - {pair})
  }

  function Reduced(a: Account, pair: string, units: real, prices: Prices): Account
    requires pair in a.holdings && a.holdings[pair].book.units != units
    requires Valuable(a.holdings[pair].terms.pair, a.holdings[pair].terms.base, prices)
    requires Quoted(prices, ConversionPair(a.holdings[pair].terms.pair, a.holdings[pair].terms.base))
  {
    var h := a.holdings[pair];
    Account(a.balance + RemovalPnl(h.terms, h.book, units, prices),
            a.holdings[pair := h.(book := Revalued(h.terms, h.book.units - units, h.book.avgPrice, prices))])
  }

  function Ticked(a: Account, pair: string, prices: Prices): Account
    requires pair in a.holdings ==>
      a.holdings[pair].book.units != 0.0 && Valuable(a.holdings[pair].terms.pair, a.holdings[pair].terms.base, prices)
  {
    if pair !in a.holdings then a else
    var h := a.holdings[pair];
    a.(holdings := a.holdings[pair := h.(book := Revalued(h.terms, h.book.units, h.book.avgPrice, prices))])
  }

  /** A tick of a held pair prices it at what it could be left at, a long at the bid and a short
      at the ask, and changes neither what is held nor any other position. */
  lemma TickReprices(a: Account, base: string, pair: string, prices: Prices)
    requires WellFiled(a.holdings, base) && pair in a.holdings && Valuable(pair, base, prices)
    ensures var b := Ticked(a, pair, prices);
            && b.balance == a.balance && b.holdings.Keys == a.holdings.Keys && b.holdings - {pair} == a.holdings - {pair}
            && var h, k := a.holdings[pair], b.holdings[pair];
               && k.terms == h.terms && k.book.units == h.book.units && k.book.avgPrice == h.book.avgPrice
               && (h.terms.side == Long ==> k.book.curPrice == prices[pair].bid.value)
               && (h.terms.side == Short ==> k.book.curPrice == prices[pair].ask.value)
  {
  }

  /** The loop at the head of execute_signal. */
  method HasAllQuotes(prices: Prices) returns (execute: bool)
    ensures execute <==> AllQuoted(prices)
  {
    execute := true;
    var unchecked := prices.Keys;
    while unchecked != {}
      invariant unchecked <= prices.Keys
      invariant execute <==> forall p | p in prices.Keys - unchecked :: Quoted(prices, p)
    {
      var p :| p in unchecked;
      if prices[p].bid.None? || prices[p].ask.None? {
        execute := false;
      }
      assert Quoted(prices, p) || !execute;
      unchecked := unchecked - {p};
    }
  }

  class Portfolio {
    const base: string
    const tradeUnits: real
    var balance: real
    var positions: map<string, Position>
    var events: seq<OrderEvent>

    /** Positions are filed under their own pair, and no two pairs share a position. */
    ghost predicate Valid()
      reads this`balance, this`positions, positions.Values
      ensures Valid() ==> WellFiled(View().holdings, base)
    {
      && (forall p <- positions ::
            positions[p].terms.pair == p && positions[p].terms.base == base && positions[p].units != 0.0)
      && (forall p <- positions, q <- positions :: positions[p] == positions[q] ==> p == q)
    }

    ghost function View(): Account
      reads this`balance, this`positions, positions.Values
    {
      Account(balance, map p | p in positions :: Holding(positions[p].terms, positions[p].Current()))
    }

    constructor (base: string, equity: real, riskPerTrade: real)
      ensures Valid() && fresh(positions.Values)
      ensures this.base == base && tradeUnits == equity * riskPerTrade
      ensures View() == Account(equity, map[]) && events == []
    {
      this.base := base;
      this.tradeUnits := equity * riskPerTrade;
      this.balance := equity;
      this.positions := map[];
      this.events := [];
    }

    method AddNewPosition(side: PositionType, pair: string, units: real, prices: Prices)
      requires Valid() && units != 0.0 && Valuable(pair, base, prices)
      modifies this`positions
      ensures Valid() && fresh(positions.Values - old(positions.Values))
      ensures View() == OpenedIn(old(View()), base, side, pair, units, prices)
    {
      OpenedUnits(Terms(base, side, pair), units, prices);
      hide Opened, Revalued;
      var ps := new Position(Terms(base, side, pair), units, prices);
      File(pair, ps);
    }

    method AddPositionUnits(pair: string, units: real, prices: Prices) returns (done: bool)
      requires Valid()
      requires pair in positions ==> positions[pair].units + units != 0.0 && Valuable(pair, base, prices)
      modifies positions.Values
      ensures Valid()
      ensures done <==> pair in positions
      ensures View() == if done then AddedTo(old(View()), base, pair, units, prices) else old(View())
    {
      if pair !in positions {
        return false;
      }
      positions[pair].AddUnits(units, prices);
      return true;
    }

    method RemovePositionUnits(pair: string, units: real, prices: Prices) returns (done: bool)
      requires Valid()
      requires pair in positions ==> positions[pair].units != units && Valuable(pair, base, prices)
      requires pair in positions ==> Quoted(prices, ConversionPair(pair, base))
      modifies this`balance, positions.Values
      ensures Valid()
      ensures done <==> pair in positions
      ensures View() == if done then Reduced(old(View()), pair, units, prices) else old(View())
    {
      hide Revalued, RemovalPnl;
      if pair !in positions {
        return false;
      }
      RevaluedUnits(positions[pair].terms, positions[pair].units - units, positions[pair].avgPrice, prices);
      var pnl := positions[pair].RemoveUnits(units, prices);
      balance := balance + pnl;
      return true;
    }

    method ClosePosition(pair: string, prices: Prices) returns (done: bool)
      requires Valid()
      requires pair in positions ==> Valuable(pair, base, prices)
      modifies this`balance, this`positions, positions.Values
      ensures Valid() && positions.Values <= old(positions.Values)
      ensures done <==> pair in old(positions)
      ensures View() == if done then ClosedOut(old(View()), base, pair, prices) else old(View())
    {
      HeldIsFiled(pair);
      if pair !in positions {
        return false;
      }
      hide ClosingPnl, Valuable, Portfolio.View, Portfolio.Valid;
      var pnl := Realise(pair, prices);
      Credit(pnl);
      Drop(pair);
      return true;
    }

    method Credit(pnl: real)
      requires Valid()
      modifies this`balance
      ensures Valid() && View() == old(View()).(balance := old(View()).balance + pnl)
    {
      balance := balance + pnl;
    }

    lemma HeldIsFiled(pair: string)
      ensures pair in positions <==> pair in View().holdings
    {
    }

    /** The position revalued, and what closing it realises. */
    method Realise(pair: string, prices: Prices) returns (pnl: real)
      requires Valid() && pair in positions && Valuable(pair, base, prices)
      modifies positions[pair]
      ensures Valid() && pair in old(View()).holdings
      ensures View().balance == old(View()).balance && View().holdings - {pair} == old(View()).holdings - {pair}
      ensures pnl == ClosingPnl(old(View()).holdings[pair].terms, old(View()).holdings[pair].book, prices)
    {
      RevaluedUnits(positions[pair].terms, positions[pair].units, positions[pair].avgPrice, prices);
      hide ClosingPnl, Revalued;
      pnl := positions[pair].ClosePosition(prices);
    }

    method Drop(pair: string)
      requires Valid() && pair in positions
      modifies this`positions
      ensures Valid() && positions == old(positions) - {pair}
      ensures View() == old(View()).(holdings := old(View()).holdings - {pair})
    {
      positions := positions - {pair};
    }

    /** Files a position that no pair has yet. */
    method File(pair: string, ps: Position)
      requires Valid() && ps.terms.pair == pair && ps.terms.base == base && ps.units != 0.0
      requires forall p <- positions :: positions[p] != ps
      modifies this`positions
      ensures Valid() && positions == old(positions)[pair := ps]
      ensures View() == old(View()).(holdings := old(View()).holdings[pair := Holding(ps.terms, ps.Current())])
    {
      positions := positions[pair := ps];
    }

    method UpdatePortfolio(pair: string, prices: Prices)
      requires Valid()
      requires pair in positions ==> Valuable(pair, base, prices)
      modifies positions.Values
      ensures Valid()
      ensures forall p <- positions :: positions[p].units == old(positions[p].units) && positions[p].avgPrice == old(positions[p].avgPrice)
      ensures pair in positions ==>
                positions[pair].curPrice == if positions[pair].terms.side == Long then prices[pair].bid.value else prices[pair].ask.value
      ensures View() == Ticked(old(View()), pair, prices)
    {
      if pair in positions {
        positions[pair].UpdatePositionPrice(prices);
      }
    }

    /** A held pair was listed when it was opened, and the ticker's keys do not change. */
    method ExecuteSignal(side: Side, pair: string, prices: Prices) returns (outcome: Outcome)
      requires Valid() && (pair in positions ==> Listed(pair, base, prices))
      modifies this`balance, this`positions, this`events, positions.Values
      ensures Valid() && fresh(positions.Values - old(positions.Values))
      ensures outcome == Verdict(old(View()), base, Truncated(tradeUnits), side, pair, prices)
      ensures View() == Executed(old(View()), base, Truncated(tradeUnits), side, pair, prices)
      ensures events == old(events) +
                (if outcome.DidOpen? || outcome.DidAdd? || outcome.DidClose?
                 then [OrderEvent(pair, Truncated(tradeUnits), side)] else [])
    {
      HeldIsFiled(pair);
      hide Verdict, Executed, Truncated, WellFiled, Listed, Portfolio.Valid, Portfolio.View;
      outcome := Decide(Truncated(tradeUnits), side, pair, prices);
      if outcome.DidOpen? || outcome.DidAdd? || outcome.DidClose? {
        events := events + [OrderEvent(pair, Truncated(tradeUnits), side)];
      }
    }

    /** The quote check, and what follows it up to the order event. */
    method Decide(units: int, side: Side, pair: string, prices: Prices) returns (outcome: Outcome)
      requires Valid() && (pair in positions ==> Listed(pair, base, prices))
      modifies this`balance, this`positions, positions.Values
      ensures Valid() && fresh(positions.Values - old(positions.Values))
      ensures pair in old(View()).holdings ==> Listed(pair, base, prices)
      ensures outcome == Verdict(old(View()), base, units, side, pair, prices)
      ensures View() == Executed(old(View()), base, units, side, pair, prices)
    {
      HeldIsFiled(pair);
      Unexecuted(View(), base, units, side, pair, prices);
      hide Verdict, Executed, WellFiled, AllQuoted, Listed, Portfolio.Valid, Portfolio.View;
      var execute := HasAllQuotes(prices);
      if !execute {
        return Unquoted;
      }
      outcome := Trade(units, side, pair, prices);
    }

    /** The part of execute_signal between the quote check and the order event.  A pair that the
        ticker does not list raises in the position's constructor. */
    method Trade(units: int, side: Side, pair: string, prices: Prices) returns (outcome: Outcome)
      requires Valid() && AllQuoted(prices) && (pair in positions ==> Listed(pair, base, prices))
      modifies this`balance, this`positions, positions.Values
      ensures Valid() && fresh(positions.Values - old(positions.Values))
      ensures pair in old(View()).holdings ==> Listed(pair, base, prices)
      ensures outcome == Verdict(old(View()), base, units, side, pair, prices)
      ensures View() == Executed(old(View()), base, units, side, pair, prices)
    {
      HeldIsFiled(pair);
      if pair !in positions {
        if units == 0 || !Listed(pair, base, prices) {
          return Failed;
        }
        AddNewPosition(TypeFor(side), pair, units as real, prices);
        outcome := DidOpen;
      } else if positions[pair].terms.side == TypeFor(side) {
        if positions[pair].units + units as real == 0.0 {
          return Failed;
        }
        var _ := AddPositionUnits(pair, units as real, prices);
        outcome := DidAdd;
      } else if positions[pair].units == units as real {
        var _ := ClosePosition(pair, prices);
        outcome := DidClose;
      } else {
        return Mismatched;
      }
    }
  }
}
