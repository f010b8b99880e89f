/** backtest/portfolio.py: the backtest's position and portfolio.  Unlike portfolio/portfolio.py
    any signal of the other side closes a position, whatever its units, and what is realised is
    reckoned at the price of the last tick that repriced the position. */
module BacktestPortfolios {
  import opened Wrappers
  import opened Decimals
  import opened Pricing
  import opened Positions
  import Portfolios
  import opened BacktestPrices

  type Holding = Portfolios.Holding

  /** calculate_profit_base multiplies by the pair's own exit quote. */
  function Marked(t: Terms, units: real, avgPrice: real, prices: Prices): Book
    requires units != 0.0 && Quoted(prices, t.pair)
  {
    var quote := ExitQuote(t.side, t.pair, prices);
    var profit := ProfitBase(Pips(t.side, quote, avgPrice), quote, units);
    Book(units, avgPrice, quote, profit, ProfitPerc(profit, units))
  }

  function Pooled(t: Terms, b: Book, units: real, prices: Prices): Book
    requires b.units + units != 0.0 && Quoted(prices, t.pair)
  {
    var cost := PooledCost(b.avgPrice, b.units, EntryQuote(t.side, t.pair, prices), units);
    b.(units := b.units + units, avgPrice := PooledPrice(cost, b.units + units))
  }

  /** The average times the units is exactly what all the fills cost, a long's at the ask and a
      short's at the bid; the current price and the profits stand as the last tick left them. */
  lemma PoolingAddsTheCost(t: Terms, b: Book, units: real, prices: Prices)
    requires b.units + units != 0.0 && Quoted(prices, t.pair)
    ensures var a := Pooled(t, b, units, prices);
            && a.units == b.units + units
            && (t.side == Long ==> a.avgPrice * a.units == b.avgPrice * b.units + prices[t.pair].ask.value * units)
            && (t.side == Short ==> a.avgPrice * a.units == b.avgPrice * b.units + prices[t.pair].bid.value * units)
            && a.curPrice == b.curPrice && a.profitBase == b.profitBase && a.profitPerc == b.profitPerc
  {
    var cost, total := b.avgPrice * b.units + EntryQuote(t.side, t.pair, prices) * units, b.units + units;
    assert cost / total * total == cost;
  }

  function Pnl(t: Terms, b: Book): real {
    Realised(Pips(t.side, b.curPrice, b.avgPrice), 1.0, b.units)
  }

  /** The profit shown at a quote is that quote times what a close would then realise, but for
      the rounding of either. */
  lemma ShownProfitIsScaled(t: Terms, units: real, avgPrice: real, prices: Prices)
    requires units != 0.0 && Quoted(prices, t.pair)
    ensures var b := Marked(t, units, avgPrice, prices);
            var quote := ExitQuote(t.side, t.pair, prices);
            Abs(b.profitBase - quote * Pnl(t, b)) <= 0.000005 + 0.005 * Abs(quote)
  {
    hide Pips, ExitQuote, ProfitPerc, ProfitBase, Realised;
    var quote := ExitQuote(t.side, t.pair, prices);
    var b := Marked(t, units, avgPrice, prices);
    Scaled(Pips(t.side, quote, avgPrice), quote, units, b.profitBase, Pnl(t, b));
  }

  /** The percentage shown is that of the profit shown. */
  lemma ShownPercentage(t: Terms, units: real, avgPrice: real, prices: Prices)
    requires units != 0.0 && Quoted(prices, t.pair)
    ensures var b := Marked(t, units, avgPrice, prices);
            IsPercentage(b.profitPerc, b.profitBase, units)
  {
    hide Pips, ProfitPerc, ProfitBase, IsPercentage;
    PercentageIsNear(Marked(t, units, avgPrice, prices).profitBase, units);
  }

  /** Before rounding the profit shown at a quote and the profit a close then realises are the
      same exactly when the quote is 1 or there is no profit. */
  lemma ShownIsRealisedIff(pips: real, quote: real, units: real)
    requires units != 0.0
    ensures pips * quote * units == pips * units <==> quote == 1.0 || pips == 0.0
  {
    assert pips * quote * units - pips * units == pips * units * (quote - 1.0);
    if pips != 0.0 && quote != 1.0 {
      assert pips * units != 0.0;
      assert pips * units * (quote - 1.0) != 0.0;
    }
  }

  /** A long position of one unit bought at 1 shows a profit of 2 at a quote of 2, of which a
      close realises 1. */
  lemma ShownIsTwice(base: string, pair: string, prices: Prices)
    requires Quoted(prices, pair) && prices[pair].bid.value == 2.0
    ensures var t := Terms(base, Long, pair);
            Marked(t, 1.0, 1.0, prices).profitBase == 2.0 && Pnl(t, Marked(t, 1.0, 1.0, prices)) == 1.0
  {
    GridPointsAreFixed(100000);
    GridPointsAreFixed(200000);
    GridPointsAreFixed(100);
  }

  lemma Scaled(pips: real, quote: real, units: real, shown: real, paid: real)
    requires shown == ProfitBase(pips, quote, units) && paid == Realised(pips, 1.0, units)
    ensures Abs(shown - quote * paid) <= 0.000005 + 0.005 * Abs(quote)
  {
    CentsOf(pips, units);
    PointsOf(pips, quote, units);
    hide ProfitBase, Realised;
    Combined(shown, paid, pips * units, quote);
  }

  lemma CentsOf(pips: real, units: real)
    ensures Abs(Realised(pips, 1.0, units) - pips * units) <= 0.005
  {
    CentsAreNear(pips, 1.0, units);
    hide Realised;
    assert pips * 1.0 * units == pips * units;
  }

  lemma PointsOf(pips: real, quote: real, units: real)
    ensures Abs(ProfitBase(pips, quote, units) - (pips * units) * quote) <= 0.000005
  {
    RoundingError(pips * quote * units);
    hide ToPoints;
    assert pips * quote * units == (pips * units) * quote;
  }

  lemma Combined(shown: real, paid: real, x: real, quote: real)
    requires Abs(shown - x * quote) <= 0.000005 && Abs(paid - x) <= 0.005
    ensures Abs(shown - quote * paid) <= 0.000005 + 0.005 * Abs(quote)
  {
    ScaledBound(x - paid, quote, 0.005);
    assert x * quote - quote * paid == (x - paid) * quote;
    TwoSteps(shown, x * quote, quote * paid, 0.000005, (x - paid) * quote, 0.005 * Abs(quote));
  }

  class Position {
    const terms: Terms
    var units: real
    var avgPrice: real
    var curPrice: real
    var profitBase: real
    var profitPerc: real

    function Current(): Book
      reads this
    {
      Book(units, avgPrice, curPrice, profitBase, profitPerc)
    }

    constructor (terms: Terms, units: real, prices: Prices)
      requires units != 0.0 && Quoted(prices, terms.pair)
      ensures this.terms == terms && this.units == units
      ensures terms.side == Long ==> avgPrice == prices[terms.pair].ask.value && curPrice == prices[terms.pair].bid.value
      ensures terms.side == Short ==> avgPrice == prices[terms.pair].bid.value && curPrice == prices[terms.pair].ask.value
      ensures Current() == Marked(terms, units, EntryQuote(terms.side, terms.pair, prices), prices)
    {
      this.terms := terms;
      this.units := units;
      this.avgPrice := EntryQuote(terms.side, terms.pair, prices);
      this.curPrice := ExitQuote(terms.side, terms.pair, prices);
      this.profitBase, this.profitPerc := 0.0, 0.0;
      new;
      this.profitBase := ProfitBase(Pips(terms.side, curPrice, avgPrice), curPrice, units);
      this.profitPerc := ProfitPerc(profitBase, units);
    }

    method UpdatePositionPrice(prices: Prices)
      requires units != 0.0 && Quoted(prices, terms.pair)
      modifies this
      ensures units == old(units) && avgPrice == old(avgPrice)
      ensures curPrice == if terms.side == Long then prices[terms.pair].bid.value else prices[terms.pair].ask.value
      ensures Current() == Marked(terms, old(units), old(avgPrice), prices)
    {
      curPrice := ExitQuote(terms.side, terms.pair, prices);
      profitBase := ProfitBase(Pips(terms.side, curPrice, avgPrice), curPrice, units);
      profitPerc := ProfitPerc(profitBase, units);
    }

    /** Unlike the live position, the price and profit of the last tick are left standing. */
    method AddUnits(more: real, prices: Prices)
      requires units + more != 0.0 && Quoted(prices, terms.pair)
      modifies this
      ensures units == old(units) + more
      ensures terms.side == Long ==> avgPrice * units == old(avgPrice * units) + prices[terms.pair].ask.value * more
      ensures terms.side == Short ==> avgPrice * units == old(avgPrice * units) + prices[terms.pair].bid.value * more
      ensures Current() == Pooled(terms, old(Current()), more, prices)
    {
      PoolingAddsTheCost(terms, Current(), more, prices);
      var total := units + more;
      avgPrice := PooledPrice(PooledCost(avgPrice, units, EntryQuote(terms.side, terms.pair, prices), more), total);
      units := total;
    }

    /** The context is switched before the profit is rounded to cents. */
    method ClosePosition(context: DecimalContext) returns (pnl: real)
      modifies context
      ensures context.halfDown && pnl == Pnl(terms, Current())
    {
      context.halfDown := true;
      pnl := Realised(Pips(terms.side, curPrice, avgPrice), 1.0, units);
    }
  }

  /** The portfolio's state as a value; `closed` lists what each closing realised. */
  datatype Account = Account(
    balance: real, holdings: map<string, Holding>, trades: nat, wins: nat, losses: nat, closed: seq<real>)

  function Opening(equity: real): Account {
    Account(equity, map[], 0, 0, 0, [])
  }

  ghost predicate WellFiled(holdings: map<string, Holding>) {
    forall p <- holdings :: holdings[p].terms.pair == p && holdings[p].book.units != 0.0
  }

  function Lot(size: Option<real>, tradeUnits: real): int {
    if size.None? then Portfolios.Truncated(tradeUnits) else Portfolios.Truncated(size.value * 0.001)
  }

  /** The whole units, toward zero, of a thousandth of the size, or without one of the
      portfolio's own lot. */
  lemma LotIsTheWholePart(size: Option<real>, tradeUnits: real)
    ensures var x, n := if size.Some? then size.value / 1000.0 else tradeUnits, Lot(size, tradeUnits) as real;
            && (x >= 0.0 ==> 0.0 <= n <= x < n + 1.0)
            && (x <= 0.0 ==> n - 1.0 < x <= n <= 0.0)
  {
    Portfolios.TruncationIsTowardZero(if size.Some? then size.value * 0.001 else tradeUnits);
  }

  function ClosedOut(a: Account, pair: string): Account {
    if pair !in a.holdings then a else
    var h := a.holdings[pair];
    var pnl := Pnl(h.terms, h.book);
    Account(a.balance + pnl, a.holdings - {pair}, a.trades,
            if pnl > 0.0 then a.wins + 1 else a.wins, if pnl > 0.0 then a.losses else a.losses + 1,
            a.closed + [pnl])
  }

  function OpenedIn(a: Account, base: string, side: PositionType, pair: string, units: real, prices: Prices): Account
    requires units != 0.0 && Quoted(prices, pair)
  {
    var t := Terms(base, side, pair);
    var book := Marked(t, units, EntryQuote(side, pair, prices), prices);
    a.(holdings := a.holdings[pair := Portfolios.Holding(t, book)], trades := a.trades + 1)
  }

  function AddedTo(a: Account, pair: string, units: real, prices: Prices): Account
    requires pair in a.holdings && a.holdings[pair].book.units + units != 0.0
    requires Quoted(prices, a.holdings[pair].terms.pair)
  {
    var h := a.holdings[pair];
    a.(holdings := a.holdings[pair := h.(book := Pooled(h.terms, h.book, units, prices))])
  }

  ghost function Ticked(a: Account, pair: string, prices: Prices): Account
    requires WellFiled(a.holdings)
  {
    if pair !in a.holdings || !Quoted(prices, pair) then a else
    var h := a.holdings[pair];
    a.(holdings := a.holdings[pair := h.(book := Marked(h.terms, h.book.units, h.book.avgPrice, prices))])
  }

  /** What execute_signal does: an exception, a new position, more units, a closing, or nothing
      for a side that is neither of the two strings. */
  datatype Outcome = Raised | DidOpen | DidAdd | DidClose | Ignored

  ghost function Verdict(a: Account, side: string, pair: string, lot: int, prices: Prices): Outcome {
    if pair !in a.holdings then
      (if lot == 0 || !Quoted(prices, pair) then Raised else DidOpen)
    else if side == (if a.holdings[pair].terms.side == Long then "true" else "false") then
      (if a.holdings[pair].book.units + lot as real == 0.0 || !Quoted(prices, pair) then Raised else DidAdd)
    else if side == "true" || side == "false" then DidClose
    else Ignored
  }

  ghost function Executed(a: Account, base: string, side: string, pair: string, lot: int, prices: Prices): Account
    requires WellFiled(a.holdings)
  {
    match Verdict(a, side, pair, lot, prices)
    case DidOpen => OpenedIn(a, base, if side == "true" then Long else Short, pair, lot as real, prices)
    case DidAdd => AddedTo(a, pair, lot as real, prices)
    case DidClose => ClosedOut(a, pair)
    case _ => a
  }

  class Portfolio {
    const base: string
    const tradeUnits: real
    const events: EventQueue
    const context: DecimalContext
    var balance: real
    var positions: map<string, Position>
    var tradeCount: nat
    var winCount: nat
    var lossCount: nat
    ghost var closed: seq<real>

    ghost predicate Valid()
      reads this`balance, this`positions, this`tradeCount, this`winCount, this`lossCount, this`closed
      reads positions.Values
      ensures Valid() ==> WellFiled(View().holdings)
    {
      && (forall p <- positions :: positions[p].terms.pair == p && positions[p].units != 0.0)
      && (forall p <- positions, q <- positions :: positions[p] == positions[q] ==> p == q)
    }

    ghost function Holdings(): map<string, Holding>
      reads this`positions, positions.Values
    {
      map p | p in positions :: Portfolios.Holding(positions[p].terms, positions[p].Current())
    }

    ghost function View(): Account
      reads this`balance, this`positions, this`tradeCount, this`winCount, this`lossCount, this`closed
      reads positions.Values
    {
      Account(balance, Holdings(), tradeCount, winCount, lossCount, closed)
    }

    lemma HeldIsFiled(pair: string)
      ensures pair in positions <==> pair in View().holdings
    {
    }

    constructor (base: string, equity: real, riskPerTrade: real, events: EventQueue, context: DecimalContext)
      ensures Valid() && View() == Opening(equity) && positions == map[]
      ensures this.base == base && this.events == events && this.context == context
      ensures tradeUnits == equity * 100.0 * riskPerTrade
    {
      this.base := base;
      this.events := events;
      this.context := context;
      this.tradeUnits := equity * 100.0 * riskPerTrade;
      this.balance := equity;
      this.positions := map[];
      this.tradeCount, this.winCount, this.lossCount, this.closed := 0, 0, 0, [];
    }

    method ClosePosition(pair: string) returns (done: bool)
      requires Valid()
      modifies this`balance, this`positions, this`winCount, this`lossCount, this`closed, context
      ensures Valid() && positions.Values <= old(positions.Values)
      ensures done <==> pair in old(positions)
      ensures View() == ClosedOut(old(View()), pair)
      ensures context.halfDown == (old(context.halfDown) || done)
    {
      HeldIsFiled(pair);
      if pair !in positions {
        return false;
      }
      hide Pnl, Portfolio.View, Portfolio.Valid;
      var pnl := Realise(pair);
      Record(pnl);
      Drop(pair);
      return true;
    }

    method Realise(pair: string) returns (pnl: real)
      requires Valid() && pair in positions
      modifies context
      ensures Valid() && View() == old(View()) && context.halfDown && pair in View().holdings
      ensures pnl == Pnl(View().holdings[pair].terms, View().holdings[pair].book)
    {
      hide Pnl;
      pnl := positions[pair].ClosePosition(context);
    }

    method Drop(pair: string)
      requires Valid() && pair in positions
      modifies this`positions
      ensures Valid() && positions == old(positions) - {pair}
      ensures View() == old(View()).(holdings := old(View()).holdings - {pair})
    {
      positions := positions - {pair};
    }

    /** Files a position that no pair has yet, and counts the trade. */
    method File(pair: string, ps: Position)
      requires Valid() && ps.terms.pair == pair && ps.units != 0.0
      requires forall p <- positions :: positions[p] != ps
      modifies this`positions, this`tradeCount
      ensures Valid() && positions == old(positions)[pair := ps]
      ensures View() == old(View()).(holdings := old(View()).holdings[pair := Portfolios.Holding(ps.terms, ps.Current())],
                                     trades := old(View()).trades + 1)
    {
      ghost var h := Holdings();
      positions := positions[pair := ps];
      assert Holdings() == h[pair := Portfolios.Holding(ps.terms, ps.Current())];
      tradeCount := tradeCount + 1;
    }

    /** The counting half of close_position. */
    method Record(pnl: real)
      requires Valid()
      modifies this`balance, this`winCount, this`lossCount, this`closed
      ensures Valid()
      ensures var a := old(View());
              View() == Account(a.balance + pnl, a.holdings, a.trades, if pnl > 0.0 then a.wins + 1 else a.wins,
                                if pnl > 0.0 then a.losses else a.losses + 1, a.closed + [pnl])
    {
      if pnl > 0.0 {
        winCount := winCount + 1;
      } else {
        lossCount := lossCount + 1;
      }
      balance := balance + pnl;
      closed := closed + [pnl];
    }

    method AddNewPosition(side: PositionType, pair: string, units: real, prices: Prices)
      requires Valid() && units != 0.0 && Quoted(prices, pair)
      modifies this`positions, this`tradeCount
      ensures Valid() && fresh(positions.Values - old(positions.Values))
      ensures View() == OpenedIn(old(View()), base, side, pair, units, prices)
    {
      hide Marked, Portfolio.Valid, Portfolio.View;
      var t := Terms(base, side, pair);
      MarkedUnits(t, units, prices);
      var ps := new Position(t, units, prices);
      File(pair, ps);
    }

    method AddPositionUnits(pair: string, units: real, prices: Prices) returns (done: bool)
      requires Valid()
      requires pair in positions ==> positions[pair].units + units != 0.0 && Quoted(prices, pair)
      modifies positions.Values
      ensures Valid()
      ensures done <==> pair in positions
      ensures View() == if done then AddedTo(old(View()), pair, units, prices) else old(View())
    {
      hide Pooled;
      if pair !in positions {
        return false;
      }
      PooledUnits(positions[pair].terms, positions[pair].Current(), units, prices);
      positions[pair].AddUnits(units, prices);
      return true;
    }

    /** A held pair without a quote raises before anything has changed. */
    method UpdatePortfolio(pair: string, prices: Prices) returns (ok: bool)
      requires Valid()
      modifies positions.Values
      ensures Valid()
      ensures ok <==> pair !in positions || Quoted(prices, pair)
      ensures View() == Ticked(old(View()), pair, prices)
    {
      ok := true;
      if pair in positions {
        if !Quoted(prices, pair) {
          return false;
        }
        positions[pair].UpdatePositionPrice(prices);
      }
    }

    /** The part of execute_signal that comes before the order event. */
    method Trade(side: string, pair: string, lot: int, prices: Prices) returns (outcome: Outcome)
      requires Valid()
      modifies this`balance, this`positions, this`tradeCount, this`winCount, this`lossCount, this`closed
      modifies positions.Values, context
      ensures Valid() && fresh(positions.Values - old(positions.Values))
      ensures outcome == Verdict(old(View()), side, pair, lot, prices)
      ensures View() == Executed(old(View()), base, side, pair, lot, prices)
      ensures context.halfDown == (old(context.halfDown) || outcome.DidClose?)
    {
      hide OpenedIn, AddedTo, ClosedOut;
      if pair !in positions {
        if lot == 0 || !Quoted(prices, pair) {
          return Raised;
        }
        AddNewPosition(if side == "true" then Long else Short, pair, lot as real, prices);
        return DidOpen;
      }
      var ps := positions[pair];
      if side == (if ps.terms.side == Long then "true" else "false") {
        if ps.units + lot as real == 0.0 || !Quoted(prices, pair) {
          return Raised;
        }
        var _ := AddPositionUnits(pair, lot as real, prices);
        outcome := DidAdd;
      } else if side == "true" || side == "false" {
        var _ := ClosePosition(pair);
        outcome := DidClose;
      } else {
        outcome := Ignored;
      }
    }

    /** Every signal that does not raise is answered with an order. */
    method ExecuteSignal(side: string, pair: string, size: Option<real>, prices: Prices) returns (outcome: Outcome)
      requires Valid()
      modifies this`balance, this`positions, this`tradeCount, this`winCount, this`lossCount, this`closed
      modifies positions.Values, context, events
      ensures Valid() && fresh(positions.Values - old(positions.Values))
      ensures outcome == Verdict(old(View()), side, pair, Lot(size, tradeUnits), prices)
      ensures View() == Executed(old(View()), base, side, pair, Lot(size, tradeUnits), prices)
      ensures context.halfDown == (old(context.halfDown) || outcome.DidClose?)
      ensures events.items == old(events.items) +
                (if outcome.Raised? then [] else [Order(pair, Lot(size, tradeUnits), side)])
    {
      hide Verdict, Executed, Lot;
      var units := Lot(size, tradeUnits);
      outcome := Trade(side, pair, units, prices);
      if !outcome.Raised? {
        events.Put(Order(pair, units, side));
      }
    }

    /** The percentage of trades won; with no trade yet the division raises. */
    function GetWinRate(): Option<real>
      reads this
    {
      Rate(winCount, tradeCount)
    }

    function GetLossRate(): Option<real>
      reads this
    {
      Rate(lossCount, tradeCount)
    }
  }

  function Rate(count: nat, trades: nat): Option<real> {
    if trades == 0 then None else Some(count as real / trades as real * 100.0)
  }

  /** So many in a hundred. */
  ghost predicate IsRate(rate: real, count: nat, trades: nat) {
    rate * trades as real == 100.0 * count as real
  }

  /** There is a rate exactly when there was a trade, and it is so many of a hundred. */
  lemma RateIsThePercentage(count: nat, trades: nat)
    ensures Rate(count, trades).Some? <==> trades > 0
    ensures Rate(count, trades).Some? ==> IsRate(Rate(count, trades).value, count, trades)
  {
    if trades > 0 {
      WholeOfShare(count as real, trades as real);
    }
  }

  function Sum(xs: seq<real>): real {
    if xs == [] then 0.0 else Sum(xs[..|xs| - 1]) + xs[|xs| - 1]
  }

  function Gains(xs: seq<real>): nat {
    if xs == [] then 0 else Gains(xs[..|xs| - 1]) + (if xs[|xs| - 1] > 0.0 then 1 else 0)
  }

  /** The gains are the closings that realised more than nothing. */
  lemma {:induction false} GainsAreThePositive(xs: seq<real>)
    ensures Gains(xs) == |set i | 0 <= i < |xs| && xs[i] > 0.0|
  {
    if xs != [] {
      var n := |xs| - 1;
      GainsAreThePositive(xs[..n]);
      var before, after := set i | 0 <= i < n && xs[..n][i] > 0.0, set i | 0 <= i < |xs| && xs[i] > 0.0;
      assert after == if xs[n] > 0.0 then before + {n} else before;
    }
  }

  /** The counts and the balance tell the story of the closings: every trade is open, won or
      lost, the wins are the closings that realised a gain, and the balance is the initial
      equity and all that was realised. */
  ghost predicate Balanced(a: Account, equity: real) {
    && a.trades == |a.closed| + |a.holdings|
    && a.wins == Gains(a.closed)
    && a.wins + a.losses == |a.closed|
    && a.balance == equity + Sum(a.closed)
  }

  lemma ClosingBalances(a: Account, pair: string, equity: real)
    requires Balanced(a, equity)
    ensures Balanced(ClosedOut(a, pair), equity)
  {
    if pair in a.holdings {
      hide Pnl;
      var h := a.holdings[pair];
      var xs := a.closed + [Pnl(h.terms, h.book)];
      assert xs[..|xs| - 1] == a.closed;
      assert a.holdings.Keys == (a.holdings - {pair}).Keys + {pair};
    }
  }

  /** Every signal, every tick and every closing keeps the books balanced. */
  lemma SignalBalances(a: Account, base: string, side: string, pair: string, lot: int, prices: Prices, equity: real)
    requires WellFiled(a.holdings) && Balanced(a, equity)
    ensures Balanced(Executed(a, base, side, pair, lot, prices), equity)
  {
    hide Marked, Pooled, Gains, Sum, ClosedOut;
    match Verdict(a, side, pair, lot, prices)
    case DidOpen =>
      assert Executed(a, base, side, pair, lot, prices).holdings.Keys == a.holdings.Keys + {pair};
    case DidAdd =>
      assert Executed(a, base, side, pair, lot, prices).holdings.Keys == a.holdings.Keys;
    case DidClose =>
      ClosingBalances(a, pair, equity);
    case _ =>
  }

  lemma SignalFiles(a: Account, base: string, side: string, pair: string, lot: int, prices: Prices)
    requires WellFiled(a.holdings)
    ensures WellFiled(Executed(a, base, side, pair, lot, prices).holdings)
  {
    hide Marked, Pooled, Pnl;
    match Verdict(a, side, pair, lot, prices)
    case DidOpen =>
      MarkedUnits(Terms(base, if side == "true" then Long else Short, pair), lot as real, prices);
    case DidAdd =>
      PooledUnits(a.holdings[pair].terms, a.holdings[pair].book, lot as real, prices);
    case _ =>
  }

  lemma MarkedUnits(t: Terms, units: real, prices: Prices)
    requires units != 0.0 && Quoted(prices, t.pair)
    ensures Marked(t, units, EntryQuote(t.side, t.pair, prices), prices).units == units
  {
  }

  lemma PooledUnits(t: Terms, b: Book, units: real, prices: Prices)
    requires b.units + units != 0.0 && Quoted(prices, t.pair)
    ensures Pooled(t, b, units, prices).units == b.units + units
  {
  }

  lemma TickBalances(a: Account, pair: string, prices: Prices, equity: real)
    requires WellFiled(a.holdings) && Balanced(a, equity)
    ensures Balanced(Ticked(a, pair, prices), equity)
  {
    hide Gains, Sum, Pips, ProfitBase, ProfitPerc;
    if pair in a.holdings && Quoted(prices, pair) {
      assert Ticked(a, pair, prices).holdings.Keys == a.holdings.Keys;
    }
  }

  lemma TickFiles(a: Account, pair: string, prices: Prices)
    requires WellFiled(a.holdings)
    ensures WellFiled(Ticked(a, pair, prices).holdings)
  {
  }

  /** Once nothing is open, the win and loss rates are defined, and add up to a hundred per
      cent, exactly when there was a trade. */
  lemma RatesAddUpIff(a: Account, equity: real)
    requires Balanced(a, equity) && a.holdings == map[]
    ensures Rate(a.wins, a.trades).Some? && Rate(a.losses, a.trades).Some? <==> a.closed != []
    ensures a.closed != [] ==> Rate(a.wins, a.trades).value + Rate(a.losses, a.trades).value == 100.0
  {
    hide Gains, Sum;
    if a.closed != [] {
      SharesOfAWhole(a.wins as real, a.losses as real, a.trades as real);
    }
  }

  lemma SharesOfAWhole(x: real, y: real, n: real)
    requires n != 0.0 && x + y == n
    ensures x / n * 100.0 + y / n * 100.0 == 100.0
  {
    assert x / n + y / n == n / n;
  }
}
