/** Whole runs of the portfolio against a cash ledger that knows neither average prices nor
    rounding: it only files what each fill cost and what each close brought in. */
module Ledgers {
  import opened Wrappers
  import opened Decimals
  import opened Pricing
  import opened Positions
  import opened Portfolios

  /** One thing the event loop does to the portfolio, at the prices then in the ticker. */
  datatype Action =
    | Signal(side: Side, pair: string, prices: Prices)
    | Tick(pair: string, prices: Prices)
    | Reduce(pair: string, units: real, prices: Prices)
    | Close(pair: string, prices: Prices)

  /** The lookups and divisions of the action are defined. */
  ghost predicate Allowed(a: Account, base: string, act: Action) {
    match act
    case Signal(_, pair, prices) => AllQuoted(prices) ==> Listed(pair, base, prices)
    case Tick(pair, prices) => pair in a.holdings ==> Valuable(pair, base, prices)
    case Reduce(pair, units, prices) =>
      pair in a.holdings && a.holdings[pair].book.units != units &&
      Valuable(pair, base, prices) && Quoted(prices, ConversionPair(pair, base))
    case Close(pair, prices) => pair in a.holdings && Valuable(pair, base, prices)
  }

  ghost function Step(a: Account, base: string, lot: int, act: Action): (b: Account)
    requires WellFiled(a.holdings, base) && Allowed(a, base, act)
    ensures WellFiled(b.holdings, base)
  {
    match act
    case Signal(side, pair, prices) => Executed(a, base, lot, side, pair, prices)
    case Tick(pair, prices) => Ticked(a, pair, prices)
    case Reduce(pair, units, prices) => Reduced(a, pair, units, prices)
    case Close(pair, prices) => ClosedOut(a, base, pair, prices)
  }

  ghost predicate Runs(a: Account, base: string, lot: int, acts: seq<Action>)
    requires WellFiled(a.holdings, base)
    decreases acts
  {
    acts == [] || (Allowed(a, base, acts[0]) && Runs(Step(a, base, lot, acts[0]), base, lot, acts[1..]))
  }

  ghost function Run(a: Account, base: string, lot: int, acts: seq<Action>): (b: Account)
    requires WellFiled(a.holdings, base) && Runs(a, base, lot, acts)
    ensures WellFiled(b.holdings, base)
    decreases acts
  {
    if acts == [] then a else Run(Step(a, base, lot, acts[0]), base, lot, acts[1..])
  }

  // ----- the reference ledger

  /** Open units of a pair and the exact sum of what their fills cost. */
  datatype Entry = Entry(side: PositionType, units: real, cost: real)

  /** `cash` is what the closed units brought in; `slack` is half a cent for each closing fill
      plus half a point for each converted unit it closed. */
  datatype Ledger = Ledger(entries: map<string, Entry>, cash: real, slack: real)

  /** The pair that turns the currency a pair is quoted in into the account's. */
  function Exchange(pair: string, base: string): string {
    (if |pair| < 3 then [] else pair[3..]) + base
  }

  /** What a unit of profit of a closed long, or short, is worth in the account's currency. */
  function CloseRate(side: PositionType, pair: string, base: string, prices: Prices): real
    requires (if |pair| < 3 then [] else pair[3..]) != base ==> Quoted(prices, Exchange(pair, base))
  {
    if (if |pair| < 3 then [] else pair[3..]) == base then 1.0
    else if side == Long then prices[Exchange(pair, base)].bid.value
    else prices[Exchange(pair, base)].ask.value
  }

  /** A removal is converted at the other side, and also within the account's own currency. */
  function ReduceRate(side: PositionType, pair: string, base: string, prices: Prices): real
    requires Quoted(prices, Exchange(pair, base))
  {
    if side == Long then prices[Exchange(pair, base)].ask.value else prices[Exchange(pair, base)].bid.value
  }

  /** The cost of so many of the entry's units. */
  function ShareOf(e: Entry, units: real): real
    requires e.units != 0.0
  {
    if units == e.units then e.cost else e.cost / e.units * units
  }

  /** units of the entry leave at the exit quote, taking their share of the cost with them. */
  function Settle(l: Ledger, pair: string, units: real, rate: real, prices: Prices): Ledger
    requires pair in l.entries && l.entries[pair].units != 0.0 && Quoted(prices, pair)
  {
    var e := l.entries[pair];
    var share := ShareOf(e, units);
    var gain := if e.side == Long then prices[pair].bid.value * units - share else share - prices[pair].ask.value * units;
    Ledger(if units == e.units then l.entries - {pair}
           else l.entries[pair := e.(units := e.units - units, cost := e.cost - share)],
           l.cash + gain * rate,
           l.slack + 0.005 + 0.000005 * Abs(rate * units))
  }

  function Fill(l: Ledger, side: PositionType, pair: string, units: real, prices: Prices): Ledger
    requires Quoted(prices, pair)
  {
    var price := if side == Long then prices[pair].ask.value else prices[pair].bid.value;
    var e := if pair in l.entries then l.entries[pair] else Entry(side, 0.0, 0.0);
    l.(entries := l.entries[pair := e.(units := e.units + units, cost := e.cost + price * units)])
  }

  /** What the action does to the ledger, decided from the ledger's own entries; an action
      whose prices are missing leaves the ledger alone. */
  ghost function Post(l: Ledger, base: string, lot: int, act: Action): Ledger {
    var pair := act.pair;
    if act.Tick? || (act.Signal? && !AllQuoted(act.prices)) || !Valuable(pair, base, act.prices) then l
    else if act.Signal? && (pair !in l.entries || l.entries[pair].side == TypeFor(act.side)) then
      var held := if pair in l.entries then l.entries[pair].units else 0.0;
      if held + lot as real == 0.0 then l else Fill(l, TypeFor(act.side), pair, lot as real, act.prices)
    else if pair !in l.entries || l.entries[pair].units == 0.0 then l
    else
      var e := l.entries[pair];
      match act
      case Signal(_, _, prices) =>
        if e.units == lot as real then Settle(l, pair, e.units, CloseRate(e.side, pair, base, prices), prices) else l
      case Reduce(_, units, prices) =>
        if Quoted(prices, Exchange(pair, base))
        then Settle(l, pair, units, ReduceRate(e.side, pair, base, prices), prices) else l
      case Close(_, prices) => Settle(l, pair, e.units, CloseRate(e.side, pair, base, prices), prices)
      case Tick(_, _) => l
  }

  ghost function PostAll(l: Ledger, base: string, lot: int, acts: seq<Action>): Ledger
    decreases acts
  {
    if acts == [] then l else PostAll(Post(l, base, lot, acts[0]), base, lot, acts[1..])
  }

  // ----- agreement

  /** The books hold the ledger's units, at an average price whose product with the units is
      exactly the cost of the fills, and the balance is the ledger's cash within its slack. */
  ghost predicate Agree(a: Account, equity: real, l: Ledger) {
    && a.holdings.Keys == l.entries.Keys
    && (forall p <- a.holdings :: Matches(a.holdings[p], l.entries[p]))
    && Within(a.balance, equity + l.cash, l.slack)
  }

  ghost predicate Matches(h: Holding, e: Entry) {
    h.terms.side == e.side && h.book.units == e.units && h.book.avgPrice * h.book.units == e.cost
  }

  lemma WithinAdds(x: real, y: real, slack: real, dx: real, dy: real, more: real)
    requires Within(x, y, slack) && Within(dx, dy, more)
    ensures Within(x + dx, y + dy, slack + more)
  {
  }

  lemma StepAgrees(a: Account, base: string, lot: int, act: Action, equity: real, l: Ledger)
    requires WellFiled(a.holdings, base) && Allowed(a, base, act)
    requires Agree(a, equity, l)
    ensures Agree(Step(a, base, lot, act), equity, Post(l, base, lot, act))
  {
    hide OpenedIn, AddedTo, ClosedOut, Reduced, Revalued, Fill, Settle, Within;
    if act.pair in a.holdings {
      assert Matches(a.holdings[act.pair], l.entries[act.pair]);
    }
    match act
    case Tick(pair, prices) => TickAgrees(a, base, pair, prices, equity, l);
    case Signal(side, pair, prices) =>
      match Verdict(a, base, lot, side, pair, prices) {
        case DidOpen => OpenAgrees(a, base, lot as real, side, pair, prices, equity, l);
        case DidAdd => AddAgrees(a, base, lot as real, pair, prices, equity, l);
        case DidClose => CloseAgrees(a, base, pair, prices, equity, l);
        case _ =>
      }
    case Close(pair, prices) => CloseAgrees(a, base, pair, prices, equity, l);
    case Reduce(pair, units, prices) => ReduceAgrees(a, base, pair, units, prices, equity, l);
  }

  lemma TickAgrees(a: Account, base: string, pair: string, prices: Prices, equity: real, l: Ledger)
    requires WellFiled(a.holdings, base) && Agree(a, equity, l)
    requires pair in a.holdings ==> Valuable(pair, base, prices)
    ensures Agree(Ticked(a, pair, prices), equity, l)
  {
    hide ProfitBase, ProfitPerc, Pips, Matches, Within;
    if pair in a.holdings {
      MatchesByCost(a.holdings[pair], Ticked(a, pair, prices).holdings[pair], l.entries[pair]);
    }
  }

  lemma MatchesByCost(h: Holding, k: Holding, e: Entry)
    requires Matches(h, e)
    requires k.terms == h.terms && k.book.units == h.book.units && k.book.avgPrice == h.book.avgPrice
    ensures Matches(k, e)
  {
  }

  lemma OpenAgrees(a: Account, base: string, units: real, side: Side, pair: string, prices: Prices, equity: real, l: Ledger)
    requires WellFiled(a.holdings, base) && pair !in a.holdings && units != 0.0
    requires Valuable(pair, base, prices) && Agree(a, equity, l)
    ensures Agree(OpenedIn(a, base, TypeFor(side), pair, units, prices), equity, Fill(l, TypeFor(side), pair, units, prices))
  {
  }

  lemma AddAgrees(a: Account, base: string, units: real, pair: string, prices: Prices, equity: real, l: Ledger)
    requires WellFiled(a.holdings, base) && pair in a.holdings && a.holdings[pair].book.units + units != 0.0
    requires Valuable(pair, base, prices) && Agree(a, equity, l)
    ensures Agree(AddedTo(a, base, pair, units, prices), equity, Fill(l, a.holdings[pair].terms.side, pair, units, prices))
  {
    AddPoolsTheCost(a.holdings[pair].terms, a.holdings[pair].book, units, prices);
  }

  lemma SettlesForTheCashFlow(l: Ledger, pair: string, units: real, rate: real, prices: Prices)
    requires pair in l.entries && l.entries[pair].units != 0.0 && Quoted(prices, pair)
    ensures var e := l.entries[pair];
            var share := ShareOf(e, units);
            Settle(l, pair, units, rate, prices)
            == Ledger(if units == e.units then l.entries - {pair}
                      else l.entries[pair := e.(units := e.units - units, cost := e.cost - share)],
                      l.cash + CashFlow(e.side, ExitQuote(e.side, pair, prices), share, units, rate),
                      l.slack + Slack(rate, units))
  {
    var e := l.entries[pair];
    hide ShareOf;
    GainIsTheCashFlow(e.side, pair, ShareOf(e, units), units, rate, prices);
    hide CashFlow;
  }

  lemma RatesAgree(side: PositionType, pair: string, base: string, prices: Prices)
    requires Valuable(pair, base, prices)
    ensures CloseRate(side, pair, base, prices) == ConversionRate(side, pair, base, prices)
    ensures Quoted(prices, ConversionPair(pair, base)) ==>
              ReduceRate(side, pair, base, prices) == RemovalRate(Terms(base, side, pair), prices)
  {
  }

  lemma CloseAgrees(a: Account, base: string, pair: string, prices: Prices, equity: real, l: Ledger)
    requires WellFiled(a.holdings, base) && pair in a.holdings && Valuable(pair, base, prices)
    requires Agree(a, equity, l) && l.entries[pair].units != 0.0
    ensures Agree(ClosedOut(a, base, pair, prices), equity,
                  Settle(l, pair, l.entries[pair].units, CloseRate(l.entries[pair].side, pair, base, prices), prices))
  {
    RatesAgree(l.entries[pair].side, pair, base, prices);
    hide Realised, Pips, CashFlow, Slack, ProfitBase, ProfitPerc, Settle, ConversionRate, ExitQuote, Exchange, CloseRate;
    var h := a.holdings[pair];
    assert h.terms.pair == pair && h.terms.base == base;
    SettlesForTheCashFlow(l, pair, h.book.units, ConversionRate(h.terms.side, pair, base, prices), prices);
    var rate := ConversionRate(h.terms.side, pair, base, prices);
    var exit := ExitQuote(h.terms.side, pair, prices);
    assert Matches(h, l.entries[pair]);
    RealisedIsNearCashFlow(h.terms.side, exit, h.book.avgPrice, h.book.units, l.entries[pair].cost, rate);
    WithinAdds(a.balance, equity + l.cash, l.slack, ClosingPnl(h.terms, h.book, prices),
               CashFlow(h.terms.side, exit, l.entries[pair].cost, h.book.units, rate), Slack(rate, h.book.units));
  }

  lemma ReduceAgrees(a: Account, base: string, pair: string, units: real, prices: Prices, equity: real, l: Ledger)
    requires WellFiled(a.holdings, base) && pair in a.holdings && a.holdings[pair].book.units != units
    requires Valuable(pair, base, prices) && Quoted(prices, ConversionPair(pair, base))
    requires Agree(a, equity, l) && l.entries[pair].units != 0.0
    ensures Agree(Reduced(a, pair, units, prices), equity,
                  Settle(l, pair, units, ReduceRate(l.entries[pair].side, pair, base, prices), prices))
  {
    RatesAgree(l.entries[pair].side, pair, base, prices);
    SettlesForTheCashFlow(l, pair, units, RemovalRate(Terms(base, l.entries[pair].side, pair), prices), prices);
    hide Realised, Pips, CashFlow, Slack, ProfitBase, ProfitPerc, Settle, ConversionRate, RemovalRate, ExitQuote, Exchange, ReduceRate, ShareOf;
    var h := a.holdings[pair];
    assert h.terms.pair == pair && h.terms.base == base;
    var rate := RemovalRate(h.terms, prices);
    var exit := ExitQuote(h.terms.side, pair, prices);
    assert Matches(h, l.entries[pair]);
    var share := ShareOfCost(h.book.avgPrice, l.entries[pair], units);
    RealisedIsNearCashFlow(h.terms.side, exit, h.book.avgPrice, units, share, rate);
    WithinAdds(a.balance, equity + l.cash, l.slack, RemovalPnl(h.terms, h.book, units, prices),
               CashFlow(h.terms.side, exit, share, units, rate), Slack(rate, units));
    var after := Settle(l, pair, units, rate, prices);
    assert after.entries[pair] == Entry(h.terms.side, h.book.units - units, l.entries[pair].cost - share);
    assert Matches(Reduced(a, pair, units, prices).holdings[pair], after.entries[pair]);
  }

  lemma ShareOfCost(avgPrice: real, e: Entry, part: real) returns (share: real)
    requires e.units != 0.0 && avgPrice * e.units == e.cost
    ensures share == ShareOf(e, part) == avgPrice * part
    ensures avgPrice * (e.units - part) == e.cost - share
  {
    share := ShareOf(e, part);
    assert e.cost / e.units == avgPrice;
  }

  /** Over any run from a fresh account the books and the ledger agree: every open position's
      average price times its units is the exact cost of its fills, and balance minus starting
      equity is the exact cash flow of all closing fills within the accumulated slack. */
  lemma BalanceIsTheCashFlow(base: string, lot: int, equity: real, acts: seq<Action>)
    requires Runs(Account(equity, map[]), base, lot, acts)
    ensures Agree(Run(Account(equity, map[]), base, lot, acts), equity, PostAll(Ledger(map[], 0.0, 0.0), base, lot, acts))
  {
    RunAgrees(Account(equity, map[]), base, lot, acts, equity, Ledger(map[], 0.0, 0.0));
  }

  /** A buy and the sell that closes it, in the account's own currency: bought at the ask of the
      one moment and sold at the bid of the other. */
  lemma BoughtAndSold(base: string, lot: int, equity: real, pair: string, first: Prices, later: Prices, units: real, ask: real, bid: real)
    returns (pnl: real)
    requires lot != 0 && units == lot as real && |pair| >= 3 && pair[3..] == base
    requires AllQuoted(first) && AllQuoted(later) && pair in first && pair in later
    requires first[pair].ask == Some(ask) && later[pair].bid == Some(bid)
    ensures var empty, acts := Account(equity, map[]), [Signal(Buy, pair, first), Signal(Sell, pair, later)];
            Runs(empty, base, lot, acts) && Run(empty, base, lot, acts) == Account(equity + pnl, map[])
    ensures Within(pnl, bid * units - ask * units, 0.005 + 0.000005 * Abs(units))
  {
    hide Within, Abs, Opened, ClosingPnl, AllQuoted, Run, Runs;
    BuyThenSell(base, lot, equity, pair, first, later);
    pnl := BoughtAt(Terms(base, Long, pair), units, first, later, ask, bid);
  }

  lemma BuyThenSell(base: string, lot: int, equity: real, pair: string, first: Prices, later: Prices)
    requires lot != 0 && |pair| >= 3 && pair[3..] == base
    requires AllQuoted(first) && AllQuoted(later) && pair in first && pair in later
    ensures Quoted(first, pair) && Quoted(later, pair)
    ensures var empty, acts, t := Account(equity, map[]), [Signal(Buy, pair, first), Signal(Sell, pair, later)], Terms(base, Long, pair);
            && Valuable(pair, base, first) && Valuable(pair, base, later) && Runs(empty, base, lot, acts)
            && Run(empty, base, lot, acts) == Account(equity + ClosingPnl(t, Opened(t, lot as real, first), later), map[])
  {
    assert Valuable(pair, base, first) && Valuable(pair, base, later);
    hide Opened, ClosingPnl, AllQuoted, Run, Runs, Step, Executed;
    var t := Terms(base, Long, pair);
    OpensAtTheQuote(t, lot as real, first);
    BuyOpens(base, lot, equity, pair, first);
    SellCloses(base, lot, equity, pair, Opened(t, lot as real, first), later);
    TwoActions(Account(equity, map[]), base, lot, Signal(Buy, pair, first), Signal(Sell, pair, later));
  }

  lemma BoughtAt(t: Terms, units: real, first: Prices, later: Prices, ask: real, bid: real) returns (pnl: real)
    requires t.side == Long && units != 0.0 && |t.pair| >= 3 && t.pair[3..] == t.base
    requires Quoted(first, t.pair) && Quoted(later, t.pair) && first[t.pair].ask == Some(ask) && later[t.pair].bid == Some(bid)
    ensures pnl == ClosingPnl(t, Opened(t, units, first), later)
    ensures Within(pnl, bid * units - ask * units, 0.005 + 0.000005 * Abs(units))
  {
    hide Opened, ClosingPnl, Abs;
    OpensAtTheQuote(t, units, first);
    var b := Opened(t, units, first);
    pnl := ClosingPnl(t, b, later);
    CloseInOwnCurrency(t, b, b.avgPrice * b.units, later);
  }

  lemma BuyOpens(base: string, lot: int, equity: real, pair: string, prices: Prices)
    requires lot != 0 && AllQuoted(prices) && Valuable(pair, base, prices)
    ensures var t := Terms(base, Long, pair);
            && Allowed(Account(equity, map[]), base, Signal(Buy, pair, prices))
            && Step(Account(equity, map[]), base, lot, Signal(Buy, pair, prices))
            == Account(equity, map[pair := Holding(t, Opened(t, lot as real, prices))])
  {
    hide Opened;
  }

  lemma SellCloses(base: string, lot: int, equity: real, pair: string, b: Book, prices: Prices)
    requires lot != 0 && AllQuoted(prices) && Valuable(pair, base, prices) && b.units == lot as real
    ensures var a := Account(equity, map[pair := Holding(Terms(base, Long, pair), b)]);
            && WellFiled(a.holdings, base) && Allowed(a, base, Signal(Sell, pair, prices))
            && Step(a, base, lot, Signal(Sell, pair, prices))
            == Account(equity + ClosingPnl(Terms(base, Long, pair), b, prices), map[])
  {
    hide ClosingPnl;
  }

  lemma TwoActions(a: Account, base: string, lot: int, x: Action, y: Action)
    requires WellFiled(a.holdings, base) && Allowed(a, base, x) && Allowed(Step(a, base, lot, x), base, y)
    ensures Runs(a, base, lot, [x, y]) && Run(a, base, lot, [x, y]) == Step(Step(a, base, lot, x), base, lot, y)
  {
    hide Step, Allowed, WellFiled;
    assert [x, y][1..] == [y] && [y][1..] == [];
    var b := Step(a, base, lot, x);
    assert Runs(Step(b, base, lot, y), base, lot, []);
    assert Runs(b, base, lot, [y]);
    assert Run(b, base, lot, [y]) == Run(Step(b, base, lot, y), base, lot, []) == Step(b, base, lot, y);
  }

  lemma {:induction false} RunAgrees(a: Account, base: string, lot: int, acts: seq<Action>, equity: real, l: Ledger)
    requires WellFiled(a.holdings, base) && Runs(a, base, lot, acts)
    requires Agree(a, equity, l)
    ensures Agree(Run(a, base, lot, acts), equity, PostAll(l, base, lot, acts))
    decreases acts
  {
    if acts == [] {
    } else {
      hide Agree;
      StepAgrees(a, base, lot, acts[0], equity, l);
      RunAgrees(Step(a, base, lot, acts[0]), base, lot, acts[1..], equity, Post(l, base, lot, acts[0]));
    }
  }
}
