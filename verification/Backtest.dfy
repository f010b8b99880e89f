/** backtest/backtest.py: the event loop that drives a strategy and a portfolio over replayed
    prices, and the close-out that follows it. */
module Backtests {
  import opened Wrappers
  import opened Pricing
  import Positions
  import opened BacktestPrices
  import opened BacktestPortfolios

  /** A signal the strategy puts while it answers a tick. */
  datatype Intent = Intent(pair: string, side: string, size: Option<real>)

  datatype Setting = Setting(feed: Feed, base: string, tradeUnits: real)

  /** The loop's state.  Beside what the program keeps: the quotes as they stood when the last
      round began, the context's rounding when the last complete round was quoted, and the
      number of orders taken from the queue.  `raised` says that an exception ended the run. */
  datatype World = World(
    queue: seq<Event>, market: Market, account: Account, halfDown: bool,
    before: Prices, mode: bool, signals: nat, orders: nat, raised: bool)

  ghost function Begun(s: Setting, equity: real): World {
    var prices := Unquoted(s.feed.pairs);
    World([], Market(prices, 0, true), Opening(equity), false, prices, false, 0, 0, false)
  }

  function Signals(made: seq<Intent>, round: nat): seq<Event> {
    seq(|made|, i requires 0 <= i < |made| => Signal(made[i].pair, made[i].side, made[i].size, round))
  }

  ghost function AfterStream(w: World, s: Setting): World
    requires s.feed.Valid()
  {
    var m := Streamed(s.feed, w.market, w.halfDown);
    w.(queue := Ticks(s.feed, Reach(s.feed, w.market.index, 0), w.market.index), market := m,
       before := w.market.prices, mode := if m.running then w.halfDown else w.mode)
  }

  /** The strategy answers first, then a position held in the tick's pair is repriced. */
  ghost function AfterTick(w: World, made: seq<Intent>): World
    requires w.queue != [] && w.queue[0].Tick? && WellFiled(w.account.holdings)
  {
    var pair := w.queue[0].pair;
    w.(queue := w.queue[1..] + Signals(made, w.queue[0].round),
       account := Ticked(w.account, pair, w.market.prices),
       raised := pair in w.account.holdings && !Quoted(w.market.prices, pair))
  }

  ghost function VerdictOn(w: World, s: Setting): Outcome
    requires w.queue != [] && w.queue[0].Signal?
  {
    var e := w.queue[0];
    Verdict(w.account, e.side, e.pair, Lot(e.size, s.tradeUnits), w.market.prices)
  }

  ghost function AfterSignal(w: World, s: Setting): World
    requires w.queue != [] && w.queue[0].Signal? && WellFiled(w.account.holdings)
  {
    var e := w.queue[0];
    var lot := Lot(e.size, s.tradeUnits);
    var outcome := VerdictOn(w, s);
    w.(queue := w.queue[1..] + if outcome.Raised? then [] else [Order(e.pair, lot, e.side)],
       account := Executed(w.account, s.base, e.side, e.pair, lot, w.market.prices),
       halfDown := w.halfDown || outcome.DidClose?,
       signals := w.signals + 1,
       raised := outcome.Raised?)
  }

  ghost function AfterOrder(w: World): World
    requires w.queue != [] && w.queue[0].Order?
  {
    w.(queue := w.queue[1..], orders := w.orders + 1)
  }

  /** One turn of the loop; `made` is what the strategy puts if the turn handles a tick. */
  ghost function Turned(w: World, s: Setting, made: seq<Intent>): World
    requires s.feed.Valid() && WellFiled(w.account.holdings)
  {
    if w.queue == [] then AfterStream(w, s)
    else match w.queue[0]
      case Tick(_, _) => AfterTick(w, made)
      case Signal(_, _, _, _) => AfterSignal(w, s)
      case Order(_, _, _) => AfterOrder(w)
  }

  lemma TurnFiles(w: World, s: Setting, made: seq<Intent>)
    requires s.feed.Valid() && WellFiled(w.account.holdings)
    ensures WellFiled(Turned(w, s, made).account.holdings)
  {
    hide Executed, Ticked;
    if w.queue != [] && w.queue[0].Signal? {
      var e := w.queue[0];
      SignalFiles(w.account, s.base, e.side, e.pair, Lot(e.size, s.tradeUnits), w.market.prices);
    } else if w.queue != [] && w.queue[0].Tick? {
      TickFiles(w.account, w.queue[0].pair, w.market.prices);
    }
  }

  /** The loop: one turn for each of `choices`, as long as there are rounds and no exception. */
  ghost function RunOver(w: World, s: Setting, choices: seq<seq<Intent>>): World
    requires s.feed.Valid() && WellFiled(w.account.holdings)
    decreases choices
  {
    if choices == [] || !w.market.running || w.raised then w
    else TurnFiles(w, s, choices[0]); RunOver(Turned(w, s, choices[0]), s, choices[1..])
  }

  lemma OneTurn(w: World, s: Setting, choices: seq<seq<Intent>>)
    requires s.feed.Valid() && WellFiled(w.account.holdings)
    requires choices != [] && w.market.running && !w.raised
    ensures WellFiled(Turned(w, s, choices[0]).account.holdings)
    ensures RunOver(w, s, choices) == RunOver(Turned(w, s, choices[0]), s, choices[1..])
  {
    TurnFiles(w, s, choices[0]);
  }

  /** The close-out, pair by pair. */
  function Settled(a: Account, pairs: seq<string>): Account {
    if pairs == [] then a else ClosedOut(Settled(a, pairs[..|pairs| - 1]), pairs[|pairs| - 1])
  }

  // ---- The queue ----

  function Rank(e: Event): nat {
    match e case Tick(_, _) => 0 case Signal(_, _, _, _) => 1 case Order(_, _, _) => 2
  }

  /** Ticks come before signals and signals before orders; while a tick waits, no order does. */
  ghost predicate Shaped(q: seq<Event>) {
    && (forall i, j | 0 <= i < j < |q| :: Rank(q[i]) <= Rank(q[j]))
    && (forall i, j | 0 <= i < |q| && 0 <= j < |q| :: q[i].Tick? ==> !q[j].Order?)
  }

  lemma TailIsShaped(q: seq<Event>)
    requires q != [] && Shaped(q)
    ensures Shaped(q[1..])
    ensures q[0].Tick? ==> forall e <- q[1..] :: !e.Order?
    ensures !q[0].Tick? ==> forall e <- q[1..] :: !e.Tick?
  {
    if !q[0].Tick? {
      forall i | 0 <= i < |q| - 1 ensures !q[1..][i].Tick? {
        assert Rank(q[0]) <= Rank(q[i + 1]);
      }
    }
  }

  lemma SignalsFollow(q: seq<Event>, made: seq<Intent>, round: nat)
    requires Shaped(q) && forall e <- q :: !e.Order?
    ensures Shaped(q + Signals(made, round))
  {
  }

  lemma OrderFollows(q: seq<Event>, order: Event)
    requires Shaped(q) && (forall e <- q :: !e.Tick?) && order.Order?
    ensures Shaped(q + [order])
  {
  }

  lemma TurnKeepsShape(w: World, s: Setting, made: seq<Intent>)
    requires s.feed.Valid() && WellFiled(w.account.holdings) && Shaped(w.queue)
    ensures Shaped(Turned(w, s, made).queue)
  {
    hide Executed, Ticked, Verdict, Lot, Streamed, Signals;
    if w.queue != [] {
      TailIsShaped(w.queue);
      hide Shaped;
      var e := w.queue[0];
      match e
      case Tick(_, _) => SignalsFollow(w.queue[1..], made, e.round);
      case Signal(_, _, _, _) =>
        assert w.queue[1..] + [] == w.queue[1..];
        OrderFollows(w.queue[1..], Order(e.pair, Lot(e.size, s.tradeUnits), e.side));
      case Order(_, _, _) =>
    }
  }

  /** The round the waiting ticks and signals belong to. */
  function Round(m: Market): int {
    if m.running then m.index - 1 else m.index
  }

  ghost predicate Timely(w: World, s: Setting) {
    forall e <- w.queue ::
      && (e.Tick? ==> e.round as int == Round(w.market) && e.pair in s.feed.pairs)
      && (e.Signal? ==> e.round as int == Round(w.market))
  }

  lemma TurnKeepsTime(w: World, s: Setting, made: seq<Intent>)
    requires s.feed.Valid() && WellFiled(w.account.holdings) && Timely(w, s) && w.market.running
    ensures Timely(Turned(w, s, made), s)
  {
    hide Executed, Ticked, Verdict, Lot, Quoting;
    if w.queue != [] {
      assert w.queue[0] in w.queue;
    }
  }

  function Orders(q: seq<Event>): nat {
    if q == [] then 0 else (if q[0].Order? then 1 else 0) + Orders(q[1..])
  }

  lemma {:induction false} OrdersAdd(q: seq<Event>, r: seq<Event>)
    ensures Orders(q + r) == Orders(q) + Orders(r)
  {
    if q == [] {
      assert q + r == r;
    } else {
      assert (q + r)[1..] == q[1..] + r;
      OrdersAdd(q[1..], r);
    }
  }

  lemma {:induction false} NoOrders(q: seq<Event>)
    requires forall e <- q :: !e.Order?
    ensures Orders(q) == 0
  {
    if q != [] {
      NoOrders(q[1..]);
    }
  }

  /** Every signal executed is answered by one order. */
  ghost predicate Answered(w: World) {
    w.signals == w.orders + Orders(w.queue) + if w.raised then 1 else 0
  }

  lemma TurnAnswers(w: World, s: Setting, made: seq<Intent>)
    requires s.feed.Valid() && WellFiled(w.account.holdings) && Answered(w) && !w.raised
    requires w.queue != [] && w.queue[0].Tick? ==>
      !(w.queue[0].pair in w.account.holdings && !Quoted(w.market.prices, w.queue[0].pair))
    ensures Answered(Turned(w, s, made))
  {
    hide Executed, Ticked, Verdict, Lot, Streamed, Reach;
    if w.queue == [] {
      NoOrders(AfterStream(w, s).queue);
    } else if w.queue[0].Tick? {
      OrdersAdd(w.queue[1..], Signals(made, w.queue[0].round));
      NoOrders(Signals(made, w.queue[0].round));
    } else if w.queue[0].Signal? {
      var e := w.queue[0];
      var order := Order(e.pair, Lot(e.size, s.tradeUnits), e.side);
      OrdersAdd(w.queue[1..], [order]);
      OrdersAdd(w.queue[1..], []);
      assert Orders([order]) == 1 && Orders([]) == 0;
    }
  }

  // ---- The quotes ----

  ghost predicate Lists(prices: Prices, feed: Feed) {
    forall p :: p in prices <==> p in feed.pairs
  }

  /** Every table has at least `index` rows. */
  ghost predicate Covered(feed: Feed, index: nat) {
    forall i | 0 <= i < |feed.frames| :: index <= |feed.frames[i]|
  }

  /** The quotes of the last complete round: an unfinished one ends the run. */
  function Latest(w: World): Prices {
    if w.market.running then w.market.prices else w.before
  }

  /** Every pair is quoted, at its row of the round; of a pair listed twice the later table counts. */
  ghost predicate AtRound(prices: Prices, feed: Feed, round: nat, halfDown: bool)
    requires feed.Valid() && Covered(feed, round + 1)
  {
    && (forall p <- feed.pairs :: Quoted(prices, p))
    && forall i | 0 <= i < |feed.pairs| && feed.pairs[i] !in feed.pairs[i + 1..] ::
         feed.pairs[i] in prices && QuotesRow(prices[feed.pairs[i]], feed.frames[i][round], halfDown)
  }

  ghost predicate Priced(w: World, s: Setting)
    requires s.feed.Valid()
  {
    && Lists(w.market.prices, s.feed) && Lists(w.before, s.feed)
    && Covered(s.feed, w.market.index)
    && (!w.market.running ==> exists i | 0 <= i < |s.feed.frames| :: |s.feed.frames[i]| == w.market.index)
    && (w.market.index != 0 ==> AtRound(Latest(w), s.feed, w.market.index - 1, w.mode))
    && (w.queue != [] && w.market.running ==> w.market.index != 0)
  }

  lemma RoundIsQuoted(prices: Prices, feed: Feed, index: nat, halfDown: bool)
    requires feed.Valid() && Covered(feed, index + 1) && Lists(prices, feed)
    ensures Lists(Quoting(prices, feed, index, |feed.frames|, halfDown), feed)
    ensures AtRound(Quoting(prices, feed, index, |feed.frames|, halfDown), feed, index, halfDown)
  {
    var n := |feed.frames|;
    assert feed.pairs[..n] == feed.pairs;
    forall p ensures p in Quoting(prices, feed, index, n, halfDown) <==> p in feed.pairs {
      QuotingCovers(prices, feed, index, n, halfDown, p);
    }
    forall p | p in feed.pairs ensures Quoted(Quoting(prices, feed, index, n, halfDown), p) {
      QuotingCovers(prices, feed, index, n, halfDown, p);
    }
    forall i | 0 <= i < n && feed.pairs[i] !in feed.pairs[i + 1..]
      ensures feed.pairs[i] in Quoting(prices, feed, index, n, halfDown)
      ensures QuotesRow(Quoting(prices, feed, index, n, halfDown)[feed.pairs[i]], feed.frames[i][index], halfDown)
    {
      assert feed.pairs[i + 1..n] == feed.pairs[i + 1..];
      QuotingCovers(prices, feed, index, n, halfDown, feed.pairs[i]);
      LastRowWins(prices, feed, index, n, halfDown, i);
    }
  }

  lemma PartOfARoundLists(prices: Prices, feed: Feed, index: nat, k: nat, halfDown: bool)
    requires feed.Valid() && k <= |feed.frames| && (forall i | 0 <= i < k :: index < |feed.frames[i]|)
    requires Lists(prices, feed)
    ensures Lists(Quoting(prices, feed, index, k, halfDown), feed)
  {
    forall p ensures p in Quoting(prices, feed, index, k, halfDown) <==> p in feed.pairs {
      QuotingCovers(prices, feed, index, k, halfDown, p);
      assert p in feed.pairs[..k] ==> p in feed.pairs;
    }
  }

  lemma CompleteRoundPrices(w: World, s: Setting)
    requires s.feed.Valid() && Priced(w, s) && w.market.running
    requires Reach(s.feed, w.market.index, 0) == |s.feed.frames|
    ensures Priced(AfterStream(w, s), s)
  {
    hide AtRound, Lists, Quoting, Ticks, Reach;
    assert Covered(s.feed, w.market.index + 1);
    RoundIsQuoted(w.market.prices, s.feed, w.market.index, w.halfDown);
  }

  lemma BrokenRoundPrices(w: World, s: Setting)
    requires s.feed.Valid() && Priced(w, s) && w.market.running
    requires Reach(s.feed, w.market.index, 0) < |s.feed.frames|
    ensures Priced(AfterStream(w, s), s)
  {
    hide AtRound, Lists, Quoting, Ticks, Reach;
    var k := Reach(s.feed, w.market.index, 0);
    PartOfARoundLists(w.market.prices, s.feed, w.market.index, k, w.halfDown);
    assert |s.feed.frames[k]| == w.market.index;
  }

  lemma TurnKeepsPrices(w: World, s: Setting, made: seq<Intent>)
    requires s.feed.Valid() && WellFiled(w.account.holdings) && Priced(w, s) && w.market.running
    ensures Priced(Turned(w, s, made), s)
  {
    hide Executed, Ticked, Verdict, Lot, Quoting, AtRound, Lists, Streamed;
    if w.queue == [] {
      if Reach(s.feed, w.market.index, 0) == |s.feed.frames| {
        CompleteRoundPrices(w, s);
      } else {
        BrokenRoundPrices(w, s);
      }
    }
  }

  // ---- The positions ----

  /** The position was last priced at what these quotes would pay for it. */
  ghost predicate PricedAt(h: Holding, prices: Prices) {
    Quoted(prices, h.terms.pair) && h.book.curPrice == ExitQuote(h.terms.side, h.terms.pair, prices)
  }

  ghost predicate AllPricedAt(a: Account, prices: Prices) {
    forall p <- a.holdings :: PricedAt(a.holdings[p], prices)
  }

  ghost predicate Awaited(pair: string, q: seq<Event>) {
    exists i | 0 <= i < |q| :: q[i].Tick? && q[i].pair == pair
  }

  /** While the backtest goes on a position is priced at the round's quotes, unless its tick
      still waits, when it may be at the last round's.  When it has ended, in the middle of a
      round, every position is at the quotes of the last complete round. */
  ghost predicate Repriced(w: World) {
    forall p <- w.account.holdings ::
      var h := w.account.holdings[p];
      if w.market.running then
        PricedAt(h, w.market.prices) || (Awaited(p, w.queue) && PricedAt(h, w.before))
      else PricedAt(h, w.before)
  }

  lemma StreamReprices(w: World, s: Setting)
    requires s.feed.Valid() && Priced(w, s) && w.market.running && w.queue == []
    requires WellFiled(w.account.holdings) && Repriced(w)
    ensures Repriced(AfterStream(w, s))
  {
    hide Quoting, AtRound, ExitQuote;
    var n := |s.feed.frames|;
    var k := Reach(s.feed, w.market.index, 0);
    var after := AfterStream(w, s);
    forall p | p in w.account.holdings
      ensures PricedAt(w.account.holdings[p], w.before) || PricedAt(w.account.holdings[p], w.market.prices)
      ensures k == n ==> Awaited(p, after.queue)
    {
      assert PricedAt(w.account.holdings[p], w.market.prices);
      assert p in s.feed.pairs;
      var i :| 0 <= i < n && s.feed.pairs[i] == p;
      if k == n {
        assert after.queue[i] == Tick(p, w.market.index);
      }
    }
  }

  lemma AwaitedLater(pair: string, q: seq<Event>, more: seq<Event>)
    requires q != [] && Awaited(pair, q) && !(q[0].Tick? && q[0].pair == pair)
    ensures Awaited(pair, q[1..] + more)
  {
    var i :| 0 <= i < |q| && q[i].Tick? && q[i].pair == pair;
    assert (q[1..] + more)[i - 1] == q[i];
  }

  /** A tick touches the position of its own pair only, and brings it to these quotes. */
  lemma TickPrices(a: Account, pair: string, prices: Prices)
    requires WellFiled(a.holdings) && Quoted(prices, pair)
    ensures Ticked(a, pair, prices).holdings.Keys == a.holdings.Keys
    ensures forall p | p in a.holdings && p != pair :: Ticked(a, pair, prices).holdings[p] == a.holdings[p]
    ensures pair in a.holdings ==> PricedAt(Ticked(a, pair, prices).holdings[pair], prices)
  {
    hide ExitQuote, Positions.ProfitBase, Positions.ProfitPerc, Positions.Pips;
  }

  /** While the backtest goes on the pair of a waiting tick is quoted. */
  lemma TickIsQuoted(w: World, s: Setting)
    requires s.feed.Valid() && Priced(w, s) && Timely(w, s) && w.market.running
    requires w.queue != [] && w.queue[0].Tick?
    ensures Quoted(w.market.prices, w.queue[0].pair)
  {
    assert w.queue[0] in w.queue;
    hide Lists, Covered, Quoted;
  }

  lemma TickReprices(w: World, s: Setting, made: seq<Intent>)
    requires s.feed.Valid() && Priced(w, s) && Timely(w, s) && w.market.running
    requires WellFiled(w.account.holdings) && Repriced(w)
    requires w.queue != [] && w.queue[0].Tick?
    ensures Repriced(AfterTick(w, made)) && !AfterTick(w, made).raised
  {
    TickIsQuoted(w, s);
    hide Priced, Timely, Quoted, PricedAt, Ticked, Signals, WellFiled, Awaited;
    var e := w.queue[0];
    var after := AfterTick(w, made);
    TickPrices(w.account, e.pair, w.market.prices);
    forall p | p in w.account.holdings && p != e.pair && Awaited(p, w.queue)
      ensures Awaited(p, after.queue)
    {
      AwaitedLater(p, w.queue, Signals(made, e.round));
    }
  }

  /** With every position at these quotes, whatever a signal does leaves every position at them. */
  lemma SignalPrices(a: Account, base: string, side: string, pair: string, lot: int, prices: Prices)
    requires WellFiled(a.holdings) && AllPricedAt(a, prices)
    ensures AllPricedAt(Executed(a, base, side, pair, lot, prices), prices)
  {
    hide ExitQuote, Positions.ProfitBase, Positions.ProfitPerc, Positions.Pips, Pnl;
    hide Positions.PooledPrice, Positions.PooledCost;
  }

  lemma SignalReprices(w: World, s: Setting)
    requires s.feed.Valid() && Shaped(w.queue) && w.market.running
    requires WellFiled(w.account.holdings) && Repriced(w)
    requires w.queue != [] && w.queue[0].Signal?
    ensures AllPricedAt(w.account, w.market.prices)
    ensures Repriced(AfterSignal(w, s))
  {
    hide PricedAt, Executed, Verdict, Lot, Shaped;
    var e := w.queue[0];
    TailIsShaped(w.queue);
    forall p | p in w.account.holdings ensures !Awaited(p, w.queue) {
      assert forall i | 0 < i < |w.queue| :: w.queue[i] == w.queue[1..][i - 1];
    }
    SignalPrices(w.account, s.base, e.side, e.pair, Lot(e.size, s.tradeUnits), w.market.prices);
  }

  lemma OrderReprices(w: World)
    requires w.market.running && Repriced(w) && w.queue != [] && w.queue[0].Order?
    ensures Repriced(AfterOrder(w))
  {
    hide PricedAt;
    forall p | p in w.account.holdings && Awaited(p, w.queue) ensures Awaited(p, w.queue[1..]) {
      AwaitedLater(p, w.queue, []);
      assert w.queue[1..] + [] == w.queue[1..];
    }
  }

  // ---- Whole runs ----

  /** Everything above, at once. */
  ghost predicate Sound(w: World, s: Setting, equity: real) {
    && s.feed.Valid()
    && WellFiled(w.account.holdings)
    && Shaped(w.queue) && Timely(w, s) && Answered(w)
    && Priced(w, s) && Repriced(w)
    && Balanced(w.account, equity)
  }

  lemma StartIsSound(s: Setting, equity: real)
    requires s.feed.Valid()
    ensures Sound(Begun(s, equity), s, equity)
  {
  }

  lemma TurnReprices(w: World, s: Setting, made: seq<Intent>, equity: real)
    requires Sound(w, s, equity) && w.market.running
    ensures Repriced(Turned(w, s, made))
    ensures w.queue != [] && w.queue[0].Tick? ==> !AfterTick(w, made).raised
  {
    hide Shaped, Timely, Answered, Priced, Repriced, Balanced, AfterStream, AfterTick, AfterSignal, AfterOrder;
    if w.queue == [] {
      StreamReprices(w, s);
    } else {
      match w.queue[0]
      case Tick(_, _) => TickReprices(w, s, made);
      case Signal(_, _, _, _) => SignalReprices(w, s);
      case Order(_, _, _) => OrderReprices(w);
    }
  }

  lemma TurnBalances(w: World, s: Setting, made: seq<Intent>, equity: real)
    requires s.feed.Valid() && WellFiled(w.account.holdings) && Balanced(w.account, equity)
    ensures Balanced(Turned(w, s, made).account, equity)
  {
    hide Balanced, Executed, Ticked, Verdict, Lot;
    if w.queue != [] {
      var e := w.queue[0];
      match e
      case Tick(pair, _) => TickBalances(w.account, pair, w.market.prices, equity);
      case Signal(_, _, _, _) =>
        SignalBalances(w.account, s.base, e.side, e.pair, Lot(e.size, s.tradeUnits), w.market.prices, equity);
      case Order(_, _, _) =>
    }
  }

  lemma TurnIsSound(w: World, s: Setting, made: seq<Intent>, equity: real)
    requires Sound(w, s, equity) && w.market.running && !w.raised
    ensures Sound(Turned(w, s, made), s, equity)
    ensures Turned(w, s, made).raised ==> w.queue != [] && w.queue[0].Signal?
  {
    TurnReprices(w, s, made, equity);
    hide Shaped, Timely, Priced, Repriced, Balanced, WellFiled, Answered, AfterStream, AfterSignal, Ticked, Executed;
    TurnFiles(w, s, made);
    TurnKeepsShape(w, s, made);
    TurnKeepsTime(w, s, made);
    TurnAnswers(w, s, made);
    TurnKeepsPrices(w, s, made);
    TurnBalances(w, s, made, equity);
  }

  lemma {:induction false} RunIsSound(w: World, s: Setting, choices: seq<seq<Intent>>, equity: real)
    requires Sound(w, s, equity)
    ensures Sound(RunOver(w, s, choices), s, equity)
    decreases choices
  {
    hide Turned, Shaped, Timely, Priced, Repriced, Balanced, WellFiled, Answered;
    if choices != [] && w.market.running && !w.raised {
      TurnIsSound(w, s, choices[0], equity);
      RunIsSound(Turned(w, s, choices[0]), s, choices[1..], equity);
    }
  }

  /** The signal at the head of the queue raises exactly for a pair that the backtest does not
      list, or for units that leave nothing to hold. */
  ghost predicate RaisesExactly(w: World, s: Setting)
    requires w.queue != [] && w.queue[0].Signal?
  {
    var e := w.queue[0];
    var lot := Lot(e.size, s.tradeUnits);
    VerdictOn(w, s).Raised? <==>
      if e.pair !in w.account.holdings then lot == 0 || e.pair !in s.feed.pairs
      else && e.side == (if w.account.holdings[e.pair].terms.side == Long then "true" else "false")
           && w.account.holdings[e.pair].book.units + lot as real == 0.0
  }

  /** The signal at the head of the queue meets the quotes of the round it was put in: no tick
      is waiting, every pair is quoted at its row of that round, and every open position is at
      those quotes. */
  ghost predicate MeetsItsRound(w: World, s: Setting)
    requires s.feed.Valid() && w.queue != [] && w.queue[0].Signal?
  {
    && (forall x <- w.queue :: !x.Tick?)
    && Covered(s.feed, w.queue[0].round + 1) && AtRound(w.market.prices, s.feed, w.queue[0].round, w.mode)
    && AllPricedAt(w.account, w.market.prices)
    && RaisesExactly(w, s)
  }

  lemma NoTickWaits(q: seq<Event>)
    requires Shaped(q) && q != [] && q[0].Signal?
    ensures forall x <- q :: !x.Tick?
  {
    TailIsShaped(q);
    assert q == [q[0]] + q[1..];
  }

  lemma RoundOfASignal(w: World, s: Setting)
    requires s.feed.Valid() && Timely(w, s) && Priced(w, s) && w.market.running && w.queue != [] && w.queue[0].Signal?
    ensures Lists(w.market.prices, s.feed)
    ensures Covered(s.feed, w.queue[0].round + 1) && AtRound(w.market.prices, s.feed, w.queue[0].round, w.mode)
  {
    hide Lists, AtRound, Covered;
    assert w.queue[0] in w.queue;
  }

  lemma SignalRaisesIff(w: World, s: Setting)
    requires s.feed.Valid() && w.queue != [] && w.queue[0].Signal?
    requires Lists(w.market.prices, s.feed) && (forall p <- s.feed.pairs :: Quoted(w.market.prices, p))
    requires WellFiled(w.account.holdings) && AllPricedAt(w.account, w.market.prices)
    ensures RaisesExactly(w, s)
  {
    hide Lot;
    assert w.queue[0].pair in s.feed.pairs <==> Quoted(w.market.prices, w.queue[0].pair);
  }

  lemma SoundMeansItMeets(w: World, s: Setting, equity: real)
    requires Sound(w, s, equity) && w.market.running && w.queue != [] && w.queue[0].Signal?
    ensures MeetsItsRound(w, s)
  {
    hide Shaped, Timely, Answered, Priced, Repriced, Balanced, WellFiled, Covered, Lists, RaisesExactly, AllPricedAt;
    NoTickWaits(w.queue);
    RoundOfASignal(w, s);
    SignalReprices(w, s);
    SignalRaisesIff(w, s);
  }

  /** So it is in every run, whatever the strategy. */
  lemma SignalsMeetTheirOwnRound(s: Setting, equity: real, choices: seq<seq<Intent>>)
    requires s.feed.Valid()
    ensures var w := RunOver(Begun(s, equity), s, choices);
      w.market.running && w.queue != [] && w.queue[0].Signal? ==> MeetsItsRound(w, s)
  {
    StartIsSound(s, equity);
    RunIsSound(Begun(s, equity), s, choices, equity);
    var w := RunOver(Begun(s, equity), s, choices);
    hide MeetsItsRound, Shaped, Timely, Answered, Priced, Repriced, Balanced, RunOver, Begun;
    if w.market.running && w.queue != [] && w.queue[0].Signal? {
      SoundMeansItMeets(w, s, equity);
    }
  }

  // ---- The close-out ----

  lemma {:induction false} SettledIsFlat(a: Account, pairs: seq<string>, equity: real)
    requires Balanced(a, equity)
    ensures Balanced(Settled(a, pairs), equity)
    ensures forall p :: p in Settled(a, pairs).holdings <==> p in a.holdings && p !in pairs
  {
    hide Balanced, Pnl;
    if pairs != [] {
      var n := |pairs| - 1;
      SettledIsFlat(a, pairs[..n], equity);
      ClosingBalances(Settled(a, pairs[..n]), pairs[n], equity);
      assert pairs == pairs[..n] + [pairs[n]];
    }
  }

  /** However and whenever the loop ends without an exception, the close-out leaves nothing
      open: every trade made is a win or a loss, and the balance is the equity and all that
      the closings realised. */
  lemma EndsFlat(s: Setting, equity: real, choices: seq<seq<Intent>>)
    requires s.feed.Valid()
    ensures var w := RunOver(Begun(s, equity), s, choices);
      var a := Settled(w.account, s.feed.pairs);
      && a.holdings == map[] && a.trades == a.wins + a.losses == |a.closed|
      && a.wins == Gains(a.closed) && a.balance == equity + Sum(a.closed)
  {
    StartIsSound(s, equity);
    RunIsSound(Begun(s, equity), s, choices, equity);
    var w := RunOver(Begun(s, equity), s, choices);
    hide Shaped, Timely, Answered, Sum, Gains, Settled;
    SettledIsFlat(w.account, s.feed.pairs, equity);
    forall p | p in w.account.holdings ensures p in s.feed.pairs {
    }
    assert Settled(w.account, s.feed.pairs).holdings == map[];
  }

  /** A backtest that ends by itself has replayed as many rounds as its shortest table has rows,
      has no order outstanding but those of its signals, and closes what is left at the quotes
      of the last complete round, though its price table may hold part of another. */
  lemma EndsWithTheShortestTable(s: Setting, equity: real, choices: seq<seq<Intent>>)
    requires s.feed.Valid()
    ensures var w := RunOver(Begun(s, equity), s, choices);
      !w.market.running ==>
        && Covered(s.feed, w.market.index)
        && (exists i | 0 <= i < |s.feed.frames| :: |s.feed.frames[i]| == w.market.index)
        && (w.market.index != 0 ==> AtRound(w.before, s.feed, w.market.index - 1, w.mode))
        && w.signals == w.orders + Orders(w.queue) + (if w.raised then 1 else 0)
        && forall p <- w.account.holdings ::
             var h := w.account.holdings[p];
             && Quoted(w.before, p)
             && Pnl(h.terms, h.book) == Positions.Realised(
                  Positions.Pips(h.terms.side, ExitQuote(h.terms.side, p, w.before), h.book.avgPrice), 1.0, h.book.units)
  {
    StartIsSound(s, equity);
    RunIsSound(Begun(s, equity), s, choices, equity);
    hide Shaped, Timely, Balanced, RunOver, Begun, AtRound, ExitQuote, Positions.Pips, Positions.Realised;
  }

  // ---- A round that is cut short ----

  /** How many ticks of the pair are waiting. */
  function TicksOf(q: seq<Event>, pair: string): nat {
    if q == [] then 0 else (if q[0].Tick? && q[0].pair == pair then 1 else 0) + TicksOf(q[1..], pair)
  }

  /** How often the pair is listed: the ticks it has in a round. */
  function Listings(pairs: seq<string>, pair: string): nat {
    if pairs == [] then 0 else Listings(pairs[..|pairs| - 1], pair) + if pairs[|pairs| - 1] == pair then 1 else 0
  }

  lemma {:induction false} TicksAdd(q: seq<Event>, r: seq<Event>, pair: string)
    ensures TicksOf(q + r, pair) == TicksOf(q, pair) + TicksOf(r, pair)
  {
    if q == [] {
      assert q + r == r;
    } else {
      assert (q + r)[1..] == q[1..] + r;
      TicksAdd(q[1..], r, pair);
    }
  }

  lemma {:induction false} NoTicksOf(q: seq<Event>, pair: string)
    requires forall e <- q :: !e.Tick?
    ensures TicksOf(q, pair) == 0
  {
    if q != [] {
      NoTicksOf(q[1..], pair);
    }
  }

  lemma {:induction false} TicksOfARound(feed: Feed, k: nat, round: nat, pair: string)
    requires k <= |feed.pairs|
    ensures TicksOf(Ticks(feed, k, round), pair) == Listings(feed.pairs[..k], pair)
  {
    if k != 0 {
      TicksOfARound(feed, k - 1, round, pair);
      var last := [Tick(feed.pairs[k - 1], round)];
      assert Ticks(feed, k, round) == Ticks(feed, k - 1, round) + last;
      TicksAdd(Ticks(feed, k - 1, round), last, pair);
      assert last[1..] == [];
      assert feed.pairs[..k][..k - 1] == feed.pairs[..k - 1];
    }
  }

  lemma {:induction false} ListedOnce(pairs: seq<string>, pair: string)
    requires pair in pairs
    ensures Listings(pairs, pair) > 0
  {
    if pairs[|pairs| - 1] != pair {
      ListedOnce(pairs[..|pairs| - 1], pair);
    }
  }

  /** None of the pair's ticks of the round has been handled yet. */
  predicate Untouched(q: seq<Event>, pairs: seq<string>, pair: string) {
    TicksOf(q, pair) >= Listings(pairs, pair)
  }

  /** A position of which no tick has been handled yet is at the quotes of the round before, any
      other at those of this round. */
  ghost predicate InRound(w: World, s: Setting) {
    forall p <- w.account.holdings ::
      PricedAt(w.account.holdings[p], if Untouched(w.queue, s.feed.pairs, p) then w.before else w.market.prices)
  }

  lemma StreamInRound(w: World, s: Setting)
    requires s.feed.Valid() && Priced(w, s) && Repriced(w) && WellFiled(w.account.holdings)
    requires w.market.running && w.queue == [] && InRound(w, s)
    ensures AfterStream(w, s).market.running ==> InRound(AfterStream(w, s), s)
  {
    if AfterStream(w, s).market.running {
      assert s.feed.pairs[..|s.feed.pairs|] == s.feed.pairs;
      forall p | p in w.account.holdings
        ensures PricedAt(w.account.holdings[p], w.market.prices) && Untouched(AfterStream(w, s).queue, s.feed.pairs, p)
      {
        HeldIsQuoted(w, s, p);
        ListedOnce(s.feed.pairs, p);
        TicksOfARound(s.feed, |s.feed.pairs|, w.market.index, p);
        hide Quoting, Ticks, PricedAt, Lists, AtRound;
      }
    }
  }

  lemma TickLowers(q: seq<Event>, more: seq<Event>, pair: string)
    requires q != [] && forall e <- more :: !e.Tick?
    ensures TicksOf(q[1..] + more, pair) == TicksOf(q, pair) - if q[0].Tick? && q[0].pair == pair then 1 else 0
  {
    TicksAdd(q[1..], more, pair);
    NoTicksOf(more, pair);
  }

  /** The queue of a round never holds more ticks of a pair than the pair is listed. */
  ghost predicate AtMostARound(w: World, s: Setting) {
    forall p :: TicksOf(w.queue, p) <= Listings(s.feed.pairs, p)
  }

  lemma NoTicksIn(made: seq<Intent>, round: nat)
    ensures forall e <- Signals(made, round) :: !e.Tick?
  {
  }

  lemma TickInRound(w: World, s: Setting, made: seq<Intent>)
    requires s.feed.Valid() && Priced(w, s) && Timely(w, s) && w.market.running
    requires WellFiled(w.account.holdings) && w.queue != [] && w.queue[0].Tick?
    requires InRound(w, s) && AtMostARound(w, s)
    ensures InRound(AfterTick(w, made), s) && AtMostARound(AfterTick(w, made), s)
  {
    hide Signals, Ticked, Priced, Timely, Quoted, PricedAt, WellFiled, TicksOf, Listings;
    TickIsQuoted(w, s);
    var e := w.queue[0];
    NoTicksIn(made, e.round);
    TickPrices(w.account, e.pair, w.market.prices);
    var after := AfterTick(w, made);
    forall p
      ensures TicksOf(after.queue, p) == TicksOf(w.queue, p) - if e.pair == p then 1 else 0
    {
      TickLowers(w.queue, Signals(made, e.round), p);
    }
  }

  /** When no tick waits every position is at the quotes of the round. */
  lemma NoTickInRound(w: World, s: Setting)
    requires (forall e <- w.queue :: !e.Tick?) && AllPricedAt(w.account, w.market.prices)
    requires forall p <- w.account.holdings :: p in s.feed.pairs
    ensures InRound(w, s) && AtMostARound(w, s)
  {
    hide PricedAt;
    forall p ensures TicksOf(w.queue, p) == 0 {
      NoTicksOf(w.queue, p);
    }
    forall p | p in w.account.holdings ensures Listings(s.feed.pairs, p) > 0 {
      ListedOnce(s.feed.pairs, p);
    }
  }

  lemma HeldIsListed(w: World, s: Setting)
    requires s.feed.Valid() && Priced(w, s) && Repriced(w) && WellFiled(w.account.holdings)
    ensures forall p <- w.account.holdings :: p in s.feed.pairs
  {
    hide ExitQuote, Covered, AtRound;
  }

  lemma StreamAtMost(w: World, s: Setting)
    requires s.feed.Valid()
    ensures AfterStream(w, s).market.running ==> AtMostARound(AfterStream(w, s), s)
  {
    if AfterStream(w, s).market.running {
      assert s.feed.pairs[..|s.feed.pairs|] == s.feed.pairs;
      forall p ensures TicksOf(AfterStream(w, s).queue, p) <= Listings(s.feed.pairs, p) {
        TicksOfARound(s.feed, |s.feed.pairs|, w.market.index, p);
        hide Quoting, Ticks;
      }
    }
  }

  /** A signal leaves a queue without ticks, and every position at the quotes of the round. */
  lemma SignalEndsWaiting(w: World, s: Setting)
    requires s.feed.Valid() && Shaped(w.queue) && w.market.running && w.queue != [] && w.queue[0].Signal?
    requires WellFiled(w.account.holdings) && Repriced(w)
    ensures (forall e <- AfterSignal(w, s).queue :: !e.Tick?) && AllPricedAt(AfterSignal(w, s).account, w.market.prices)
  {
    hide AllPricedAt, Executed, Verdict, Lot, WellFiled, Repriced, Shaped;
    TailIsShaped(w.queue);
    SignalReprices(w, s);
    var e := w.queue[0];
    SignalPrices(w.account, s.base, e.side, e.pair, Lot(e.size, s.tradeUnits), w.market.prices);
  }

  lemma OrderInRound(w: World, s: Setting)
    requires w.queue != [] && w.queue[0].Order? && InRound(w, s) && AtMostARound(w, s)
    ensures InRound(AfterOrder(w), s) && AtMostARound(AfterOrder(w), s)
  {
    hide PricedAt, Listings;
  }

  lemma TurnInRound(w: World, s: Setting, made: seq<Intent>, equity: real)
    requires Sound(w, s, equity) && Sound(Turned(w, s, made), s, equity) && w.market.running && InRound(w, s) && AtMostARound(w, s)
    ensures Turned(w, s, made).market.running ==> InRound(Turned(w, s, made), s) && AtMostARound(Turned(w, s, made), s)
  {
    hide Shaped, Timely, Answered, Priced, Repriced, Balanced, WellFiled, AfterStream, AfterTick, AfterSignal, AfterOrder, InRound, AtMostARound, AllPricedAt;
    if w.queue == [] {
      StreamInRound(w, s);
      StreamAtMost(w, s);
    } else {
      match w.queue[0]
      case Tick(_, _) => TickInRound(w, s, made);
      case Signal(_, _, _, _) =>
        SignalEndsWaiting(w, s);
        HeldIsListed(AfterSignal(w, s), s);
        SameMarket(w, s);
        NoTickInRound(AfterSignal(w, s), s);
      case Order(_, _, _) => OrderInRound(w, s);
    }
  }

  lemma SameMarket(w: World, s: Setting)
    requires w.queue != [] && w.queue[0].Signal? && WellFiled(w.account.holdings)
    ensures AfterSignal(w, s).market == w.market
  {
  }

  lemma {:induction false} RunInRound(w: World, s: Setting, choices: seq<seq<Intent>>, equity: real)
    requires Sound(w, s, equity) && (w.market.running ==> InRound(w, s) && AtMostARound(w, s))
    ensures RunOver(w, s, choices).market.running ==> InRound(RunOver(w, s, choices), s)
    decreases choices
  {
    hide Turned, Shaped, Timely, Priced, Repriced, Balanced, WellFiled, Answered, InRound, AtMostARound;
    if choices != [] && w.market.running && !w.raised {
      TurnIsSound(w, s, choices[0], equity);
      TurnInRound(w, s, choices[0], equity);
      RunInRound(Turned(w, s, choices[0]), s, choices[1..], equity);
    }
  }

  /** These quotes would pay for the position what the others pay. */
  ghost predicate PaysAlike(h: Holding, prices: Prices, others: Prices) {
    && Quoted(prices, h.terms.pair) && Quoted(others, h.terms.pair)
    && ExitQuote(h.terms.side, h.terms.pair, prices) == ExitQuote(h.terms.side, h.terms.pair, others)
  }

  /** When the loop ends a position is closed at the quotes in the price table exactly when these
      pay what the quotes of the round before do or, if it is the limit that ends the loop, one
      of the position's ticks has been handled. */
  lemma StaleIff(s: Setting, equity: real, choices: seq<seq<Intent>>, p: string)
    requires s.feed.Valid()
    ensures var w := RunOver(Begun(s, equity), s, choices);
      p in w.account.holdings ==>
        var h := w.account.holdings[p];
        PricedAt(h, w.market.prices) <==>
          (w.market.running && !Untouched(w.queue, s.feed.pairs, p)) || PaysAlike(h, w.before, w.market.prices)
  {
    StartIsSound(s, equity);
    RunIsSound(Begun(s, equity), s, choices, equity);
    StartsInRound(s, equity);
    RunInRound(Begun(s, equity), s, choices, equity);
    var w := RunOver(Begun(s, equity), s, choices);
    if p in w.account.holdings {
      StaleWhen(w, s, p);
    }
  }

  lemma StartsInRound(s: Setting, equity: real)
    ensures InRound(Begun(s, equity), s) && AtMostARound(Begun(s, equity), s)
  {
  }

  lemma StaleWhen(w: World, s: Setting, p: string)
    requires s.feed.Valid() && Priced(w, s) && Repriced(w) && WellFiled(w.account.holdings)
    requires (w.market.running ==> InRound(w, s)) && p in w.account.holdings
    ensures PricedAt(w.account.holdings[p], w.market.prices) <==>
              (w.market.running && !Untouched(w.queue, s.feed.pairs, p))
              || PaysAlike(w.account.holdings[p], w.before, w.market.prices)
  {
    if w.market.running {
      HeldIsQuoted(w, s, p);
    }
    hide Priced, Untouched, ExitQuote;
  }

  lemma HeldIsQuoted(w: World, s: Setting, p: string)
    requires s.feed.Valid() && Priced(w, s) && Repriced(w) && WellFiled(w.account.holdings)
    requires w.market.running && p in w.account.holdings
    ensures p in s.feed.pairs && Quoted(w.market.prices, p)
  {
    hide ExitQuote, Covered;
  }

  /** One pair that gains from its first row to its second, bought at the first: five turns
      quote the first row, answer its tick with a signal, execute it, take the order and quote
      the second row.  A limit of five therefore closes the position at the row it was bought
      at, while the table already quotes the next. */
  lemma LimitBeforeATick(bars: seq<Bar>, pair: string, tradeUnits: real, equity: real)
    requires |bars| == 2 && Quantized(bars[0].bidOpen, false) != Quantized(bars[1].bidOpen, false)
    requires Lot(None, tradeUnits) != 0
    ensures var s := Setting(Feed([pair], [bars]), "USD", tradeUnits);
            var w := RunOver(Begun(s, equity), s, [[], [Intent(pair, "true", None)], [], [], []]);
            && w.market.running && !w.raised && pair in w.account.holdings && Awaited(pair, w.queue)
            && !PricedAt(w.account.holdings[pair], w.market.prices)
            && PricedAt(w.account.holdings[pair], w.before)
  {
    var s := Setting(Feed([pair], [bars]), "USD", tradeUnits);
    var buy := [Intent(pair, "true", None)];
    hide RunOver, Marked, Quantized, Lot;
    var w0 := Begun(s, equity);
    var w1 := Turned(w0, s, []);
    FirstRound(w0, s, bars, pair);
    var w2 := Turned(w1, s, buy);
    assert Signals(buy, 0) == [Signal(pair, "true", None, 0)];
    assert w2.queue == [Signal(pair, "true", None, 0)] && w2.account.holdings == map[];
    var w3 := Turned(w2, s, []);
    BuyOpens(w2, s, pair);
    var w4 := Turned(w3, s, []);
    var w5 := Turned(w4, s, []);
    FirstRound(w4, s, bars, pair);
    assert w5.queue[0] == Tick(pair, 1);
    FiveTurns(w0, s, [], buy, [], [], []);
  }

  /** Two pairs, of which the second has one row only: the first is bought at its first row, and
      the data runs out when its second row has already been quoted.  The close-out is at the
      first row. */
  lemma DataEndsInARound(bars: seq<Bar>, other: Bar, pair: string, second: string, tradeUnits: real, equity: real)
    requires |bars| == 2 && Quantized(bars[0].bidOpen, false) != Quantized(bars[1].bidOpen, false)
    requires Lot(None, tradeUnits) != 0 && pair != second
    ensures var s := Setting(Feed([pair, second], [bars, [other]]), "USD", tradeUnits);
            var w := RunOver(Begun(s, equity), s, [[], [Intent(pair, "true", None)], [], [], [], []]);
            && !w.market.running && !w.raised && pair in w.account.holdings
            && !PricedAt(w.account.holdings[pair], w.market.prices)
            && PricedAt(w.account.holdings[pair], w.before)
  {
    var s := Setting(Feed([pair, second], [bars, [other]]), "USD", tradeUnits);
    var buy := [Intent(pair, "true", None)];
    hide RunOver, Marked, Quantized, Lot;
    var w0 := Begun(s, equity);
    var w1 := Turned(w0, s, []);
    BothRounds(w0, s, bars, other, pair, second);
    var w2 := Turned(w1, s, buy);
    assert Signals(buy, 0) == [Signal(pair, "true", None, 0)] && Signals([], 0) == [];
    assert w2.queue == [Tick(second, 0), Signal(pair, "true", None, 0)];
    var w3 := Turned(w2, s, []);
    assert w3.queue == [Signal(pair, "true", None, 0)] && w3.account.holdings == map[];
    var w4 := Turned(w3, s, []);
    BuyOpens(w3, s, pair);
    var w5 := Turned(w4, s, []);
    var w6 := Turned(w5, s, []);
    BothRounds(w5, s, bars, other, pair, second);
    OneTurn(w0, s, [[], buy, [], [], [], []]);
    assert [[], buy, [], [], [], []][1..] == [buy, [], [], [], []];
    FiveTurns(w1, s, buy, [], [], [], []);
  }

  /** The first round of the two pairs is complete; the second ends the backtest with the first
      pair quoted. */
  lemma BothRounds(w: World, s: Setting, bars: seq<Bar>, other: Bar, pair: string, second: string)
    requires s.feed == Feed([pair, second], [bars, [other]]) && |bars| == 2 && pair != second && w.queue == []
    ensures w.market.index == 0 ==>
              var after := AfterStream(w, s);
              && after.queue == [Tick(pair, 0), Tick(second, 0)]
              && after.market == Market(w.market.prices[pair := QuoteOf(bars[0], w.halfDown)][second := QuoteOf(other, w.halfDown)],
                                        1, w.market.running)
    ensures w.market.index == 1 ==>
              AfterStream(w, s).market == Market(w.market.prices[pair := QuoteOf(bars[1], w.halfDown)], 1, false)
  {
    var prices := w.market.prices;
    hide QuoteOf;
    if w.market.index == 0 {
      assert Reach(s.feed, 0, 0) == Reach(s.feed, 0, 1) == Reach(s.feed, 0, 2) == 2;
      NothingYet(prices, s.feed, 0, w.halfDown);
      OneMore(prices, s.feed, 0, 0, w.halfDown);
      OneMore(prices, s.feed, 0, 1, w.halfDown);
    } else if w.market.index == 1 {
      assert Reach(s.feed, 1, 0) == Reach(s.feed, 1, 1) == 1;
      NothingYet(prices, s.feed, 1, w.halfDown);
      OneMore(prices, s.feed, 1, 0, w.halfDown);
    }
  }

  lemma FirstRound(w: World, s: Setting, bars: seq<Bar>, pair: string)
    requires s.feed == Feed([pair], [bars]) && w.queue == [] && w.market.index < |bars|
    ensures AfterStream(w, s).queue == [Tick(pair, w.market.index)]
    ensures AfterStream(w, s).market ==
            Market(w.market.prices[pair := QuoteOf(bars[w.market.index], w.halfDown)], w.market.index + 1, w.market.running)
  {
    assert Reach(s.feed, w.market.index, 0) == 1;
    hide QuoteOf;
    NothingYet(w.market.prices, s.feed, w.market.index, w.halfDown);
    OneMore(w.market.prices, s.feed, w.market.index, 0, w.halfDown);
  }

  lemma BuyOpens(w: World, s: Setting, pair: string)
    requires w.queue == [Signal(pair, "true", None, 0)] && w.account.holdings == map[]
    requires Quoted(w.market.prices, pair) && Lot(None, s.tradeUnits) != 0
    ensures var after := AfterSignal(w, s);
            && !after.raised && after.queue == [Order(pair, Lot(None, s.tradeUnits), "true")]
            && after.account.holdings.Keys == {pair} && WellFiled(after.account.holdings)
            && after.account.holdings[pair].terms.side == Long && PricedAt(after.account.holdings[pair], w.market.prices)
            && after.halfDown == w.halfDown
  {
    hide Lot, Positions.ProfitBase, Positions.ProfitPerc, Positions.Pips;
  }

  lemma FiveTurns(w: World, s: Setting, a: seq<Intent>, b: seq<Intent>, c: seq<Intent>, d: seq<Intent>, e: seq<Intent>)
    requires s.feed.Valid() && WellFiled(w.account.holdings) && w.market.running && !w.raised
    requires Going(w, s, a) && Going(Turned(w, s, a), s, b) && Going(Turned(Turned(w, s, a), s, b), s, c)
    requires Going(Turned(Turned(Turned(w, s, a), s, b), s, c), s, d)
    requires WellFiled(Turned(Turned(Turned(Turned(w, s, a), s, b), s, c), s, d).account.holdings)
    ensures RunOver(w, s, [a, b, c, d, e]) == Turned(Turned(Turned(Turned(Turned(w, s, a), s, b), s, c), s, d), s, e)
  {
    hide Turned;
    var w1 := Turned(w, s, a);
    var w2 := Turned(w1, s, b);
    var w3 := Turned(w2, s, c);
    var w4 := Turned(w3, s, d);
    OneTurn(w, s, [a, b, c, d, e]);
    assert [a, b, c, d, e][1..] == [b, c, d, e];
    OneTurn(w1, s, [b, c, d, e]);
    assert [b, c, d, e][1..] == [c, d, e];
    OneTurn(w2, s, [c, d, e]);
    assert [c, d, e][1..] == [d, e];
    OneTurn(w3, s, [d, e]);
    assert [d, e][1..] == [e];
    OneTurn(w4, s, [e]);
    assert [e][1..] == [];
  }

  /** The turn leaves the backtest going. */
  ghost predicate Going(w: World, s: Setting, made: seq<Intent>)
    requires s.feed.Valid()
  {
    && WellFiled(w.account.holdings)
    && var after := Turned(w, s, made);
       after.market.running && !after.raised && WellFiled(after.account.holdings)
  }

  // ---- How long a backtest lasts ----

  /** The turns that the waiting events and what comes of them can take, if the strategy answers
      no tick with more than `most` signals. */
  function Load(q: seq<Event>, most: nat): nat {
    if q == [] then 0
    else (match q[0] case Tick(_, _) => 1 + 2 * most case Signal(_, _, _, _) => 2 case Order(_, _, _) => 1)
         + Load(q[1..], most)
  }

  lemma {:induction false} LoadAdds(q: seq<Event>, r: seq<Event>, most: nat)
    ensures Load(q + r, most) == Load(q, most) + Load(r, most)
  {
    if q == [] {
      assert q + r == r;
    } else {
      assert (q + r)[1..] == q[1..] + r;
      LoadAdds(q[1..], r, most);
    }
  }

  lemma {:induction false} LoadOfSignals(made: seq<Intent>, round: nat, most: nat)
    ensures Load(Signals(made, round), most) == 2 * |made|
  {
    if made != [] {
      assert Signals(made, round)[1..] == Signals(made[1..], round);
      LoadOfSignals(made[1..], round, most);
    }
  }

  /** The turns for the ticks of so many pairs. */
  function TickTurns(pairs: nat, most: nat): nat {
    if pairs == 0 then 0 else TickTurns(pairs - 1, most) + 1 + 2 * most
  }

  lemma {:induction false} LoadOfTicks(feed: Feed, k: nat, round: nat, most: nat)
    requires k <= |feed.pairs|
    ensures Load(Ticks(feed, k, round), most) == TickTurns(k, most)
  {
    if k != 0 {
      LoadOfTicks(feed, k - 1, round, most);
      var last := [Tick(feed.pairs[k - 1], round)];
      assert Ticks(feed, k, round) == Ticks(feed, k - 1, round) + last;
      LoadAdds(Ticks(feed, k - 1, round), last, most);
      assert last[1..] == [];
    }
  }

  /** The turns of so many rounds, each a turn to begin it and the turns of its ticks. */
  function RoundTurns(rounds: nat, pairs: nat, most: nat): nat {
    if rounds == 0 then 0 else RoundTurns(rounds - 1, pairs, most) + 1 + TickTurns(pairs, most)
  }

  lemma {:induction false} TurnsInClosedForm(rounds: nat, pairs: nat, most: nat)
    ensures TickTurns(pairs, most) == pairs * (1 + 2 * most)
    ensures RoundTurns(rounds, pairs, most) == rounds * (1 + pairs * (1 + 2 * most))
    decreases rounds + pairs
  {
    if pairs != 0 {
      TurnsInClosedForm(0, pairs - 1, most);
      assert pairs * (1 + 2 * most) == (pairs - 1) * (1 + 2 * most) + (1 + 2 * most);
    }
    if rounds != 0 {
      TurnsInClosedForm(rounds - 1, pairs, most);
      var c := 1 + pairs * (1 + 2 * most);
      assert rounds * c == (rounds - 1) * c + c;
    }
  }

  /** The turns left before the data must have run out. */
  ghost function TurnsLeft(w: World, s: Setting, most: nat): nat
    requires s.feed.Valid() && s.feed.frames != [] && Covered(s.feed, w.market.index)
  {
    if !w.market.running then 0
    else RoundTurns(|s.feed.frames[0]| - w.market.index, |s.feed.pairs|, most) + Load(w.queue, most) + 1
  }

  lemma StreamSpends(w: World, s: Setting, most: nat)
    requires s.feed.Valid() && s.feed.frames != [] && Covered(s.feed, w.market.index)
    requires w.market.running && w.queue == []
    ensures Covered(s.feed, AfterStream(w, s).market.index)
    ensures TurnsLeft(AfterStream(w, s), s, most) < TurnsLeft(w, s, most)
  {
    hide Quoting, Ticks, TickTurns;
    LoadOfTicks(s.feed, Reach(s.feed, w.market.index, 0), w.market.index, most);
  }

  lemma EventSpends(w: World, s: Setting, made: seq<Intent>, most: nat)
    requires s.feed.Valid() && WellFiled(w.account.holdings) && w.queue != [] && |made| <= most
    ensures Turned(w, s, made).market == w.market && Load(Turned(w, s, made).queue, most) < Load(w.queue, most)
  {
    hide Executed, Ticked, Verdict, Lot;
    var e, rest := w.queue[0], w.queue[1..];
    match e
    case Tick(_, _) =>
      LoadAdds(rest, Signals(made, e.round), most);
      LoadOfSignals(made, e.round, most);
    case Signal(_, _, _, _) =>
      var order := Order(e.pair, Lot(e.size, s.tradeUnits), e.side);
      LoadAdds(rest, [order], most);
      LoadAdds(rest, [], most);
      assert [order][1..] == [];
    case Order(_, _, _) =>
  }

  lemma TurnSpends(w: World, s: Setting, made: seq<Intent>, most: nat)
    requires s.feed.Valid() && s.feed.frames != [] && Covered(s.feed, w.market.index) && WellFiled(w.account.holdings)
    requires w.market.running && |made| <= most
    ensures Covered(s.feed, Turned(w, s, made).market.index)
    ensures TurnsLeft(Turned(w, s, made), s, most) < TurnsLeft(w, s, most)
  {
    if w.queue == [] {
      StreamSpends(w, s, most);
      hide AfterStream, TurnsLeft, Covered, WellFiled;
    } else {
      EventSpends(w, s, made, most);
      hide Turned, Load, Covered, WellFiled, RoundTurns;
    }
  }

  lemma {:induction false} RunSpends(w: World, s: Setting, choices: seq<seq<Intent>>, most: nat, equity: real)
    requires Sound(w, s, equity) && s.feed.frames != [] && (forall made <- choices :: |made| <= most)
    requires |choices| >= TurnsLeft(w, s, most)
    ensures var end := RunOver(w, s, choices); !end.market.running || end.raised
    decreases choices
  {
    if choices != [] && w.market.running && !w.raised {
      TurnSpends(w, s, choices[0], most);
      TurnIsSound(w, s, choices[0], equity);
      hide Turned, Shaped, Timely, Priced, Repriced, Balanced, WellFiled, Answered, TurnsLeft;
      RunSpends(Turned(w, s, choices[0]), s, choices[1..], most, equity);
    }
  }

  /** With a limit that allows every round of the first table its turn, its ticks and two turns
      for each signal, a backtest ends by itself, if no signal raises. */
  lemma BacktestEnds(s: Setting, equity: real, choices: seq<seq<Intent>>, most: nat)
    requires s.feed.Valid() && s.feed.frames != [] && (forall made <- choices :: |made| <= most)
    ensures |choices| > |s.feed.frames[0]| * (1 + |s.feed.pairs| * (1 + 2 * most)) ==>
              var end := RunOver(Begun(s, equity), s, choices); !end.market.running || end.raised
  {
    StartIsSound(s, equity);
    TurnsInClosedForm(|s.feed.frames[0]|, |s.feed.pairs|, most);
    if |choices| > |s.feed.frames[0]| * (1 + |s.feed.pairs| * (1 + 2 * most)) {
      RunSpends(Begun(s, equity), s, choices, most, equity);
    }
  }

  /** Without a table it never does. */
  lemma {:induction false} NoTablesNoEnd(w: World, s: Setting, choices: seq<seq<Intent>>, equity: real)
    requires Sound(w, s, equity) && s.feed.frames == [] && w.market.running
    ensures RunOver(w, s, choices).market.running
    decreases choices
  {
    hide Shaped, Timely, Priced, Repriced, Balanced, WellFiled, Answered, Executed, Ticked, Verdict;
    if choices != [] && !w.raised {
      TurnIsSound(w, s, choices[0], equity);
      NoTablesNoEnd(Turned(w, s, choices[0]), s, choices[1..], equity);
    }
  }

  // ---- The program ----

  function Answers(strategy: nat -> seq<Intent>, turns: nat): seq<seq<Intent>> {
    seq(turns, i requires 0 <= i < turns => strategy(i))
  }

  class Backtest {
    const setting: Setting
    const events: EventQueue
    const context: DecimalContext
    const ticker: HistoricCSVPriceHandler
    const portfolio: Portfolio
    var signalCount: nat
    ghost var before: Prices
    ghost var mode: bool
    ghost var orders: nat
    var raised: bool

    ghost predicate Valid()
      reads this, portfolio, portfolio.positions.Values
    {
      && setting.feed.Valid() && ticker.feed == setting.feed
      && ticker.events == events && ticker.context == context
      && portfolio.events == events && portfolio.context == context
      && portfolio.base == setting.base && portfolio.tradeUnits == setting.tradeUnits
      && portfolio.Valid()
    }

    ghost function Current(): World
      reads this, events, context, ticker, portfolio, portfolio.positions.Values
    {
      World(events.items, ticker.View(), portfolio.View(), context.halfDown, before, mode, signalCount, orders, raised)
    }

    constructor (feed: Feed, equity: real)
      requires feed.Valid()
      ensures Valid() && fresh(events) && fresh(context) && fresh(ticker) && fresh(portfolio)
      ensures portfolio.positions == map[]
      ensures setting == Setting(feed, "USD", equity * 100.0 * 0.02)
      ensures Current() == Begun(setting, equity)
    {
      var queue := new EventQueue();
      var decimals := new DecimalContext();
      events, context := queue, decimals;
      ticker := new HistoricCSVPriceHandler(feed, queue, decimals);
      portfolio := new Portfolio("USD", equity, 0.02, queue, decimals);
      setting := Setting(feed, "USD", equity * 100.0 * 0.02);
      signalCount, orders, mode, raised := 0, 0, false, false;
      before := Unquoted(feed.pairs);
    }

    /** Whatever the strategy, what it does in answer to a tick is to put signals. */
    method CalculateSignals(made: seq<Intent>, round: nat)
      modifies events
      ensures |events.items| == |old(events.items)| + |made|
      ensures forall i | 0 <= i < |made| ::
                events.items[|old(events.items)| + i] == Signal(made[i].pair, made[i].side, made[i].size, round)
      ensures events.items == old(events.items) + Signals(made, round)
    {
      for i := 0 to |made|
        invariant events.items == old(events.items) + Signals(made[..i], round)
      {
        events.Put(Signal(made[i].pair, made[i].side, made[i].size, round));
        assert Signals(made[..i + 1], round)
            == Signals(made[..i], round) + [Signal(made[i].pair, made[i].side, made[i].size, round)];
      }
      assert made[..|made|] == made;
    }

    method NextRound()
      requires Valid() && events.items == []
      modifies `before, `mode, events, ticker
      ensures Valid() && Current() == AfterStream(old(Current()), setting)
    {
      hide Streamed, Ticks, WellFiled, Portfolio.Valid, Portfolio.View;
      before := ticker.prices;
      ticker.StreamNextTick();
      if ticker.continueBacktest {
        mode := context.halfDown;
      }
      assert portfolio.View() == old(portfolio.View()) && portfolio.Valid();
    }

    /** `was` is the state before the tick was taken from the queue. */
    method HandleTick(pair: string, round: nat, made: seq<Intent>, ghost was: World)
      requires Valid() && was.queue != [] && was.queue[0] == Tick(pair, round)
      requires Current() == was.(queue := was.queue[1..]) && WellFiled(was.account.holdings)
      modifies `raised, events, portfolio.positions.Values
      ensures Valid() && Current() == AfterTick(was, made)
    {
      hide Signals, Ticked, WellFiled, Quoted, Feed.Valid, Portfolio.Valid, Portfolio.View;
      CalculateSignals(made, round);
      assert portfolio.View() == was.account && portfolio.Valid();
      portfolio.HeldIsFiled(pair);
      var ok := portfolio.UpdatePortfolio(pair, ticker.prices);
      raised := !ok;
    }

    method HandleSignal(pair: string, side: string, size: Option<real>, ghost round: nat, ghost was: World)
      requires Valid() && was.queue != [] && was.queue[0] == Signal(pair, side, size, round)
      requires Current() == was.(queue := was.queue[1..]) && WellFiled(was.account.holdings)
      modifies `raised, `signalCount, events, context, portfolio, portfolio.positions.Values
      ensures Valid() && fresh(portfolio.positions.Values - old(portfolio.positions.Values))
      ensures Current() == AfterSignal(was, setting)
    {
      hide Verdict, Executed, Lot, WellFiled, Portfolio.Valid, Portfolio.View;
      signalCount := signalCount + 1;
      var outcome := portfolio.ExecuteSignal(side, pair, size, ticker.prices);
      raised := outcome.Raised?;
    }

    method Handle(event: Event, made: seq<Intent>, ghost was: World)
      requires Valid() && !raised && was.queue != [] && was.queue[0] == event
      requires Current() == was.(queue := was.queue[1..]) && WellFiled(was.account.holdings)
      modifies this, events, context, portfolio, portfolio.positions.Values
      ensures Valid() && fresh(portfolio.positions.Values - old(portfolio.positions.Values))
      ensures Current() == Turned(was, setting, made)
    {
      hide AfterTick, AfterSignal, WellFiled, Portfolio.Valid, Portfolio.View;
      match event
      case Tick(pair, round) => HandleTick(pair, round, made, was);
      case Signal(pair, side, size, round) => HandleSignal(pair, side, size, round, was);
      case Order(_, _, _) => orders := orders + 1;
    }

    /** One turn of the loop. */
    method Turn(made: seq<Intent>)
      requires Valid() && !raised
      modifies this, events, context, ticker, portfolio, portfolio.positions.Values
      ensures Valid() && fresh(portfolio.positions.Values - old(portfolio.positions.Values))
      ensures Current() == Turned(old(Current()), setting, made)
    {
      hide AfterStream, AfterTick, AfterSignal, AfterOrder, WellFiled, Portfolio.Valid, Portfolio.View;
      ghost var was := Current();
      assert WellFiled(was.account.holdings);
      var e := events.Get();
      assert portfolio.View() == was.account && portfolio.Valid();
      if e.None? {
        NextRound();
      } else {
        Handle(e.value, made, was);
      }
    }

    /** _run_backtest: `strategy` is what is put at each turn, should it be a tick's. */
    method Run(strategy: nat -> seq<Intent>, maxIters: nat)
      requires Valid() && !raised && ticker.continueBacktest
      modifies this, events, context, ticker, portfolio, portfolio.positions.Values
      ensures Valid()
      ensures var end := RunOver(old(Current()), setting, Answers(strategy, maxIters));
        raised == end.raised
        && portfolio.View() == if raised then end.account else Settled(end.account, setting.feed.pairs)
    {
      hide Turned;
      var iters := 0;
      ghost var choices := Answers(strategy, maxIters);
      while iters < maxIters && ticker.continueBacktest && !raised
        invariant 0 <= iters <= maxIters && Valid()
        invariant fresh(portfolio.positions.Values - old(portfolio.positions.Values))
        invariant RunOver(old(Current()), setting, choices) == RunOver(Current(), setting, choices[iters..])
      {
        OneTurn(Current(), setting, choices[iters..]);
        assert choices[iters..][0] == strategy(iters) && choices[iters..][1..] == choices[iters + 1..];
        Turn(strategy(iters));
        iters := iters + 1;
      }
      if !raised {
        CloseAll();
      }
    }

    method CloseAll()
      requires Valid()
      modifies portfolio, context
      ensures Valid() && portfolio.View() == Settled(old(portfolio.View()), setting.feed.pairs)
    {
      var pairs := setting.feed.pairs;
      for i := 0 to |pairs|
        invariant Valid() && portfolio.positions.Values <= old(portfolio.positions.Values)
        invariant portfolio.View() == Settled(old(portfolio.View()), pairs[..i])
      {
        var _ := portfolio.ClosePosition(pairs[i]);
        assert pairs[..i + 1][..i] == pairs[..i];
      }
      assert pairs[..|pairs|] == pairs;
    }

    /** What the backtest reports once nothing is open: it raises, dividing by zero, exactly when
        no trade was made; else the wins and the losses in a hundred trades. */
    method Report(ghost equity: real) returns (rates: Option<(real, real)>)
      requires portfolio.positions == map[] && Balanced(portfolio.View(), equity)
      ensures portfolio.tradeCount == portfolio.winCount + portfolio.lossCount == |portfolio.closed|
      ensures portfolio.winCount == |set i | 0 <= i < |portfolio.closed| && portfolio.closed[i] > 0.0|
      ensures rates.Some? <==> portfolio.tradeCount > 0
      ensures rates.Some? ==>
        && rates.value.0 + rates.value.1 == 100.0
        && IsRate(rates.value.0, portfolio.winCount, portfolio.tradeCount)
        && IsRate(rates.value.1, portfolio.lossCount, portfolio.tradeCount)
    {
      RatesAddUpIff(portfolio.View(), equity);
      GainsAreThePositive(portfolio.closed);
      RateIsThePercentage(portfolio.winCount, portfolio.tradeCount);
      RateIsThePercentage(portfolio.lossCount, portfolio.tradeCount);
      hide Rate, Gains, Sum, IsRate;
      var won, lost := portfolio.GetWinRate(), portfolio.GetLossRate();
      rates := if won.Some? && lost.Some? then Some((won.value, lost.value)) else None;
    }

    /** The whole of it: unless a signal raises, nothing is left open, what is shown as profit is
        all that the closings realised, and the rates are reported. */
    method Simulate(strategy: nat -> seq<Intent>, maxIters: nat, ghost equity: real) returns (rates: Option<(real, real)>)
      requires Valid() && Current() == Begun(setting, equity)
      modifies this, events, context, ticker, portfolio, portfolio.positions.Values
      ensures Valid()
      ensures raised ==> rates.None?
      ensures !raised ==>
        && portfolio.positions == map[]
        && portfolio.tradeCount == portfolio.winCount + portfolio.lossCount == |portfolio.closed|
        && portfolio.balance - equity == Sum(portfolio.closed)
        && (rates.Some? <==> portfolio.tradeCount > 0)
        && (rates.Some? ==> IsRate(rates.value.0, portfolio.winCount, portfolio.tradeCount)
                            && IsRate(rates.value.1, portfolio.lossCount, portfolio.tradeCount))
    {
      hide RunOver, Settled, Sum, Gains, IsRate, Portfolio.Valid;
      ghost var s := setting;
      EndsFlat(s, equity, Answers(strategy, maxIters));
      Run(strategy, maxIters);
      if raised {
        return None;
      }
      rates := Report(equity);
    }
  }
}
