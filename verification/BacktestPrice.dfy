/** backtest/price.py: the ticker that replays history, one row of every pair's table a round. */
module BacktestPrices {
  import opened Wrappers
  import opened Decimals
  import opened Pricing

  datatype Bar = Bar(bidOpen: real, askOpen: real)

  /** One table of bars per pair. */
  datatype Feed = Feed(pairs: seq<string>, frames: seq<seq<Bar>>) {
    ghost predicate Valid() {
      |pairs| == |frames|
    }
  }

  /** The events of backtest/strategy.py.  `round` stands for the time an event carries: the
      row number of the tick, or of the tick that a signal answers. */
  datatype Event =
    | Tick(pair: string, round: nat)
    | Signal(pair: string, side: string, size: Option<real>, round: nat)
    | Order(pair: string, units: int, side: string)

  /** Python's decimal context: quantize follows it wherever no rounding is named. */
  class DecimalContext {
    var halfDown: bool

    constructor ()
      ensures !halfDown
    {
      halfDown := false;
    }
  }

  class EventQueue {
    var items: seq<Event>

    constructor ()
      ensures items == []
    {
      items := [];
    }

    method Put(e: Event)
      modifies this
      ensures items == old(items) + [e]
    {
      items := items + [e];
    }

    method Get() returns (e: Option<Event>)
      modifies this
      ensures old(items) == [] ==> e.None? && items == []
      ensures old(items) != [] ==> e.Some? && [e.value] + items == old(items)
    {
      if items == [] {
        return None;
      }
      e := Some(items[0]);
      items := items[1..];
    }
  }

  /** quantize(Decimal("0.00001")) */
  function Quantized(x: real, halfDown: bool): real {
    if halfDown then ToPoints(x) else RoundHalfEven(x * 100000.0) as real / 100000.0
  }

  /** A quote is the nearest multiple of a hundred-thousandth, ties as the context has them. */
  lemma QuantizedFollowsTheContext(x: real, halfDown: bool) returns (n: int)
    ensures Quantized(x, halfDown) == n as real / 100000.0
    ensures if halfDown then IsHalfDown(n, x * 100000.0) else IsHalfEven(n, x * 100000.0)
  {
    n := if halfDown then RoundHalfDown(x * 100000.0) else RoundHalfEven(x * 100000.0);
    HalfDownIsUnique(x * 100000.0, n);
    HalfEvenIsUnique(x * 100000.0, n);
  }

  /** The two contexts differ exactly on ties: half-down goes toward zero and half-even to the
      even neighbour, and these are two where the whole below is odd for a positive value and
      even for a negative one. */
  lemma ContextsDifferIff(x: real)
    ensures var y := x * 100000.0;
            Quantized(x, true) != Quantized(x, false)
            <==> y - y.Floor as real == 0.5 && (x >= 0.0 <==> y.Floor % 2 == 1)
  {
    var y := x * 100000.0;
    assert x >= 0.0 <==> y >= 0.0;
    RoundingsDifferIff(y);
    DifferentPoints(RoundHalfDown(y), RoundHalfEven(y));
  }

  lemma RoundingsDifferIff(y: real)
    ensures RoundHalfDown(y) != RoundHalfEven(y) <==> y - y.Floor as real == 0.5 && (y >= 0.0 <==> y.Floor % 2 == 1)
  {
  }

  lemma DifferentPoints(m: int, n: int)
    ensures m as real / 100000.0 != n as real / 100000.0 <==> m != n
  {
  }

  /** The nearest multiple of a hundred-thousandth, ties as the context has them. */
  ghost predicate IsPoint(quote: real, x: real, halfDown: bool) {
    var n := (quote * 100000.0).Floor;
    quote == n as real / 100000.0 && if halfDown then IsHalfDown(n, x * 100000.0) else IsHalfEven(n, x * 100000.0)
  }

  /** Both sides of the quote are there, each from its own column of the row. */
  ghost predicate QuotesRow(q: Quote, bar: Bar, halfDown: bool) {
    && q.bid.Some? && IsPoint(q.bid.value, bar.bidOpen, halfDown)
    && q.ask.Some? && IsPoint(q.ask.value, bar.askOpen, halfDown)
  }

  lemma QuoteIsOfTheRow(bar: Bar, halfDown: bool)
    ensures QuotesRow(QuoteOf(bar, halfDown), bar, halfDown)
  {
    hide Quantized;
    var m := QuantizedFollowsTheContext(bar.bidOpen, halfDown);
    var n := QuantizedFollowsTheContext(bar.askOpen, halfDown);
    hide IsHalfDown, IsHalfEven;
  }

  function QuoteOf(bar: Bar, halfDown: bool): Quote {
    Quote(Some(Quantized(bar.bidOpen, halfDown)), Some(Quantized(bar.askOpen, halfDown)))
  }

  /** The number of the first table, from `start` on, without a row at `index`. */
  function Reach(feed: Feed, index: nat, start: nat): (k: nat)
    requires start <= |feed.frames|
    ensures start <= k <= |feed.frames|
    ensures forall i | start <= i < k :: index < |feed.frames[i]|
    ensures k < |feed.frames| ==> |feed.frames[k]| <= index
    decreases |feed.frames| - start
  {
    if start == |feed.frames| || |feed.frames[start]| <= index then start else Reach(feed, index, start + 1)
  }

  /** The price table once the first k tables' rows at `index` are in it. */
  function Quoting(prices: Prices, feed: Feed, index: nat, k: nat, halfDown: bool): Prices
    requires feed.Valid() && k <= |feed.frames| && forall i | 0 <= i < k :: index < |feed.frames[i]|
  {
    if k == 0 then prices
    else Quoting(prices, feed, index, k - 1, halfDown)[
           feed.pairs[k - 1] := QuoteOf(feed.frames[k - 1][index], halfDown)]
  }

  /** The first k pairs are quoted; the table lists no others besides those it listed before. */
  lemma {:induction false} QuotingCovers(prices: Prices, feed: Feed, index: nat, k: nat, halfDown: bool, p: string)
    requires feed.Valid() && k <= |feed.frames| && forall i | 0 <= i < k :: index < |feed.frames[i]|
    ensures p in Quoting(prices, feed, index, k, halfDown) <==> p in prices || p in feed.pairs[..k]
    ensures p in feed.pairs[..k] ==> Quoted(Quoting(prices, feed, index, k, halfDown), p)
  {
    if k != 0 {
      assert feed.pairs[..k] == feed.pairs[..k - 1] + [feed.pairs[k - 1]];
      QuotingCovers(prices, feed, index, k - 1, halfDown, p);
    }
  }

  /** Pairs beyond the first k keep their quotes; a pair's quote is the last row given for it. */
  lemma {:induction false} QuotingKeeps(prices: Prices, feed: Feed, index: nat, k: nat, halfDown: bool, p: string)
    requires feed.Valid() && k <= |feed.frames| && forall i | 0 <= i < k :: index < |feed.frames[i]|
    requires p in prices && p !in feed.pairs[..k]
    ensures p in Quoting(prices, feed, index, k, halfDown)
    ensures Quoting(prices, feed, index, k, halfDown)[p] == prices[p]
  {
    if k != 0 {
      assert feed.pairs[..k] == feed.pairs[..k - 1] + [feed.pairs[k - 1]];
      QuotingKeeps(prices, feed, index, k - 1, halfDown, p);
    }
  }

  /** After the first k tables a pair is quoted at the bid and the ask of its row; of a pair listed
      twice the later table counts. */
  lemma {:induction false} LastRowWins(prices: Prices, feed: Feed, index: nat, k: nat, halfDown: bool, i: nat)
    requires feed.Valid() && k <= |feed.frames| && forall i | 0 <= i < k :: index < |feed.frames[i]|
    requires i < k && feed.pairs[i] !in feed.pairs[i + 1..k]
    ensures feed.pairs[i] in Quoting(prices, feed, index, k, halfDown)
    ensures QuotesRow(Quoting(prices, feed, index, k, halfDown)[feed.pairs[i]], feed.frames[i][index], halfDown)
  {
    if i < k - 1 {
      assert feed.pairs[i + 1..k] == feed.pairs[i + 1..k - 1] + [feed.pairs[k - 1]];
      LastRowWins(prices, feed, index, k - 1, halfDown, i);
    } else {
      QuoteIsOfTheRow(feed.frames[i][index], halfDown);
      hide QuotesRow, QuoteOf;
    }
  }

  /** The ticker's state as a value. */
  datatype Market = Market(prices: Prices, index: nat, running: bool)

  function Ticks(feed: Feed, k: nat, round: nat): seq<Event>
    requires k <= |feed.pairs|
  {
    seq(k, i requires 0 <= i < k => Tick(feed.pairs[i], round))
  }

  lemma NothingYet(prices: Prices, feed: Feed, index: nat, halfDown: bool)
    requires feed.Valid()
    ensures Ticks(feed, 0, index) == [] && Quoting(prices, feed, index, 0, halfDown) == prices
  {
  }

  lemma OneMore(prices: Prices, feed: Feed, index: nat, k: nat, halfDown: bool)
    requires feed.Valid() && k < |feed.frames| && forall i | 0 <= i <= k :: index < |feed.frames[i]|
    ensures Ticks(feed, k + 1, index) == Ticks(feed, k, index) + [Tick(feed.pairs[k], index)]
    ensures Quoting(prices, feed, index, k + 1, halfDown)
            == Quoting(prices, feed, index, k, halfDown)[feed.pairs[k] := QuoteOf(feed.frames[k][index], halfDown)]
  {
  }

  function Streamed(feed: Feed, m: Market, halfDown: bool): Market
    requires feed.Valid()
  {
    var k := Reach(feed, m.index, 0);
    var prices := Quoting(m.prices, feed, m.index, k, halfDown);
    if k == |feed.frames| then Market(prices, m.index + 1, m.running) else Market(prices, m.index, false)
  }

  /** A round puts the ticks of the pairs before the first table that has run out, in the order of
      the pairs, and quotes each of them at the bid and the ask of its own row. */
  lemma RoundQuotesTheRows(feed: Feed, m: Market, halfDown: bool)
    requires feed.Valid()
    ensures var k, prices := Reach(feed, m.index, 0), Streamed(feed, m, halfDown).prices;
            && |Ticks(feed, k, m.index)| == k && (forall i | 0 <= i < k :: Ticks(feed, k, m.index)[i] == Tick(feed.pairs[i], m.index))
            && forall i | 0 <= i < k && feed.pairs[i] !in feed.pairs[i + 1..k] ::
                 feed.pairs[i] in prices && QuotesRow(prices[feed.pairs[i]], feed.frames[i][m.index], halfDown)
  {
    var k := Reach(feed, m.index, 0);
    forall i | 0 <= i < k && feed.pairs[i] !in feed.pairs[i + 1..k]
      ensures feed.pairs[i] in Quoting(m.prices, feed, m.index, k, halfDown)
      ensures QuotesRow(Quoting(m.prices, feed, m.index, k, halfDown)[feed.pairs[i]], feed.frames[i][m.index], halfDown)
    {
      LastRowWins(m.prices, feed, m.index, k, halfDown, i);
    }
    hide QuotesRow, Quoting;
  }

  ghost function Unquoted(pairs: seq<string>): Prices {
    map p | p in pairs :: Quote(None, None)
  }

  class HistoricCSVPriceHandler {
    const feed: Feed
    const events: EventQueue
    const context: DecimalContext
    var prices: Prices
    var curDateIndex: nat
    var continueBacktest: bool

    ghost function View(): Market
      reads this
    {
      Market(prices, curDateIndex, continueBacktest)
    }

    constructor (feed: Feed, events: EventQueue, context: DecimalContext)
      ensures this.feed == feed && this.events == events && this.context == context
      ensures View() == Market(Unquoted(feed.pairs), 0, true)
    {
      this.feed := feed;
      this.events := events;
      this.context := context;
      this.prices := map p | p in feed.pairs :: Quote(None, None);
      this.curDateIndex := 0;
      this.continueBacktest := true;
    }

    /** A round: each pair in turn has its quote replaced and a tick put, until a table has no
        row left, which ends the backtest there and then. */
    method StreamNextTick()
      requires feed.Valid()
      modifies this, events
      ensures View() == Streamed(feed, old(View()), context.halfDown)
      ensures events.items ==
        old(events.items) + Ticks(feed, Reach(feed, old(curDateIndex), 0), old(curDateIndex))
    {
      hide QuoteOf, Ticks, Quoting;
      var index := curDateIndex;
      var halfDown := context.halfDown;
      NothingYet(prices, feed, index, halfDown);
      for k := 0 to |feed.frames|
        invariant curDateIndex == index && continueBacktest == old(continueBacktest)
        invariant Reach(feed, index, 0) == Reach(feed, index, k)
        invariant forall i | 0 <= i < k :: index < |feed.frames[i]|
        invariant prices == Quoting(old(prices), feed, index, k, halfDown)
        invariant events.items == old(events.items) + Ticks(feed, k, index)
      {
        if |feed.frames[k]| <= index {
          continueBacktest := false;
          return;
        }
        prices := prices[feed.pairs[k] := QuoteOf(feed.frames[k][index], halfDown)];
        events.Put(Tick(feed.pairs[k], index));
        OneMore(old(prices), feed, index, k, halfDown);
      }
      curDateIndex := curDateIndex + 1;
    }
  }
}
