/** The moving-average strategy and the portfolio behind one queue (trading/trading.py:19-44):
    ticks arrive at any time, and events are handled in the order they were put.  A signal
    handled while some quote is still missing is dropped, and the strategy does not know. */
module Agreement {
  import opened Wrappers
  import opened Pricing
  import opened Portfolios
  import Ledgers
  import opened Lots
  import opened CrossStrategies

  datatype Event = TickPut(pair: string, bid: real) | SignalPut(pair: string, side: Side) | OrderPut(order: OrderEvent)

  datatype Config = Config(base: string, lot: int, shortWindow: int, longWindow: int)

  /** `dropped` counts, by pair, the signals not executed for want of a quote. */
  datatype System = System(
    strategy: map<string, PairState>, queue: seq<Event>, prices: Prices, account: Account, dropped: map<string, nat>)

  /** A tick of `pair` arrives with the quotes it brings (its own pair and the inverse); or the
      event at the head of the queue is handled. */
  datatype Input = Arrive(pair: string, bid: real, quotes: Prices) | Handle

  ghost predicate Good(c: Config) {
    c.lot != 0 && c.shortWindow != 0 && c.longWindow != 0
  }

  ghost predicate Possible(s: System, c: Config, i: Input) {
    match i
    case Arrive(pair, _, quotes) => pair in s.strategy && AllQuoted(quotes)
    case Handle => s.queue != []
  }

  /** Every traded pair can be looked up in the ticker. */
  ghost predicate AllListed(s: System, c: Config) {
    forall p <- s.strategy :: Listed(p, c.base, s.prices)
  }

  ghost predicate WellFormed(s: System, c: Config) {
    && AllListed(s, c) && WellFiled(s.account.holdings, c.base)
    && s.account.holdings.Keys <= s.strategy.Keys && s.dropped.Keys == s.strategy.Keys
    && (s.account.holdings != map[] ==> AllQuoted(s.prices))
    && (forall e <- s.queue :: e.TickPut? || e.SignalPut? ==> e.pair in s.strategy)
  }

  function AsEvents(pair: string, sides: seq<Side>): (events: seq<Event>)
    ensures forall e <- events :: e.SignalPut? && e.pair == pair
  {
    if sides == [] then [] else [SignalPut(pair, sides[0])] + AsEvents(pair, sides[1..])
  }

  function OrderFor(o: Outcome, pair: string, lot: int, side: Side): seq<Event> {
    if PutsOrder(o) then [OrderPut(OrderEvent(pair, lot, side))] else []
  }

  ghost function TickTaken(s: System, c: Config, pair: string, bid: real): (n: System)
    requires Good(c) && WellFormed(s, c) && s.queue != [] && s.queue[0] == TickPut(pair, bid)
    ensures WellFormed(n, c)
  {
    assert s.queue[0] in s.queue;
    var st := s.strategy[pair];
    var sides := Signals(st, Averaged(st, c.shortWindow, c.longWindow, bid), c.shortWindow);
    s.(strategy := s.strategy[pair := Next(st, c.shortWindow, c.longWindow, bid)],
       queue := s.queue[1..] + AsEvents(pair, sides),
       account := Ticked(s.account, pair, s.prices))
  }

  ghost function SignalTaken(s: System, c: Config, pair: string, side: Side): (n: System)
    requires Good(c) && WellFormed(s, c) && s.queue != [] && s.queue[0] == SignalPut(pair, side)
    ensures WellFormed(n, c)
  {
    assert s.queue[0] in s.queue;
    var o := Verdict(s.account, c.base, c.lot, side, pair, s.prices);
    s.(queue := s.queue[1..] + OrderFor(o, pair, c.lot, side),
       account := Executed(s.account, c.base, c.lot, side, pair, s.prices),
       dropped := if o.Unquoted? then s.dropped[pair := s.dropped[pair] + 1] else s.dropped)
  }

  ghost function Arrived(s: System, c: Config, pair: string, bid: real, quotes: Prices): (n: System)
    requires WellFormed(s, c) && pair in s.strategy && AllQuoted(quotes)
    ensures WellFormed(n, c)
  {
    s.(queue := s.queue + [TickPut(pair, bid)], prices := s.prices + quotes)
  }

  ghost function Advance(s: System, c: Config, i: Input): (n: System)
    requires Good(c) && WellFormed(s, c) && Possible(s, c, i)
    ensures WellFormed(n, c)
  {
    match i
    case Arrive(pair, bid, quotes) => Arrived(s, c, pair, bid, quotes)
    case Handle =>
      match s.queue[0]
      case TickPut(pair, bid) => TickTaken(s, c, pair, bid)
      case SignalPut(pair, side) => SignalTaken(s, c, pair, side)
      case OrderPut(_) => s.(queue := s.queue[1..])
  }

  /** The signals of the pair still waiting in the queue. */
  function Pending(queue: seq<Event>, pair: string): seq<Side> {
    if queue == [] then []
    else (if queue[0].SignalPut? && queue[0].pair == pair then [queue[0].side] else []) + Pending(queue[1..], pair)
  }

  lemma {:induction false} PendingConcat(a: seq<Event>, b: seq<Event>, pair: string)
    ensures Pending(a + b, pair) == Pending(a, pair) + Pending(b, pair)
  {
    if a == [] {
      assert a + b == b;
    } else {
      assert (a + b)[1..] == a[1..] + b;
      PendingConcat(a[1..], b, pair);
    }
  }

  /** A tick that arrives waits behind what was there, and its quotes count at once. */
  lemma ArrivalIsQueued(s: System, c: Config, i: Input)
    requires Good(c) && WellFormed(s, c) && Possible(s, c, i) && i.Arrive?
    ensures var n := Advance(s, c, i);
            && n.queue == s.queue + [TickPut(i.pair, i.bid)] && n.account == s.account && n.strategy == s.strategy
            && (forall p <- i.quotes :: p in n.prices && n.prices[p] == i.quotes[p])
            && (forall p <- s.prices :: p in n.prices && (p !in i.quotes ==> n.prices[p] == s.prices[p]))
  {
  }

  /** A tick that is handled goes to the strategy, whose signals wait behind everything else, and
      brings a position in its pair to the quotes of the moment, a long to the bid and a short to
      the ask; what is held and the balance stay. */
  lemma TickIsHandled(s: System, c: Config)
    requires Good(c) && WellFormed(s, c) && s.queue != [] && s.queue[0].TickPut?
    ensures var n, pair := Advance(s, c, Handle), s.queue[0].pair;
            && s.queue[1..] <= n.queue && (forall i | |s.queue| - 1 <= i < |n.queue| :: n.queue[i].SignalPut? && n.queue[i].pair == pair)
            && pair in n.strategy && n.strategy[pair].ticks == s.strategy[pair].ticks + 1
            && n.prices == s.prices && n.account.balance == s.account.balance && n.account.holdings.Keys == s.account.holdings.Keys
            && (pair in s.account.holdings ==>
                  var h, k := s.account.holdings[pair], n.account.holdings[pair];
                  && pair in s.prices && s.prices[pair].bid.Some? && s.prices[pair].ask.Some?
                  && k.terms == h.terms && k.book.units == h.book.units && k.book.avgPrice == h.book.avgPrice
                  && k.book.curPrice == if h.terms.side == Long then s.prices[pair].bid.value else s.prices[pair].ask.value)
  {
    var pair := s.queue[0].pair;
    assert s.queue[0] in s.queue;
    if pair in s.account.holdings {
      TickReprices(s.account, c.base, pair, s.prices);
    } else {
      NotHeld(s.account, pair, s.prices);
    }
    hide Ticked, Averaged, Signals, RollingSma;
  }

  /** A signal that is handled while some quote is missing is dropped and changes nothing else; if
      every quote is there it is never dropped, and is answered with an order behind everything
      else if it opens, adds or closes. */
  lemma SignalIsHandled(s: System, c: Config)
    requires Good(c) && WellFormed(s, c) && s.queue != [] && s.queue[0].SignalPut?
    ensures var n, pair, side, rest := Advance(s, c, Handle), s.queue[0].pair, s.queue[0].side, s.queue[1..];
            && n.strategy == s.strategy && n.prices == s.prices && pair in s.dropped
            && (!AllQuoted(s.prices) ==> n.queue == rest && n.account == s.account && n.dropped == s.dropped[pair := s.dropped[pair] + 1])
            && (AllQuoted(s.prices) ==>
                  var o := Verdict(s.account, c.base, c.lot, side, pair, s.prices);
                  && n.dropped == s.dropped
                  && n.queue == rest + if o.DidOpen? || o.DidAdd? || o.DidClose? then [OrderPut(OrderEvent(pair, c.lot, side))] else [])
  {
    hide OpenedIn, AddedTo, ClosedOut;
  }

  lemma NotHeld(a: Account, pair: string, prices: Prices)
    requires pair !in a.holdings
    ensures Ticked(a, pair, prices) == a
  {
  }

  // ----- one pair: its flag, its pending signals, its dropped signals and its lots

  /** The side of the next signal to be executed: the oldest one pending, or else the one the
      strategy would emit. */
  function DueSide(invested: bool, pending: seq<Side>): Side {
    if pending != [] then pending[0] else NextSide(invested)
  }

  /** With an even number of dropped signals one long lot exactly when a sell is due; with an
      odd number one short lot exactly when a buy is due. */
  function LotsWhenDue(due: Side, dropped: nat): Option<LotCount> {
    if dropped % 2 == 0 then (if due == Sell then Some(LotCount(Long, 1)) else None)
    else (if due == Buy then Some(LotCount(Short, 1)) else None)
  }

  function Look(m: LotBook, pair: string): Option<LotCount> {
    if pair in m then Some(m[pair]) else None
  }

  /** Pending signals alternate and lead to the flag as it is now, and the lots held are those
      that the side due next and the dropped signals call for. */
  ghost predicate Coherent(invested: bool, pending: seq<Side>, dropped: nat, held: Option<LotCount>) {
    var due := DueSide(invested, pending);
    && Alternates(pending, due)
    && NextSide(invested) == (if |pending| % 2 == 0 then due else Opposite(due))
    && held == LotsWhenDue(due, dropped)
  }

  lemma EmitKeeps(invested: bool, pending: seq<Side>, dropped: nat, held: Option<LotCount>)
    requires Coherent(invested, pending, dropped, held)
    ensures Coherent(!invested, pending + [NextSide(invested)], dropped, held)
  {
    var due, longer := DueSide(invested, pending), pending + [NextSide(invested)];
    forall i | 0 <= i < |longer| ensures longer[i] == if i % 2 == 0 then due else Opposite(due) {
      if i < |pending| {
        assert longer[i] == pending[i];
      }
    }
  }

  lemma TakeKeeps(invested: bool, side: Side, rest: seq<Side>, dropped: nat, held: Option<LotCount>)
    requires Coherent(invested, [side] + rest, dropped, held)
    ensures held.None? ==> Coherent(invested, rest, dropped + 1, None)
    ensures forall m: LotBook, pair :: Look(m, pair) == held ==> Coherent(invested, rest, dropped, Look(Turn(m, side, pair), pair))
    ensures held.None? ==> dropped % 2 == 0 ==> side == Buy
    ensures held.Some? ==> held.value.lots == 1 && TypeFor(side) != held.value.side
  {
    var all := [side] + rest;
    assert DueSide(invested, all) == side;
    assert DueSide(invested, rest) == Opposite(side) by {
      if rest != [] {
        assert all[1] == rest[0];
      }
    }
    forall i | 0 <= i < |rest| ensures rest[i] == if i % 2 == 0 then Opposite(side) else side {
      assert all[i + 1] == rest[i];
    }
  }

  // ----- the whole system

  ghost predicate Invariant(s: System, c: Config, m: LotBook) {
    && WellFormed(s, c)
    && Counts(s.account, c.lot, m)
    && forall p <- s.strategy :: Coherent(s.strategy[p].invested, Pending(s.queue, p), s.dropped[p], Look(m, p))
  }

  ghost function LotsAfter(s: System, c: Config, m: LotBook, i: Input): LotBook
    requires Possible(s, c, i)
  {
    if i.Handle? && s.queue[0].SignalPut? && AllQuoted(s.prices) then Turn(m, s.queue[0].side, s.queue[0].pair) else m
  }

  lemma ArriveKeeps(s: System, c: Config, m: LotBook, i: Input)
    requires Good(c) && Invariant(s, c, m) && Possible(s, c, i) && i.Arrive?
    ensures Invariant(Advance(s, c, i), c, m)
  {
    hide Coherent;
    var n := Advance(s, c, i);
    forall p | p in n.strategy
      ensures Pending(n.queue, p) == Pending(s.queue, p)
    {
      PendingConcat(s.queue, [TickPut(i.pair, i.bid)], p);
      assert Pending([TickPut(i.pair, i.bid)], p) == [];
    }
    assert AllQuoted(s.prices) ==> AllQuoted(n.prices);
  }

  lemma OrderKeeps(s: System, c: Config, m: LotBook)
    requires Good(c) && Invariant(s, c, m) && s.queue != [] && s.queue[0].OrderPut?
    ensures Invariant(Advance(s, c, Handle), c, m)
  {
    hide Coherent;
    forall p | p in s.strategy
      ensures Pending(s.queue[1..], p) == Pending(s.queue, p)
    {
    }
  }

  lemma TickKeeps(s: System, c: Config, m: LotBook)
    requires Good(c) && Invariant(s, c, m) && s.queue != [] && s.queue[0].TickPut?
    ensures Invariant(Advance(s, c, Handle), c, m)
  {
    hide Coherent, Averaged, Ticked, Counts, WellFiled, AllQuoted;
    var pair, n := s.queue[0].pair, Advance(s, c, Handle);
    assert s.queue[0] in s.queue;
    TickedAccountKeeps(s, c, m);
    var st := s.strategy[pair];
    var sides := Signals(st, Averaged(st, c.shortWindow, c.longWindow, s.queue[0].bid), c.shortWindow);
    forall p | p in n.strategy
      ensures Coherent(n.strategy[p].invested, Pending(n.queue, p), n.dropped[p], Look(m, p))
    {
      PendingAfterTick(s, pair, sides, p);
      var pending := Pending(s.queue, p);
      assert Coherent(s.strategy[p].invested, pending, s.dropped[p], Look(m, p));
      if p == pair && sides != [] {
        EmitKeeps(st.invested, pending, s.dropped[p], Look(m, p));
        assert n.strategy[p].invested == !st.invested;
      } else {
        assert n.strategy[p].invested == s.strategy[p].invested;
        assert pending + [] == pending;
      }
    }
  }

  lemma TickedAccountKeeps(s: System, c: Config, m: LotBook)
    requires Good(c) && Invariant(s, c, m) && s.queue != [] && s.queue[0].TickPut?
    ensures Counts(Advance(s, c, Handle).account, c.lot, m)
  {
    hide Coherent, RollingSma, Ticked, LotUnits;
    assert s.queue[0] in s.queue;
    StepCounts(s.account, c.base, c.lot, Ledgers.Tick(s.queue[0].pair, s.prices), m);
  }

  lemma PendingAfterTick(s: System, pair: string, sides: seq<Side>, p: string)
    requires s.queue != [] && s.queue[0].TickPut? && |sides| <= 1
    ensures Pending(s.queue[1..] + AsEvents(pair, sides), p) == Pending(s.queue, p) + (if p == pair then sides else [])
  {
    PendingConcat(s.queue[1..], AsEvents(pair, sides), p);
    PendingOfEmission(pair, sides, p);
  }

  lemma PendingOfEmission(pair: string, sides: seq<Side>, p: string)
    requires |sides| <= 1
    ensures Pending(AsEvents(pair, sides), p) == if p == pair then sides else []
  {
  }

  lemma SignalKeeps(s: System, c: Config, m: LotBook)
    requires Good(c) && Invariant(s, c, m) && s.queue != [] && s.queue[0].SignalPut?
    ensures Invariant(Advance(s, c, Handle), c, LotsAfter(s, c, m, Handle))
  {
    AccountKeeps(s, c, m);
    forall p | p in s.strategy
      ensures Coherent(s.strategy[p].invested, Pending(Advance(s, c, Handle).queue, p), Advance(s, c, Handle).dropped[p],
                       Look(LotsAfter(s, c, m, Handle), p))
    {
      PairAfterSignal(s, c, m, p);
    }
    SameStrategy(s, c);
    hide Coherent, LotsAfter, Advance, Counts;
  }

  lemma SameStrategy(s: System, c: Config)
    requires Good(c) && WellFormed(s, c) && s.queue != [] && s.queue[0].SignalPut?
    ensures Advance(s, c, Handle).strategy == s.strategy && Advance(s, c, Handle).dropped.Keys == s.strategy.Keys
  {
    hide Executed, Verdict;
  }

  lemma PairAfterSignal(s: System, c: Config, m: LotBook, p: string)
    requires Good(c) && Invariant(s, c, m) && s.queue != [] && s.queue[0].SignalPut? && p in s.strategy
    ensures p in Advance(s, c, Handle).dropped
    ensures Coherent(s.strategy[p].invested, Pending(Advance(s, c, Handle).queue, p), Advance(s, c, Handle).dropped[p],
                     Look(LotsAfter(s, c, m, Handle), p))
  {
    hide Coherent, LotUnits, Executed, Verdict, Counts;
    var pair, side, n := s.queue[0].pair, s.queue[0].side, Advance(s, c, Handle);
    assert s.queue[0] in s.queue;
    AccountKeeps(s, c, m);
    PendingAfterSignal(s, OrderFor(Verdict(s.account, c.base, c.lot, side, pair, s.prices), pair, c.lot, side), p);
    var rest := Pending(n.queue, p);
    assert Coherent(s.strategy[p].invested, Pending(s.queue, p), s.dropped[p], Look(m, p));
    if p == pair {
      TakeKeeps(s.strategy[p].invested, side, rest, s.dropped[p], Look(m, p));
    } else {
      assert [] + rest == rest;
    }
  }

  lemma PendingAfterSignal(s: System, orders: seq<Event>, p: string)
    requires s.queue != [] && s.queue[0].SignalPut?
    requires |orders| <= 1 && forall e <- orders :: e.OrderPut?
    ensures Pending(s.queue, p) == (if p == s.queue[0].pair then [s.queue[0].side] else []) + Pending(s.queue[1..] + orders, p)
  {
    PendingConcat(s.queue[1..], orders, p);
    if orders != [] {
      assert orders[0] in orders && orders[1..] == [];
    }
  }

  lemma AccountKeeps(s: System, c: Config, m: LotBook)
    requires Good(c) && Invariant(s, c, m) && s.queue != [] && s.queue[0].SignalPut?
    ensures var n := Advance(s, c, Handle);
            && Counts(n.account, c.lot, LotsAfter(s, c, m, Handle))
            && (n.dropped == if AllQuoted(s.prices) then s.dropped
                             else s.dropped[s.queue[0].pair := s.dropped[s.queue[0].pair] + 1])
            && (!AllQuoted(s.prices) ==> m == map[])
  {
    hide Coherent, Executed, Verdict, LotUnits;
    var pair, side := s.queue[0].pair, s.queue[0].side;
    assert s.queue[0] in s.queue;
    Unexecuted(s.account, c.base, c.lot, side, pair, s.prices);
    StepCounts(s.account, c.base, c.lot, Ledgers.Signal(side, pair, s.prices), m);
    assert s.account.holdings == map[] ==> m.Keys == {};
  }

  ghost predicate Feasible(s: System, c: Config, inputs: seq<Input>)
    requires Good(c) && WellFormed(s, c)
    decreases inputs
  {
    inputs == [] ||
    (Possible(s, c, inputs[0]) && Feasible(Advance(s, c, inputs[0]), c, inputs[1..]))
  }

  ghost function Play(s: System, c: Config, inputs: seq<Input>): (n: System)
    requires Good(c) && WellFormed(s, c) && Feasible(s, c, inputs)
    ensures WellFormed(n, c)
    decreases inputs
  {
    if inputs == [] then s else Play(Advance(s, c, inputs[0]), c, inputs[1..])
  }

  lemma StepKeeps(s: System, c: Config, m: LotBook, i: Input)
    requires Good(c) && Invariant(s, c, m) && Possible(s, c, i)
    ensures Invariant(Advance(s, c, i), c, LotsAfter(s, c, m, i))
  {
    hide Invariant, Advance;
    if i.Arrive? {
      ArriveKeeps(s, c, m, i);
    } else {
      match s.queue[0]
      case TickPut(_, _) => TickKeeps(s, c, m);
      case SignalPut(_, _) => SignalKeeps(s, c, m);
      case OrderPut(_) => OrderKeeps(s, c, m);
    }
  }

  lemma {:induction false} PlayKeeps(s: System, c: Config, m: LotBook, inputs: seq<Input>) returns (n: LotBook)
    requires Good(c) && Invariant(s, c, m) && Feasible(s, c, inputs)
    ensures Invariant(Play(s, c, inputs), c, n)
    decreases inputs
  {
    if inputs == [] {
      n := m;
    } else {
      StepKeeps(s, c, m, inputs[0]);
      n := PlayKeeps(Advance(s, c, inputs[0]), c, LotsAfter(s, c, m, inputs[0]), inputs[1..]);
    }
  }

  /** Nothing signalled, nothing queued, nothing held. */
  ghost predicate Fresh(s: System, c: Config) {
    && AllListed(s, c) && s.queue == [] && s.account.holdings == map[]
    && s.dropped.Keys == s.strategy.Keys
    && forall p <- s.strategy :: s.strategy[p] == FRESH && s.dropped[p] == 0
  }

  lemma FreshIsInvariant(s: System, c: Config)
    requires Good(c) && Fresh(s, c)
    ensures Invariant(s, c, map[])
  {
  }

  ghost predicate HoldsOneLot(a: Account, c: Config, pair: string, side: PositionType) {
    pair in a.holdings && a.holdings[pair].terms.side == side && a.holdings[pair].book.units == c.lot as real
  }

  /** Whenever no signal of the pair is pending, the portfolio holds the pair exactly when the
      strategy's flag says so if and only if an even number of the pair's signals were dropped;
      it then holds one long lot.  With an odd number it is exactly the other way round, and
      what it holds is one short lot. */
  lemma AgreesIffEvenlyDropped(s: System, c: Config, inputs: seq<Input>, pair: string)
    requires Good(c) && Fresh(s, c) && Feasible(s, c, inputs)
    requires pair in Play(s, c, inputs).strategy && Pending(Play(s, c, inputs).queue, pair) == []
    ensures var n := Play(s, c, inputs);
            var held, invested := pair in n.account.holdings, n.strategy[pair].invested;
            && pair in n.dropped
            && ((held <==> invested) <==> n.dropped[pair] % 2 == 0)
            && (held ==> HoldsOneLot(n.account, c, pair, if n.dropped[pair] % 2 == 0 then Long else Short))
  {
    FreshIsInvariant(s, c);
    var m := PlayKeeps(s, c, map[], inputs);
    var n := Play(s, c, inputs);
    assert Coherent(n.strategy[pair].invested, [], n.dropped[pair], Look(m, pair));
    LotProduct(1, c.lot);
  }

  /** Quotes never disappear, so once every pair is quoted no signal is dropped any more. */
  lemma {:induction false} NothingDroppedOnceQuoted(s: System, c: Config, inputs: seq<Input>)
    requires Good(c) && WellFormed(s, c) && Feasible(s, c, inputs) && AllQuoted(s.prices)
    ensures AllQuoted(Play(s, c, inputs).prices) && Play(s, c, inputs).dropped == s.dropped
    decreases inputs
  {
    if inputs == [] {
    } else {
      var n := Advance(s, c, inputs[0]);
      assert AllQuoted(n.prices) && n.dropped == s.dropped by {
        if inputs[0].Handle? && s.queue[0].SignalPut? {
          assert s.queue[0] in s.queue;
          Unexecuted(s.account, c.base, c.lot, s.queue[0].side, s.queue[0].pair, s.prices);
        }
      }
      NothingDroppedOnceQuoted(n, c, inputs[1..]);
    }
  }

  /** Whenever a signal is handled, every pair is quoted. */
  ghost predicate QuotedBeforeSignals(s: System, c: Config, inputs: seq<Input>)
    requires Good(c) && WellFormed(s, c) && Feasible(s, c, inputs)
    decreases inputs
  {
    inputs != [] ==>
      && (inputs[0].Handle? && s.queue[0].SignalPut? ==> AllQuoted(s.prices))
      && QuotedBeforeSignals(Advance(s, c, inputs[0]), c, inputs[1..])
  }

  /** A step drops a signal exactly if it handles one while a quote is missing. */
  lemma StepDrops(s: System, c: Config, i: Input)
    requires Good(c) && WellFormed(s, c) && Possible(s, c, i)
    ensures var n := Advance(s, c, i);
            && (forall p <- s.dropped :: p in n.dropped && s.dropped[p] <= n.dropped[p])
            && (n.dropped == s.dropped <==> (i.Handle? && s.queue[0].SignalPut? ==> AllQuoted(s.prices)))
  {
    hide Executed, Ticked, Averaged, Signals, Next, AllListed, WellFiled;
    if i.Handle? && s.queue[0].SignalPut? {
      var e := s.queue[0];
      assert e in s.queue;
      assert Listed(e.pair, c.base, s.prices) by { ListedPair(s, c, e.pair); }
      Dropping(s, c);
    }
  }

  lemma ListedPair(s: System, c: Config, p: string)
    requires AllListed(s, c) && p in s.strategy
    ensures Listed(p, c.base, s.prices)
  {
  }

  lemma Dropping(s: System, c: Config)
    requires Good(c) && WellFormed(s, c) && s.queue != [] && s.queue[0].SignalPut?
    ensures var pair, n := s.queue[0].pair, Advance(s, c, Handle);
            pair in s.dropped
            && n.dropped == if AllQuoted(s.prices) then s.dropped else s.dropped[pair := s.dropped[pair] + 1]
  {
    hide Executed, AllQuoted;
    assert s.queue[0] in s.queue;
    Unexecuted(s.account, c.base, c.lot, s.queue[0].side, s.queue[0].pair, s.prices);
    hide Verdict;
  }

  /** Nothing is ever dropped if and only if every quote is there whenever a signal is handled. */
  lemma {:induction false} NothingDroppedIff(s: System, c: Config, inputs: seq<Input>)
    requires Good(c) && WellFormed(s, c) && Feasible(s, c, inputs)
    ensures forall p <- s.dropped :: p in Play(s, c, inputs).dropped && s.dropped[p] <= Play(s, c, inputs).dropped[p]
    ensures Play(s, c, inputs).dropped.Keys == s.dropped.Keys
    ensures Play(s, c, inputs).dropped == s.dropped <==> QuotedBeforeSignals(s, c, inputs)
    decreases inputs
  {
    if inputs != [] {
      StepDrops(s, c, inputs[0]);
      var n := Advance(s, c, inputs[0]);
      KeysStay(s, c, inputs[0]);
      NothingDroppedIff(n, c, inputs[1..]);
      hide Advance, WellFormed, Possible;
      if n.dropped != s.dropped {
        var p :| p in s.dropped && n.dropped[p] != s.dropped[p];
      }
    }
  }

  lemma KeysStay(s: System, c: Config, i: Input)
    requires Good(c) && WellFormed(s, c) && Possible(s, c, i)
    ensures Advance(s, c, i).dropped.Keys == s.dropped.Keys && Advance(s, c, i).strategy.Keys == s.strategy.Keys
  {
    hide Executed, Ticked, Averaged, Signals, Next, AllListed, WellFiled, Verdict;
    if i.Handle? {
      assert s.queue[0] in s.queue;
    }
  }

  /** It is enough that all quotes are there before the first signal is handled. */
  lemma {:induction false} QuotedInTime(s: System, c: Config, first: seq<Input>, rest: seq<Input>)
    requires Good(c) && WellFormed(s, c) && Feasible(s, c, first + rest)
    requires Feasible(s, c, first) && NoSignalHandled(s, c, first) && AllQuoted(Play(s, c, first).prices)
    ensures QuotedBeforeSignals(s, c, first + rest)
    decreases first
  {
    if first == [] {
      assert first + rest == rest;
      NothingDroppedOnceQuoted(s, c, rest);
      NothingDroppedIff(s, c, rest);
    } else {
      assert (first + rest)[0] == first[0] && (first + rest)[1..] == first[1..] + rest;
      QuotedInTime(Advance(s, c, first[0]), c, first[1..], rest);
    }
  }

  ghost predicate NoSignalHandled(s: System, c: Config, inputs: seq<Input>)
    requires Good(c) && WellFormed(s, c) && Feasible(s, c, inputs)
    decreases inputs
  {
    inputs != [] ==>
      && (inputs[0].Handle? ==> !s.queue[0].SignalPut?)
      && NoSignalHandled(Advance(s, c, inputs[0]), c, inputs[1..])
  }

  lemma FreshDropsNothing(s: System, c: Config, inputs: seq<Input>)
    requires Good(c) && Fresh(s, c) && Feasible(s, c, inputs) && QuotedBeforeSignals(s, c, inputs)
    ensures Play(s, c, inputs).dropped == s.dropped && forall p <- s.dropped :: s.dropped[p] == 0
  {
    FreshIsInvariant(s, c);
    NothingDroppedIff(s, c, inputs);
  }

  /** If every quote is there whenever a signal is handled, each signal opens a long position if
      it is a buy and closes it if it is a sell: none is ignored and no short is ever opened. */
  lemma EverySignalTrades(s: System, c: Config, inputs: seq<Input>)
    requires Good(c) && Fresh(s, c) && Feasible(s, c, inputs) && QuotedBeforeSignals(s, c, inputs)
    ensures var n := Play(s, c, inputs);
            n.queue != [] && n.queue[0].SignalPut? && AllQuoted(n.prices) ==>
              Verdict(n.account, c.base, c.lot, n.queue[0].side, n.queue[0].pair, n.prices)
              == if n.queue[0].side == Buy then DidOpen else DidClose
    ensures OnlyLong(Play(s, c, inputs).account)
  {
    hide Invariant, Verdict, OnlyLong;
    FreshIsInvariant(s, c);
    var m := PlayKeeps(s, c, map[], inputs);
    FreshDropsNothing(s, c, inputs);
    var n := Play(s, c, inputs);
    AllLong(n, c, m);
    if n.queue != [] && n.queue[0].SignalPut? && AllQuoted(n.prices) {
      TradesNow(n, c, m);
    }
  }

  /** And then, whenever no signal of a pair is pending, it is held exactly when the strategy's
      flag is set, as one long lot. */
  lemma HeldIffInvested(s: System, c: Config, inputs: seq<Input>, pair: string)
    requires Good(c) && Fresh(s, c) && Feasible(s, c, inputs) && QuotedBeforeSignals(s, c, inputs)
    requires pair in Play(s, c, inputs).strategy && Pending(Play(s, c, inputs).queue, pair) == []
    ensures var n := Play(s, c, inputs);
            && (pair in n.account.holdings <==> n.strategy[pair].invested)
            && (pair in n.account.holdings ==> HoldsOneLot(n.account, c, pair, Long))
  {
    hide Invariant, Pending, HoldsOneLot;
    FreshDropsNothing(s, c, inputs);
    AgreesIffEvenlyDropped(s, c, inputs, pair);
  }

  ghost predicate OnlyLong(a: Account) {
    forall p <- a.holdings :: a.holdings[p].terms.side == Long
  }

  lemma AllLong(n: System, c: Config, m: LotBook)
    requires Good(c) && Invariant(n, c, m) && forall p <- n.dropped :: n.dropped[p] == 0
    ensures OnlyLong(n.account)
  {
    hide LotUnits;
    forall p | p in n.account.holdings
      ensures n.account.holdings[p].terms.side == Long
    {
      assert Coherent(n.strategy[p].invested, Pending(n.queue, p), n.dropped[p], Look(m, p));
    }
  }

  lemma TradesNow(n: System, c: Config, m: LotBook)
    requires Good(c) && Invariant(n, c, m) && AllQuoted(n.prices) && forall p <- n.dropped :: n.dropped[p] == 0
    requires n.queue != [] && n.queue[0].SignalPut?
    ensures Verdict(n.account, c.base, c.lot, n.queue[0].side, n.queue[0].pair, n.prices)
         == if n.queue[0].side == Buy then DidOpen else DidClose
  {
    hide LotUnits;
    assert n.queue[0] in n.queue;
    var pair := n.queue[0].pair;
    assert Coherent(n.strategy[pair].invested, Pending(n.queue, pair), n.dropped[pair], Look(m, pair));
    LotProduct(1, c.lot);
  }

  // ----- a dropped signal

  const EUR := "EURUSD"
  const GBP := "GBPUSD"

  function QuotedAt(price: real): Quote {
    Quote(Some(price), Some(price))
  }

  /** Two pairs quoted in dollars, nothing quoted yet. */
  function TwoPairs(): System {
    System(map[EUR := FRESH, GBP := FRESH], [], map[EUR := Quote(None, None), GBP := Quote(None, None)],
           Account(0.0, map[]), map[EUR := 0, GBP := 0])
  }

  function EurTick(price: real): Input {
    Arrive(EUR, price, map[EUR := QuotedAt(price)])
  }

  lemma {:induction false} PlayConcat(s: System, c: Config, a: seq<Input>, b: seq<Input>)
    requires Good(c) && WellFormed(s, c) && Feasible(s, c, a) && Feasible(Play(s, c, a), c, b)
    ensures Feasible(s, c, a + b) && Play(s, c, a + b) == Play(Play(s, c, a), c, b)
    decreases a
  {
    if a == [] {
      assert a + b == b;
    } else {
      assert (a + b)[0] == a[0] && (a + b)[1..] == a[1..] + b;
      PlayConcat(Advance(s, c, a[0]), c, a[1..], b);
    }
  }

  /** A tick of the euro, arriving at an empty queue and handled. */
  lemma EurTicks(s: System, c: Config, price: real)
    requires Good(c) && WellFormed(s, c) && s.queue == [] && EUR in s.strategy
    ensures Feasible(s, c, [EurTick(price), Handle])
    ensures var n := Play(s, c, [EurTick(price), Handle]);
            var st := s.strategy[EUR];
            && n.strategy == s.strategy[EUR := Next(st, c.shortWindow, c.longWindow, price)]
            && n.queue == AsEvents(EUR, Signals(st, Averaged(st, c.shortWindow, c.longWindow, price), c.shortWindow))
            && n.prices == s.prices + map[EUR := QuotedAt(price)] && n.dropped == s.dropped
  {
    hide Ticked, Averaged, Next, Signals, WellFiled;
    var n := Advance(s, c, EurTick(price));
    assert n.queue == [TickPut(EUR, price)];
    assert [EurTick(price), Handle][1..] == [Handle] && [Handle][1..] == [];
  }

  lemma GbpTick(s: System, c: Config, price: real)
    requires Good(c) && WellFormed(s, c) && s.queue == [] && GBP in s.strategy
    ensures Feasible(s, c, [GbpTicks(price), Handle])
    ensures var n := Play(s, c, [GbpTicks(price), Handle]);
            && n.strategy.Keys == s.strategy.Keys && (EUR in s.strategy ==> n.strategy[EUR] == s.strategy[EUR])
            && (GBP in s.strategy && s.strategy[GBP] == FRESH && c.shortWindow > 0 ==> n.queue == [])
            && n.prices == s.prices + map[GBP := QuotedAt(price)] && n.dropped == s.dropped
  {
    hide Ticked, Averaged, WellFiled;
    var n := Advance(s, c, GbpTicks(price));
    assert n.queue == [TickPut(GBP, price)];
    assert [GbpTicks(price), Handle][1..] == [Handle] && [Handle][1..] == [];
  }

  function GbpTicks(price: real): Input {
    Arrive(GBP, price, map[GBP := QuotedAt(price)])
  }

  /** A signal at the head of the queue, handled. */
  lemma SignalHandled(s: System, c: Config, side: Side)
    requires Good(c) && WellFormed(s, c) && s.queue == [SignalPut(EUR, side)] && EUR in s.strategy
    ensures Feasible(s, c, [Handle])
    ensures var n := Play(s, c, [Handle]);
            && n.strategy == s.strategy && n.prices == s.prices && Pending(n.queue, EUR) == []
            && (!AllQuoted(s.prices) ==> n.queue == [] && EUR in s.dropped && n.dropped == s.dropped[EUR := s.dropped[EUR] + 1])
            && (AllQuoted(s.prices) ==> n.dropped == s.dropped)
  {
    Dropping(s, c);
    assert [Handle][1..] == [];
    ListedPair(s, c, EUR);
    Unexecuted(s.account, c.base, c.lot, side, EUR, s.prices);
    hide Executed, Verdict, WellFiled, AllQuoted, Listed;
  }

  /** The euro's averages over windows of 1 and 2 after ticks at 1, 1, 2 and 1. */
  lemma EurAverages()
    ensures var s1 := Next(FRESH, 1, 2, 1.0);
            var s2 := Next(s1, 1, 2, 1.0);
            var s3 := Next(s2, 1, 2, 2.0);
            var s4 := Next(s3, 1, 2, 1.0);
            && Signals(FRESH, Averaged(FRESH, 1, 2, 1.0), 1) == [] && Signals(s1, Averaged(s1, 1, 2, 1.0), 1) == []
            && Signals(s2, Averaged(s2, 1, 2, 2.0), 1) == [Buy] && Signals(s3, Averaged(s3, 1, 2, 1.0), 1) == [Sell]
            && s3.invested && !s4.invested
  {
  }

  function EurTicking(price: real): seq<Input> {
    [EurTick(price), Handle]
  }

  /** The system after a run, as far as the euro is concerned. */
  ghost predicate Euro(s: System, c: Config, st: PairState, queue: seq<Event>, drops: nat) {
    && WellFormed(s, c) && EUR in s.strategy && s.strategy[EUR] == st && s.queue == queue
    && s.dropped == map[EUR := drops, GBP := 0]
  }

  ghost predicate PoundUnseen(s: System) {
    GBP in s.strategy && s.strategy[GBP] == FRESH && GBP in s.prices && !Quoted(s.prices, GBP) && s.prices.Keys == {EUR, GBP}
  }

  lemma EurTicksOn(s: System, c: Config, st: PairState, price: real, drops: nat)
    requires Good(c) && Euro(s, c, st, [], drops)
    ensures Feasible(s, c, EurTicking(price))
    ensures var n := Play(s, c, EurTicking(price));
            && Euro(n, c, Next(st, c.shortWindow, c.longWindow, price),
                    AsEvents(EUR, Signals(st, Averaged(st, c.shortWindow, c.longWindow, price), c.shortWindow)), drops)
            && (PoundUnseen(s) ==> PoundUnseen(n))
            && (AllQuoted(s.prices) ==> AllQuoted(n.prices))
  {
    hide Next, Averaged, Signals, WellFormed, Advance;
    EurTicks(s, c, price);
  }

  /** The euro ticks until it is to be bought, before the pound has ever been quoted. */
  lemma DropABuy(s0: System, c: Config) returns (inputs: seq<Input>, st: PairState)
    requires Good(c) && c.shortWindow == 1 && c.longWindow == 2
    requires Euro(s0, c, FRESH, [], 0) && PoundUnseen(s0)
    ensures Feasible(s0, c, inputs)
    ensures Euro(Play(s0, c, inputs), c, st, [], 1) && PoundUnseen(Play(s0, c, inputs))
    ensures st.invested && Signals(st, Averaged(st, 1, 2, 1.0), 1) == [Sell] && !Next(st, 1, 2, 1.0).invested
  {
    EurAverages();
    var t1 := Next(FRESH, 1, 2, 1.0);
    var t2 := Next(t1, 1, 2, 1.0);
    st := Next(t2, 1, 2, 2.0);
    hide Next, Averaged, Signals, WellFormed, Advance, Play, Feasible, Euro, PoundUnseen, FRESH, EurTicking;
    EurTicksOn(s0, c, FRESH, 1.0, 0);
    var s1 := Play(s0, c, EurTicking(1.0));
    EurTicksOn(s1, c, t1, 1.0, 0);
    var s2 := Play(s1, c, EurTicking(1.0));
    EurTicksOn(s2, c, t2, 2.0, 0);
    var s3 := Play(s2, c, EurTicking(2.0));
    BuyIsDropped(s3, c, st);
    PlayConcat(s0, c, EurTicking(1.0), EurTicking(1.0));
    PlayConcat(s0, c, EurTicking(1.0) + EurTicking(1.0), EurTicking(2.0));
    PlayConcat(s0, c, EurTicking(1.0) + EurTicking(1.0) + EurTicking(2.0), [Handle]);
    inputs := EurTicking(1.0) + EurTicking(1.0) + EurTicking(2.0) + [Handle];
  }

  lemma BuyIsDropped(s: System, c: Config, st: PairState)
    requires Good(c) && Euro(s, c, st, AsEvents(EUR, [Buy]), 0) && PoundUnseen(s)
    ensures Feasible(s, c, [Handle]) && Euro(Play(s, c, [Handle]), c, st, [], 1) && PoundUnseen(Play(s, c, [Handle]))
  {
    hide WellFormed, Advance;
    assert AsEvents(EUR, [Buy]) == [SignalPut(EUR, Buy)];
    SignalHandled(s, c, Buy);
  }

  /** The pound is quoted, and the euro falls. */
  lemma ThenSell(s: System, c: Config, st: PairState) returns (inputs: seq<Input>)
    requires Good(c) && c.shortWindow == 1 && c.longWindow == 2
    requires Euro(s, c, st, [], 1) && PoundUnseen(s)
    requires Signals(st, Averaged(st, 1, 2, 1.0), 1) == [Sell]
    ensures Feasible(s, c, inputs)
    ensures var n := Play(s, c, inputs);
            && EUR in n.strategy && n.strategy[EUR] == Next(st, 1, 2, 1.0) && Pending(n.queue, EUR) == []
            && EUR in n.dropped && n.dropped[EUR] == 1
  {
    hide Next, Averaged, Signals, WellFormed, Advance, FRESH;
    GbpTick(s, c, 1.0);
    var pound := [GbpTicks(1.0), Handle];
    var s1 := Play(s, c, pound);
    assert Euro(s1, c, st, [], 1);
    EurTicksOn(s1, c, st, 1.0, 1);
    EurTicks(s1, c, 1.0);
    var s2 := Play(s1, c, EurTicking(1.0));
    assert AllQuoted(s2.prices);
    assert s2.queue == AsEvents(EUR, [Sell]) == [SignalPut(EUR, Sell)];
    hide Play, Feasible, AllQuoted;
    SignalHandled(s2, c, Sell);
    PlayConcat(s, c, pound, EurTicking(1.0));
    PlayConcat(s, c, pound + EurTicking(1.0), [Handle]);
    inputs := pound + EurTicking(1.0) + [Handle];
  }

  /** One long-only strategy, one dropped signal, and the flag is down: one short lot. */
  lemma OddDropIsShort(s: System, c: Config, inputs: seq<Input>, pair: string)
    requires Good(c) && Fresh(s, c) && Feasible(s, c, inputs)
    requires var n := Play(s, c, inputs);
             && pair in n.strategy && Pending(n.queue, pair) == [] && !n.strategy[pair].invested
             && pair in n.dropped && n.dropped[pair] % 2 == 1
    ensures HoldsOneLot(Play(s, c, inputs).account, c, pair, Short)
  {
    hide HoldsOneLot, Pending, Play, Feasible;
    AgreesIffEvenlyDropped(s, c, inputs, pair);
  }

  lemma TwoPairsAreFresh(c: Config)
    requires Good(c) && c.base == "USD"
    ensures Fresh(TwoPairs(), c) && Euro(TwoPairs(), c, FRESH, [], 0) && PoundUnseen(TwoPairs())
  {
    FreshIsInvariant(TwoPairs(), c);
  }

  /** A run from a fresh start in which one signal is dropped: the euro is to be bought before
      the pound has ever been quoted; then the pound is quoted and the euro falls.  The strategy
      is out of the market, and the portfolio is short. */
  lemma OneDropTurnsShort(lot: int) returns (s: System, inputs: seq<Input>)
    requires lot != 0
    ensures var c := Config("USD", lot, 1, 2);
            && Good(c) && Fresh(s, c) && Feasible(s, c, inputs)
            && var n := Play(s, c, inputs);
               && EUR in n.dropped && n.dropped[EUR] == 1 && Pending(n.queue, EUR) == []
               && EUR in n.strategy && !n.strategy[EUR].invested
               && HoldsOneLot(n.account, c, EUR, Short)
  {
    var c := Config("USD", lot, 1, 2);
    s := TwoPairs();
    TwoPairsAreFresh(c);
    FreshIsInvariant(s, c);
    hide EUR, GBP, TwoPairs, Fresh, Play, Feasible, HoldsOneLot, Signals, Next, Averaged, Pending, PoundUnseen, AllListed, WellFiled, Counts, Coherent;
    var first, st := DropABuy(s, c);
    var s1 := Play(s, c, first);
    var rest := ThenSell(s1, c, st);
    PlayConcat(s, c, first, rest);
    inputs := first + rest;
    OddDropIsShort(s, c, inputs, EUR);
  }
}
