/** event/runner.py: dispatch of an event to its handlers and its bounded return to the queue;
    and why the queue drains when nothing else feeds it. */
module Runners {

  datatype EventType =
    | Heartbeat | TickPrice | StartUp | OrderHolding | TimeFrame | Signal | TradeOpen | OrderClose | Market | Debug

  /** `id` tells events apart; it is not part of the program's state. */
  datatype Event = Event(kind: EventType, tried: nat, id: nat)

  /** A handler, by the most events it puts for one event.  `everything` is the subscription '*'. */
  datatype Handler = Handler(fan: nat, subscription: set<EventType>, everything: bool)

  /** What one call of a handler does: its result, and the events it puts.  An exception gives
      no result. */
  datatype Reply = Reply(again: bool, puts: seq<EventType>)

  /** What a handler puts for an event is of lower rank, and no more than its fan; module
      Cascades derives this from what the program's handlers do. */
  ghost predicate MayPut(fan: nat, kind: EventType, puts: seq<EventType>) {
    |puts| <= fan && forall p <- puts :: Rank(p) < Rank(kind)
  }

  predicate Subscribed(h: Handler, kind: EventType) {
    h.everything || kind in h.subscription
  }

  /** The replies of the handlers, by the kind of the event, the number of events dispatched
      before it and the handler's place. */
  type Oracle = (EventType, nat, nat) -> Reply

  ghost predicate Behaves(handlers: seq<Handler>, oracle: Oracle, e: Event, round: nat) {
    forall i | 0 <= i < |handlers| && (handlers[i].everything || e.kind in handlers[i].subscription) ::
      MayPut(handlers[i].fan, e.kind, oracle(e.kind, round, i).puts)
  }

  // ----- the meaning of one dispatch

  /** Whether any subscribed handler from the i-th on asks for the event to be put back. */
  function Wanted(handlers: seq<Handler>, oracle: Oracle, kind: EventType, round: nat, i: nat): bool
    requires i <= |handlers|
    decreases |handlers| - i
  {
    i < |handlers| &&
    ((Subscribed(handlers[i], kind) && oracle(kind, round, i).again) || Wanted(handlers, oracle, kind, round, i + 1))
  }

  lemma {:induction false} WantedIff(handlers: seq<Handler>, oracle: Oracle, kind: EventType, round: nat, i: nat)
    requires i <= |handlers|
    ensures Wanted(handlers, oracle, kind, round, i) <==>
            exists j :: i <= j < |handlers| && (handlers[j].everything || kind in handlers[j].subscription)
                        && oracle(kind, round, j).again
    decreases |handlers| - i
  {
    if i < |handlers| {
      WantedIff(handlers, oracle, kind, round, i + 1);
    }
  }

  /** What the subscribed handlers from the i-th on put, in order of registration. */
  function Put(handlers: seq<Handler>, oracle: Oracle, kind: EventType, round: nat, i: nat): seq<EventType>
    requires i <= |handlers|
    decreases |handlers| - i
  {
    if i == |handlers| then []
    else (if Subscribed(handlers[i], kind) then oracle(kind, round, i).puts else []) + Put(handlers, oracle, kind, round, i + 1)
  }

  /** How many events are put by the handlers from the i-th up to before the j-th: those that
      subscribe to everything or to the kind. */
  function PutsBetween(handlers: seq<Handler>, oracle: Oracle, kind: EventType, round: nat, i: nat, j: nat): nat
    requires i <= j <= |handlers|
    decreases j - i
  {
    if i == j then 0
    else (if handlers[i].everything || kind in handlers[i].subscription then |oracle(kind, round, i).puts| else 0)
         + PutsBetween(handlers, oracle, kind, round, i + 1, j)
  }

  /** Every handler that subscribes to everything or to the kind is called: what it puts stands
      right behind what the handlers registered before it put. */
  lemma {:induction false} EachStandsInTurn(handlers: seq<Handler>, oracle: Oracle, kind: EventType, round: nat, i: nat, j: nat)
    requires i <= j < |handlers| && (handlers[j].everything || kind in handlers[j].subscription)
    ensures HasAt(Put(handlers, oracle, kind, round, i), PutsBetween(handlers, oracle, kind, round, i, j), oracle(kind, round, j).puts)
    decreases j - i
  {
    hide HasAt;
    if i < j {
      EachStandsInTurn(handlers, oracle, kind, round, i + 1, j);
      HasFurtherOn(if Subscribed(handlers[i], kind) then oracle(kind, round, i).puts else [], Put(handlers, oracle, kind, round, i + 1),
                   PutsBetween(handlers, oracle, kind, round, i + 1, j), oracle(kind, round, j).puts);
    } else {
      HasFirst(oracle(kind, round, j).puts, Put(handlers, oracle, kind, round, i + 1));
    }
  }

  ghost predicate HasAt(all: seq<EventType>, at: nat, part: seq<EventType>) {
    at + |part| <= |all| && all[at..at + |part|] == part
  }

  lemma HasFurtherOn(first: seq<EventType>, rest: seq<EventType>, at: nat, part: seq<EventType>)
    requires HasAt(rest, at, part)
    ensures HasAt(first + rest, |first| + at, part)
  {
    assert (first + rest)[|first| + at..|first| + at + |part|] == rest[at..at + |part|];
  }

  lemma HasFirst(part: seq<EventType>, rest: seq<EventType>)
    ensures HasAt(part + rest, 0, part)
  {
  }

  /** And nothing else is put. */
  lemma {:induction false} PutsAreCounted(handlers: seq<Handler>, oracle: Oracle, kind: EventType, round: nat, i: nat)
    requires i <= |handlers|
    ensures |Put(handlers, oracle, kind, round, i)| == PutsBetween(handlers, oracle, kind, round, i, |handlers|)
    decreases |handlers| - i
  {
    if i < |handlers| {
      PutsAreCounted(handlers, oracle, kind, round, i + 1);
    }
  }

  /** New events, numbered on from `next`. */
  function Numbered(kinds: seq<EventType>, next: nat): seq<Event> {
    seq(|kinds|, i requires 0 <= i < |kinds| => Event(kinds[i], 0, next + i))
  }

  /** The event put back, if it is. */
  function Again(e: Event, wanted: bool): seq<Event> {
    if wanted && e.tried <= 10 then [e.(tried := e.tried + 1)] else []
  }

  // ----- the measure

  /** Events can only lead to events of a lower rank. */
  function Rank(kind: EventType): nat {
    match kind
    case Heartbeat | TickPrice => 3
    case StartUp | OrderHolding | TimeFrame => 2
    case Signal => 1
    case _ => 0
  }

  /** The most events one dispatch can put. */
  function Fan(handlers: seq<Handler>): nat {
    if handlers == [] then 0 else handlers[0].fan + Fan(handlers[1..])
  }

  /** The dispatches one dispatch of an event of the rank can cost in all: itself, and twelve of
      each event it puts. */
  function Cost(rank: nat, fan: nat): nat {
    if rank == 0 then 1 else 1 + fan * (12 * Cost(rank - 1, fan))
  }

  function Weight(e: Event, fan: nat): nat {
    if e.tried > 11 then 0 else (12 - e.tried) * Cost(Rank(e.kind), fan)
  }

  function Measure(queue: seq<Event>, fan: nat): nat {
    if queue == [] then 0 else Weight(queue[0], fan) + Measure(queue[1..], fan)
  }

  lemma {:induction false} MeasureConcat(a: seq<Event>, b: seq<Event>, fan: nat)
    ensures Measure(a + b, fan) == Measure(a, fan) + Measure(b, fan)
  {
    if a == [] {
      assert a + b == b;
    } else {
      assert (a + b)[0] == a[0] && (a + b)[1..] == a[1..] + b;
      MeasureConcat(a[1..], b, fan);
    }
  }

  lemma {:induction false} CostGrows(r: nat, s: nat, fan: nat)
    requires r <= s
    ensures 1 <= Cost(r, fan) <= Cost(s, fan)
  {
    if s > 0 {
      if r == s {
        CostGrows(r - 1, r - 1, fan);
      } else {
        CostGrows(r, s - 1, fan);
        CostAtLeastBelow(s, fan);
      }
    }
  }

  lemma {:induction false} CostAtLeastBelow(s: nat, fan: nat)
    requires s > 0
    ensures Cost(s - 1, fan) <= Cost(s, fan)
  {
    if s > 1 {
      CostAtLeastBelow(s - 1, fan);
      Scale(fan, Cost(s - 2, fan), Cost(s - 1, fan));
    }
  }

  lemma Scale(n: nat, x: nat, y: nat)
    requires x <= y
    ensures n * (12 * x) <= n * (12 * y)
  {
    assert n * (12 * y) - n * (12 * x) == n * (12 * (y - x));
  }

  /** What the handlers put for an event is of lower rank, and no more than their fan. */
  lemma {:induction false} PutsAreFewAndLower(handlers: seq<Handler>, oracle: Oracle, e: Event, round: nat, i: nat)
    requires i <= |handlers| && Behaves(handlers, oracle, e, round)
    ensures forall p <- Put(handlers, oracle, e.kind, round, i) :: Rank(p) < Rank(e.kind)
    ensures |Put(handlers, oracle, e.kind, round, i)| <= Fan(handlers[i..])
    decreases |handlers| - i
  {
    if i < |handlers| {
      PutsAreFewAndLower(handlers, oracle, e, round, i + 1);
      assert handlers[i..][1..] == handlers[i + 1..];
    }
  }

  lemma {:induction false} MeasureOfPuts(kinds: seq<EventType>, next: nat, rank: nat, fan: nat)
    requires forall p <- kinds :: Rank(p) < rank
    ensures Measure(Numbered(kinds, next), fan) <= |kinds| * (12 * (if rank == 0 then 0 else Cost(rank - 1, fan)))
  {
    if kinds != [] {
      assert kinds[0] in kinds;
      assert Numbered(kinds, next)[1..] == Numbered(kinds[1..], next + 1);
      MeasureOfPuts(kinds[1..], next + 1, rank, fan);
      CostGrows(Rank(kinds[0]), rank - 1, fan);
      OneMoreOf(|kinds| - 1, 12 * Cost(rank - 1, fan));
    }
  }

  lemma OneMoreOf(n: nat, x: nat)
    ensures (n + 1) * x == n * x + x
  {
  }

  /** One dispatch strictly decreases the measure of the queue, whatever the handlers reply. */
  lemma DispatchDecreases(handlers: seq<Handler>, oracle: Oracle, e: Event, rest: seq<Event>, round: nat, next: nat)
    requires Behaves(handlers, oracle, e, round) && e.tried <= 11
    ensures var fan := Fan(handlers);
            var puts := Numbered(Put(handlers, oracle, e.kind, round, 0), next);
            Measure(rest + puts + Again(e, Wanted(handlers, oracle, e.kind, round, 0)), fan) < Measure([e] + rest, fan)
  {
    var fan, rank := Fan(handlers), Rank(e.kind);
    var kinds := Put(handlers, oracle, e.kind, round, 0);
    var puts, again := Numbered(kinds, next), Again(e, Wanted(handlers, oracle, e.kind, round, 0));
    assert handlers[0..] == handlers;
    PutsAreFewAndLower(handlers, oracle, e, round, 0);
    MeasureOfPuts(kinds, next, rank, fan);
    assert ([e] + rest)[1..] == rest;
    MeasureConcat(rest + puts, again, fan);
    MeasureConcat(rest, puts, fan);
    PutsCostLess(kinds, rank, fan);
    AgainCostsOneLess(e, again, fan);
  }

  lemma PutsCostLess(kinds: seq<EventType>, rank: nat, fan: nat)
    requires |kinds| <= fan && (rank == 0 ==> kinds == []) && forall p <- kinds :: Rank(p) < rank
    ensures |kinds| * (12 * (if rank == 0 then 0 else Cost(rank - 1, fan))) < Cost(rank, fan)
  {
    if rank > 0 {
      var x := 12 * Cost(rank - 1, fan);
      assert (fan - |kinds|) * x >= 0;
    }
  }

  lemma AgainCostsOneLess(e: Event, again: seq<Event>, fan: nat)
    requires e.tried <= 11 && (again == [] || again == Again(e, true))
    ensures Measure(again, fan) + Cost(Rank(e.kind), fan) <= Weight(e, fan)
  {
    var c := Cost(Rank(e.kind), fan);
    assert (12 - e.tried) * c == (11 - e.tried) * c + c;
    if again != [] {
      assert again[1..] == [];
    }
  }

  // ----- the runner

  /** New events of these kinds stand in the queue from that place on. */
  ghost predicate StandsAt(queue: seq<Event>, at: nat, kinds: seq<EventType>) {
    at + |kinds| <= |queue| && forall i | 0 <= i < |kinds| :: queue[at + i].kind == kinds[i] && queue[at + i].tried == 0
  }

  lemma EachStands(handlers: seq<Handler>, oracle: Oracle, e: Event, queue: seq<Event>, round: nat, next: nat)
    ensures var after := queue + Numbered(Put(handlers, oracle, e.kind, round, 0), next) + Again(e, Wanted(handlers, oracle, e.kind, round, 0));
            forall j | 0 <= j < |handlers| && (handlers[j].everything || e.kind in handlers[j].subscription) ::
              StandsAt(after, |queue| + PutsBetween(handlers, oracle, e.kind, round, 0, j), oracle(e.kind, round, j).puts)
  {
    forall j | 0 <= j < |handlers| && (handlers[j].everything || e.kind in handlers[j].subscription)
      ensures StandsAt(queue + Numbered(Put(handlers, oracle, e.kind, round, 0), next) + Again(e, Wanted(handlers, oracle, e.kind, round, 0)),
                       |queue| + PutsBetween(handlers, oracle, e.kind, round, 0, j), oracle(e.kind, round, j).puts)
    {
      EachStandsInTurn(handlers, oracle, e.kind, round, 0, j);
      hide Put, PutsBetween, Wanted, Again, HasAt;
      SliceStands(queue, Put(handlers, oracle, e.kind, round, 0), Again(e, Wanted(handlers, oracle, e.kind, round, 0)), next,
                  PutsBetween(handlers, oracle, e.kind, round, 0, j), oracle(e.kind, round, j).puts);
    }
  }

  lemma SliceStands(queue: seq<Event>, all: seq<EventType>, again: seq<Event>, next: nat, at: nat, kinds: seq<EventType>)
    requires HasAt(all, at, kinds)
    ensures StandsAt(queue + Numbered(all, next) + again, |queue| + at, kinds)
  {
    forall i | 0 <= i < |kinds| ensures (queue + Numbered(all, next) + again)[|queue| + at + i] == Event(kinds[i], 0, next + at + i) {
      assert kinds[i] == all[at + i];
    }
  }

  /** Each event has its own number, has been dispatched as often as it says, and at most
      eleven times so far; no event was ever dispatched more than twelve times. */
  ghost predicate Ledger(queue: seq<Event>, times: map<nat, nat>, next: nat) {
    && (forall i, j | 0 <= i < j < |queue| :: queue[i].id != queue[j].id)
    && (forall e <- queue :: e.id < next && e.tried <= 11 && Times(times, e.id) == e.tried)
    && (forall id <- times :: id < next && times[id] <= 12)
  }

  function Times(times: map<nat, nat>, id: nat): nat {
    if id in times then times[id] else 0
  }

  lemma DispatchKeepsLedger(e: Event, rest: seq<Event>, kinds: seq<EventType>, wanted: bool, times: map<nat, nat>, next: nat)
    requires Ledger([e] + rest, times, next)
    ensures Ledger(rest + Numbered(kinds, next) + Again(e, wanted), times[e.id := e.tried + 1], next + |kinds|)
  {
    var after := times[e.id := e.tried + 1];
    RestKeepsLedger(e, rest, times, next);
    PutsKeepLedger(rest, kinds, after, next);
    var queue, again := rest + Numbered(kinds, next), Again(e, wanted);
    forall i | 0 <= i < |queue| ensures queue[i].id != e.id {
      assert i < |rest| ==> queue[i] == rest[i];
    }
    if again == [] {
      assert queue + again == queue;
    }
  }

  /** The ledger without the event just taken, and with its dispatch counted. */
  lemma RestKeepsLedger(e: Event, rest: seq<Event>, times: map<nat, nat>, next: nat)
    requires Ledger([e] + rest, times, next)
    ensures Ledger(rest, times[e.id := e.tried + 1], next)
    ensures e.id < next && e.tried <= 11 && forall i | 0 <= i < |rest| :: rest[i].id != e.id
  {
    var all := [e] + rest;
    assert all[0] == e && e in all;
    forall i | 0 <= i < |rest| ensures rest[i] in all && rest[i].id != e.id {
      assert all[i + 1] == rest[i];
    }
    forall i, j | 0 <= i < j < |rest| ensures rest[i].id != rest[j].id {
      assert all[i + 1] == rest[i] && all[j + 1] == rest[j];
    }
  }

  lemma {:induction false} PutsKeepLedger(queue: seq<Event>, kinds: seq<EventType>, times: map<nat, nat>, next: nat)
    requires Ledger(queue, times, next)
    ensures Ledger(queue + Numbered(kinds, next), times, next + |kinds|)
    decreases kinds
  {
    if kinds == [] {
      assert queue + Numbered(kinds, next) == queue;
    } else {
      var more := queue + [Event(kinds[0], 0, next)];
      assert next !in times;
      PutsKeepLedger(more, kinds[1..], times, next + 1);
      assert more + Numbered(kinds[1..], next + 1) == queue + Numbered(kinds, next);
    }
  }

  class Runner {
    const handlers: seq<Handler>
    var queue: seq<Event>
    /** Numbers the events; not part of the source. */
    var next: nat
    ghost var times: map<nat, nat>
    var round: nat

    ghost predicate Valid()
      reads this
    {
      Ledger(queue, times, next)
    }

    constructor (handlers: seq<Handler>)
      ensures Valid() && this.handlers == handlers && queue == [] && times == map[] && round == 0
    {
      this.handlers := handlers;
      this.queue := [];
      this.next := 0;
      this.times := map[];
      this.round := 0;
    }

    /** A producer's put. */
    method Produce(kind: EventType)
      requires Valid()
      modifies this`queue, this`next
      ensures Valid() && queue == old(queue) + [Event(kind, 0, old(next))]
    {
      queue := queue + [Event(kind, 0, next)];
      next := next + 1;
    }

    /** handle_event: the subscribed handlers in order of registration, and then the event
        itself once more if any of them asked for it and it has been tried at most ten times. */
    method HandleEvent(event: Event, oracle: Oracle)
      modifies this`queue, this`next
      ensures queue == old(queue) + Numbered(Put(handlers, oracle, event.kind, round, 0), old(next))
                       + Again(event, Wanted(handlers, oracle, event.kind, round, 0))
      ensures next == old(next) + |Put(handlers, oracle, event.kind, round, 0)|
      ensures old(queue) <= queue
      ensures forall j | 0 <= j < |handlers| && (handlers[j].everything || event.kind in handlers[j].subscription) ::
                StandsAt(queue, |old(queue)| + PutsBetween(handlers, oracle, event.kind, round, 0, j), oracle(event.kind, round, j).puts)
    {
      EachStands(handlers, oracle, event, queue, round, next);
      hide Numbered, StandsAt;
      var rePut := false;
      ghost var before, first := queue, next;
      ghost var all := Put(handlers, oracle, event.kind, round, 0);
      ghost var done: seq<EventType> := [];
      NumberedConcat([], [], first);
      for i := 0 to |handlers|
        invariant done + Put(handlers, oracle, event.kind, round, i) == all
        invariant next == first + |done| && queue == before + Numbered(done, first)
        invariant rePut || Wanted(handlers, oracle, event.kind, round, i) <==> Wanted(handlers, oracle, event.kind, round, 0)
      {
        if Subscribed(handlers[i], event.kind) {
          var reply := oracle(event.kind, round, i);
          NumberedConcat(done, reply.puts, first);
          assert done + (reply.puts + Put(handlers, oracle, event.kind, round, i + 1))
              == (done + reply.puts) + Put(handlers, oracle, event.kind, round, i + 1);
          queue := queue + Numbered(reply.puts, next);
          next := next + |reply.puts|;
          rePut := reply.again || rePut;
          done := done + reply.puts;
        } else {
          assert [] + Put(handlers, oracle, event.kind, round, i + 1) == Put(handlers, oracle, event.kind, round, i + 1);
        }
      }
      assert done == all;
      if rePut {
        if event.tried <= 10 {
          queue := queue + [event.(tried := event.tried + 1)];
        }
      }
    }

    /** The loop of the runners over a queue that nothing else feeds: it ends, with the queue
        empty, after no more dispatches than the measure of the queue. */
    method Drain(oracle: Oracle)
      requires Valid()
      requires AlwaysBehave(handlers, oracle)
      modifies this
      ensures Valid() && queue == []
      ensures round == old(round) + Dispatches(handlers, oracle, old(queue), old(round), old(next))
    {
      LedgerIsLive(queue, times, next);
      hide Dispatches, Measure, AlwaysBehave, Fan;
      ghost var total := round + Dispatches(handlers, oracle, queue, round, next);
      while queue != []
        invariant Valid() && Live(queue)
        invariant round + Dispatches(handlers, oracle, queue, round, next) == total
        decreases Measure(queue, Fan(handlers))
      {
        DispatchNext(oracle);
      }
      NothingLeft(handlers, oracle, round, next);
    }

    /** Handles a new event at once, without queueing it first. */
    method HandleNew(kind: EventType, oracle: Oracle)
      requires Valid()
      modifies this
      ensures Valid() && round == old(round) + 1 && old(queue) <= queue
      ensures queue == old(queue) + Numbered(Put(handlers, oracle, kind, old(round), 0), old(next) + 1)
                       + Again(Event(kind, 0, old(next)), Wanted(handlers, oracle, kind, old(round), 0))
    {
      hide Put, Wanted, Numbered, Again, Ledger;
      var event := Event(kind, 0, next);
      ghost var rest := queue;
      ghost var kinds, wanted := Put(handlers, oracle, kind, round, 0), Wanted(handlers, oracle, kind, round, 0);
      NewFirst(event, rest, times, next);
      DispatchKeepsLedger(event, rest, kinds, wanted, times, next + 1);
      next := next + 1;
      HandleEvent(event, oracle);
      times := times[event.id := event.tried + 1];
      round := round + 1;
    }

    /** Takes the first event and handles it. */
    method DispatchNext(oracle: Oracle)
      requires Valid() && Live(queue) && queue != [] && AlwaysBehave(handlers, oracle)
      modifies this
      ensures Valid() && Live(queue)
      ensures queue == Dispatched(handlers, oracle, old(queue), old(round), old(next))
      ensures Measure(queue, Fan(handlers)) < Measure(old(queue), Fan(handlers))
      ensures round + Dispatches(handlers, oracle, queue, round, next)
           == old(round) + Dispatches(handlers, oracle, old(queue), old(round), old(next))
    {
      hide Put, Wanted, Numbered, Again, Ledger, Live, Measure, Dispatches, AlwaysBehave, Fan;
      var event := queue[0];
      AfterDispatch(handlers, oracle, queue, times, round, next);
      queue := queue[1..];
      HandleEvent(event, oracle);
      times := times[event.id := event.tried + 1];
      round := round + 1;
    }
  }

  lemma NewFirst(e: Event, rest: seq<Event>, times: map<nat, nat>, next: nat)
    requires Ledger(rest, times, next) && e.tried == 0 && e.id == next
    ensures Ledger([e] + rest, times, next + 1)
  {
    assert next !in times;
    forall i | 0 <= i < |rest| ensures rest[i] in rest {
    }
  }

  lemma LedgerIsLive(queue: seq<Event>, times: map<nat, nat>, next: nat)
    ensures Ledger(queue, times, next) ==> Live(queue)
  {
  }

  lemma NothingLeft(handlers: seq<Handler>, oracle: Oracle, round: nat, next: nat)
    requires AlwaysBehave(handlers, oracle)
    ensures Dispatches(handlers, oracle, [], round, next) == 0
  {
  }

  /** The queue after its first event has been handled. */
  function Dispatched(handlers: seq<Handler>, oracle: Oracle, queue: seq<Event>, round: nat, next: nat): seq<Event>
    requires queue != []
  {
    var e := queue[0];
    queue[1..] + Numbered(Put(handlers, oracle, e.kind, round, 0), next) + Again(e, Wanted(handlers, oracle, e.kind, round, 0))
  }

  lemma AfterDispatch(handlers: seq<Handler>, oracle: Oracle, queue: seq<Event>, times: map<nat, nat>, round: nat, next: nat)
    requires AlwaysBehave(handlers, oracle) && queue != [] && Ledger(queue, times, next)
    ensures var kinds := Put(handlers, oracle, queue[0].kind, round, 0);
            var after := Dispatched(handlers, oracle, queue, round, next);
            && Ledger(after, times[queue[0].id := queue[0].tried + 1], next + |kinds|)
            && Measure(after, Fan(handlers)) < Measure(queue, Fan(handlers))
            && Live(queue) && Live(after)
            && Dispatches(handlers, oracle, queue, round, next)
            == 1 + Dispatches(handlers, oracle, after, round + 1, next + |kinds|)
  {
    var e, rest := queue[0], queue[1..];
    assert queue == [e] + rest && e in queue;
    DispatchKeepsLedger(e, rest, Put(handlers, oracle, e.kind, round, 0), Wanted(handlers, oracle, e.kind, round, 0), times, next);
    LedgerIsLive(queue, times, next);
    hide Ledger, Put, Wanted, Numbered, Again, AlwaysBehave, Fan;
    CountedAfter(handlers, oracle, queue, round, next);
  }

  lemma CountedAfter(handlers: seq<Handler>, oracle: Oracle, queue: seq<Event>, round: nat, next: nat)
    requires AlwaysBehave(handlers, oracle) && queue != [] && Live(queue)
    ensures var kinds := Put(handlers, oracle, queue[0].kind, round, 0);
            var after := Dispatched(handlers, oracle, queue, round, next);
            && Live(after) && Measure(after, Fan(handlers)) < Measure(queue, Fan(handlers))
            && Dispatches(handlers, oracle, queue, round, next)
            == 1 + Dispatches(handlers, oracle, after, round + 1, next + |kinds|)
  {
    hide Measure, Fan, Put, Wanted;
    var e, rest := queue[0], queue[1..];
    assert queue == [e] + rest && e in queue;
    DispatchDecreases(handlers, oracle, e, rest, round, next);
  }

  lemma NumberedConcat(a: seq<EventType>, b: seq<EventType>, first: nat)
    ensures Numbered([], first) == []
    ensures Numbered(a + b, first) == Numbered(a, first) + Numbered(b, first + |a|)
  {
  }

  // ----- how many dispatches

  /** No event has been tried more often than the runner allows. */
  ghost predicate Live(queue: seq<Event>) {
    forall e <- queue :: e.tried <= 11
  }

  /** All handlers behave, whatever the event and whenever it comes. */
  ghost predicate AlwaysBehave(handlers: seq<Handler>, oracle: Oracle) {
    forall e: Event, n: nat :: Behaves(handlers, oracle, e, n)
  }

  /** The dispatches until the queue is empty. */
  ghost function Dispatches(handlers: seq<Handler>, oracle: Oracle, queue: seq<Event>, round: nat, next: nat): nat
    requires AlwaysBehave(handlers, oracle) && Live(queue)
    decreases Measure(queue, Fan(handlers))
  {
    if queue == [] then 0 else
    var e, rest := queue[0], queue[1..];
    var kinds := Put(handlers, oracle, e.kind, round, 0);
    assert queue == [e] + rest && e in queue;
    DispatchDecreases(handlers, oracle, e, rest, round, next);
    1 + Dispatches(handlers, oracle, Dispatched(handlers, oracle, queue, round, next), round + 1, next + |kinds|)
  }

  lemma {:induction false} DispatchesAreBounded(handlers: seq<Handler>, oracle: Oracle, queue: seq<Event>, round: nat, next: nat)
    requires AlwaysBehave(handlers, oracle) && Live(queue)
    ensures Dispatches(handlers, oracle, queue, round, next) <= Measure(queue, Fan(handlers))
    decreases Measure(queue, Fan(handlers))
  {
    if queue != [] {
      var e, rest := queue[0], queue[1..];
      var kinds := Put(handlers, oracle, e.kind, round, 0);
      assert queue == [e] + rest && e in queue;
      DispatchDecreases(handlers, oracle, e, rest, round, next);
      DispatchesAreBounded(handlers, oracle, Dispatched(handlers, oracle, queue, round, next), round + 1, next + |kinds|);
    }
  }

  /** The bound on the tries is met: an event that a lone observer always wants back is
      dispatched exactly 12 - tried times. */
  lemma {:induction false} AlwaysAgainIsTwelve(e: Event, round: nat, next: nat)
    requires e.tried <= 11
    ensures var handlers := [Handler(0, {}, true)];
            var oracle := (k: EventType, n: nat, i: nat) => Reply(true, []);
            AlwaysBehave(handlers, oracle) && Dispatches(handlers, oracle, [e], round, next) == 12 - e.tried
    decreases 12 - e.tried
  {
    var handlers := [Handler(0, {}, true)];
    var oracle := (k: EventType, n: nat, i: nat) => Reply(true, []);
    assert AlwaysBehave(handlers, oracle);
    assert Put(handlers, oracle, e.kind, round, 0) == [] && Wanted(handlers, oracle, e.kind, round, 0);
    assert [e][1..] == [];
    if e.tried <= 10 {
      AlwaysAgainIsTwelve(e.(tried := e.tried + 1), round + 1, next);
      assert [] + Numbered([], next) + Again(e, true) == [e.(tried := e.tried + 1)];
    } else {
      assert [] + Numbered([], next) + Again(e, true) == [];
    }
  }

  /** A handler that subscribes to ticks is called with the first tick, which stays in the queue
      behind what the handler puts, once tried; a handler of other events is not called. */
  method OneTick() returns (r: Runner)
    ensures fresh(r) && r.Valid() && r.round == 1
    ensures |r.queue| == 2 && r.queue[0].kind == TimeFrame && r.queue[0].tried == 0
    ensures r.queue[1].kind == TickPrice && r.queue[1].tried == 1
  {
    var handlers := [Handler(9, {EventType.Signal}, false), Handler(9, {Heartbeat, TickPrice}, false)];
    r := new Runner(handlers);
    r.HandleNew(TickPrice, (k: EventType, n: nat, i: nat) => Reply(true, [if i == 0 then OrderClose else TimeFrame]));
  }
}
