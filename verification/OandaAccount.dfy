/** broker/oanda/account.py: the local mirror of an account, kept from change batches in which
    the server's log is grouped by kind of change instead of by time. */
module OandaAccounts {
  import opened Wrappers

  /** An order, trade or position as the caches see it: the id (of a position, the instrument)
      it is filed under, and everything else about it. */
  datatype Entity = Entity(id: string, state: int)

  datatype Transaction = Transaction(id: int)

  type Dict = map<string, Entity>

  /** v20's AccountChanges, the argument of apply_changes. */
  datatype Changes = Changes(
    ordersCreated: seq<Entity>,
    ordersCancelled: seq<Entity>,
    ordersFilled: seq<Entity>,
    ordersTriggered: seq<Entity>,
    tradesOpened: seq<Entity>,
    tradesReduced: seq<Entity>,
    tradesClosed: seq<Entity>,
    positions: seq<Entity>,
    transactions: seq<Transaction>)

  datatype Cache = Cache(orders: Dict, trades: Dict, positions: Dict, transactions: seq<Transaction>)

  // ----- one batch

  function PutAll(m: Dict, xs: seq<Entity>): Dict
    decreases xs
  {
    if xs == [] then m else PutAll(m[xs[0].id := xs[0]], xs[1..])
  }

  function PopAll(m: Dict, xs: seq<Entity>): Dict
    decreases xs
  {
    if xs == [] then m else PopAll(m - {xs[0].id}, xs[1..])
  }

  /** append, then pop(0) if the list has grown over its depth. */
  function Remember(ts: seq<Transaction>, t: Transaction, depth: nat): seq<Transaction> {
    if |ts| + 1 > depth then (ts + [t])[1..] else ts + [t]
  }

  function RememberAll(ts: seq<Transaction>, more: seq<Transaction>, depth: nat): seq<Transaction>
    decreases more
  {
    if more == [] then ts else RememberAll(Remember(ts, more[0], depth), more[1..], depth)
  }

  function Applied(c: Cache, changes: Changes, depth: nat): Cache {
    Cache(
      PopAll(PopAll(PopAll(PutAll(c.orders, changes.ordersCreated),
                           changes.ordersCancelled), changes.ordersFilled), changes.ordersTriggered),
      PopAll(PutAll(PutAll(c.trades, changes.tradesOpened), changes.tradesReduced), changes.tradesClosed),
      PutAll(c.positions, changes.positions),
      RememberAll(c.transactions, changes.transactions, depth))
  }

  // ----- the server's log

  datatype Kind = Created | Cancelled | Filled | Triggered | Opened | Reduced | Closed | Moved

  datatype Event = Change(kind: Kind, entity: Entity) | Booked(transaction: Transaction)

  datatype Book = Orders | Trades | Positions

  function BookOf(kind: Kind): Book {
    match kind
    case Created | Cancelled | Filled | Triggered => Orders
    case Opened | Reduced | Closed => Trades
    case Moved => Positions
  }

  predicate Ends(kind: Kind) {
    kind in {Cancelled, Filled, Triggered, Closed}
  }

  predicate Begins(kind: Kind) {
    kind == Created || kind == Opened
  }

  /** The turn in which a batch applies the kind, within its book. */
  function Turn(kind: Kind): nat {
    if Ends(kind) then 2 else if kind == Reduced then 1 else 0
  }

  function Of(log: seq<Event>, kind: Kind): seq<Entity> {
    if log == [] then []
    else Of(log[..|log| - 1], kind)
         + (var e := log[|log| - 1]; if e.Change? && e.kind == kind then [e.entity] else [])
  }

  function TransactionsOf(log: seq<Event>): seq<Transaction> {
    if log == [] then []
    else TransactionsOf(log[..|log| - 1]) + (var e := log[|log| - 1]; if e.Booked? then [e.transaction] else [])
  }

  /** The batch the server sends for a stretch of its log. */
  function Group(log: seq<Event>): Changes {
    Changes(Of(log, Created), Of(log, Cancelled), Of(log, Filled), Of(log, Triggered),
            Of(log, Opened), Of(log, Reduced), Of(log, Closed), Of(log, Moved), TransactionsOf(log))
  }

  function Stepped(m: Dict, kind: Kind, e: Entity): Dict {
    if Ends(kind) then m - {e.id} else m[e.id := e]
  }

  /** The account the log describes: one change at a time, in the order they happened. */
  function Replay(c: Cache, log: seq<Event>, depth: nat): Cache {
    if log == [] then c else
    var d := Replay(c, log[..|log| - 1], depth);
    match log[|log| - 1]
    case Booked(t) => d.(transactions := Remember(d.transactions, t, depth))
    case Change(kind, e) =>
      match BookOf(kind)
      case Orders => d.(orders := Stepped(d.orders, kind, e))
      case Trades => d.(trades := Stepped(d.trades, kind, e))
      case Positions => d.(positions := Stepped(d.positions, kind, e))
  }

  // ----- what a log does to one id

  function DictOf(c: Cache, book: Book): Dict {
    match book
    case Orders => c.orders
    case Trades => c.trades
    case Positions => c.positions
  }

  function Get(m: Dict, id: string): Option<Entity> {
    if id in m then Some(m[id]) else None
  }

  predicate On(e: Event, book: Book, id: string) {
    e.Change? && BookOf(e.kind) == book && e.entity.id == id
  }

  /** The last event on the id. */
  function LastOn(log: seq<Event>, book: Book, id: string): (r: Option<Event>)
    ensures r.Some? ==> On(r.value, book, id)
  {
    if log == [] then None
    else if On(log[|log| - 1], book, id) then Some(log[|log| - 1])
    else LastOn(log[..|log| - 1], book, id)
  }

  /** The event on the id that a batch applies last: of those in the latest turn, the last. */
  function DominantOn(log: seq<Event>, book: Book, id: string): (r: Option<Event>)
    ensures r.Some? ==> On(r.value, book, id)
  {
    if log == [] then None else
    var e := log[|log| - 1];
    var earlier := DominantOn(log[..|log| - 1], book, id);
    if On(e, book, id) && (earlier.None? || Turn(earlier.value.kind) <= Turn(e.kind)) then Some(e) else earlier
  }

  /** What is filed under the id after the given event, if any, had the last word. */
  function Outcome(e: Option<Event>, before: Option<Entity>): Option<Entity>
    requires e.Some? ==> e.value.Change?
  {
    if e.None? then before else if Ends(e.value.kind) then None else Some(e.value.entity)
  }

  /** The event applied last and the event that happened last leave the id in the same state. */
  predicate SameEffect(a: Option<Event>, b: Option<Event>) {
    match (a, b)
    case (Some(Change(k, x)), Some(Change(l, y))) => Ends(k) == Ends(l) && (Ends(k) || x == y)
    case _ => a == b
  }

  lemma {:induction false} ReplayById(c: Cache, log: seq<Event>, depth: nat, book: Book, id: string)
    ensures Get(DictOf(Replay(c, log, depth), book), id) == Outcome(LastOn(log, book, id), Get(DictOf(c, book), id))
  {
    if log != [] {
      ReplayById(c, log[..|log| - 1], depth, book, id);
    }
  }

  /** The last entity of the list filed under the id. */
  function LastPut(xs: seq<Entity>, id: string): Option<Entity> {
    if xs == [] then None else
    if xs[|xs| - 1].id == id then Some(xs[|xs| - 1]) else LastPut(xs[..|xs| - 1], id)
  }

  lemma {:induction false} PutAllById(m: Dict, xs: seq<Entity>, id: string)
    ensures Get(PutAll(m, xs), id) == if LastPut(xs, id).Some? then LastPut(xs, id) else Get(m, id)
    decreases xs
  {
    if xs != [] {
      PutAllById(m[xs[0].id := xs[0]], xs[1..], id);
      LastPutFront(xs, id);
    }
  }

  lemma {:induction false} LastPutFront(xs: seq<Entity>, id: string)
    requires xs != []
    ensures LastPut(xs, id) == if LastPut(xs[1..], id).Some? then LastPut(xs[1..], id)
                               else if xs[0].id == id then Some(xs[0]) else None
  {
    if |xs| > 1 {
      assert xs[..|xs| - 1][1..] == xs[1..][..|xs| - 2];
      LastPutFront(xs[..|xs| - 1], id);
    }
  }

  lemma {:induction false} PopAllById(m: Dict, xs: seq<Entity>, id: string)
    ensures Get(PopAll(m, xs), id) == if LastPut(xs, id).Some? then None else Get(m, id)
    decreases xs
  {
    if xs != [] {
      PopAllById(m - {xs[0].id}, xs[1..], id);
      LastPutFront(xs, id);
    }
  }

  /** d is an ending event if there is one, else the last creation. */
  ghost predicate OrderTurns(d: Option<Event>, created: Option<Entity>, ended: bool) {
    if ended then d.Some? && d.value.Change? && Ends(d.value.kind)
    else if created.Some? then d == Some(Change(Created, created.value))
    else d.None?
  }

  lemma DominantSnoc(log: seq<Event>, book: Book, id: string)
    requires log != []
    ensures DominantOn(log, book, id) ==
            var e, earlier := log[|log| - 1], DominantOn(log[..|log| - 1], book, id);
            if On(e, book, id) && (earlier.None? || Turn(earlier.value.kind) <= Turn(e.kind)) then Some(e) else earlier
  {
  }

  lemma {:induction false} DominantOrder(log: seq<Event>, id: string)
    ensures OrderTurns(DominantOn(log, Orders, id), LastPut(Of(log, Created), id),
                       LastPut(Of(log, Cancelled), id).Some? || LastPut(Of(log, Filled), id).Some? || LastPut(Of(log, Triggered), id).Some?)
  {
    if log != [] {
      hide LastPut, Of, DominantOn;
      var front, e := log[..|log| - 1], log[|log| - 1];
      DominantOrder(front, id);
      DominantSnoc(log, Orders, id);
      OfSnoc(log, Created, id);
      OfSnoc(log, Cancelled, id);
      OfSnoc(log, Filled, id);
      OfSnoc(log, Triggered, id);
      assert On(e, Orders, id) ==> e.kind == Created || Ends(e.kind);
    }
  }

  /** d is a close if there is one, else the last reduction if there is one, else the last
      opening; the arguments are the last of each kind on the id. */
  ghost predicate TradeTurns(d: Option<Event>, open: Option<Entity>, reduced: Option<Entity>, closed: Option<Entity>) {
    if closed.Some? then d.Some? && d.value.Change? && d.value.kind == Closed
    else if reduced.Some? then d == Some(Change(Reduced, reduced.value))
    else if open.Some? then d == Some(Change(Opened, open.value))
    else d.None?
  }

  lemma {:induction false} DominantTrade(log: seq<Event>, id: string)
    ensures TradeTurns(DominantOn(log, Trades, id),
                       LastPut(Of(log, Opened), id), LastPut(Of(log, Reduced), id), LastPut(Of(log, Closed), id))
  {
    if log != [] {
      hide LastPut, Of, DominantOn;
      var front, e := log[..|log| - 1], log[|log| - 1];
      DominantTrade(front, id);
      DominantSnoc(log, Trades, id);
      OfSnoc(log, Opened, id);
      OfSnoc(log, Reduced, id);
      OfSnoc(log, Closed, id);
      assert On(e, Trades, id) ==> e.kind == Opened || e.kind == Reduced || e.kind == Closed;
    }
  }

  lemma {:induction false} DominantPosition(log: seq<Event>, id: string)
    ensures var d := DominantOn(log, Positions, id);
            LastPut(Of(log, Moved), id) == if d.Some? then Some(d.value.entity) else None
  {
    if log != [] {
      DominantPosition(log[..|log| - 1], id);
      OfSnoc(log, Moved, id);
    }
  }

  lemma OfSnoc(log: seq<Event>, kind: Kind, id: string)
    requires log != []
    ensures LastPut(Of(log, kind), id) ==
            var e := log[|log| - 1];
            if e.Change? && e.kind == kind && e.entity.id == id then Some(e.entity) else LastPut(Of(log[..|log| - 1], kind), id)
  {
    var e, front := log[|log| - 1], Of(log[..|log| - 1], kind);
    if e.Change? && e.kind == kind {
      assert (front + [e.entity])[..|front|] == front;
    } else {
      assert front + [] == front;
    }
  }

  /** After a batch, each id is as the dominant event on it left it. */
  lemma GroupedById(c: Cache, log: seq<Event>, depth: nat, book: Book, id: string)
    ensures Get(DictOf(Applied(c, Group(log), depth), book), id) == Outcome(DominantOn(log, book, id), Get(DictOf(c, book), id))
  {
    var g := Group(log);
    match book
    case Orders =>
      DominantOrder(log, id);
      var m := PutAll(c.orders, g.ordersCreated);
      PutAllById(c.orders, g.ordersCreated, id);
      PopAllById(m, g.ordersCancelled, id);
      PopAllById(PopAll(m, g.ordersCancelled), g.ordersFilled, id);
      PopAllById(PopAll(PopAll(m, g.ordersCancelled), g.ordersFilled), g.ordersTriggered, id);
    case Trades =>
      DominantTrade(log, id);
      var m := PutAll(c.trades, g.tradesOpened);
      PutAllById(c.trades, g.tradesOpened, id);
      PutAllById(m, g.tradesReduced, id);
      PopAllById(PutAll(m, g.tradesReduced), g.tradesClosed, id);
    case Positions =>
      DominantPosition(log, id);
      PutAllById(c.positions, g.positions, id);
  }

  // ----- transactions

  function Tail(ts: seq<Transaction>, depth: nat): seq<Transaction> {
    if |ts| <= depth then ts else ts[|ts| - depth..]
  }

  /** The list is always exactly the last min(n, depth) of the n transactions seen. */
  lemma {:induction false} TransactionsAreTheTail(seen: seq<Transaction>, more: seq<Transaction>, depth: nat)
    ensures RememberAll(Tail(seen, depth), more, depth) == Tail(seen + more, depth)
    decreases more
  {
    if more == [] {
      assert seen + more == seen;
    } else {
      assert Remember(Tail(seen, depth), more[0], depth) == Tail(seen + [more[0]], depth);
      assert (seen + [more[0]]) + more[1..] == seen + more;
      TransactionsAreTheTail(seen + [more[0]], more[1..], depth);
    }
  }

  lemma {:induction false} ReplayTransactions(c: Cache, log: seq<Event>, depth: nat)
    requires |c.transactions| <= depth
    ensures Replay(c, log, depth).transactions == Tail(c.transactions + TransactionsOf(log), depth)
  {
    if log == [] {
      assert c.transactions + [] == c.transactions;
    } else {
      ReplayTransactions(c, log[..|log| - 1], depth);
      var seen := c.transactions + TransactionsOf(log[..|log| - 1]);
      match log[|log| - 1]
      case Booked(t) =>
        assert Remember(Tail(seen, depth), t, depth) == Tail(seen + [t], depth);
        assert seen + [t] == c.transactions + TransactionsOf(log);
      case Change(_, _) =>
        assert TransactionsOf(log) == TransactionsOf(log[..|log| - 1]);
    }
  }

  // ----- grouped against replayed

  /** On every id, what the batch applies last is what happened last. */
  ghost predicate InTurn(log: seq<Event>) {
    forall book, id :: SameEffect(DominantOn(log, book, id), LastOn(log, book, id))
  }

  lemma SameDict(a: Dict, b: Dict)
    requires forall id :: Get(a, id) == Get(b, id)
    ensures a == b
  {
    assert forall id :: id in a <==> Get(a, id).Some?;
    assert forall id :: id in b <==> Get(b, id).Some?;
    assert forall id | id in a :: a[id] == Get(a, id).value && b[id] == Get(b, id).value;
  }

  /** Applying the batch equals replaying the log, whatever the cache held before, if and only
      if on every id the dominant event has the effect of the last one. */
  lemma GroupedEqualsReplayIff(log: seq<Event>, depth: nat)
    ensures (forall c: Cache | |c.transactions| <= depth :: Applied(c, Group(log), depth) == Replay(c, log, depth)) <==> InTurn(log)
  {
    if InTurn(log) {
      forall c: Cache | |c.transactions| <= depth ensures Applied(c, Group(log), depth) == Replay(c, log, depth) {
        InTurnSuffices(c, log, depth);
      }
    } else {
      var book, id :| !SameEffect(DominantOn(log, book, id), LastOn(log, book, id));
      OutOfTurnShows(log, depth, book, id);
    }
  }

  lemma InTurnSuffices(c: Cache, log: seq<Event>, depth: nat)
    requires InTurn(log) && |c.transactions| <= depth
    ensures Applied(c, Group(log), depth) == Replay(c, log, depth)
  {
    var a, b := Applied(c, Group(log), depth), Replay(c, log, depth);
    forall book, id ensures Get(DictOf(a, book), id) == Get(DictOf(b, book), id) {
      GroupedById(c, log, depth, book, id);
      ReplayById(c, log, depth, book, id);
      assert SameEffect(DominantOn(log, book, id), LastOn(log, book, id));
    }
    forall book ensures DictOf(a, book) == DictOf(b, book) {
      SameDict(DictOf(a, book), DictOf(b, book));
    }
    assert a.orders == DictOf(a, Orders) && a.trades == DictOf(a, Trades) && a.positions == DictOf(a, Positions);
    assert b.orders == DictOf(b, Orders) && b.trades == DictOf(b, Trades) && b.positions == DictOf(b, Positions);
    TransactionsAreTheTail(c.transactions, TransactionsOf(log), depth);
    ReplayTransactions(c, log, depth);
  }

  /** An id out of turn shows in one of two caches: the empty one, or one that has the id. */
  lemma OutOfTurnShows(log: seq<Event>, depth: nat, book: Book, id: string)
    requires !SameEffect(DominantOn(log, book, id), LastOn(log, book, id))
    ensures exists c: Cache :: |c.transactions| <= depth && Applied(c, Group(log), depth) != Replay(c, log, depth)
  {
    LastIffDominant(log, book, id);
    var d, l := DominantOn(log, book, id), LastOn(log, book, id);
    var c := Cache(map[], map[], map[], []);
    GroupedById(c, log, depth, book, id);
    ReplayById(c, log, depth, book, id);
    assert Outcome(d, None) != Outcome(l, None);
  }

  lemma {:induction false} LastIffDominant(log: seq<Event>, book: Book, id: string)
    ensures DominantOn(log, book, id).Some? <==> LastOn(log, book, id).Some?
  {
    if log != [] {
      LastIffDominant(log[..|log| - 1], book, id);
    }
  }

  /** Each id is created before anything else happens to it, and nothing happens to it after
      it has ended. */
  ghost predicate Lifecycles(log: seq<Event>) {
    forall i, j | 0 <= i < j < |log| ::
      log[i].Change? && log[j].Change? && On(log[i], BookOf(log[j].kind), log[j].entity.id)
      ==> !Ends(log[i].kind) && !Begins(log[j].kind)
  }

  lemma {:induction false} Found(log: seq<Event>, book: Book, id: string)
    ensures LastOn(log, book, id).Some? ==> LastOn(log, book, id).value in log
    ensures DominantOn(log, book, id).Some? ==> DominantOn(log, book, id).value in log
  {
    if log != [] {
      Found(log[..|log| - 1], book, id);
    }
  }

  /** In a log where each id is created once, then changed, then ended at most once, the last
      event on an id is the dominant one. */
  lemma {:induction false} LifecyclesAreInTurn(log: seq<Event>, book: Book, id: string)
    requires Lifecycles(log)
    ensures DominantOn(log, book, id) == LastOn(log, book, id)
  {
    if log != [] {
      var front, e := log[..|log| - 1], log[|log| - 1];
      LifecyclesAreInTurn(front, book, id);
      var d := DominantOn(front, book, id);
      if On(e, book, id) && d.Some? {
        Found(front, book, id);
        var i :| 0 <= i < |front| && front[i] == d.value;
        assert log[i] == d.value && On(log[i], BookOf(e.kind), e.entity.id);
      }
    }
  }

  lemma LifecyclesSuffice(c: Cache, log: seq<Event>, depth: nat)
    requires Lifecycles(log) && |c.transactions| <= depth
    ensures Applied(c, Group(log), depth) == Replay(c, log, depth)
  {
    LifecyclesInTurn(log);
    InTurnSuffices(c, log, depth);
  }

  // ----- batch boundaries

  lemma {:induction false} ReplayConcat(c: Cache, a: seq<Event>, b: seq<Event>, depth: nat)
    ensures Replay(c, a + b, depth) == Replay(Replay(c, a, depth), b, depth)
  {
    if b == [] {
      assert a + b == a;
    } else {
      assert (a + b)[..|a + b| - 1] == a + b[..|b| - 1];
      ReplayConcat(c, a, b[..|b| - 1], depth);
    }
  }

  function Flatten(batches: seq<seq<Event>>): seq<Event> {
    if batches == [] then [] else batches[0] + Flatten(batches[1..])
  }

  /** Consecutive pulls. */
  function PullAll(c: Cache, batches: seq<seq<Event>>, depth: nat): Cache
    decreases batches
  {
    if batches == [] then c else PullAll(Applied(c, Group(batches[0]), depth), batches[1..], depth)
  }

  /** If each batch by itself is in turn, consecutive pulls give the replay of the whole log;
      an id may then be used again in a later batch. */
  lemma {:induction false} BatchesInTurn(c: Cache, batches: seq<seq<Event>>, depth: nat)
    requires (forall b <- batches :: InTurn(b)) && |c.transactions| <= depth
    ensures PullAll(c, batches, depth) == Replay(c, Flatten(batches), depth)
    decreases batches
  {
    if batches != [] {
      var first := batches[0];
      assert first in batches;
      InTurnSuffices(c, first, depth);
      ReplayTransactions(c, first, depth);
      BatchesInTurn(Applied(c, Group(first), depth), batches[1..], depth);
      ReplayConcat(c, first, Flatten(batches[1..]), depth);
    }
  }

  lemma {:induction false} BatchOfLifecycles(batches: seq<seq<Event>>, b: seq<Event>)
    requires Lifecycles(Flatten(batches)) && b in batches
    ensures Lifecycles(b)
  {
    var log, first, rest := Flatten(batches), batches[0], Flatten(batches[1..]);
    assert forall i | 0 <= i < |first| :: first[i] == log[i];
    assert forall i | 0 <= i < |rest| :: rest[i] == log[|first| + i];
    if b != first {
      BatchOfLifecycles(batches[1..], b);
    }
  }

  lemma LifecyclesInTurn(log: seq<Event>)
    requires Lifecycles(log)
    ensures InTurn(log)
  {
    forall book, id ensures SameEffect(DominantOn(log, book, id), LastOn(log, book, id)) {
      LifecyclesAreInTurn(log, book, id);
    }
  }

  /** However a log of lifecycles is cut into batches, the cache ends up as if the log had been
      replayed event by event, which is also what one combined pull gives. */
  lemma BatchesDoNotMatter(c: Cache, batches: seq<seq<Event>>, depth: nat)
    requires Lifecycles(Flatten(batches)) && |c.transactions| <= depth
    ensures PullAll(c, batches, depth) == Replay(c, Flatten(batches), depth) == Applied(c, Group(Flatten(batches)), depth)
  {
    forall b | b in batches ensures InTurn(b) {
      BatchOfLifecycles(batches, b);
      LifecyclesInTurn(b);
    }
    BatchesInTurn(c, batches, depth);
    LifecyclesSuffice(c, Flatten(batches), depth);
  }

  /** Outside that discipline the batch can be wrong: an order id that is cancelled and then
      created again is gone from the cache although the server still has it. */
  lemma ReusedIdIsLost(o: Entity)
    ensures var log := [Change(Cancelled, o), Change(Created, o)];
            var c := Cache(map[], map[], map[], []);
            o.id !in Applied(c, Group(log), 100).orders && Replay(c, log, 100).orders == map[o.id := o]
  {
    var log := [Change(Cancelled, o), Change(Created, o)];
    var c := Cache(map[], map[], map[], []);
    assert log[..1] == [Change(Cancelled, o)];
    assert log[..1][..0] == [];
    ReplayById(c, log, 100, Orders, o.id);
    GroupedById(c, log, 100, Orders, o.id);
    assert DominantOn(log[..1], Orders, o.id) == Some(log[0]);
    assert Replay(c, log[..1], 100).orders == map[];
  }

  // ----- the account object

  class Account {
    var orders: Dict
    var trades: Dict
    var positions: Dict
    var transactions: seq<Transaction>
    const transactionCacheDepth: nat
    var lastTransactionID: nat

    function Cached(): Cache
      reads this
    {
      Cache(orders, trades, positions, transactions)
    }

    constructor (trades: seq<Entity>, orders: seq<Entity>, positions: seq<Entity>, lastTransactionID: nat, depth: nat)
      ensures Cached() == Cache(PutAll(map[], orders), PutAll(map[], trades), PutAll(map[], positions), [])
      ensures this.lastTransactionID == lastTransactionID && transactionCacheDepth == depth
    {
      this.orders := PutAll(map[], orders);
      this.trades := PutAll(map[], trades);
      this.positions := PutAll(map[], positions);
      this.transactions := [];
      this.lastTransactionID := lastTransactionID;
      this.transactionCacheDepth := depth;
    }

    method ApplyChanges(changes: Changes)
      modifies this`orders, this`trades, this`positions, this`transactions
      ensures Cached() == Applied(old(Cached()), changes, transactionCacheDepth)
    {
      orders := PutEach(orders, changes.ordersCreated);
      orders := PopEach(orders, changes.ordersCancelled);
      orders := PopEach(orders, changes.ordersFilled);
      orders := PopEach(orders, changes.ordersTriggered);
      trades := PutEach(trades, changes.tradesOpened);
      trades := PutEach(trades, changes.tradesReduced);
      trades := PopEach(trades, changes.tradesClosed);
      positions := PutEach(positions, changes.positions);
      ghost var before := transactions;
      for i := 0 to |changes.transactions|
        invariant Cached() == Applied(old(Cached()), changes, transactionCacheDepth).(transactions := transactions)
        invariant RememberAll(transactions, changes.transactions[i..], transactionCacheDepth)
               == RememberAll(before, changes.transactions, transactionCacheDepth)
      {
        assert changes.transactions[i..][1..] == changes.transactions[i + 1..];
        transactions := transactions + [changes.transactions[i]];
        if |transactions| > transactionCacheDepth {
          transactions := transactions[1..];
        }
      }
    }

    /** The server answers with the batch of what its log has gained since the last pull; a
        position in the log stands for the transaction id. */
    method Pull(log: seq<Event>, ghost initial: Cache)
      requires lastTransactionID <= |log| && InTurn(log[lastTransactionID..])
      requires |initial.transactions| <= transactionCacheDepth
      requires Cached() == Replay(initial, log[..lastTransactionID], transactionCacheDepth)
      modifies this
      ensures lastTransactionID == |log|
      ensures Cached() == Replay(initial, log, transactionCacheDepth)
    {
      ghost var seen, news := log[..lastTransactionID], log[lastTransactionID..];
      assert seen + news == log;
      ReplayConcat(initial, seen, news, transactionCacheDepth);
      ReplayTransactions(initial, seen, transactionCacheDepth);
      InTurnSuffices(Cached(), news, transactionCacheDepth);
      ApplyChanges(Group(log[lastTransactionID..]));
      lastTransactionID := |log|;
    }
  }

  /** One of the loops that files entities. */
  method PutEach(m: Dict, xs: seq<Entity>) returns (r: Dict)
    ensures r == PutAll(m, xs)
  {
    r := m;
    for i := 0 to |xs|
      invariant PutAll(r, xs[i..]) == PutAll(m, xs)
    {
      assert xs[i..][1..] == xs[i + 1..];
      r := r[xs[i].id := xs[i]];
    }
  }

  /** One of the loops that pop entities; an unknown id is ignored. */
  method PopEach(m: Dict, xs: seq<Entity>) returns (r: Dict)
    ensures r == PopAll(m, xs)
  {
    r := m;
    for i := 0 to |xs|
      invariant PopAll(r, xs[i..]) == PopAll(m, xs)
    {
      assert xs[i..][1..] == xs[i + 1..];
      r := r - {xs[i].id};
    }
  }
}
