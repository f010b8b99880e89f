/** broker/fxcm/streaming.py: the outer loop of FXCMStreamRunner, which follows the market's
    opening hours and beats. */
module StreamRunners {
  import opened Runners

  datatype MarketAction = OPEN | CLOSE

  /** What the world does during one turn of the loop: whether the market is open, whether a
      reconnect succeeds, whether closing the connection and the connection check go without an
      exception, and which events others put. */
  datatype Turn = Turn(market: bool, connects: bool, closes: bool, survives: bool, arrivals: seq<EventType>)

  /** The runner's flags and counter, and what it has emitted: market events, and the counter
      at each heartbeat and each start-up event.  An exception ends the run. */
  datatype Status = Status(
    isOpen: bool, initialized: bool, counter: nat, crashed: bool,
    market: seq<MarketAction>, beats: seq<nat>, starts: seq<nat>)

  function Started(isOpen: bool): Status {
    Status(isOpen, false, 0, false, [], [], [])
  }

  /** check_market_status */
  function Checked(s: Status, t: Turn): Status {
    if s.isOpen == t.market then s
    else if t.market then (if t.connects then s.(isOpen := true, market := s.market + [OPEN]) else s)
    else if t.closes then s.(isOpen := false, market := s.market + [CLOSE])
    else s.(crashed := true, market := s.market + [CLOSE])
  }

  predicate Due(counter: nat, period: nat)
    requires period != 0
  {
    counter % period == 0
  }

  /** generate_heartbeat; `period` is HEARTBEAT / LOOP_SLEEP. */
  function Beaten(s: Status, period: nat): Status
    requires period != 0
  {
    if !Due(s.counter, period) then s
    else s.(beats := s.beats + [s.counter],
            initialized := true,
            starts := if s.initialized then s.starts else s.starts + [s.counter])
  }

  function Turned(s: Status, t: Turn, period: nat): Status
    requires period != 0
  {
    if s.crashed then s else
    var c := Checked(s.(counter := s.counter + 1), t);
    if c.crashed || !c.isOpen then c
    else var b := Beaten(c, period); b.(crashed := !t.survives)
  }

  function RunOver(s: Status, turns: seq<Turn>, period: nat): Status
    requires period != 0
    decreases turns
  {
    if turns == [] then s else RunOver(Turned(s, turns[0], period), turns[1..], period)
  }

  /** The market events alternate, the first being the opposite of what the flag was at first,
      and the flag is as the last of them left it. */
  ghost predicate Alternating(s: Status, initially: bool) {
    && (forall i | 0 <= i < |s.market| :: s.market[i] == if initially == (i % 2 == 0) then CLOSE else OPEN)
    && (!s.crashed ==> s.isOpen == (initially == (|s.market| % 2 == 0)))
  }

  /** There is a start-up event exactly when there has been a heartbeat, only one, and it comes
      with the first heartbeat; heartbeats come at multiples of the period. */
  ghost predicate StartsOnce(s: Status, period: nat)
    requires period != 0
  {
    && s.initialized == (s.beats != [])
    && s.starts == (if s.beats == [] then [] else [s.beats[0]])
    && forall b <- s.beats :: Due(b, period)
  }

  /** A market event appended to an alternating list, the flag following it. */
  lemma OneMoreAlternates(s: Status, e: Status, initially: bool)
    requires Alternating(s, initially) && !s.crashed
    requires e.market == s.market + [if s.isOpen then CLOSE else OPEN] && (!e.crashed ==> e.isOpen != s.isOpen)
    ensures Alternating(e, initially)
  {
  }

  /** After a turn the flag is as the market, unless the market is open and neither was the
      flag nor does the connection come back. */
  lemma TurnAlternates(s: Status, t: Turn, period: nat, initially: bool)
    requires period != 0 && Alternating(s, initially)
    ensures Alternating(Turned(s, t, period), initially)
    ensures var e := Turned(s, t, period);
      !e.crashed ==> e.isOpen == (t.market && (s.isOpen || t.connects))
  {
    if !s.crashed {
      var c := Checked(s.(counter := s.counter + 1), t);
      if c.market != s.market {
        OneMoreAlternates(s, c, initially);
      }
      hide Checked;
      assert Alternating(c, initially);
    }
  }

  lemma TurnStartsOnce(s: Status, t: Turn, period: nat)
    requires period != 0 && StartsOnce(s, period)
    ensures StartsOnce(Turned(s, t, period), period)
  {
    hide Due;
  }

  lemma {:induction false} RunAlternates(s: Status, turns: seq<Turn>, period: nat, initially: bool)
    requires period != 0 && Alternating(s, initially) && StartsOnce(s, period)
    ensures Alternating(RunOver(s, turns, period), initially) && StartsOnce(RunOver(s, turns, period), period)
    decreases turns
  {
    hide Turned, Alternating, StartsOnce;
    if turns != [] {
      TurnAlternates(s, turns[0], period, initially);
      TurnStartsOnce(s, turns[0], period);
      RunAlternates(Turned(s, turns[0], period), turns[1..], period, initially);
    }
  }

  /** Over every run OPEN and CLOSE strictly alternate, starting opposite to the initial flag,
      whether or not reconnects fail; and there is at most one start-up event. */
  lemma MarketEventsAlternate(isOpen: bool, turns: seq<Turn>, period: nat)
    requires period != 0
    ensures Alternating(RunOver(Started(isOpen), turns, period), isOpen)
    ensures StartsOnce(RunOver(Started(isOpen), turns, period), period)
    ensures |RunOver(Started(isOpen), turns, period).starts| <= 1
    ensures forall b <- RunOver(Started(isOpen), turns, period).beats :: b % period == 0
  {
    RunAlternates(Started(isOpen), turns, period, isOpen);
  }

  lemma {:induction false} LastTurn(s: Status, turns: seq<Turn>, period: nat)
    requires period != 0 && turns != []
    ensures RunOver(s, turns, period) == Turned(RunOver(s, turns[..|turns| - 1], period), turns[|turns| - 1], period)
    decreases turns
  {
    hide Turned;
    if |turns| > 1 {
      var rest := turns[1..];
      assert rest[..|rest| - 1] == turns[..|turns| - 1][1..] && rest[|rest| - 1] == turns[|turns| - 1];
      LastTurn(Turned(s, turns[0], period), rest, period);
    }
  }

  lemma {:induction false} CountsTurns(isOpen: bool, turns: seq<Turn>, period: nat)
    requires period != 0
    ensures var s := RunOver(Started(isOpen), turns, period); !s.crashed ==> s.counter == |turns|
  {
    if turns != [] {
      CountsTurns(isOpen, turns[..|turns| - 1], period);
      LastTurn(Started(isOpen), turns, period);
      hide RunOver;
    }
  }

  /** Turn after turn: there is a heartbeat at every multiple of the period at which the market is
      open and the connection there, and none at any other turn. */
  lemma HeartbeatsAreComplete(isOpen: bool, turns: seq<Turn>, period: nat)
    requires period != 0 && turns != []
    ensures var n := |turns|;
            var s, t := RunOver(Started(isOpen), turns[..n - 1], period), turns[n - 1];
            RunOver(Started(isOpen), turns, period).beats ==
            s.beats + if !s.crashed && t.market && (s.isOpen || t.connects) && n % period == 0 then [n] else []
  {
    CountsTurns(isOpen, turns[..|turns| - 1], period);
    LastTurn(Started(isOpen), turns, period);
    hide RunOver;
  }

  /** An exception ends the run in two places: where the connection is closed, and where it is
      checked. */
  lemma CrashesIff(s: Status, t: Turn, period: nat)
    requires period != 0
    ensures Turned(s, t, period).crashed <==>
              s.crashed || (s.isOpen && !t.market && !t.closes) || (t.market && (s.isOpen || t.connects) && !t.survives)
  {
  }

  function Kinds(events: seq<Event>): seq<EventType> {
    seq(|events|, i requires 0 <= i < |events| => events[i].kind)
  }

  lemma KindsOfOneMore(queue: seq<Event>, e: Event)
    ensures Kinds(queue + [e]) == Kinds(queue) + [e.kind]
  {
  }

  lemma Neutral(kinds: seq<EventType>, more: seq<EventType>)
    ensures kinds + [] == kinds && [] + more == more
  {
  }

  class FXCMStreamRunner {
    const runner: Runner
    const period: nat
    var isMarketOpen: bool
    var initialized: bool
    var loopCounter: nat
    var crashed: bool
    ghost var market: seq<MarketAction>
    ghost var beats: seq<nat>
    ghost var starts: seq<nat>

    ghost predicate Valid()
      reads this, runner
    {
      period != 0 && runner.Valid()
    }

    ghost function Current(): Status
      reads this
    {
      Status(isMarketOpen, initialized, loopCounter, crashed, market, beats, starts)
    }

    constructor (handlers: seq<Handler>, period: nat, isOpen: bool)
      requires period != 0
      ensures Valid() && fresh(runner) && runner.handlers == handlers && this.period == period
      ensures Current() == Started(isOpen) && runner.queue == []
    {
      this.runner := new Runner(handlers);
      this.period := period;
      this.isMarketOpen := isOpen;
      this.initialized := false;
      this.loopCounter := 0;
      this.crashed := false;
      this.market, this.beats, this.starts := [], [], [];
    }

    /** One turn of the loop in run: while the flag is open the queue is drained, events of
        other producers included; while it is closed nothing is taken from the queue. */
    method Iterate(t: Turn, oracle: Oracle)
      requires Valid() && AlwaysBehave(runner.handlers, oracle) && !crashed
      modifies this, runner
      ensures Valid()
      ensures Current() == Turned(old(Current()), t, period)
      ensures !old(isMarketOpen) ==> old(runner.queue) <= runner.queue && runner.round == old(runner.round)
      ensures !old(isMarketOpen) && !(t.market && t.connects) ==> Kinds(runner.queue) == Kinds(old(runner.queue)) + t.arrivals
      ensures var beat: seq<EventType> := if (old(loopCounter) + 1) % period != 0 then []
                                          else if old(initialized) then [Heartbeat] else [Heartbeat, StartUp];
        && (old(isMarketOpen) && t.market ==> Kinds(runner.queue) == beat)
        && (!old(isMarketOpen) && t.market && t.connects ==>
              Kinds(runner.queue) == Kinds(old(runner.queue)) + t.arrivals + [Market] + beat)
    {
      hide AlwaysBehave, Checked, Kinds, Due;
      TakeQueued(t.arrivals, oracle);
      loopCounter := loopCounter + 1;
      CheckMarketStatus(t, oracle);
      if !crashed && isMarketOpen {
        Neutral(Kinds(runner.queue), if initialized then [Heartbeat] else [Heartbeat, StartUp]);
        GenerateHeartbeat();
        crashed := !t.survives;
      }
    }

    /** The queue as the loop finds it, with what others put, is drained if the flag is open. */
    method TakeQueued(arrivals: seq<EventType>, oracle: Oracle)
      requires Valid() && AlwaysBehave(runner.handlers, oracle)
      modifies runner
      ensures Valid()
      ensures isMarketOpen ==> Kinds(runner.queue) == []
      ensures !isMarketOpen ==> old(runner.queue) <= runner.queue && runner.round == old(runner.round)
      ensures !isMarketOpen ==> Kinds(runner.queue) == Kinds(old(runner.queue)) + arrivals
    {
      hide AlwaysBehave;
      ProduceAll(arrivals);
      if isMarketOpen {
        runner.Drain(oracle);
      }
    }

    method ProduceAll(kinds: seq<EventType>)
      requires Valid()
      modifies runner
      ensures Valid() && old(runner.queue) <= runner.queue && runner.round == old(runner.round)
      ensures Kinds(runner.queue) == Kinds(old(runner.queue)) + kinds
    {
      for i := 0 to |kinds|
        invariant Valid() && old(runner.queue) <= runner.queue && runner.round == old(runner.round)
        invariant Kinds(runner.queue) == Kinds(old(runner.queue)) + kinds[..i]
      {
        KindsOfOneMore(runner.queue, Event(kinds[i], 0, runner.next));
        runner.Produce(kinds[i]);
        assert Kinds(old(runner.queue)) + kinds[..i + 1] == Kinds(old(runner.queue)) + kinds[..i] + [kinds[i]];
      }
      assert kinds[..|kinds|] == kinds;
    }

    /** A closing is handled at once, while the flag is still open; an opening is queued. */
    method CheckMarketStatus(t: Turn, oracle: Oracle)
      requires Valid() && AlwaysBehave(runner.handlers, oracle) && !crashed
      modifies this`isMarketOpen, this`market, this`crashed, runner
      ensures Valid()
      ensures Current() == Checked(old(Current()), t)
      ensures !old(isMarketOpen) ==> old(runner.queue) <= runner.queue && runner.round == old(runner.round)
      ensures crashed == (old(isMarketOpen) && !t.market && !t.closes)
      ensures !crashed ==> isMarketOpen == (t.market && (old(isMarketOpen) || t.connects))
      ensures if t.market && !old(isMarketOpen) && t.connects then
                Kinds(runner.queue) == Kinds(old(runner.queue)) + [Market]
              else if !t.market && old(isMarketOpen) then
                && runner.round == old(runner.round) + 1
                && runner.queue == old(runner.queue)
                   + Numbered(Put(runner.handlers, oracle, Market, old(runner.round), 0), old(runner.next) + 1)
                   + Again(Event(Market, 0, old(runner.next)), Wanted(runner.handlers, oracle, Market, old(runner.round), 0))
              else runner.queue == old(runner.queue) && runner.round == old(runner.round)
    {
      if isMarketOpen != t.market {
        if t.market && t.connects {
          isMarketOpen := true;
          runner.Produce(Market);
          market := market + [OPEN];
        } else if !t.market {
          runner.HandleNew(Market, oracle);
          market := market + [CLOSE];
          if t.closes {
            isMarketOpen := false;
          } else {
            crashed := true;
          }
        }
      }
    }

    method GenerateHeartbeat()
      requires Valid()
      modifies this`initialized, this`beats, this`starts, runner
      ensures Valid()
      ensures Current() == Beaten(old(Current()), period)
      ensures old(runner.queue) <= runner.queue && runner.round == old(runner.round)
      ensures loopCounter % period != 0 ==> runner.queue == old(runner.queue)
      ensures loopCounter % period == 0 ==>
                Kinds(runner.queue) == Kinds(old(runner.queue)) + if old(initialized) then [Heartbeat] else [Heartbeat, StartUp]
    {
      if Due(loopCounter, period) {
        runner.Produce(Heartbeat);
        beats := beats + [loopCounter];
        if !initialized {
          initialized := true;
          runner.Produce(StartUp);
          starts := starts + [loopCounter];
        }
      }
    }
  }
}
