/** What the handlers of the live runner put on its queue, and that it is always of lower rank
    than what they handle: ticks and heartbeats lead to timeframes, these to signals, and a
    signal to an opened trade. */
module Cascades {
  import opened Wrappers
  import opened Calendar
  import opened Candles
  import opened Runners
  import Tickers

  function Times(kind: EventType, n: nat): seq<EventType> {
    seq(n, _ => kind)
  }

  /** event/handler.py: what TimeFrameTicker puts for a tick or a heartbeat, by its state and the
      time of the call. */
  function TickerReply(candles: Tickers.CandleTimes, now: DateTime): Reply
    requires Valid(now) && Tickers.Covers(candles, PERIOD_CHOICES)
  {
    Reply(false, Times(TimeFrame, |Tickers.EventsOf(candles, now)|))
  }

  /** strategy/base.py: a strategy that is interested in the event looks at each of its pairs;
      `decisions` says for each whether it signals. */
  function StrategyReply(kind: EventType, listens: bool, decisions: seq<bool>): Reply {
    Reply(false, if (kind == TimeFrame && listens) || kind == OrderHolding || kind == StartUp then Signals(decisions) else [])
  }

  function Signals(decisions: seq<bool>): seq<EventType> {
    if decisions == [] then []
    else (if decisions[0] then [EventType.Signal] else []) + Signals(decisions[1..])
  }

  datatype Action = Open | Close | Update

  /** What the execution handler finds out about a signal: whether it is valid, whether such a
      trade is open already, the spread in pips, the lots it may trade, and whether the broker
      takes the order. */
  datatype Findings = Findings(valid: bool, held: bool, spread: Option<real>, lots: real, filled: bool)

  /** execution/execution.py: open returns true for a spread that is too large. */
  function OpenReply(f: Findings): Reply {
    if !f.valid || f.held then Reply(false, [])
    else if f.spread.None? || f.spread.value == 0.0 then Reply(false, [])
    else if f.spread.value > 3.0 then Reply(true, [])
    else if f.lots == 0.0 || !f.filled then Reply(false, [])
    else Reply(false, [TradeOpen])
  }

  /** process does not pass on what open returns. */
  function ExecutionReply(action: Action, f: Findings): Reply {
    Reply(false, if action == Open then OpenReply(f).puts else [])
  }

  lemma {:induction false} OnePerFrame(candles: Tickers.CandleTimes, now: DateTime, frames: seq<int>)
    requires Valid(now) && Tickers.Covers(candles, frames)
    ensures |Tickers.EventsOver(candles, now, frames)| <= |frames|
  {
    hide Floor;
    if frames != [] {
      OnePerFrame(candles, now, frames[1..]);
    }
  }

  lemma {:induction false} OnePerPair(decisions: seq<bool>)
    ensures |Signals(decisions)| <= |decisions| && forall p <- Signals(decisions) :: p == EventType.Signal
  {
    if decisions != [] {
      OnePerPair(decisions[1..]);
    }
  }

  /** The program's handlers behave: the ticker puts at most nine events, a strategy at most one
      for each pair, the execution handler at most one, each of lower rank than the event. */
  lemma TickerMayPut(candles: Tickers.CandleTimes, now: DateTime, kind: EventType)
    requires Valid(now) && Tickers.Covers(candles, PERIOD_CHOICES) && kind in {Heartbeat, TickPrice}
    ensures MayPut(9, kind, TickerReply(candles, now).puts)
  {
    OnePerFrame(candles, now, PERIOD_CHOICES);
  }

  lemma StrategyMayPut(kind: EventType, listens: bool, decisions: seq<bool>)
    ensures MayPut(|decisions|, kind, StrategyReply(kind, listens, decisions).puts)
  {
    OnePerPair(decisions);
  }

  lemma ExecutionMayPut(action: Action, f: Findings)
    ensures MayPut(1, EventType.Signal, ExecutionReply(action, f).puts)
  {
  }

  /** A trade is opened exactly for a valid signal to open that is not held yet, at a spread that
      is known, not zero and no more than 3, for some lots, if the broker fills the order. */
  lemma OpensExactlyIf(action: Action, f: Findings)
    ensures ExecutionReply(action, f).puts ==
      if action == Open && f.valid && !f.held && f.spread.Some? && f.spread.value != 0.0 && f.spread.value <= 3.0
         && f.lots != 0.0 && f.filled
      then [TradeOpen] else []
  {
  }

  /** A strategy puts one signal for each of its pairs for which it decides to, if it looks at them
      at all: for a timeframe it listens to, and always for held orders and at the start. */
  lemma {:induction false} OneSignalPerDecision(kind: EventType, listens: bool, decisions: seq<bool>)
    ensures |StrategyReply(kind, listens, decisions).puts|
         == if (kind == TimeFrame && listens) || kind == OrderHolding || kind == StartUp then multiset(decisions)[true] else 0
  {
    CountsDecisions(decisions);
  }

  lemma {:induction false} CountsDecisions(decisions: seq<bool>)
    ensures |Signals(decisions)| == multiset(decisions)[true]
  {
    if decisions != [] {
      CountsDecisions(decisions[1..]);
      assert decisions == [decisions[0]] + decisions[1..];
    }
  }

  /** The ticker puts a timeframe event for each of the timeframes whose candle has changed. */
  lemma {:induction false} OnePerChange(candles: Tickers.CandleTimes, now: DateTime, frames: seq<int>)
    requires Valid(now) && Tickers.Covers(candles, frames)
    ensures |Tickers.EventsOver(candles, now, frames)| == |Changed(candles, now, frames)|
  {
    hide Floor;
    if frames != [] {
      OnePerChange(candles, now, frames[1..]);
    }
  }

  function Changed(candles: Tickers.CandleTimes, now: DateTime, frames: seq<int>): seq<int>
    requires Valid(now) && Tickers.Covers(candles, frames)
  {
    if frames == [] then []
    else (if candles[frames[0]] != Floor(now, frames[0]) then [frames[0]] else []) + Changed(candles, now, frames[1..])
  }

  lemma TickerPutsForChanges(candles: Tickers.CandleTimes, now: DateTime)
    requires Valid(now) && Tickers.Covers(candles, PERIOD_CHOICES)
    ensures |TickerReply(candles, now).puts| == |Changed(candles, now, PERIOD_CHOICES)|
    ensures forall p <- TickerReply(candles, now).puts :: p == TimeFrame
  {
    OnePerChange(candles, now, PERIOD_CHOICES);
  }

  /** Open wants the signal put back. */
  predicate WantsItBack(action: Action, f: Findings) {
    action == Open && f.valid && !f.held && f.spread.Some? && f.spread.value > 3.0
  }

  /** What open says of putting the signal back reaches the runner if and only if open does not
      want it back: the runner is never asked, and a signal that should be is lost. */
  lemma PutBackIsKeptIff(action: Action, f: Findings)
    ensures ExecutionReply(action, f).again == (action == Open && OpenReply(f).again) <==> !WantsItBack(action, f)
    ensures WantsItBack(action, f) ==> ExecutionReply(action, f) == Reply(false, [])
  {
  }

  /** A signal met by too large a spread is neither traded nor asked for again. */
  lemma WideSpreadIsLost(f: Findings)
    requires f.valid && !f.held && f.spread.Some? && f.spread.value > 3.0
    ensures OpenReply(f).again
    ensures !ExecutionReply(Open, f).again && ExecutionReply(Open, f).puts == []
  {
    PutBackIsKeptIff(Open, f);
  }

  // ----- the program's handlers together

  /** The ticker, a strategy with so many pairs, and the execution handler, as they subscribe. */
  function Program(pairs: nat): seq<Handler> {
    [Handler(9, {Heartbeat, TickPrice}, false),
     Handler(pairs, {TimeFrame, OrderHolding, StartUp}, false),
     Handler(1, {EventType.Signal}, false)]
  }

  ghost predicate IsTickerReply(r: Reply) {
    exists candles, now :: Valid(now) && Tickers.Covers(candles, PERIOD_CHOICES) && r.puts == TickerReply(candles, now).puts
  }

  ghost predicate IsStrategyReply(r: Reply, kind: EventType, pairs: nat) {
    exists listens, decisions: seq<bool> :: |decisions| == pairs && r.puts == StrategyReply(kind, listens, decisions).puts
  }

  ghost predicate IsExecutionReply(r: Reply) {
    exists action, f :: r.puts == ExecutionReply(action, f).puts
  }

  /** Each handler puts what its code puts; whether it asks for the event again is left open. */
  ghost predicate Plays(oracle: Oracle, pairs: nat) {
    && (forall kind, n: nat | kind in {Heartbeat, TickPrice} :: IsTickerReply(oracle(kind, n, 0)))
    && (forall kind, n: nat | kind in {TimeFrame, OrderHolding, StartUp} :: IsStrategyReply(oracle(kind, n, 1), kind, pairs))
    && (forall n: nat :: IsExecutionReply(oracle(EventType.Signal, n, 2)))
  }

  /** Each kind of event is handled by the one handler that is there for it, and by no other. */
  lemma ProgramIsCalled(oracle: Oracle, pairs: nat, kind: EventType, n: nat)
    ensures Put(Program(pairs), oracle, kind, n, 0)
         == match kind
            case Heartbeat | TickPrice => oracle(kind, n, 0).puts
            case TimeFrame | OrderHolding | StartUp => oracle(kind, n, 1).puts
            case Signal => oracle(kind, n, 2).puts
            case _ => []
  {
    var handlers := Program(pairs);
    var third := Put(handlers, oracle, kind, n, 2);
    assert Put(handlers, oracle, kind, n, 3) == [];
    assert third == if kind.Signal? then oracle(kind, n, 2).puts else [];
    assert Put(handlers, oracle, kind, n, 1) == (if kind in {TimeFrame, OrderHolding, StartUp} then oracle(kind, n, 1).puts else []) + third;
  }

  /** So the handlers of the program meet what the draining of the queue asks of handlers. */
  lemma ProgramBehaves(oracle: Oracle, pairs: nat)
    requires Plays(oracle, pairs)
    ensures AlwaysBehave(Program(pairs), oracle)
  {
    forall e: Event, n: nat, i | 0 <= i < 3 && e.kind in Program(pairs)[i].subscription
      ensures MayPut(Program(pairs)[i].fan, e.kind, oracle(e.kind, n, i).puts)
    {
      if i == 0 {
        TickerBehaves(oracle(e.kind, n, 0), e.kind);
      } else if i == 1 {
        StrategyBehaves(oracle(e.kind, n, 1), e.kind, pairs);
      } else {
        ExecutionBehaves(oracle(e.kind, n, 2));
      }
    }
  }

  lemma TickerBehaves(r: Reply, kind: EventType)
    requires IsTickerReply(r) && kind in {Heartbeat, TickPrice}
    ensures MayPut(9, kind, r.puts)
  {
    var candles, now :| Valid(now) && Tickers.Covers(candles, PERIOD_CHOICES) && r.puts == TickerReply(candles, now).puts;
    TickerMayPut(candles, now, kind);
  }

  lemma StrategyBehaves(r: Reply, kind: EventType, pairs: nat)
    requires IsStrategyReply(r, kind, pairs)
    ensures MayPut(pairs, kind, r.puts)
  {
    var listens, decisions: seq<bool> :| |decisions| == pairs && r.puts == StrategyReply(kind, listens, decisions).puts;
    StrategyMayPut(kind, listens, decisions);
  }

  lemma ExecutionBehaves(r: Reply)
    requires IsExecutionReply(r)
    ensures MayPut(1, EventType.Signal, r.puts)
  {
    var action, f :| r.puts == ExecutionReply(action, f).puts;
    ExecutionMayPut(action, f);
  }
}
