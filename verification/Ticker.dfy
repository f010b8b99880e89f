/** event/handler.py: TimeFrameTicker, which puts an event whenever a candle has ended. */
module Tickers {
  import opened Calendar
  import opened Candles

  datatype TimeFrameEvent = TimeFrameEvent(timeframe: int, currentTime: DateTime, previous: DateTime)

  type CandleTimes = map<int, DateTime>

  ghost predicate Tracks(candles: CandleTimes) {
    && candles.Keys == (set f <- PERIOD_CHOICES)
    && forall f <- candles :: Supported(f) && Valid(candles[f])
  }

  /** Every candle time is the floor of one and the same moment. */
  ghost predicate InStep(candles: CandleTimes, time: DateTime)
    requires Valid(time)
  {
    Tracks(candles) && forall f <- candles :: candles[f] == Floor(time, f)
  }

  /** The event of one timeframe at the given moment, if its candle is another than before. */
  function EventFor(previous: DateTime, timeframe: int, now: DateTime): seq<TimeFrameEvent>
    requires Valid(now) && Supported(timeframe)
  {
    var next := Floor(now, timeframe);
    if previous == next then [] else [TimeFrameEvent(timeframe, next, previous)]
  }

  ghost predicate Covers(candles: CandleTimes, frames: seq<int>) {
    forall i | 0 <= i < |frames| :: Supported(frames[i]) && frames[i] in candles
  }

  /** The events of the given timeframes, in that order. */
  function EventsOver(candles: CandleTimes, now: DateTime, frames: seq<int>): seq<TimeFrameEvent>
    requires Valid(now) && Covers(candles, frames)
  {
    if frames == [] then [] else
    EventFor(candles[frames[0]], frames[0], now) + EventsOver(candles, now, frames[1..])
  }

  function EventsOf(candles: CandleTimes, now: DateTime): seq<TimeFrameEvent>
    requires Valid(now) && Covers(candles, PERIOD_CHOICES)
  {
    EventsOver(candles, now, PERIOD_CHOICES)
  }

  ghost predicate Distinct(frames: seq<int>) {
    forall i, j | 0 <= i < j < |frames| :: frames[i] != frames[j]
  }

  function FloorAll(now: DateTime): (candles: CandleTimes)
    requires Valid(now)
    ensures InStep(candles, now)
  {
    map f | f in (set f <- PERIOD_CHOICES) :: Floor(now, f)
  }

  class TimeFrameTicker {
    var candleTime: CandleTimes
    var queue: seq<TimeFrameEvent>

    constructor (now: DateTime)
      requires Valid(now)
      ensures InStep(candleTime, now) && queue == []
    {
      var candles: CandleTimes := map[];
      for i := 0 to |PERIOD_CHOICES|
        invariant candles.Keys == (set f <- PERIOD_CHOICES[..i])
        invariant forall f <- candles :: Supported(f) && candles[f] == Floor(now, f)
      {
        CandleTimeIsTheFloor(now, PERIOD_CHOICES[i]);
        candles := candles[PERIOD_CHOICES[i] := GetCandleTime(now, PERIOD_CHOICES[i]).value];
      }
      assert PERIOD_CHOICES[..|PERIOD_CHOICES|] == PERIOD_CHOICES;
      candleTime := candles;
      queue := [];
    }

    /** `now` is what the clock says during the call. */
    method Process(now: DateTime)
      requires Valid(now) && Tracks(candleTime)
      modifies this
      ensures InStep(candleTime, now)
      ensures queue == old(queue) + EventsOf(old(candleTime), now)
    {
      ProcessFrames(now, PERIOD_CHOICES);
      forall f | f in candleTime ensures candleTime[f] == Floor(now, f) {
        var i :| 0 <= i < |PERIOD_CHOICES| && PERIOD_CHOICES[i] == f;
      }
    }

    /** The loop in process, over the given timeframes. */
    method ProcessFrames(now: DateTime, frames: seq<int>)
      requires Valid(now) && Distinct(frames) && Covers(candleTime, frames)
      modifies this
      ensures candleTime.Keys == old(candleTime).Keys
      ensures forall j | 0 <= j < |frames| :: candleTime[frames[j]] == Floor(now, frames[j])
      ensures queue == old(queue) + EventsOver(old(candleTime), now, frames)
    {
      hide Floor, Supported, EventFor;
      ghost var before := candleTime;
      assert frames[0..] == frames;
      for i := 0 to |frames|
        invariant candleTime.Keys == before.Keys
        invariant forall j | 0 <= j < i :: candleTime[frames[j]] == Floor(now, frames[j])
        invariant forall j | i <= j < |frames| :: candleTime[frames[j]] == before[frames[j]]
        invariant queue + EventsOver(before, now, frames[i..]) == old(queue) + EventsOver(before, now, frames)
      {
        ghost var sent := queue;
        assert frames[i..][0] == frames[i] && frames[i..][1..] == frames[i + 1..];
        TickOne(now, frames[i]);
        assert sent + (EventFor(before[frames[i]], frames[i], now) + EventsOver(before, now, frames[i + 1..]))
            == queue + EventsOver(before, now, frames[i + 1..]);
      }
    }

    /** The body of the loop in process. */
    method TickOne(now: DateTime, timeframe: int)
      requires Valid(now) && Supported(timeframe) && timeframe in candleTime
      modifies this
      ensures candleTime == old(candleTime)[timeframe := Floor(now, timeframe)]
      ensures queue == old(queue) + EventFor(old(candleTime)[timeframe], timeframe, now)
    {
      CandleTimeIsTheFloor(now, timeframe);
      var next := GetCandleTime(now, timeframe).value;
      if candleTime[timeframe] != next {
        queue := queue + [TimeFrameEvent(timeframe, next, candleTime[timeframe])];
        candleTime := candleTime[timeframe := next];
      }
    }
  }

  // ----- runs over a clock

  /** The queue after the ticker has processed one event at each moment of the clock. */
  function Run(candles: CandleTimes, clock: seq<DateTime>): seq<TimeFrameEvent>
    requires (Covers(candles, PERIOD_CHOICES)) && forall t <- clock :: Valid(t)
    decreases clock
  {
    if clock == [] then [] else EventsOf(candles, clock[0]) + Run(FloorAll(clock[0]), clock[1..])
  }

  function Only(events: seq<TimeFrameEvent>, timeframe: int): seq<TimeFrameEvent> {
    if events == [] then []
    else (if events[0].timeframe == timeframe then [events[0]] else []) + Only(events[1..], timeframe)
  }

  /** Adding a chain's first event. */
  lemma ChainFrom(call: seq<TimeFrameEvent>, rest: seq<TimeFrameEvent>, start: DateTime, middle: DateTime, end: DateTime)
    requires Unbroken(rest, middle, end)
    requires if call == [] then start == middle
             else |call| == 1 && call[0].previous == start && call[0].currentTime == middle
    ensures Unbroken(call + rest, start, end)
    ensures (forall e <- call + rest :: e in call || e in rest)
  {
    if call == [] {
      assert call + rest == rest;
    } else {
      assert (call + rest)[0] == call[0] && (call + rest)[1..] == rest;
    }
  }

  lemma {:induction false} OnlyConcat(a: seq<TimeFrameEvent>, b: seq<TimeFrameEvent>, timeframe: int)
    ensures Only(a + b, timeframe) == Only(a, timeframe) + Only(b, timeframe)
  {
    if a == [] {
      assert a + b == b;
    } else {
      var first := if a[0].timeframe == timeframe then [a[0]] else [];
      OnlyConcat(a[1..], b, timeframe);
      assert (a + b)[0] == a[0] && (a + b)[1..] == a[1..] + b;
      assert Only(a + b, timeframe) == first + Only(a[1..] + b, timeframe);
      assert first + (Only(a[1..], timeframe) + Only(b, timeframe)) == (first + Only(a[1..], timeframe)) + Only(b, timeframe);
    }
  }

  lemma {:induction false} OnlyOver(candles: CandleTimes, now: DateTime, frames: seq<int>, timeframe: int)
    requires Valid(now) && Distinct(frames) && Covers(candles, frames)
    ensures Only(EventsOver(candles, now, frames), timeframe)
         == if timeframe in frames then EventFor(candles[timeframe], timeframe, now) else []
  {
    hide Floor, Supported;
    if frames != [] {
      var f := frames[0];
      OnlyOver(candles, now, frames[1..], timeframe);
      OnlyConcat(EventFor(candles[f], f, now), EventsOver(candles, now, frames[1..]), timeframe);
      assert frames == [f] + frames[1..] && f !in frames[1..];
    }
  }

  /** One call puts at most one event of a timeframe: exactly when its candle has changed. */
  lemma OneEventPerCall(candles: CandleTimes, now: DateTime, timeframe: int)
    requires Valid(now) && Supported(timeframe) && Covers(candles, PERIOD_CHOICES)
    ensures Only(EventsOf(candles, now), timeframe) == EventFor(candles[timeframe], timeframe, now)
  {
    OnlyOver(candles, now, PERIOD_CHOICES, timeframe);
  }

  /** Each event takes up where the one before it left off, the first at `start`, the last
      leading to `end`. */
  ghost predicate Unbroken(events: seq<TimeFrameEvent>, start: DateTime, end: DateTime) {
    if events == [] then start == end
    else events[0].previous == start && Unbroken(events[1..], events[0].currentTime, end)
  }

  ghost predicate Ascending(events: seq<TimeFrameEvent>) {
    forall e <- events :: Valid(e.previous) && Valid(e.currentTime) && Micros(e.previous) < Micros(e.currentTime)
  }

  ghost predicate NonDecreasing(start: DateTime, clock: seq<DateTime>)
    requires Valid(start) && forall t <- clock :: Valid(t)
    decreases clock
  {
    clock == [] || (Micros(start) <= Micros(clock[0]) && NonDecreasing(clock[0], clock[1..]))
  }

  function LastOf(start: DateTime, clock: seq<DateTime>): DateTime {
    if clock == [] then start else clock[|clock| - 1]
  }

  /** The event of one call leads from the old candle to the new one; forward, if the clock
      has not gone back. */
  lemma CallMovesOn(start: DateTime, now: DateTime, timeframe: int)
    requires Valid(start) && Valid(now) && Supported(timeframe)
    ensures Micros(start) <= Micros(now) ==> Ascending(EventFor(Floor(start, timeframe), timeframe, now))
  {
    hide Floor, Micros;
    FloorLaws(start, now, timeframe);
    if Micros(Floor(start, timeframe)) == Micros(Floor(now, timeframe)) {
      MicrosAreInjective(Floor(start, timeframe), Floor(now, timeframe));
    }
  }

  lemma RunSplits(candles: CandleTimes, clock: seq<DateTime>, timeframe: int)
    requires Covers(candles, PERIOD_CHOICES) && (forall t <- clock :: Valid(t)) && clock != [] && Supported(timeframe)
    ensures Only(Run(candles, clock), timeframe)
         == EventFor(candles[timeframe], timeframe, clock[0]) + Only(Run(FloorAll(clock[0]), clock[1..]), timeframe)
  {
    OneEventPerCall(candles, clock[0], timeframe);
    OnlyConcat(EventsOf(candles, clock[0]), Run(FloorAll(clock[0]), clock[1..]), timeframe);
  }

  /** Over any clock the events of a timeframe form an unbroken chain from the candle at the
      start to the candle of the last moment; over a clock that never goes back, each of them
      leads strictly forward. */
  lemma {:induction false} EventsFormAChain(start: DateTime, candles: CandleTimes, clock: seq<DateTime>, timeframe: int)
    requires Valid(start) && InStep(candles, start) && (forall t <- clock :: Valid(t)) && Supported(timeframe)
    ensures Valid(LastOf(start, clock))
    ensures Unbroken(Only(Run(candles, clock), timeframe), candles[timeframe], Floor(LastOf(start, clock), timeframe))
    ensures NonDecreasing(start, clock) ==> Ascending(Only(Run(candles, clock), timeframe))
    decreases clock
  {
    if clock != [] {
      var now := clock[0];
      RunSplits(candles, clock, timeframe);
      hide Floor, Micros, Run, Only, EventFor, Supported;
      var call, rest := EventFor(candles[timeframe], timeframe, now), Only(Run(FloorAll(now), clock[1..]), timeframe);
      EventsFormAChain(now, FloorAll(now), clock[1..], timeframe);
      CallMovesOn(start, now, timeframe);
      ChainFrom(call, rest, Floor(start, timeframe), Floor(now, timeframe), Floor(LastOf(start, clock), timeframe));
    }
  }

  /** A call that puts an event of a coarse timeframe puts one of every timeframe it nests. */
  lemma CoarseComesWithFine(start: DateTime, candles: CandleTimes, now: DateTime, fine: int, coarse: int)
    requires Valid(start) && Valid(now) && InStep(candles, start) && Nests(fine, coarse)
    requires Only(EventsOf(candles, now), coarse) != []
    ensures Only(EventsOf(candles, now), fine) == [TimeFrameEvent(fine, Floor(now, fine), Floor(start, fine))]
  {
    OneEventPerCall(candles, now, fine);
    OneEventPerCall(candles, now, coarse);
    if Floor(start, fine) == Floor(now, fine) {
      FloorsNest(start, fine, coarse);
      FloorsNest(now, fine, coarse);
    }
  }
}
