/** mt4/constants.py: get_candle_time, which floors a time to the start of its candle. */
module Candles {
  import opened Wrappers
  import opened Calendar

  const PERIOD_M1 := 1
  const PERIOD_M5 := 5
  const PERIOD_M15 := 15
  const PERIOD_M30 := 30
  const PERIOD_H1 := 60
  const PERIOD_H4 := 240
  const PERIOD_D1 := 1440
  const PERIOD_W1 := 10080
  const PERIOD_MN1 := 43200
  const PERIOD_CHOICES: seq<int> :=
    [PERIOD_M1, PERIOD_M5, PERIOD_M15, PERIOD_M30, PERIOD_H1, PERIOD_H4, PERIOD_D1, PERIOD_W1, PERIOD_MN1]

  /** None where the source raises NotImplementedError. */
  function GetCandleTime(time: DateTime, timeframe: int): Option<DateTime>
    requires Valid(time)
  {
    var t := time.(second := 0, microsecond := 0);
    if timeframe in {PERIOD_M1, PERIOD_M5, PERIOD_M15, PERIOD_M30} then
      Some(t.(minute := t.minute / timeframe * timeframe))
    else if timeframe in {PERIOD_H1, PERIOD_H4} then
      var hourframe := timeframe / 60;
      Some(t.(minute := 0, hour := t.hour / hourframe * hourframe))
    else if timeframe == PERIOD_D1 then
      Some(t.(hour := 0, minute := 0))
    else if timeframe == PERIOD_W1 then
      var monday := OnDay(time, Ordinal(time) - Weekday(time));
      Some(monday.(hour := 0, minute := 0, second := 0, microsecond := 0))
    else if timeframe == PERIOD_MN1 then
      Some(t.(day := 1, hour := 0, minute := 0, second := 0, microsecond := 0))
    else
      None
  }

  function Times(q: int, n: int): int {
    q * n
  }

  /** A moment at which a candle of the timeframe starts: a multiple of its length, or for
      months the first midnight of a month. */
  ghost predicate Boundary(timeframe: int, micros: int) {
    if timeframe == PERIOD_MN1 then exists k: nat :: micros == Times(MonthStart(k), DAY)
    else timeframe in PERIOD_CHOICES && exists q :: micros == Times(q, timeframe * MINUTE)
  }

  /** The latest boundary at or before the moment. */
  ghost predicate IsFloor(timeframe: int, micros: int, floor: int) {
    && Boundary(timeframe, floor) && floor <= micros
    && forall b | floor < b <= micros :: !Boundary(timeframe, b)
  }

  /** Two multiples of n that differ, differ by at least n. */
  lemma MultiplesAreApart(p: int, q: int, n: int)
    requires n > 0 && Times(p, n) < Times(q, n)
    ensures Times(p, n) + n <= Times(q, n)
  {
    if q <= p {
      TimesIsMonotone(q, p, n);
    } else {
      TimesIsMonotone(p + 1, q, n);
    }
  }

  lemma TimesIsMonotone(p: int, q: int, n: int)
    requires n > 0 && p <= q
    ensures Times(p, n) <= Times(q, n)
    ensures Times(p + 1, n) == Times(p, n) + n
  {
    assert (q - p) * n >= 0;
  }

  /** The floor is the start of candle number q of the timeframe. */
  ghost predicate StartsCandle(time: DateTime, timeframe: int, q: int)
    requires Valid(time) && timeframe in PERIOD_CHOICES
  {
    var r := GetCandleTime(time, timeframe).value;
    && Valid(r) && Micros(r) == Times(q, timeframe) * MINUTE
    && Times(q, timeframe) <= Minutes(time) < Times(q, timeframe) + timeframe
  }

  /** A whole number of candles fits into the hour. */
  lemma MinuteCandle(time: DateTime, timeframe: int, perHour: int) returns (q: int)
    requires Valid(time) && timeframe in {PERIOD_M1, PERIOD_M5, PERIOD_M15, PERIOD_M30} && perHour * timeframe == 60
    ensures StartsCandle(time, timeframe, q)
  {
    hide MonthLength, MonthStart, Times;
    assert MonthIndex(GetCandleTime(time, timeframe).value) == MonthIndex(time);
    q := Packed(Ordinal(time) * 24 + time.hour, time.minute, perHour, timeframe);
  }

  /** perWhole candles of length n make up a whole, so whole * perWhole + part / n is the
      number of the candle that holds it. */
  lemma Packed(whole: int, part: int, perWhole: int, n: int) returns (q: int)
    requires n > 0 && perWhole > 0 && part >= 0
    ensures Times(q, n) == whole * (perWhole * n) + part / n * n
    ensures 0 <= part / n * n <= part < part / n * n + n
  {
    q := whole * perWhole + part / n;
    assert Times(q, n) == whole * perWhole * n + part / n * n;
  }

  /** A whole number of candles fits into the day. */
  lemma HourCandle(time: DateTime, timeframe: int, hours: int, perDay: int) returns (q: int)
    requires Valid(time) && timeframe in {PERIOD_H1, PERIOD_H4} && timeframe == hours * 60 && perDay * hours == 24
    ensures StartsCandle(time, timeframe, q)
  {
    hide MonthLength, MonthStart;
    assert MonthIndex(GetCandleTime(time, timeframe).value) == MonthIndex(time) && timeframe / 60 == hours;
    q := Packed(Ordinal(time), time.hour, perDay, hours);
    assert Times(q, timeframe) == Times(q, hours) * 60;
  }

  lemma DayCandle(time: DateTime)
    requires Valid(time)
    ensures StartsCandle(time, PERIOD_D1, Ordinal(time))
  {
    hide MonthLength, MonthStart;
    assert MonthIndex(GetCandleTime(time, PERIOD_D1).value) == MonthIndex(time);
  }

  /** The candle time is the latest boundary not after the time, for each timeframe; other
      timeframes are refused. */
  lemma CandleTimeIsTheFloor(time: DateTime, timeframe: int)
    requires Valid(time)
    ensures GetCandleTime(time, timeframe).Some? <==> timeframe in PERIOD_CHOICES
    ensures timeframe in PERIOD_CHOICES ==>
              var r := GetCandleTime(time, timeframe).value;
              Valid(r) && IsFloor(timeframe, Micros(time), Micros(r))
  {
    if timeframe in {PERIOD_M1, PERIOD_M5, PERIOD_M15, PERIOD_M30, PERIOD_H1, PERIOD_H4, PERIOD_D1} {
      IntradayIsTheFloor(time, timeframe);
    } else if timeframe == PERIOD_W1 {
      WeekIsTheFloor(time);
    } else if timeframe == PERIOD_MN1 {
      MonthIsTheFloor(time);
    }
  }

  lemma MultipleIsTheFloor(timeframe: int, q: int, micros: int)
    requires timeframe in PERIOD_CHOICES && timeframe != PERIOD_MN1
    requires Times(q, timeframe * MINUTE) <= micros < Times(q, timeframe * MINUTE) + timeframe * MINUTE
    ensures IsFloor(timeframe, micros, Times(q, timeframe * MINUTE))
  {
    var n := timeframe * MINUTE;
    forall b | Times(q, n) < b <= micros ensures !Boundary(timeframe, b) {
      if Boundary(timeframe, b) {
        var p :| b == Times(p, n);
        MultiplesAreApart(q, p, n);
        assert false;
      }
    }
  }

  lemma IntradayIsTheFloor(time: DateTime, timeframe: int)
    requires Valid(time)
    requires timeframe in {PERIOD_M1, PERIOD_M5, PERIOD_M15, PERIOD_M30, PERIOD_H1, PERIOD_H4, PERIOD_D1}
    ensures var r := GetCandleTime(time, timeframe).value;
            Valid(r) && IsFloor(timeframe, Micros(time), Micros(r))
  {
    var q;
    if timeframe == PERIOD_M1 {
      q := MinuteCandle(time, PERIOD_M1, 60);
    } else if timeframe == PERIOD_M5 {
      q := MinuteCandle(time, PERIOD_M5, 12);
    } else if timeframe == PERIOD_M15 {
      q := MinuteCandle(time, PERIOD_M15, 4);
    } else if timeframe == PERIOD_M30 {
      q := MinuteCandle(time, PERIOD_M30, 2);
    } else if timeframe == PERIOD_H1 {
      q := HourCandle(time, PERIOD_H1, 1, 24);
    } else if timeframe == PERIOD_H4 {
      q := HourCandle(time, PERIOD_H4, 4, 6);
    } else {
      q := Ordinal(time);
      DayCandle(time);
    }
    CandleIsTheFloor(time, timeframe, q);
  }

  lemma CandleIsTheFloor(time: DateTime, timeframe: int, q: int)
    requires Valid(time) && timeframe in PERIOD_CHOICES && timeframe != PERIOD_MN1 && StartsCandle(time, timeframe, q)
    ensures IsFloor(timeframe, Micros(time), Micros(GetCandleTime(time, timeframe).value))
  {
    hide GetCandleTime, MonthLength, Minutes, IsFloor;
    assert Times(q, timeframe) * MINUTE == Times(q, timeframe * MINUTE);
    MultipleIsTheFloor(timeframe, q, Micros(time));
  }

  lemma WeekIsTheFloor(time: DateTime)
    requires Valid(time)
    ensures var r := GetCandleTime(time, PERIOD_W1).value;
            Valid(r) && IsFloor(PERIOD_W1, Micros(time), Micros(r))
  {
    hide MonthLength, MonthStart;
    var monday := OnDay(time, Ordinal(time) - Weekday(time));
    var r := GetCandleTime(time, PERIOD_W1).value;
    assert MonthIndex(r) == MonthIndex(monday) && Valid(r);
    assert Ordinal(r) == Ordinal(monday) == Ordinal(time) / 7 * 7;
    var q := Ordinal(time) / 7;
    CandleIsTheFloor(time, PERIOD_W1, q);
  }

  lemma MonthIsTheFloor(time: DateTime)
    requires Valid(time)
    ensures var r := GetCandleTime(time, PERIOD_MN1).value;
            Valid(r) && IsFloor(PERIOD_MN1, Micros(time), Micros(r))
  {
    hide IsFloor, Times, Micros, MonthStart, MonthLength, MonthIndex, GetCandleTime;
    MonthGiven(time);
    MonthFields(time);
    MonthHolds(MonthIndex(time), Micros(time));
  }

  lemma MonthGiven(time: DateTime)
    requires Valid(time)
    ensures GetCandleTime(time, PERIOD_MN1).Some?
  {
  }

  lemma MonthHolds(index: nat, micros: int)
    requires Times(MonthStart(index), DAY) <= micros < Times(MonthStart(index + 1), DAY)
    ensures IsFloor(PERIOD_MN1, micros, Times(MonthStart(index), DAY))
  {
    StartsMonth(index);
    hide Boundary, Times;
    forall b | Times(MonthStart(index), DAY) < b <= micros ensures !Boundary(PERIOD_MN1, b) {
      NoMonthStartsBetween(index, b, micros);
    }
  }

  lemma StartsMonth(index: nat)
    ensures Boundary(PERIOD_MN1, Times(MonthStart(index), DAY))
  {
  }

  lemma NoMonthStartsBetween(index: nat, b: int, micros: int)
    requires Times(MonthStart(index), DAY) < b <= micros < Times(MonthStart(index + 1), DAY)
    ensures !Boundary(PERIOD_MN1, b)
  {
    hide MonthStart;
    if Boundary(PERIOD_MN1, b) {
      var k: nat :| b == Times(MonthStart(k), DAY);
      if k <= index {
        MonthsAscend(k, index);
      } else {
        MonthsAscend(index + 1, k);
      }
      assert false;
    }
  }

  lemma MonthFields(time: DateTime)
    requires Valid(time)
    ensures var r := GetCandleTime(time, PERIOD_MN1).value;
            && Valid(r) && Micros(r) == Times(MonthStart(MonthIndex(time)), DAY) <= Micros(time)
            && Micros(time) < Times(MonthStart(MonthIndex(time) + 1), DAY)
  {
    hide Micros, MonthIndex, MonthStart, Ordinal;
    FirstOfMonth(time);
    var r := GetCandleTime(time, PERIOD_MN1).value;
    OnTheDay(r, Ordinal(r));
    OnTheDay(time, Ordinal(time));
  }

  lemma OnTheDay(t: DateTime, ordinal: nat)
    requires Valid(t) && Ordinal(t) == ordinal
    ensures Times(ordinal, DAY) <= Micros(t) < Times(ordinal + 1, DAY)
    ensures t.hour == t.minute == t.second == t.microsecond == 0 ==> Micros(t) == Times(ordinal, DAY)
  {
    hide Ordinal;
  }

  lemma FirstOfMonth(time: DateTime)
    requires Valid(time)
    ensures var r := GetCandleTime(time, PERIOD_MN1).value;
            && Valid(r) && Ordinal(r) == MonthStart(MonthIndex(time)) && r.hour == r.minute == r.second == r.microsecond == 0
            && MonthStart(MonthIndex(time)) <= Ordinal(time) < MonthStart(MonthIndex(time) + 1)
  {
    hide MonthLength;
    var r, index := GetCandleTime(time, PERIOD_MN1).value, MonthIndex(time);
    assert MonthIndex(r) == index;
    assert MonthStart(index + 1) == MonthStart(index) + MonthLength(index);
  }

  const A_MOMENT := DateTime(2019, 5, 8, 13, 47, 31, 500000)

  /** The nine candles of one moment, a Wednesday in May: */
  lemma CandlesOfOneMoment()
    ensures Valid(A_MOMENT)
    ensures GetCandleTime(A_MOMENT, 1) == Some(DateTime(2019, 5, 8, 13, 47, 0, 0))
    ensures GetCandleTime(A_MOMENT, 5) == Some(DateTime(2019, 5, 8, 13, 45, 0, 0))
    ensures GetCandleTime(A_MOMENT, 15) == Some(DateTime(2019, 5, 8, 13, 45, 0, 0))
    ensures GetCandleTime(A_MOMENT, 30) == Some(DateTime(2019, 5, 8, 13, 30, 0, 0))
    ensures GetCandleTime(A_MOMENT, 60) == Some(DateTime(2019, 5, 8, 13, 0, 0, 0))
    ensures GetCandleTime(A_MOMENT, 240) == Some(DateTime(2019, 5, 8, 12, 0, 0, 0))
    ensures GetCandleTime(A_MOMENT, 1440) == Some(DateTime(2019, 5, 8, 0, 0, 0, 0))
    ensures GetCandleTime(A_MOMENT, 43200) == Some(DateTime(2019, 5, 1, 0, 0, 0, 0))
  {
    hide MonthStart, MonthOf, Ordinal;
  }

  /** and its week, which began on Monday the 6th. */
  lemma WeekOfOneMoment()
    ensures Valid(A_MOMENT) && GetCandleTime(A_MOMENT, 10080) == Some(DateTime(2019, 5, 6, 0, 0, 0, 0))
  {
    var monday := A_MOMENT.(day := 6);
    hide MonthStart, MonthOf;
    NumbersOfDays();
    hide Ordinal, OnDay;
    SameDay(A_MOMENT, monday);
  }

  lemma NumbersOfDays()
    ensures Valid(A_MOMENT) && Ordinal(A_MOMENT) == 737186
    ensures Valid(A_MOMENT.(day := 6)) && Ordinal(A_MOMENT.(day := 6)) == 737184
  {
    hide MonthStart, Ordinal;
    OrdinalIsGregorian(A_MOMENT);
    OrdinalIsGregorian(A_MOMENT.(day := 6));
  }

  /** A day is found again by its number. */
  lemma SameDay(t: DateTime, day: DateTime)
    requires Valid(t) && Valid(day)
    requires day.hour == t.hour && day.minute == t.minute && day.second == t.second && day.microsecond == t.microsecond
    ensures OnDay(t, Ordinal(day)) == day
  {
    hide Ordinal, OnDay;
    MicrosAreInjective(OnDay(t, Ordinal(day)), day);
  }

  // ----- what follows from flooring to nested boundaries

  predicate Supported(timeframe: int) {
    timeframe in PERIOD_CHOICES
  }

  function Floor(time: DateTime, timeframe: int): (r: DateTime)
    requires Valid(time) && Supported(timeframe)
    ensures Valid(r)
  {
    CandleTimeIsTheFloor(time, timeframe);
    GetCandleTime(time, timeframe).value
  }

  /** Every boundary of the coarse timeframe is one of the fine timeframe. */
  predicate Nests(fine: int, coarse: int) {
    && fine in PERIOD_CHOICES && coarse in PERIOD_CHOICES && fine <= coarse
    && (fine == PERIOD_W1 ==> coarse == PERIOD_W1)
  }

  lemma BoundariesNest(fine: int, coarse: int, micros: int)
    requires Nests(fine, coarse) && Boundary(coarse, micros)
    ensures Boundary(fine, micros)
  {
    if coarse == PERIOD_MN1 {
      var k: nat :| micros == Times(MonthStart(k), DAY);
      if fine != PERIOD_MN1 {
        MultiplesNest(fine, PERIOD_D1, MonthStart(k));
      }
    } else {
      var q :| micros == Times(q, coarse * MINUTE);
      MultiplesNest(fine, coarse, q);
    }
  }

  lemma MultiplesNest(fine: int, coarse: int, q: int)
    requires fine in PERIOD_CHOICES && coarse in PERIOD_CHOICES && fine <= coarse <= PERIOD_W1
    ensures Boundary(fine, Times(q, coarse * MINUTE))
  {
    var n :| n in {1, 2, 3, 4, 5, 6, 7, 8, 12, 15, 16, 24, 30, 42, 48, 60, 96, 168, 240, 288, 336, 672, 1440, 2016, 10080} && n * fine == coarse;
    Regroup(q, n, fine);
    assert Times(q, coarse * MINUTE) == Times(q * n, fine * MINUTE);
  }

  lemma Regroup(q: int, n: int, fine: int)
    ensures Times(q, n * fine * MINUTE) == Times(q * n, fine * MINUTE)
  {
  }

  /** Flooring is idempotent, never later than the input and monotone. */
  lemma FloorLaws(a: DateTime, b: DateTime, timeframe: int)
    requires Valid(a) && Valid(b) && Supported(timeframe)
    ensures Floor(Floor(a, timeframe), timeframe) == Floor(a, timeframe)
    ensures Micros(Floor(a, timeframe)) <= Micros(a)
    ensures Micros(a) <= Micros(b) ==> Micros(Floor(a, timeframe)) <= Micros(Floor(b, timeframe))
  {
    hide Boundary, Micros;
    var f := Floor(a, timeframe);
    CandleTimeIsTheFloor(a, timeframe);
    CandleTimeIsTheFloor(b, timeframe);
    CandleTimeIsTheFloor(f, timeframe);
    MicrosAreInjective(Floor(f, timeframe), f);
  }

  /** Flooring to the finer timeframe first makes no difference to the coarser floor. */
  lemma FloorsNest(time: DateTime, fine: int, coarse: int)
    requires Valid(time) && Nests(fine, coarse)
    ensures Floor(Floor(time, fine), coarse) == Floor(time, coarse)
  {
    hide Boundary, Micros;
    var f, c := Floor(time, fine), Floor(time, coarse);
    var d := Floor(f, coarse);
    CandleTimeIsTheFloor(time, fine);
    CandleTimeIsTheFloor(time, coarse);
    CandleTimeIsTheFloor(f, coarse);
    BoundariesNest(fine, coarse, Micros(c));
    BoundariesNest(fine, coarse, Micros(d));
    assert Micros(c) <= Micros(f);
    MicrosAreInjective(d, c);
  }
}
