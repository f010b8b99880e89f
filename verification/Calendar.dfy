/** Python's datetime: civil fields, their order on the time line, and whole-day arithmetic. */
module Calendar {

  datatype DateTime = DateTime(year: int, month: int, day: int, hour: int, minute: int, second: int, microsecond: int)

  predicate IsLeap(year: int) {
    year % 4 == 0 && (year % 100 != 0 || year % 400 == 0)
  }

  /** Days of the month with the given index, counted from January of year 1. */
  function MonthLength(index: nat): (n: nat)
    ensures 28 <= n <= 31
  {
    var year, month := index / 12 + 1, index % 12 + 1;
    if month == 2 then (if IsLeap(year) then 29 else 28)
    else if month in {4, 6, 9, 11} then 30 else 31
  }

  /** Days before the first of the month, counted from 1 January of year 1, a Monday. */
  function MonthStart(index: nat): (n: nat)
    ensures n >= index
  {
    if index == 0 then 0 else MonthStart(index - 1) + MonthLength(index - 1)
  }

  function MonthIndex(t: DateTime): nat
    requires t.year >= 1 && 1 <= t.month <= 12
  {
    12 * (t.year - 1) + t.month - 1
  }

  predicate Valid(t: DateTime) {
    && t.year >= 1 && 1 <= t.month <= 12 && 1 <= t.day <= MonthLength(MonthIndex(t))
    && 0 <= t.hour < 24 && 0 <= t.minute < 60 && 0 <= t.second < 60 && 0 <= t.microsecond < 1000000
  }

  /** The day's number; day 0 is a Monday, so its weekday is the number modulo 7. */
  function Ordinal(t: DateTime): nat
    requires Valid(t)
  {
    MonthStart(MonthIndex(t)) + t.day - 1
  }

  function Weekday(t: DateTime): nat
    requires Valid(t)
  {
    Ordinal(t) % 7
  }

  const MINUTE := 60000000
  const DAY := 1440 * MINUTE

  /** Whole minutes before t. */
  function Minutes(t: DateTime): int
    requires Valid(t)
  {
    Ordinal(t) * 1440 + t.hour * 60 + t.minute
  }

  /** Microseconds before t: datetimes compare as these numbers do. */
  function Micros(t: DateTime): int
    requires Valid(t)
  {
    Minutes(t) * MINUTE + t.second * 1000000 + t.microsecond
  }

  /** The month that holds the day, searched from month k. */
  function MonthOf(ordinal: nat, k: nat): (index: nat)
    requires MonthStart(k) <= ordinal
    ensures MonthStart(index) <= ordinal < MonthStart(index + 1)
    decreases ordinal - k
  {
    if ordinal < MonthStart(k + 1) then k else MonthOf(ordinal, k + 1)
  }

  /** The same time of day on the day with the given number. */
  function OnDay(t: DateTime, ordinal: nat): (r: DateTime)
    requires Valid(t)
    ensures Valid(r) && Ordinal(r) == ordinal
    ensures r.hour == t.hour && r.minute == t.minute && r.second == t.second && r.microsecond == t.microsecond
  {
    var index := MonthOf(ordinal, 0);
    var r := t.(year := index / 12 + 1, month := index % 12 + 1, day := ordinal - MonthStart(index) + 1);
    assert MonthIndex(r) == index;
    r
  }

  lemma {:induction false} MonthsAscend(i: nat, j: nat)
    requires i <= j
    ensures MonthStart(i) + 28 * (j - i) <= MonthStart(j)
  {
    if i < j {
      MonthsAscend(i, j - 1);
    }
  }

  lemma OneMonthOn(index: nat)
    ensures MonthStart(index + 1) == MonthStart(index) + MonthLength(index)
  {
  }

  /** Days before 1 January of year y + 1. */
  function YearStart(y: nat): nat {
    MonthStart(12 * y)
  }

  lemma YearLength(y: nat)
    ensures YearStart(y + 1) == YearStart(y) + if IsLeap(y + 1) then 366 else 365
  {
    MonthsOfYear(y, 12);
    hide MonthStart;
  }

  lemma {:induction false} MonthsOfYear(y: nat, k: nat)
    requires k <= 12
    ensures MonthStart(12 * y + k) == MonthStart(12 * y) + DaysBefore(k, IsLeap(y + 1))
  {
    hide MonthStart;
    if k > 0 {
      MonthsOfYear(y, k - 1);
      OneMonthOn(12 * y + k - 1);
      assert (12 * y + k - 1) / 12 == y && (12 * y + k - 1) % 12 == k - 1;
    }
  }

  /** The days of a year before its month k, counted from 0. */
  function DaysBefore(k: int, leap: bool): int
    requires 0 <= k <= 12
  {
    [0, 31, 59, 90, 120, 151, 181, 212, 243, 273, 304, 334, 365][k] + if leap && k >= 2 then 1 else 0
  }

  /** The Gregorian rule: a leap day every 4 years, but not every 100, but again every 400. */
  function LeapDays(y: nat): int {
    y / 4 - y / 100 + y / 400
  }

  lemma OneYearOn(y: nat)
    ensures LeapDays(y + 1) == LeapDays(y) + if IsLeap(y + 1) then 1 else 0
  {
    Quotient4(y);
    Quotient100(y);
    Quotient400(y);
  }

  lemma Quotient4(y: nat)
    ensures (y + 1) / 4 == y / 4 + if (y + 1) % 4 == 0 then 1 else 0
  {
  }

  lemma Quotient100(y: nat)
    ensures (y + 1) / 100 == y / 100 + if (y + 1) % 100 == 0 then 1 else 0
    ensures (y + 1) % 100 == 0 ==> (y + 1) % 4 == 0
  {
  }

  lemma Quotient400(y: nat)
    ensures (y + 1) / 400 == y / 400 + if (y + 1) % 400 == 0 then 1 else 0
    ensures (y + 1) % 400 == 0 ==> (y + 1) % 100 == 0
  {
  }

  /** The days before year y + 1, in closed form. */
  lemma {:induction false} DaysBeforeYear(y: nat)
    ensures YearStart(y) == 365 * y + LeapDays(y)
  {
    if y > 0 {
      hide YearStart, LeapDays, IsLeap;
      DaysBeforeYear(y - 1);
      YearLength(y - 1);
      OneYearOn(y - 1);
    }
  }

  /** Month k of year y + 1, counted from 0, starts after the days of the years before, the lengths
      of the months before in a common year, and the leap day if it is past February. */
  lemma MonthStartInYear(y: nat, k: nat)
    requires k < 12
    ensures MonthStart(12 * y + k)
         == 365 * y + y / 4 - y / 100 + y / 400 + [0, 31, 59, 90, 120, 151, 181, 212, 243, 273, 304, 334][k]
            + if k >= 2 && (y + 1) % 4 == 0 && ((y + 1) % 100 != 0 || (y + 1) % 400 == 0) then 1 else 0
  {
    MonthsOfYear(y, k);
    DaysBeforeYear(y);
    hide MonthStart;
  }

  /** The number of a day in its year's and month's own terms. */
  lemma OrdinalIsGregorian(t: DateTime)
    requires Valid(t)
    ensures var y := t.year - 1;
            Ordinal(t) ==
            365 * y + y / 4 - y / 100 + y / 400 + [0, 31, 59, 90, 120, 151, 181, 212, 243, 273, 304, 334][t.month - 1]
            + (if t.month > 2 && t.year % 4 == 0 && (t.year % 100 != 0 || t.year % 400 == 0) then 1 else 0) + t.day - 1
  {
    MonthStartInYear(t.year - 1, t.month - 1);
    hide MonthStart;
  }

  /** Moments are the microseconds since the first day of year 1. */
  lemma MicrosOfFields(t: DateTime)
    requires Valid(t)
    ensures Micros(t) == (((Ordinal(t) * 24 + t.hour) * 60 + t.minute) * 60 + t.second) * 1000000 + t.microsecond
  {
    hide Ordinal;
  }

  /** The day with the given number lies in the month. */
  predicate Holds(index: nat, ordinal: nat) {
    MonthStart(index) <= ordinal < MonthStart(index + 1)
  }

  /** Each day lies in exactly one month. */
  lemma MonthIsUnique(ordinal: nat, i: nat, j: nat)
    ensures Holds(i, ordinal) && Holds(j, ordinal) ==> i == j
  {
    hide MonthStart, MonthLength;
    if i < j {
      MonthsAscend(i + 1, j);
    } else if j < i {
      MonthsAscend(j + 1, i);
    }
  }

  /** Different datetimes are different moments. */
  lemma MicrosAreInjective(a: DateTime, b: DateTime)
    requires Valid(a) && Valid(b)
    ensures Micros(a) == Micros(b) ==> a == b
  {
    if Micros(a) == Micros(b) {
      assert Minutes(a) == Minutes(b);
      assert Ordinal(a) == Ordinal(b);
      MonthIsUnique(Ordinal(a), MonthIndex(a), MonthIndex(b));
    }
  }
}
