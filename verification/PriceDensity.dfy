/** utils/price_density.py: _process_df, which spreads the volume of each row evenly over the
    price levels between its low and its high.  A level is a price counted in pips. */
module PriceDensity {
  import opened Decimals

  datatype Row = Row(high: real, low: real, volume: real)

  type Histogram = map<int, real>

  /** A pip unit: quantize looks only at its exponent, so a unit of 10 is ten of its quanta, and
      every other unit in use is one. */
  datatype Pip = Pip(quantum: real, size: int) {
    ghost predicate Valid() {
      quantum > 0.0 && (size == 1 || size == 10)
    }

    function Unit(): real {
      quantum * size as real
    }
  }

  /** quantize(pip_unit, ROUND_HALF_EVEN), as a number of quanta. */
  function Level(price: real, pip: Pip): int
    requires pip.Valid()
  {
    RoundHalfEven(price / pip.quantum)
  }

  /** The level is the price in quanta, to the nearest, a tie going to the even one. */
  lemma LevelIsNearest(price: real, pip: Pip)
    requires pip.Valid()
    ensures IsHalfEven(Level(price, pip), price / pip.quantum)
  {
    HalfEvenIsUnique(price / pip.quantum, Level(price, pip));
  }

  function Tenths(x: real): real {
    RoundHalfEven(x * 10.0) as real / 10.0
  }

  /** pip(symbol, high - low, True): the pips between high and low, in tenths, except that for no
      difference at all the pip unit itself comes back (mt4/constants.py:188-194). */
  function Distance(row: Row, pip: Pip): real
    requires pip.Valid()
  {
    var span := Level(row.high, pip) - Level(row.low, pip);
    if span == 0 then pip.Unit() else Tenths((if span < 0 then -span else span) as real / pip.size as real)
  }

  /** The tenths are exact. */
  lemma DistanceIsExact(row: Row, pip: Pip)
    requires pip.Valid()
    ensures var span := Level(row.high, pip) - Level(row.low, pip);
            Distance(row, pip) == if span == 0 then pip.Unit() else Abs(span as real) / pip.size as real
    ensures Distance(row, pip) > 0.0
  {
    hide Level;
    var span := Level(row.high, pip) - Level(row.low, pip);
    var d := if span < 0 then -span else span;
    if span != 0 {
      TenthsAreExact(d, pip.size);
    }
  }

  lemma TenthsAreExact(d: int, size: int)
    requires size == 1 || size == 10
    ensures Tenths(d as real / size as real) == d as real / size as real
  {
    var x := d as real / size as real;
    if size == 1 {
      assert x == d as real;
      HalfEvenIsUnique(x * 10.0, 10 * d);
    } else {
      assert size as real == 10.0;
      assert x == d as real / 10.0;
      HalfEvenIsUnique(x * 10.0, d);
    }
  }

  /** quantize(pip_unit) */
  function InQuanta(x: real, quantum: real): real
    requires quantum > 0.0
  {
    RoundHalfEven(x / quantum) as real * quantum
  }

  function PerPip(row: Row, pip: Pip): real
    requires pip.Valid()
  {
    DistanceIsExact(row, pip);
    row.volume / Distance(row, pip)
  }

  function AvgVol(row: Row, pip: Pip): real
    requires pip.Valid()
  {
    InQuanta(PerPip(row, pip), pip.quantum)
  }

  /** The average volume is the volume over the distance, to within half a quantum. */
  lemma AvgVolIsNear(row: Row, pip: Pip)
    requires pip.Valid()
    ensures Distance(row, pip) > 0.0 && PerPip(row, pip) == row.volume / Distance(row, pip)
    ensures Abs(AvgVol(row, pip) - PerPip(row, pip)) <= 0.5 * pip.quantum
  {
    DistanceIsExact(row, pip);
    RoundedToQuanta(PerPip(row, pip), pip.quantum);
    hide InQuanta, Distance;
  }

  /** And it is a number of quanta, the nearest, a tie going to the even one. */
  lemma AvgVolInQuanta(row: Row, pip: Pip) returns (n: int)
    requires pip.Valid()
    ensures AvgVol(row, pip) == n as real * pip.quantum && IsHalfEven(n, PerPip(row, pip) / pip.quantum)
  {
    n := RoundHalfEven(PerPip(row, pip) / pip.quantum);
    HalfEvenIsUnique(PerPip(row, pip) / pip.quantum, n);
    hide IsHalfEven, RoundHalfEven, PerPip;
  }

  lemma RoundedToQuanta(x: real, quantum: real)
    requires quantum > 0.0
    ensures Abs(InQuanta(x, quantum) - x) <= 0.5 * quantum
  {
    HalfEvenIsUnique(x / quantum, RoundHalfEven(x / quantum));
    hide RoundHalfEven;
    ScaledError(RoundHalfEven(x / quantum) as real, x, quantum);
  }

  lemma ScaledError(n: real, x: real, unit: real)
    requires unit > 0.0 && Abs(n - x / unit) <= 0.5
    ensures Abs(n * unit - x) <= 0.5 * unit
  {
    assert n * unit - x == (n - x / unit) * unit;
    ScaledBound(n - x / unit, unit, 0.5);
  }

  /** int(distance): the row covers its low level and this many above it, a pip apart. */
  function Reach(row: Row, pip: Pip): nat
    requires pip.Valid()
  {
    DistanceIsExact(row, pip);
    Distance(row, pip).Floor
  }

  /** The level is one of the first n of those a pip apart from low on. */
  predicate Hits(low: int, size: int, n: int, level: int)
    requires size > 0
  {
    low <= level && (level - low) % size == 0 && (level - low) / size < n
  }

  predicate Covers(row: Row, pip: Pip, level: int)
    requires pip.Valid()
  {
    row.volume != 0.0 && Hits(Level(row.low, pip), pip.size, Reach(row, pip) + 1, level)
  }

  /** For a row whose rounded high exceeds its rounded low, the covered levels are exactly those
      from low to high, a pip apart. */
  lemma CoversLowToHigh(row: Row, pip: Pip, level: int)
    requires pip.Valid() && row.volume != 0.0 && Level(row.low, pip) < Level(row.high, pip)
    ensures Covers(row, pip, level) <==>
            Level(row.low, pip) <= level <= Level(row.high, pip) && (level - Level(row.low, pip)) % pip.size == 0
  {
    DistanceIsExact(row, pip);
    hide Level, Distance;
    var span := Level(row.high, pip) - Level(row.low, pip);
    if pip.size == 10 {
      assert Reach(row, pip) == span / 10;
    }
  }

  function Share(row: Row, pip: Pip, level: int): real
    requires pip.Valid()
  {
    if Covers(row, pip, level) then AvgVol(row, pip) else 0.0
  }

  /** What the rows together add to a level. */
  function Density(rows: seq<Row>, pip: Pip, level: int): real
    requires pip.Valid()
  {
    if rows == [] then 0.0 else Share(rows[0], pip, level) + Density(rows[1..], pip, level)
  }

  function At(h: Histogram, level: int): real {
    if level in h then h[level] else 0.0
  }

  class PriceHistogram {
    const pip: Pip
    var result: Histogram

    constructor (pip: Pip)
      requires pip.Valid()
      ensures this.pip == pip && result == map[]
    {
      this.pip := pip;
      this.result := map[];
    }

    /** Every level gains the average volume of each row that covers it, and the keys are the
        old ones and the covered levels. */
    method ProcessDf(rows: seq<Row>)
      requires pip.Valid()
      modifies this
      ensures forall level :: At(result, level) == At(old(result), level) + Density(rows, pip, level)
      ensures forall level :: level in result <==> level in old(result) || exists row <- rows :: Covers(row, pip, level)
    {
      ghost var before := result;
      for i := 0 to |rows|
        invariant forall level :: At(result, level) + Density(rows[i..], pip, level) == At(before, level) + Density(rows, pip, level)
        invariant forall level :: level in result <==> level in before || exists row <- rows[..i] :: Covers(row, pip, level)
      {
        assert rows[i..][0] == rows[i] && rows[i..][1..] == rows[i + 1..];
        assert rows[..i + 1] == rows[..i] + [rows[i]];
        if rows[i].volume != 0.0 {
          AddRow(rows[i]);
        }
      }
      assert rows[..|rows|] == rows;
    }

    /** The inner loop of _process_df. */
    method AddRow(row: Row)
      requires pip.Valid() && row.volume != 0.0
      modifies this
      ensures forall level :: At(result, level) == At(old(result), level) + Share(row, pip, level)
      ensures forall level :: level in result <==> level in old(result) || Covers(row, pip, level)
    {
      hide Level, AvgVol, Reach, Hits;
      ghost var before := result;
      var low, avgVol := Level(row.low, pip), AvgVol(row, pip);
      NoHits(low, pip.size);
      for i := 0 to Reach(row, pip) + 1
        invariant forall level :: At(result, level) == At(before, level) + if Hits(low, pip.size, i, level) then avgVol else 0.0
        invariant forall level :: level in result <==> level in before || Hits(low, pip.size, i, level)
      {
        OneHitMore(low, pip, i);
        var target := low + i * pip.size;
        if target !in result {
          result := result[target := 0.0];
        }
        result := result[target := result[target] + avgVol];
      }
    }
  }

  lemma NoHits(low: int, size: int)
    requires size > 0
    ensures forall level :: !Hits(low, size, 0, level)
  {
    forall level ensures !Hits(low, size, 0, level) {
      if low <= level {
        assert (level - low) / size >= 0;
      }
    }
  }

  /** The next level a pip on is the one hit more. */
  lemma OneHitMore(low: int, pip: Pip, i: nat)
    requires pip.Valid()
    ensures !Hits(low, pip.size, i, low + i * pip.size)
    ensures forall level :: Hits(low, pip.size, i + 1, level) <==> Hits(low, pip.size, i, level) || level == low + i * pip.size
  {
    if pip.size == 1 {
    } else {
      assert pip.size == 10;
    }
  }

  // ----- order and batches

  lemma {:induction false} BatchesAdd(a: seq<Row>, b: seq<Row>, pip: Pip, level: int)
    requires pip.Valid()
    ensures Density(a + b, pip, level) == Density(a, pip, level) + Density(b, pip, level)
  {
    if a == [] {
      assert a + b == b;
    } else {
      assert (a + b)[1..] == a[1..] + b;
      BatchesAdd(a[1..], b, pip, level);
    }
  }

  /** The rows may come in any order. */
  lemma {:induction false} OrderDoesNotMatter(a: seq<Row>, b: seq<Row>, pip: Pip, level: int)
    requires pip.Valid() && multiset(a) == multiset(b)
    ensures Density(a, pip, level) == Density(b, pip, level)
  {
    if a == [] {
      assert |multiset(b)| == |b|;
    } else {
      var first, front, back := TakeOut(b, a[0]);
      assert a == first + a[1..];
      Cancel(multiset(first), multiset(a[1..]), multiset(front + back));
      OrderDoesNotMatter(a[1..], front + back, pip, level);
      BatchesAdd(first, a[1..], pip, level);
      BatchesAdd(front, back, pip, level);
      BatchesAdd(front, first + back, pip, level);
      BatchesAdd(first, back, pip, level);
    }
  }

  lemma TakeOut(b: seq<Row>, row: Row) returns (first: seq<Row>, front: seq<Row>, back: seq<Row>)
    requires row in multiset(b)
    ensures first == [row] && b == front + (first + back)
    ensures multiset(b) == multiset(first) + multiset(front + back)
  {
    var i :| 0 <= i < |b| && b[i] == row;
    first, front, back := [row], b[..i], b[i + 1..];
    assert b == front + (first + back);
  }

  lemma Cancel(x: multiset<Row>, y: multiset<Row>, z: multiset<Row>)
    requires x + y == x + z
    ensures y == z
  {
    forall r ensures y[r] == z[r] {
      assert (x + y)[r] == x[r] + y[r] && (x + z)[r] == x[r] + z[r];
    }
  }

  // ----- the total

  /** The sum of the densities over `count` levels from `from` on. */
  function Mass(rows: seq<Row>, pip: Pip, from: int, count: nat): real
    requires pip.Valid()
  {
    if count == 0 then 0.0 else Density(rows, pip, from + count - 1) + Mass(rows, pip, from, count - 1)
  }

  function Spread(rows: seq<Row>, pip: Pip): real
    requires pip.Valid()
  {
    if rows == [] then 0.0
    else (if rows[0].volume != 0.0 then Weight(rows[0], pip) else 0.0) + Spread(rows[1..], pip)
  }

  /** (distance + 1) * avg_vol */
  function Weight(row: Row, pip: Pip): real
    requires pip.Valid()
  {
    (Reach(row, pip) + 1) as real * AvgVol(row, pip)
  }

  ghost predicate Inside(rows: seq<Row>, pip: Pip, from: int, count: nat)
    requires pip.Valid()
  {
    forall row <- rows, level | Covers(row, pip, level) :: from <= level < from + count
  }

  /** How many of the levels of [from, from + count) are hit. */
  function Overlap(low: int, size: int, n: nat, from: int, count: nat): nat
    requires size > 0
  {
    if count == 0 then 0
    else (if Hits(low, size, n, from + count - 1) then 1 else 0) + Overlap(low, size, n, from, count - 1)
  }

  /** How many of the levels from low up to before top are a pip apart. */
  function Steps(low: int, size: int, top: int): int
    requires size > 0
  {
    if top <= low then 0 else (top - low - 1) / size + 1
  }

  lemma StepOn(low: int, pip: Pip, n: nat, top: int)
    requires pip.Valid()
    ensures var here, next := Steps(low, pip.size, top), Steps(low, pip.size, top + 1);
            && 0 <= here <= next
            && (if next < n then next else n) == (if here < n then here else n) + if Hits(low, pip.size, n, top) then 1 else 0
  {
    if pip.size == 1 {
    } else {
      assert pip.size == 10;
    }
  }

  lemma {:induction false} OverlapIsAll(low: int, pip: Pip, n: nat, from: int, count: nat)
    requires pip.Valid() && from <= low
    ensures var steps := Steps(low, pip.size, from + count);
            Overlap(low, pip.size, n, from, count) == if steps < n then steps else n
  {
    if count > 0 {
      hide Steps, Hits;
      OverlapIsAll(low, pip, n, from, count - 1);
      StepOn(low, pip, n, from + count - 1);
    }
  }

  /** A stretch that holds the first and the last level hit holds them all. */
  lemma StepsInside(low: int, pip: Pip, n: nat, top: int)
    requires pip.Valid() && n > 0 && low + (n - 1) * pip.size < top
    ensures Steps(low, pip.size, top) >= n
    ensures Hits(low, pip.size, n, low) && Hits(low, pip.size, n, low + (n - 1) * pip.size)
  {
    FirstAndLast(low, pip, n);
    if pip.size == 1 {
    } else {
      assert pip.size == 10;
    }
  }

  lemma FirstAndLast(low: int, pip: Pip, n: nat)
    requires pip.Valid() && n > 0
    ensures Hits(low, pip.size, n, low) && Hits(low, pip.size, n, low + (n - 1) * pip.size)
  {
    if pip.size == 1 {
    } else {
      assert pip.size == 10;
    }
  }

  lemma {:induction false} MassOfOne(row: Row, rows: seq<Row>, pip: Pip, from: int, count: nat)
    requires pip.Valid() && row.volume != 0.0
    ensures Mass([row] + rows, pip, from, count)
         == Overlap(Level(row.low, pip), pip.size, Reach(row, pip) + 1, from, count) as real * AvgVol(row, pip) + Mass(rows, pip, from, count)
  {
    hide AvgVol, Level, Reach, Hits;
    if count > 0 {
      MassOfOne(row, rows, pip, from, count - 1);
      assert ([row] + rows)[1..] == rows;
      OneMore(Overlap(Level(row.low, pip), pip.size, Reach(row, pip) + 1, from, count - 1), AvgVol(row, pip));
    }
  }

  lemma OneMore(n: nat, v: real)
    ensures 0 as real * v == 0.0 && (n + 1) as real * v == n as real * v + v
  {
  }

  lemma {:induction false} MassOfSkipped(row: Row, rows: seq<Row>, pip: Pip, from: int, count: nat)
    requires pip.Valid() && row.volume == 0.0
    ensures Mass([row] + rows, pip, from, count) == Mass(rows, pip, from, count)
  {
    if count > 0 {
      MassOfSkipped(row, rows, pip, from, count - 1);
      assert ([row] + rows)[1..] == rows;
    }
  }

  lemma {:induction false} MassOfNone(pip: Pip, from: int, count: nat)
    requires pip.Valid()
    ensures Mass([], pip, from, count) == 0.0
  {
    if count > 0 {
      MassOfNone(pip, from, count - 1);
    }
  }

  /** Over any stretch of levels that holds all covered ones, the total added is the sum over
      the rows of (distance + 1) * avg_vol. */
  lemma {:induction false} TotalIsTheSpread(rows: seq<Row>, pip: Pip, from: int, count: nat)
    requires pip.Valid() && Inside(rows, pip, from, count)
    ensures Mass(rows, pip, from, count) == Spread(rows, pip)
  {
    if rows == [] {
      MassOfNone(pip, from, count);
    } else {
      var row, rest := rows[0], rows[1..];
      assert rows == [row] + rest;
      TotalIsTheSpread(rest, pip, from, count);
      hide Weight, Mass;
      if row.volume != 0.0 {
        MassOfCovered(row, rest, pip, from, count);
      } else {
        MassOfSkipped(row, rest, pip, from, count);
      }
    }
  }

  lemma MassOfCovered(row: Row, rows: seq<Row>, pip: Pip, from: int, count: nat)
    requires pip.Valid() && row.volume != 0.0 && Inside([row] + rows, pip, from, count)
    ensures Mass([row] + rows, pip, from, count) == Weight(row, pip) + Mass(rows, pip, from, count)
  {
    hide AvgVol, Level, Reach, Mass, Hits, Steps, Overlap;
    MassOfOne(row, rows, pip, from, count);
    var low, n := Level(row.low, pip), Reach(row, pip) + 1;
    FirstAndLast(low, pip, n);
    assert row in [row] + rows && Covers(row, pip, low) && Covers(row, pip, low + (n - 1) * pip.size);
    OverlapIsAll(low, pip, n, from, count);
    StepsInside(low, pip, n, from + count);
  }

  /** From the rounded low to the rounded high, a pip apart. */
  predicate LowToHigh(row: Row, pip: Pip, level: int)
    requires pip.Valid()
  {
    Level(row.low, pip) <= level <= Level(row.high, pip) && (level - Level(row.low, pip)) % pip.size == 0
  }

  /** With volume, the covered levels are those from the rounded low to the rounded high if and
      only if the row has extent, or has none and the pip unit is below 1. */
  lemma CoversLowToHighIff(row: Row, pip: Pip)
    requires pip.Valid() && row.volume != 0.0
    ensures (forall level :: Covers(row, pip, level) <==> LowToHigh(row, pip, level))
        <==> Level(row.low, pip) < Level(row.high, pip) || (Level(row.low, pip) == Level(row.high, pip) && pip.Unit() < 1.0)
  {
    var low, high := Level(row.low, pip), Level(row.high, pip);
    var n := Reach(row, pip) + 1;
    FirstAndLast(low, pip, n);
    if low < high {
      forall level ensures Covers(row, pip, level) <==> LowToHigh(row, pip, level) {
        CoversLowToHigh(row, pip, level);
      }
    } else if low > high {
      hide Level;
      assert Covers(row, pip, low) && !LowToHigh(row, pip, low);
    } else {
      FlatRow(row, pip);
      hide Level, Reach, Hits;
      if pip.Unit() >= 1.0 {
        assert Covers(row, pip, low + (n - 1) * pip.size) && !LowToHigh(row, pip, low + (n - 1) * pip.size);
      } else {
        forall level ensures Covers(row, pip, level) <==> LowToHigh(row, pip, level) {
          OnlyLow(low, pip, level);
        }
      }
    }
  }

  lemma OnlyLow(low: int, pip: Pip, level: int)
    requires pip.Valid()
    ensures Hits(low, pip.size, 1, level) <==> level == low
    ensures level == low ==> (level - low) % pip.size == 0
  {
    if pip.size == 1 {
    } else {
      assert pip.size == 10;
    }
  }

  /** A row without extent is the exception: its volume is divided by the pip unit instead of by
      a number of pips, and spread over as many levels beyond the first as the unit has wholes. */
  lemma FlatRow(row: Row, pip: Pip)
    requires pip.Valid() && Level(row.low, pip) == Level(row.high, pip)
    ensures pip.Unit() > 0.0 && Distance(row, pip) == pip.Unit() && Reach(row, pip) == pip.Unit().Floor
    ensures PerPip(row, pip) == row.volume / pip.Unit() && Abs(AvgVol(row, pip) - PerPip(row, pip)) <= 0.5 * pip.quantum
  {
    AvgVolIsNear(row, pip);
    hide AvgVol;
  }

  /** So on a pair quoted to 0.0001 a flat row of volume 1 weighs 10000. */
  lemma FlatRowIsInflated()
    ensures var pip := Pip(0.0001, 1);
            AvgVol(Row(1.0, 1.0, 1.0), pip) == 10000.0 && Reach(Row(1.0, 1.0, 1.0), pip) == 0
  {
    HalfEvenIsUnique(100000000.0, 100000000);
  }
}
