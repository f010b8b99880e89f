/** performance/performance.py: create_drawdowns, one pass over a profit curve.  None stands
    for pandas' NaN, which fills both series at first and which max() skips. */
module Drawdowns {
  import opened Wrappers

  function Max(x: real, y: real): real {
    if x < y then y else x
  }

  /** The high-water mark: the greatest of 0 and pnl[1..t]; pnl[0] is never looked at. */
  function Hwm(pnl: seq<real>, t: nat): real
    requires t < |pnl|
  {
    if t == 0 then 0.0 else Max(Hwm(pnl, t - 1), pnl[t])
  }

  function DrawdownAt(pnl: seq<real>, t: nat): real
    requires t < |pnl|
  {
    Hwm(pnl, t) - pnl[t]
  }

  /** How long the drawdown has lasted at t.  NaN + 1 is NaN, so a curve that starts below 0
      has no duration until it first comes back to its mark. */
  function DurationAt(pnl: seq<real>, t: nat): Option<nat>
    requires t < |pnl|
  {
    if t == 0 then None
    else if DrawdownAt(pnl, t) == 0.0 then Some(0)
    else match DurationAt(pnl, t - 1)
      case None => None
      case Some(d) => Some(d + 1)
  }

  // ----- pandas' max, which skips NaN

  function MaxReal(xs: seq<Option<real>>): Option<real> {
    if xs == [] then None else
    var front, last := MaxReal(xs[..|xs| - 1]), xs[|xs| - 1];
    if last.None? then front else if front.None? then last else Some(Max(front.value, last.value))
  }

  function MaxNat(xs: seq<Option<nat>>): Option<nat> {
    if xs == [] then None else
    var front, last := MaxNat(xs[..|xs| - 1]), xs[|xs| - 1];
    if last.None? then front else if front.None? then last
    else Some(if front.value < last.value then last.value else front.value)
  }

  lemma {:induction false} MaxRealIsGreatest(xs: seq<Option<real>>)
    ensures MaxReal(xs).None? <==> forall i | 0 <= i < |xs| :: xs[i].None?
    ensures MaxReal(xs).Some? ==> MaxReal(xs) in xs && forall i | 0 <= i < |xs| && xs[i].Some? :: xs[i].value <= MaxReal(xs).value
  {
    if xs != [] {
      MaxRealIsGreatest(xs[..|xs| - 1]);
    }
  }

  lemma {:induction false} MaxNatIsGreatest(xs: seq<Option<nat>>)
    ensures MaxNat(xs).None? <==> forall i | 0 <= i < |xs| :: xs[i].None?
    ensures MaxNat(xs).Some? ==> MaxNat(xs) in xs && forall i | 0 <= i < |xs| && xs[i].Some? :: xs[i].value <= MaxNat(xs).value
  {
    if xs != [] {
      MaxNatIsGreatest(xs[..|xs| - 1]);
    }
  }

  method CreateDrawdowns(pnl: seq<real>) returns (drawdown: array<Option<real>>, maxDrawdown: Option<real>, maxDuration: Option<nat>)
    ensures fresh(drawdown) && drawdown.Length == |pnl|
    ensures forall t | 0 <= t < |pnl| :: drawdown[t] == if t == 0 then None else Some(DrawdownAt(pnl, t))
    ensures IsMaxDrawdown(pnl, maxDrawdown)
    ensures IsMaxDuration(pnl, maxDuration)
  {
    var hwm := [0.0];
    drawdown := new Option<real>[|pnl|](_ => None);
    var duration := new Option<nat>[|pnl|](_ => None);
    var t := 1;
    while t < |pnl|
      invariant |pnl| == 0 || 1 <= t <= |pnl|
      invariant |pnl| == 0 || (|hwm| == t && forall i | 0 <= i < t :: hwm[i] == Hwm(pnl, i))
      invariant forall i | 0 <= i < |pnl| :: drawdown[i] == if 0 < i < t then Some(DrawdownAt(pnl, i)) else None
      invariant forall i | 0 <= i < |pnl| :: duration[i] == if i < t then DurationAt(pnl, i) else None
    {
      hwm := hwm + [Max(hwm[t - 1], pnl[t])];
      drawdown[t] := Some(hwm[t] - pnl[t]);
      duration[t] := if drawdown[t] == Some(0.0) then Some(0)
                     else match duration[t - 1] { case None => None case Some(d) => Some(d + 1) };
      t := t + 1;
    }
    maxDrawdown := MaxReal(drawdown[..]);
    maxDuration := MaxNat(duration[..]);
    Summary(pnl, drawdown[..], duration[..]);
  }

  lemma Summary(pnl: seq<real>, drawdown: seq<Option<real>>, duration: seq<Option<nat>>)
    requires |drawdown| == |duration| == |pnl|
    requires forall t | 0 <= t < |pnl| :: drawdown[t] == if t == 0 then None else Some(DrawdownAt(pnl, t))
    requires forall t | 0 <= t < |pnl| :: duration[t] == DurationAt(pnl, t)
    ensures IsMaxDrawdown(pnl, MaxReal(drawdown)) && IsMaxDuration(pnl, MaxNat(duration))
  {
    hide DurationAt, DrawdownAt;
    MaxRealIsGreatest(drawdown);
    MaxNatIsGreatest(duration);
    assert |pnl| > 1 ==> drawdown[1].Some?;
  }

  /** The greatest drawdown of the curve, if it has any point after the first. */
  ghost predicate IsMaxDrawdown(pnl: seq<real>, m: Option<real>) {
    && (m.None? <==> |pnl| <= 1)
    && (m.Some? ==> (exists t: nat :: 1 <= t < |pnl| && DrawdownAt(pnl, t) == m.value)
                    && forall t: nat | 1 <= t < |pnl| :: DrawdownAt(pnl, t) <= m.value)
  }

  ghost predicate IsMaxDuration(pnl: seq<real>, m: Option<nat>) {
    && (m.None? <==> forall t: nat | t < |pnl| :: DurationAt(pnl, t).None?)
    && (m.Some? ==> (exists t: nat :: t < |pnl| && DurationAt(pnl, t) == m)
                    && forall t: nat | t < |pnl| && DurationAt(pnl, t).Some? :: DurationAt(pnl, t).value <= m.value)
  }

  // ----- the drawdown against all pairs of points

  /** The curve as the marks see it: it starts from 0. */
  function Point(pnl: seq<real>, s: nat): real
    requires s < |pnl|
  {
    if s == 0 then 0.0 else pnl[s]
  }

  lemma {:induction false} HwmIsTheGreatest(pnl: seq<real>, t: nat)
    requires t < |pnl|
    ensures exists s: nat :: s <= t && Point(pnl, s) == Hwm(pnl, t)
    ensures forall s: nat | s <= t :: Point(pnl, s) <= Hwm(pnl, t)
  {
    if t == 0 {
      assert Point(pnl, 0) == Hwm(pnl, 0);
    } else {
      HwmIsTheGreatest(pnl, t - 1);
      assert Point(pnl, t) == pnl[t];
    }
  }

  /** The one-pass maximum is the greatest fall from any point to any later one. */
  lemma MaxDrawdownIsPeakToTrough(pnl: seq<real>, m: real)
    requires IsMaxDrawdown(pnl, Some(m))
    ensures exists s: nat, t: nat :: s <= t < |pnl| && t >= 1 && Point(pnl, s) - pnl[t] == m
    ensures forall s: nat, t: nat | s <= t < |pnl| && t >= 1 :: Point(pnl, s) - pnl[t] <= m
  {
    var t: nat :| 1 <= t < |pnl| && DrawdownAt(pnl, t) == m;
    HwmIsTheGreatest(pnl, t);
    var s: nat :| s <= t && Point(pnl, s) == Hwm(pnl, t);
    forall s: nat, t: nat | s <= t < |pnl| && t >= 1 ensures Point(pnl, s) - pnl[t] <= m {
      HwmIsTheGreatest(pnl, t);
      assert DrawdownAt(pnl, t) <= m;
    }
  }

  // ----- the duration against runs of positive drawdown

  /** The points from i to before j are all below their mark. */
  ghost predicate Below(pnl: seq<real>, i: nat, j: nat) {
    j <= |pnl| && forall t: nat | i <= t < j :: DrawdownAt(pnl, t) > 0.0
  }

  ghost predicate IsLongestRun(pnl: seq<real>, from: nat, d: nat) {
    && (exists i: nat, j: nat :: from <= i <= j <= |pnl| && Below(pnl, i, j) && j - i == d)
    && forall i: nat, j: nat | from <= i <= j <= |pnl| && Below(pnl, i, j) :: j - i <= d
  }

  /** The curve is at its mark at t. */
  predicate AtMark(pnl: seq<real>, t: nat) {
    1 <= t < |pnl| && DrawdownAt(pnl, t) == 0.0
  }

  lemma {:induction false} DrawdownIsNotNegative(pnl: seq<real>, t: nat)
    requires 1 <= t < |pnl|
    ensures DrawdownAt(pnl, t) >= 0.0
  {
  }

  /** Once the curve has been at its mark, the duration is the length of the run below it that
      ends at t; before that there is none. */
  lemma {:induction false} DurationIsTheRun(pnl: seq<real>, z: nat, t: nat)
    requires AtMark(pnl, z) && z <= t < |pnl|
    ensures DurationAt(pnl, t).Some?
    ensures var d := DurationAt(pnl, t).value;
            && z <= t - d && AtMark(pnl, t - d) && Below(pnl, t - d + 1, t + 1)
  {
    if t > z {
      DurationIsTheRun(pnl, z, t - 1);
      DrawdownIsNotNegative(pnl, t);
    }
  }

  lemma {:induction false} NoDurationBefore(pnl: seq<real>, t: nat)
    requires t < |pnl| && forall z: nat | z <= t :: !AtMark(pnl, z)
    ensures DurationAt(pnl, t).None?
  {
    assert !AtMark(pnl, t);
    if t > 0 {
      NoDurationBefore(pnl, t - 1);
    }
  }

  ghost predicate FirstMark(pnl: seq<real>, z: nat) {
    AtMark(pnl, z) && forall y: nat | y < z :: !AtMark(pnl, y)
  }

  /** The reported duration is the longest run below the mark that comes after the first time
      the curve is at its mark; if there is no such time, nothing is reported. */
  lemma DurationAfterFirstMark(pnl: seq<real>, m: Option<nat>)
    requires IsMaxDuration(pnl, m)
    ensures m.None? <==> forall z: nat :: !AtMark(pnl, z)
    ensures forall z: nat | FirstMark(pnl, z) :: m.Some? && IsLongestRun(pnl, z, m.value)
  {
    if z: nat :| AtMark(pnl, z) {
      DurationIsTheRun(pnl, z, z);
    } else {
      forall t: nat | t < |pnl| ensures DurationAt(pnl, t).None? {
        NoDurationBefore(pnl, t);
      }
    }
    forall z: nat | FirstMark(pnl, z) ensures m.Some? && IsLongestRun(pnl, z, m.value) {
      DurationIsTheRun(pnl, z, z);
      var t: nat :| t < |pnl| && DurationAt(pnl, t) == m;
      if t < z {
        NoDurationBefore(pnl, t);
        assert false;
      }
      DurationIsTheRun(pnl, z, t);
      assert Below(pnl, t - m.value + 1, t + 1);
      forall i: nat, j: nat | z <= i <= j <= |pnl| && Below(pnl, i, j) ensures j - i <= m.value {
        if i < j {
          DurationIsTheRun(pnl, z, j - 1);
          assert j - 1 - DurationAt(pnl, j - 1).value < i;
        }
      }
    }
  }

  /** The curve is at its mark some time, and the stretch before the first such time is no
      longer than the longest run after it. */
  ghost predicate RecoversSoon(pnl: seq<real>) {
    exists z: nat, d: nat :: FirstMark(pnl, z) && IsLongestRun(pnl, z, d) && z - 1 <= d
  }

  /** What is reported is the longest run of the whole curve if and only if the curve recovers
      soon; in particular it is whenever pnl[1] is not negative. */
  lemma DurationIsLongestIff(pnl: seq<real>, m: Option<nat>)
    requires IsMaxDuration(pnl, m) && |pnl| > 1
    ensures (m.Some? && IsLongestRun(pnl, 1, m.value)) <==> RecoversSoon(pnl)
    ensures pnl[1] >= 0.0 ==> m.Some? && IsLongestRun(pnl, 1, m.value)
  {
    DurationAfterFirstMark(pnl, m);
    if m.Some? {
      var y: nat :| AtMark(pnl, y);
      var z := FindFirstMark(pnl, y);
      LongestFrom(pnl, z, m.value);
      forall d: nat | IsLongestRun(pnl, z, d) ensures d == m.value {
        LongestIsUnique(pnl, z, d, m.value);
      }
      if pnl[1] >= 0.0 {
        AtMarkAtOnce(pnl);
        assert z == 1;
      }
    } else if pnl[1] >= 0.0 {
      AtMarkAtOnce(pnl);
    }
  }

  lemma AtMarkAtOnce(pnl: seq<real>)
    requires |pnl| > 1 && pnl[1] >= 0.0
    ensures AtMark(pnl, 1)
  {
    assert Hwm(pnl, 0) == 0.0;
  }

  lemma LongestIsUnique(pnl: seq<real>, from: nat, d: nat, e: nat)
    requires IsLongestRun(pnl, from, d) && IsLongestRun(pnl, from, e)
    ensures d == e
  {
  }

  lemma {:induction false} FindFirstMark(pnl: seq<real>, y: nat) returns (z: nat)
    requires AtMark(pnl, y)
    ensures FirstMark(pnl, z)
  {
    if x: nat :| x < y && AtMark(pnl, x) {
      z := FindFirstMark(pnl, x);
    } else {
      z := y;
    }
  }

  lemma LongestFrom(pnl: seq<real>, z: nat, d: nat)
    requires FirstMark(pnl, z) && IsLongestRun(pnl, z, d)
    ensures IsLongestRun(pnl, 1, d) <==> z - 1 <= d
    ensures forall y: nat | FirstMark(pnl, y) :: y == z
  {
    forall t: nat | 1 <= t < z ensures DrawdownAt(pnl, t) > 0.0 {
      assert !AtMark(pnl, t);
      DrawdownIsNotNegative(pnl, t);
    }
    assert Below(pnl, 1, z);
    assert !(DrawdownAt(pnl, z) > 0.0);
    forall y: nat | FirstMark(pnl, y) ensures y == z {
      assert !(y < z) && !(z < y);
    }
  }

  /** A curve that starts with a loss and never recovers has no duration at all. */
  lemma LossFromTheStartHasNoDuration()
    ensures var pnl := [0.0, -1.0, -2.0];
            IsLongestRun(pnl, 1, 2) && forall t: nat | t < 3 :: DurationAt(pnl, t).None?
  {
    var pnl := [0.0, -1.0, -2.0];
    assert Hwm(pnl, 0) == 0.0 && Hwm(pnl, 1) == 0.0 && Hwm(pnl, 2) == 0.0;
    assert DurationAt(pnl, 0).None? && DurationAt(pnl, 1).None? && DurationAt(pnl, 2).None?;
    assert Below(pnl, 1, 3);
  }
}
