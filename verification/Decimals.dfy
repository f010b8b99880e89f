/** Python's Decimal.quantize on exact values: rounding to the nearest multiple of a
    quantum, with ROUND_HALF_DOWN (portfolio/position.py) or ROUND_HALF_EVEN (the default
    context, mt4/constants.py).  Decimals are modelled as real numbers. */
module Decimals {

  function Abs(x: real): (r: real)
    ensures r >= 0.0 && (r == x || r == -x)
  {
    if x < 0.0 then -x else x
  }

  /** n is a nearest integer to x. */
  ghost predicate Nearest(n: int, x: real) {
    Abs(n as real - x) <= 0.5
  }

  /** n is a nearest integer to x, and a tie goes toward zero. */
  ghost predicate IsHalfDown(n: int, x: real) {
    Nearest(n, x) && (Abs(n as real - x) == 0.5 ==> Abs(n as real) < Abs(x))
  }

  /** n is a nearest integer to x, and a tie goes to the even neighbour. */
  ghost predicate IsHalfEven(n: int, x: real) {
    Nearest(n, x) && (Abs(n as real - x) == 0.5 ==> n % 2 == 0)
  }

  function RoundHalfDown(x: real): int
  {
    var whole := x.Floor;
    var rest := x - whole as real;
    if rest < 0.5 || (rest == 0.5 && x >= 0.0) then whole else whole + 1
  }

  function RoundHalfEven(x: real): int
  {
    var whole := x.Floor;
    var rest := x - whole as real;
    if rest < 0.5 || (rest == 0.5 && whole % 2 == 0) then whole else whole + 1
  }

  /** The tie rule leaves exactly one possible result. */
  lemma HalfDownIsUnique(x: real, n: int)
    ensures IsHalfDown(n, x) <==> n == RoundHalfDown(x)
  {
    var m := RoundHalfDown(x);
    assert IsHalfDown(n, x) ==> Abs(n as real - m as real) <= 1.0;
    assert IsHalfDown(n, x) ==> -1 <= n - m <= 1;
  }

  lemma HalfEvenIsUnique(x: real, n: int)
    ensures IsHalfEven(n, x) <==> n == RoundHalfEven(x)
  {
    var m := RoundHalfEven(x);
    assert IsHalfEven(n, x) ==> Abs(n as real - m as real) <= 1.0;
    assert IsHalfEven(n, x) ==> -1 <= n - m <= 1;
  }

  /** quantize(Decimal("0.00001"), ROUND_HALF_DOWN) */
  function ToPoints(x: real): real {
    RoundHalfDown(x * 100000.0) as real / 100000.0
  }

  /** quantize(Decimal("0.01"), ROUND_HALF_DOWN) */
  function ToCents(x: real): real {
    RoundHalfDown(x * 100.0) as real / 100.0
  }

  /** Rounding moves a value by at most half a quantum. */
  lemma RoundingError(x: real)
    ensures Abs(ToPoints(x) - x) <= 0.000005
    ensures Abs(ToCents(x) - x) <= 0.005
  {
  }

  /** A value already on the grid is left alone, so rounding twice changes nothing. */
  lemma GridPointsAreFixed(n: int)
    ensures ToPoints(n as real / 100000.0) == n as real / 100000.0
    ensures ToCents(n as real / 100.0) == n as real / 100.0
  {
    HalfDownIsUnique(n as real, n);
  }

  lemma ProductOfAbs(x: real, y: real)
    ensures Abs(x * y) == Abs(x) * Abs(y)
  {
  }

  /** If |x| is at most bound, then |x * y| is at most bound * |y|. */
  lemma ScaledBound(x: real, y: real, bound: real)
    requires Abs(x) <= bound
    ensures Abs(x * y) <= bound * Abs(y)
  {
    ProductOfAbs(x, y);
    assert (bound - Abs(x)) * Abs(y) >= 0.0;
  }
}
