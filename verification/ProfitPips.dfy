/** mt4/constants.py: pip and profit_pip.  The instrument table enters as a parameter. */
module ProfitPips {
  import opened Wrappers
  import opened Decimals

  datatype OrderSide = BUY | SELL

  type PipDict = map<string, real>

  ghost predicate ValidPips(pips: PipDict) {
    forall s <- pips :: pips[s] > 0.0
  }

  /** quantize(Decimal("0.1")) in the default context. */
  function ToTenths(x: real): real {
    RoundHalfEven(x * 10.0) as real / 10.0
  }

  /** pip(symbol, price): a price of zero is false in Python, so it gets the pip unit back.
      None stands for the exception about an unknown symbol. */
  function Pip(pips: PipDict, symbol: string, price: real): Option<real>
    requires ValidPips(pips)
  {
    if symbol !in pips then None
    else if price == 0.0 then Some(pips[symbol])
    else Some(ToTenths(price / pips[symbol]))
  }

  function ProfitPip(pips: PipDict, symbol: string, open: real, close: real, side: OrderSide): Option<real>
    requires ValidPips(pips)
  {
    Pip(pips, symbol, if side == BUY then close - open else open - close)
  }

  /** A trade that has lost no more than a twentieth of a pip still counts as profitable. */
  lemma ProfitableIff(pips: PipDict, symbol: string, open: real, close: real, side: OrderSide)
    requires ValidPips(pips) && symbol in pips
    ensures var gain := if side == BUY then close - open else open - close;
            ProfitPip(pips, symbol, open, close, side).value >= 0.0 <==> gain >= -0.05 * pips[symbol]
  {
    var gain := if side == BUY then close - open else open - close;
    var unit := pips[symbol];
    if gain != 0.0 {
      var x := gain / unit;
      HalfEvenIsUnique(x * 10.0, RoundHalfEven(x * 10.0));
      InUnits(gain, unit, x);
      TenthsAreNonNegativeIff(x);
    }
  }

  /** Break-even comes back as the pip unit; so the profit is the gain in pips, rounded to tenths,
      if and only if there is a gain or a loss, or the pip unit itself is no more than that
      rounding. */
  lemma BreakEvenIsAPip(pips: PipDict, symbol: string, open: real, close: real, side: OrderSide)
    requires ValidPips(pips) && symbol in pips
    ensures var gain := if side == BUY then close - open else open - close;
            var v := ProfitPip(pips, symbol, open, close, side).value;
            && (gain == 0.0 ==> v == pips[symbol])
            && (Abs(v - gain / pips[symbol]) <= 0.05 <==> gain != 0.0 || pips[symbol] <= 0.05)
  {
    var gain := if side == BUY then close - open else open - close;
    if gain == 0.0 {
      assert gain / pips[symbol] == 0.0;
    } else {
      TenthsAreNear(gain / pips[symbol]);
    }
  }

  /** The profit in tenths of a pip, a tie going to the even tenth. */
  lemma TenthsOfAPip(pips: PipDict, symbol: string, open: real, close: real, side: OrderSide) returns (n: int)
    requires ValidPips(pips) && symbol in pips && open != close
    ensures ProfitPip(pips, symbol, open, close, side) == Some(n as real / 10.0)
    ensures IsHalfEven(n, (if side == BUY then close - open else open - close) / pips[symbol] * 10.0)
  {
    var x := (if side == BUY then close - open else open - close) / pips[symbol];
    n := RoundHalfEven(x * 10.0);
    HalfEvenIsUnique(x * 10.0, n);
  }

  lemma TenthsAreNear(x: real)
    ensures Abs(ToTenths(x) - x) <= 0.05
  {
    HalfEvenIsUnique(x * 10.0, RoundHalfEven(x * 10.0));
  }

  lemma InUnits(gain: real, unit: real, x: real)
    requires unit > 0.0 && x == gain / unit
    ensures x >= -0.05 <==> gain >= -0.05 * unit
  {
    assert gain == x * unit;
    assert gain + 0.05 * unit == (x + 0.05) * unit;
  }

  lemma TenthsAreNonNegativeIff(x: real)
    ensures ToTenths(x) >= 0.0 <==> x >= -0.05
  {
    var n := RoundHalfEven(x * 10.0);
    HalfEvenIsUnique(x * 10.0, n);
    if x == -0.05 {
      HalfEvenIsUnique(-0.5, 0);
    }
  }
}
