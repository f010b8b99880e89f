/** strategy/strategy.py: the moving-average cross strategy.  Averages are exact. */
module CrossStrategies {
  import opened Wrappers
  import opened Portfolios

  datatype Averages = Averages(short: real, long: real)

  /** One entry of pairs_dict. */
  datatype PairState = PairState(ticks: nat, invested: bool, sma: Option<Averages>)

  const FRESH := PairState(0, false, None)

  datatype SignalEvent = SignalEvent(pair: string, side: Side)

  /** calc_rolling_sma */
  function RollingSma(previous: real, window: int, price: real): real
    requires window != 0
  {
    (previous * (window - 1) as real + price) / window as real
  }

  function Averaged(st: PairState, shortWindow: int, longWindow: int, price: real): Averages
    requires shortWindow != 0 && longWindow != 0
  {
    if st.ticks == 0 || st.sma.None? then Averages(price, price)
    else Averages(RollingSma(st.sma.value.short, shortWindow, price), RollingSma(st.sma.value.long, longWindow, price))
  }

  /** The signals of one tick: at most one, because a buy needs short above long. */
  function Signals(st: PairState, avg: Averages, shortWindow: int): seq<Side> {
    if st.ticks <= shortWindow then []
    else if avg.short > avg.long && !st.invested then [Buy]
    else if avg.short < avg.long && st.invested then [Sell]
    else []
  }

  function Next(st: PairState, shortWindow: int, longWindow: int, price: real): PairState
    requires shortWindow != 0 && longWindow != 0
  {
    var avg := Averaged(st, shortWindow, longWindow, price);
    PairState(st.ticks + 1, if Signals(st, avg, shortWindow) == [] then st.invested else !st.invested, Some(avg))
  }

  class MovingAverageCrossStrategy {
    const shortWindow: int
    const longWindow: int
    var pairsDict: map<string, PairState>
    var events: seq<SignalEvent>

    ghost predicate Valid()
      reads this
    {
      && shortWindow != 0 && longWindow != 0
      && forall p <- pairsDict :: pairsDict[p].ticks > 0 ==> pairsDict[p].sma.Some?
    }

    constructor (pairs: set<string>, shortWindow: int, longWindow: int)
      requires shortWindow != 0 && longWindow != 0
      ensures Valid() && this.shortWindow == shortWindow && this.longWindow == longWindow
      ensures pairsDict == (map p | p in pairs :: FRESH) && events == []
    {
      this.shortWindow := shortWindow;
      this.longWindow := longWindow;
      this.pairsDict := map p | p in pairs :: FRESH;
      this.events := [];
    }

    method CalculateSignals(pair: string, price: real)
      requires Valid() && pair in pairsDict
      modifies this
      ensures Valid()
      ensures pairsDict == old(pairsDict)[pair := Next(old(pairsDict)[pair], shortWindow, longWindow, price)]
      ensures var st := old(pairsDict)[pair];
              events == old(events) + Tagged(pair, Signals(st, Averaged(st, shortWindow, longWindow, price), shortWindow))
    {
      var pd := pairsDict[pair];
      var short, long;
      if pd.ticks == 0 {
        short, long := price, price;
      } else {
        short := RollingSma(pd.sma.value.short, shortWindow, price);
        long := RollingSma(pd.sma.value.long, longWindow, price);
      }
      var invested := pd.invested;
      if pd.ticks > shortWindow {
        if short > long && !invested {
          events := events + [SignalEvent(pair, Buy)];
          invested := true;
        }
        if short < long && invested {
          events := events + [SignalEvent(pair, Sell)];
          invested := false;
        }
      }
      pairsDict := pairsDict[pair := PairState(pd.ticks + 1, invested, Some(Averages(short, long)))];
    }
  }

  function Tagged(pair: string, sides: seq<Side>): seq<SignalEvent> {
    seq(|sides|, i requires 0 <= i < |sides| => SignalEvent(pair, sides[i]))
  }

  // ----- runs over the ticks of one pair

  function After(st: PairState, shortWindow: int, longWindow: int, prices: seq<real>): PairState
    requires shortWindow != 0 && longWindow != 0
    decreases prices
  {
    if prices == [] then st
    else After(Next(st, shortWindow, longWindow, prices[0]), shortWindow, longWindow, prices[1..])
  }

  function Emitted(st: PairState, shortWindow: int, longWindow: int, prices: seq<real>): seq<Side>
    requires shortWindow != 0 && longWindow != 0
    decreases prices
  {
    if prices == [] then [] else
    Signals(st, Averaged(st, shortWindow, longWindow, prices[0]), shortWindow)
    + Emitted(Next(st, shortWindow, longWindow, prices[0]), shortWindow, longWindow, prices[1..])
  }

  predicate InRange(st: PairState, lo: real, hi: real) {
    st.ticks > 0 && st.sma.Some? ==> lo <= st.sma.value.short <= hi && lo <= st.sma.value.long <= hi
  }

  lemma SmaIsBetween(previous: real, window: int, price: real, lo: real, hi: real)
    requires window >= 1 && lo <= previous <= hi && lo <= price <= hi
    ensures lo <= RollingSma(previous, window, price) <= hi
  {
    var w, avg := window as real, RollingSma(previous, window, price);
    assert avg * w == previous * (w - 1.0) + price;
    assert (previous - lo) * (w - 1.0) >= 0.0 && (hi - previous) * (w - 1.0) >= 0.0;
    assert (avg - lo) * w >= 0.0 && (hi - avg) * w >= 0.0;
  }

  /** Both averages stay between the least and the greatest price seen. */
  lemma {:induction false} AveragesStayInRange(st: PairState, shortWindow: int, longWindow: int, prices: seq<real>, lo: real, hi: real)
    requires shortWindow >= 1 && longWindow >= 1 && InRange(st, lo, hi)
    requires forall p <- prices :: lo <= p <= hi
    ensures InRange(After(st, shortWindow, longWindow, prices), lo, hi)
    decreases prices
  {
    if prices == [] {
    } else {
      var price := prices[0];
      assert price in prices;
      if st.ticks > 0 && st.sma.Some? {
        SmaIsBetween(st.sma.value.short, shortWindow, price, lo, hi);
        SmaIsBetween(st.sma.value.long, longWindow, price, lo, hi);
      }
      assert forall p <- prices[1..] :: p in prices;
      AveragesStayInRange(Next(st, shortWindow, longWindow, price), shortWindow, longWindow, prices[1..], lo, hi);
    }
  }

  function Mul(x: real, y: real): real {
    x * y
  }

  function Pow(x: real, n: nat): real {
    if n == 0 then 1.0 else Mul(x, Pow(x, n - 1))
  }

  /** The prices with their weights: each later price weighs w where the one before weighs w - 1. */
  function Weighted(prices: seq<real>, w: real): real {
    if prices == [] then 0.0 else Mul(prices[0], Pow(w - 1.0, |prices| - 1)) + Mul(w, Weighted(prices[1..], w))
  }

  function Smoothed(sma: real, window: int, prices: seq<real>): real
    requires window != 0
    decreases prices
  {
    if prices == [] then sma else Smoothed(RollingSma(sma, window, prices[0]), window, prices[1..])
  }

  ghost predicate Adds(x: real, a: real, y: real, b: real, z: real) {
    x * a == y * b + z
  }

  lemma Regrouped(end: real, w: real, wn: real, next: real, sma: real, price: real, vn: real, rest: real)
    requires Adds(end, wn, next, vn, rest) && next * w == sma * (w - 1.0) + price
    ensures Adds(end, Mul(w, wn), sma, Mul(w - 1.0, vn), Mul(price, vn) + Mul(w, rest))
  {
    assert end * (w * wn) == w * (end * wn);
    assert w * (next * vn) == (next * w) * vn;
  }

  /** In closed form: after n prices the average times w^n is the first average times (w - 1)^n
      and the weighted sum of the prices. */
  lemma {:induction false} AverageIsTheWeightedSum(sma: real, window: int, prices: seq<real>)
    requires window != 0
    ensures Adds(Smoothed(sma, window, prices), Pow(window as real, |prices|),
                 sma, Pow(window as real - 1.0, |prices|), Weighted(prices, window as real))
    decreases prices
  {
    if prices != [] {
      var w, n := window as real, |prices| - 1;
      var next := RollingSma(sma, window, prices[0]);
      assert next * w == sma * (w - 1.0) + prices[0];
      hide RollingSma, Adds, Mul;
      AverageIsTheWeightedSum(next, window, prices[1..]);
      Regrouped(Smoothed(next, window, prices[1..]), w, Pow(w, n), next, sma, prices[0], Pow(w - 1.0, n), Weighted(prices[1..], w));
    }
  }

  /** The averages the strategy keeps, past its first tick, are these. */
  lemma {:induction false} AveragesAreSmoothed(st: PairState, shortWindow: int, longWindow: int, prices: seq<real>)
    requires shortWindow != 0 && longWindow != 0 && st.ticks > 0 && st.sma.Some?
    ensures After(st, shortWindow, longWindow, prices).sma
         == Some(Averages(Smoothed(st.sma.value.short, shortWindow, prices), Smoothed(st.sma.value.long, longWindow, prices)))
    decreases prices
  {
    hide RollingSma, Signals;
    if prices != [] {
      AveragesAreSmoothed(Next(st, shortWindow, longWindow, prices[0]), shortWindow, longWindow, prices[1..]);
    }
  }

  function Opposite(side: Side): Side {
    if side == Buy then Sell else Buy
  }

  /** The side the strategy signals next. */
  function NextSide(invested: bool): Side {
    if invested then Sell else Buy
  }

  ghost predicate Alternates(sides: seq<Side>, first: Side) {
    forall i | 0 <= i < |sides| :: sides[i] == if i % 2 == 0 then first else Opposite(first)
  }

  lemma AlternatesFrom(first: Side, later: seq<Side>)
    requires Alternates(later, Opposite(first))
    ensures Alternates([first] + later, first)
  {
    var all := [first] + later;
    forall i | 0 <= i < |all| ensures all[i] == if i % 2 == 0 then first else Opposite(first) {
      if i > 0 {
        assert all[i] == later[i - 1];
      }
    }
  }

  /** Signals of one pair strictly alternate, a fresh pair starts with a buy, and the flag is
      set exactly after an odd number of them. */
  lemma {:induction false} SignalsAlternate(st: PairState, shortWindow: int, longWindow: int, prices: seq<real>)
    requires shortWindow != 0 && longWindow != 0
    ensures Alternates(Emitted(st, shortWindow, longWindow, prices), NextSide(st.invested))
    ensures After(st, shortWindow, longWindow, prices).invested
        == (st.invested == (|Emitted(st, shortWindow, longWindow, prices)| % 2 == 0))
    decreases prices
  {
    hide RollingSma;
    if prices == [] {
    } else {
      var now := Signals(st, Averaged(st, shortWindow, longWindow, prices[0]), shortWindow);
      var next := Next(st, shortWindow, longWindow, prices[0]);
      var later := Emitted(next, shortWindow, longWindow, prices[1..]);
      SignalsAlternate(next, shortWindow, longWindow, prices[1..]);
      if now != [] {
        AlternatesFrom(now[0], later);
      }
    }
  }

  /** Nothing is signalled before the pair has had one tick more than the short window. */
  lemma {:induction false} QuietDuringWarmUp(st: PairState, shortWindow: int, longWindow: int, prices: seq<real>)
    requires shortWindow != 0 && longWindow != 0 && st.ticks + |prices| <= shortWindow + 1
    ensures Emitted(st, shortWindow, longWindow, prices) == []
    decreases prices
  {
    hide RollingSma;
    if prices != [] {
      QuietDuringWarmUp(Next(st, shortWindow, longWindow, prices[0]), shortWindow, longWindow, prices[1..]);
    }
  }

  /** From then on the flag says after every tick which average is above; if they are equal it
      stays as it was. */
  lemma FlagIsTheCross(st: PairState, shortWindow: int, longWindow: int, price: real)
    requires shortWindow != 0 && longWindow != 0 && st.ticks > shortWindow
    ensures var next := Next(st, shortWindow, longWindow, price);
            var avg := next.sma.value;
            next.invested == if avg.short == avg.long then st.invested else avg.short > avg.long
  {
    hide RollingSma;
  }

  // ----- prices in another unit

  function Affine(a: real, b: real, price: real): real {
    a * price + b
  }

  function AffineState(a: real, b: real, st: PairState): PairState {
    if st.sma.None? then st
    else st.(sma := Some(Averages(Affine(a, b, st.sma.value.short), Affine(a, b, st.sma.value.long))))
  }

  lemma SmaCommutes(a: real, b: real, previous: real, window: int, price: real)
    requires window != 0
    ensures RollingSma(Affine(a, b, previous), window, Affine(a, b, price)) == Affine(a, b, RollingSma(previous, window, price))
  {
    var w, avg := window as real, RollingSma(previous, window, price);
    assert avg * w == previous * (w - 1.0) + price;
    assert Affine(a, b, previous) * (w - 1.0) + Affine(a, b, price) == a * (previous * (w - 1.0) + price) + b * w;
    assert a * (avg * w) + b * w == Affine(a, b, avg) * w;
    DivideBack(Affine(a, b, avg), w);
  }

  lemma DivideBack(x: real, w: real)
    requires w != 0.0
    ensures x * w / w == x
  {
  }

  /** Rescaling all prices by p -> a*p + b with a > 0 leaves every signal as it was. */
  lemma {:induction false} SignalsAreScaleFree(st: PairState, shortWindow: int, longWindow: int, prices: seq<real>, a: real, b: real)
    requires shortWindow != 0 && longWindow != 0 && a > 0.0
    ensures Emitted(AffineState(a, b, st), shortWindow, longWindow, seq(|prices|, i requires 0 <= i < |prices| => Affine(a, b, prices[i])))
         == Emitted(st, shortWindow, longWindow, prices)
    decreases prices
  {
    hide RollingSma, Affine;
    var scaled := seq(|prices|, i requires 0 <= i < |prices| => Affine(a, b, prices[i]));
    if prices == [] {
    } else {
      var avg := Averaged(st, shortWindow, longWindow, prices[0]);
      var avg' := Averaged(AffineState(a, b, st), shortWindow, longWindow, scaled[0]);
      assert avg' == Averages(Affine(a, b, avg.short), Affine(a, b, avg.long)) by {
        if st.ticks > 0 && st.sma.Some? {
          SmaCommutes(a, b, st.sma.value.short, shortWindow, prices[0]);
          SmaCommutes(a, b, st.sma.value.long, longWindow, prices[0]);
        }
      }
      OrderKept(a, b, avg.short, avg.long);
      OrderKept(a, b, avg.long, avg.short);
      var next := Next(st, shortWindow, longWindow, prices[0]);
      assert Next(AffineState(a, b, st), shortWindow, longWindow, scaled[0]) == AffineState(a, b, next);
      assert scaled[1..] == seq(|prices[1..]|, i requires 0 <= i < |prices[1..]| => Affine(a, b, prices[1..][i]));
      SignalsAreScaleFree(next, shortWindow, longWindow, prices[1..], a, b);
    }
  }

  lemma OrderKept(a: real, b: real, x: real, y: real)
    requires a > 0.0
    ensures Affine(a, b, x) < Affine(a, b, y) <==> x < y
  {
    assert Affine(a, b, y) - Affine(a, b, x) == a * (y - x);
  }
}
