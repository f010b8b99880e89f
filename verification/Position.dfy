/** portfolio/position.py: one open position, its average price and its rounded profit. */
module Positions {
  import opened Decimals
  import opened Pricing

  /** What never changes while a position is open. */
  datatype Terms = Terms(base: string, side: PositionType, pair: string)

  /** The fields that the methods update. */
  datatype Book = Book(units: real, avgPrice: real, curPrice: real, profitBase: real, profitPerc: real)

  function Sign(side: PositionType): (m: real)
    ensures m == 1.0 || m == -1.0
  {
    if side == Long then 1.0 else -1.0
  }

  /** calculate_pips */
  function Pips(side: PositionType, curPrice: real, avgPrice: real): real {
    ToPoints(Sign(side) * (curPrice - avgPrice))
  }

  function ProfitBase(pips: real, rate: real, units: real): real {
    ToPoints(pips * rate * units)
  }

  function ProfitPerc(profitBase: real, units: real): real
    requires units != 0.0
  {
    ToPoints(profitBase / units * 100.0)
  }

  /** The pip profit of the given units, converted and rounded to cents. */
  function Realised(pips: real, rate: real, units: real): real {
    ToCents(pips * rate * units)
  }

  function PooledCost(avgPrice: real, units: real, fill: real, more: real): real {
    avgPrice * units + fill * more
  }

  function PooledPrice(cost: real, units: real): real
    requires units != 0.0
  {
    cost / units
  }

  function Revalued(t: Terms, units: real, avgPrice: real, prices: Prices): Book
    requires units != 0.0 && Valuable(t.pair, t.base, prices)
  {
    var curPrice := ExitQuote(t.side, t.pair, prices);
    var rate := ConversionRate(t.side, t.pair, t.base, prices);
    var profit := ProfitBase(Pips(t.side, curPrice, avgPrice), rate, units);
    Book(units, avgPrice, curPrice, profit, ProfitPerc(profit, units))
  }

  function Opened(t: Terms, units: real, prices: Prices): Book
    requires units != 0.0 && Valuable(t.pair, t.base, prices)
  {
    Revalued(t, units, EntryQuote(t.side, t.pair, prices), prices)
  }

  lemma RevaluedUnits(t: Terms, units: real, avgPrice: real, prices: Prices)
    requires units != 0.0 && Valuable(t.pair, t.base, prices)
    ensures Revalued(t, units, avgPrice, prices).units == units
  {
  }

  lemma OpenedUnits(t: Terms, units: real, prices: Prices)
    requires units != 0.0 && Valuable(t.pair, t.base, prices)
    ensures Opened(t, units, prices).units == units
  {
  }

  /** The units are pooled and the average price is their total cost over their number. */
  function Added(t: Terms, b: Book, units: real, prices: Prices): Book
    requires b.units + units != 0.0 && Valuable(t.pair, t.base, prices)
  {
    var cost := PooledCost(b.avgPrice, b.units, EntryQuote(t.side, t.pair, prices), units);
    Revalued(t, b.units + units, PooledPrice(cost, b.units + units), prices)
  }

  function ClosingPnl(t: Terms, b: Book, prices: Prices): real
    requires Valuable(t.pair, t.base, prices)
  {
    var pips := Pips(t.side, ExitQuote(t.side, t.pair, prices), b.avgPrice);
    Realised(pips, ConversionRate(t.side, t.pair, t.base, prices), b.units)
  }

  /** remove_units converts at the opposite side of the conversion pair from close_position. */
  function RemovalRate(t: Terms, prices: Prices): real
    requires Quoted(prices, ConversionPair(t.pair, t.base))
  {
    EntryQuote(t.side, ConversionPair(t.pair, t.base), prices)
  }

  function RemovalPnl(t: Terms, b: Book, fewer: real, prices: Prices): real
    requires Quoted(prices, t.pair) && Quoted(prices, ConversionPair(t.pair, t.base))
  {
    var pips := Pips(t.side, ExitQuote(t.side, t.pair, prices), b.avgPrice);
    Realised(pips, RemovalRate(t, prices), fewer)
  }

  class Position {
    const terms: Terms
    var units: real
    var avgPrice: real
    var curPrice: real
    var profitBase: real
    var profitPerc: real

    function Current(): Book
      reads this
    {
      Book(units, avgPrice, curPrice, profitBase, profitPerc)
    }

    constructor (terms: Terms, units: real, prices: Prices)
      requires units != 0.0 && Valuable(terms.pair, terms.base, prices)
      ensures this.terms == terms && this.units == units
      ensures terms.side == Long ==> avgPrice == prices[terms.pair].ask.value && curPrice == prices[terms.pair].bid.value
      ensures terms.side == Short ==> avgPrice == prices[terms.pair].bid.value && curPrice == prices[terms.pair].ask.value
      ensures Current() == Opened(terms, units, prices)
    {
      this.terms := terms;
      this.units := units;
      this.avgPrice := EntryQuote(terms.side, terms.pair, prices);
      this.curPrice := ExitQuote(terms.side, terms.pair, prices);
      this.profitBase := 0.0;
      this.profitPerc := 0.0;
      new;
      this.profitBase := CalculateProfitBase(prices);
      this.profitPerc := CalculateProfitPerc();
    }

    function CalculatePips(): real
      reads this
    {
      Pips(terms.side, curPrice, avgPrice)
    }

    function CalculateProfitBase(prices: Prices): real
      requires Valuable(terms.pair, terms.base, prices)
      reads this
    {
      ProfitBase(CalculatePips(), ConversionRate(terms.side, terms.pair, terms.base, prices), units)
    }

    function CalculateProfitPerc(): real
      requires units != 0.0
      reads this
    {
      ProfitPerc(profitBase, units)
    }

    method UpdatePositionPrice(prices: Prices)
      requires units != 0.0 && Valuable(terms.pair, terms.base, prices)
      modifies this
      ensures units == old(units) && avgPrice == old(avgPrice)
      ensures curPrice == if terms.side == Long then prices[terms.pair].bid.value else prices[terms.pair].ask.value
      ensures Current() == Revalued(terms, old(units), old(avgPrice), prices)
    {
      curPrice := ExitQuote(terms.side, terms.pair, prices);
      profitBase := CalculateProfitBase(prices);
      profitPerc := CalculateProfitPerc();
    }

    method AddUnits(more: real, prices: Prices)
      requires units + more != 0.0 && Valuable(terms.pair, terms.base, prices)
      modifies this
      ensures units == old(units) + more
      ensures terms.side == Long ==> avgPrice * units == old(avgPrice * units) + prices[terms.pair].ask.value * more
      ensures terms.side == Short ==> avgPrice * units == old(avgPrice * units) + prices[terms.pair].bid.value * more
      ensures Current() == Added(terms, old(Current()), more, prices)
    {
      AddPoolsTheCost(terms, Current(), more, prices);
      var addPrice := EntryQuote(terms.side, terms.pair, prices);
      var newTotalUnits := units + more;
      var newTotalCost := PooledCost(avgPrice, units, addPrice, more);
      avgPrice := PooledPrice(newTotalCost, newTotalUnits);
      units := newTotalUnits;
      UpdatePositionPrice(prices);
    }

    /** Removing every unit divides by zero in calculate_profit_perc. */
    method RemoveUnits(fewer: real, prices: Prices) returns (pnl: real)
      requires units != fewer && Valuable(terms.pair, terms.base, prices)
      requires Quoted(prices, ConversionPair(terms.pair, terms.base))
      modifies this
      ensures Current() == Revalued(terms, old(units) - fewer, old(avgPrice), prices)
      ensures pnl == RemovalPnl(terms, old(Current()), fewer, prices)
    {
      units := units - fewer;
      UpdatePositionPrice(prices);
      pnl := Realised(CalculatePips(), RemovalRate(terms, prices), fewer);
    }

    method ClosePosition(prices: Prices) returns (pnl: real)
      requires units != 0.0 && Valuable(terms.pair, terms.base, prices)
      modifies this
      ensures Current() == Revalued(terms, old(units), old(avgPrice), prices)
      ensures pnl == ClosingPnl(terms, old(Current()), prices)
    {
      UpdatePositionPrice(prices);
      pnl := Realised(CalculatePips(), ConversionRate(terms.side, terms.pair, terms.base, prices), units);
    }
  }

  /** What adding units means: the average price times the units is exactly the sum of what
      the fills cost, a long at the ask and a short at the bid, and the average lies between the
      old average and the new fill. */
  lemma AddPoolsTheCost(t: Terms, b: Book, units: real, prices: Prices)
    requires b.units + units != 0.0 && Valuable(t.pair, t.base, prices)
    ensures var a := Added(t, b, units, prices);
            var fill := if t.side == Long then prices[t.pair].ask.value else prices[t.pair].bid.value;
            && a.units == b.units + units
            && a.avgPrice * a.units == b.avgPrice * b.units + fill * units
            && (b.units > 0.0 && units > 0.0 && b.avgPrice <= fill ==> b.avgPrice <= a.avgPrice <= fill)
            && (b.units > 0.0 && units > 0.0 && fill <= b.avgPrice ==> fill <= a.avgPrice <= b.avgPrice)
  {
    hide Pips, ProfitBase, ProfitPerc, ConversionRate;
    var a := Added(t, b, units, prices);
    var fill := EntryQuote(t.side, t.pair, prices);
    var total := b.units + units;
    assert a.avgPrice * total == b.avgPrice * b.units + fill * units;
    if b.units > 0.0 && units > 0.0 {
      Mean(b.avgPrice, fill, b.units, units, a.avgPrice);
    }
  }

  lemma Mean(x: real, y: real, m: real, n: real, avg: real)
    requires m > 0.0 && n > 0.0 && avg * (m + n) == x * m + y * n
    ensures x <= y ==> x <= avg <= y
    ensures y <= x ==> y <= avg <= x
  {
    assert (avg - x) * (m + n) == (y - x) * n;
    assert (avg - y) * (m + n) == (x - y) * m;
  }

  /** What closing units bought for the given total cost brings in, exactly. */
  function CashFlow(side: PositionType, exit: real, cost: real, units: real, rate: real): real {
    (if side == Long then exit * units - cost else cost - exit * units) * rate
  }

  /** Realised profit differs from the exact cash flow of the closed units, converted at the
      same rate, by at most half a cent plus half a point on each converted unit. */
  lemma RealisedIsNearCashFlow(side: PositionType, exit: real, avgPrice: real, units: real, cost: real, rate: real)
    requires avgPrice * units == cost
    ensures Within(Realised(Pips(side, exit, avgPrice), rate, units), CashFlow(side, exit, cost, units, rate), Slack(rate, units))
  {
    hide Pips, Realised, CashFlow, Sign;
    var pips := Pips(side, exit, avgPrice);
    PipsAreNear(side, exit, avgPrice);
    CentsAreNear(pips, rate, units);
    Factored(side, exit, avgPrice, units, cost, rate, pips);
    NearProduct(Realised(pips, rate, units), pips * rate * units, CashFlow(side, exit, cost, units, rate), 0.005,
                pips - Sign(side) * (exit - avgPrice), rate * units);
  }

  ghost predicate Within(x: real, y: real, slack: real) {
    Abs(x - y) <= slack
  }

  /** Half a cent, plus half a point on each converted unit. */
  function Slack(rate: real, units: real): real {
    0.005 + 0.000005 * Abs(rate * units)
  }

  lemma PipsAreNear(side: PositionType, exit: real, avgPrice: real)
    ensures Abs(Pips(side, exit, avgPrice) - Sign(side) * (exit - avgPrice)) <= 0.000005
  {
    RoundingError(Sign(side) * (exit - avgPrice));
  }

  lemma CentsAreNear(pips: real, rate: real, units: real)
    ensures Abs(Realised(pips, rate, units) - pips * rate * units) <= 0.005
  {
    RoundingError(pips * rate * units);
  }

  lemma NearProduct(rounded: real, product: real, exact: real, rounding: real, error: real, k: real)
    requires Abs(rounded - product) <= rounding && Abs(error) <= 0.000005
    requires product - exact == error * k
    ensures Within(rounded, exact, rounding + 0.000005 * Abs(k))
  {
    ScaledBound(error, k, 0.000005);
    TwoSteps(rounded, product, exact, rounding, error * k, 0.000005 * Abs(k));
  }

  lemma Factored(side: PositionType, exit: real, avgPrice: real, units: real, cost: real, rate: real, pips: real)
    requires avgPrice * units == cost
    ensures pips * rate * units - CashFlow(side, exit, cost, units, rate)
         == (pips - Sign(side) * (exit - avgPrice)) * (rate * units)
  {
  }

  lemma TwoSteps(x: real, y: real, z: real, first: real, gap: real, bound: real)
    requires Abs(x - y) <= first && y - z == gap && Abs(gap) <= bound
    ensures Within(x, z, first + bound)
  {
  }

  /** What closing realises is the profit shown for the position at the same prices, but for
      the rounding to cents. */
  lemma RealisedIsTheProfitShown(t: Terms, b: Book, prices: Prices)
    requires b.units != 0.0 && Valuable(t.pair, t.base, prices)
    ensures Abs(ClosingPnl(t, b, prices) - Revalued(t, b.units, b.avgPrice, prices).profitBase) <= 0.005005
  {
    hide Pips, ProfitPerc, ConversionRate, ExitQuote, Realised, ProfitBase;
    RoundedAlike(Pips(t.side, ExitQuote(t.side, t.pair, prices), b.avgPrice), ConversionRate(t.side, t.pair, t.base, prices), b.units);
  }

  lemma RoundedAlike(pips: real, rate: real, units: real)
    ensures Abs(Realised(pips, rate, units) - ProfitBase(pips, rate, units)) <= 0.005005
  {
    hide ToCents, ToPoints;
    RoundingError(pips * rate * units);
  }

  /** The spread is the cost of trading: a position closed at the very quotes it was opened at
      never gains, whichever its side. */
  lemma ImmediateCloseNeverGains(t: Terms, units: real, prices: Prices)
    requires units > 0.0 && Valuable(t.pair, t.base, prices)
    requires prices[t.pair].bid.value <= prices[t.pair].ask.value
    requires ConversionRate(t.side, t.pair, t.base, prices) >= 0.0
    ensures Opened(t, units, prices).profitBase <= 0.0
    ensures ClosingPnl(t, Opened(t, units, prices), prices) <= 0.0
  {
    hide ConversionRate, ProfitPerc, ProfitBase, Realised, Pips;
    var pips := Pips(t.side, ExitQuote(t.side, t.pair, prices), EntryQuote(t.side, t.pair, prices));
    NoGainInPips(t.side, ExitQuote(t.side, t.pair, prices), EntryQuote(t.side, t.pair, prices));
    NoGainIsKept(pips, ConversionRate(t.side, t.pair, t.base, prices), units);
  }

  lemma NoGainInPips(side: PositionType, exit: real, entry: real)
    requires if side == Long then exit <= entry else entry <= exit
    ensures Pips(side, exit, entry) <= 0.0
  {
  }

  lemma NoGainIsKept(pips: real, rate: real, units: real)
    requires pips <= 0.0 && rate >= 0.0 && units > 0.0
    ensures ProfitBase(pips, rate, units) <= 0.0 && Realised(pips, rate, units) <= 0.0
  {
    assert pips * rate <= 0.0;
    assert pips * rate * units <= 0.0;
    RoundedDown(pips * rate * units);
  }

  lemma RoundedDown(x: real)
    requires x <= 0.0
    ensures ToPoints(x) <= 0.0 && ToCents(x) <= 0.0
  {
  }

  // ----- what a close pays, in the quotes of the ticker

  lemma GainIsTheCashFlow(side: PositionType, pair: string, share: real, units: real, rate: real, prices: Prices)
    requires Quoted(prices, pair)
    ensures CashFlow(side, ExitQuote(side, pair, prices), share, units, rate)
         == (if side == Long then prices[pair].bid.value * units - share else share - prices[pair].ask.value * units) * rate
  {
  }

  /** What the units bring in at the quotes: a long is sold at the bid and a short is bought back
      at the ask. */
  lemma CloseNearQuotes(t: Terms, b: Book, cost: real, rate: real, prices: Prices)
    requires Valuable(t.pair, t.base, prices) && b.avgPrice * b.units == cost
    requires rate == ConversionRate(t.side, t.pair, t.base, prices)
    ensures t.side == Long ==> Within(ClosingPnl(t, b, prices), (prices[t.pair].bid.value * b.units - cost) * rate,
                                      0.005 + 0.000005 * Abs(rate * b.units))
    ensures t.side == Short ==> Within(ClosingPnl(t, b, prices), (cost - prices[t.pair].ask.value * b.units) * rate,
                                       0.005 + 0.000005 * Abs(rate * b.units))
  {
    hide Pips, Realised, ConversionRate, CashFlow;
    GainIsTheCashFlow(t.side, t.pair, cost, b.units, rate, prices);
    RealisedIsNearCashFlow(t.side, ExitQuote(t.side, t.pair, prices), b.avgPrice, b.units, cost, rate);
  }

  /** In the account's own currency a close pays, within half a cent and half a point a unit,
      what the units bring in less what their fills cost. */
  lemma CloseInOwnCurrency(t: Terms, b: Book, cost: real, prices: Prices)
    requires |t.pair| >= 3 && t.pair[3..] == t.base && Quoted(prices, t.pair) && b.avgPrice * b.units == cost
    ensures t.side == Long ==>
              Within(ClosingPnl(t, b, prices), prices[t.pair].bid.value * b.units - cost, 0.005 + 0.000005 * Abs(b.units))
    ensures t.side == Short ==>
              Within(ClosingPnl(t, b, prices), cost - prices[t.pair].ask.value * b.units, 0.005 + 0.000005 * Abs(b.units))
  {
    hide ClosingPnl;
    CloseNearQuotes(t, b, cost, 1.0, prices);
  }

  /** In any other currency it pays that much converted at the quotes of the pair of the two
      currencies: at the bid for a long, at the ask for a short. */
  lemma CloseAcrossCurrencies(t: Terms, b: Book, cost: real, rate: real, prices: Prices)
    requires |t.pair| >= 3 && t.pair[3..] != t.base && Quoted(prices, t.pair) && Quoted(prices, t.pair[3..] + t.base)
    requires b.avgPrice * b.units == cost
    requires var q := prices[t.pair[3..] + t.base]; rate == if t.side == Long then q.bid.value else q.ask.value
    ensures t.side == Long ==>
              Within(ClosingPnl(t, b, prices), (prices[t.pair].bid.value * b.units - cost) * rate, 0.005 + 0.000005 * Abs(rate * b.units))
    ensures t.side == Short ==>
              Within(ClosingPnl(t, b, prices), (cost - prices[t.pair].ask.value * b.units) * rate, 0.005 + 0.000005 * Abs(rate * b.units))
  {
    hide ClosingPnl;
    CloseNearQuotes(t, b, cost, rate, prices);
  }

  /** A removal is converted at the other side: at the ask for a long, at the bid for a short. */
  lemma RemovalAcrossCurrencies(t: Terms, b: Book, fewer: real, cost: real, rate: real, prices: Prices)
    requires |t.pair| >= 3 && Quoted(prices, t.pair) && Quoted(prices, t.pair[3..] + t.base)
    requires b.avgPrice * fewer == cost
    requires var q := prices[t.pair[3..] + t.base]; rate == if t.side == Long then q.ask.value else q.bid.value
    ensures t.side == Long ==>
              Within(RemovalPnl(t, b, fewer, prices), (prices[t.pair].bid.value * fewer - cost) * rate, 0.005 + 0.000005 * Abs(rate * fewer))
    ensures t.side == Short ==>
              Within(RemovalPnl(t, b, fewer, prices), (cost - prices[t.pair].ask.value * fewer) * rate, 0.005 + 0.000005 * Abs(rate * fewer))
  {
    hide Pips, Realised;
    assert RemovalRate(t, prices) == rate;
    RealisedIsNearCashFlow(t.side, ExitQuote(t.side, t.pair, prices), b.avgPrice, fewer, cost, rate);
  }

  lemma OpensAtTheQuote(t: Terms, units: real, prices: Prices)
    requires units != 0.0 && Valuable(t.pair, t.base, prices)
    ensures var b := Opened(t, units, prices);
            b.units == units && b.avgPrice == if t.side == Long then prices[t.pair].ask.value else prices[t.pair].bid.value
  {
  }

  /** Opened, added to and closed in the account's own currency: what was paid at each of the
      fills against what the close brings in. */
  lemma RoundTrip(t: Terms, units: real, more: real, opening: Prices, adding: Prices, closing: Prices) returns (cost: real)
    requires |t.pair| >= 3 && t.pair[3..] == t.base && units != 0.0 && units + more != 0.0
    requires Quoted(opening, t.pair) && Quoted(adding, t.pair) && Quoted(closing, t.pair)
    ensures t.side == Long ==> cost == opening[t.pair].ask.value * units + adding[t.pair].ask.value * more
    ensures t.side == Short ==> cost == opening[t.pair].bid.value * units + adding[t.pair].bid.value * more
    ensures var b := Added(t, Opened(t, units, opening), more, adding);
            var pnl, slack := ClosingPnl(t, b, closing), 0.005 + 0.000005 * Abs(b.units);
            && b.units == units + more
            && (t.side == Long ==> Within(pnl, closing[t.pair].bid.value * b.units - cost, slack))
            && (t.side == Short ==> Within(pnl, cost - closing[t.pair].ask.value * b.units, slack))
  {
    hide ClosingPnl, Added, Opened;
    OpensAtTheQuote(t, units, opening);
    var first := Opened(t, units, opening);
    AddPoolsTheCost(t, first, more, adding);
    var b := Added(t, first, more, adding);
    cost := b.avgPrice * b.units;
    CloseInOwnCurrency(t, b, cost, closing);
  }

  /** The price, the profit within its rounding, and the profit as a percentage of the units. */
  ghost predicate Shows(b: Book, units: real, exit: real, gain: real, rate: real) {
    && b.units == units && b.curPrice == exit
    && IsProfit(b.profitBase, gain, rate, units) && IsPercentage(b.profitPerc, b.profitBase, units)
  }

  /** Half a point on each converted unit, and as much again for the profit itself. */
  ghost predicate IsProfit(profit: real, gain: real, rate: real, units: real) {
    Within(profit, gain * (rate * units), 0.000005 + 0.000005 * Abs(rate * units))
  }

  ghost predicate IsPercentage(percentage: real, profit: real, units: real) {
    Within(percentage * units, 100.0 * profit, 0.000005 * Abs(units))
  }

  /** What is shown for a position after a repricing: the price it could be left at, the gain at
      that price converted like a close, and that gain as a percentage of the units. */
  lemma ShownAtTheQuotes(t: Terms, units: real, avgPrice: real, prices: Prices)
    requires units != 0.0 && Valuable(t.pair, t.base, prices) && |t.pair| >= 3
    ensures var r := Revalued(t, units, avgPrice, prices);
            var exit := if t.side == Long then prices[t.pair].bid.value else prices[t.pair].ask.value;
            var rate := if t.pair[3..] == t.base then 1.0
                        else if t.side == Long then prices[t.pair[3..] + t.base].bid.value
                        else prices[t.pair[3..] + t.base].ask.value;
            r.avgPrice == avgPrice && Shows(r, units, exit, if t.side == Long then exit - avgPrice else avgPrice - exit, rate)
  {
    hide Revalued, Shows;
    var exit := ExitQuote(t.side, t.pair, prices);
    ShownAt(t, units, avgPrice, prices);
  }

  lemma ShownAt(t: Terms, units: real, avgPrice: real, prices: Prices)
    requires units != 0.0 && Valuable(t.pair, t.base, prices)
    ensures var r, exit := Revalued(t, units, avgPrice, prices), ExitQuote(t.side, t.pair, prices);
            r.avgPrice == avgPrice
            && Shows(r, units, exit, if t.side == Long then exit - avgPrice else avgPrice - exit,
                     ConversionRate(t.side, t.pair, t.base, prices))
  {
    hide Pips, ProfitBase, ProfitPerc, ExitQuote, ConversionRate, IsProfit, IsPercentage;
    var exit, rate := ExitQuote(t.side, t.pair, prices), ConversionRate(t.side, t.pair, t.base, prices);
    GainIsNear(t.side, exit, avgPrice);
    ProfitIsNear(Pips(t.side, exit, avgPrice), if t.side == Long then exit - avgPrice else avgPrice - exit, rate, units);
    PercentageIsNear(ProfitBase(Pips(t.side, exit, avgPrice), rate, units), units);
  }

  lemma GainIsNear(side: PositionType, exit: real, avgPrice: real)
    ensures Abs(Pips(side, exit, avgPrice) - if side == Long then exit - avgPrice else avgPrice - exit) <= 0.000005
  {
    PipsAreNear(side, exit, avgPrice);
    Signed(side, exit, avgPrice);
    hide Pips, Sign;
  }

  lemma Signed(side: PositionType, exit: real, avgPrice: real)
    ensures Sign(side) * (exit - avgPrice) == if side == Long then exit - avgPrice else avgPrice - exit
  {
  }

  lemma ProfitIsNear(pips: real, gain: real, rate: real, units: real)
    requires Abs(pips - gain) <= 0.000005
    ensures IsProfit(ProfitBase(pips, rate, units), gain, rate, units)
  {
    hide ProfitBase;
    PointsAreNear(pips, rate, units);
    Spread(pips, gain, rate, units);
    NearProduct(ProfitBase(pips, rate, units), pips * rate * units, gain * (rate * units), 0.000005, pips - gain, rate * units);
  }

  lemma PointsAreNear(pips: real, rate: real, units: real)
    ensures Abs(ProfitBase(pips, rate, units) - pips * rate * units) <= 0.000005
  {
    RoundingError(pips * rate * units);
  }

  lemma Spread(pips: real, gain: real, rate: real, units: real)
    ensures pips * rate * units - gain * (rate * units) == (pips - gain) * (rate * units)
  {
  }

  lemma PercentageIsNear(profit: real, units: real)
    requires units != 0.0
    ensures IsPercentage(ProfitPerc(profit, units), profit, units)
  {
    hide ProfitPerc;
    var share := PercentageIsRounded(profit, units);
    ScaledApart(ProfitPerc(profit, units), share, units, 100.0 * profit);
  }

  lemma PercentageIsRounded(profit: real, units: real) returns (share: real)
    requires units != 0.0
    ensures share * units == 100.0 * profit && Abs(ProfitPerc(profit, units) - share) <= 0.000005
  {
    share := profit / units * 100.0;
    RoundingError(share);
    hide ToPoints;
    WholeOfShare(profit, units);
  }

  lemma ScaledApart(x: real, y: real, units: real, whole: real)
    requires y * units == whole && Abs(x - y) <= 0.000005
    ensures Within(x * units, whole, 0.000005 * Abs(units))
  {
    ScaledBound(x - y, units, 0.000005);
    Distributes(x, y, units);
    hide Abs;
  }

  lemma Distributes(x: real, y: real, units: real)
    ensures x * units - y * units == (x - y) * units
  {
  }

  lemma WholeOfShare(profit: real, units: real)
    requires units != 0.0
    ensures profit / units * 100.0 * units == 100.0 * profit
  {
    assert profit / units * units == profit;
  }
}
