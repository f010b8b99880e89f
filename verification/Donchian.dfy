/** backtest/strategy.py: the Donchian channel strategy.  One list of recent prices, newest
    first, serves all pairs. */
module DonchianChannels {
  import opened Wrappers
  import opened CrossStrategies
  import opened Portfolios

  const HIGHEST := 999999999.0

  datatype Bands = Bands(lower: real, middle: real, upper: real)

  datatype Channel = Channel(ticks: nat, investedLong: bool, investedShort: bool, bands: Option<Bands>)

  const IDLE := Channel(0, false, false, None)

  /** calc_upper: the greatest price, but no less than 0. */
  function Upper(list: seq<real>): real {
    if list == [] then 0.0
    else if list[|list| - 1] > Upper(list[..|list| - 1]) then list[|list| - 1] else Upper(list[..|list| - 1])
  }

  /** calc_lower: the least price, but no more than 999999999. */
  function Lower(list: seq<real>): real {
    if list == [] then HIGHEST
    else if list[|list| - 1] < Lower(list[..|list| - 1]) then list[|list| - 1] else Lower(list[..|list| - 1])
  }

  method CalcUpper(list: seq<real>) returns (high: real)
    ensures high == Upper(list)
  {
    high := 0.0;
    for i := 0 to |list|
      invariant high == Upper(list[..i])
    {
      assert list[..i + 1][..i] == list[..i];
      if list[i] > high {
        high := list[i];
      }
    }
    assert list[..|list|] == list;
  }

  method CalcLower(list: seq<real>) returns (low: real)
    ensures low == Lower(list)
  {
    low := HIGHEST;
    for i := 0 to |list|
      invariant low == Lower(list[..i])
    {
      assert list[..i + 1][..i] == list[..i];
      if list[i] < low {
        low := list[i];
      }
    }
    assert list[..|list|] == list;
  }

  /** The list after one tick: it grows while the pair warms up, and then the oldest price of
      any pair makes room. */
  function Pushed(list: seq<real>, ch: Channel, window: nat, price: real): seq<real>
    requires ch.ticks >= window ==> list != []
  {
    if ch.ticks < window then [price] + list else [price] + list[..|list| - 1]
  }

  function Banded(list: seq<real>, ch: Channel, window: nat, price: real): Bands
    requires window != 0 && (ch.ticks >= window ==> ch.bands.Some?)
  {
    if ch.ticks < window then Bands(price, price, price)
    else Bands(Lower(list), RollingSma(ch.bands.value.middle, window, price), Upper(list))
  }

  /** The flags and the signals of one tick after warm-up. */
  function Flags(ch: Channel, b: Bands, price: real): (bool, bool, seq<Side>) {
    var goLong := price >= b.upper && !ch.investedLong;
    var long := ch.investedLong || goLong;
    var goShort := price <= b.lower && !ch.investedShort;
    var short := ch.investedShort || goShort;
    var inside := b.lower < price < b.upper;
    (long && !inside, short && !inside,
     AddIf(AddIf(AddIf(AddIf([], goLong, Buy), goShort, Sell), inside && long, Sell), inside && short, Buy))
  }

  function AddIf(sides: seq<Side>, put: bool, side: Side): seq<Side> {
    if put then sides + [side] else sides
  }

  function Reacted(ch: Channel, b: Bands, window: nat, price: real): (Channel, seq<Side>) {
    if ch.ticks > window then
      var (long, short, sides) := Flags(ch, b, price);
      (Channel(ch.ticks + 1, long, short, Some(b)), sides)
    else
      (Channel(ch.ticks + 1, ch.investedLong, ch.investedShort, Some(b)), [])
  }

  // ----- the signals

  function Exposure(ch: Channel): int {
    (if ch.investedLong then 1 else 0) - (if ch.investedShort then 1 else 0)
  }

  /** Buys less sells. */
  function Net(sides: seq<Side>): int {
    if sides == [] then 0 else Net(sides[..|sides| - 1]) + if sides[|sides| - 1] == Buy then 1 else -1
  }

  lemma NetOfAdded(sides: seq<Side>, put: bool, side: Side)
    ensures Net(AddIf(sides, put, side)) == Net(sides) + if !put then 0 else if side == Buy then 1 else -1
  {
    assert (sides + [side])[..|sides|] == sides;
  }

  /** Whatever the bands, buys less sells of a tick are the change of the exposure: what the
      signals ask for is what the flags say is held. */
  lemma SignalsAreTheExposure(ch: Channel, b: Bands, window: nat, price: real)
    ensures var (next, sides) := Reacted(ch, b, window, price);
            Net(sides) == Exposure(next) - Exposure(ch)
  {
    hide Net, AddIf;
    assert Net([]) == 0 by { NetOfNone(); }
    var goLong, goShort := price >= b.upper && !ch.investedLong, price <= b.lower && !ch.investedShort;
    var inside := b.lower < price < b.upper;
    var s1 := AddIf([], goLong, Buy);
    var s2 := AddIf(s1, goShort, Sell);
    var s3 := AddIf(s2, inside && (ch.investedLong || goLong), Sell);
    NetOfAdded([], goLong, Buy);
    NetOfAdded(s1, goShort, Sell);
    NetOfAdded(s2, inside && (ch.investedLong || goLong), Sell);
    NetOfAdded(s3, inside && (ch.investedShort || goShort), Buy);
  }

  lemma NetOfNone()
    ensures Net([]) == 0
  {
  }

  /** Past warm-up a flag is set by its own band and cleared only strictly between the bands:
      the opposite band leaves it standing. */
  lemma FlagsFollowTheBands(ch: Channel, b: Bands, window: nat, price: real)
    requires ch.ticks > window
    ensures var (next, _) := Reacted(ch, b, window, price);
            && (next.investedLong <==> price >= b.upper || (ch.investedLong && price <= b.lower))
            && (next.investedShort <==> price <= b.lower || (ch.investedShort && price >= b.upper))
  {
  }

  /** Until a pair has had one tick more than the window nothing is signalled and no flag moves. */
  lemma QuietDuringWarmUp(ch: Channel, b: Bands, window: nat, price: real)
    requires ch.ticks <= window
    ensures var (next, sides) := Reacted(ch, b, window, price);
            sides == [] && next == Channel(ch.ticks + 1, ch.investedLong, ch.investedShort, Some(b))
  {
  }

  /** Past warm-up these are the signals of a tick, one at each band if its flag is not set, and
      strictly between the bands one for each flag that is. */
  lemma SidesOfATick(ch: Channel, b: Bands, window: nat, price: real)
    requires ch.ticks > window
    ensures var (_, sides) := Reacted(ch, b, window, price);
            var inside := b.lower < price < b.upper;
            sides == (if price >= b.upper && !ch.investedLong then [Buy] else [])
                     + (if price <= b.lower && !ch.investedShort then [Sell] else [])
                     + (if inside && ch.investedLong then [Sell] else [])
                     + (if inside && ch.investedShort then [Buy] else [])
  {
  }

  // ----- the length of the list

  function Min(x: nat, y: nat): nat {
    if x < y then x else y
  }

  /** The sum over the pairs of min(ticks, window). */
  function Held(pairs: seq<string>, channels: map<string, Channel>, window: nat): nat
    requires forall p <- pairs :: p in channels
  {
    if pairs == [] then 0 else
    assert pairs[0] in pairs;
    Min(channels[pairs[0]].ticks, window) + Held(pairs[1..], channels, window)
  }

  ghost predicate Distinct(pairs: seq<string>) {
    forall i, j | 0 <= i < j < |pairs| :: pairs[i] != pairs[j]
  }

  /** One more tick of a pair adds one while the pair warms up, and nothing afterwards. */
  lemma {:induction false} HeldAfterTick(pairs: seq<string>, channels: map<string, Channel>, window: nat, pair: string, ch: Channel)
    requires (forall p <- pairs :: p in channels) && pair in channels && Distinct(pairs)
    requires ch.ticks == channels[pair].ticks + 1
    ensures Held(pairs, channels[pair := ch], window)
         == Held(pairs, channels, window) + (if pair in pairs && channels[pair].ticks < window then 1 else 0)
    ensures pair in pairs ==> Held(pairs, channels, window) >= Min(channels[pair].ticks, window)
  {
    if pairs != [] {
      HeldAfterTick(pairs[1..], channels, window, pair, ch);
      assert pairs[0] !in pairs[1..];
    }
  }

  class DonchianChannelStrategy {
    const pairs: seq<string>
    const window: nat
    var channels: map<string, Channel>
    var list: seq<real>
    var events: seq<SignalEvent>

    ghost predicate Valid()
      reads this
    {
      && window >= 1 && Distinct(pairs) && channels.Keys == (set p <- pairs)
      && (forall p <- channels :: channels[p].ticks > 0 ==> channels[p].bands.Some?)
      && |list| == Held(pairs, channels, window)
    }

    constructor (pairs: seq<string>, window: nat)
      requires window >= 1 && Distinct(pairs)
      ensures Valid() && this.pairs == pairs && this.window == window
      ensures channels == (map p | p in pairs :: IDLE) && list == [] && events == []
    {
      this.pairs := pairs;
      this.window := window;
      this.channels := map p | p in pairs :: IDLE;
      this.list := [];
      this.events := [];
      new;
      NothingHeld(pairs, channels, window);
    }

    /** Valid() holds the length of the list to the sum over the pairs, so the pop of an empty
        list cannot happen. */
    method CalculateSignals(pair: string, price: real)
      requires Valid() && pair in channels
      modifies this
      ensures Valid()
      ensures old(channels)[pair].ticks >= window ==> old(list) != []
      ensures old(channels)[pair].ticks <= window ==> events == old(events)
      ensures forall e | e in events && e !in old(events) :: e.pair == pair
      ensures list == Pushed(old(list), old(channels)[pair], window, price)
      ensures var ch := old(channels)[pair];
              var (next, sides) := Reacted(ch, Banded(list, ch, window, price), window, price);
              channels == old(channels)[pair := next] && events == old(events) + Tagged(pair, sides)
    {
      hide Flags, Pushed, Banded, Tagged, Held, Distinct, RollingSma, Upper, Lower;
      var pd := channels[pair];
      HeldAfterTick(pairs, channels, window, pair, pd.(ticks := pd.ticks + 1));
      var bands := Measure(pd, price);
      var long, short, sides := pd.investedLong, pd.investedShort, [];
      if pd.ticks > window {
        long, short, sides := React(pd, bands, price);
      }
      TagsOf(pair, sides);
      events := events + Tagged(pair, sides);
      var next := Channel(pd.ticks + 1, long, short, Some(bands));
      HeldAfterTick(pairs, channels, window, pair, next);
      channels := channels[pair := next];
    }

    /** The list and the bands. */
    method Measure(ch: Channel, price: real) returns (bands: Bands)
      requires window >= 1
      requires ch.ticks >= window ==> list != [] && ch.bands.Some?
      modifies this`list
      ensures list == Pushed(old(list), ch, window, price) && bands == Banded(list, ch, window, price)
      ensures |list| == |old(list)| + if ch.ticks < window then 1 else 0
    {
      if ch.ticks < window {
        bands := Bands(price, price, price);
        list := [price] + list;
      } else {
        var middle := RollingSma(ch.bands.value.middle, window, price);
        list := list[..|list| - 1];
        list := [price] + list;
        var upper := CalcUpper(list);
        var lower := CalcLower(list);
        bands := Bands(lower, middle, upper);
      }
    }
  }

  lemma TagsOf(pair: string, sides: seq<Side>)
    ensures forall e <- Tagged(pair, sides) :: e.pair == pair
    ensures sides == [] ==> Tagged(pair, sides) == []
  {
  }

  /** The four conditions on the bands, each seeing what the one before did to the flags. */
  method React(ch: Channel, b: Bands, price: real) returns (long: bool, short: bool, sides: seq<Side>)
    ensures (long, short, sides) == Flags(ch, b, price)
  {
    long, short, sides := ch.investedLong, ch.investedShort, [];
    if price >= b.upper && !long {
      sides := sides + [Buy];
      long := true;
    }
    if price <= b.lower && !short {
      sides := sides + [Sell];
      short := true;
    }
    if price < b.upper && price > b.lower && long {
      sides := sides + [Sell];
      long := false;
    }
    if price < b.upper && price > b.lower && short {
      sides := sides + [Buy];
      short := false;
    }
  }

  lemma {:induction false} NothingHeld(pairs: seq<string>, channels: map<string, Channel>, window: nat)
    requires forall p <- pairs :: p in channels && channels[p] == IDLE
    ensures Held(pairs, channels, window) == 0
  {
    if pairs != [] {
      NothingHeld(pairs[1..], channels, window);
    }
  }

  // ----- a single pair

  /** The list after the given ticks of the only pair. */
  function Window(prices: seq<real>, window: nat): (list: seq<real>)
    requires window >= 1
    ensures |list| == Min(|prices|, window)
  {
    if prices == [] then [] else
    var n := |prices| - 1;
    Pushed(Window(prices[..n], window), Channel(n, false, false, None), window, prices[n])
  }

  /** It is the last `window` prices, newest first. */
  lemma {:induction false} WindowIsTheLastPrices(prices: seq<real>, window: nat)
    requires window >= 1
    ensures forall i | 0 <= i < |Window(prices, window)| :: Window(prices, window)[i] == prices[|prices| - 1 - i]
  {
    if prices != [] {
      WindowIsTheLastPrices(prices[..|prices| - 1], window);
    }
  }

  lemma {:induction false} UpperIsGreatest(list: seq<real>)
    ensures Upper(list) == 0.0 || Upper(list) in list
    ensures Upper(list) >= 0.0 && forall x <- list :: x <= Upper(list)
  {
    if list != [] {
      UpperIsGreatest(list[..|list| - 1]);
      assert forall x <- list :: x in list[..|list| - 1] || x == list[|list| - 1];
    }
  }

  lemma {:induction false} LowerIsLeast(list: seq<real>)
    ensures Lower(list) == HIGHEST || Lower(list) in list
    ensures Lower(list) <= HIGHEST && forall x <- list :: Lower(list) <= x
  {
    if list != [] {
      LowerIsLeast(list[..|list| - 1]);
      assert forall x <- list :: x in list[..|list| - 1] || x == list[|list| - 1];
    }
  }

  ghost predicate Greatest(x: real, xs: seq<real>) {
    x in xs && forall y <- xs :: y <= x
  }

  ghost predicate Least(x: real, xs: seq<real>) {
    x in xs && forall y <- xs :: x <= y
  }

  /** Past warm-up the bands of a single pair are the greatest and the least of its last
      `window` prices if and only if that greatest is not negative and that least is not above
      999999999; then the current price lies between them. */
  lemma BandsAreTrue(prices: seq<real>, window: nat)
    requires window >= 1 && |prices| > window
    ensures var recent := prices[|prices| - window..];
            var list := Window(prices, window);
            && (Greatest(Upper(list), recent) <==> exists x <- recent :: x >= 0.0)
            && (Least(Lower(list), recent) <==> exists x <- recent :: x <= 999999999.0)
            && Lower(list) <= prices[|prices| - 1] <= Upper(list)
  {
    var recent, list := prices[|prices| - window..], Window(prices, window);
    WindowIsTheLastPrices(prices, window);
    hide Window;
    SameElements(list, recent);
    BandsOf(list, recent);
    assert list[0] == prices[|prices| - 1] && list[0] in list;
  }

  lemma BandsOf(list: seq<real>, recent: seq<real>)
    requires forall x :: x in list <==> x in recent
    ensures Greatest(Upper(list), recent) <==> exists x <- recent :: x >= 0.0
    ensures Least(Lower(list), recent) <==> exists x <- recent :: x <= HIGHEST
    ensures forall x <- list :: Lower(list) <= x <= Upper(list)
  {
    UpperIsGreatest(list);
    LowerIsLeast(list);
    hide Upper, Lower;
    if x :| x in recent && x >= 0.0 {
      assert Upper(list) in list;
    }
  }

  lemma SameElements(list: seq<real>, recent: seq<real>)
    requires |list| == |recent| && forall i | 0 <= i < |list| :: list[i] == recent[|recent| - 1 - i]
    ensures forall x :: x in list <==> x in recent
  {
    forall x | x in recent ensures x in list {
      var i :| 0 <= i < |recent| && recent[i] == x;
      assert list[|recent| - 1 - i] == x;
    }
  }

  predicate ShowsBands(ch: Channel, list: seq<real>) {
    ch.bands.Some? && ch.bands.value.upper == Upper(list) && ch.bands.value.lower == Lower(list)
  }

  /** The strategy fed with the ticks of its only pair. */
  method FeedSinglePair(pair: string, window: nat, prices: seq<real>) returns (s: DonchianChannelStrategy)
    requires window >= 1
    ensures fresh(s) && s.Valid() && s.pairs == [pair] && s.window == window
    ensures pair in s.channels && s.channels[pair].ticks == |prices| && s.list == Window(prices, window)
    ensures |prices| > window ==> ShowsBands(s.channels[pair], Window(prices, window))
  {
    s := new DonchianChannelStrategy([pair], window);
    for n := 0 to |prices|
      invariant fresh(s) && s.Valid() && s.pairs == [pair] && s.window == window
      invariant pair in s.channels && s.channels[pair].ticks == n && s.list == Window(prices[..n], window)
      invariant n > window ==> ShowsBands(s.channels[pair], Window(prices[..n], window))
    {
      assert prices[..n + 1][..n] == prices[..n];
      s.CalculateSignals(pair, prices[n]);
    }
    assert prices[..|prices|] == prices;
  }

  // ----- several pairs

  datatype PairTick = PairTick(pair: string, price: real)

  function Count(ticks: seq<PairTick>, pair: string): nat {
    if ticks == [] then 0 else Count(ticks[..|ticks| - 1], pair) + if ticks[|ticks| - 1].pair == pair then 1 else 0
  }

  /** The sum over the pairs of min(ticks, window). */
  function HeldBy(pairs: seq<string>, ticks: seq<PairTick>, window: nat): nat {
    if pairs == [] then 0 else Min(Count(ticks, pairs[0]), window) + HeldBy(pairs[1..], ticks, window)
  }

  ghost predicate Among(ticks: seq<PairTick>, pairs: seq<string>) {
    forall t <- ticks :: t.pair in pairs
  }

  /** One more tick of a pair adds one while the pair warms up, and nothing afterwards. */
  lemma {:induction false} HeldByAfterTick(pairs: seq<string>, ticks: seq<PairTick>, window: nat)
    requires ticks != [] && Distinct(pairs)
    ensures var front, pair := ticks[..|ticks| - 1], ticks[|ticks| - 1].pair;
            && HeldBy(pairs, ticks, window) == HeldBy(pairs, front, window) + (if pair in pairs && Count(front, pair) < window then 1 else 0)
            && (pair in pairs ==> HeldBy(pairs, front, window) >= Min(Count(front, pair), window))
  {
    if pairs != [] {
      HeldByAfterTick(pairs[1..], ticks, window);
      assert pairs[0] !in pairs[1..];
    }
  }

  /** The list after the given ticks of any pairs. */
  function SharedList(pairs: seq<string>, window: nat, ticks: seq<PairTick>): (list: seq<real>)
    requires window >= 1 && Distinct(pairs) && Among(ticks, pairs)
    ensures |list| == HeldBy(pairs, ticks, window)
    decreases |ticks|
  {
    if ticks == [] then NothingHeldBy(pairs, window); [] else
    var n := |ticks| - 1;
    assert ticks[n] in ticks;
    HeldByAfterTick(pairs, ticks, window);
    Pushed(SharedList(pairs, window, ticks[..n]), Channel(Count(ticks[..n], ticks[n].pair), false, false, None), window, ticks[n].price)
  }

  lemma {:induction false} NothingHeldBy(pairs: seq<string>, window: nat)
    ensures HeldBy(pairs, [], window) == 0
  {
    if pairs != [] {
      NothingHeldBy(pairs[1..], window);
    }
  }

  /** The list is the newest prices of all pairs together, as many as the pairs hold. */
  ghost predicate NewestFirst(list: seq<real>, ticks: seq<PairTick>) {
    |list| <= |ticks| && forall i | 0 <= i < |list| :: list[i] == ticks[|ticks| - 1 - i].price
  }

  lemma {:induction false} SharedIsNewest(pairs: seq<string>, window: nat, ticks: seq<PairTick>)
    requires window >= 1 && Distinct(pairs) && Among(ticks, pairs)
    ensures NewestFirst(SharedList(pairs, window, ticks), ticks)
  {
    if ticks != [] {
      var n := |ticks| - 1;
      SharedIsNewest(pairs, window, ticks[..n]);
      assert ticks[n] in ticks;
      HeldByAfterTick(pairs, ticks, window);
      hide HeldBy, Count;
    }
  }

  /** The prices of one pair, oldest first. */
  function Own(ticks: seq<PairTick>, pair: string): (prices: seq<real>)
    ensures |prices| == Count(ticks, pair)
  {
    if ticks == [] then []
    else Own(ticks[..|ticks| - 1], pair) + if ticks[|ticks| - 1].pair == pair then [ticks[|ticks| - 1].price] else []
  }

  /** Its last `window` prices. */
  function OwnWindow(ticks: seq<PairTick>, pair: string, window: nat): seq<real>
    requires Count(ticks, pair) >= window
  {
    Own(ticks, pair)[Count(ticks, pair) - window..]
  }

  /** After a tick of a warm pair its bands are the true ones of its own window if and only if
      the extreme of that window is also the extreme of the newest prices of all pairs.  Prices
      are within 0 and 999999999. */
  lemma BandsAreOwnIff(pairs: seq<string>, window: nat, ticks: seq<PairTick>, pair: string)
    requires window >= 1 && Distinct(pairs) && Among(ticks, pairs) && Count(ticks, pair) > window
    requires SharedList(pairs, window, ticks) != [] && forall t <- ticks :: 0.0 <= t.price <= 999999999.0
    ensures var list, own := SharedList(pairs, window, ticks), OwnWindow(ticks, pair, window);
            && NewestFirst(list, ticks) && Greatest(Upper(list), list) && Least(Lower(list), list)
            && (Greatest(Upper(list), own) <==> exists m :: Greatest(m, own) && Greatest(m, list))
            && (Least(Lower(list), own) <==> exists m :: Least(m, own) && Least(m, list))
  {
    var list := SharedList(pairs, window, ticks);
    SharedIsNewest(pairs, window, ticks);
    forall x | x in list ensures 0.0 <= x <= HIGHEST {
      var i :| 0 <= i < |list| && list[i] == x;
      assert ticks[|ticks| - 1 - i] in ticks;
    }
    hide SharedList, OwnWindow, Count, HeldBy;
    assert list[0] in list;
    UpperIsGreatest(list);
    LowerIsLeast(list);
    hide Upper, Lower;
    assert Greatest(Upper(list), list) && Least(Lower(list), list);
    assert forall m | Greatest(m, list) :: m == Upper(list);
    assert forall m | Least(m, list) :: m == Lower(list);
  }

  // ----- what a pair keeps for itself

  /** While its pair warms up the middle is the price; from then on it smooths the pair's own
      prices. */
  ghost predicate MiddleIs(bands: Option<Bands>, own: seq<real>, window: nat)
    requires window >= 1
  {
    own != [] ==>
      && bands.Some?
      && (|own| <= window ==> bands == Some(Bands(own[|own| - 1], own[|own| - 1], own[|own| - 1])))
      && (|own| >= window ==> bands.value.middle == Smoothed(own[window - 1], window, own[window..]))
  }

  lemma {:induction false} SmoothedOneMore(sma: real, window: int, prices: seq<real>, price: real)
    requires window != 0
    ensures Smoothed(sma, window, prices + [price]) == RollingSma(Smoothed(sma, window, prices), window, price)
    decreases prices
  {
    hide RollingSma;
    if prices != [] {
      assert (prices + [price])[1..] == prices[1..] + [price];
      SmoothedOneMore(RollingSma(sma, window, prices[0]), window, prices[1..], price);
    } else {
      assert [price][1..] == [];
    }
  }

  lemma MiddleOneMore(list: seq<real>, ch: Channel, own: seq<real>, window: nat, price: real)
    requires window >= 1 && ch.ticks == |own| && (ch.ticks >= window ==> ch.bands.Some?) && MiddleIs(ch.bands, own, window)
    ensures MiddleIs(Some(Banded(list, ch, window, price)), own + [price], window)
  {
    hide RollingSma, Upper, Lower;
    if |own| >= window {
      assert (own + [price])[window..] == own[window..] + [price] && (own + [price])[window - 1] == own[window - 1];
      SmoothedOneMore(own[window - 1], window, own[window..], price);
      hide Smoothed;
    }
  }

  /** The strategy after these ticks. */
  ghost predicate Fed(s: DonchianChannelStrategy, pairs: seq<string>, window: nat, ticks: seq<PairTick>)
    requires window >= 1 && Distinct(pairs) && Among(ticks, pairs)
    reads s
  {
    && s.Valid() && s.pairs == pairs && s.window == window
    && s.list == SharedList(pairs, window, ticks)
    && (forall p <- pairs :: p in s.channels && s.channels[p].ticks == Count(ticks, p))
    && (forall p <- pairs :: MiddleIs(s.channels[p].bands, Own(ticks, p), window))
    && (forall e <- s.events :: Count(ticks, e.pair) > window + 1)
    && (ticks != [] && Count(ticks, ticks[|ticks| - 1].pair) > window ==>
          ticks[|ticks| - 1].pair in s.channels && ShowsBands(s.channels[ticks[|ticks| - 1].pair], s.list))
  }

  /** The strategy fed with any ticks of its pairs keeps that list, counts each pair's ticks, after
      a tick of a warm pair shows that list's bands, smooths each pair's own prices, and has
      signalled nothing of a pair that has not had more ticks than the window and one. */
  method Feed(pairs: seq<string>, window: nat, ticks: seq<PairTick>) returns (s: DonchianChannelStrategy)
    requires window >= 1 && Distinct(pairs) && Among(ticks, pairs)
    ensures fresh(s) && Fed(s, pairs, window, ticks)
  {
    s := new DonchianChannelStrategy(pairs, window);
    NothingHeldBy(pairs, window);
    hide Fed;
    assert Fed(s, pairs, window, []) by { FedNothing(s, pairs, window); }
    for n := 0 to |ticks|
      invariant fresh(s) && Among(ticks[..n], pairs) && Fed(s, pairs, window, ticks[..n])
    {
      FeedOne(s, pairs, window, ticks, n);
    }
    assert ticks[..|ticks|] == ticks;
  }

  lemma FedNothing(s: DonchianChannelStrategy, pairs: seq<string>, window: nat)
    requires window >= 1 && Distinct(pairs) && s.Valid() && s.pairs == pairs && s.window == window
    requires s.list == [] && s.events == [] && s.channels == map p | p in pairs :: IDLE
    ensures Fed(s, pairs, window, [])
  {
    NothingHeldBy(pairs, window);
  }

  method FeedOne(s: DonchianChannelStrategy, pairs: seq<string>, window: nat, ticks: seq<PairTick>, n: nat)
    requires window >= 1 && Distinct(pairs) && Among(ticks, pairs) && n < |ticks|
    requires Among(ticks[..n], pairs) && Fed(s, pairs, window, ticks[..n])
    modifies s
    ensures Among(ticks[..n + 1], pairs) && Fed(s, pairs, window, ticks[..n + 1])
  {
    hide SharedList, HeldBy, Held, Count, Own, Pushed, ShowsBands, Distinct, MiddleIs, Banded;
    FedOnce(pairs, window, ticks, n);
    OwnOnce(ticks, n);
    assert ticks[..n + 1][n] == ticks[n];
    var pair, price := ticks[n].pair, ticks[n].price;
    ghost var ch := s.channels[pair];
    OneTick(s, pair, price);
    MiddleOneMore(s.list, ch, Own(ticks[..n], pair), window, price);
  }

  lemma OwnOnce(ticks: seq<PairTick>, n: nat)
    requires n < |ticks|
    ensures forall p :: Own(ticks[..n + 1], p) == Own(ticks[..n], p) + if ticks[n].pair == p then [ticks[n].price] else []
    ensures forall p :: ticks[n].pair != p ==> Own(ticks[..n + 1], p) == Own(ticks[..n], p)
  {
    assert ticks[..n + 1][..n] == ticks[..n] && ticks[..n + 1][n] == ticks[n];
  }

  /** One tick, as far as the list, the counts and the bands are concerned. */
  method OneTick(s: DonchianChannelStrategy, pair: string, price: real)
    requires s.Valid() && pair in s.channels
    modifies s
    ensures s.Valid() && s.channels.Keys == old(s.channels).Keys
    ensures forall p <- s.channels :: s.channels[p].ticks == old(s.channels)[p].ticks + if p == pair then 1 else 0
    ensures old(s.channels)[pair].ticks >= s.window ==> old(s.list) != []
    ensures s.list == Pushed(old(s.list), Channel(old(s.channels)[pair].ticks, false, false, None), s.window, price)
    ensures old(s.channels)[pair].ticks >= s.window ==> old(s.channels)[pair].bands.Some? && ShowsBands(s.channels[pair], s.list)
    ensures s.channels[pair].bands == Some(Banded(s.list, old(s.channels)[pair], s.window, price))
    ensures forall p <- s.channels :: p != pair ==> s.channels[p] == old(s.channels)[p]
    ensures forall e <- s.events :: e in old(s.events) || (e.pair == pair && old(s.channels)[pair].ticks > s.window)
  {
    hide Flags, Upper, Lower, Held, Distinct, RollingSma, Tagged;
    s.CalculateSignals(pair, price);
  }

  lemma FedOnce(pairs: seq<string>, window: nat, ticks: seq<PairTick>, n: nat)
    requires window >= 1 && Distinct(pairs) && Among(ticks, pairs) && n < |ticks|
    ensures Among(ticks[..n], pairs) && Among(ticks[..n + 1], pairs) && ticks[n].pair in pairs
    ensures forall p :: Count(ticks[..n + 1], p) == Count(ticks[..n], p) + if ticks[n].pair == p then 1 else 0
    ensures var ch := Channel(Count(ticks[..n], ticks[n].pair), false, false, None);
            && (ch.ticks >= window ==> SharedList(pairs, window, ticks[..n]) != [])
            && SharedList(pairs, window, ticks[..n + 1]) == Pushed(SharedList(pairs, window, ticks[..n]), ch, window, ticks[n].price)
  {
    assert ticks[..n + 1][..n] == ticks[..n] && ticks[..n + 1][n] == ticks[n];
    assert ticks[n] in ticks;
    HeldByAfterTick(pairs, ticks[..n + 1], window);
    hide HeldBy, Pushed;
  }

  /** A tick of each of two pairs, and a second one of the first. */
  function Three(): seq<PairTick> {
    [PairTick("A", 1.0), PairTick("B", 100.0), PairTick("A", 1.0)]
  }

  /** Two pairs and a window of one: after a tick of each and a second one of the first, the
      upper band of the first is the price of the second. */
  method PairsShareTheList() returns (s: DonchianChannelStrategy)
    ensures fresh(s) && s.Valid() && s.pairs == ["A", "B"] && s.window == 1
    ensures s.list == SharedList(s.pairs, 1, Three()) && Count(Three(), "A") == 2 && OwnWindow(Three(), "A", 1) == [1.0]
    ensures "A" in s.channels && s.channels["A"].bands.Some? && s.channels["A"].bands.value.upper == 100.0
  {
    SharedByTwo();
    s := Feed(["A", "B"], 1, Three());
  }

  lemma CountsOfThree()
    ensures Count([], "A") == 0 && Count(Three()[..1], "A") == 1 && Count(Three()[..1], "B") == 0
    ensures Count(Three()[..2], "A") == 1 && Count(Three(), "A") == 2
  {
    assert "A" != "B" by { assert "A"[0] != "B"[0]; }
    assert Three()[..1][..0] == [] && Three()[..2][..1] == Three()[..1];
    assert Count(Three()[..1], "A") == 1 && Count(Three()[..1], "B") == 0;
    assert Count(Three()[..2], "A") == 1;
  }

  lemma OwnOfThree()
    ensures Own(Three(), "A") == [1.0, 1.0]
  {
    assert "A" != "B" by { assert "A"[0] != "B"[0]; }
    assert Three()[..1][..0] == [] && Three()[..2][..1] == Three()[..1];
    assert Own(Three()[..1], "A") == [1.0];
    assert Own(Three()[..2], "A") == [1.0];
  }

  lemma UpperOfTwo()
    ensures Upper([1.0, 100.0]) == 100.0
  {
    assert [1.0, 100.0][..1] == [1.0] && [1.0][..0] == [];
    assert Upper([1.0]) == 1.0;
  }

  lemma ListOfThree()
    ensures Distinct(["A", "B"]) && Among(Three(), ["A", "B"]) && SharedList(["A", "B"], 1, Three()) == [1.0, 100.0]
  {
    assert "A" != "B" by { assert "A"[0] != "B"[0]; }
    assert Distinct(["A", "B"]) && Among(Three(), ["A", "B"]);
    CountsOfThree();
    FedOnce(["A", "B"], 1, Three(), 0);
    FedOnce(["A", "B"], 1, Three(), 1);
    FedOnce(["A", "B"], 1, Three(), 2);
    assert Three()[..0] == [] && Three()[..3] == Three();
    assert [100.0, 1.0][..1] == [100.0];
    hide Count, HeldBy, Distinct;
  }

  lemma SharedByTwo()
    ensures Distinct(["A", "B"]) && Among(Three(), ["A", "B"]) && Count(Three(), "A") == 2
    ensures OwnWindow(Three(), "A", 1) == [1.0] && SharedList(["A", "B"], 1, Three()) == [1.0, 100.0]
    ensures Upper([1.0, 100.0]) == 100.0
  {
    CountsOfThree();
    OwnOfThree();
    UpperOfTwo();
    ListOfThree();
    hide Count, Own, SharedList, Upper, Distinct, Among;
  }
}
