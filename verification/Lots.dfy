/** The portfolio under signals and ticks alone, seen as a machine that counts whole lots. */
module Lots {
  import opened Pricing
  import opened Positions
  import opened Portfolios
  import opened Ledgers

  datatype LotCount = LotCount(side: PositionType, lots: nat)

  type LotBook = map<string, LotCount>

  /** What an executed signal does to the lots: a single lot is closed by the opposite signal,
      and more than one lot is never touched by it. */
  function Turn(m: LotBook, side: Side, pair: string): LotBook {
    if pair !in m then m[pair := LotCount(TypeFor(side), 1)]
    else if m[pair].side == TypeFor(side) then m[pair := LotCount(m[pair].side, m[pair].lots + 1)]
    else if m[pair].lots == 1 then m - {pair}
    else m
  }

  ghost function LotStep(m: LotBook, act: Action): LotBook {
    if act.Signal? && AllQuoted(act.prices) then Turn(m, act.side, act.pair) else m
  }

  ghost function LotRun(m: LotBook, acts: seq<Action>): LotBook
    decreases acts
  {
    if acts == [] then m else LotRun(LotStep(m, acts[0]), acts[1..])
  }

  /** The pair is held exactly if it is counted, as a whole positive number of lots and on the
      side the count says. */
  ghost predicate CountsFor(a: Account, lot: int, m: LotBook, p: string) {
    && (p in a.holdings <==> p in m)
    && (p in m ==> m[p].lots >= 1 && a.holdings[p].terms.side == m[p].side && a.holdings[p].book.units == LotUnits(m[p].lots, lot))
  }

  ghost predicate Counts(a: Account, lot: int, m: LotBook) {
    a.holdings.Keys == m.Keys && forall p <- m :: CountsFor(a, lot, m, p)
  }

  function LotUnits(k: int, lot: int): real {
    (k * lot) as real
  }

  ghost predicate SignalsOnly(acts: seq<Action>) {
    forall i | 0 <= i < |acts| :: acts[i].Signal? || acts[i].Tick?
  }

  lemma LotProduct(k: int, lot: int)
    requires lot != 0
    ensures k >= 1 ==> LotUnits(k, lot) != 0.0
    ensures LotUnits(k, lot) == lot as real <==> k == 1
    ensures LotUnits(k + 1, lot) == LotUnits(k, lot) + lot as real
  {
    assert (k + 1) * lot == k * lot + lot;
    if k * lot == lot {
      assert (k - 1) * lot == 0;
    }
  }

  lemma OnlyItsPair(a: Account, base: string, lot: int, act: Action, p: string)
    requires WellFiled(a.holdings, base) && Allowed(a, base, act) && (act.Signal? || act.Tick?) && p != act.pair
    ensures p in Step(a, base, lot, act).holdings <==> p in a.holdings
    ensures p in a.holdings ==> Step(a, base, lot, act).holdings[p] == a.holdings[p]
  {
    hide Opened, Added, Revalued, ClosingPnl;
  }

  lemma PairCounts(a: Account, base: string, lot: int, act: Action, m: LotBook)
    requires WellFiled(a.holdings, base) && Allowed(a, base, act) && (act.Signal? || act.Tick?)
    requires lot != 0 && CountsFor(a, lot, m, act.pair)
    ensures CountsFor(Step(a, base, lot, act), lot, LotStep(m, act), act.pair)
  {
    hide LotUnits, ProfitBase, ProfitPerc, Pips, PooledCost, PooledPrice, Realised;
    LotProduct(LotsOf(m, act.pair), lot);
    LotProduct(1, lot);
    LotProduct(LotsOf(m, act.pair) + 1, lot);
  }

  /** One signal or tick: the counts follow the holdings. */
  lemma StepCounts(a: Account, base: string, lot: int, act: Action, m: LotBook)
    requires WellFiled(a.holdings, base) && Allowed(a, base, act) && (act.Signal? || act.Tick?)
    requires lot != 0 && Counts(a, lot, m)
    ensures Counts(Step(a, base, lot, act), lot, LotStep(m, act))
  {
    var b, n := Step(a, base, lot, act), LotStep(m, act);
    forall p ensures CountsFor(b, lot, n, p) {
      if p == act.pair {
        assert p in m ==> CountsFor(a, lot, m, p);
        PairCounts(a, base, lot, act, m);
      } else {
        assert p in m ==> CountsFor(a, lot, m, p);
        OtherPairCounts(a, base, lot, act, m, p);
      }
    }
    hide Step, LotStep;
    assert forall p :: p in b.holdings <==> p in n by {
      forall p ensures p in b.holdings <==> p in n {
        assert CountsFor(b, lot, n, p);
      }
    }
  }

  lemma OtherPairCounts(a: Account, base: string, lot: int, act: Action, m: LotBook, p: string)
    requires WellFiled(a.holdings, base) && Allowed(a, base, act) && (act.Signal? || act.Tick?)
    requires CountsFor(a, lot, m, p) && p != act.pair
    ensures CountsFor(Step(a, base, lot, act), lot, LotStep(m, act), p)
  {
    OnlyItsPair(a, base, lot, act, p);
    hide Step, LotUnits;
  }

  /** The balance changes only by closing a single lot, and a position that stays open keeps
      its side and loses no lots. */
  lemma BalanceMovesOnlyOnClose(a: Account, base: string, lot: int, act: Action, m: LotBook)
    requires WellFiled(a.holdings, base) && Allowed(a, base, act) && (act.Signal? || act.Tick?)
    requires lot != 0 && Counts(a, lot, m)
    ensures Step(a, base, lot, act).balance != a.balance ==>
              act.pair in m && m[act.pair].lots == 1 && act.pair !in Step(a, base, lot, act).holdings
    ensures forall p | p in m && p in LotStep(m, act) ::
              LotStep(m, act)[p].side == m[p].side && m[p].lots <= LotStep(m, act)[p].lots
  {
    hide LotUnits, ProfitBase, ProfitPerc, Pips, PooledCost, PooledPrice, Realised;
    LotProduct(LotsOf(m, act.pair), lot);
  }

  /** Over any run of signals and ticks every open position is a whole number of lots, at
      least one, on the side the lot machine gives. */
  lemma {:induction false} RunCounts(a: Account, base: string, lot: int, acts: seq<Action>, m: LotBook)
    requires WellFiled(a.holdings, base) && Runs(a, base, lot, acts) && SignalsOnly(acts)
    requires lot != 0 && Counts(a, lot, m)
    ensures Counts(Run(a, base, lot, acts), lot, LotRun(m, acts))
    decreases acts
  {
    if acts == [] {
    } else {
      StepCounts(a, base, lot, acts[0], m);
      RunCounts(Step(a, base, lot, acts[0]), base, lot, acts[1..], LotStep(m, acts[0]));
    }
  }

  /** A position of two or more lots is never closed by signals: it stays on its side and
      only grows, whatever the run. */
  lemma {:induction false} TwoLotsAreForever(m: LotBook, acts: seq<Action>, pair: string)
    requires pair in m && m[pair].lots >= 2 && SignalsOnly(acts)
    ensures var n := LotRun(m, acts);
            pair in n && n[pair].side == m[pair].side && n[pair].lots >= m[pair].lots
    decreases acts
  {
    if acts == [] {
    } else {
      TwoLotsAreForever(LotStep(m, acts[0]), acts[1..], pair);
    }
  }

  /** A signal of the other side closes a position if and only if it holds exactly one lot. */
  lemma OppositeClosesIff(a: Account, base: string, lot: int, side: Side, pair: string, prices: Prices, m: LotBook)
    requires WellFiled(a.holdings, base) && AllQuoted(prices) && Listed(pair, base, prices)
    requires lot != 0 && Counts(a, lot, m) && pair in m && m[pair].side != TypeFor(side)
    ensures pair !in Executed(a, base, lot, side, pair, prices).holdings <==> m[pair].lots == 1
  {
    StepCounts(a, base, lot, Signal(side, pair, prices), m);
  }

  /** Two buys from an empty account reach two lots, which no signal will close any more. */
  lemma TwoBuysStay(base: string, lot: int, equity: real, pair: string, prices: Prices)
    requires lot != 0 && AllQuoted(prices) && Listed(pair, base, prices)
    ensures var buys := [Signal(Buy, pair, prices), Signal(Buy, pair, prices)];
            && Runs(Account(equity, map[]), base, lot, buys)
            && Counts(Run(Account(equity, map[]), base, lot, buys), lot, map[pair := LotCount(Long, 2)])
  {
    var empty, buy := Account(equity, map[]), Signal(Buy, pair, prices);
    var first, second: LotBook := map[pair := LotCount(Long, 1)], map[pair := LotCount(Long, 2)];
    assert Counts(empty, lot, map[]);
    assert LotStep(map[], buy) == first && LotStep(first, buy) == second;
    hide Step, Counts, Runs, Run, LotStep, AllQuoted, Listed;
    StepCounts(empty, base, lot, buy, map[]);
    StepCounts(Step(empty, base, lot, buy), base, lot, buy, first);
    TwoActions(empty, base, lot, buy, buy);
  }

  // ----- counting order events

  predicate PutsOrder(o: Outcome) {
    o.DidOpen? || o.DidAdd? || o.DidClose?
  }

  /** Order events the run puts for the pair. */
  ghost function Orders(a: Account, base: string, lot: int, acts: seq<Action>, pair: string): nat
    requires WellFiled(a.holdings, base) && Runs(a, base, lot, acts)
    decreases acts
  {
    if acts == [] then 0 else
    (if acts[0].Signal? && acts[0].pair == pair && PutsOrder(Verdict(a, base, lot, acts[0].side, pair, acts[0].prices)) then 1 else 0)
    + Orders(Step(a, base, lot, acts[0]), base, lot, acts[1..], pair)
  }

  /** Times the pair goes from held to not held. */
  ghost function Closes(a: Account, base: string, lot: int, acts: seq<Action>, pair: string): nat
    requires WellFiled(a.holdings, base) && Runs(a, base, lot, acts)
    decreases acts
  {
    if acts == [] then 0 else
    var b := Step(a, base, lot, acts[0]);
    (if pair in a.holdings && pair !in b.holdings then 1 else 0) + Closes(b, base, lot, acts[1..], pair)
  }

  function LotsOf(m: LotBook, pair: string): nat {
    if pair in m then m[pair].lots else 0
  }

  /** Every order event is an open, an add or a close: each of the first two leaves one more
      lot and each close takes the one lot away, so the orders for a pair are the lots it
      gained plus two for every close. */
  lemma {:induction false} OrdersBalance(a: Account, base: string, lot: int, acts: seq<Action>, m: LotBook, pair: string)
    requires WellFiled(a.holdings, base) && Runs(a, base, lot, acts) && SignalsOnly(acts)
    requires lot != 0 && Counts(a, lot, m)
    ensures Orders(a, base, lot, acts, pair) + LotsOf(m, pair)
         == LotsOf(LotRun(m, acts), pair) + 2 * Closes(a, base, lot, acts, pair)
    decreases acts
  {
    if acts == [] {
    } else {
      var act := acts[0];
      StepCounts(a, base, lot, act, m);
      OneOrder(a, base, lot, act, m, pair);
      OrdersBalance(Step(a, base, lot, act), base, lot, acts[1..], LotStep(m, act), pair);
    }
  }

  lemma OneOrder(a: Account, base: string, lot: int, act: Action, m: LotBook, pair: string)
    requires WellFiled(a.holdings, base) && Allowed(a, base, act) && (act.Signal? || act.Tick?)
    requires lot != 0 && Counts(a, lot, m)
    ensures (if act.Signal? && act.pair == pair && PutsOrder(Verdict(a, base, lot, act.side, pair, act.prices)) then 1 else 0) + LotsOf(m, pair)
         == LotsOf(LotStep(m, act), pair)
            + (if pair in a.holdings && pair !in Step(a, base, lot, act).holdings then 2 else 0)
  {
    hide LotUnits, ProfitBase, ProfitPerc, Pips, PooledCost, PooledPrice, Realised;
    LotProduct(LotsOf(m, act.pair), lot);
    LotProduct(1, lot);
    LotProduct(LotsOf(m, act.pair) + 1, lot);
  }
}
