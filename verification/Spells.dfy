/** event/trade_manager.py: the profitable-time statistic of one trade, seen as a history of
    samples, and what it means: the finished profitable spells.  Times are microseconds. */
module Spells {
  import opened Wrappers

  /** What the trade saw at a time: a tick at a profit, or a tick at a loss or a closing. */
  datatype Sample = Sample(time: int, profitable: bool)

  datatype Stats = Stats(seconds: int, start: Option<int>)

  const NONE_YET := Stats(0, None)

  /** timedelta.seconds: the whole seconds, without the days. */
  function Seconds(delta: int): (s: int)
    ensures 0 <= s < 86400
    ensures delta >= 0 ==> s * 1000000 <= delta
  {
    delta / 1000000 % 86400
  }

  /** Whole days, these seconds of the last one, and a part of a second make up the span. */
  lemma SecondsOfTheDay(delta: int) returns (days: int, rest: int)
    ensures delta == (days * 86400 + Seconds(delta)) * 1000000 + rest
    ensures 0 <= Seconds(delta) < 86400 && 0 <= rest < 1000000
  {
    days, rest := delta / 1000000 / 86400, delta % 1000000;
  }

  /** update_profitable_seconds */
  function Finished(st: Stats, now: int): Stats
    requires st.start.Some?
  {
    Stats(st.seconds + Seconds(now - st.start.value), None)
  }

  function Sampled(st: Stats, s: Sample): Stats {
    if s.profitable then (if st.start.None? then st.(start := Some(s.time)) else st)
    else if st.start.Some? then Finished(st, s.time) else st
  }

  function Tracked(history: seq<Sample>): Stats {
    if history == [] then NONE_YET else Sampled(Tracked(history[..|history| - 1]), history[|history| - 1])
  }

  /** A finished profitable spell: profitable from sample i up to before sample j, at which the
      profit is gone, and not profitable just before i. */
  ghost predicate IsSpell(history: seq<Sample>, i: nat, j: nat) {
    && i < j < |history| && !history[j].profitable
    && (forall k | i <= k < j :: history[k].profitable)
    && (i > 0 ==> !history[i - 1].profitable)
  }

  /** The first sample of the run of profitable samples at the end. */
  function RunStart(history: seq<Sample>): (i: nat)
    ensures i <= |history|
    ensures forall k | i <= k < |history| :: history[k].profitable
    ensures i > 0 ==> !history[i - 1].profitable
  {
    if history == [] || !history[|history| - 1].profitable then |history| else RunStart(history[..|history| - 1])
  }

  lemma {:induction false} RunStartIsUnique(history: seq<Sample>, i: nat)
    requires i <= |history| && (forall k | i <= k < |history| :: history[k].profitable)
    requires i > 0 ==> !history[i - 1].profitable
    ensures i == RunStart(history)
  {
    if i < |history| {
      RunStartIsUnique(history[..|history| - 1], i);
    }
  }

  function SpellsOf(history: seq<Sample>): seq<(nat, nat)> {
    if history == [] then [] else
    var n := |history| - 1;
    var i := RunStart(history[..n]);
    SpellsOf(history[..n]) + if !history[n].profitable && i < n then [(i, n)] else []
  }

  lemma {:induction false} SpellsAreAllSpells(history: seq<Sample>, i: nat, j: nat)
    ensures (i, j) in SpellsOf(history) <==> IsSpell(history, i, j)
  {
    if history != [] {
      var n := |history| - 1;
      var front := history[..n];
      SpellsAreAllSpells(front, i, j);
      if j < n {
        SpellInFront(history, i, j);
      } else if j == n {
        if IsSpell(history, i, n) {
          RunStartIsUnique(front, i);
        }
      }
    }
  }

  lemma SpellInFront(history: seq<Sample>, i: nat, j: nat)
    requires history != [] && j < |history| - 1
    ensures IsSpell(history, i, j) <==> IsSpell(history[..|history| - 1], i, j)
  {
  }

  /** Spells come in order and do not overlap. */
  lemma {:induction false} SpellsAreDisjoint(history: seq<Sample>)
    ensures forall a, b | 0 <= a < b < |SpellsOf(history)| :: SpellsOf(history)[a].1 < SpellsOf(history)[b].0
  {
    if history != [] {
      var n := |history| - 1;
      var front := history[..n];
      SpellsAreDisjoint(front);
      var r := RunStart(front);
      forall a | 0 <= a < |SpellsOf(front)| ensures SpellsOf(front)[a].1 < r || r == n {
        var s := SpellsOf(front)[a];
        assert s in SpellsOf(front);
        SpellsAreAllSpells(front, s.0, s.1);
      }
    }
  }

  function TimeOf(history: seq<Sample>, i: nat): int {
    if i < |history| then history[i].time else 0
  }

  /** The sum over the spells of each one's whole seconds. */
  function Total(history: seq<Sample>, spells: seq<(nat, nat)>): int {
    if spells == [] then 0 else
    var s := spells[|spells| - 1];
    Total(history, spells[..|spells| - 1]) + Seconds(TimeOf(history, s.1) - TimeOf(history, s.0))
  }

  lemma {:induction false} SpellsAreIndices(history: seq<Sample>)
    ensures forall s <- SpellsOf(history) :: s.0 < s.1 < |history|
  {
    forall s | s in SpellsOf(history) ensures s.0 < s.1 < |history| {
      SpellsAreAllSpells(history, s.0, s.1);
    }
  }

  lemma {:induction false} TotalOfLonger(history: seq<Sample>, longer: seq<Sample>, spells: seq<(nat, nat)>)
    requires history <= longer && forall s <- spells :: s.0 < |history| && s.1 < |history|
    ensures Total(history, spells) == Total(longer, spells)
  {
    if spells != [] {
      TotalOfLonger(history, longer, spells[..|spells| - 1]);
    }
  }

  lemma TotalOneMore(history: seq<Sample>, spells: seq<(nat, nat)>, s: (nat, nat))
    ensures Total(history, spells + [s]) == Total(history, spells) + Seconds(TimeOf(history, s.1) - TimeOf(history, s.0))
  {
    assert (spells + [s])[..|spells|] == spells;
  }

  /** The start is set, to the beginning of the run, exactly when the last sample is at a
      profit. */
  lemma {:induction false} StartIsTheRun(history: seq<Sample>)
    ensures Tracked(history).start ==
            if RunStart(history) < |history| then Some(history[RunStart(history)].time) else None
  {
    if history != [] {
      StartIsTheRun(history[..|history| - 1]);
    }
  }

  /** What one more sample adds to the spells. */
  function SpellEnding(front: seq<Sample>, s: Sample): seq<(nat, nat)> {
    if !s.profitable && RunStart(front) < |front| then [(RunStart(front), |front|)] else []
  }

  lemma OneMoreSample(history: seq<Sample>)
    requires history != []
    ensures var front, s := history[..|history| - 1], history[|history| - 1];
            SpellsOf(history) == SpellsOf(front) + SpellEnding(front, s) && Tracked(history) == Sampled(Tracked(front), s)
  {
  }

  lemma TotalInFront(history: seq<Sample>)
    requires history != []
    ensures var front := history[..|history| - 1];
            Total(front, SpellsOf(front)) == Total(history, SpellsOf(front))
  {
    var front := history[..|history| - 1];
    SpellsAreIndices(front);
    TotalOfLonger(front, history, SpellsOf(front));
  }

  lemma TotalOfEnding(history: seq<Sample>, spells: seq<(nat, nat)>)
    requires history != []
    ensures var front, s := history[..|history| - 1], history[|history| - 1];
            Total(history, spells + SpellEnding(front, s)) == Total(history, spells)
              + if !s.profitable && RunStart(front) < |front| then Seconds(s.time - history[RunStart(front)].time) else 0
  {
    hide Total, Seconds;
    var n := |history| - 1;
    var front := history[..n];
    TotalOneMore(history, spells, (RunStart(front), n));
    assert spells + [] == spells;
    assert RunStart(front) < n ==> front[RunStart(front)] == history[RunStart(front)];
  }

  /** profitable_seconds is the sum over the finished spells of each spell's whole seconds. */
  lemma {:induction false} SecondsAreTheSpells(history: seq<Sample>)
    ensures Tracked(history).seconds == Total(history, SpellsOf(history))
  {
    if history != [] {
      var front := history[..|history| - 1];
      SecondsAreTheSpells(front);
      StartIsTheRun(front);
      OneMoreSample(history);
      TotalInFront(history);
      TotalOfEnding(history, SpellsOf(front));
      hide Total, Seconds, RunStart, Tracked, SpellsOf, SpellEnding;
    }
  }

  ghost predicate NonDecreasing(history: seq<Sample>) {
    forall i, j | 0 <= i <= j < |history| :: history[i].time <= history[j].time
  }

  /** Over a clock that never goes back, profitable_seconds never exceeds the elapsed time. */
  lemma {:induction false} NeverMoreThanElapsed(history: seq<Sample>, openTime: int)
    requires NonDecreasing(history) && (history != [] ==> openTime <= history[0].time)
    ensures var now := if history == [] then openTime else history[|history| - 1].time;
            && 0 <= Tracked(history).seconds
            && Tracked(history).seconds * 1000000
            <= (if Tracked(history).start.Some? then Tracked(history).start.value else now) - openTime
            && (Tracked(history).start.Some? ==> Tracked(history).start.value <= now)
  {
    if history != [] {
      NeverMoreThanElapsed(history[..|history| - 1], openTime);
    }
  }
}
