/** Whole runs of event/trade_manager.py: trades opened, priced and closed, heartbeats, reloads
    and restarts, and what the statistics mean over all of them.  What a reload or a restart
    brings back is the history of a trade as it was at the last save. */
module TradeRuns {
  import opened Wrappers
  import opened Decimals
  import opened ProfitPips
  import opened Spells
  import opened TradeManagers

  /** A reload follows a market event, or the start of a new process.  If one of the trades
      makes it raise, `restored` are those whose statistics had been read back by then. */
  datatype Op =
    | Open(id: nat, terms: BrokerTrade)
    | Tick(instrument: string, bid: real, ask: real, time: int, now: int)
    | Close(id: nat, closeTime: int, profit: Option<real>, now: int)
    | Beat(account: Account, now: int)
    | Reload(restart: bool, account: Account, restored: set<string>, now: int)

  /** The trades in memory and the statistics last saved. */
  datatype Memory = Memory(trades: Trades, saved: map<string, Saved>)

  predicate AllAged(trades: Trades, now: int) {
    forall k <- trades :: !Ageless(trades[k], now)
  }

  /** The broker's trades, before the restore. */
  function Base(m: Memory, op: Op): Trades
    requires op.Reload?
  {
    Synced(if op.restart then map[] else m.trades, op.account)
  }

  predicate Loads(m: Memory, op: Op)
    requires op.Reload?
  {
    forall k | k in Base(m, op) && k in m.saved :: !Ageless(Base(m, op)[k], op.now)
  }

  predicate Restores(m: Memory, op: Op, key: string)
    requires op.Reload?
  {
    key in Base(m, op) && key in m.saved && (Loads(m, op) || key in op.restored)
  }

  function TradesAfter(pips: PipDict, m: Memory, op: Op): Trades
    requires ValidPips(pips)
  {
    match op
    case Open(id, terms) => OpenedIn(m.trades, id, terms)
    case Tick(instrument, bid, ask, time, now) => PricedIn(pips, m.trades, instrument, bid, ask, time, now)
    case Close(id, closeTime, profit, now) => ClosedIn(pips, m.trades, id, closeTime, profit, now)
    case Beat(account, _) => Beaten(m.trades, account)
    case Reload(_, _, _, _) =>
      map k | k in Base(m, op) :: if Restores(m, op, k) then Restored(Base(m, op)[k], m.saved[k]) else Base(m, op)[k]
  }

  predicate Saves(pips: PipDict, m: Memory, op: Op) {
    match op
    case Open(_, _) => false
    case Tick(_, _, _, _, _) => false
    case Close(id, closeTime, profit, _) => Str(id) in m.trades && ClosesCleanly(pips, m.trades[Str(id)], closeTime, profit)
    case Beat(account, now) => AllAged(Beaten(m.trades, account), now)
    case Reload(_, _, _, _) => Loads(m, op)
  }

  function Handled(pips: PipDict, m: Memory, op: Op): Memory
    requires ValidPips(pips)
  {
    var trades := TradesAfter(pips, m, op);
    Memory(trades, if Saves(pips, m, op) then SavedTrades(trades) else m.saved)
  }

  // ----- histories

  /** What a trade has seen: whether it was at a profit, and at which one. */
  datatype Past = Past(samples: seq<Sample>, profits: seq<real>)

  const NOTHING := Past([], [])

  /** The past of the managed trade, that of the saved one, and the profit last seen. */
  datatype Pasts = Pasts(live: Past, kept: Past, last: real)

  function PipsOf(pips: PipDict, t: Trade, op: Op): seq<real>
    requires ValidPips(pips)
  {
    if !op.Tick? || t.terms.instrument != op.instrument then [] else
    var p := TickPips(pips, t, op.instrument, op.bid, op.ask);
    if p.None? then [] else [p.value]
  }

  /** A tick of the trade's instrument, or an attempt to close it. */
  function SeenOf(pips: PipDict, t: Trade, key: string, op: Op): seq<Sample>
    requires ValidPips(pips)
  {
    if op.Close? && Str(op.id) == key then [Sample(op.now, false)]
    else if PipsOf(pips, t, op) != [] then [Sample(op.now, PipsOf(pips, t, op)[0] >= 0.0)]
    else []
  }

  /** A new trade has seen nothing; a restored one what it had seen when it was saved. */
  function LiveAfter(pips: PipDict, m: Memory, past: Pasts, key: string, op: Op): Past
    requires ValidPips(pips)
  {
    if op.Reload? then
      (if Restores(m, op, key) then past.kept else if !op.restart && key in m.trades then past.live else NOTHING)
    else if key !in m.trades then NOTHING
    else Past(past.live.samples + SeenOf(pips, m.trades[key], key, op), past.live.profits + PipsOf(pips, m.trades[key], op))
  }

  function LastAfter(pips: PipDict, m: Memory, past: Pasts, key: string, op: Op): real
    requires ValidPips(pips)
  {
    if key !in m.trades || (op.Reload? && op.restart) then 0.0
    else if PipsOf(pips, m.trades[key], op) != [] then PipsOf(pips, m.trades[key], op)[0]
    else past.last
  }

  function PastsAfter(pips: PipDict, m: Memory, past: Pasts, key: string, op: Op): Pasts
    requires ValidPips(pips)
  {
    var live := LiveAfter(pips, m, past, key, op);
    Pasts(live, if Saves(pips, m, op) then live else past.kept, LastAfter(pips, m, past, key, op))
  }

  /** The memory after a run that starts with nothing managed and nothing saved. */
  function After(pips: PipDict, ops: seq<Op>): Memory
    requires ValidPips(pips)
  {
    if ops == [] then Memory(map[], map[]) else Handled(pips, After(pips, ops[..|ops| - 1]), ops[|ops| - 1])
  }

  function PastsOf(pips: PipDict, ops: seq<Op>, key: string): Pasts
    requires ValidPips(pips)
  {
    if ops == [] then Pasts(NOTHING, NOTHING, 0.0)
    else PastsAfter(pips, After(pips, ops[..|ops| - 1]), PastsOf(pips, ops[..|ops| - 1], key), key, ops[|ops| - 1])
  }

  function History(pips: PipDict, ops: seq<Op>, key: string): seq<Sample>
    requires ValidPips(pips)
  {
    PastsOf(pips, ops, key).live.samples
  }

  // ----- the statistics are those of the histories

  /** The greatest and the least of 0 and the profits seen. */
  ghost predicate Extremes(max: real, min: real, seen: seq<real>) {
    && (max == 0.0 || max in seen) && (min == 0.0 || min in seen)
    && min <= 0.0 <= max && forall x <- seen :: min <= x <= max
  }

  ghost predicate TradeFollows(t: Trade, past: Past) {
    t.stats == Tracked(past.samples) && Extremes(t.max, t.min, past.profits)
  }

  ghost predicate SavedFollows(s: Saved, past: Past) {
    s.stats == Tracked(past.samples) && Extremes(s.max, s.min, past.profits)
  }

  /** The trade filed under the key, and the one saved under it, have the statistics of their
      pasts. */
  ghost predicate Follows(m: Memory, past: Pasts, key: string) {
    && (key in m.trades ==> TradeFollows(m.trades[key], past.live) && m.trades[key].current == past.last)
    && (key in m.saved ==> SavedFollows(m.saved[key], past.kept))
  }

  lemma NewFollows(terms: BrokerTrade)
    ensures TradeFollows(Fresh(terms), NOTHING) && Fresh(terms).current == 0.0
  {
  }

  lemma TrackedOneMore(earlier: seq<Sample>, s: Sample)
    ensures Tracked(earlier + [s]) == Sampled(Tracked(earlier), s)
  {
    assert (earlier + [s])[..|earlier|] == earlier;
  }

  /** A tick with a profit. */
  lemma PricedFollows(t: Trade, past: Past, profit: real, time: int, now: int)
    requires TradeFollows(t, past)
    ensures TradeFollows(Priced(t, profit, time, now), Past(past.samples + [Sample(now, profit >= 0.0)], past.profits + [profit]))
    ensures Priced(t, profit, time, now).current == profit
  {
    TrackedOneMore(past.samples, Sample(now, profit >= 0.0));
    hide Tracked, Sampled;
  }

  lemma SampledFollows(t: Trade, past: Past, now: int)
    requires TradeFollows(t, past)
    ensures TradeFollows(t.(stats := Sampled(t.stats, Sample(now, false))), Past(past.samples + [Sample(now, false)], past.profits))
  {
    TrackedOneMore(past.samples, Sample(now, false));
    hide Tracked, Sampled;
  }

  lemma NothingMore(past: Past)
    ensures Past(past.samples + [], past.profits + []) == past
  {
  }

  /** Each op but a reload, on a trade managed before. */
  lemma OldTradeFollows(pips: PipDict, m: Memory, past: Pasts, key: string, op: Op)
    requires ValidPips(pips) && key in m.trades && !op.Reload?
    requires TradeFollows(m.trades[key], past.live) && m.trades[key].current == past.last
    ensures var trades := TradesAfter(pips, m, op);
            key in trades ==>
              && TradeFollows(trades[key], LiveAfter(pips, m, past, key, op))
              && trades[key].current == LastAfter(pips, m, past, key, op)
  {
    hide Str, Int, Sampled, TickPips, ClosesCleanly, Keys, Loaded, TradeFollows, Restored;
    var t := m.trades[key];
    NothingMore(past.live);
    match op
    case Open(_, _) =>
    case Tick(instrument, bid, ask, time, now) =>
      var p := TickPips(pips, t, instrument, bid, ask);
      if t.terms.instrument == instrument && p.Some? {
        PricedFollows(t, past.live, p.value, time, now);
        hide Priced;
      }
    case Close(_, _, _, now) =>
      SampledFollows(t, past.live, now);
      assert past.live.profits + [] == past.live.profits;
    case Beat(_, _) =>
  }

  /** Each op but a reload, on a trade not managed before. */
  lemma NewTradeFollows(pips: PipDict, m: Memory, past: Pasts, key: string, op: Op)
    requires ValidPips(pips) && key !in m.trades && !op.Reload?
    ensures var trades := TradesAfter(pips, m, op);
            key in trades ==>
              && TradeFollows(trades[key], LiveAfter(pips, m, past, key, op))
              && trades[key].current == LastAfter(pips, m, past, key, op)
  {
    hide Str, Int, TickPips, ClosesCleanly, Keys, TradeFollows;
    match op
    case Open(_, terms) => NewFollows(terms);
    case Tick(_, _, _, _, _) =>
    case Close(_, _, _, _) =>
    case Beat(account, _) =>
      if key in TradesAfter(pips, m, op) {
        LoadedFollows(account, key);
      }
  }

  lemma LoadedFollows(account: Account, key: string)
    requires key in Keys(account)
    ensures TradeFollows(Loaded(account, key), NOTHING) && Loaded(account, key).current == 0.0
  {
    KeysComeFromIds(account);
    NewFollows(account[Int(key)]);
  }

  lemma ReloadFollows(pips: PipDict, m: Memory, past: Pasts, key: string, op: Op)
    requires ValidPips(pips) && op.Reload? && Follows(m, past, key)
    ensures var trades := TradesAfter(pips, m, op);
            key in trades ==>
              && TradeFollows(trades[key], LiveAfter(pips, m, past, key, op))
              && trades[key].current == LastAfter(pips, m, past, key, op)
  {
    hide Str, Int, Keys, Loaded, Extremes, Tracked, Loads;
    if key in Base(m, op) && (op.restart || key !in m.trades) {
      LoadedFollows(op.account, key);
    }
  }

  lemma StepFollows(pips: PipDict, m: Memory, past: Pasts, key: string, op: Op)
    requires ValidPips(pips) && Follows(m, past, key)
    ensures Follows(Handled(pips, m, op), PastsAfter(pips, m, past, key, op), key)
  {
    hide TradesAfter, LiveAfter, LastAfter, Saves, Extremes, Tracked, ValidPips;
    if op.Reload? {
      ReloadFollows(pips, m, past, key, op);
    } else if key in m.trades {
      OldTradeFollows(pips, m, past, key, op);
    } else {
      NewTradeFollows(pips, m, past, key, op);
    }
  }

  lemma {:induction false} RunFollows(pips: PipDict, ops: seq<Op>, key: string)
    requires ValidPips(pips)
    ensures Follows(After(pips, ops), PastsOf(pips, ops, key), key)
  {
    if ops != [] {
      hide Handled, PastsAfter, Follows;
      RunFollows(pips, ops[..|ops| - 1], key);
      StepFollows(pips, After(pips, ops[..|ops| - 1]), PastsOf(pips, ops[..|ops| - 1], key), key, ops[|ops| - 1]);
    }
  }

  /** Over any run of openings, ticks, heartbeats, closings, reloads and restarts the profitable
      time of every managed trade is that of its history, and what is saved is that of the
      history at the last save; module Spells says what these are. */
  lemma StatsFollowTheHistory(pips: PipDict, ops: seq<Op>, key: string)
    requires ValidPips(pips)
    ensures key in After(pips, ops).trades ==> After(pips, ops).trades[key].stats == Tracked(History(pips, ops, key))
    ensures key in After(pips, ops).saved ==> After(pips, ops).saved[key].stats == Tracked(PastsOf(pips, ops, key).kept.samples)
  {
    RunFollows(pips, ops, key);
    hide After, PastsOf, Tracked;
  }

  /** And over any such run max and min are the greatest and the least of 0 and the profits of
      that history, and current is the profit last seen. */
  lemma ExtremesFollowTheTicks(pips: PipDict, ops: seq<Op>, key: string)
    requires ValidPips(pips)
    ensures var m, past := After(pips, ops), PastsOf(pips, ops, key);
            && (key in m.trades ==> Extremes(m.trades[key].max, m.trades[key].min, past.live.profits) && m.trades[key].current == past.last)
            && (key in m.saved ==> Extremes(m.saved[key].max, m.saved[key].min, past.kept.profits))
  {
    RunFollows(pips, ops, key);
    hide After, PastsOf, Extremes;
  }

  /** So 0 lies between the extremes of every trade at every moment, reloads included. */
  lemma RunKeepsBounds(pips: PipDict, ops: seq<Op>)
    requires ValidPips(pips)
    ensures Bounded(After(pips, ops).trades) && SavedBounded(Some(After(pips, ops).saved))
  {
    var m := After(pips, ops);
    forall k | k in m.trades ensures m.trades[k].min <= 0.0 <= m.trades[k].max {
      ExtremesFollowTheTicks(pips, ops, k);
    }
    forall k | k in m.saved ensures m.saved[k].min <= 0.0 <= m.saved[k].max {
      ExtremesFollowTheTicks(pips, ops, k);
    }
  }

  // ----- what is managed and what is saved

  /** The memory before the last op. */
  function Before(pips: PipDict, ops: seq<Op>): Memory
    requires ValidPips(pips) && ops != []
  {
    After(pips, ops[..|ops| - 1])
  }

  /** The trade's divisions are defined: its extremes differ, its age is no whole number of days
      and its pips can be worked out. */
  predicate CanClose(pips: PipDict, t: Trade, op: Op)
    requires op.Close?
  {
    && t.max != t.min && Seconds(op.closeTime - t.terms.openTime) != 0
    && (op.profit == None || op.profit == Some(0.0) ==> t.terms.instrument in pips)
  }

  /** Over any run: an opened trade is managed; one that is closed is not any more, unless the
      closing raises, and then it still is; a heartbeat adds what the broker has, a reload or a
      restart leaves exactly that, and a tick changes nothing. */
  lemma KeysManaged(pips: PipDict, ops: seq<Op>, key: string)
    requires ValidPips(pips) && ops != []
    ensures var before, op := Before(pips, ops).trades, ops[|ops| - 1];
            key in After(pips, ops).trades <==>
              match op
              case Open(id, _) => key in before || key == Str(id)
              case Tick(_, _, _, _, _) => key in before
              case Close(id, _, _, _) => key in before && (key == Str(id) ==> !CanClose(pips, before[key], op))
              case Beat(account, _) => key in before || exists id :: id in account && Str(id) == key
              case Reload(_, account, _, _) => exists id :: id in account && Str(id) == key
  {
    hide After, Str, Int, Ticked, Restores, Loaded, Seconds;
    AfterIsHandled(pips, ops);
    ManagedAfter(pips, Before(pips, ops), ops[|ops| - 1], key);
    hide Handled, CanClose;
  }

  lemma AfterIsHandled(pips: PipDict, ops: seq<Op>)
    requires ValidPips(pips) && ops != []
    ensures After(pips, ops) == Handled(pips, Before(pips, ops), ops[|ops| - 1])
  {
  }

  lemma ManagedAfter(pips: PipDict, m: Memory, op: Op, key: string)
    requires ValidPips(pips)
    ensures key in Handled(pips, m, op).trades <==>
              match op
              case Open(id, _) => key in m.trades || key == Str(id)
              case Tick(_, _, _, _, _) => key in m.trades
              case Close(id, _, _, _) => key in m.trades && (key == Str(id) ==> !CanClose(pips, m.trades[key], op))
              case Beat(account, _) => key in m.trades || exists id :: id in account && Str(id) == key
              case Reload(_, account, _, _) => exists id :: id in account && Str(id) == key
  {
    hide Str, Int, Ticked, Restores, Loaded, Seconds, Restored, Saves;
  }

  /** What is saved is what is managed as of the last closing that did not raise, heartbeat at
      which no managed trade's age was a whole number of days, or reload that did not raise. */
  lemma SavedWhen(pips: PipDict, ops: seq<Op>)
    requires ValidPips(pips) && ops != []
    ensures var before, m, op := Before(pips, ops), After(pips, ops), ops[|ops| - 1];
            m.saved ==
              if match op
                 case Open(_, _) => false
                 case Tick(_, _, _, _, _) => false
                 case Close(id, _, _, _) => Str(id) in before.trades && CanClose(pips, before.trades[Str(id)], op)
                 case Beat(_, now) => forall k | k in m.trades :: Seconds(now - m.trades[k].terms.openTime) != 0
                 case Reload(_, _, _, _) => Loads(before, op)
              then map k | k in m.trades :: Saved(m.trades[k].max, m.trades[k].min, m.trades[k].stats)
              else before.saved
  {
    hide After, Before, Str, Seconds, TradesAfter, Loads, CanClose, Saves;
    AfterIsHandled(pips, ops);
    SavesWhen(pips, Before(pips, ops), ops[|ops| - 1]);
  }

  lemma SavesWhen(pips: PipDict, m: Memory, op: Op)
    requires ValidPips(pips)
    ensures var trades := TradesAfter(pips, m, op);
            Saves(pips, m, op) <==>
              match op
              case Open(_, _) => false
              case Tick(_, _, _, _, _) => false
              case Close(id, _, _, _) => Str(id) in m.trades && CanClose(pips, m.trades[Str(id)], op)
              case Beat(_, now) => forall k | k in trades :: Seconds(now - trades[k].terms.openTime) != 0
              case Reload(_, _, _, _) => Loads(m, op)
  {
    hide Str, Seconds, Loads, TradesAfter, Beaten;
    if op.Beat? {
      BeatIs(pips, m, op);
    }
  }

  lemma BeatIs(pips: PipDict, m: Memory, op: Op)
    requires ValidPips(pips) && op.Beat?
    ensures TradesAfter(pips, m, op) == Beaten(m.trades, op.account)
  {
  }

  /** A tick shows on every managed trade of its instrument what leaving it would gain, a bought
      one at the bid and a sold one at the ask, and that profit is the last of its history. */
  lemma TickIsSeen(pips: PipDict, ops: seq<Op>, key: string)
    requires ValidPips(pips) && ops != [] && ops[|ops| - 1].Tick? && key in Before(pips, ops).trades
    requires Before(pips, ops).trades[key].terms.instrument == ops[|ops| - 1].instrument && ops[|ops| - 1].instrument in pips
    ensures var t, op, unit := Before(pips, ops).trades[key], ops[|ops| - 1], pips[ops[|ops| - 1].instrument];
            var gain := if t.terms.side == BUY then op.bid - t.terms.openPrice else t.terms.openPrice - op.ask;
            && key in After(pips, ops).trades
            && var v := After(pips, ops).trades[key].current;
               && (if gain == 0.0 then v == unit else Abs(v - gain / unit) <= 0.05)
               && PastsOf(pips, ops, key).live.profits == PastsOf(pips, ops[..|ops| - 1], key).live.profits + [v]
               && History(pips, ops, key) == History(pips, ops[..|ops| - 1], key) + [Sample(op.now, v >= 0.0)]
  {
    hide After, PastsOf, Handled, PastsAfter, TickPips, Abs;
    var op := ops[|ops| - 1];
    AfterIsHandled(pips, ops);
    PastsOneOn(pips, ops, key);
    TickShowsTheGain(pips, Before(pips, ops).trades[key], op.instrument, op.bid, op.ask);
    StepSees(pips, Before(pips, ops), PastsOf(pips, ops[..|ops| - 1], key), key, op);
  }

  /** And it leaves every trade of another instrument as it was. */
  lemma TickLeavesOthers(pips: PipDict, ops: seq<Op>, key: string)
    requires ValidPips(pips) && ops != [] && ops[|ops| - 1].Tick? && key in Before(pips, ops).trades
    requires Before(pips, ops).trades[key].terms.instrument != ops[|ops| - 1].instrument
    ensures key in After(pips, ops).trades && After(pips, ops).trades[key] == Before(pips, ops).trades[key]
  {
    AfterIsHandled(pips, ops);
    hide After, TickPips;
  }

  lemma PastsOneOn(pips: PipDict, ops: seq<Op>, key: string)
    requires ValidPips(pips) && ops != []
    ensures PastsOf(pips, ops, key) == PastsAfter(pips, Before(pips, ops), PastsOf(pips, ops[..|ops| - 1], key), key, ops[|ops| - 1])
  {
  }

  lemma StepSees(pips: PipDict, m: Memory, past: Pasts, key: string, op: Op)
    requires ValidPips(pips) && op.Tick? && key in m.trades && m.trades[key].terms.instrument == op.instrument
    requires TickPips(pips, m.trades[key], op.instrument, op.bid, op.ask).Some?
    ensures var v, after := TickPips(pips, m.trades[key], op.instrument, op.bid, op.ask).value, Handled(pips, m, op);
            && key in after.trades && after.trades[key].current == v
            && PastsAfter(pips, m, past, key, op).live.profits == past.live.profits + [v]
            && PastsAfter(pips, m, past, key, op).live.samples == past.live.samples + [Sample(op.now, v >= 0.0)]
  {
    hide TickPips, Sampled, Saves, Str;
  }

  // ----- the clock

  function NowOf(op: Op, earlier: int): int {
    if op.Open? then earlier else op.now
  }

  function Clock(ops: seq<Op>, start: int): int {
    if ops == [] then start else NowOf(ops[|ops| - 1], Clock(ops[..|ops| - 1], start))
  }

  /** The clock never goes back, from `start` on. */
  ghost predicate Forward(ops: seq<Op>, start: int) {
    ops == [] || (Forward(ops[..|ops| - 1], start) && Clock(ops[..|ops| - 1], start) <= Clock(ops, start))
  }

  ghost predicate Until(h: seq<Sample>, now: int) {
    NonDecreasing(h) && (h != [] ==> h[|h| - 1].time <= now)
  }

  lemma AppendForward(h: seq<Sample>, seen: seq<Sample>, limit: int, now: int)
    requires Until(h, limit) && limit <= now && (seen == [] || (|seen| == 1 && seen[0].time == now))
    ensures Until(h + seen, now)
  {
  }

  lemma UntilLater(h: seq<Sample>, limit: int, now: int)
    requires Until(h, limit) && limit <= now
    ensures Until(h, now) && Until([], now)
  {
  }

  lemma SeenNow(pips: PipDict, t: Trade, key: string, op: Op, earlier: int)
    requires ValidPips(pips)
    ensures var seen := SeenOf(pips, t, key, op);
            seen == [] || (|seen| == 1 && seen[0].time == NowOf(op, earlier))
  {
  }

  ghost predicate PastsUntil(past: Pasts, now: int) {
    Until(past.live.samples, now) && Until(past.kept.samples, now)
  }

  lemma LiveUntil(pips: PipDict, m: Memory, past: Pasts, key: string, op: Op, limit: int)
    requires ValidPips(pips) && PastsUntil(past, limit) && limit <= NowOf(op, limit)
    ensures Until(LiveAfter(pips, m, past, key, op).samples, NowOf(op, limit))
  {
    hide SeenOf, PipsOf, Restores, Until, NowOf, ValidPips;
    UntilLater(past.live.samples, limit, NowOf(op, limit));
    UntilLater(past.kept.samples, limit, NowOf(op, limit));
    if key in m.trades {
      SeenNow(pips, m.trades[key], key, op, limit);
      AppendForward(past.live.samples, SeenOf(pips, m.trades[key], key, op), limit, NowOf(op, limit));
    }
  }

  lemma StepUntil(pips: PipDict, m: Memory, past: Pasts, key: string, op: Op, limit: int)
    requires ValidPips(pips) && PastsUntil(past, limit) && limit <= NowOf(op, limit)
    ensures PastsUntil(PastsAfter(pips, m, past, key, op), NowOf(op, limit))
  {
    hide LiveAfter, LastAfter, Saves, Until, NowOf, ValidPips;
    LiveUntil(pips, m, past, key, op, limit);
    UntilLater(past.kept.samples, limit, NowOf(op, limit));
  }

  /** The samples of a trade follow the clock, and so do those it had when it was saved. */
  lemma {:induction false} HistoryIsForward(pips: PipDict, ops: seq<Op>, key: string, start: int)
    requires ValidPips(pips) && Forward(ops, start)
    ensures Until(History(pips, ops, key), Clock(ops, start)) && Until(PastsOf(pips, ops, key).kept.samples, Clock(ops, start))
  {
    if ops != [] {
      hide Until, After, PastsAfter, NowOf;
      var front, op := ops[..|ops| - 1], ops[|ops| - 1];
      HistoryIsForward(pips, front, key, start);
      StepUntil(pips, After(pips, front), PastsOf(pips, front, key), key, op, Clock(front, start));
    }
  }

  /** Under a clock that never goes back, the profitable seconds of a trade are the sum of its
      finished spells' whole seconds, and no more than the time since its first sample. */
  lemma ProfitableSecondsAreTheSpells(pips: PipDict, ops: seq<Op>, key: string, start: int)
    requires ValidPips(pips) && Forward(ops, start) && key in After(pips, ops).trades
    ensures var h := History(pips, ops, key);
            var st := After(pips, ops).trades[key].stats;
            && st.seconds == Total(h, SpellsOf(h))
            && (h != [] ==> st.seconds * 1000000 <= h[|h| - 1].time - h[0].time)
            && (h != [] ==> (st.start.Some? <==> h[|h| - 1].profitable))
  {
    var h := History(pips, ops, key);
    StatsFollowTheHistory(pips, ops, key);
    HistoryIsForward(pips, ops, key, start);
    SecondsAreTheSpells(h);
    StartIsTheRun(h);
    if h != [] {
      NeverMoreThanElapsed(h, h[0].time);
    }
    hide Total, SpellsOf, Tracked, After, PastsOf, Forward, NonDecreasing;
  }

  // ----- the handler

  function MemoryOf(trades: Trades, store: Option<map<string, Saved>>): Memory {
    Memory(trades, if store.Some? then store.value else map[])
  }

  /** The handler of a process performs an op as the machine does; of a reload that raises it
      says which trades had been restored. */
  method Perform(h: TradeManageHandler, op: Op) returns (done: Op)
    requires h.Valid() && (op.Reload? ==> !op.restart)
    modifies h
    ensures h.Valid()
    ensures done == op || (op.Reload? && done.Reload? && done == op.(restored := done.restored))
    ensures MemoryOf(h.trades, h.store) == Handled(h.pips, old(MemoryOf(h.trades, h.store)), done)
  {
    hide Str, Int, Ageless, ClosesCleanly, Synced, Beaten, PricedIn, OpenedIn, ClosedIn;
    done := op;
    match op
    case Open(id, terms) => h.TradeOpen(id, terms);
    case Tick(instrument, bid, ask, time, now) => h.ProcessPrice(instrument, bid, ask, time, now);
    case Close(id, closeTime, profit, now) => var _ := h.TradeClose(id, closeTime, profit, now);
    case Beat(account, now) => var _ := h.Heartbeat(account, now);
    case Reload(_, _, _, _) => done := PerformReload(h, op);
  }

  method PerformReload(h: TradeManageHandler, op: Op) returns (done: Op)
    requires h.Valid() && op.Reload? && !op.restart
    modifies h
    ensures h.Valid()
    ensures done.Reload? && done == op.(restored := done.restored)
    ensures MemoryOf(h.trades, h.store) == Handled(h.pips, old(MemoryOf(h.trades, h.store)), done)
  {
    hide Str, Int, Ageless, Restored, Bounded, SavedBounded, Keys, Loaded, Synced, SavedTrades, RestoredAll, TradesAfter;
    KeysOfSynced(h.trades, op.account);
    var m := MemoryOf(h.trades, h.store);
    var base := Base(m, op);
    var ok := h.LoadTrades(op.account, op.now);
    done := op.(restored := set k | k in h.trades && k in base && h.trades[k] != base[k]);
    ReloadedAs(h.pips, m, done, h.trades);
  }

  /** All are restored, or those that differ from what they were. */
  lemma ReloadedAs(pips: PipDict, m: Memory, op: Op, trades: Trades)
    requires ValidPips(pips) && op.Reload? && trades.Keys == Base(m, op).Keys
    requires if Loads(m, op) then trades == RestoredAll(Base(m, op), m.saved)
             else forall k <- trades ::
                    if k in op.restored then k in m.saved && trades[k] == Restored(Base(m, op)[k], m.saved[k])
                    else trades[k] == Base(m, op)[k]
    ensures TradesAfter(pips, m, op) == trades
  {
    hide Loads, Base, Restored;
  }
}
