/** event/trade_manager.py: TradeManageHandler, which keeps running statistics of the open
    trades and saves them to a key-value store that outlives the process. */
module TradeManagers {
  import opened Wrappers
  import opened Decimals
  import opened ProfitPips
  import opened Spells

  // ----- ids and keys

  function Digit(d: nat): char
    requires d < 10
  {
    ['0', '1', '2', '3', '4', '5', '6', '7', '8', '9'][d]
  }

  /** str(trade_id) */
  function Str(id: nat): string {
    (if id < 10 then [] else Str(id / 10)) + [Digit(id % 10)]
  }

  function DigitValue(c: char): nat {
    if '0' <= c <= '9' then (c as int - '0' as int) else 0
  }

  /** int(key) */
  function Int(key: string): nat {
    if key == [] then 0 else Int(key[..|key| - 1]) * 10 + DigitValue(key[|key| - 1])
  }

  lemma LastDigit(front: string, d: nat)
    requires d < 10
    ensures Int(front + [Digit(d)]) == Int(front) * 10 + d
  {
    assert (front + [Digit(d)])[..|front|] == front;
  }

  lemma NoDigits()
    ensures Int([]) == 0
  {
  }

  lemma {:induction false} KeysReadBack(id: nat)
    ensures Int(Str(id)) == id
  {
    hide Int, Digit;
    LastDigit([], id % 10);
    assert Int([]) == 0 by { NoDigits(); }
    if id >= 10 {
      KeysReadBack(id / 10);
      LastDigit(Str(id / 10), id % 10);
    }
  }

  /** In the decimal system. */
  lemma StrOfAnId()
    ensures Str(25) == "25"
  {
    assert Str(2) == [Digit(2)];
    assert Str(25) == Str(2) + [Digit(5)];
  }

  // ----- state

  /** What the broker says of an open trade. */
  datatype BrokerTrade = BrokerTrade(instrument: string, side: OrderSide, openTime: int, openPrice: real)

  datatype Trade = Trade(
    terms: BrokerTrade, max: real, min: real, current: real, stats: Stats, lastTickTime: Option<int>)

  /** The fields saved_to_redis writes and load_trades reads back. */
  datatype Saved = Saved(max: real, min: real, stats: Stats)

  type Trades = map<string, Trade>
  type Account = map<nat, BrokerTrade>

  function Fresh(terms: BrokerTrade): Trade {
    Trade(terms, 0.0, 0.0, 0.0, NONE_YET, None)
  }

  function SavedTrades(trades: Trades): map<string, Saved> {
    map k | k in trades :: Saved(trades[k].max, trades[k].min, trades[k].stats)
  }

  function Restored(t: Trade, s: Saved): Trade {
    t.(max := s.max, min := s.min, stats := s.stats)
  }

  /** process_trade */
  function Priced(t: Trade, pips: real, time: int, now: int): Trade {
    t.(current := pips,
       max := if pips > t.max then pips else t.max,
       min := if pips < t.min then pips else t.min,
       stats := Sampled(t.stats, Sample(now, pips >= 0.0)),
       lastTickTime := Some(time))
  }

  /** The profit in pips at the exit price of the quote; None for an unknown symbol. */
  function TickPips(pips: PipDict, t: Trade, instrument: string, bid: real, ask: real): Option<real>
    requires ValidPips(pips)
  {
    ProfitPip(pips, instrument, t.terms.openPrice, if t.terms.side == BUY then bid else ask, t.terms.side)
  }

  /** A known instrument always gives a profit, that of leaving a bought trade at the bid or a sold
      one at the ask. */
  lemma TickShowsTheGain(pips: PipDict, t: Trade, instrument: string, bid: real, ask: real)
    requires ValidPips(pips)
    ensures TickPips(pips, t, instrument, bid, ask).Some? <==> instrument in pips
    ensures instrument in pips ==>
              var gain := if t.terms.side == BUY then bid - t.terms.openPrice else t.terms.openPrice - ask;
              var v := TickPips(pips, t, instrument, bid, ask).value;
              if gain == 0.0 then v == pips[instrument] else Abs(v - gain / pips[instrument]) <= 0.05
  {
    if instrument in pips {
      BreakEvenIsAPip(pips, instrument, t.terms.openPrice, if t.terms.side == BUY then bid else ask, t.terms.side);
    }
  }

  function Ticked(pips: PipDict, t: Trade, instrument: string, bid: real, ask: real, time: int, now: int): Trade
    requires ValidPips(pips)
  {
    var p := TickPips(pips, t, instrument, bid, ask);
    if t.terms.instrument != instrument || p.None? then t else Priced(t, p.value, time, now)
  }

  /** The divisions of trade_close are all defined. */
  predicate ClosesCleanly(pips: PipDict, t: Trade, closeTime: int, profit: Option<real>) {
    && t.max != t.min
    && Seconds(closeTime - t.terms.openTime) != 0
    && (profit.None? || profit.value == 0.0 ==> t.terms.instrument in pips)
  }

  /** total_time.seconds, the divisor of profitable_time. */
  predicate Ageless(t: Trade, now: int) {
    Seconds(now - t.terms.openTime) == 0
  }

  function Keys(account: Account): set<string> {
    set id <- account :: Str(id)
  }

  /** _load_trade: everything the broker says, and no statistics yet. */
  function Loaded(account: Account, key: string): Trade
    requires key in Keys(account)
  {
    KeysComeFromIds(account);
    Fresh(account[Int(key)])
  }

  /** load_trades up to the restore: the trades the broker has, old entries kept. */
  function Synced(trades: Trades, account: Account): Trades {
    map k | k in Keys(account) :: if k in trades then trades[k] else Loaded(account, k)
  }

  function RestoredAll(trades: Trades, saved: map<string, Saved>): Trades {
    map k | k in trades :: if k in saved then Restored(trades[k], saved[k]) else trades[k]
  }

  // ----- the handlers as functions of the trades

  function OpenedIn(trades: Trades, id: nat, terms: BrokerTrade): Trades {
    if Str(id) in trades then trades else trades[Str(id) := Fresh(terms)]
  }

  function PricedIn(pips: PipDict, trades: Trades, instrument: string, bid: real, ask: real, time: int, now: int): Trades
    requires ValidPips(pips)
  {
    map k | k in trades :: Ticked(pips, trades[k], instrument, bid, ask, time, now)
  }

  /** A close that raises leaves the trade managed, with its spell finished. */
  function ClosedIn(pips: PipDict, trades: Trades, id: nat, closeTime: int, profit: Option<real>, now: int): Trades {
    var k := Str(id);
    if k !in trades then trades
    else if ClosesCleanly(pips, trades[k], closeTime, profit) then trades - {k}
    else trades[k := trades[k].(stats := Sampled(trades[k].stats, Sample(now, false)))]
  }

  /** The trades of the broker that are not managed yet are loaded. */
  function Beaten(trades: Trades, account: Account): Trades {
    map k | k in trades.Keys + Keys(account) :: if k in trades then trades[k] else Loaded(account, k)
  }

  ghost predicate Bounded(trades: Trades) {
    forall k <- trades :: trades[k].min <= 0.0 <= trades[k].max
  }

  ghost predicate SavedBounded(store: Option<map<string, Saved>>) {
    store.Some? ==> forall k <- store.value :: store.value[k].min <= 0.0 <= store.value[k].max
  }

  class TradeManageHandler {
    const pips: PipDict
    var trades: Trades
    /** system_redis under TRADES_KEY */
    var store: Option<map<string, Saved>>

    /** Every key is the string of a number, and the statistics and the saved ones enclose 0. */
    ghost predicate Valid()
      reads this
    {
      && ValidPips(pips)
      && (forall k <- trades :: k == Str(Int(k)))
      && Bounded(trades) && SavedBounded(store)
    }

    /** A new process: no trades in memory, and whatever the store holds. */
    constructor (pips: PipDict, store: Option<map<string, Saved>>)
      requires ValidPips(pips) && SavedBounded(store)
      ensures Valid() && this.pips == pips && trades == map[] && this.store == store
    {
      this.pips := pips;
      this.trades := map[];
      this.store := store;
    }

    method TradeOpen(id: nat, terms: BrokerTrade)
      requires Valid()
      modifies this`trades
      ensures Valid() && trades == OpenedIn(old(trades), id, terms)
      ensures Str(id) in trades && trades.Keys == old(trades).Keys + {Str(id)}
      ensures Str(id) !in old(trades) ==> trades[Str(id)] == Trade(terms, 0.0, 0.0, 0.0, Stats(0, None), None)
    {
      KeysReadBack(id);
      if Str(id) !in trades {
        trades := trades[Str(id) := Fresh(terms)];
      }
    }

    method ProcessPrice(instrument: string, bid: real, ask: real, time: int, now: int)
      requires Valid()
      modifies this`trades
      ensures Valid() && trades == PricedIn(pips, old(trades), instrument, bid, ask, time, now)
    {
      hide Priced, TickPips, Str, Int;
      var pending, ts := trades.Keys, trades;
      while pending != {}
        invariant trades == old(trades) && pending <= ts.Keys == trades.Keys
        invariant forall k <- ts ::
                    ts[k] == if k in pending then trades[k] else Ticked(pips, trades[k], instrument, bid, ask, time, now)
      {
        var k :| k in pending;
        var t := ts[k];
        if t.terms.instrument == instrument {
          var p := TickPips(pips, t, instrument, bid, ask);
          if p.Some? {
            var priced := ProcessTrade(t, p.value, time, now);
            ts := ts[k := priced];
          }
        }
        pending := pending - {k};
      }
      PricesKeepBounds(pips, trades, instrument, bid, ask, time, now);
      assert ts == PricedIn(pips, trades, instrument, bid, ask, time, now);
      trades := ts;
      assert forall k <- trades :: k in old(trades);
    }

    /** process_trade from the computed pips on. */
    method ProcessTrade(t: Trade, profit: real, time: int, now: int) returns (r: Trade)
      ensures r.terms == t.terms && r.current == profit && r.lastTickTime == Some(time)
      ensures r.max == (if profit > t.max then profit else t.max) && r.min == (if profit < t.min then profit else t.min)
      ensures r == Priced(t, profit, time, now)
    {
      r := t.(current := profit);
      if profit > r.max {
        r := r.(max := profit);
      }
      if profit < r.min {
        r := r.(min := profit);
      }
      if profit >= 0.0 {
        if r.stats.start.None? {
          r := r.(stats := r.stats.(start := Some(now)));
        }
      } else {
        if r.stats.start.Some? {
          r := r.(stats := Finished(r.stats, now));
        }
      }
      r := r.(lastTickTime := Some(time));
    }

    /** Returns false where the source raises. */
    method TradeClose(id: nat, closeTime: int, profit: Option<real>, now: int) returns (ok: bool)
      requires Valid()
      modifies this
      ensures Valid() && trades == ClosedIn(pips, old(trades), id, closeTime, profit, now)
      ensures ok ==> trades == old(trades) - {Str(id)}
      ensures !ok ==> Str(id) in trades && trades.Keys == old(trades).Keys
      ensures ok <==> (Str(id) in old(trades) ==> ClosesCleanly(pips, old(trades)[Str(id)], closeTime, profit))
      ensures store == if ok && Str(id) in old(trades) then Some(SavedTrades(trades)) else old(store)
    {
      hide Str, Int, Seconds;
      var k := Str(id);
      if k !in trades {
        return true;
      }
      var t := trades[k];
      if t.stats.start.Some? {
        t := t.(stats := Finished(t.stats, now));
        trades := trades[k := t];
      }
      if (profit.None? || profit.value == 0.0) && t.terms.instrument !in pips {
        return false;
      }
      if t.max == t.min || Seconds(closeTime - t.terms.openTime) == 0 {
        return false;
      }
      trades := trades - {k};
      Save();
      return true;
    }

    /** Returns false where the source raises: on a trade whose age is a whole number of days. */
    method Heartbeat(account: Account, now: int) returns (ok: bool)
      requires Valid()
      modifies this
      ensures Valid() && trades == Beaten(old(trades), account)
      ensures forall k :: k in trades <==> k in old(trades) || exists id :: id in account && Str(id) == k
      ensures ok <==> forall k <- trades :: !Ageless(trades[k], now)
      ensures store == if ok then Some(SavedTrades(trades)) else old(store)
    {
      BeatenKeys(trades, account);
      hide Str, Int, Ageless, Beaten;
      LoadMissing(account);
      var pending := trades.Keys;
      while pending != {}
        invariant pending <= trades.Keys
        invariant forall k | k in trades && k !in pending :: !Ageless(trades[k], now)
      {
        var k :| k in pending;
        if Ageless(trades[k], now) {
          return false;
        }
        pending := pending - {k};
      }
      Save();
      ok := true;
    }

    /** The loop that calls _load_trade for each trade not managed yet. */
    method LoadMissing(account: Account)
      requires Valid()
      modifies this`trades
      ensures Valid() && trades == Beaten(old(trades), account)
    {
      hide Str, Int, SavedBounded, ValidPips, Keys;
      var pending, ts := account.Keys, trades;
      while pending != {}
        invariant trades == old(trades) && pending <= account.Keys
        invariant forall k <- trades :: k in ts && ts[k] == trades[k]
        invariant forall k | k in ts && k !in trades :: Int(k) in account && k == Str(Int(k)) && ts[k] == Fresh(account[Int(k)])
        invariant forall id | id in account && id !in pending :: Str(id) in ts
      {
        var id :| id in pending;
        KeysReadBack(id);
        if Str(id) !in ts {
          ts := ts[Str(id) := Fresh(account[id])];
        }
        pending := pending - {id};
      }
      KeysComeFromIds(account);
      trades := ts;
    }

    method Save()
      modifies this`store
      ensures store == Some(SavedTrades(trades))
    {
      store := Some(SavedTrades(trades));
    }

    /** Returns false where the source raises, possibly after restoring some of the trades. */
    method LoadTrades(account: Account, now: int) returns (ok: bool)
      requires Valid()
      modifies this
      ensures Valid() && trades.Keys == Keys(account)
      ensures var synced := Synced(old(trades), account);
              var saved := if old(store).Some? then old(store).value else map[];
              && (ok <==> forall k | k in synced && k in saved :: !Ageless(synced[k], now))
              && (ok ==> trades == RestoredAll(synced, saved) && store == Some(SavedTrades(trades)))
              && (!ok ==> store == old(store) && forall k <- trades ::
                    trades[k] == synced[k] || (k in saved && trades[k] == Restored(synced[k], saved[k])))
    {
      hide Str, Int, Synced, Keys, Seconds, RestoredAll, Restored;
      KeysOfSynced(trades, account);
      Reconcile(account);
      if store.Some? {
        ok := Restore(store.value, now);
      } else {
        NothingToRestore(trades);
        ok := true;
      }
      if ok {
        Save();
      }
    }

    /** The loop that restores the saved statistics. */
    method Restore(saved: map<string, Saved>, now: int) returns (ok: bool)
      requires Valid() && SavedBounded(Some(saved))
      modifies this`trades
      ensures Valid() && trades.Keys == old(trades).Keys
      ensures ok <==> forall k | k in old(trades) && k in saved :: !Ageless(old(trades)[k], now)
      ensures ok ==> trades == RestoredAll(old(trades), saved)
      ensures forall k <- trades ::
                trades[k] == old(trades)[k] || (k in saved && trades[k] == Restored(old(trades)[k], saved[k]))
    {
      hide Str, Int, Seconds;
      var pending, ts := saved.Keys, trades;
      ok := true;
      while pending != {} && ok
        invariant trades == old(trades) && Valid() && pending <= saved.Keys && ts.Keys == trades.Keys
        invariant forall k <- ts ::
                    ts[k] == if k in saved && k !in pending then Restored(trades[k], saved[k]) else trades[k]
        invariant ok <==> forall k | k in trades && k in saved && k !in pending :: !Ageless(trades[k], now)
        decreases |pending|
      {
        var k :| k in pending;
        if k in ts {
          ts := ts[k := Restored(ts[k], saved[k])];
          if Ageless(ts[k], now) {
            ok := false;
          }
        }
        pending := pending - {k};
      }
      trades := ts;
    }

    /** load_trades up to the restore. */
    method Reconcile(account: Account)
      requires Valid()
      modifies this`trades
      ensures Valid() && trades == Synced(old(trades), account)
    {
      LoadMissing(account);
      DropClosed(account);
      KeysComeFromIds(account);
    }

    /** The loop that pops the trades the broker no longer has. */
    method DropClosed(account: Account)
      requires Valid()
      modifies this`trades
      ensures Valid()
      ensures trades == map k | k in old(trades) && Int(k) in account :: old(trades)[k]
    {
      hide Str, Int, SavedBounded;
      var pending, ts := trades.Keys, trades;
      while pending != {}
        invariant trades == old(trades) && pending <= trades.Keys
        invariant forall k <- ts :: k in trades && ts[k] == trades[k]
        invariant forall k <- trades :: k in ts <==> k in pending || Int(k) in account
      {
        var k :| k in pending;
        if Int(k) !in account {
          ts := ts - {k};
        }
        pending := pending - {k};
      }
      trades := ts;
    }
  }

  lemma BeatenKeys(trades: Trades, account: Account)
    ensures forall k :: k in Beaten(trades, account) <==> k in trades || exists id :: id in account && Str(id) == k
  {
    hide Str, Int, Loaded;
  }

  lemma KeysOfSynced(trades: Trades, account: Account)
    ensures Synced(trades, account).Keys == Keys(account)
  {
  }

  lemma NothingToRestore(trades: Trades)
    ensures RestoredAll(trades, map[]) == trades
  {
  }

  lemma PricesKeepBounds(pips: PipDict, trades: Trades, instrument: string, bid: real, ask: real, time: int, now: int)
    requires ValidPips(pips) && Bounded(trades)
    ensures Bounded(PricedIn(pips, trades, instrument, bid, ask, time, now))
  {
    hide TickPips, Sampled;
  }

  lemma KeysComeFromIds(account: Account)
    ensures forall k <- Keys(account) :: Int(k) in account && k == Str(Int(k))
    ensures forall k | Int(k) in account && k == Str(Int(k)) :: k in Keys(account)
  {
    forall k | k in Keys(account) ensures Int(k) in account && k == Str(Int(k)) {
      var id :| id in account && Str(id) == k;
      KeysReadBack(id);
    }
  }

  // ----- restart

  /** After a save and a start-up of a new process, the managed trades are exactly the broker's;
      those managed before keep their statistics, and the others have none yet. */
  lemma RestartRecovers(before: Trades, account: Account, k: string)
    ensures var after := RestoredAll(Synced(map[], account), SavedTrades(before));
            && after.Keys == Keys(account)
            && (k in after && k in before ==>
                  after[k].max == before[k].max && after[k].min == before[k].min && after[k].stats == before[k].stats)
            && (k in after && k !in before ==> after[k].max == after[k].min == 0.0 && after[k].stats == NONE_YET)
            && (k in after ==> Int(k) in account && after[k].terms == account[Int(k)] && after[k].current == 0.0)
  {
    KeysComeFromIds(account);
  }

  /** A reload while the process runs keeps exactly the broker's trades too; but what was saved
      overwrites the live statistics, so anything seen since the save is lost, and only trades
      that were never saved keep theirs. */
  lemma ReloadRevertsToTheSave(trades: Trades, account: Account, saved: map<string, Saved>, k: string)
    ensures var after := RestoredAll(Synced(trades, account), saved);
            && (k in after <==> exists id :: id in account && Str(id) == k)
            && (k in after && k in saved ==> SavedTrades(after)[k] == saved[k])
            && (k in after && k !in saved && k in trades ==> after[k] == trades[k])
            && (k in after && k !in saved && k !in trades ==> Int(k) in account && after[k] == Fresh(account[Int(k)]))
            && (k in after && k in trades ==> after[k].current == trades[k].current && after[k].terms == trades[k].terms)
    ensures Bounded(trades) && SavedBounded(Some(saved)) ==> Bounded(RestoredAll(Synced(trades, account), saved))
  {
    hide Str, Int;
    KeysComeFromIds(account);
  }

  /** The whole restart on objects: the handler of the new process, started on the store the old
      one last saved. */
  method Restart(previous: TradeManageHandler, account: Account, now: int) returns (h: TradeManageHandler, ok: bool)
    requires previous.Valid() && previous.store == Some(SavedTrades(previous.trades))
    ensures fresh(h) && h.Valid() && h.trades.Keys == Keys(account)
    ensures ok <==> forall k | k in Keys(account) && k in previous.trades :: !Ageless(Loaded(account, k), now)
    ensures ok ==> h.trades == RestoredAll(Synced(map[], account), SavedTrades(previous.trades))
    ensures ok ==> h.store == Some(SavedTrades(h.trades))
  {
    h := new TradeManageHandler(previous.pips, previous.store);
    ok := h.LoadTrades(account, now);
  }
}
