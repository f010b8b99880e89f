/** A whole backtest against the cash ledger of module Ledgers, which knows nothing of average
    prices, of repricing or of rounding: only what each fill costs and each close brings in at
    the quotes of the round. */
module BacktestLedgers {
  import opened Pricing
  import opened Positions
  import opened Ledgers
  import P = BacktestPortfolios
  import B = Backtests

  /** What a signal of `lot` units does to the ledger, decided from the ledger's own entries. */
  function Posted(l: Ledger, side: string, pair: string, lot: int, prices: Prices): Ledger {
    if !Quoted(prices, pair) then l
    else if pair !in l.entries then
      (if lot == 0 then l else Fill(l, if side == "true" then Long else Short, pair, lot as real, prices))
    else
      var e := l.entries[pair];
      if side == (if e.side == Long then "true" else "false") then
        (if e.units + lot as real == 0.0 then l else Fill(l, e.side, pair, lot as real, prices))
      else if (side == "true" || side == "false") && e.units != 0.0 then Settle(l, pair, e.units, 1.0, prices)
      else l
  }

  ghost function PostTurn(l: Ledger, w: B.World, s: B.Setting): Ledger {
    if w.queue != [] && w.queue[0].Signal? then
      var e := w.queue[0];
      Posted(l, e.side, e.pair, P.Lot(e.size, s.tradeUnits), w.market.prices)
    else l
  }

  ghost function PostRun(l: Ledger, w: B.World, s: B.Setting, choices: seq<seq<B.Intent>>): Ledger
    requires s.feed.Valid() && P.WellFiled(w.account.holdings)
    decreases choices
  {
    if choices == [] || !w.market.running || w.raised then l
    else B.TurnFiles(w, s, choices[0]); PostRun(PostTurn(l, w, s), B.Turned(w, s, choices[0]), s, choices[1..])
  }

  /** Everything left is settled at the given quotes, pair by pair. */
  function SettleAll(l: Ledger, pairs: seq<string>, prices: Prices): Ledger {
    if pairs == [] then l else
    var pair, m := pairs[|pairs| - 1], SettleAll(l, pairs[..|pairs| - 1], prices);
    if pair in m.entries && m.entries[pair].units != 0.0 && Quoted(prices, pair)
    then Settle(m, pair, m.entries[pair].units, 1.0, prices) else m
  }

  /** The positions hold the ledger's units, at averages whose product with the units is exactly
      the cost of the fills, and the balance is the ledger's cash within its slack. */
  ghost predicate Agree(a: P.Account, equity: real, l: Ledger) {
    && a.holdings.Keys == l.entries.Keys
    && (forall p <- a.holdings :: Matches(a.holdings[p], l.entries[p]))
    && Within(a.balance, equity + l.cash, l.slack)
  }

  lemma OpenAgrees(a: P.Account, base: string, side: PositionType, pair: string, units: real, prices: Prices, equity: real, l: Ledger)
    requires pair !in a.holdings && units != 0.0 && Quoted(prices, pair) && Agree(a, equity, l)
    ensures Agree(P.OpenedIn(a, base, side, pair, units, prices), equity, Fill(l, side, pair, units, prices))
  {
    hide ProfitBase, ProfitPerc, Pips, Within;
  }

  lemma AddAgrees(a: P.Account, pair: string, units: real, prices: Prices, equity: real, l: Ledger)
    requires P.WellFiled(a.holdings) && pair in a.holdings && a.holdings[pair].book.units + units != 0.0
    requires Quoted(prices, pair) && Agree(a, equity, l)
    ensures Agree(P.AddedTo(a, pair, units, prices), equity, Fill(l, a.holdings[pair].terms.side, pair, units, prices))
  {
    hide Within;
    var h := a.holdings[pair];
    assert Matches(h, l.entries[pair]);
    P.PoolingAddsTheCost(h.terms, h.book, units, prices);
    hide P.Pooled;
  }

  /** A position at these quotes is closed for what the ledger says, within the slack. */
  lemma CloseAgrees(a: P.Account, pair: string, prices: Prices, equity: real, l: Ledger)
    requires P.WellFiled(a.holdings) && pair in a.holdings && Agree(a, equity, l)
    requires B.PricedAt(a.holdings[pair], prices)
    ensures l.entries[pair].units != 0.0
    ensures Agree(P.ClosedOut(a, pair), equity, Settle(l, pair, l.entries[pair].units, 1.0, prices))
  {
    hide Realised, Pips, CashFlow, Slack, Settle;
    var h := a.holdings[pair];
    assert Matches(h, l.entries[pair]);
    SettlesForTheCashFlow(l, pair, h.book.units, 1.0, prices);
    var exit := ExitQuote(h.terms.side, pair, prices);
    RealisedIsNearCashFlow(h.terms.side, exit, h.book.avgPrice, h.book.units, l.entries[pair].cost, 1.0);
    WithinAdds(a.balance, equity + l.cash, l.slack, P.Pnl(h.terms, h.book),
               CashFlow(h.terms.side, exit, l.entries[pair].cost, h.book.units, 1.0), Slack(1.0, h.book.units));
  }

  lemma SignalAgrees(a: P.Account, base: string, side: string, pair: string, lot: int, prices: Prices, equity: real, l: Ledger)
    requires P.WellFiled(a.holdings) && Agree(a, equity, l)
    requires B.AllPricedAt(a, prices)
    ensures Agree(P.Executed(a, base, side, pair, lot, prices), equity, Posted(l, side, pair, lot, prices))
  {
    hide P.OpenedIn, P.AddedTo, P.ClosedOut, Fill, Settle, Within;
    if pair in a.holdings {
      assert Matches(a.holdings[pair], l.entries[pair]) && B.PricedAt(a.holdings[pair], prices);
    }
    match P.Verdict(a, side, pair, lot, prices)
    case DidOpen => OpenAgrees(a, base, if side == "true" then Long else Short, pair, lot as real, prices, equity, l);
    case DidAdd => AddAgrees(a, pair, lot as real, prices, equity, l);
    case DidClose => CloseAgrees(a, pair, prices, equity, l);
    case _ =>
  }

  lemma TickAgrees(a: P.Account, pair: string, prices: Prices, equity: real, l: Ledger)
    requires P.WellFiled(a.holdings) && Agree(a, equity, l)
    ensures Agree(P.Ticked(a, pair, prices), equity, l)
  {
    hide ProfitBase, ProfitPerc, Pips, Matches, Within;
    if pair in a.holdings && Quoted(prices, pair) {
      MatchesByCost(a.holdings[pair], P.Ticked(a, pair, prices).holdings[pair], l.entries[pair]);
    }
  }

  lemma TurnAgrees(w: B.World, s: B.Setting, made: seq<B.Intent>, equity: real, l: Ledger)
    requires B.Sound(w, s, equity) && w.market.running && Agree(w.account, equity, l)
    ensures Agree(B.Turned(w, s, made).account, equity, PostTurn(l, w, s))
  {
    hide B.Shaped, B.Timely, B.Answered, B.Priced, B.Repriced, P.Balanced, Agree, P.Lot, Posted;
    if w.queue != [] {
      match w.queue[0]
      case Tick(pair, _) => TickAgrees(w.account, pair, w.market.prices, equity, l);
      case Signal(pair, side, size, _) =>
        B.SignalReprices(w, s);
        SignalAgrees(w.account, s.base, side, pair, P.Lot(size, s.tradeUnits), w.market.prices, equity, l);
      case Order(_, _, _) =>
    }
  }

  lemma {:induction false} RunAgrees(w: B.World, s: B.Setting, choices: seq<seq<B.Intent>>, equity: real, l: Ledger)
    requires B.Sound(w, s, equity) && Agree(w.account, equity, l)
    ensures Agree(B.RunOver(w, s, choices).account, equity, PostRun(l, w, s, choices))
    decreases choices
  {
    if choices != [] && w.market.running && !w.raised {
      B.OneTurn(w, s, choices);
      TurnAgrees(w, s, choices[0], equity, l);
      B.TurnIsSound(w, s, choices[0], equity);
      hide B.Turned, B.Sound, Agree, PostTurn, B.RunOver;
      RunAgrees(B.Turned(w, s, choices[0]), s, choices[1..], equity, PostTurn(l, w, s));
    }
  }

  lemma {:induction false} SettlingAgrees(a: P.Account, pairs: seq<string>, prices: Prices, equity: real, l: Ledger)
    requires P.WellFiled(a.holdings) && Agree(a, equity, l)
    requires B.AllPricedAt(a, prices)
    ensures Agree(B.Settled(a, pairs), equity, SettleAll(l, pairs, prices))
    ensures P.WellFiled(B.Settled(a, pairs).holdings)
    ensures B.AllPricedAt(B.Settled(a, pairs), prices)
  {
    hide B.PricedAt, Settle, Within, P.Pnl;
    if pairs != [] {
      var n := |pairs| - 1;
      SettlingAgrees(a, pairs[..n], prices, equity, l);
      var b, m := B.Settled(a, pairs[..n]), SettleAll(l, pairs[..n], prices);
      if pairs[n] in b.holdings {
        Valued(b.holdings[pairs[n]], prices);
        CloseAgrees(b, pairs[n], prices, equity, m);
      }
    }
  }

  lemma Valued(h: P.Holding, prices: Prices)
    requires B.PricedAt(h, prices)
    ensures Quoted(prices, h.terms.pair)
  {
  }

  const EMPTY := Ledger(map[], 0.0, 0.0)

  /** At every moment of every backtest each position's average price times its units is the
      exact cost of its fills, and balance minus equity is the exact cash flow of what was
      closed, every fill and every close at the quotes of its own round, within half a cent and
      half a point a unit for each close. */
  lemma BalanceIsTheCashFlow(s: B.Setting, equity: real, choices: seq<seq<B.Intent>>)
    requires s.feed.Valid()
    ensures Agree(B.RunOver(B.Begun(s, equity), s, choices).account, equity, PostRun(EMPTY, B.Begun(s, equity), s, choices))
  {
    B.StartIsSound(s, equity);
    RunAgrees(B.Begun(s, equity), s, choices, equity, EMPTY);
  }

  /** What the close-out pays for each pair: the current quote, or the quote of the round before
      for a position not repriced since. */
  ghost function ClosingQuotes(w: B.World): Prices {
    map p | p in w.market.prices ::
      if p in w.account.holdings && !B.PricedAt(w.account.holdings[p], w.market.prices) && p in w.before
      then w.before[p] else w.market.prices[p]
  }

  lemma ClosingPricesAll(w: B.World, s: B.Setting)
    requires s.feed.Valid() && B.Priced(w, s) && B.Repriced(w) && P.WellFiled(w.account.holdings)
    ensures B.AllPricedAt(w.account, ClosingQuotes(w))
    ensures forall p | p in w.account.holdings && w.market.running && !B.Awaited(p, w.queue) ::
              p in w.market.prices && ClosingQuotes(w)[p] == w.market.prices[p]
  {
    hide B.AtRound, B.Covered, B.Awaited;
  }

  /** However a backtest ends, by its data or by its limit, the final balance is the equity and
      the exact cash flow of all fills and closes within the accumulated slack, the rest settled
      at the closing quotes: the current ones for every position whose tick is not waiting; and,
      once the data has run out, those of the last complete round. */
  lemma FinalBalanceIsTheCashFlow(s: B.Setting, equity: real, choices: seq<seq<B.Intent>>)
    requires s.feed.Valid()
    ensures var w := B.RunOver(B.Begun(s, equity), s, choices);
      && EndsAt(w, s, equity, PostRun(EMPTY, B.Begun(s, equity), s, choices), ClosingQuotes(w))
      && (!w.market.running ==> EndsAt(w, s, equity, PostRun(EMPTY, B.Begun(s, equity), s, choices), w.before))
      && forall p | p in w.account.holdings && w.market.running && !B.Awaited(p, w.queue) ::
           p in w.market.prices && ClosingQuotes(w)[p] == w.market.prices[p]
  {
    B.StartIsSound(s, equity);
    BalanceIsTheCashFlow(s, equity, choices);
    B.RunIsSound(B.Begun(s, equity), s, choices, equity);
    B.EndsFlat(s, equity, choices);
    var w := B.RunOver(B.Begun(s, equity), s, choices);
    var l := PostRun(EMPTY, B.Begun(s, equity), s, choices);
    hide B.RunOver, B.Begun, B.Shaped, B.Timely, B.Answered, P.Balanced, Within, B.Settled, PostRun, SettleAll, B.PricedAt;
    ClosingPricesAll(w, s);
    EndingAgrees(w, s, equity, l, ClosingQuotes(w));
    if !w.market.running {
      EndingAgrees(w, s, equity, l, w.before);
    }
  }

  /** The balance after the close-out against the ledger settled at these quotes. */
  ghost predicate EndsAt(w: B.World, s: B.Setting, equity: real, l: Ledger, closing: Prices) {
    var m := SettleAll(l, s.feed.pairs, closing);
    Within(B.Settled(w.account, s.feed.pairs).balance, equity + m.cash, m.slack) && m.entries == map[]
  }

  lemma EndingAgrees(w: B.World, s: B.Setting, equity: real, l: Ledger, closing: Prices)
    requires P.WellFiled(w.account.holdings) && Agree(w.account, equity, l) && B.AllPricedAt(w.account, closing)
    requires B.Settled(w.account, s.feed.pairs).holdings == map[]
    ensures EndsAt(w, s, equity, l, closing)
  {
    SettlingAgrees(w.account, s.feed.pairs, closing, equity, l);
    hide B.Settled, SettleAll, Within;
  }
}
