# Verified models of the trading engine

The engine reacts to events: ticks and heartbeats come in, strategies turn them into signals,
portfolios turn signals into positions and orders, and a local mirror follows what the broker
says about the account. The modules here model its state machines and its numeric loops and
prove what they keep over whole runs.

* **Account mirror** (`OandaAccount.dfy`). The server reports changes grouped by kind; the mirror
  applies the groups in a fixed order. Proved: when exactly that equals replaying the server's
  log, that batch boundaries then do not matter, and what the bounded transaction list holds.
* **Positions, portfolio and strategy** (`Decimals`, `Pricing`, `Position`, `Portfolio`,
  `Ledger`, `Lots`, `CrossStrategy`, `Agreement`). Rounded accounting against an exact cash
  ledger over any run; positions as whole lots; the strategy's flag against what is held.
* **Backtest** (`BacktestPrice`, `BacktestPortfolio`, `Backtest`, `BacktestLedger`). The event
  loop as a machine over its queue: the order of the queue, the round each signal trades in, the
  books, the close-out, and the final balance against the cash ledger.
* **Live runner** (`Runner`, `Cascade`, `StreamRunner`). Dispatch with bounded retries, what the
  handlers put, why a queue drains, and the machine that follows the market's opening hours.
* **Candles and ticker** (`Calendar`, `Candles`, `Ticker`). Calendar floors and the chain of
  timeframe events.
* **Trade manager** (`ProfitPips`, `Spells`, `TradeManager`, `TradeRuns`). Running statistics per
  trade, their recovery after a restart, and what they mean over any run with reloads.
* **Loops** (`CandlePaging`, `PriceDensity`, `Drawdown`, `Donchian`). Backward paging, the volume
  histogram, one-pass drawdown, and a sliding window, each against a simple definition.

What the larger results rest on is stated by itself, in the quotes, fields and numbers of the
program: which side of a quote is paid and at which rate it is converted (`CloseInOwnCurrency`,
`CloseAcrossCurrencies`), which column a quote comes from (`RoundQuotesTheRows`), which handlers
are called (`EachStandsInTurn`), where a month starts (`MonthStartInYear`), what a tick shows
(`TickIsSeen`), and which trades are managed (`KeysManaged`).

Objects that the program updates in place are classes here; beside each stands a value of the
same state and functions on it, which the methods are proved to compute and the lemmas are
about. Brokers, clocks and strategies that the engine only calls enter as parameters: the
contents of a change batch, the time of a call, the reply of a handler, the signals of a
strategy in a backtest. Decimals are exact real numbers, rounded where and as the program rounds
them.

## Where the code is not what one would expect

Each of these is kept as the code has it, with a lemma that shows it or says exactly when the
expected property does hold.

* An order id that is reused within one batch is lost from the mirror (`ReusedIdIsLost`).
* A live position is closed by an opposite signal only if it is exactly one lot
  (`OppositeClosesIff`), so one of two or more lots is never closed by a signal
  (`TwoLotsAreForever`, reached by two buys in `TwoBuysStay`). In the backtest any opposite
  signal closes.
* The strategy does not learn that a signal was dropped for want of a quote. After an odd number
  of dropped signals the portfolio is short exactly when the strategy believes to be out
  (`AgreesIffEvenlyDropped`, and a run that gets there in `OneDropTurnsShort`), although the
  strategy is documented as long only. If every quote is there whenever a signal is handled, no
  signal is dropped and nothing of the kind happens (`NothingDroppedIff`, `HeldIffInvested`).
* A signal met by too large a spread is meant to be put back into the queue, and is lost, because
  what `open` returns is not passed on (`PutBackIsKeptIff`, `WideSpreadIsLost`).
* In the backtest a position's unrealised profit is multiplied by the pair's own exit quote;
  realised profit is not. They agree only at a quote of 1 or without any profit
  (`ShownIsRealisedIff`, `ShownIsTwice`). The first close switches the process's decimal context
  to half-down, which also changes how later quotes are rounded, at the ties that
  `ContextsDifferIff` names. A backtest without a trade divides by zero in its report
  (`RatesAddUpIff`, `Simulate`).
* `pip` of a zero difference is the pip unit. So break-even counts as that many pips of profit
  (`BreakEvenIsAPip`), and a row without extent weighs far too much in the histogram (`FlatRow`).
* A trade closed before its extremes differ, or whose age is a whole number of days, makes
  `trade_close` raise and stay managed; the latter makes a heartbeat raise too (`TradeClose`,
  `Heartbeat`).
* A market event reloads the saved statistics over the live ones (`ReloadRevertsToTheSave`): the
  history of a trade goes on from its last save (`StatsFollowTheHistory`).
* Paging steps back ten seconds from the first row it holds. Rows closer than that can be lost
  (`CloseRowsAreLost`), exactly when one of the range lies just before the first row of a page
  (`GetDataframe`); candles of a minute or more are never that close (`SpacedPaging`). The loop
  does not end if the history has no rows for the next page (`PagingEndsIff`).
* A profit curve that starts below zero has no drawdown duration until it first comes back
  (`DurationAfterFirstMark`), because the duration counts on from an undefined value.
* All pairs of the Donchian strategy share one list of prices: a pair's bands are those of its own
  window only if its extremes are those of all pairs' newest prices (`BandsAreOwnIff`,
  `PairsShareTheList`).
* When the data runs out in the middle of a round the price table already holds part of it, but
  positions are closed at the last complete round (`EndsWithTheShortestTable`,
  `DataEndsInARound`). When the limit on turns ends the loop instead, a position none of whose
  ticks of the round has been handled is closed at the quotes of the round before
  (`LimitBeforeATick`). When the closing quotes are those in the table is `StaleIff`.

## Model

| member | source | states |
|---|---|---|
| `OandaAccounts.GroupedEqualsReplayIff` | broker/oanda/account.py:134-181 | Applying the batch grouped by kind equals replaying the log event by event, for every cache, exactly when on every id the change applied last has the effect of the change that happened last |
| `OandaAccounts.LifecyclesSuffice` | broker/oanda/account.py:143-173 | For every log in which each id is created once, then changed, then ended at most once, one grouped batch yields the same orders, trades, positions and transactions as the replay |
| `OandaAccounts.LifecyclesAreInTurn` | broker/oanda/account.py:143-169 | In such a log the change a batch applies last to an id is the last that happened to it |
| `OandaAccounts.ReplayById` | broker/oanda/account.py:143-173 | What the replay files under an id is what the last change on it left, or what was there before |
| `OandaAccounts.GroupedById` | broker/oanda/account.py:143-173 | What the batch files under an id is what its dominant change left: an ending before a reduction before a creation |
| `OandaAccounts.BatchesInTurn` | broker/oanda/account.py:269-284 | If each batch by itself is in turn, any number of consecutive pulls gives the replay of the whole log; an id may be used again in a later batch |
| `OandaAccounts.BatchesDoNotMatter` | broker/oanda/account.py:269-284 | For a log of lifecycles any number of consecutive pulls gives the cache of one combined pull, which is the replay of the whole log |
| `OandaAccounts.TransactionsAreTheTail` | broker/oanda/account.py:175-181 | The transaction list is exactly the last min(n, depth) of the n transactions seen |
| `OandaAccounts.ReplayTransactions` | broker/oanda/account.py:175-181 | The same of a replayed log with other changes in between |
| `OandaAccounts.ReusedIdIsLost` | broker/oanda/account.py:143-157 | An order id cancelled and created again inside one batch is gone from the cache although the server has it |
| `OandaAccounts.Account.constructor` | broker/oanda/account.py:60-96 | The account snapshot is filed by id, the later entry of an id winning, and no transaction is remembered |
| `OandaAccounts.Account.ApplyChanges` | broker/oanda/account.py:134-181 | The loops over the change lists, in place, compute the grouped application |
| `OandaAccounts.Account.Pull` | broker/oanda/account.py:269-284 | If the mirror was the replay of the log up to the last id, and what came since is in turn, it is the replay up to the end after a pull |
| `OandaAccounts.PutEach` | broker/oanda/account.py:143-145 | Each entity of the list is filed under its id, in order |
| `OandaAccounts.PopEach` | broker/oanda/account.py:147-149 | Each id of the list is popped; an unknown one is ignored |
| `Decimals.HalfDownIsUnique` | portfolio/position.py:42-44 | ROUND_HALF_DOWN gives the one nearest value with ties toward zero |
| `Decimals.HalfEvenIsUnique` | mt4/constants.py:192 | ROUND_HALF_EVEN, the default context, gives the one nearest value with ties to even |
| `Decimals.RoundingError` | portfolio/position.py:42-44 | Rounding moves a value by at most half a quantum, at both quanta used |
| `Decimals.GridPointsAreFixed` | portfolio/position.py:42-44 | A rounded value is not changed by rounding again |
| `Positions.AddPoolsTheCost` | portfolio/position.py:77-87 | After adding units the average price times the units is exactly the total cost of the fills, a long filled at the ask and a short at the bid, and the average lies between the old one and the new fill |
| `Positions.RealisedIsNearCashFlow` | portfolio/position.py:105-120 | Realised profit is the exact cash flow of the closed units within half a cent and half a point on each converted unit |
| `Positions.CloseInOwnCurrency` | portfolio/position.py:105-120 | In the account's own currency a close pays, within half a cent and half a point a unit, bid times units less the cost of the fills for a long, and the cost less ask times units for a short |
| `Positions.CloseAcrossCurrencies` | portfolio/position.py:107-120 | In any other currency it pays that much times the bid, for a short the ask, of the pair made of the two currencies |
| `Positions.RemovalAcrossCurrencies` | portfolio/position.py:89-103 | A removal pays its share times the ask, for a short the bid, of that pair |
| `Positions.RoundTrip` | portfolio/position.py:28-34 | Opened, added to and closed: a long pays the asks of its two fills and receives the bid of the close, a short the other way round, within the rounding |
| `Positions.ShownAtTheQuotes` | portfolio/position.py:47-75 | A repriced position shows the price it could be left at, the gain at that price converted like a close, and that as a percentage of its units, within their roundings |
| `Positions.RealisedIsTheProfitShown` | portfolio/position.py:47-61 | Closing realises the profit shown for the position at the same prices, but for the rounding to cents |
| `Positions.ImmediateCloseNeverGains` | portfolio/position.py:28-61 | A position closed at the very quotes it was opened at never gains |
| `Positions.Position.constructor` | portfolio/position.py:6-34 | A long enters at the ask and is valued at the bid, a short the other way round; the new state is that of an opened position |
| `Positions.Position.UpdatePositionPrice` | portfolio/position.py:68-75 | Repricing keeps units and average, takes the bid for a long and the ask for a short, and revalues the rest |
| `Positions.Position.AddUnits` | portfolio/position.py:77-87 | Average times units grows by the units added at the ask for a long, at the bid for a short; the new state is the pooled and revalued book |
| `Positions.Position.RemoveUnits` | portfolio/position.py:89-103 | The units leave at the exit price, converted at the other side of the conversion pair; the average stays |
| `Positions.Position.ClosePosition` | portfolio/position.py:105-120 | Revalues at the exit price and returns the rounded profit of all units |
| `Portfolios.TruncationIsTowardZero` | portfolio/portfolio.py:158 | int() drops the fraction toward zero |
| `Portfolios.HasAllQuotes` | portfolio/portfolio.py:147-151 | The loop finds out whether every pair of the ticker has both sides |
| `Portfolios.Portfolio.constructor` | portfolio/portfolio.py:26-47 | Balance is the equity, nothing is held, and the lot is the risked part of the equity |
| `Portfolios.Portfolio.AddNewPosition` | portfolio/portfolio.py:49-56 | A new position is filed under its pair; all others stay |
| `Portfolios.Portfolio.AddPositionUnits` | portfolio/portfolio.py:58-64 | False and no change for a pair not held; else its position alone gains the units |
| `Portfolios.Portfolio.RemovePositionUnits` | portfolio/portfolio.py:66-73 | False and no change for a pair not held; else its position loses the units and the balance gains their profit |
| `Portfolios.Portfolio.ClosePosition` | portfolio/portfolio.py:75-83 | False and no change for a pair not held; else the position goes and the balance gains its profit |
| `Portfolios.Portfolio.UpdatePortfolio` | portfolio/portfolio.py:124-132 | A position in the pair of the tick is at the bid if long and the ask if short; no position changes units or average, and no other position changes at all |
| `Portfolios.TickReprices` | portfolio/portfolio.py:129-132 | The same of the account: a tick of a held pair prices it at what it could be left at and changes nothing that is held |
| `Portfolios.Portfolio.ExecuteSignal` | portfolio/portfolio.py:144-205 | The whole new account and the outcome of a signal, for any pair, and an order event exactly for an open, an add or a close |
| `Portfolios.Portfolio.Decide` | portfolio/portfolio.py:144-198 | With a quote missing nothing changes; else the account and the outcome are those of the trade |
| `Portfolios.Portfolio.Trade` | portfolio/portfolio.py:155-198 | The part between the quote check and the order event; opening a pair that the ticker does not list raises and changes nothing |
| `Ledgers.BalanceIsTheCashFlow` | portfolio/portfolio.py:75-83 | Over any run of signals, ticks, reductions and closes, average price times units is the exact cost of the fills still open, and balance minus equity is the exact cash flow of all closed fills within the sum of their slacks; the ledger takes its prices and rates from the quotes by itself |
| `Ledgers.BoughtAndSold` | portfolio/portfolio.py:161-183 | A buy and the sell that closes it: the account is flat and has gained the bid of the second moment less the ask of the first on every unit, within half a cent and half a point a unit |
| `Ledgers.RunAgrees` | portfolio/portfolio.py:58-83 | The agreement with the cash ledger is kept by every run |
| `Ledgers.StepAgrees` | portfolio/portfolio.py:155-198 | It is kept by every action, the ledger deciding from its own entries |
| `Ledgers.AddAgrees` | portfolio/position.py:77-87 | It is kept by an add |
| `Ledgers.CloseAgrees` | portfolio/position.py:105-120 | It is kept by a close |
| `Ledgers.ReduceAgrees` | portfolio/position.py:89-103 | It is kept by a partial removal, which takes its share of the cost |
| `Lots.StepCounts` | portfolio/portfolio.py:161-198 | A signal or tick moves every position by whole lots as the lot machine says |
| `Lots.BalanceMovesOnlyOnClose` | portfolio/portfolio.py:171-190 | The balance changes only when a single lot is closed; a position that stays open keeps its side and loses no lots |
| `Lots.RunCounts` | portfolio/portfolio.py:144-201 | Over any run every open position is a whole number of lots, at least one, on the side the lot machine gives |
| `Lots.TwoLotsAreForever` | portfolio/portfolio.py:179-187 | A position of two or more lots is never closed by signals: over any run of signals and ticks it stays and only grows |
| `Lots.OppositeClosesIff` | portfolio/portfolio.py:171-190 | A signal of the other side closes a position if and only if it holds exactly one lot |
| `Lots.TwoBuysStay` | portfolio/portfolio.py:161-177 | Two buys from an empty account reach the two lots that no signal closes any more |
| `Lots.OrdersBalance` | portfolio/portfolio.py:200-201 | The order events of a pair are the lots it gained and two for every close: opens, adds and closes and nothing else |
| `Lots.OneOrder` | portfolio/portfolio.py:179-201 | The same for one signal |
| `CrossStrategies.MovingAverageCrossStrategy.constructor` | strategy/strategy.py:53-75 | Every pair starts with no tick, not invested |
| `CrossStrategies.MovingAverageCrossStrategy.CalculateSignals` | strategy/strategy.py:79-104 | The pair's new state and the signals put, other pairs untouched |
| `CrossStrategies.AveragesStayInRange` | strategy/strategy.py:76-91 | Both averages stay between the least and the greatest price seen |
| `CrossStrategies.AverageIsTheWeightedSum` | strategy/strategy.py:76-77 | Closed form of the rolling average: the prices with geometric weights, the later heavier |
| `CrossStrategies.AveragesAreSmoothed` | strategy/strategy.py:84-93 | The averages kept per pair are those of the prices seen, whatever was signalled |
| `CrossStrategies.SignalsAlternate` | strategy/strategy.py:94-104 | Signals of a pair strictly alternate, a fresh pair starts with a buy, and the flag is the parity of their number |
| `CrossStrategies.QuietDuringWarmUp` | strategy/strategy.py:94-95 | Nothing is signalled before one tick more than the short window |
| `CrossStrategies.FlagIsTheCross` | strategy/strategy.py:94-103 | From then on the flag says after every tick which average is above |
| `CrossStrategies.SignalsAreScaleFree` | strategy/strategy.py:79-104 | Mapping all prices by a*p + b with a > 0 leaves every signal as it was |
| `Agreement.AgreesIffEvenlyDropped` | strategy/strategy.py:79-104 | Whenever no signal of the pair is pending, it is held exactly when the flag is set if and only if an even number of its signals was dropped; it is then one long lot, otherwise one short lot |
| `Agreement.EverySignalTrades` | portfolio/portfolio.py:144-201 | If every quote is there whenever a signal is handled, each signal opens long or closes: none is ignored and no short is ever opened |
| `Agreement.HeldIffInvested` | strategy/strategy.py:79-104 | And then, whenever no signal of a pair is pending, it is held exactly when the flag is set, as one long lot |
| `Agreement.NothingDroppedIff` | portfolio/portfolio.py:147-151 | A run drops no signal if and only if every quote is there whenever a signal is handled |
| `Agreement.QuotedInTime` | portfolio/portfolio.py:147-151 | For that it is enough that all quotes are there before the first signal is handled |
| `Agreement.OneDropTurnsShort` | portfolio/portfolio.py:144-201 | A run from a fresh start that drops one buy, because another pair has not been quoted yet, and ends short with the flag down |
| `Agreement.NothingDroppedOnceQuoted` | portfolio/portfolio.py:147-151 | Once all pairs are quoted no signal is dropped |
| `Agreement.StepKeeps` | trading/trading.py:19-44 | One arrival or one handled event keeps strategy, queue and portfolio coherent |
| `Agreement.PlayKeeps` | trading/trading.py:19-44 | So does every interleaving of arrivals and handling |
| `Agreement.ArrivalIsQueued` | trading/trading.py:19-44 | A tick that arrives waits behind what was there; its quotes count at once |
| `Agreement.TickIsHandled` | trading/trading.py:19-44 | A handled tick goes to the strategy, whose signals wait behind everything else, and brings a position in its pair to the bid if long and the ask if short |
| `Agreement.SignalIsHandled` | trading/trading.py:19-44 | A handled signal is dropped, and nothing else happens, if a quote is missing; else it is never dropped, and an order waits behind everything else if it opens, adds or closes |
| `BacktestPrices.EventQueue.Put` | backtest/price.py:164 | First in, at the end |
| `BacktestPrices.EventQueue.Get` | backtest/backtest.py:60-63 | First out, or nothing from an empty queue |
| `BacktestPrices.HistoricCSVPriceHandler.constructor` | backtest/price.py:28-48 | Every pair is listed without a quote, at row 0 |
| `BacktestPrices.HistoricCSVPriceHandler.StreamNextTick` | backtest/price.py:135-168 | One round: the quotes and the ticks of all pairs before the first table that has run out, and the end if there is one |
| `BacktestPrices.QuantizedFollowsTheContext` | backtest/price.py:150-151 | A quote is the nearest multiple of 0.00001, ties as the decimal context has them |
| `BacktestPrices.ContextsDifferIff` | backtest/price.py:150-151 | The rounding of a quote before and after the first close differs exactly for ties whose whole part below is odd if positive and even if negative |
| `BacktestPrices.QuotingCovers` | backtest/price.py:147-157 | The pairs reached are quoted, and no pair is listed that was not |
| `BacktestPrices.QuotingKeeps` | backtest/price.py:165-167 | The pairs not reached keep their quotes |
| `BacktestPrices.LastRowWins` | backtest/price.py:149-156 | A pair is quoted at the bid and the ask of its row, each to the nearest hundred-thousandth; of a pair listed twice the later table counts |
| `BacktestPrices.RoundQuotesTheRows` | backtest/price.py:147-168 | A round puts the ticks of the pairs before the first table that has run out, in their order, and quotes each at the bid and the ask columns of its own row |
| `BacktestPortfolios.Position.constructor` | backtest/portfolio.py:13-31 | A long enters at the ask and is valued at the bid, a short the other way round, the profit multiplied by the exit quote as the code has it |
| `BacktestPortfolios.Position.UpdatePositionPrice` | backtest/portfolio.py:61-68 | Repricing keeps units and average |
| `BacktestPortfolios.Position.AddUnits` | backtest/portfolio.py:70-79 | Average times units grows by the units added at the ask for a long, at the bid for a short; price and profits are left standing |
| `BacktestPortfolios.Position.ClosePosition` | backtest/portfolio.py:94-103 | The profit at the last repricing, in cents, and the decimal context switched to half-down for good |
| `BacktestPortfolios.PoolingAddsTheCost` | backtest/portfolio.py:70-79 | Average times units is exactly the cost of all fills, a long's at the ask and a short's at the bid; price and profits stand |
| `BacktestPortfolios.ShownPercentage` | backtest/portfolio.py:56-59 | The percentage shown is that of the profit shown on the units |
| `BacktestPortfolios.LotIsTheWholePart` | backtest/portfolio.py:191-199 | The units traded are the whole part, toward zero, of a thousandth of the signal's size, or of the portfolio's own lot without one |
| `BacktestPortfolios.RateIsThePercentage` | backtest/portfolio.py:224-230 | There is a rate exactly when there was a trade, and it times the trades is a hundred times the count |
| `BacktestPortfolios.GainsAreThePositive` | backtest/portfolio.py:160-165 | The wins are the closings that realised more than nothing |
| `BacktestPortfolios.ShownProfitIsScaled` | backtest/portfolio.py:44-54 | The profit shown is the exit quote times what a close would realise, within rounding |
| `BacktestPortfolios.ShownIsRealisedIff` | backtest/portfolio.py:44-54 | Before rounding, the profit shown and the one realised are the same exactly when the exit quote is 1 or there are no pips |
| `BacktestPortfolios.ShownIsTwice` | backtest/portfolio.py:44-54 | A position bought at 1 that shows a profit of 2 at a quote of 2, where a close realises 1 |
| `BacktestPortfolios.Portfolio.constructor` | backtest/portfolio.py:112-130 | Balance is the equity, nothing held or counted, the lot is a hundred times the risked equity |
| `BacktestPortfolios.Portfolio.AddNewPosition` | backtest/portfolio.py:132-134 | Files a new position under its pair and counts the trade |
| `BacktestPortfolios.Portfolio.AddPositionUnits` | backtest/portfolio.py:136-142 | False and no change for a pair not held; else its position alone gains the units |
| `BacktestPortfolios.Portfolio.ClosePosition` | backtest/portfolio.py:154-168 | False and no change for a pair not held; else the position goes, the balance gains its profit, and a win or a loss is counted |
| `BacktestPortfolios.Portfolio.Record` | backtest/portfolio.py:160-165 | A gain is a win, anything else a loss |
| `BacktestPortfolios.Portfolio.UpdatePortfolio` | backtest/portfolio.py:170-179 | Only a position in the pair of the tick is repriced; without a quote it raises |
| `BacktestPortfolios.Portfolio.Trade` | backtest/portfolio.py:196-220 | The whole new account and the outcome of a signal, exceptions included |
| `BacktestPortfolios.Portfolio.ExecuteSignal` | backtest/portfolio.py:191-222 | An order is put for every signal that does not raise |
| `BacktestPortfolios.ClosingBalances` | backtest/portfolio.py:154-168 | A close keeps every trade open, won or lost, the wins the gains, and the balance the equity and all that was realised |
| `BacktestPortfolios.SignalBalances` | backtest/portfolio.py:191-222 | So does a signal |
| `BacktestPortfolios.TickBalances` | backtest/portfolio.py:170-179 | So does a tick |
| `BacktestPortfolios.RatesAddUpIff` | backtest/portfolio.py:224-230 | With nothing open, win and loss rate are defined and add up to a hundred per cent exactly when there was a trade; otherwise the report divides by zero |
| `Backtests.SignalsMeetTheirOwnRound` | backtest/backtest.py:59-79 | In every run, when a signal's turn comes no tick waits, all pairs are quoted at their rows of the round that produced the signal, every open position is at those quotes, and the signal raises exactly for an unlisted pair or units that leave nothing |
| `Backtests.EndsFlat` | backtest/backtest.py:80-82 | However the loop ends without an exception, the close-out leaves nothing open, every trade is a win or a loss, and the balance is the equity and all realised profit |
| `Backtests.EndsWithTheShortestTable` | backtest/price.py:147-168 | A backtest that ends by itself has replayed exactly the rows of its shortest table, has one order for every signal, and closes what is left at the quotes of the last complete round |
| `Backtests.StaleIff` | backtest/backtest.py:59-82 | However the loop ends, and for any list of pairs, a position is closed at the quotes in the price table exactly when these pay what the quotes of the round before do or, the limit having ended the loop, one of its ticks has been handled |
| `Backtests.LimitBeforeATick` | backtest/backtest.py:59-82 | A limit of five turns that falls before a waiting tick: the position is closed at the quotes it was bought at although the table has the next row |
| `Backtests.DataEndsInARound` | backtest/price.py:147-168 | Two tables, one a row shorter: the data ends with the next row of the other already quoted, and its position is closed at the row before |
| `Backtests.RunInRound` | backtest/backtest.py:59-79 | In every run a position none of whose ticks has been handled in the round is at the quotes of the round before, and any other at those of this round |
| `Backtests.BacktestEnds` | backtest/backtest.py:59-63 | With a limit that allows each round of the first table its turn, its ticks and two turns for each signal, a backtest ends by itself unless a signal raises |
| `Backtests.NoTablesNoEnd` | backtest/price.py:147-168 | Without a table it never ends by itself |
| `Backtests.RunIsSound` | backtest/backtest.py:47-79 | Every run keeps all the invariants |
| `Backtests.TurnIsSound` | backtest/backtest.py:59-79 | Every turn of the loop keeps them, and only a signal can raise |
| `Backtests.TurnKeepsShape` | backtest/backtest.py:59-79 | The queue is ticks, then signals, then orders, with no order while a tick waits |
| `Backtests.TurnKeepsTime` | backtest/backtest.py:59-79 | Every waiting tick and signal belongs to the current round |
| `Backtests.TurnAnswers` | backtest/portfolio.py:221-222 | Signals executed are orders handled and orders waiting |
| `Backtests.TurnKeepsPrices` | backtest/price.py:147-168 | The quotes of the last complete round are its rows of all tables |
| `Backtests.TickReprices` | backtest/backtest.py:66-69 | A tick brings the position of its pair to the quotes of the round and never raises |
| `Backtests.SignalReprices` | backtest/backtest.py:70-74 | At a signal every position is at the quotes of the round, and stays so |
| `Backtests.SettledIsFlat` | backtest/backtest.py:80-82 | The close-out closes exactly the listed pairs and keeps the books balanced |
| `Backtests.Backtest.constructor` | backtest/backtest.py:23-45 | The parts share one queue, one ticker and one decimal context, and are at the initial state |
| `Backtests.Backtest.CalculateSignals` | backtest/backtest.py:68 | The strategy, whatever it is, puts the signals it chose |
| `Backtests.Backtest.NextRound` | backtest/backtest.py:62-63 | An empty queue brings the next round |
| `Backtests.Backtest.HandleTick` | backtest/backtest.py:66-69 | The strategy first, then the portfolio |
| `Backtests.Backtest.HandleSignal` | backtest/backtest.py:70-74 | Counts and executes the signal |
| `Backtests.Backtest.Turn` | backtest/backtest.py:59-79 | One turn of the loop in place is one turn of the machine |
| `Backtests.Backtest.Run` | backtest/backtest.py:47-82 | The loop with its limit, and the close-out, in place, is a run of the machine followed by the settlement |
| `Backtests.Backtest.Simulate` | backtest/backtest.py:47-87 | The whole backtest and the rates it reports: unless a signal raises nothing is left open, every trade is a win or a loss, the profit shown is all that was realised, and the rates are the wins and the losses in a hundred trades or, exactly when there was no trade, are not defined |
| `Backtests.Backtest.CloseAll` | backtest/backtest.py:80-82 | The close-out pair by pair |
| `Backtests.Backtest.Report` | backtest/backtest.py:84-88 | Once nothing is open: no rates exactly without a trade, else the wins and the losses in a hundred trades, adding up to a hundred |
| `BacktestLedgers.BalanceIsTheCashFlow` | backtest/portfolio.py:154-222 | At every moment of every backtest, average times units is the exact cost of the fills and balance minus equity is the exact cash flow of what was closed, all at the quotes of the fills' and closes' own rounds, within half a cent and half a point a unit for each close |
| `BacktestLedgers.FinalBalanceIsTheCashFlow` | backtest/backtest.py:80-82 | The same of the final balance, whether the data or the limit ended the loop: the rest is settled at the current quotes for every position whose tick is not waiting, and once the data has run out at those of the last complete round |
| `BacktestLedgers.RunAgrees` | backtest/backtest.py:59-79 | Every run keeps the agreement with the cash ledger |
| `BacktestLedgers.SignalAgrees` | backtest/portfolio.py:191-222 | Every signal keeps it |
| `BacktestLedgers.CloseAgrees` | backtest/portfolio.py:94-103 | A position at the current quotes is closed for what the ledger says, within the slack |
| `Runners.Runner.constructor` | event/runner.py:11-23 | A runner with its handlers and nothing queued |
| `Runners.Runner.HandleEvent` | event/runner.py:25-41 | What each handler that subscribes to everything or to the kind puts stands behind the queue and behind what the handlers registered before it put; the event itself comes last, exactly if one of them asked for it and it was tried at most ten times |
| `Runners.EachStandsInTurn` | event/runner.py:33-38 | Every handler that subscribes to everything or to the kind is called, and its puts stand right behind those of the handlers before it |
| `Runners.PutsAreCounted` | event/runner.py:33-38 | And no other handler puts anything |
| `Runners.OneTick` | event/runner.py:25-41 | A run with two handlers that subscribe by kind: the one for ticks is called, its put and the tick, once tried, are what the queue holds |
| `Runners.Runner.HandleNew` | broker/fxcm/streaming.py:96-98 | An event handled without being queued: what the handlers put, and it itself if asked for, are appended |
| `Runners.Runner.Produce` | event/handler.py:29-34 | A put appends |
| `Runners.Runner.DispatchNext` | event/runner.py:25-41 | One dispatch decreases the measure of the queue |
| `Runners.Runner.Drain` | broker/fxcm/streaming.py:67-76 | With no other producer the loop ends with the queue empty, no event having been dispatched more than twelve times |
| `Runners.WantedIff` | event/runner.py:27-36 | The event goes back exactly if some handler that subscribes to everything or to the kind returned true |
| `Runners.PutsAreFewAndLower` | event/runner.py:25-41 | What an event leads to is of lower rank and at most the handlers' fan in all: tick and heartbeat, timeframe, signal, trade-open |
| `Cascades.TickerMayPut` | event/handler.py:140-148 | The ticker puts at most nine events, all of lower rank than a tick or a heartbeat |
| `Cascades.StrategyMayPut` | strategy/base.py:37-61 | A strategy puts at most one signal for each of its pairs |
| `Cascades.ExecutionMayPut` | execution/execution.py:49-151 | The execution handler puts at most one opened trade |
| `Cascades.OpensExactlyIf` | execution/execution.py:49-151 | A trade is opened exactly for a valid signal to open that is not held, at a known spread that is not zero and at most 3, for some lots, if the order is filled |
| `Cascades.OneSignalPerDecision` | strategy/base.py:37-61 | One signal for each pair that is decided for, if the event is one the strategy looks at, and else none |
| `Cascades.TickerPutsForChanges` | event/handler.py:140-148 | One timeframe event for each timeframe whose candle has changed |
| `Cascades.ProgramIsCalled` | event/runner.py:33-38 | Each kind of event is handled by the one handler of the program that is there for it, and what is put is what that handler puts |
| `Cascades.PutBackIsKeptIff` | execution/execution.py:49-104 | For every action and every finding, what `open` says of putting the signal back reaches the runner if and only if it does not want it back, which it does exactly for a valid signal not held met by a spread above 3; that signal is not traded either |
| `Cascades.WideSpreadIsLost` | execution/execution.py:49-104 | The instance: a signal met by too large a spread is neither traded nor put back |
| `Cascades.ProgramBehaves` | event/runner.py:11-41 | The ticker, a strategy and the execution handler, whatever they ask for again, are handlers of which the queue drains |
| `Runners.DispatchDecreases` | event/runner.py:25-41 | Whatever the handlers reply, a dispatch strictly decreases the measure on type and 12 - tried |
| `Runners.DispatchKeepsLedger` | event/runner.py:36-41 | Each event was dispatched as often as its counter says, and none more than twelve times |
| `Runners.DispatchesAreBounded` | event/runner.py:25-41 | A queue drains within as many dispatches as its measure |
| `Runners.AlwaysAgainIsTwelve` | event/runner.py:36-41 | The bound is met: an event always wanted back is dispatched exactly 12 - tried times |
| `StreamRunners.MarketEventsAlternate` | broker/fxcm/streaming.py:67-102 | Over every run OPEN and CLOSE strictly alternate, starting opposite to the initial flag, whether or not reconnects fail; at most one start-up event is emitted, with the first heartbeat; heartbeats come at multiples of the period |
| `StreamRunners.RunAlternates` | broker/fxcm/streaming.py:67-125 | Every run keeps both |
| `StreamRunners.TurnAlternates` | broker/fxcm/streaming.py:87-102 | A turn keeps the alternation, and leaves the flag as the market unless an open market could not be connected |
| `StreamRunners.TurnStartsOnce` | broker/fxcm/streaming.py:120-125 | The start-up event comes with the first heartbeat and never again |
| `StreamRunners.FXCMStreamRunner.constructor` | broker/fxcm/streaming.py:35-43 | The flag is the market's, nothing emitted |
| `StreamRunners.FXCMStreamRunner.Iterate` | broker/fxcm/streaming.py:67-85 | One turn of the loop is one turn of the machine; what is left in the queue is what waited if the flag was closed, the market event of an opening, and at a multiple of the period a heartbeat, with the start-up behind the first |
| `StreamRunners.FXCMStreamRunner.TakeQueued` | broker/fxcm/streaming.py:67-76 | With the flag open nothing stays in the queue; with it closed nothing is taken |
| `StreamRunners.HeartbeatsAreComplete` | broker/fxcm/streaming.py:78-85 | Turn after turn there is a heartbeat exactly at the multiples of the period at which the market is open and connected |
| `StreamRunners.CrashesIff` | broker/fxcm/streaming.py:67-102 | An exception ends the run exactly where the connection is closed and where it is checked |
| `StreamRunners.FXCMStreamRunner.CheckMarketStatus` | broker/fxcm/streaming.py:87-102 | Opens only after a connect, with a market event in the queue; closes by handling the event at once, with what its handlers put; else the queue is as it was |
| `StreamRunners.FXCMStreamRunner.GenerateHeartbeat` | broker/fxcm/streaming.py:120-125 | At each multiple of the period a heartbeat is put, the first time with a start-up behind it; at other turns nothing |
| `Calendar.DaysBeforeYear` | mt4/constants.py:233-237 | The month lengths add up to the Gregorian closed form of the days before a year |
| `Calendar.MonthStartInYear` | mt4/constants.py:233-237 | Each of the twelve months starts where the Gregorian calendar has it, the leap day after February |
| `Calendar.OrdinalIsGregorian` | mt4/constants.py:233-237 | The number of any day in closed form of its year, month and day |
| `Calendar.MicrosOfFields` | mt4/constants.py:220-221 | A moment is its microseconds since the first day of year 1 |
| `Calendar.MonthIsUnique` | mt4/constants.py:236-237 | Each day lies in exactly one month |
| `Calendar.MicrosAreInjective` | mt4/constants.py:220-221 | Different datetimes are different moments |
| `Candles.CandleTimeIsTheFloor` | mt4/constants.py:220-239 | For each of the nine timeframes the candle time is the latest boundary not after the time; every other timeframe is refused |
| `Candles.CandlesOfOneMoment` | mt4/constants.py:220-239 | The candles of one moment in May 2019 for eight of the timeframes |
| `Candles.WeekOfOneMoment` | mt4/constants.py:233-235 | And its week, which begins on Monday the 6th |
| `Candles.FloorLaws` | mt4/constants.py:220-239 | Floors are idempotent, never later than the input, and monotone |
| `Candles.FloorsNest` | mt4/constants.py:220-239 | Flooring to a finer timeframe first makes no difference to a coarser one, from M1 up to D1 and from D1 into W1 and into MN1 |
| `Candles.BoundariesNest` | mt4/constants.py:220-239 | Every boundary of the coarse timeframe is one of the fine |
| `Tickers.TimeFrameTicker.constructor` | event/handler.py:124-130 | Every candle time is the floor of the moment of creation |
| `Tickers.TimeFrameTicker.Process` | event/handler.py:140-148 | Every candle time becomes the floor of now, and each change puts an event, in the order of the timeframes |
| `Tickers.TimeFrameTicker.ProcessFrames` | event/handler.py:142-148 | The loop over the timeframes |
| `Tickers.TimeFrameTicker.TickOne` | event/handler.py:143-148 | The body of that loop |
| `Tickers.OneEventPerCall` | event/handler.py:140-148 | A call puts at most one event of a timeframe, exactly when its candle has changed |
| `Tickers.EventsFormAChain` | event/handler.py:140-148 | Over any clock the events of a timeframe form an unbroken previous/current chain; over one that never goes back it strictly ascends |
| `Tickers.CoarseComesWithFine` | event/handler.py:140-148 | A call that puts a coarse event puts one of every timeframe it nests |
| `ProfitPips.ProfitableIff` | mt4/constants.py:182-205 | A trade counts as profitable exactly when its gain is at least minus a twentieth of a pip |
| `ProfitPips.BreakEvenIsAPip` | mt4/constants.py:182-205 | A gain of zero comes back as the pip unit; the profit is the gain in pips within half a tenth exactly when there is a gain or a loss, or the unit itself is no more than that |
| `ProfitPips.TenthsOfAPip` | mt4/constants.py:188-192 | The profit is in tenths of a pip, to the nearest, ties to even |
| `Spells.SecondsOfTheDay` | event/trade_manager.py:141-144 | timedelta.seconds: whole days, these seconds and a part of a second make up the span |
| `Spells.SpellsAreAllSpells` | event/trade_manager.py:65-70 | The spells listed are exactly the finished runs of profitable samples |
| `Spells.SpellsAreDisjoint` | event/trade_manager.py:65-70 | They come in order and do not overlap |
| `Spells.SecondsAreTheSpells` | event/trade_manager.py:141-144 | profitable_seconds is the sum of each finished spell's whole seconds, modulo a day |
| `Spells.StartIsTheRun` | event/trade_manager.py:65-70 | last_profitable_start is set, to the beginning of the run, exactly when the last sample was profitable |
| `Spells.NeverMoreThanElapsed` | event/trade_manager.py:141-144 | Over a clock that never goes back profitable_seconds never exceeds the elapsed time |
| `TradeManagers.KeysReadBack` | event/trade_manager.py:198-201 | int(str(id)) is the id |
| `TradeManagers.StrOfAnId` | event/trade_manager.py:194 | str() writes the id in decimal |
| `TradeManagers.TickShowsTheGain` | event/trade_manager.py:57-59 | Of a known instrument a tick shows what leaving the trade would gain, a bought one at the bid and a sold one at the ask, in pips within half a tenth, or the pip unit if nothing |
| `TradeManagers.RestartRecovers` | event/trade_manager.py:190-223 | After a save and a fresh load the managed keys are exactly the broker's ids; trades on both sides keep max, min, profitable_seconds and last_profitable_start, the others start at zero |
| `TradeManagers.ReloadRevertsToTheSave` | event/trade_manager.py:205-221 | A reload in a running process overwrites live statistics by the saved ones, keeps current, and keeps min <= 0 <= max |
| `TradeManagers.Restart` | event/trade_manager.py:27-29 | The same on handler objects |
| `TradeManagers.TradeManageHandler.constructor` | event/trade_manager.py:25-29 | No trades, and whatever the store holds |
| `TradeManagers.TradeManageHandler.TradeOpen` | event/trade_manager.py:74-94 | The trade is managed afterwards, with zero statistics if it was not before |
| `TradeManagers.TradeManageHandler.ProcessPrice` | event/trade_manager.py:51-54 | Every trade of the instrument is priced, no other touched |
| `TradeManagers.TradeManageHandler.ProcessTrade` | event/trade_manager.py:56-72 | Current, extremes and spell of one trade |
| `TradeManagers.TradeManageHandler.TradeClose` | event/trade_manager.py:96-132 | The trade is not managed any more and the rest is saved, unless a division raises, and then all are managed still; exactly when it does |
| `TradeManagers.TradeManageHandler.Heartbeat` | event/trade_manager.py:146-160 | Managed afterwards are those that were and those of the broker, and all are saved, unless an age of whole days raises |
| `TradeManagers.TradeManageHandler.LoadMissing` | event/trade_manager.py:148-150 | Exactly the unmanaged trades of the broker are added |
| `TradeManagers.TradeManageHandler.LoadTrades` | event/trade_manager.py:190-223 | Managed trades are exactly the broker's; saved statistics are restored; exactly when it raises |
| `TradeManagers.TradeManageHandler.Reconcile` | event/trade_manager.py:193-201 | Managed trades are exactly the broker's, old entries kept |
| `TradeManagers.TradeManageHandler.DropClosed` | event/trade_manager.py:198-201 | Trades the broker no longer has are popped |
| `TradeManagers.TradeManageHandler.Restore` | event/trade_manager.py:206-221 | Saved statistics overwrite, for managed trades only |
| `TradeManagers.TradeManageHandler.Save` | event/trade_manager.py:300-311 | The store holds the statistics of all managed trades |
| `TradeRuns.StatsFollowTheHistory` | event/trade_manager.py:51-223 | Over any run of openings, ticks, heartbeats, closings, reloads and restarts the time statistics of a managed trade are those of its own history, and the saved ones those of the history at the last save; a reload goes on from there |
| `TradeRuns.ExtremesFollowTheTicks` | event/trade_manager.py:56-63 | Over any such run max and min are the greatest and least of 0 and the profits of that history, saved ones too, and current is the profit last seen by the process |
| `TradeRuns.ProfitableSecondsAreTheSpells` | event/trade_manager.py:56-72 | Hence, under a clock that never goes back, profitable_seconds is the sum over the finished spells of that history and bounded by the elapsed time, and the start is set exactly when the last sample was profitable |
| `TradeRuns.KeysManaged` | event/trade_manager.py:31-41 | Which trades are managed over any such run: opened ones, until a closing that does not raise, those the broker has at a heartbeat, and exactly those at a reload or a restart |
| `TradeRuns.SavedWhen` | event/trade_manager.py:300-311 | What is saved is what is managed as of the last closing, heartbeat or reload that did not raise |
| `TradeRuns.TickIsSeen` | event/trade_manager.py:51-72 | After a tick every managed trade of its instrument shows that gain, as the last profit and the last sample of its history |
| `TradeRuns.TickLeavesOthers` | event/trade_manager.py:51-54 | And every trade of another instrument is as it was |
| `TradeRuns.RunKeepsBounds` | event/trade_manager.py:60-63 | min <= 0 <= max for every managed and every saved trade, over any such run |
| `TradeRuns.HistoryIsForward` | event/trade_manager.py:51-72 | The samples of a trade follow the clock, and so do the saved ones |
| `TradeRuns.RunFollows` | event/trade_manager.py:51-223 | What is managed and what is saved follow their histories after every run |
| `TradeRuns.StepFollows` | event/trade_manager.py:51-223 | And after every op that starts from there |
| `TradeRuns.Perform` | event/trade_manager.py:31-41 | The handler, in place, does what the machine of these runs does for every event |
| `TradeRuns.PerformReload` | event/trade_manager.py:190-223 | So it does for a reload, also one that raises half-way |
| `CandlePaging.GetDataframe` | broker/fxcm/price.py:59-76 | Where the loop ends, the result is exactly the candles in the range, sorted and without duplicates, if and only if no row of the range is lost at a page boundary; it raises exactly when there is nothing to page |
| `CandlePaging.RangeIffGapless` | broker/fxcm/price.py:66-76 | The same of the pages themselves |
| `CandlePaging.PagesInFront` | broker/fxcm/price.py:66-74 | Each page of the loop starts at its row of the history and is put in front of the rows held |
| `CandlePaging.GetCandlesAreTheLast` | broker/fxcm/price.py:67-68 | A page has no row after its end and no more than its size, and is full before it leaves out a row, which is then one of the earliest |
| `CandlePaging.NextPage` | broker/fxcm/price.py:67-74 | A further page, concatenated and sorted, is put in front |
| `CandlePaging.PageGoesFirst` | broker/fxcm/price.py:70 | Concatenating earlier rows and sorting puts them in front |
| `CandlePaging.PagingEndsIff` | broker/fxcm/price.py:66-74 | The loop ends if and only if, whenever it goes on, the history has rows at or before the end of the next page |
| `CandlePaging.SpacedPaging` | broker/fxcm/price.py:66-74 | With rows more than ten seconds apart nothing is lost, and the loop ends exactly when the history reaches past the start |
| `CandlePaging.FilterIsRange` | broker/fxcm/price.py:76 | The final filter leaves exactly the range |
| `CandlePaging.CloseRowsAreLost` | broker/fxcm/price.py:74 | For every page size a history whose paging ends and loses a row of the range, within ten seconds of the first row of a page |
| `CandlePaging.TenSecondsApart` | broker/fxcm/price.py:66-74 | Rows exactly ten seconds apart can be lost too, at the start of the range |
| `PriceDensity.PriceHistogram.constructor` | utils/price_density.py:64 | No level yet |
| `PriceDensity.PriceHistogram.ProcessDf` | utils/price_density.py:28-43 | Each level gains the average volume of every row that covers it, and the keys are the old ones and the covered levels |
| `PriceDensity.PriceHistogram.AddRow` | utils/price_density.py:39-43 | The inner loop, for one row |
| `PriceDensity.LevelIsNearest` | utils/price_density.py:31-32 | A level is the price in quanta, to the nearest, ties to even |
| `PriceDensity.CoversLowToHigh` | utils/price_density.py:36-40 | A row with extent covers exactly the levels from low to high, a pip apart |
| `PriceDensity.CoversLowToHighIff` | utils/price_density.py:36-40 | A row with volume covers exactly the levels from low to high if and only if it has extent, or has none and the pip unit is below 1 |
| `PriceDensity.DistanceIsExact` | utils/price_density.py:36 | The distance in tenths of a pip is exact, also for a pip unit of 10 |
| `PriceDensity.AvgVolIsNear` | utils/price_density.py:37 | The average volume is volume over distance within half a quantum |
| `PriceDensity.AvgVolInQuanta` | utils/price_density.py:37 | It is in quanta, to the nearest, ties to even |
| `PriceDensity.OrderDoesNotMatter` | utils/price_density.py:30-43 | The rows may come in any order |
| `PriceDensity.BatchesAdd` | utils/price_density.py:66-73 | Batches add up |
| `PriceDensity.TotalIsTheSpread` | utils/price_density.py:39-43 | The total added is the sum over the rows of (int(distance) + 1) * avg_vol |
| `PriceDensity.FlatRow` | utils/price_density.py:36-40 | Every row without extent divides its volume by the pip unit instead of by a number of pips, and reaches as many levels on as the unit has wholes |
| `PriceDensity.FlatRowIsInflated` | utils/price_density.py:36-37 | So a flat row of volume 1 on a pair quoted to 0.0001 weighs 10000 |
| `Drawdowns.CreateDrawdowns` | performance/performance.py:5-32 | The series, their maxima, and the points where they are undefined |
| `Drawdowns.MaxDrawdownIsPeakToTrough` | performance/performance.py:20-32 | The one-pass maximum is the greatest fall from any point, 0 at first, to any later one |
| `Drawdowns.DurationAfterFirstMark` | performance/performance.py:31 | The duration reported is the longest run below the mark after the curve first was at it, and undefined if it never was |
| `Drawdowns.DurationIsLongestIff` | performance/performance.py:31 | It is the longest run of the whole curve exactly if the curve is at its mark some time and the stretch before is no longer than the longest run after; in particular whenever pnl[1] >= 0 |
| `Drawdowns.LossFromTheStartHasNoDuration` | performance/performance.py:31 | A curve that starts with a loss and never recovers has no duration |
| `DonchianChannels.DonchianChannelStrategy.constructor` | backtest/strategy.py:229-250 | No tick, no flag, an empty list |
| `DonchianChannels.DonchianChannelStrategy.CalculateSignals` | backtest/strategy.py:269-308 | List, bands, flags and signals of a tick; the list's length is the sum over the pairs of min(ticks, window), so no pop is on an empty list |
| `DonchianChannels.DonchianChannelStrategy.Measure` | backtest/strategy.py:274-286 | List and bands |
| `DonchianChannels.React` | backtest/strategy.py:289-304 | The four conditions in their order |
| `DonchianChannels.CalcUpper` | backtest/strategy.py:255-260 | The loop for the upper band |
| `DonchianChannels.CalcLower` | backtest/strategy.py:262-267 | The loop for the lower band |
| `DonchianChannels.SignalsAreTheExposure` | backtest/strategy.py:288-304 | Buys less sells of a tick are the change of long less short in the flags |
| `DonchianChannels.FlagsFollowTheBands` | backtest/strategy.py:288-304 | A flag is set by its own band and cleared only strictly between the bands |
| `DonchianChannels.SidesOfATick` | backtest/strategy.py:288-304 | Past warm-up: a buy at the upper band and a sell at the lower one if the flag is not set, and strictly between them one signal for each flag that is |
| `DonchianChannels.QuietDuringWarmUp` | backtest/strategy.py:288 | Until a pair has had more ticks than the window nothing is signalled and no flag moves |
| `DonchianChannels.HeldAfterTick` | backtest/strategy.py:274-286 | A tick lengthens the list exactly while its pair warms up |
| `DonchianChannels.WindowIsTheLastPrices` | backtest/strategy.py:274-286 | For a single pair the list is the last `window` prices, newest first |
| `DonchianChannels.BandsAreTrue` | backtest/strategy.py:255-286 | Past warm-up the bands are the true maximum and minimum exactly when these lie within 0 and 999999999, and the current price lies between |
| `DonchianChannels.FeedSinglePair` | backtest/strategy.py:269-308 | The strategy fed with one pair keeps that list and shows those bands |
| `DonchianChannels.SharedIsNewest` | backtest/strategy.py:274-286 | For any pairs the list is the newest prices of all of them together, as many as the pairs hold |
| `DonchianChannels.HeldByAfterTick` | backtest/strategy.py:274-286 | That number grows exactly while the pair of the tick warms up |
| `DonchianChannels.BandsAreOwnIff` | backtest/strategy.py:255-286 | After a tick of a warm pair its bands are the true ones of its own window if and only if the extreme of that window is also the extreme of the newest prices of all pairs |
| `DonchianChannels.Feed` | backtest/strategy.py:269-308 | The strategy fed with any ticks of its pairs keeps that list and shows its bands, its middle smooths the pair's own prices, and nothing has been signalled of a pair without more ticks than the window and one |
| `DonchianChannels.PairsShareTheList` | backtest/strategy.py:237 | Fed with three ticks of two pairs, the upper band of one is the price of the other |

## Left out

- Broker, network, Redis, Telegram and database calls: they enter as parameters or as a map.
- The precision of 28 digits and the floats between decimals: numbers are exact except where the program quantizes.
- Logging, sleeping, threads, configuration, and the printed reports.
- `apply_state` and what it calls: they fetch through the broker's API by id.
- Dictionaries shared by all instances of a class: one instance is modelled.
- The equity file and `output_results` of the portfolio, and `OandaV20Portfolio`.
- Side strings other than "buy" and "sell" in portfolio/portfolio.py: every strategy there uses these two. In the backtest side is any string.
- `calculate_price`: its parameter `pip` hides the function it calls.
- `sync_trades`: its log line fails when the broker has no trades; `LoadTrades` does the same work.
- Saving the density to Redis and loading it again, and the paging of `init_density`: backward paging is modelled once, in `CandlePaging`.
- `is_market_open` with its holidays: market status is an input of every turn.
- The other strategies of the backtest and the indicators: in `Backtests` a strategy is any choice of signals for each tick.
- Accuracy, risk and profitable-time ratios of a closed trade; only whether their divisions raise.
- The year limits of Python's datetime.
- The partial removal in backtest/portfolio.py, which nothing calls.
- OandaAccounts.Account.Pull: a position in the log stands for a transaction id, and `apply_state` is left out.
- Positions.Position.RemoveUnits: needs the conversion pair quoted and leaves some units, because with equal currencies the lookup fails and with none left the division does.
- CandlePaging.GetDataframe: takes the floored start and end in whole seconds, and is asked for only when its loop ends, which `PagingEndsIff` decides.
- ProfitPips.ProfitableIff: the instrument table is a parameter.
- Runners.Runner.Drain: handlers put only events of lower rank than the one they handle, which `Cascades` derives for the ticker, the strategies and the execution handler; connect events are not part of the model, and numbers on events are bookkeeping.
- Portfolios.Portfolio.UpdatePortfolio: the line written to the equity file.
- TradeManagers.TradeManageHandler.constructor: the load that the program performs in it is a call of its own; `Restart` makes both.
- TradeManagers.TradeManageHandler.Heartbeat: the save to the database and `sync_trades` at some of the heartbeats.
- StreamRunners.FXCMStreamRunner.Iterate: other producers put their events before the queue is drained; the connection check is a yes or no; handlers' exceptions are caught and give no result, and the recovery from them does nothing; the heartbeat period is a whole number of turns.
- TradeManagers.TradeManageHandler.TradeClose: writing the trade to the database is taken to succeed.
- Backtests.Backtest.Run: one signal list per turn stands for the strategy; after an exception nothing more is said than what was there before it.
