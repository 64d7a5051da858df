# PlasmaTrader core in Dafny

This project models the decision and execution core of PlasmaTrader, a paper-trading bot that
reads Binance spot market data. The model has four parts:

- **Order book and feed** (`market_feed.dfy`, module `MarketFeed`).
  - The microstructure metrics: relative spread in basis points, buy/sell pressure and
    top-of-book liquidity.
  - The WebSocket manager's message handler. It merges ticker, depth and trade payloads into
    a per-symbol cache. It emits a `MarketData` snapshot once a ticker price and heartbeat
    exist.
- **Forecast fusion** (`chronos_predictor.dfy`, module `ChronosPredictor`).
  - The single-timeframe prediction: a 200-sample context, a decay-weighted average of the
    forecast median at horizons 1, 3, 5, 10 and 15, and a confidence narrowed by the forecast
    interval and by volatility.
  - The multi-timeframe fusion: it keeps timeframes with confidence above 0.7, forms a
    confidence × static-weight average, and decides LONG_ENTRY, SHORT_ENTRY or WAITING
    against a ±0.0005 threshold.
- **Risk control** (`risk_controller.dfy`, module `RiskController`).
  - Win rate and odds from the last 50 trades.
  - The half-Kelly target risk, capped at 1.5 % (0.5 % in recovery mode).
  - The drawdown ladder with its 8 % hard stop.
  - The volatility adjustment against a 2 % target.
  - The USD notional clamp to [10, 1000], capped by the wallet balance.
- **Paper execution** (`paper_trader.dfy`, module `PaperTrader`).
  - Slippage and taker fee.
  - Opening, averaging into, reducing, closing and flipping a position. A flip is the
    recursive re-execution of the residual order.
  - Ledger bookkeeping: trades, total PnL, high-water mark and drawdown.
  - Mark-to-market PnL.

`core_engine.dfy` holds the shared records (`TradingState`, `Position`, `Trade`, `MarketData`,
`PredictionSignal`) in module `CoreEngine`. `numerics.dfy` holds the real-number helpers
(sums, minima and maxima, weighted averages) in module `Numerics`, and `wrappers.dfy` the
`Option` type in module `Wrappers`.

Python floats are modelled as Dafny `real`s. Where the code produces an infinite value, the
model has an explicit datatype variant:

- `Odds.InfiniteOdds` for odds with no average loss;
- `Pressure.Unbounded` for pressure against an empty ask side;
- `Kelly.NotANumber` for the Kelly fraction that infinite odds yield.

Each such variant is followed to the value the code finally produces. The trading state is a
value, because `execute_order` works on a deep copy and returns it. The method `ExecuteOrder`
is proved equal to the specification function `Execute`. The WebSocket manager is a class
whose cache field `HandleMessage` updates in place.

The Chronos forecaster is a parameter of type `seq<real> -> Forecast`; an outage of the
model service is the value `ServiceUnavailable`. The pandas rolling standard deviation is a
parameter of type `seq<real> -> StdEstimate`; a NaN or infinite estimate is `NonFinite`.

## Model

| member | source | states |
|---|---|---|
| MarketFeed.RelativeSpread | plasmatrader_core/market_feed.py:40-48 | A non-positive ask or bid gives 0. Otherwise the result is (ask − bid) over the mid price, in basis points. It is positive exactly when ask > bid, negative exactly when ask < bid, and always strictly within ±20000 bps. |
| MarketFeed.TotalQty | plasmatrader_core/market_feed.py:53-54 | The summed quantity of book levels with non-negative quantities is non-negative. |
| MarketFeed.TotalValue | plasmatrader_core/market_feed.py:62-63 | The summed price × quantity of non-negative levels is non-negative. |
| MarketFeed.BuySellPressure | plasmatrader_core/market_feed.py:50-57 | With zero ask volume, the pressure is infinite exactly when the bid volume is positive, and 1 otherwise. With non-zero ask volume it is the bid/ask volume ratio. On books with non-negative quantities it is never negative. |
| MarketFeed.InstantLiquidity | plasmatrader_core/market_feed.py:59-64 | Liquidity is the total USD value of both sides. An empty book has 0 liquidity. |
| MarketFeed.KindOf | plasmatrader_core/market_feed.py:188-197 | Dispatch on the stream name, testing for ticker, then depth, then trade. It has no contract of its own; its effect is stated by the `Merge` ensures. |
| MarketFeed.TotalValueAppend | plasmatrader_core/market_feed.py:62-64 | Summing the bid and ask values separately equals valuing the concatenated book. |
| MarketFeed.Merge | plasmatrader_core/market_feed.py:179-198 | A message without a stream, without a payload or with an empty payload object (falsy, like a missing one) leaves the cache alone and stops processing. A ticker sets price, bid, ask and the heartbeat. A depth message replaces both book sides. A trade message sets the trade volume. Any other stream changes nothing. A missing key stops the update part-way. A cached price and heartbeat are never lost. |
| MarketFeed.CompletionIgnoresCache | plasmatrader_core/market_feed.py:182-183 | Whether a message is processed past the guard depends on the message only, not on the cache. |
| MarketFeed.Snapshot | plasmatrader_core/market_feed.py:200-214 | A snapshot exists exactly when price and heartbeat are cached. Missing bid, ask and trade volume default to 0, missing book sides to empty, and the spread is recomputed from the cached ask and bid. |
| MarketFeed.Emission | plasmatrader_core/market_feed.py:199-215 | The snapshot handed to the callback for one message: the merged cache's snapshot when processing completed, none otherwise. It has no contract of its own; it is stated by `HandleMessage`, `Run`, `NoEmissionBeforeTicker` and `EmitsAfterFirstTicker`. |
| MarketFeed.Run | plasmatrader_core/market_feed.py:175-215 | Replaying a message stream emits at most one snapshot per message. |
| MarketFeed.NoEmissionBeforeTicker | plasmatrader_core/market_feed.py:188-200 | Starting without a heartbeat, a stream with no ticker message emits nothing and never acquires a heartbeat. |
| MarketFeed.EmitsAfterFirstTicker | plasmatrader_core/market_feed.py:199-215 | Once price and heartbeat are cached, they stay cached. A replay in which every message is processed to the end, past the guard and every key lookup, emits one snapshot per message. A message that raises a missing-key error emits nothing. |
| MarketFeed.Lower | plasmatrader_core/market_feed.py:100 | Lower-casing keeps the length, leaves no ASCII capital, keeps every character that is not a capital, and maps each capital to its small letter. |
| MarketFeed.Upper | plasmatrader_core/market_feed.py:204 | Upper-casing keeps the length, leaves no ASCII small letter, keeps every character that is not a small letter, and maps each small letter to its capital. |
| MarketFeed.UpperIgnoresLower | plasmatrader_core/market_feed.py:100-204 | Upper-casing the lower-cased symbol equals upper-casing the symbol as given, so the snapshot's symbol does not depend on the case the manager was constructed with. |
| MarketFeed.UpperIdempotent | plasmatrader_core/market_feed.py:204 | Upper-casing twice is upper-casing once. |
| MarketFeed.BinanceWebSocketManager.constructor | plasmatrader_core/market_feed.py:100-106 | The manager stores the symbol lower-cased and starts with an empty cache. |
| MarketFeed.BinanceWebSocketManager.HandleMessage | plasmatrader_core/market_feed.py:175-215 | The cache becomes the merge of the old cache with the message. The emitted snapshot is that of the merged cache under the upper-cased symbol, and none when the message was ignored. |
| ChronosPredictor.StaticWeight | plasmatrader_core/chronos_predictor.py:27-30 | Static timeframe weights are non-negative. Every configured timeframe has a positive weight. |
| ChronosPredictor.StaticWeightsSumToOne | plasmatrader_core/chronos_predictor.py:28-30 | The six static weights sum to exactly 1. |
| ChronosPredictor.AtHorizons | plasmatrader_core/chronos_predictor.py:127 | The selected forecasts are the median at steps 1, 3, 5, 10 and 15, one per prediction length. |
| ChronosPredictor.DecayWeights | plasmatrader_core/chronos_predictor.py:126 | There is one decay weight per prediction length, and every weight is positive. |
| ChronosPredictor.PredictedPrice | plasmatrader_core/chronos_predictor.py:132 | The decay-weighted average of the selected forecasts lies between their minimum and maximum. |
| ChronosPredictor.VolatilityPenalty | plasmatrader_core/chronos_predictor.py:139 | The volatility factor lies in [0.5, 1]. Zero volatility leaves confidence untouched. Volatility of 0.1 or more halves it. |
| ChronosPredictor.WindowVolatility | plasmatrader_core/chronos_predictor.py:120-122 | The window volatility is the rolling estimate when that is finite, and 0 when it is NaN or infinite; it is never negative. |
| ChronosPredictor.Context | plasmatrader_core/chronos_predictor.py:117 | The context is exactly the last 200 samples, in order: its i-th element is the series element 200 − i places from the end. It ends with the latest price. |
| ChronosPredictor.Confidence | plasmatrader_core/chronos_predictor.py:135-141 | The confidence of a forecast: one minus the mean interval width at the prediction lengths relative to the last price, clamped to [0, 1], times the volatility penalty. It lies in [0, 1] and never exceeds the penalty. |
| ChronosPredictor.PredictSingleTimeframe | plasmatrader_core/chronos_predictor.py:105-146 | The timeframe is echoed and confidence stays in [0, 1]. A series shorter than 200, an unusable or failed forecast, or a zero last price give (tf, 0, 0). Otherwise the prediction is the relative change from the last price to the predicted price, and the confidence is `Confidence` of the interval widths, the last price and the window volatility. |
| ChronosPredictor.SingleTimeframeConfidence | plasmatrader_core/chronos_predictor.py:128-141 | With enough history, a usable forecast and a non-zero last price, the confidence equals clamp(1 − mean interval width at the horizons / last price, 0, 1) × (1 − min(5 · volatility, 0.5)). |
| ChronosPredictor.HighVolatilityNotKept | plasmatrader_core/chronos_predictor.py:139-140 | A window volatility of 0.06 or more caps the penalty at 0.7, so that timeframe is never retained. |
| ChronosPredictor.CollectResults | plasmatrader_core/chronos_predictor.py:156-166 | The collection loop over the configured timeframes returns exactly the retained results: `Retained` of the configured timeframes, that is, the submitted timeframes with confidence above 0.7. `RetainedInOrder` states that they keep timeframe order. |
| ChronosPredictor.RetainedOnlyKept | plasmatrader_core/chronos_predictor.py:156-166 | There are no more retained results than timeframes. Each one comes from a given timeframe that has data and a confidence above 0.7, and equals that timeframe's task result. |
| ChronosPredictor.RetainedConfident | plasmatrader_core/chronos_predictor.py:163-166 | Every retained result comes from a given timeframe and has a confidence above 0.7. |
| ChronosPredictor.RetainedInOrder | plasmatrader_core/chronos_predictor.py:156-166 | Retained results keep timeframe order: for any two results, the first one's timeframe occurs earlier in the list than the second one's. |
| ChronosPredictor.NoneKeptNoneRetained | plasmatrader_core/chronos_predictor.py:163-166 | When no timeframe clears the confidence threshold, nothing is retained. |
| ChronosPredictor.Retained | plasmatrader_core/chronos_predictor.py:155-166 | The results kept from a list of timeframes: those with data whose confidence exceeds 0.7, in timeframe order. It has no contract of its own; it is stated by `RetainedOnlyKept`, `RetainedConfident`, `RetainedInOrder`, `NoneKeptNoneRetained`, `DetailsExactlyKept` and `CollectResults`. |
| ChronosPredictor.ForecastOutageWaits | plasmatrader_core/chronos_predictor.py:144-193 | When the forecast service is down for every request, no timeframe is retained. The signal is then WAITING with 0 prediction, 0 confidence and no details. |
| ChronosPredictor.Predictions | plasmatrader_core/chronos_predictor.py:172 | The prediction list matches the retained results one for one. |
| ChronosPredictor.FusionWeights | plasmatrader_core/chronos_predictor.py:171-173 | Each result's fusion weight is its confidence times its timeframe's static weight. |
| ChronosPredictor.Fuse | plasmatrader_core/chronos_predictor.py:168-176 | The fused prediction: the weighted sum divided by the total weight when that is positive, the raw sum otherwise, 0 without results. It has no contract of its own; it is stated by `FusedWithinPredictions`, `FusedWithinRetained`, `SingleTimeframeFusion` and `FuseResults`. |
| ChronosPredictor.FuseResults | plasmatrader_core/chronos_predictor.py:168-176 | The fused prediction is the weighted sum over the total weight when the total is positive, the unnormalised sum otherwise, and 0 with no results. The total weight is the sum of the fusion weights. |
| ChronosPredictor.AccumulateFusion | plasmatrader_core/chronos_predictor.py:170-173 | The accumulating loop ends with the sum of prediction × fusion weight and the sum of the fusion weights over all results. |
| ChronosPredictor.AppendWeight | plasmatrader_core/chronos_predictor.py:173 | Adding one result to the set adds its fusion weight to the total weight. |
| ChronosPredictor.FusedWithinPredictions | plasmatrader_core/chronos_predictor.py:168-176 | With positive weights, the fused prediction lies between the smallest and largest individual prediction. |
| ChronosPredictor.FusedWithinRetained | plasmatrader_core/chronos_predictor.py:165-176 | For actually retained results, the fused prediction lies between the smallest and largest retained prediction. |
| ChronosPredictor.SingleTimeframeFusion | plasmatrader_core/chronos_predictor.py:168-192 | With one retained timeframe of positive weight, the fused prediction is that timeframe's prediction. The signal then carries it as a percentage, the decision for it, and a one-entry detail map. |
| ChronosPredictor.Decide | plasmatrader_core/chronos_predictor.py:178-182 | LONG_ENTRY exactly when fused > 0.0005. SHORT_ENTRY exactly when fused < −0.0005. WAITING exactly in between, bounds included. |
| ChronosPredictor.RetainedWeightWithinStatic | plasmatrader_core/chronos_predictor.py:170-173 | The total fusion weight of the retained results is non-negative and at most the static weight of the candidate timeframes. |
| ChronosPredictor.OverallConfidence | plasmatrader_core/chronos_predictor.py:190 | The total fusion weight over the sum of all static weights, 0 without results. It has no contract of its own; `OverallConfidenceBounds` states it lies in [0, 1]. |
| ChronosPredictor.OverallConfidenceBounds | plasmatrader_core/chronos_predictor.py:190 | The signal's overall confidence lies in [0, 1]. |
| ChronosPredictor.Details | plasmatrader_core/chronos_predictor.py:192 | The per-timeframe predictions in percent. It has no contract of its own; `DetailsExactlyKept` states its keys and values. |
| ChronosPredictor.Signal | plasmatrader_core/chronos_predictor.py:178-193 | The signal built from the retained results. It has no contract of its own; it is stated by `NothingRetainedWaits`, `SingleTimeframeFusion`, `Decide`, `OverallConfidenceBounds`, `DetailsExactlyKept` and `PredictMultiTimeframe`. |
| ChronosPredictor.DetailsExactlyKept | plasmatrader_core/chronos_predictor.py:156-192 | A timeframe appears in the signal's details exactly when it was submitted and kept. Its entry is its prediction in percent. |
| ChronosPredictor.NothingRetainedWaits | plasmatrader_core/chronos_predictor.py:168-192 | An empty result set yields a WAITING signal with 0 prediction, 0 confidence and no details. |
| ChronosPredictor.PredictMultiTimeframe | plasmatrader_core/chronos_predictor.py:148-193 | The collection loop and fusion produce exactly the signal built from the retained results of the configured timeframes. |
| RiskController.RecentTrades | plasmatrader_core/risk_controller.py:43 | The recent window is the last min(50, n) trades. |
| RiskController.WinPnls | plasmatrader_core/risk_controller.py:47 | Wins are positive PnLs, no more than there are trades. |
| RiskController.LossPnls | plasmatrader_core/risk_controller.py:48 | Losses are absolute values of non-positive PnLs, hence non-negative. |
| RiskController.WinsAndLossesPartition | plasmatrader_core/risk_controller.py:47-50 | Every trade is exactly one of a win or a loss. There are no wins exactly when every PnL is ≤ 0, and no losses exactly when every PnL is > 0. |
| RiskController.WinLossCount | plasmatrader_core/risk_controller.py:47-48 | The numbers of wins and losses add up to the number of trades. |
| RiskController.NoWinsIff | plasmatrader_core/risk_controller.py:47-50 | There are no wins exactly when every PnL is at most 0. |
| RiskController.NoLossesIff | plasmatrader_core/risk_controller.py:48-50 | There are no losses exactly when every PnL is positive. |
| RiskController.LossesZeroIff | plasmatrader_core/risk_controller.py:48-57 | The summed losses are 0 exactly when no trade has a negative PnL. This is the case that makes the odds infinite. |
| RiskController.WinRate | plasmatrader_core/risk_controller.py:53 | With both wins and losses, the win rate is strictly between 0 and 1 and equals wins / recent trades. |
| RiskController.OddsFrom | plasmatrader_core/risk_controller.py:57 | The odds are infinite exactly when the average loss is not positive. Finite odds are positive and, multiplied by the average loss, give the average win. |
| RiskController.WinRateAndOdds | plasmatrader_core/risk_controller.py:38-58 | Fewer than 20 recent trades, or no wins, or no losses give the defaults (0.5, 1.0). Otherwise the win rate is that of the recent window, and the odds are `OddsFrom` of the average win and the average loss of that window: their ratio, or infinite when the average loss is 0. Finite odds are positive. |
| RiskController.OddsInfiniteIff | plasmatrader_core/risk_controller.py:50-57 | The odds are infinite exactly when the statistics exist and every loss is a 0 PnL. |
| RiskController.KellyFraction | plasmatrader_core/risk_controller.py:108 | Infinite odds give NaN, and only they do. Non-positive odds give 0. Positive odds b give (p·b − (1 − p)) / b. |
| RiskController.KellyEdge | plasmatrader_core/risk_controller.py:108 | The Kelly fraction never exceeds the win rate. It is positive exactly when p·(1 + b) > 1. |
| RiskController.TargetRisk | plasmatrader_core/risk_controller.py:110 | The target risk is half a positive Kelly fraction, and 0 for a non-positive or NaN one. |
| RiskController.MaxRisk | plasmatrader_core/risk_controller.py:104-105 | The mode cap. It has no contract of its own; `MaxRiskBounds` states it. |
| RiskController.MaxRiskBounds | plasmatrader_core/risk_controller.py:104-105 | The mode cap is positive and at most 1.5 %, and it is the 0.5 % recovery cap exactly while the balance is below the high-water mark. |
| RiskController.CheckDrawdown | plasmatrader_core/risk_controller.py:76-94 | Hard stop exactly at drawdown ≥ 8 %, with factor 0. The factor is in [0, 1]. It is 1 below 5 %, 0.75 in [5 %, 6 %), 0.5 in [6 %, 7 %) and 0.25 in [7 %, 8 %). |
| RiskController.DrawdownFactorMonotone | plasmatrader_core/risk_controller.py:83-94 | A deeper drawdown never yields a larger risk factor. |
| RiskController.ReturnsCount | plasmatrader_core/risk_controller.py:68 | There are at most n − 1 returns. With no zero close there are exactly n − 1. |
| RiskController.RealizedVolatility | plasmatrader_core/risk_controller.py:60-74 | Volatility is always positive. A missing or empty 1h series, or fewer than 20 returns, give the 2 % target. Otherwise it is the finite positive rolling estimate, else the target. |
| RiskController.VolAdjustment | plasmatrader_core/risk_controller.py:114 | The factor is in (0, 1]. It is 1 at or below the target volatility. Above the target it scales the volatility down to the target. |
| RiskController.RiskCap | plasmatrader_core/risk_controller.py:111 | The capped risk lies in [0, mode cap]. |
| RiskController.RiskCapZeroOnInfiniteOdds | plasmatrader_core/risk_controller.py:107-111 | With infinite odds the capped risk is 0: the NaN Kelly fraction is floored at 0. |
| RiskController.FinalRiskPct | plasmatrader_core/risk_controller.py:100-116 | The risk fraction is in [0, mode cap] and at most 0.5 % in recovery mode. |
| RiskController.FinalRiskZeroOnInfiniteOdds | plasmatrader_core/risk_controller.py:107-116 | With infinite odds the final risk fraction is 0. |
| RiskController.FinalRiskZeroOnHardStop | plasmatrader_core/risk_controller.py:100-116 | Under a drawdown hard stop the final risk fraction is 0. |
| RiskController.Scaled | plasmatrader_core/risk_controller.py:116 | Scaling by drawdown and volatility factors in [0, 1] never increases the risk. |
| RiskController.OrderNotional | plasmatrader_core/risk_controller.py:121-125 | The USD notional is balance × risk clamped to [10, 1000], then capped by the balance. It is never above 1000 or the balance, and at least 10 when the balance allows. |
| RiskController.ToUnits | plasmatrader_core/risk_controller.py:128 | Units × price gives back the USD amount, and a non-negative amount gives non-negative units. |
| RiskController.SizeFromRisk | plasmatrader_core/risk_controller.py:118-128 | Non-positive risk or price give 0. Otherwise size × price is the clamped notional. It is at most 1000 USD and at most the balance, and at least 10 USD when the balance allows. |
| RiskController.PositionSize | plasmatrader_core/risk_controller.py:96-136 | A hard stop gives 0. Otherwise the size is the asset amount for the final risk fraction at the given price. |
| RiskController.PositionSizeBounds | plasmatrader_core/risk_controller.py:107-128 | Infinite odds give size 0. A non-negative balance never gives a negative size. |
| PaperTrader.Slippage | plasmatrader_core/paper_trader.py:40-50 | No spread or no asks gives 0. An empty top ask level falls back to spread × 0.1. Otherwise slippage is at most 10 % of ask − bid, and exactly that once the order consumes the top level. |
| PaperTrader.SizeRatio | plasmatrader_core/paper_trader.py:48 | The size ratio is at most 1. It is positive for a positive order against a positive top level, and exactly 1 once the order consumes the top level. |
| PaperTrader.SlippageWithinSpread | plasmatrader_core/paper_trader.py:49-50 | For a non-negative spread and a ratio in [0, 1], the slippage lies between 0 and 10 % of the spread. |
| PaperTrader.ExecPrice | plasmatrader_core/paper_trader.py:67 | A buy fills at the ask plus slippage, a sell at the bid minus slippage. It has no contract of its own; `ExecPriceNoBetterThanQuote` states it. |
| PaperTrader.ExecPriceNoBetterThanQuote | plasmatrader_core/paper_trader.py:66-67 | With non-negative slippage a buy never fills below the ask and a sell never above the bid. |
| PaperTrader.Commission | plasmatrader_core/paper_trader.py:69-70 | The taker fee on the notional. It has no contract of its own; `CommissionProportional` states it. |
| PaperTrader.CommissionProportional | plasmatrader_core/paper_trader.py:69-70 | The commission is never negative for a non-negative size and price, and it is additive in the size, so splitting a fill costs the same. |
| PaperTrader.RealizedPnl | plasmatrader_core/paper_trader.py:89-92 | The profit of closing part of a position. It has no contract of its own; `RealizedPnlSign` states it. |
| PaperTrader.RealizedPnlSign | plasmatrader_core/paper_trader.py:89-92 | Closing at the entry price realizes 0. A move up for a long, or down for a short, realizes a non-negative profit. A short realizes the negation of a long's profit at the same prices. |
| PaperTrader.UpdateRiskMetrics | plasmatrader_core/paper_trader.py:52-59 | Only the risk metrics change. The high-water mark becomes the maximum of the old mark and the balance. |
| PaperTrader.DrawdownAfterUpdate | plasmatrader_core/paper_trader.py:54-58 | After the update, the drawdown is (hwm − balance)/hwm for a positive mark and 0 otherwise. |
| PaperTrader.WeightedEntry | plasmatrader_core/paper_trader.py:83-84 | The averaged entry price conserves the notional. For positive sizes it lies between the old entry and the fill price. |
| PaperTrader.OpenLeg | plasmatrader_core/paper_trader.py:75-78 | Opening a position on a flat symbol. It has no contract of its own; `ExecuteOpensPosition` states its effect. |
| PaperTrader.AverageInLeg | plasmatrader_core/paper_trader.py:82-86 | Averaging into a same-side position. It has no contract of its own; `ExecuteAveragesIn` states its effect. |
| PaperTrader.CloseLeg | plasmatrader_core/paper_trader.py:88-96 | Closing the whole position. It has no contract of its own; `ExecuteFullClose` and `CloseThenOpenBalance` state its effect. |
| PaperTrader.ReduceLeg | plasmatrader_core/paper_trader.py:101-109 | Shrinking the position by a smaller opposite order. It has no contract of its own; `ExecutePartialClose` states its effect. |
| PaperTrader.Transition | plasmatrader_core/paper_trader.py:73-109 | Picks the leg for an order: open, average in, close or reduce. It has no contract of its own; the `Execute*` lemmas state each case. |
| PaperTrader.Record | plasmatrader_core/paper_trader.py:111-114 | Logs the fill, stamps the state and recomputes the risk metrics. It has no contract of its own; `ExecuteAppendsOneTrade` and `ExecuteRiskMetrics` state it. |
| PaperTrader.Leg | plasmatrader_core/paper_trader.py:66-114 | One execution step keeps every open position of positive size. |
| PaperTrader.Execute | plasmatrader_core/paper_trader.py:61-117 | Executing an order keeps every open position of positive size. |
| PaperTrader.ExecuteOrder | plasmatrader_core/paper_trader.py:61-117 | The recursive executor returns exactly the state that the specification function `Execute` describes. |
| PaperTrader.ExecuteOpensPosition | plasmatrader_core/paper_trader.py:75-78 | An order for a flat symbol opens a position on the order's side at the execution price. The balance pays notional plus fee, total PnL is unchanged, and one trade with PnL 0 is logged. |
| PaperTrader.ExecuteAveragesIn | plasmatrader_core/paper_trader.py:80-86 | A same-side order grows the position and keeps its side. The new entry price is the size-weighted average, which lies between the old entry and the fill. The balance pays notional plus fee and PnL is unchanged. |
| PaperTrader.WeightedMeanBetween | plasmatrader_core/paper_trader.py:84 | A price that carries the combined cost of two positively weighted prices lies between them. |
| PaperTrader.ExecutePartialClose | plasmatrader_core/paper_trader.py:101-113 | An opposite order smaller than the position shrinks it by the order size. The balance gains realised PnL minus fee, total PnL gains the PnL, and the trade records it. |
| PaperTrader.ExecuteFullClose | plasmatrader_core/paper_trader.py:88-96 | An opposite order of exactly the position size removes the position. The balance gains realised PnL minus fee, total PnL gains the PnL, and the trade records it. |
| PaperTrader.ExecuteOversizedClose | plasmatrader_core/paper_trader.py:88-100 | An opposite order larger than the position closes it and opens the residual on the order's side at the residual's execution price. The side flips, total PnL gains the closed position's profit, and only the residual's trade is logged. |
| PaperTrader.OversizedCloseBalance | plasmatrader_core/paper_trader.py:88-100 | After an oversized close, the balance gains the closed position's profit less the commission on the whole order at the full order's price. It then pays the residual's notional and commission at the residual's price. The residual is the order size minus the position size. |
| PaperTrader.OversizedClosesThenReopens | plasmatrader_core/paper_trader.py:88-100 | An oversized close equals the closing leg followed by executing the residual order on a ledger where the symbol is flat. |
| PaperTrader.OversizedPaysOpenLeg | plasmatrader_core/paper_trader.py:97-100 | The balance after an oversized close is that of opening the residual on the closed ledger. |
| PaperTrader.CloseThenOpenBalance | plasmatrader_core/paper_trader.py:88-100 | For any two prices, closing then opening the residual changes the balance by the realised profit, less the closing commission, less the residual's notional and commission. |
| PaperTrader.ExecutePreservesLedger | plasmatrader_core/paper_trader.py:73-109 | A valid ledger stays valid. Positions of other symbols are untouched. |
| PaperTrader.ExecuteRiskMetrics | plasmatrader_core/paper_trader.py:52-59 | After execution the high-water mark is the old mark or the new balance, whichever is larger. The drawdown is consistent with it. |
| PaperTrader.ExecuteAppendsOneTrade | plasmatrader_core/paper_trader.py:111-113 | Execution appends exactly one trade, keeps earlier trades and price history, and stamps the state with the execution time. |
| PaperTrader.ExecuteAll | plasmatrader_core/paper_trader.py:61-117 | A sequence of executions keeps every open position of positive size. |
| PaperTrader.RunKeepsLedgerHistory | plasmatrader_core/paper_trader.py:111-114 | Over any run of fills the high-water mark never falls. Each fill adds one trade and the trade history is only appended to. |
| PaperTrader.RoundTripAtUnchangedPrice | plasmatrader_core/paper_trader.py:75-96 | Opening and closing at an unchanged price with no spread leaves the positions and total PnL as they were. It logs two trades, the closing one with PnL 0. The balance ends lower by the opening notional plus two fees. |
| PaperTrader.CalculateUnrealizedPnl | plasmatrader_core/paper_trader.py:119-126 | The result has one entry per open position: its mark-to-market PnL at the current price, sign-flipped for shorts. |
| PaperTrader.FullCloseRealizesUnrealizedPnl | plasmatrader_core/paper_trader.py:88-96 | Fully closing at the current price realises exactly the position's unrealised PnL. |

## Left out

- Execution latency: the random sleep in `execute_order` has no effect on the resulting state and is left out.
- Wall-clock timestamps become a `now` parameter. Ticker heartbeats become the arrival time of each message.
- The Chronos pipeline itself (model loading, tensors, sampling, quantiles) and its process-wide singleton are not modelled. The forecaster is a function parameter, and any exception it raises is the `ServiceUnavailable` outcome.
- A forecast whose median or interval has fewer than 15 steps counts as unusable, as the index error it raises in the code is caught. A forecast is never inspected beyond its first 15 steps.
- The thread pool is left out: predictions are computed in timeframe order. The code accumulates results in completion order, but the fused sum is order-independent over the reals.
- Fusion computes prediction × (confidence × static weight), where the code computes (prediction × confidence) × static weight. The two are equal over the reals.
- Symbol case conversion covers ASCII letters only; the symbols handled are ASCII pair names.
- The pandas rolling standard deviation is an uninterpreted function parameter. The model keeps only what the code checks about its value: finite, positive.
- The REST kline fetch, WebSocket connection and reconnection, JSON decoding, the callback, logging, `gc.collect` and the CLI monitor are not part of this model. They are I/O and presentation, not state changes of the core.
- Floats are modelled as exact reals. Rounding artifacts are not captured. For example, at a drawdown of exactly 6 % the float computation of `int((0.06 - 0.05) / 0.01)` gives 0 (factor 0.75), whereas the real-number model gives 1 (factor 0.5).
- Order validation: the code never rejects a non-positive order size. Executions are only modelled for positive sizes. This is what the risk controller produces for a non-negative balance: either 0 (no trade) or a positive size.
- PaperTrader.RoundTripAtUnchangedPrice: the code does not credit the opening notional back when a position closes. The model follows the code, so a round trip loses the notional plus two fees rather than only two fees.
- Order sides are `Buy` and `Sell` only. The code treats any side string other than 'BUY' as a sell; such other strings are not modelled.
- RiskController.PositionSize: the signal argument of `calculate_position_size` is unused by the code, so it is not a parameter of the model.
- RiskController.PositionSizeBounds: states the infinite-odds and sign bounds only. The USD bounds of the resulting order are stated on `SizeFromRisk`, which `PositionSize` is proved to return.
