# rs-algo-screener core, modelled in Dafny

This project models the decision-making core of rs-algo-screener, a Rust
trading screener and backtester. It covers these parts:

- **The backtest driver** (`Strategy::test`, `market_in_fn`, `market_out_fn`,
  `there_are_funds`). This is the candle loop that asks a strategy to enter or
  leave and records the trades opened and closed.
- **The backtest arithmetic** (`helpers/calc.rs`): profit, cumulative profit,
  run-up, drawdown and the totals.
- **Eleven strategies**, each against the version of the strategy interface it
  was written for:
  - stoch_ls, macd_dual, bollinger_bands_reversal_riding_rsi_ls,
    bollinger_bands_reversals2_mt_macd and
    bollinger_bands_reversals_continuation_ls_mt_macd: hooks that answer
    `bool` and keep a stop loss that they update in place.
  - scalping and ema_scalping: hooks that answer an operation or a position
    with orders.
  - bollinger_bands_reversal_riding_rsi, ema_50, ema_50200 and ema: the
    earliest interface, which resolves its own trades.
- **The candle builder and candle-type identification** (`src/candle.rs`).
- **The pattern detector's scan over windows of local extrema**
  (`src/patterns/pattern.rs`).
- **The scanner's highs/lows, channel and rectangle tests.**
- **The backend's compaction of a stored instrument**
  (`db/helpers.rs`, `compact_instrument`).
- **The backend's status rules** (`strategies/general.rs`, `format_instrument`).

The modelling is done as follows:

- Strategy structs whose `stop_loss` field is updated in place are classes.
  Hooks that only read are functions. Hooks that update the stop are methods
  with `modifies this`.
- The pattern detector is a class whose two pattern lists the methods append
  to. Its window loop is a method with loop invariants, proved against a
  specification function.
- The backtest loop and the backend's cursor loop are methods with `while`
  loops, proved equal to recursive specification functions. The properties
  are proved about those functions.
- Everything the core calls but does not define is a parameter:
  - `get_prev_index`, `get_current_pattern` and the higher-timeframe point
    `get_htf_data` hands its closure;
  - the stop-loss helpers, `to_pips`, `round`, `is_equal`,
    `percentage_change` and `is_equal_distance`;
  - the triangle, broadening and double-top detectors, and
    `get_pattern_status`;
  - `convert_orders`;
  - every environment setting.

Prices are `real`: `f64` rounding, NaN and infinities are not modelled. Where
the source divides by a value that may be zero, the candle predicates follow
IEEE semantics with a positive zero (`x / 0 > t` exactly when `x > 0`). The
`calc.rs` functions require the divisor to be non-zero.

Where the documentation and the code disagree, the model follows the code. In
particular, `compact_instrument` never reports an error: with fewer than two
candles its lookup panics, so at least two candles is its precondition.

## Model

| member | source | states |
|---|---|---|
| Backtest.NoTradesHaveFunds | rs_algo_backtest/src/strategies/strategy.rs:340-347 | with no closed trade the account is funded |
| Backtest.WinningTradeKeepsFunds | rs_algo_backtest/src/strategies/strategy.rs:340-347 | a funded history stays funded after a closed trade with non-negative percentage profit |
| Backtest.NonLosingTradesHaveFunds | rs_algo_backtest/src/strategies/strategy.rs:340-347 | a history of non-losing trades is always funded |
| Backtest.EntryType | rs_algo_backtest/src/strategies/strategy.rs:207-210 | entries are long exactly for long-only strategy kinds, short otherwise |
| Backtest.ExitType | rs_algo_backtest/src/strategies/strategy.rs:247-250 | exits are long exactly when entries are |
| Backtest.MarketInFn | rs_algo_backtest/src/strategies/strategy.rs:198-233 | a market entry becomes a resolved trade-in, carrying `convert_orders` of its orders exactly when it has orders; an order request becomes the converted orders; anything else is no operation; the strategy state is the one `entry_long` left |
| Backtest.MarketOutFn | rs_algo_backtest/src/strategies/strategy.rs:240-266 | a market exit resolves the open trade; an order request becomes the converted orders; anything else is no operation |
| Backtest.ExitPhase | rs_algo_backtest/src/strategies/strategy.rs:145-164 | with no position open nothing changes; otherwise the strategy is the one `exit_long` left, the position closes exactly when the hook asks for a market exit that resolves to a trade-out, which is then appended, and the active orders grow by `convert_orders` of an order request and stay unchanged otherwise |
| Backtest.EntryPhase | rs_algo_backtest/src/strategies/strategy.rs:166-192 | when a position is open or funds are exhausted nothing changes; otherwise the strategy is the one `entry_long` left, the position opens exactly when the hook asks for a market entry that resolves to a trade-in, which is then appended with its converted orders if it has any, an order request appends its converted orders, and nothing else changes the active orders |
| Backtest.Step | rs_algo_backtest/src/strategies/strategy.rs:145-192 | one candle keeps opened and closed trades balanced; trades and orders are only appended, at most one trade-in and one trade-out per candle; a trade-in is only opened with funds left after the exit phase |
| Backtest.Run | rs_algo_backtest/src/strategies/strategy.rs:124-194 | the loop over the candles keeps opened and closed trades balanced |
| Backtest.Steps | rs_algo_backtest/src/strategies/strategy.rs:124-194 | the loop restricted to active candles keeps trades balanced |
| Backtest.RunSkipsInactive | rs_algo_backtest/src/strategies/strategy.rs:124-125 | candles before index 5 and the last candle are skipped |
| Backtest.RunFromWarmUp | rs_algo_backtest/src/strategies/strategy.rs:124-125 | starting anywhere up to index 5 is the same as starting at 5 |
| Backtest.BacktestTradesFromSixthToPenultimate | rs_algo_backtest/src/strategies/strategy.rs:124-125 | a backtest is exactly the steps over candles 5 to len-2 |
| Backtest.RunOnlyAppends | rs_algo_backtest/src/strategies/strategy.rs:145-192 | the loop never removes a trade or an order |
| Backtest.NoFundsNoMoreTrades | rs_algo_backtest/src/strategies/strategy.rs:166 | once flat with funds exhausted, no trade is opened or closed again |
| Backtest.ExitStep | rs_algo_backtest/src/strategies/strategy.rs:145-164 | the statements of the exit half of the loop body leave the driver's variables in the exit phase's state |
| Backtest.EntryStep | rs_algo_backtest/src/strategies/strategy.rs:166-192 | the statements of the entry half of the loop body leave the driver's variables in the entry phase's state |
| Backtest.Test | rs_algo_backtest/src/strategies/strategy.rs:90-197 | the imperative loop ends in the state of the specification loop |
| Calc.CalculateProfit | rs_algo_backtest/src/helpers/calc.rs:6-8 | for a positive size the profit is positive exactly when the exit is above the entry, and zero exactly when they are equal |
| Calc.CalculateProfitPer | rs_algo_backtest/src/helpers/calc.rs:10-12 | the percentage times the entry price is 100 times the price move; positive exactly on a rise for a positive entry |
| Calc.ProfitPerIsProfitOverCapital | rs_algo_backtest/src/helpers/calc.rs:6-12 | the percentage profit is the profit over the capital `size * price_in`, times 100 |
| Calc.CalculateCumProfit | rs_algo_backtest/src/helpers/calc.rs:14-16 | cumulative profit times the entry price is the size times the price move |
| Calc.CalculateCumProfitPer | rs_algo_backtest/src/helpers/calc.rs:18-20 | the cumulative percentage is 100 times the cumulative profit |
| Calc.Window | rs_algo_backtest/src/helpers/calc.rs:28-31 | the filtered candles are exactly those with index in `index_in..index_out`, in order |
| Calc.CalculateRunup | rs_algo_backtest/src/helpers/calc.rs:22-35 | the run-up is non-negative and is the distance from the entry to the highest high of some candle in the window, no high being above it |
| Calc.CalculateDrawdown | rs_algo_backtest/src/helpers/calc.rs:37-50 | the drawdown is non-negative and is the distance from the entry to the lowest low in the window |
| Calc.CalculateDrawdownPer | rs_algo_backtest/src/helpers/calc.rs:52-54 | non-negative; for a non-negative drawdown and a positive entry, drawdown over entry times 100 |
| Calc.CalculateRunupPer | rs_algo_backtest/src/helpers/calc.rs:56-58 | non-negative; for a non-negative run-up and a positive entry, run-up over entry times 100 |
| Calc.SumByAppend | rs_algo_backtest/src/helpers/calc.rs:60-70 | summing a field over trades distributes over concatenation |
| Calc.SumByNonNegative | rs_algo_backtest/src/helpers/calc.rs:64-70 | a sum of non-negative fields is non-negative |
| Calc.TotalGross | rs_algo_backtest/src/helpers/calc.rs:60-62 | the gross total is zero for no trades and grows by each trade's profit |
| Calc.TotalDrawdown | rs_algo_backtest/src/helpers/calc.rs:64-66 | zero for no trades, and each trade adds its `draw_down_per`, so the total is their sum; non-negative when every trade's drawdown is |
| Calc.TotalRunup | rs_algo_backtest/src/helpers/calc.rs:68-70 | zero for no trades, and each trade adds its `run_up_per`, so the total is their sum; non-negative when every trade's run-up is |
| Calc.TotalsAreAdditive | rs_algo_backtest/src/helpers/calc.rs:60-70 | the three totals of two trade lists joined are the sums of their totals |
| Calc.TotalCommissions | rs_algo_backtest/src/helpers/calc.rs:72-74 | zero for no trades and non-negative for a non-negative commission; with `CommissionPerTrade` this pins `num_trades * commission` |
| Calc.CommissionPerTrade | rs_algo_backtest/src/helpers/calc.rs:72-74 | each extra trade adds exactly one commission |
| Calc.TotalProfitableTrades | rs_algo_backtest/src/helpers/calc.rs:76-78 | a percentage in 0..100 when winners do not outnumber trades, 100 exactly when all trades win |
| Calc.TotalProfitFactor | rs_algo_backtest/src/helpers/calc.rs:80-82 | non-negative, and times the absolute losses equals the absolute profits times 100 |
| Shared.MaxHigh | rs_algo_backtest/src/strategies/ema_scalping.rs:184-189 | the highest high of a non-empty window: no candle above it and some candle at it |
| Shared.MinLow | rs_algo_backtest/src/strategies/ema_scalping.rs:263-268 | the lowest low of a non-empty window |
| Shared.LastMaxHighIndex | rs_algo_backtest/src/strategies/scalping.rs:136-140 | `max_by` on highs picks a candle with the highest high and no later candle as high |
| Shared.FirstMinHighIndex | rs_algo_backtest/src/strategies/scalping.rs:144-148 | `min_by` on highs picks a candle with the lowest high and no earlier candle as low |
| Shared.HtfCrossUpIsAbove | rs_algo_backtest/src/strategies/macd_dual.rs:60-84 | a fresh higher-timeframe MACD cross up leaves MACD above signal and is not a cross down |
| StochLs.Stoch.constructor | rs_algo_backtest/src/strategies/stoch_ls.rs:24-36 | named "Stoch", long/short, with an ATR stop initialised from the setting |
| StochLs.Stoch.UpdateStopLoss | rs_algo_backtest/src/strategies/stoch_ls.rs:45-48 | the stop becomes the updated stop and is returned |
| StochLs.Stoch.EntryLong | rs_algo_backtest/src/strategies/stoch_ls.rs:54-80 | enter exactly when %K crosses above %D at or below 20 |
| StochLs.Stoch.ExitLong | rs_algo_backtest/src/strategies/stoch_ls.rs:81-107 | leave exactly when %K crosses below %D at or above 70 |
| StochLs.Stoch.EntryShort | rs_algo_backtest/src/strategies/stoch_ls.rs:108-123 | a short entry is the long exit, for the long/short-capable kinds only |
| StochLs.Stoch.ExitShort | rs_algo_backtest/src/strategies/stoch_ls.rs:124-140 | a short exit is the long entry, for the same kinds |
| StochLs.Stoch.EntryExitExclusive | rs_algo_backtest/src/strategies/stoch_ls.rs:54-140 | no candle is both an entry and an exit, long or short |
| MacdDual.MacdDual.constructor | rs_algo_backtest/src/strategies/macd_dual.rs:24-36 | named "MacD_Dual", long only multi-timeframe, with an ATR stop |
| MacdDual.MacdDual.UpdateStopLoss | rs_algo_backtest/src/strategies/macd_dual.rs:45-48 | the stop becomes the updated stop and is returned |
| MacdDual.MacdDual.EntryLong | rs_algo_backtest/src/strategies/macd_dual.rs:54-108 | enter exactly on a fresh higher-timeframe cross up, or with the higher timeframe above signal and MACD above signal now (the previous-candle test compares a value with itself) |
| MacdDual.MacdDual.ExitCondition | rs_algo_backtest/src/strategies/macd_dual.rs:115-147 | the exit holds exactly on a fresh higher-timeframe cross down or with MACD below signal now |
| MacdDual.MacdDual.ExitLong | rs_algo_backtest/src/strategies/macd_dual.rs:109-158 | reports the exit condition and, exactly when it holds, trails the stop at the candle's low |
| MacdDual.MacdDual.EntryShort | rs_algo_backtest/src/strategies/macd_dual.rs:159-172 | the long exit with its stop update, for the long/short-capable kinds only; otherwise false and no change |
| MacdDual.MacdDual.ExitShort | rs_algo_backtest/src/strategies/macd_dual.rs:173-186 | the long entry, for the long/short-capable kinds only |
| MacdDual.MacdDual.LongOnlyNeverShorts | rs_algo_backtest/src/strategies/macd_dual.rs:24-36 | as constructed, the short exit never fires |
| BollingerRidingRsiLs.ExitFormulaReduces | rs_algo_backtest/src/strategies/bollinger_bands_reversal_riding_rsi_ls.rs:139-149 | with five candles counted no counter exceeds 5, so the exit reduces to "at least 3 lows under the low band" |
| BollingerRidingRsiLs.BollingerBands.constructor | rs_algo_backtest/src/strategies/bollinger_bands_reversal_riding_rsi_ls.rs:25-37 | named "Bollinger_Bands_Reversal_Riding_RSI", long/short, with an ATR stop |
| BollingerRidingRsiLs.BollingerBands.UpdateStopLoss | rs_algo_backtest/src/strategies/bollinger_bands_reversal_riding_rsi_ls.rs:46-50 | the stop becomes the updated stop and is returned |
| BollingerRidingRsiLs.BollingerBands.EntryLong | rs_algo_backtest/src/strategies/bollinger_bands_reversal_riding_rsi_ls.rs:55-91 | enter exactly when the close falls through the low band with RSI in 30..40 outside a falling pattern |
| BollingerRidingRsiLs.BollingerBands.ExitLong | rs_algo_backtest/src/strategies/bollinger_bands_reversal_riding_rsi_ls.rs:92-152 | the loop's three counters are the counts over the five previous candles, and the answer is the exit formula on them, that is, at least 3 lows under the low band |
| BollingerRidingRsiLs.BollingerBands.EntryShort | rs_algo_backtest/src/strategies/bollinger_bands_reversal_riding_rsi_ls.rs:153-166 | the long exit for the long/short-capable kinds, false otherwise |
| BollingerRidingRsiLs.BollingerBands.ExitShort | rs_algo_backtest/src/strategies/bollinger_bands_reversal_riding_rsi_ls.rs:167-180 | the long entry for the long/short-capable kinds, false otherwise |
| BollingerReversals2MtMacd.MutiTimeFrameBollingerBands.constructor | rs_algo_backtest/src/strategies/bollinger_bands_reversals2_mt_macd.rs:24-36 | named "Bollinger_Bands_Reversals2_MT_Macd", long only multi-timeframe, with an ATR stop |
| BollingerReversals2MtMacd.MutiTimeFrameBollingerBands.UpdateStopLoss | rs_algo_backtest/src/strategies/bollinger_bands_reversals2_mt_macd.rs:45-49 | the stop becomes the updated stop and is returned |
| BollingerReversals2MtMacd.MutiTimeFrameBollingerBands.EntryLong | rs_algo_backtest/src/strategies/bollinger_bands_reversals2_mt_macd.rs:54-120 | enter exactly on a fresh higher-timeframe cross up, or with the higher timeframe above signal, a bearish previous candle closing under the low band and a non-bearish candle closing back at or above it |
| BollingerReversals2MtMacd.MutiTimeFrameBollingerBands.ExitLong | rs_algo_backtest/src/strategies/bollinger_bands_reversals2_mt_macd.rs:121-171 | never exits; trails the stop at the low exactly when a bullish candle that closed above the top band is followed by a non-bullish candle closing at or under it |
| BollingerReversals2MtMacd.MutiTimeFrameBollingerBands.EntryShort | rs_algo_backtest/src/strategies/bollinger_bands_reversals2_mt_macd.rs:172-185 | never enters; trails the stop as the long exit does, for the long/short-capable kinds only |
| BollingerReversals2MtMacd.MutiTimeFrameBollingerBands.ExitShort | rs_algo_backtest/src/strategies/bollinger_bands_reversals2_mt_macd.rs:186-199 | the long entry for the long/short-capable kinds, false otherwise |
| BollingerContinuationMtMacd.ExitCondition | rs_algo_backtest/src/strategies/bollinger_bands_reversals_continuation_ls_mt_macd.rs:103-161 | holds exactly outside a rising channel or rising highs/lows, with the higher-timeframe MACD below signal and the close crossing the top band: at or under it on the previous candle, above it now |
| BollingerContinuationMtMacd.MutiTimeFrameBollingerBands.constructor | rs_algo_backtest/src/strategies/bollinger_bands_reversals_continuation_ls_mt_macd.rs:25-37 | named "Bollinger_Bands_Reversals_Continuation_MT_Macd", long/short multi-timeframe, with an ATR stop |
| BollingerContinuationMtMacd.MutiTimeFrameBollingerBands.UpdateStopLoss | rs_algo_backtest/src/strategies/bollinger_bands_reversals_continuation_ls_mt_macd.rs:46-50 | the stop becomes the updated stop and is returned |
| BollingerContinuationMtMacd.MutiTimeFrameBollingerBands.EntryLong | rs_algo_backtest/src/strategies/bollinger_bands_reversals_continuation_ls_mt_macd.rs:55-102 | enter exactly on a fresh higher-timeframe cross up, or with the higher timeframe above signal and the close falling through the low band |
| BollingerContinuationMtMacd.MutiTimeFrameBollingerBands.ExitLong | rs_algo_backtest/src/strategies/bollinger_bands_reversals_continuation_ls_mt_macd.rs:103-161 | never exits; trails the stop exactly when the exit condition holds |
| BollingerContinuationMtMacd.MutiTimeFrameBollingerBands.EntryShort | rs_algo_backtest/src/strategies/bollinger_bands_reversals_continuation_ls_mt_macd.rs:162-175 | never enters; trails the stop as the long exit does, for the long/short-capable kinds |
| BollingerContinuationMtMacd.MutiTimeFrameBollingerBands.ExitShort | rs_algo_backtest/src/strategies/bollinger_bands_reversals_continuation_ls_mt_macd.rs:176-189 | the long entry for the long/short-capable kinds, false otherwise |
| BollingerContinuationMtMacd.MutiTimeFrameBollingerBands.ConstructedShortExitIsLongEntry | rs_algo_backtest/src/strategies/bollinger_bands_reversals_continuation_ls_mt_macd.rs:176-189 | as constructed, the short exit is the long entry |
| BollingerRidingRsi.New | rs_algo_backtest/src/strategies/bollinger_bands_reversal_riding_rsi.rs:18-22 | named "Bollinger_Bands_Reversal_Riding_RSI" |
| BollingerRidingRsi.MarketInFn | rs_algo_backtest/src/strategies/bollinger_bands_reversal_riding_rsi.rs:28-50 | asks to resolve an entry at `index` with the given stop, the condition being the low-band fall-through with RSI in 30..40 outside a falling pattern |
| BollingerRidingRsi.MarketOutFn | rs_algo_backtest/src/strategies/bollinger_bands_reversal_riding_rsi.rs:51-103 | asks to resolve an exit of the given trade with the stop-loss check on, the condition being at least 3 lows under the low band over the five previous candles |
| Ema50.New | rs_algo_backtest/src/strategies/ema_50.rs:16-18 | named "EMA_50" |
| Ema50.MarketInFn | rs_algo_backtest/src/strategies/ema_50.rs:24-36 | asks to resolve an entry exactly when the close crosses above the 50 EMA |
| Ema50.MarketOutFn | rs_algo_backtest/src/strategies/ema_50.rs:38-55 | asks to resolve an exit exactly when the close crosses below the 50 EMA |
| Ema50.EntryExitExclusive | rs_algo_backtest/src/strategies/ema_50.rs:24-55 | never both an entry and an exit on one candle |
| Ema50.NoConsecutiveSignals | rs_algo_backtest/src/strategies/ema_50.rs:24-55 | no two consecutive candles both signal an entry, nor both an exit |
| Ema50200.New | rs_algo_backtest/src/strategies/ema_50200.rs:16-18 | named "EMA_50_200" |
| Ema50200.MarketInFn | rs_algo_backtest/src/strategies/ema_50200.rs:24-36 | asks to resolve an entry exactly when the 50 EMA crosses above the 200 EMA |
| Ema50200.MarketOutFn | rs_algo_backtest/src/strategies/ema_50200.rs:38-55 | asks to resolve an exit exactly when the 50 EMA crosses below the 200 EMA |
| Ema50200.EntryExitExclusive | rs_algo_backtest/src/strategies/ema_50200.rs:24-55 | never both an entry and an exit on one candle |
| Ema50200.NoConsecutiveSignals | rs_algo_backtest/src/strategies/ema_50200.rs:24-55 | no two consecutive candles both signal an entry, nor both an exit |
| Ema200.New | rs_algo_backtest/src/strategies/ema.rs:17-19 | named "EMA200" |
| Ema200.MarketInFn | rs_algo_backtest/src/strategies/ema.rs:21-33 | asks to resolve an entry with stop -1 exactly when the 200 EMA is above the close |
| Ema200.MarketOutFn | rs_algo_backtest/src/strategies/ema.rs:35-50 | asks to resolve an exit exactly when the 200 EMA is below the close |
| Ema200.EntryExitExclusive | rs_algo_backtest/src/strategies/ema.rs:21-50 | entry and exit exclude each other, neither fires when close and EMA are equal, and one of them fires otherwise |
| Scalping.New | rs_algo_backtest/src/strategies/scalping.rs:24-35 | named "Scalping", long only multi-timeframe |
| Scalping.TriggerPrice | rs_algo_backtest/src/strategies/scalping.rs:134-151 | long only: the close of the last highest-high candle of the window plus the margin; otherwise the close of the first lowest-high candle minus the margin |
| Scalping.TargetPrice | rs_algo_backtest/src/strategies/scalping.rs:153-168 | the target lies one risk beyond the buy price (the trigger plus the spread when long only, minus it otherwise), the risk being the buy price less the close and the margin when long only, and the buy price plus both otherwise |
| Scalping.EntryLong | rs_algo_backtest/src/strategies/scalping.rs:58-179 | arms orders exactly when the close dips through the fast EMA with fast > middle > slow EMAs and the higher-timeframe fast EMA and the close above the higher-timeframe slow EMA; the orders are buy at the trigger, sell at the target and a 3-pip stop, opened at the next candle's close |
| Scalping.ExitLong | rs_algo_backtest/src/strategies/scalping.rs:181-280 | always no operation |
| Scalping.EntryShort | rs_algo_backtest/src/strategies/scalping.rs:282-295 | always no operation |
| Scalping.ExitShort | rs_algo_backtest/src/strategies/scalping.rs:297-310 | the long entry for the long/short-capable kinds, no operation otherwise |
| Scalping.LongTriggerIsHighestClose | rs_algo_backtest/src/strategies/scalping.rs:134-142 | the long-only trigger is the close of one of the five previous candles with the highest high, plus the margin |
| Scalping.ConstructedScalping | rs_algo_backtest/src/strategies/scalping.rs:24-179 | as constructed, the short exit never operates and the buy order sits at a highest-high candle's close plus three pips |
| EmaScalping.LongPrices | rs_algo_backtest/src/strategies/ema_scalping.rs:184-193 | the buy is a margin above the highest high and the stop a margin under the current low; the sell is above the buy by the risk (buy plus spread less stop) times the risk-reward ratio |
| EmaScalping.ShortPrices | rs_algo_backtest/src/strategies/ema_scalping.rs:262-271 | the buy is a margin under the lowest low and the stop a margin above the current high; the sell is below the buy by the risk (stop plus spread less buy) times the risk-reward ratio |
| EmaScalping.PricesAreOrdered | rs_algo_backtest/src/strategies/ema_scalping.rs:184-271 | with a positive margin and non-negative spread and ratio: long stop < buy <= sell, short sell <= buy < stop |
| EmaScalping.HtfDirection | rs_algo_backtest/src/strategies/ema_scalping.rs:104-136 | long exactly when the higher-timeframe fast EMA and low are both above the slow EMA; short exactly when the fast EMA and high are both below it; no direction otherwise |
| EmaScalping.EmaScalping.constructor | rs_algo_backtest/src/strategies/ema_scalping.rs:29-86 | defaults to long only multi-timeframe; has a higher timeframe exactly when one is given or the kind is multi-timeframe; starts trading long |
| EmaScalping.EmaScalping.TradingDirection | rs_algo_backtest/src/strategies/ema_scalping.rs:104-136 | stores and returns the higher-timeframe direction |
| EmaScalping.EmaScalping.EntryLong | rs_algo_backtest/src/strategies/ema_scalping.rs:138-204 | orders exactly when the low dips under the fast EMA and the close stays above the slow one; the orders are buy, sell and stop at the long prices |
| EmaScalping.EmaScalping.EntryShort | rs_algo_backtest/src/strategies/ema_scalping.rs:217-283 | the mirror image for shorts |
| EmaScalping.EmaScalping.EntryOrdersAreOrdered | rs_algo_backtest/src/strategies/ema_scalping.rs:138-283 | armed long orders put the stop below the buy and the target above it; short orders the other way round |
| EmaScalping.EmaScalping.ExitLong | rs_algo_backtest/src/strategies/ema_scalping.rs:206-215 | always no position |
| EmaScalping.EmaScalping.ExitShort | rs_algo_backtest/src/strategies/ema_scalping.rs:285-294 | always no position |
| Candles.NewBuilder | src/candle.rs:75-85 | a builder with no value set |
| Candles.SetDate | src/candle.rs:87-90 | sets the date and nothing else |
| Candles.SetOpen | src/candle.rs:92-95 | sets the open and nothing else |
| Candles.SetHigh | src/candle.rs:97-100 | sets the high and nothing else |
| Candles.SetLow | src/candle.rs:102-105 | sets the low and nothing else |
| Candles.SetClose | src/candle.rs:107-110 | sets the close and nothing else |
| Candles.SetVolume | src/candle.rs:112-115 | sets the volume and nothing else |
| Candles.SetPrevious | src/candle.rs:117-120 | sets the previous candle and nothing else |
| Candles.FirstShapeIsFirst | src/candle.rs:230-254 | the scan returns the first shape in priority order that holds, or Default when none does |
| Candles.ClassifyIsFirstShape | src/candle.rs:230-254 | the if-chain of `identify_candle_type` is that priority scan |
| Candles.Identify | src/candle.rs:230-254 | a doji candle is identified as Doji; the type is Default exactly when no shape holds, and otherwise a shape that holds with no higher-priority shape holding |
| Candles.Build | src/candle.rs:256-288 | succeeds exactly when every value is set, with those values and the identified type, and fails with InvalidCandle otherwise |
| Candles.BuildAfterAllSetters | src/candle.rs:87-120 | setting every value and building succeeds with those values |
| Candles.BuildNeedsEveryValue | src/candle.rs:256-288 | leaving out any one of the seven values makes the build fail |
| Candles.EngulfingShapesExclusive | src/candle.rs:186-229 | a candle is never both engulfing and harami of the same colour, nor bullish and bearish engulfing |
| Candles.BearishMarubozuLowShadowRedundant | src/candle.rs:170-176 | for a positive close, the bearish marubozu test as written is the test on both shadows |
| PatternDetection.Latest | src/patterns/pattern.rs:83-98 | the slice kept is the last `local_max_points` points, or all of them when there are fewer |
| PatternDetection.FirstMatchIsFirst | src/patterns/pattern.rs:110-218 | the detector chain picks the first kind, in source order, whose test holds, or none |
| PatternDetection.DetectIsFirstMatch | src/patterns/pattern.rs:110-218 | a detected kind's test holds and no earlier kind's does; none is detected exactly when no test holds |
| PatternDetection.InsertKeepsPoints | src/patterns/pattern.rs:102 | insertion adds exactly the new point |
| PatternDetection.InsertSorted | src/patterns/pattern.rs:102 | inserting into points ascending by index keeps them ascending |
| PatternDetection.SortByIndexSorts | src/patterns/pattern.rs:102 | the sort yields a permutation ascending by index |
| PatternDetection.SortByIndexAscending | src/patterns/pattern.rs:102 | the sort yields points ascending by index |
| PatternDetection.SortByIndexPermutes | src/patterns/pattern.rs:102 | the sort keeps exactly the same points |
| Shared.ReverseMirrors | src/patterns/pattern.rs:103 | reversing mirrors the positions |
| PatternDetection.ReverseKeepsPoints | src/patterns/pattern.rs:103 | reversing is a permutation that turns ascending into descending |
| PatternDetection.MergedIsNewestFirst | src/patterns/pattern.rs:100-103 | the merged extrema are the kept maxima and minima, newest first |
| PatternDetection.WindowPatternsFromWindows | src/patterns/pattern.rs:104-225 | the scan records at most one pattern per window, each being what one window yields |
| PatternDetection.YieldIsDetection | src/patterns/pattern.rs:108-219 | a window yields a pattern of its own points exactly when a kind is detected in it |
| PatternDetection.DetectedShape | src/patterns/pattern.rs:83-228 | a call always ends with one "none" marker; without enough extrema that marker is all it records, otherwise it records at most one pattern per window before it |
| PatternDetection.Patterns.constructor | src/patterns/pattern.rs:48-53 | both pattern lists start empty |
| PatternDetection.Patterns.SetPattern | src/patterns/pattern.rs:231-249 | appends the pattern to the list of its size and leaves the other list alone |
| PatternDetection.Patterns.ScanWindows | src/patterns/pattern.rs:104-225 | the window loop appends the window patterns and then the "none" marker, and leaves the other list alone |
| PatternDetection.Patterns.DetectPattern | src/patterns/pattern.rs:55-229 | appends exactly the detected patterns to the list of its size and leaves the other list alone |
| HighsLows.IsHigherHighsTop | rs_algo_scanner/src/patterns/highs_lows.rs:8-14 | true exactly when the tops at 0, 2 and 4 rise |
| HighsLows.IsHigherLowsTop | rs_algo_scanner/src/patterns/highs_lows.rs:16-22 | true exactly when the tops at 0, 2 and 4 rise |
| HighsLows.IsHigherLowsBottom | rs_algo_scanner/src/patterns/highs_lows.rs:24-30 | true exactly when point 1 is below point 3 |
| HighsLows.TwoIncrements | rs_algo_scanner/src/patterns/highs_lows.rs:32-38 | true exactly when point 1 is above point 3 |
| HighsLows.IsHigherHighsBottom | rs_algo_scanner/src/patterns/highs_lows.rs:40-46 | true exactly when point 1 is below point 3 |
| HighsLows.IsLowerHighsTop | rs_algo_scanner/src/patterns/highs_lows.rs:48-54 | true exactly when the tops at 0, 2 and 4 fall |
| HighsLows.IsLowerHighsBottom | rs_algo_scanner/src/patterns/highs_lows.rs:56-62 | true exactly when point 1 is above point 3 |
| HighsLows.IsLowerLowsTop | rs_algo_scanner/src/patterns/highs_lows.rs:64-70 | true exactly when the tops at 0, 2 and 4 fall |
| HighsLows.IsLowerLowsBottom | rs_algo_scanner/src/patterns/highs_lows.rs:72-78 | true exactly when point 1 is above point 3 |
| HighsLows.UpperBandIsEqualTop | rs_algo_scanner/src/patterns/highs_lows.rs:80-89 | the tops at points 0, 2 and 4 are level: point 0 equals point 2 and point 2 equals point 4, each within the threshold times `percentage_change(point 4, point 0)` |
| HighsLows.UpperBandIsEqualBottom | rs_algo_scanner/src/patterns/highs_lows.rs:91-100 | points 3 and 1 are equal within the scaled threshold |
| HighsLows.LowerBandIsEqualBottom | rs_algo_scanner/src/patterns/highs_lows.rs:102-110 | points 3 and 1 are equal within the scaled threshold |
| HighsLows.LowerBandIsEqualTop | rs_algo_scanner/src/patterns/highs_lows.rs:112-120 | the same test as the upper band: point 0 equals point 2 and point 2 equals point 4, each within the threshold times `percentage_change(point 4, point 0)` |
| HighsLows.SynonymousTests | rs_algo_scanner/src/patterns/highs_lows.rs:8-120 | the tests named differently but written alike agree |
| HighsLows.RiseAndFallExclusive | rs_algo_scanner/src/patterns/highs_lows.rs:8-78 | rising and falling tests of the same points exclude each other |
| Channel.IsAscendantTop | rs_algo_scanner/src/patterns/channel.rs:9-18 | tops 0, 2 and 4 rise and the points are equally spaced |
| Channel.IsAscendantBottom | rs_algo_scanner/src/patterns/channel.rs:20-29 | point 1 is below point 3 and the points are equally spaced |
| Channel.IsDescendantTop | rs_algo_scanner/src/patterns/channel.rs:31-40 | tops 0, 2 and 4 fall and the points are equally spaced |
| Channel.IsDescendantBottom | rs_algo_scanner/src/patterns/channel.rs:42-51 | point 1 is above point 3 and the points are equally spaced |
| Channel.ChannelsExclusive | rs_algo_scanner/src/patterns/channel.rs:9-51 | no window is both an ascending and a descending channel of the same kind, and every channel needs equal spacing |
| Rectangle.IsRectangleTop | rs_algo_scanner/src/patterns/rectangle.rs:10-20 | exactly when the upper band is equal at the top, the lower band equal at the bottom and the first two legs of equal length within the threshold |
| Rectangle.IsRectangleBottom | rs_algo_scanner/src/patterns/rectangle.rs:22-32 | exactly when the upper band is equal at the bottom, the lower band equal at the top and the first two legs of equal length within the threshold |
| Rectangle.TopIffBottom | rs_algo_scanner/src/patterns/rectangle.rs:10-32 | a window is a rectangle top exactly when it is a rectangle bottom |
| Compaction.SecondLast | rs_algo_backend/src/db/helpers.rs:14-19 | the index is inside the series exactly when there are two candles or more; it is the one before the last for more than two, and the last for exactly two |
| Compaction.KeptPatternsAreTheLatest | rs_algo_backend/src/db/helpers.rs:108-124 | `rev().take(3).rev()` keeps the last three patterns, or all of them when there are fewer, in order |
| Compaction.KeptPatternsIdempotent | rs_algo_backend/src/db/helpers.rs:108-124 | cutting an already cut list changes nothing |
| Compaction.KeptDivergencesNewestFirst | rs_algo_backend/src/db/helpers.rs:128-141 | `rev().take(3)` keeps the last three divergences newest first, each reduced to indicator, date and type |
| Compaction.Compact | rs_algo_backend/src/db/helpers.rs:13-145 | the identity fields and levels are copied; the previous price and candle type come from the second-last candle; every indicator summary has status Default, its current value the series' last and its previous value at the second-last index, with zero second line for single-line indicators; patterns and divergences are cut as above |
| General.StochStatus | rs_algo_backend/src/strategies/general.rs:204-217 | bullish exactly when %K is over %D strictly between 20 and 30; bearish exactly when %K is under %D or over 70; neutral otherwise |
| General.MacdStatus | rs_algo_backend/src/strategies/general.rs:219-238 | bullish exactly when the rounded MACD is over the rounded signal and MACD is positive; bearish exactly when the rounded MACD is under the rounded signal and negative; neutral otherwise |
| General.RsiStatus | rs_algo_backend/src/strategies/general.rs:240-245 | bullish under 30, bearish over 60, neutral from 30 to 60 inclusive |
| General.SecondLastPatternType | rs_algo_backend/src/strategies/general.rs:162-180 | none with fewer than two local patterns, the type of the one before the last otherwise |
| General.Format | rs_algo_backend/src/strategies/general.rs:134-252 | the stoch, MACD and RSI statuses follow their rules and the band status is neutral; only the last local pattern's status changes, and only when the pattern status is not Default; nothing else changes |
| General.SuccessesAppend | rs_algo_backend/src/strategies/general.rs:130-258 | skipping failed items keeps the cursor's order |
| General.SuccessesAreTheFetched | rs_algo_backend/src/strategies/general.rs:130-258 | only failed items are dropped, and every kept instrument came from the cursor |
| General.FormatOne | rs_algo_backend/src/strategies/general.rs:132-254 | the statement-by-statement update of one instrument gives its formatted record |
| General.FormatInstruments | rs_algo_backend/src/strategies/general.rs:113-260 | the result is the cursor's successful instruments, in order, each formatted |

## Left out

- Logging, `println!`, MongoDB, HTTP handlers, the mains, the chart backend and the client UI are outside the core.
- `get_upper_tf_instrument` fetches from the database over the network. Its result enters the strategies as the higher-timeframe point parameter.
- `convert_orders` and `active_orders_fn` are unfinished (`todo!`) in the source. `convert_orders` is a parameter of the driver, and the commented-out active-orders handling is not modelled.
- `backtest_result` and the final report of `test` call code that is not part of this model. `Backtest.Test` returns the trades instead.
- `name()`, `strategy_type()`, `stop_loss()`, `time_frame()` and `higher_time_frame()` are field accessors; the fields themselves are modelled.
- Every environment setting is a parameter. The panics of `env::var(...).unwrap()` and `parse().unwrap()` when a setting is missing or malformed are not modelled. Some settings are read and never used: `BACKTEST_ATR_STOP_LOSS` in scalping and `bb_cROSSOVER_THRESHOLD` in `format_instrument`. Those are not modelled at all.
- `TimeFrame::new` parsing of time-frame names is foreign. Time frames are kept as strings.
- Calc.CalculateProfitPer: requires a non-zero entry price. The source divides by it and would produce an infinity or NaN.
- Calc.CalculateCumProfit: requires a non-zero entry price, for the same reason.
- Calc.CalculateCumProfitPer: requires a non-zero entry price, for the same reason.
- Calc.CalculateDrawdownPer: requires a non-zero entry price, for the same reason.
- Calc.CalculateRunupPer: requires a non-zero entry price, for the same reason.
- Calc.CalculateRunup: requires a non-empty candle window. With an empty window the source's NaN-seeded fold returns NaN.
- Calc.CalculateDrawdown: requires a non-empty candle window, for the same reason.
- Calc.TotalProfitableTrades: requires at least one trade. With none the source divides zero by zero.
- Calc.TotalProfitFactor: requires non-zero losses. With none the source divides by zero.
- General.MacdStatus: `round` is a parameter, so the proved rules hold for whatever rounding the shared helper does.
- The scalping `exit_long` computes an exit condition and discards it. Only its answer (no operation) is modelled; the panics of its lookups are covered by the same precondition as the entry.
- The stability of the pattern detector's sort by index is not stated. Points with the same index may come out in any order the insertion sort gives, and no lemma fixes that order.
- `windows(0)` panics in the source, so a window size of zero is excluded by a precondition whenever the scan runs.
- The triangle, broadening and double-top detectors, `points_are_in_slope`, `are_parallel_lines` and the `*_active` pattern-activation checks are not part of this model. The detectors enter the scan as the `matches` parameter.
- General.Format: requires a non-empty local pattern list whenever `get_pattern_status` answers a non-Default status (`General.Formattable`). The source then writes into `local_patterns[len - 1]` and panics on an empty list; `FormatOne` and `FormatInstruments` carry the same precondition.
- Every `.get(i).unwrap()` and index lookup in the strategy hooks panics on a missing value. The model makes each one a precondition instead: the `*Readable` predicates of each strategy module, guarded by the strategy kind in the short hooks that read nothing for long-only kinds.
- `get_pattern_status` is not part of this model and is a parameter. The instrument's status values are the four the rules produce: Default, Bullish, Bearish and Neutral.
- In `format_instrument`, `last_pattern_target`, `last_pattern_date` and `last_divergence_type` are computed and never used, so they are not modelled. `last_pattern_date` also reads the wall clock.
- The compact record `format_instrument` reads has a Bollinger-band summary that `compact_instrument` does not fill. The shared crate versions differ. The model keeps that summary beside the compact record.
- `compact_instrument` panics with fewer than two candles or a series too short for the second-last index. This is its precondition (`Compaction.Compactable`). The `Result` it returns is always `Ok`, so the model returns the record itself.
- Candle dates are integers. The date arithmetic and time zones of `chrono` are not modelled.
- Floating point is modelled as exact reals: rounding, NaN and infinities are not modelled, except that the candle predicates divide by zero IEEE-style.
