# make-my-trade: trading strategies and their backtests, modelled in Dafny

make-my-trade is a small algorithmic-trading toolkit. Each strategy reads a
price table of OHLCV bars (timestamp, open, high, low, close, volume) and
computes indicator columns from it. The indicators are moving averages,
exponential moving averages, Donchian channels, the True Range and ATR, and
MACD. From these it derives buy and sell signals. Some strategies also
backtest: they walk the bars in order, open and close positions, and record
trades, capital and an equity curve. A small `Backtester` hands a strategy
its data and runs the strategy's own `backtest`, or a generic fallback when
the strategy has none.

This project models, in Dafny:

- `common.dfy`: optional values (pandas NaN), the exceptions the code
  raises, bars and frames.
- `series.dfy`: the pandas column operations the strategies rely on.
  These are `shift`, `rolling(w, min_periods)` with `mean`/`max`/`min`/`median`,
  row-wise `max` that skips NaN, and the True Range. A NaN is `None`, and a
  comparison with NaN is false.
- `ewm.dfy`: `ewm(span, adjust=False)` (the recursive exponential
  average) and `ewm(span)` (the weighted, adjusted form). Both are proved
  to stay within the range of their inputs.
- `arith.dfy`: a few facts about real multiplication and division that
  the other proofs use.
- One module per strategy file, and `backtester.dfy` for the
  backtester.

A strategy whose backtest changes its own fields is modelled twice:

- as pure step and run functions over a snapshot of its state, about
  which the lemmas are proved;
- as a Dafny `class` with those fields, whose methods are proved to move
  the object exactly as the step and run functions say.

Prices are exact reals. `sqrt` and `pow`, used by the SMA strategy's
metrics, are parameters.

## Model

| member | source | states |
|---|---|---|
| Common.FirstMissing | strategies/sma_strategy.py:39-43 | a required column the table lacks, with every column named before it present (so the first missing one in lookup order); none exactly when every required column is present |
| Series.Shift | strategies/donchian_strategy.py:57-58 | `shift(1)`: row 0 becomes NaN and row t holds the old row t-1 |
| Series.Rolling | strategies/sma_strategy.py:46 | `rolling(w, min_periods)` with an aggregate: one value per row, NaN unless the trailing window of min(t+1, w) rows holds at least `min_periods` non-NaN values, which are then aggregated |
| Series.TrueRange | strategies/donchian_strategy.py:61-64 | one True Range per row: the largest non-NaN of high-low, abs(high-prev close) and abs(low-prev close) |
| Series.Max | strategies/donchian_atr_strategy.py:38 | the maximum of a non-empty window is one of its values and bounds all of them |
| Series.Min | strategies/donchian_atr_strategy.py:39 | the minimum of a non-empty window is one of its values and is below all of them |
| Series.PresentAll | strategies/sma_profit_strategy.py:28-29 | a window's present values are all of it exactly when none of them is NaN |
| Series.PresentLift | strategies/sma_strategy.py:46 | a column without NaN keeps all its values |
| Series.PresentHas | strategies/donchian_strategy.py:57 | every non-NaN value of a window takes part in the aggregate |
| Series.PresentFrom | strategies/donchian_strategy.py:57 | every value the aggregate sees comes from a non-NaN row of the window |
| Series.FullWindowDefined | strategies/sma_profit_strategy.py:28-29 | a rolling aggregate with the default `min_periods` is defined exactly when w rows exist up to t and none is NaN |
| Series.PartialWindowLift | strategies/sma_strategy.py:46 | with `min_periods=1` on a column without NaN, row t aggregates the last min(t+1, w) values |
| Series.FullWindowLift | strategies/donchian_strategy.py:65 | with the default `min_periods`, row t is NaN before w rows exist and then aggregates the last w values |
| Series.ShiftedWindow | strategies/donchian_strategy.py:57-58 | the shifted column's window at t holds the w values before t |
| Series.LaggedPartialWindowLift | strategies/donchian_strategy.py:57-58 | `shift(1).rolling(w, min_periods=1)` is NaN at row 0 and then aggregates the last min(t, w) values before t |
| Series.RollingMaxBounds | strategies/donchian_strategy.py:57 | a defined rolling max bounds every present value of its window and equals one of them |
| Series.RollingMinBounds | strategies/donchian_strategy.py:58 | a defined rolling min is below every present value of its window and equals one of them |
| Series.PartialWindowDefined | strategies/donchian_strategy.py:65 | with `min_periods=1`, a window whose last row is present is defined |
| Series.TrueRangeFirst | strategies/donchian_strategy.py:61-64 | at the first bar the missing previous close is skipped, so the True Range is high minus low |
| Series.TrueRangeLater | strategies/donchian_strategy.py:61-64 | after the first bar, the True Range is the largest of high-low, abs(high-prev close) and abs(low-prev close) |
| Series.TrueRangeOfBars | strategies/donchian_strategy.py:61-64 | the True Range column of a bar table has no NaN |
| Series.TrueRangeAtLeastRange | strategies/donchian_strategy.py:61-64 | the True Range is at least the bar's own range |
| Ewm.Alpha | strategies/ema_crossover_strategy.py:21-22 | the smoothing factor 2/(span+1) of a positive span lies in (0, 1] |
| Ewm.EmaRecursive | strategies/ema_crossover_strategy.py:21-22 | `ewm(span, adjust=False).mean()`: one value per input, the first value seeding the average |
| Ewm.EmaAdjusted | strategies/macd_iv_strategy.py:7-10 | `ewm(span).mean()` with the default `adjust=True`: one value per input, the weighted average of the inputs so far |
| Ewm.EmaRecursivePrefix | strategies/ema_crossover_strategy.py:21-22 | the recursive EMA of a prefix is the prefix of the EMA, so later data never changes earlier values |
| Ewm.EmaRecurrence | strategies/ema_crossover_strategy.py:21-22 | the recursive EMA starts at the first value and then blends each new value with the previous average |
| Ewm.ConvexBetween | strategies/ema_crossover_strategy.py:21-22 | one smoothing step stays between any bounds that enclose both of its inputs |
| Ewm.EmaRecursiveWithin | strategies/ema_crossover_strategy.py:21-22 | the recursive EMA at t lies within any bounds of the inputs up to t |
| Ewm.EmaRecursiveBetweenMinMax | strategies/ema_crossover_strategy.py:21-22 | the recursive EMA at t lies between the smallest and the largest input up to t |
| Ewm.WeightTotal | strategies/macd_iv_strategy.py:7-10 | the total of the adjusted weights is at least 1 once there is a value |
| Ewm.WeightedSumAbove | strategies/macd_iv_strategy.py:7-10 | a lower bound of the inputs times the total weight is at most the weighted sum |
| Ewm.WeightedSumBelow | strategies/macd_iv_strategy.py:7-10 | the weighted sum is at most an upper bound of the inputs times the total weight |
| Ewm.EmaAdjustedRecurrence | strategies/macd_iv_strategy.py:7-10 | the adjusted EMA obeys the `adjust=True` recurrence: its value at t times the weight total W(t+1) is x[t] plus (1-alpha) times its value at t-1 times W(t) |
| Ewm.EmaAdjustedWithin | strategies/macd_iv_strategy.py:7-10 | the adjusted EMA at t lies within any bounds of the inputs up to t |
| Ewm.WeightedMeanWithin | strategies/macd_iv_strategy.py:7-10 | a weighted mean with non-negative decay lies within any bounds of the values |
| Ewm.EmaFirst | strategies/macd_iv_strategy.py:7-10 | both EMA forms start at the first value |
| SmaStrategy.NewConfig | strategies/sma_strategy.py:7-20 | the investment percentage is stored as a fraction, and the period and profit threshold are kept |
| SmaStrategy.SmaColumn | strategies/sma_strategy.py:46 | `close.rolling(period, min_periods=1).mean()`, one value per bar |
| SmaStrategy.SignalRows | strategies/sma_strategy.py:46-65 | one row per bar, keeping the bar and carrying the signal computed from the SMA column |
| SmaStrategy.GenerateSignals | strategies/sma_strategy.py:22-67 | ValueError naming the first missing required column; otherwise ValueError when the period is 0 (pandas refuses `min_periods=1` over a window of 0); otherwise exactly the signal rows |
| SmaStrategy.SignalAt | strategies/sma_strategy.py:52-65 | the signal is -1, 0 or 1, and it is never set while the SMA is NaN |
| SmaStrategy.SmaIsTrailingMean | strategies/sma_strategy.py:46 | the SMA at t is the mean of the last min(t+1, period) closes |
| SmaStrategy.SignalIsBuy | strategies/sma_strategy.py:52-53 | buy exactly when the low moves from below the previous SMA to above the current SMA |
| SmaStrategy.SignalIsSell | strategies/sma_strategy.py:54-65 | sell exactly when it is not a buy and the high is below the current SMA |
| SmaStrategy.SignalValues | strategies/sma_strategy.py:46-65 | the signal written with the trailing means in place of the SMA column |
| SmaStrategy.SignalAtValues | strategies/sma_strategy.py:52-65 | both directions of the buy and sell conditions over present SMA values; a buy takes precedence |
| SmaStrategy.HandleOrder | strategies/sma_strategy.py:69-109 | IndexError exactly on an empty signal list; a buy spends the invested fraction of the balance at the latest price; a hold orders nothing |
| SmaStrategy.Step | strategies/sma_strategy.py:144-193 | one bar keeps the state coherent and appends exactly one equity point, the marked-to-market value |
| SmaStrategy.Run | strategies/sma_strategy.py:137-193 | the loop keeps the state coherent and records one equity point per row |
| SmaStrategy.RunSnoc | strategies/sma_strategy.py:144-193 | the loop over i+1 rows is the loop over i rows followed by one step |
| SmaStrategy.Simulate | strategies/sma_strategy.py:137-193 | the loop produces the trades and equity curve of the run function |
| SmaStrategy.ProcessBar | strategies/sma_strategy.py:145-193 | one iteration of the loop body moves the variables as the step function does |
| SmaStrategy.MarkPositive | strategies/sma_strategy.py:149-155 | in a good state, the marked-to-market equity at a positive price is positive |
| SmaStrategy.MarkToMarket | strategies/sma_strategy.py:149-151 | the balance, plus the position valued at the price when one is held |
| SmaStrategy.BuyKeepsEquity | strategies/sma_strategy.py:158-172 | a buy moves cash into the position without changing the marked-to-market equity at the buy price |
| SmaStrategy.BuyKeepsGood | strategies/sma_strategy.py:158-172 | a buy keeps trades alternating, the balance and equity positive, and every sell closing its buy |
| SmaStrategy.SellKeepsGood | strategies/sma_strategy.py:174-193 | a sell keeps the same invariant |
| SmaStrategy.StepKeepsGood | strategies/sma_strategy.py:144-193 | every bar keeps the invariant |
| SmaStrategy.RunGood | strategies/sma_strategy.py:137-193 | after any run, buys and sells alternate, every sell sells the volume of its buy, prices stay positive, no trade's balance is negative and the equity curve stays positive |
| SmaStrategy.SellProfitAboveThreshold | strategies/sma_strategy.py:174-193 | every sell follows its buy, sells the same volume, and realises at least the threshold times the buy's cost |
| SmaStrategy.ProfitBound | strategies/sma_strategy.py:177-186 | a return above the threshold gives a profit above the threshold times the cost |
| SmaStrategy.RunEquityPrefix | strategies/sma_strategy.py:144-193 | the equity curve of a prefix of the rows is the prefix of the curve |
| SmaStrategy.EquityBeforeSignal | strategies/sma_strategy.py:149-155 | the equity recorded at a bar is the value of the state before that bar's signal, marked at its close |
| SmaStrategy.Balances | strategies/sma_strategy.py:222-229 | the balances of the trades, in order |
| SmaStrategy.SumSquares | strategies/sma_strategy.py:229-235 | a sum of squares is non-negative |
| SmaStrategy.Variance | strategies/sma_strategy.py:229-235 | the variance is non-negative |
| SmaStrategy.CalculateMetrics | strategies/sma_strategy.py:209-257 | no trades give the starting balance and zero metrics; otherwise the final capital is the last trade's balance |
| SmaStrategy.SharpeSign | strategies/sma_strategy.py:229-235 | the Sharpe ratio is positive or negative exactly when the mean daily return is above or below the daily risk-free rate |
| SmaStrategy.QuotientSign | strategies/sma_strategy.py:229-235 | scaling by positive numbers keeps the sign |
| SmaStrategy.Sharpe | strategies/sma_strategy.py:228-235 | the mean daily return above the 2% yearly risk-free rate over 252 days, divided by the standard deviation plus 1e-10, times sqrt(252); 0 without returns |
| SmaStrategy.Cagr | strategies/sma_strategy.py:224-226 | (final capital / 10000) to the power 1/years, minus 1, over years of 365.25 days; 0 when no time has passed |
| SmaStrategy.CagrFlat | strategies/sma_strategy.py:225-226 | the CAGR is zero without elapsed days or without gain |
| SmaStrategy.DrawdownAt | strategies/sma_strategy.py:238-239 | the fall of a balance below the running peak, relative to the peak; NaN over a zero peak |
| SmaStrategy.MaxDrawdown | strategies/sma_strategy.py:240 | the smallest drawdown, skipping NaN |
| SmaStrategy.DrawdownBounds | strategies/sma_strategy.py:238-240 | from a positive start with non-negative balances, the maximum drawdown is defined and lies in [-1, 0] |
| SmaStrategy.DrawdownAtBounds | strategies/sma_strategy.py:238-240 | every drawdown from the running peak lies in [-1, 0] |
| SmaStrategy.DrawdownWithin | strategies/sma_strategy.py:238-240 | on any ledger of non-negative balances, a defined maximum drawdown lies in [-1, 0] |
| SmaStrategy.DrawdownAtWithin | strategies/sma_strategy.py:238-240 | on non-negative balances, each defined drawdown from the running peak lies in [-1, 0] |
| SmaStrategy.WholeDays | strategies/sma_strategy.py:243 | the whole days between two timestamps, floored like `timedelta.days` (also the `.days` in the CAGR's years at line 225): d days of 86400 s fit in the span and d + 1 do not; Dafny's division floors here only because the divisor is positive |
| SmaStrategy.DrawdownZeroWhenRising | strategies/sma_strategy.py:238-240 | balances that never fall have maximum drawdown zero |
| SmaStrategy.TradeRates | strategies/sma_strategy.py:243-248 | the per-day and per-month rates times the elapsed days (or months) give back the trade count; both are zero without elapsed days |
| SmaStrategy.PerDay | strategies/sma_strategy.py:243-247 | the trade count over whole elapsed days, 0 without one |
| SmaStrategy.PerMonth | strategies/sma_strategy.py:244-248 | the trade count over months of 30.44 days, 0 without elapsed time |
| SmaStrategy.PctChange | strategies/sma_strategy.py:229-230 | each percentage change carries one balance to the next |
| SmaStrategy.Equities | strategies/sma_strategy.py:205-207 | the equity values of the curve, in order |
| SmaStrategy.Backtest | strategies/sma_strategy.py:111-207 | a signal error is raised as is; an empty table raises KeyError("equity"); otherwise the trades and curve of the run, with their metrics; a defined maximum drawdown of the result lies in [-1, 0] |
| DonchianStrategy.GenerateSignals | strategies/donchian_strategy.py:52-84 | AssertionError exactly when high, low or close is missing; otherwise exactly the signal rows |
| DonchianStrategy.SignalRows | strategies/donchian_strategy.py:57-84 | each row carries the bar's buy and sell conditions, its ATR and its channel values |
| DonchianStrategy.EntryChannel | strategies/donchian_strategy.py:57 | `high.shift(1).rolling(donchian_entry).max()`, one value per bar |
| DonchianStrategy.ExitChannel | strategies/donchian_strategy.py:58 | `low.shift(1).rolling(donchian_exit).min()`, one value per bar |
| DonchianStrategy.AtrColumn | strategies/donchian_strategy.py:61-65 | `tr.rolling(atr_period, min_periods=1).mean()`, one value per bar |
| DonchianStrategy.AtrMedian | strategies/donchian_strategy.py:69 | `atr.rolling(50, min_periods=1).median()`, one value per bar |
| DonchianStrategy.CloseMean | strategies/donchian_strategy.py:73-77 | `close.rolling(w, min_periods=1).mean()`, one value per bar |
| DonchianStrategy.BuyAt | strategies/donchian_strategy.py:68-81 | close above the entry channel, range above `atr_mult_entry` times the median ATR, close above both averages; NaN compares false |
| DonchianStrategy.SellAt | strategies/donchian_strategy.py:82 | close below the exit channel; NaN compares false |
| DonchianStrategy.EntryChannelValue | strategies/donchian_strategy.py:57 | the entry channel is NaN for the first `donchian_entry` bars and then the highest high of the previous bars |
| DonchianStrategy.ExitChannelValue | strategies/donchian_strategy.py:58 | the exit channel is NaN for the first `donchian_exit` bars and then the lowest low of the previous bars |
| DonchianStrategy.AtrColumnValues | strategies/donchian_strategy.py:61-65 | the ATR column has no NaN |
| DonchianStrategy.AtrAt | strategies/donchian_strategy.py:65 | the ATR at t is the mean True Range of the last min(t+1, period) bars |
| DonchianStrategy.SellIsBreakdown | strategies/donchian_strategy.py:82 | sell exactly when the close falls below the lowest low of the previous exit window |
| DonchianStrategy.BuyIsBreakout | strategies/donchian_strategy.py:81 | a buy closes above the high of every bar in the previous entry window |
| DonchianStrategy.BelowHighest | strategies/donchian_strategy.py:57 | every high of the window is at most the channel |
| DonchianStrategy.AtrMedianAt | strategies/donchian_strategy.py:68-70 | the median ATR at t is the median of the last min(t+1, 50) ATR values |
| DonchianStrategy.CloseMeanAt | strategies/donchian_strategy.py:73-78 | the moving average of closes at t is the mean of the trailing window |
| DonchianStrategy.BuyNeedsWideBar | strategies/donchian_strategy.py:68-70 | a buy needs a bar range above `atr_mult_entry` times the median ATR |
| DonchianStrategy.BuyNeedsUptrend | strategies/donchian_strategy.py:73-78 | a buy needs the close above both the trend average and the momentum average |
| DonchianStrategy.AtrDefined | strategies/donchian_strategy.py:61-65 | every signal row carries a defined ATR |
| DonchianStrategy.SignalOf | strategies/donchian_strategy.py:90 | 1 exactly for buy, -1 exactly for sell without buy, else 0 |
| DonchianStrategy.NewPosition | strategies/donchian_strategy.py:89-122 | an opened position enters at the price and time given, opens, and is long exactly on a buy |
| DonchianStrategy.IsOpen | strategies/donchian_strategy.py:97-100 | a position is open on a side when it has that side and is not closed |
| DonchianStrategy.HasOpen | strategies/donchian_strategy.py:97-100 | some position in the list is open on the side, the `any(...)` guard that blocks a second position in one direction |
| DonchianStrategy.StopDistance | strategies/donchian_strategy.py:102 | the stop distance is non-zero under valid parameters |
| DonchianStrategy.StopPrice | strategies/donchian_strategy.py:103 | a long's stop is the price minus the stop distance, a short's the price plus it |
| DonchianStrategy.HandleOrderSpec | strategies/donchian_strategy.py:89-134 | capital and curve are unchanged; the positions become the old ones plus the new position exactly when one is opened; one log entry per opened position, stamped with the bar's time, the price and the capital before the order; earlier entries kept |
| DonchianStrategy.Record | strategies/donchian_strategy.py:122-134 | appending a position and its log line leaves capital and curve unchanged |
| DonchianStrategy.EntryConditions | strategies/donchian_strategy.py:90-110 | a position opens exactly when there is a signal, the ATR is defined and non-zero, no position is open on that side, and the notional reaches the minimum |
| DonchianStrategy.NewPositionValue | strategies/donchian_strategy.py:102-122 | the opened position's side, stop price and size, written out |
| DonchianStrategy.Sized | strategies/donchian_strategy.py:105-121 | the sizing step: no position below `min_notional`; otherwise an open position on the side, at the price and time given |
| DonchianStrategy.Clamp | strategies/donchian_strategy.py:111-112 | a size whose notional exceeds the cap is cut to cap / price; otherwise kept |
| DonchianStrategy.ClampBounds | strategies/donchian_strategy.py:111-112 | the clamped size keeps the notional within the cap and only ever shrinks |
| DonchianStrategy.EntryWithinCap | strategies/donchian_strategy.py:105-112 | an opened position's notional is within `max_notional_per_position` of capital, and either reaches `min_notional` or was clamped |
| DonchianStrategy.StopLossIsDistanceTimesSize | strategies/donchian_strategy.py:149-156 | the loss at the stop is the stop distance times the size, on either side |
| DonchianStrategy.StopLossWithinRisk | strategies/donchian_strategy.py:102-112 | the loss when the stop is hit is at most `risk_per_trade` of capital |
| DonchianStrategy.Hit | strategies/donchian_strategy.py:147-153 | an open long is stopped when the low reaches its stop, an open short when the high does |
| DonchianStrategy.StopPnl | strategies/donchian_strategy.py:150-155 | the profit of closing at the stop: (stop - entry) times size for a long, (entry - stop) times size for a short |
| DonchianStrategy.StopsPnl | strategies/donchian_strategy.py:146-156 | the stop profits of the positions the bar hits, summed in list order; closed positions add nothing |
| DonchianStrategy.StopsPnlSnoc | strategies/donchian_strategy.py:146-156 | one more position in the loop adds its stop profit when the bar hits it, and nothing otherwise |
| DonchianStrategy.Unrealized | strategies/donchian_strategy.py:162-166 | the mark-to-market profit of the open positions, summed |
| DonchianStrategy.AfterStop | strategies/donchian_strategy.py:146-156 | a position closes when its stop is hit and is otherwise unchanged |
| DonchianStrategy.CloseStops | strategies/donchian_strategy.py:146-156 | the stop pass keeps one entry per position |
| DonchianStrategy.Step | strategies/donchian_strategy.py:142-167 | one bar appends exactly one equity point and keeps the earlier ones |
| DonchianStrategy.Run | strategies/donchian_strategy.py:142-167 | one equity point per bar |
| DonchianStrategy.RunSnoc | strategies/donchian_strategy.py:142-167 | the loop over i+1 bars is the loop over i bars followed by one step |
| DonchianStrategy.CloseStopsKeepOnePerSide | strategies/donchian_strategy.py:146-156 | the stop pass never leaves two open positions on one side |
| DonchianStrategy.HandleOrderKeepsOnePerSide | strategies/donchian_strategy.py:96-100 | opening a position never leaves two open positions on one side |
| DonchianStrategy.StepKeepsOnePerSide | strategies/donchian_strategy.py:142-167 | no bar leaves two open positions on one side |
| DonchianStrategy.RunKeepsOnePerSide | strategies/donchian_strategy.py:139-169 | at most one open long and one open short at every point of a backtest |
| DonchianStrategy.StepKeepsLogMirror | strategies/donchian_strategy.py:114-134 | each bar keeps the trade log in step with the positions: same side, price, size and stop |
| DonchianStrategy.RunKeepsLogMirror | strategies/donchian_strategy.py:139-169 | the trade log mirrors the positions after any backtest |
| DonchianStrategy.StepExtends | strategies/donchian_strategy.py:142-167 | a bar only appends positions or closes existing ones; it never reopens or edits them |
| DonchianStrategy.CloseStopsPrefix | strategies/donchian_strategy.py:146-156 | the stop pass over a prefix is the prefix of the stop pass |
| DonchianStrategy.RealizedAfterStops | strategies/donchian_strategy.py:146-156 | the realised profit after the stop pass is the earlier realised profit plus the stop profits of this bar |
| DonchianStrategy.RealizedStopStep | strategies/donchian_strategy.py:146-156 | the same, one position at a time |
| DonchianStrategy.RealizedOpenAppend | strategies/donchian_strategy.py:114-122 | a newly opened position adds no realised profit |
| DonchianStrategy.StepKeepsCapital | strategies/donchian_strategy.py:142-167 | capital stays the initial capital plus the realised profit of the closed positions |
| DonchianStrategy.RecordKeepsRealized | strategies/donchian_strategy.py:122-134 | recording a new position leaves realised profit unchanged |
| DonchianStrategy.RunCapital | strategies/donchian_strategy.py:139-169 | a fresh backtest ends with capital equal to the initial capital plus the realised profit of its closed positions |
| DonchianStrategy.RunEquityPrefix | strategies/donchian_strategy.py:142-167 | the equity curve of a prefix of the bars is a prefix of the curve |
| DonchianStrategy.RunLastEquity | strategies/donchian_strategy.py:162-167 | the last equity point is capital plus the unrealised profit of the open positions at the last close |
| DonchianStrategy.StepEquity | strategies/donchian_strategy.py:162-167 | each equity point is capital plus the unrealised profit at that bar's close |
| DonchianStrategy.FilteredDonchianStrategy.constructor | strategies/donchian_strategy.py:15-47 | the parameters are stored and the strategy starts with the initial capital, no positions and empty logs |
| DonchianStrategy.FilteredDonchianStrategy.AnyOpen | strategies/donchian_strategy.py:97-100 | the scan finds an open position on the side exactly when one exists |
| DonchianStrategy.FilteredDonchianStrategy.HandleOrder | strategies/donchian_strategy.py:89-134 | the object moves as the pure order handler says |
| DonchianStrategy.FilteredDonchianStrategy.OpenPosition | strategies/donchian_strategy.py:102-134 | sizing, appending the position and logging it, as the pure functions say |
| DonchianStrategy.FilteredDonchianStrategy.CheckStops | strategies/donchian_strategy.py:146-156 | the stop loop adds exactly the stop profits to capital and closes exactly the hit positions |
| DonchianStrategy.FilteredDonchianStrategy.UnrealizedAt | strategies/donchian_strategy.py:162-166 | the loop sums the unrealised profit of the open positions |
| DonchianStrategy.FilteredDonchianStrategy.ProcessBar | strategies/donchian_strategy.py:143-167 | one iteration moves the object as the step function does |
| DonchianStrategy.FilteredDonchianStrategy.RunBars | strategies/donchian_strategy.py:142-167 | the loop moves the object as the run function does |
| DonchianStrategy.FilteredDonchianStrategy.Backtest | strategies/donchian_strategy.py:139-169 | a signal error is raised and leaves the state unchanged; otherwise the state becomes the run over all bars and the capital, log and curve are returned |
| SmaProfitStrategy.CloseColumn | strategies/sma_profit_strategy.py:28 | the close column of the table, NaN kept |
| SmaProfitStrategy.MovingAverage | strategies/sma_profit_strategy.py:28-29 | one moving-average value per row; a window of 0 gives NaN everywhere |
| SmaProfitStrategy.CrossesAbove | strategies/sma_profit_strategy.py:33-34 | short above long now and at most long on the previous row; NaN compares false |
| SmaProfitStrategy.CrossesBelow | strategies/sma_profit_strategy.py:37-38 | short below long now and at least long on the previous row; NaN compares false |
| SmaProfitStrategy.CrossSignal | strategies/sma_profit_strategy.py:32-38 | buy exactly on an upward cross, sell exactly on a downward cross, otherwise none |
| SmaProfitStrategy.SignalRows | strategies/sma_profit_strategy.py:26-40 | each row keeps its timestamp and close and carries the cross signal |
| SmaProfitStrategy.MissingColumn | strategies/sma_profit_strategy.py:28-40 | `close` is looked up first, then `timestamp` |
| SmaProfitStrategy.GenerateSignals | strategies/sma_profit_strategy.py:26-40 | KeyError exactly when close or timestamp is missing, naming the first looked up; otherwise exactly the signal rows |
| SmaProfitStrategy.SignalNeedsAverages | strategies/sma_profit_strategy.py:33-38 | a signal needs both averages defined at this row and the previous one |
| SmaProfitStrategy.AverageHistory | strategies/sma_profit_strategy.py:28-29 | an average defined at rows t-1 and t needs at least w earlier rows and no NaN close among the last w+1 |
| SmaProfitStrategy.SignalNeedsHistory | strategies/sma_profit_strategy.py:33-38 | a signal needs at least `long_window` earlier rows and no NaN close in either window |
| SmaProfitStrategy.ZeroWindowNeverSignals | strategies/sma_profit_strategy.py:28-38 | with a window of 0 the averages are all NaN, so no row carries a signal |
| SmaProfitStrategy.NoConsecutiveRepeats | strategies/sma_profit_strategy.py:33-38 | a buy is never followed directly by another buy, nor a sell by another sell |
| SmaProfitStrategy.HandleSpec | strategies/sma_profit_strategy.py:45-57 | at most one trade is appended; nothing changes without one; a buy pays the price and opens; a sell happens only above the entry price and closes |
| SmaProfitStrategy.Equity | strategies/sma_profit_strategy.py:73 | capital plus the position times the price |
| SmaProfitStrategy.Step | strategies/sma_profit_strategy.py:67-74 | a NaN close is skipped; any other row appends one equity point, capital plus position times the close after the order; with at most one unit held, an order never changes that equity |
| SmaProfitStrategy.Run | strategies/sma_profit_strategy.py:67-74 | the backtest loop: the steps over the rows in order |
| SmaProfitStrategy.RunSnoc | strategies/sma_profit_strategy.py:67-74 | the loop over i+1 rows is the loop over i rows followed by one step |
| SmaProfitStrategy.SignalCloses | strategies/sma_profit_strategy.py:69 | the closes of the signal rows |
| SmaProfitStrategy.RunEquityCount | strategies/sma_profit_strategy.py:66-74 | one equity point per non-NaN close, and earlier points are kept |
| SmaProfitStrategy.FreshIsGood | strategies/sma_profit_strategy.py:15-21 | a fresh account satisfies the invariant |
| SmaProfitStrategy.HandleKeepsGood | strategies/sma_profit_strategy.py:45-57 | each order keeps buys and sells alternating, every sell above its buy, and capital equal to the initial capital plus the cash flow |
| SmaProfitStrategy.RunKeepsGood | strategies/sma_profit_strategy.py:62-77 | a backtest keeps that invariant |
| SmaProfitStrategy.RoundTripGain | strategies/sma_profit_strategy.py:52-57 | each completed round trip strictly raises the cash flow |
| SmaProfitStrategy.FlatCashFlow | strategies/sma_profit_strategy.py:45-57 | with no position open, the cash flow is non-negative, and positive once a trade has happened |
| SmaProfitStrategy.CapitalAfterRoundTrips | strategies/sma_profit_strategy.py:45-57 | with no position open, capital is never below the initial capital, and strictly above it once a trade has happened |
| SmaProfitStrategy.SimpleMovingAverageProfitStrategy.constructor | strategies/sma_profit_strategy.py:15-21 | windows stored; the account starts fresh |
| SmaProfitStrategy.SimpleMovingAverageProfitStrategy.HandleOrder | strategies/sma_profit_strategy.py:45-57 | the object moves as the pure order handler says |
| SmaProfitStrategy.SimpleMovingAverageProfitStrategy.ProcessRow | strategies/sma_profit_strategy.py:68-74 | one iteration moves the object and curve as the step function does |
| SmaProfitStrategy.SimpleMovingAverageProfitStrategy.Backtest | strategies/sma_profit_strategy.py:62-77 | KeyError for a missing timestamp or close leaves the state unchanged; otherwise the run over the signal rows |
| SmaProfitStrategy.ProfitSignal | strategies/sma_profit_strategy.py:104-110 | sell exactly when the short average is below the long one and the close is above a set entry price; otherwise buy exactly on an upward cross |
| SmaProfitStrategy.ProfitCheck | strategies/sma_profit_strategy.py:109 | false when the entry price is unset or 0; otherwise close above the entry price, NaN comparing false |
| SmaProfitStrategy.ProfitSignalRows | strategies/sma_profit_strategy.py:94-112 | each row carries its profit-checked signal |
| SmaProfitStrategy.GenerateProfitSignals | strategies/sma_profit_strategy.py:94-112 | KeyError exactly when close or timestamp is missing; otherwise exactly the profit-checked signal rows |
| SmaProfitStrategy.NoEntryNoSells | strategies/sma_profit_strategy.py:109-110 | without an entry price (unset or 0) no row is a sell |
| SmaProfitStrategy.NoConsecutiveProfitBuys | strategies/sma_profit_strategy.py:105-110 | a buy is never followed directly by another buy |
| SmaProfitStrategy.HandleProfitSpec | strategies/sma_profit_strategy.py:114-128 | at most one trade is appended and nothing changes without one; a buy opens at the price, a sell needs a price above entry and closes |
| SmaProfitStrategy.RunProfitSnoc | strategies/sma_profit_strategy.py:132-133 | the loop over i+1 rows is the loop over i rows followed by one order |
| SmaProfitStrategy.RunProfit | strategies/sma_profit_strategy.py:130-133 | the backtest loop: the orders over the rows in order |
| SmaProfitStrategy.HandleProfitKeepsGood | strategies/sma_profit_strategy.py:114-128 | each order keeps buys and sells alternating, the position matching the last trade, and every sell above its buy |
| SmaProfitStrategy.RunProfitKeepsGood | strategies/sma_profit_strategy.py:130-134 | the backtest keeps that invariant |
| SmaProfitStrategy.RunWithoutSells | strategies/sma_profit_strategy.py:118-128 | on rows without sells, a flat holding buys at the first buy row and never trades again |
| SmaProfitStrategy.FreshBacktestTradesOnce | strategies/sma_profit_strategy.py:87-134 | a fresh strategy, whose signals are computed with no entry price, makes at most one trade |
| SmaProfitStrategy.SimpleMovingAverageProfitStrategy1.constructor | strategies/sma_profit_strategy.py:87-92 | windows stored, no position, no trades |
| SmaProfitStrategy.SimpleMovingAverageProfitStrategy1.HandleOrder | strategies/sma_profit_strategy.py:114-128 | the object moves as the pure order handler says |
| SmaProfitStrategy.SimpleMovingAverageProfitStrategy1.Backtest | strategies/sma_profit_strategy.py:130-134 | a signal error leaves the state unchanged; otherwise the run over the rows, returning the trades |
| EmaCrossoverStrategy.SignalRows | strategies/ema_crossover_strategy.py:21-40 | no row is ever a sell; buy exactly on an upward cross of the short EMA over the long EMA |
| EmaCrossoverStrategy.EmaColumn | strategies/ema_crossover_strategy.py:21-22 | `close.ewm(span, adjust=False).mean()`, one value per bar |
| EmaCrossoverStrategy.AtrColumn | strategies/ema_crossover_strategy.py:25-29 | `tr.rolling(14).mean()`, one value per bar |
| EmaCrossoverStrategy.CrossesAbove | strategies/ema_crossover_strategy.py:32 | short EMA above long now and at most long on the previous row; the missing previous row compares false |
| EmaCrossoverStrategy.GenerateSignals | strategies/ema_crossover_strategy.py:17-40 | KeyError for a missing close and ValueError for a span below 1; otherwise the signal rows |
| EmaCrossoverStrategy.CrossesAboveValues | strategies/ema_crossover_strategy.py:32 | both directions of the cross condition; never at the first row |
| EmaCrossoverStrategy.NoConsecutiveBuys | strategies/ema_crossover_strategy.py:32 | a buy is never followed directly by another buy |
| EmaCrossoverStrategy.EmaColumnRecur | strategies/ema_crossover_strategy.py:21-22 | the EMA starts at the first close and then blends each close with the previous EMA |
| EmaCrossoverStrategy.EmaWithinCloses | strategies/ema_crossover_strategy.py:21-22 | the EMA at t lies between the lowest and highest close up to t |
| EmaCrossoverStrategy.AtrAt | strategies/ema_crossover_strategy.py:25-29 | the ATR is NaN for the first 13 bars and then the mean True Range of the last 14 |
| DonchianAtrStrategy.SignalRows | strategies/donchian_atr_strategy.py:65-72 | each row carries the breakout-with-filters buy and the breakdown sell |
| DonchianAtrStrategy.GenerateSignals | strategies/donchian_atr_strategy.py:31-72 | AssertionError exactly when high, low or close is missing; ValueError for a window below 1; otherwise exactly the signal rows |
| DonchianAtrStrategy.EntryHigh | strategies/donchian_atr_strategy.py:38 | `high.rolling(donchian_entry, min_periods=1).max()`, one value per bar |
| DonchianAtrStrategy.ExitLow | strategies/donchian_atr_strategy.py:39 | `low.rolling(donchian_exit, min_periods=1).min()`, one value per bar |
| DonchianAtrStrategy.VolOk | strategies/donchian_atr_strategy.py:49-51 | today's range above `atr_mult_entry` times the 50-bar median ATR |
| DonchianAtrStrategy.TrendLong | strategies/donchian_atr_strategy.py:54-58 | true without a trend window, otherwise close above its trend mean |
| DonchianAtrStrategy.MomOk | strategies/donchian_atr_strategy.py:61-62 | close above its momentum mean |
| DonchianAtrStrategy.BuyAt | strategies/donchian_atr_strategy.py:65-69 | close above the entry high with every filter; NaN gives false |
| DonchianAtrStrategy.SellAt | strategies/donchian_atr_strategy.py:66-70 | close below the exit low; NaN gives false |
| DonchianAtrStrategy.EntryHighValue | strategies/donchian_atr_strategy.py:38 | the entry channel at t is the highest high of a window that includes bar t, so it is at least that bar's high |
| DonchianAtrStrategy.ExitLowValue | strategies/donchian_atr_strategy.py:39 | the exit channel at t is the lowest low of a window that includes bar t, so it is at most that bar's low |
| DonchianAtrStrategy.NoSignalInsideRange | strategies/donchian_atr_strategy.py:65-66 | on a bar whose close lies inside its range, neither a buy nor a sell can fire |
| DonchianAtrStrategy.NeverSignals | strategies/donchian_atr_strategy.py:38-66 | as written, well-formed bars never produce a signal |
| DonchianAtrStrategy.AtrValue | strategies/donchian_atr_strategy.py:42-46 | the ATR at t is the mean True Range of the last min(t+1, period) bars; at the first bar it is high minus low |
| DonchianAtrStrategy.TrendFilterValue | strategies/donchian_atr_strategy.py:54-58 | with no trend window the filter passes; otherwise it needs the close above a defined trend average |
| DonchianAtrStrategy.MomentumFilterValue | strategies/donchian_atr_strategy.py:61-62 | the momentum filter holds exactly when the close is above the trailing mean |
| DonchianAtrStrategy.PriorEntryHigh | strategies/donchian_atr_strategy.py:38 | one value per bar |
| DonchianAtrStrategy.PriorExitLow | strategies/donchian_atr_strategy.py:39 | one value per bar |
| DonchianAtrStrategy.LaggedSignalRows | strategies/donchian_atr_strategy.py:65-72 | each row carries the corrected buy and sell |
| DonchianAtrStrategy.LaggedSignalsAreBreakouts | strategies/donchian_atr_strategy.py:38-66 | with the channels over the previous bars, a buy is exactly a close above the earlier highs under the filters, and a sell is exactly a close below the earlier lows |
| DonchianAtrStrategy.LaggedBreakoutPossible | strategies/donchian_atr_strategy.py:65 | a two-bar well-formed table whose second close breaks the corrected channel but not the channel as written |
| MacdIvStrategy.MacdCross | strategies/macd_iv_strategy.py:7-11 | the cross flag is 1 exactly when MACD is above its signal line, else 0 |
| MacdIvStrategy.CloseEma | strategies/macd_iv_strategy.py:7-8 | `close.ewm(span).mean()` with `adjust=True`, one value per bar |
| MacdIvStrategy.Macd | strategies/macd_iv_strategy.py:9 | the 12-span EMA minus the 26-span EMA, one value per bar |
| MacdIvStrategy.SignalLine | strategies/macd_iv_strategy.py:10 | the 9-span adjusted EMA of MACD, one value per bar |
| MacdIvStrategy.RangeAtr | strategies/macd_iv_strategy.py:14 | the range ATR is the 14-bar highest high minus the 14-bar lowest low |
| MacdIvStrategy.Sma | strategies/macd_iv_strategy.py:17-18 | `close.rolling(w).mean()`, NaN before w bars exist |
| MacdIvStrategy.AtrMedian | strategies/macd_iv_strategy.py:25 | `atr.rolling(50).median()`, one value per bar |
| MacdIvStrategy.BuyAt | strategies/macd_iv_strategy.py:21-26 | cross flag 1, close above the 20-bar SMA, 20-bar SMA above the 50-bar SMA, range ATR above its median; NaN compares false |
| MacdIvStrategy.SellAt | strategies/macd_iv_strategy.py:27-32 | cross flag 0, close below the 20-bar SMA, 20-bar SMA below the 50-bar SMA, range ATR above its median |
| MacdIvStrategy.BuyColumn | strategies/macd_iv_strategy.py:21-26 | the buy flag of each bar |
| MacdIvStrategy.SellColumn | strategies/macd_iv_strategy.py:27-32 | the sell flag of each bar |
| MacdIvStrategy.FirstCrossIsZero | strategies/macd_iv_strategy.py:7-11 | at the first bar MACD equals its signal line, so the cross flag is 0 |
| MacdIvStrategy.RangeAtrValue | strategies/macd_iv_strategy.py:14 | defined exactly from bar 13 on, and then non-negative on well-formed bars |
| MacdIvStrategy.ChannelAt | strategies/macd_iv_strategy.py:14 | the 14-bar channel is NaN before 14 bars exist and then the max high and min low of the window |
| MacdIvStrategy.AtrMedianDefined | strategies/macd_iv_strategy.py:21-32 | a signal needs 63 bars of history: 14 for the range and 50 for its median |
| MacdIvStrategy.SignalsExclusiveAndLate | strategies/macd_iv_strategy.py:21-32 | no bar is both buy and sell; any signal comes after the warm-up, with the 50-bar SMA defined and the range ATR defined and above its defined median |
| MacdIvStrategy.Pairs | strategies/macd_iv_strategy.py:34 | one (buy, sell) pair per bar |
| MacdIvStrategy.DataFrame.constructor | strategies/macd_iv_strategy.py:5 | a frame with its columns and bars and nothing added yet |
| MacdIvStrategy.GenerateSignals | strategies/macd_iv_strategy.py:5-34 | KeyError for a missing close before anything is added, and for a missing high or low after `macd_cross` is added; otherwise all derived columns are added and the buy/sell pairs returned |
| Backtester.Make | backtest/backtester.py:6-9 | strategy and data kept; the initial capital defaults to 10000 |
| Backtester.GenericBacktest | backtest/backtester.py:23-25 | the fallback succeeds with no result |
| Backtester.Run | backtest/backtester.py:11-21 | the strategy's own backtest when it has one, else the fallback; success is logged as completed and an error is logged and re-raised unchanged |
| Backtester.RunIgnoresCapital | backtest/backtester.py:6-21 | the initial capital does not affect a run |
| Backtester.RunRaisesExactly | backtest/backtester.py:11-21 | a run raises exactly when the strategy's backtest raises, with the same error |
| Backtester.NoOpBacktestIsGeneric | backtest/backtester.py:11-18 | a backtest that defers to the empty base method behaves like the generic fallback |

## Left out

- Data fetchers, caches, brokers, logging configuration and `main.py` are
  I/O around the core and are not part of this model. So are the
  abstract base in `strategies/base.py` and `utilities/`. The base's
  methods do nothing, and `Backtester.NoOpBacktestIsGeneric` covers a
  strategy that defers to them.
- `handle_order` in the EMA crossover, Donchian ATR and MACD strategies,
  and MACD's `backtest`, only defer to the empty base methods. No member
  models them beyond that lemma.
- Floating point is modelled as exact reals. Rounding, infinities and
  NaN produced by arithmetic are not modelled. NaN in a column appears only
  where pandas introduces it (warm-up windows, `shift`) or as a missing
  close in the SMA profit tables.
- Timestamp parsing (`pd.to_datetime`, `to_numeric`), sorting and column
  copying are not modelled. Bars carry an integer time and real prices.
- `sqrt` and `pow` are parameters of the SMA strategy's metrics, not
  computed. `SmaStrategy.SharpeSign` and `SmaStrategy.CagrFlat` state what
  follows from them.
- The Backtester's log is returned as a record, not written. The text of
  the error message is the `Error` value itself. Whether the strategy has
  a `backtest` attribute is an optional field, not `hasattr`.
- SmaStrategy.Backtest: requires 0 < fraction <= 1 and positive closes.
  The source divides by the price and does not check the fraction. Zero
  prices (ZeroDivisionError) and over-investment are not modelled.
- A zero latest price in the SMA strategy's `handle_order` raises
  ZeroDivisionError. That case is modelled. The metrics' divisions by zero
  (numpy inf) are not.
- SmaStrategy.DrawdownBounds: a drawdown over a zero peak is NaN in numpy
  and `None` here. That the maximum drawdown is defined at all is stated
  only for a positive first balance; `SmaStrategy.DrawdownWithin` gives the
  [-1, 0] bound for any non-negative ledger.
- DonchianStrategy.FilteredDonchianStrategy.Backtest: requires windows of
  at least 1 (below), a non-zero `stop_atr_mult` and positive closes. With
  `stop_atr_mult` 0 the stop distance is 0, so `dollar_risk / stop_distance`
  is numpy inf, later clamped to the notional cap, or NaN when
  `risk_per_trade` is also 0. Those values are not expressible over exact
  reals. The source does not check the closes.
- DonchianStrategy.GenerateSignals: requires every window to be at least 1,
  and nothing of `stop_atr_mult`, which `generate_signals` does not read. A
  window of 0 behaves in two ways:
  - `atr_period`, `sma_trend` or `sma_mom` of 0 makes
    `rolling(0, min_periods=1)` raise ValueError. The Donchian ATR module
    models that error.
  - `donchian_entry` or `donchian_exit` of 0 gives a `rolling(0)` channel
    that is NaN on every row, so no buy (entry) or no sell (exit) fires and
    no error is raised. `SmaProfitStrategy.MovingAverage` models that case
    for its own averages.
  Here both cases are excluded instead.
- SmaProfitStrategy.SimpleMovingAverageProfitStrategy1.Backtest: an entry
  price of None and one that is NaN are the same `None`. `handle_order`
  applied to a NaN close never trades in either case.
- EmaCrossoverStrategy.GenerateSignals: assumes closes without NaN. The
  adjust=False EMA over NaN (`ignore_na=False`) is not modelled.
- Window widths are natural numbers. Negative widths cannot be expressed.
- The backtester stores `data` and `initial_capital`, but a run uses
  neither beyond passing the data on, as in the source
  (`Backtester.RunIgnoresCapital`).

## Findings

| source | as written | input that shows it | evidently intended | confidence | as-written member | corrected member |
|---|---|---|---|---|---|---|
| strategies/donchian_atr_strategy.py:38-66 | the entry and exit channels are rolled over windows that include the current bar, so on any bar whose close lies within its own high and low neither buy nor sell can fire | any well-formed table, e.g. bars (t=0, o=h=l=c=1) and (t=1, o=1, h=3, l=1, c=3): the close 3 equals the channel 3, so no buy | channels over the previous bars (`shift(1)` before `rolling`, as `strategies/donchian_strategy.py:57-58` does), so that a close above the earlier highs buys | high; not executed | DonchianAtrStrategy.NeverSignals | DonchianAtrStrategy.LaggedSignalsAreBreakouts |
