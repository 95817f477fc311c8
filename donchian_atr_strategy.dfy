/**
 * `DonchianATRStrategy` of strategies/donchian_atr_strategy.py: a Donchian
 * breakout confirmed by a volatility filter (today's range against the
 * median ATR), an optional long-term trend filter and a momentum filter.
 *
 * As written, the channels include the current bar, so a close can never
 * lie above the entry high or below the exit low of a well-formed bar: the
 * strategy never signals. The lagged channels below (`shift(1)` before the
 * rolling window) are the breakout the strategy describes.
 */
module DonchianAtrStrategy {
  import opened Common
  import opened Series

  /** The constructor arguments; `smaTrend` is `None` when the trend filter is disabled. */
  datatype Params = Params(donchianEntry: nat, donchianExit: nat, atrPeriod: nat, atrMultEntry: real,
                           smaTrend: Option<nat>, smaMom: nat)

  function DefaultParams(): Params
  {
    Params(55, 20, 21, 1.0, Some(200), 10)
  }

  /** The window of the rolling median of the ATR. */
  const MedianWindow: nat := 50

  /** Every rolling window is at least 1 wide; pandas refuses a window below `min_periods=1`. */
  predicate ValidWindows(p: Params)
  {
    p.donchianEntry >= 1 && p.donchianExit >= 1 && p.atrPeriod >= 1 && p.smaMom >= 1 &&
    (p.smaTrend.Some? ==> p.smaTrend.value >= 1)
  }

  /** One output row: `buy`, `sell`, `atr`, `donchian_high_entry`, `donchian_low_exit`. */
  datatype SignalRow = SignalRow(buy: bool, sell: bool, atr: Option<real>,
                                 donchianHighEntry: Option<real>, donchianLowExit: Option<real>)

  // ---------------------------------------------------------------
  // Columns
  // ---------------------------------------------------------------

  /** `high.rolling(w, min_periods=1).max()`: includes the current bar. */
  function EntryHigh(bars: seq<Bar>, w: nat): (c: Column)
    requires w >= 1
    ensures |c| == |bars|
  {
    Rolling(Lift(Highs(bars)), w, 1, MaxOf)
  }

  /** `low.rolling(w, min_periods=1).min()`. */
  function ExitLow(bars: seq<Bar>, w: nat): (c: Column)
    requires w >= 1
    ensures |c| == |bars|
  {
    Rolling(Lift(Lows(bars)), w, 1, MinOf)
  }

  function AtrColumn(bars: seq<Bar>, w: nat): (c: Column)
    requires w >= 1
    ensures |c| == |bars|
  {
    Rolling(BarTrueRange(bars), w, 1, MeanOf)
  }

  function AtrMedian(bars: seq<Bar>, w: nat): (c: Column)
    requires w >= 1
    ensures |c| == |bars|
  {
    Rolling(AtrColumn(bars, w), MedianWindow, 1, MedianOf)
  }

  /** `close.rolling(w, min_periods=1).mean()`. */
  function CloseMean(bars: seq<Bar>, w: nat): (c: Column)
    requires w >= 1
    ensures |c| == |bars|
  {
    Rolling(Lift(Closes(bars)), w, 1, MeanOf)
  }

  // ---------------------------------------------------------------
  // Filters and signals
  // ---------------------------------------------------------------

  /** `vol_ok`: today's range above `atr_mult_entry` times the median ATR. */
  predicate VolOk(p: Params, bars: seq<Bar>, t: nat)
    requires ValidWindows(p) && t < |bars|
  {
    Gt(Some(bars[t].high - bars[t].low), Scale(p.atrMultEntry, AtrMedian(bars, p.atrPeriod)[t]))
  }

  /** `trend_long`: always true without a trend window, else close above its mean. */
  predicate TrendLong(p: Params, bars: seq<Bar>, t: nat)
    requires ValidWindows(p) && t < |bars|
  {
    match p.smaTrend
    case None => true
    case Some(w) => Gt(Some(bars[t].close), CloseMean(bars, w)[t])
  }

  /** `mom_ok`: close above its short mean. */
  predicate MomOk(p: Params, bars: seq<Bar>, t: nat)
    requires ValidWindows(p) && t < |bars|
  {
    Gt(Some(bars[t].close), CloseMean(bars, p.smaMom)[t])
  }

  /** The confirmations every breakout needs. */
  predicate Filters(p: Params, bars: seq<Bar>, t: nat)
    requires ValidWindows(p) && t < |bars|
  {
    VolOk(p, bars, t) && TrendLong(p, bars, t) && MomOk(p, bars, t)
  }

  /** `buy` as written: close above the entry high, with every filter; NaN gives false. */
  predicate BuyAt(p: Params, bars: seq<Bar>, t: nat)
    requires ValidWindows(p) && t < |bars|
  {
    Gt(Some(bars[t].close), EntryHigh(bars, p.donchianEntry)[t]) && Filters(p, bars, t)
  }

  /** `sell` as written: close below the exit low. */
  predicate SellAt(p: Params, bars: seq<Bar>, t: nat)
    requires ValidWindows(p) && t < |bars|
  {
    Lt(Some(bars[t].close), ExitLow(bars, p.donchianExit)[t])
  }

  function SignalRows(p: Params, bars: seq<Bar>): (rows: seq<SignalRow>)
    requires ValidWindows(p)
    ensures |rows| == |bars|
    ensures forall t :: 0 <= t < |bars| ==>
              rows[t] == SignalRow(BuyAt(p, bars, t), SellAt(p, bars, t), AtrColumn(bars, p.atrPeriod)[t],
                                   EntryHigh(bars, p.donchianEntry)[t], ExitLow(bars, p.donchianExit)[t])
  {
    seq(|bars|, t requires 0 <= t < |bars| =>
      SignalRow(BuyAt(p, bars, t), SellAt(p, bars, t), AtrColumn(bars, p.atrPeriod)[t],
                EntryHigh(bars, p.donchianEntry)[t], ExitLow(bars, p.donchianExit)[t]))
  }

  /**
   * `generate_signals`: the column assertion comes first, then pandas
   * refuses any rolling window narrower than `min_periods=1`.
   */
  function GenerateSignals(p: Params, frame: Frame): (r: Result<seq<SignalRow>>)
    ensures r.Ok? <==> {"high", "low", "close"} <= frame.columns && ValidWindows(p)
    ensures !({"high", "low", "close"} <= frame.columns) ==>
              r == Err(AssertionError("Data must contain high, low, close"))
    ensures {"high", "low", "close"} <= frame.columns && !ValidWindows(p) ==> r.Err? && r.error.ValueError?
    ensures r.Ok? ==> r.value == SignalRows(p, frame.bars)
  {
    if !({"high", "low", "close"} <= frame.columns) then Err(AssertionError("Data must contain high, low, close"))
    else if !ValidWindows(p) then Err(ValueError("min_periods 1 must be <= window"))
    else Ok(SignalRows(p, frame.bars))
  }

  // ---------------------------------------------------------------
  // What the signals say as written
  // ---------------------------------------------------------------

  /** The entry high at t is the highest high of the last min(t+1, w) bars, bar t included. */
  lemma EntryHighValue(bars: seq<Bar>, w: nat, t: nat)
    requires w >= 1 && t < |bars|
    ensures EntryHigh(bars, w)[t] == Some(Max(Highs(bars)[WinStart(t, w)..t + 1]))
    ensures EntryHigh(bars, w)[t].value >= bars[t].high
  {
    var hs := Highs(bars);
    PartialWindowLift(hs, w, MaxOf, t);
    var win := hs[WinStart(t, w)..t + 1];
    assert win[|win| - 1] == bars[t].high;
  }

  /** The exit low at t is the lowest low of the last min(t+1, w) bars, bar t included. */
  lemma ExitLowValue(bars: seq<Bar>, w: nat, t: nat)
    requires w >= 1 && t < |bars|
    ensures ExitLow(bars, w)[t] == Some(Min(Lows(bars)[WinStart(t, w)..t + 1]))
    ensures ExitLow(bars, w)[t].value <= bars[t].low
  {
    var ls := Lows(bars);
    PartialWindowLift(ls, w, MinOf, t);
    var win := ls[WinStart(t, w)..t + 1];
    assert win[|win| - 1] == bars[t].low;
  }

  /** On a bar whose close lies inside its range, neither signal can fire. */
  lemma NoSignalInsideRange(p: Params, bars: seq<Bar>, t: nat)
    requires ValidWindows(p) && t < |bars| && InRange(bars[t])
    ensures !BuyAt(p, bars, t) && !SellAt(p, bars, t)
  {
    EntryHighValue(bars, p.donchianEntry, t);
    ExitLowValue(bars, p.donchianExit, t);
  }

  /** Hence on well-formed bars `generate_signals` never buys and never sells. */
  lemma NeverSignals(p: Params, bars: seq<Bar>)
    requires ValidWindows(p) && AllInRange(bars)
    ensures forall t :: 0 <= t < |bars| ==> !SignalRows(p, bars)[t].buy && !SignalRows(p, bars)[t].sell
  {
    forall t | 0 <= t < |bars|
      ensures !SignalRows(p, bars)[t].buy && !SignalRows(p, bars)[t].sell
    {
      NoSignalInsideRange(p, bars, t);
    }
  }

  /** The ATR is the mean True Range of the last min(t+1, w) bars; at the first bar it is high-low. */
  lemma AtrValue(bars: seq<Bar>, w: nat, t: nat)
    requires w >= 1 && t < |bars|
    ensures AtrColumn(bars, w)[t] == Some(Mean(TrueRangeValues(bars)[WinStart(t, w)..t + 1]))
    ensures t == 0 ==> AtrColumn(bars, w)[0] == Some(bars[0].high - bars[0].low)
  {
    var tr := TrueRangeValues(bars);
    TrueRangeOfBars(bars);
    PartialWindowLift(tr, w, MeanOf, t);
    calc {
      AtrColumn(bars, w)[t];
      Rolling(BarTrueRange(bars), w, 1, MeanOf)[t];
      Rolling(Lift(tr), w, 1, MeanOf)[t];
    }
    if t == 0 {
      var first := tr[0..1];
      assert WinStart(0, w) == 0 && first[..0] == [];
      assert tr[0] == bars[0].high - bars[0].low;
      assert Sum(first) == tr[0];
      assert Mean(first) == tr[0];
    }
  }

  /** Without a trend window the trend filter passes; with one it is close above the mean of the last min(t+1, w) closes. */
  lemma TrendFilterValue(p: Params, bars: seq<Bar>, t: nat)
    requires ValidWindows(p) && t < |bars|
    ensures p.smaTrend.None? ==> TrendLong(p, bars, t)
    ensures p.smaTrend.Some? ==>
              (TrendLong(p, bars, t) <==>
               bars[t].close > Mean(Closes(bars)[WinStart(t, p.smaTrend.value)..t + 1]))
  {
    if p.smaTrend.Some? {
      PartialWindowLift(Closes(bars), p.smaTrend.value, MeanOf, t);
    }
  }

  /** The momentum filter is close above the mean of the last min(t+1, smaMom) closes. */
  lemma MomentumFilterValue(p: Params, bars: seq<Bar>, t: nat)
    requires ValidWindows(p) && t < |bars|
    ensures MomOk(p, bars, t) <==> bars[t].close > Mean(Closes(bars)[WinStart(t, p.smaMom)..t + 1])
  {
    PartialWindowLift(Closes(bars), p.smaMom, MeanOf, t);
  }

  // ---------------------------------------------------------------
  // The breakout over the previous bars
  // ---------------------------------------------------------------

  /** `high.shift(1).rolling(w, min_periods=1).max()`: the channel over the bars before t. */
  function PriorEntryHigh(bars: seq<Bar>, w: nat): (c: Column)
    requires w >= 1
    ensures |c| == |bars|
  {
    Rolling(Shift(Lift(Highs(bars))), w, 1, MaxOf)
  }

  function PriorExitLow(bars: seq<Bar>, w: nat): (c: Column)
    requires w >= 1
    ensures |c| == |bars|
  {
    Rolling(Shift(Lift(Lows(bars))), w, 1, MinOf)
  }

  predicate LaggedBuyAt(p: Params, bars: seq<Bar>, t: nat)
    requires ValidWindows(p) && t < |bars|
  {
    Gt(Some(bars[t].close), PriorEntryHigh(bars, p.donchianEntry)[t]) && Filters(p, bars, t)
  }

  predicate LaggedSellAt(p: Params, bars: seq<Bar>, t: nat)
    requires ValidWindows(p) && t < |bars|
  {
    Lt(Some(bars[t].close), PriorExitLow(bars, p.donchianExit)[t])
  }

  /** The signals with lagged channels; the other columns are unchanged. */
  function LaggedSignalRows(p: Params, bars: seq<Bar>): (rows: seq<SignalRow>)
    requires ValidWindows(p)
    ensures |rows| == |bars|
    ensures forall t :: 0 <= t < |bars| ==>
              rows[t] == SignalRow(LaggedBuyAt(p, bars, t), LaggedSellAt(p, bars, t), AtrColumn(bars, p.atrPeriod)[t],
                                   PriorEntryHigh(bars, p.donchianEntry)[t], PriorExitLow(bars, p.donchianExit)[t])
  {
    seq(|bars|, t requires 0 <= t < |bars| =>
      SignalRow(LaggedBuyAt(p, bars, t), LaggedSellAt(p, bars, t), AtrColumn(bars, p.atrPeriod)[t],
                PriorEntryHigh(bars, p.donchianEntry)[t], PriorExitLow(bars, p.donchianExit)[t]))
  }

  /**
   * With lagged channels a buy is exactly a close above the highest high of
   * the previous min(t, w) bars, confirmed by the filters; a sell is a close
   * below the lowest low of the previous min(t, w) bars. Neither fires at bar 0.
   */
  lemma LaggedSignalsAreBreakouts(p: Params, bars: seq<Bar>, t: nat)
    requires ValidWindows(p) && t < |bars|
    ensures LaggedBuyAt(p, bars, t) <==>
              t > 0 && bars[t].close > Max(Highs(bars)[WinStart(t - 1, p.donchianEntry)..t]) && Filters(p, bars, t)
    ensures LaggedSellAt(p, bars, t) <==>
              t > 0 && bars[t].close < Min(Lows(bars)[WinStart(t - 1, p.donchianExit)..t])
  {
    LaggedPartialWindowLift(Highs(bars), p.donchianEntry, MaxOf, t);
    LaggedPartialWindowLift(Lows(bars), p.donchianExit, MinOf, t);
  }

  /**
   * The lagged channel can be broken by a well-formed bar: a bar closing
   * at its high of 3 after a bar whose high is 1.
   */
  lemma LaggedBreakoutPossible(w: nat)
    requires w >= 1
    ensures var bars := [Bar(0, 1.0, 1.0, 1.0, 1.0, 0.0), Bar(1, 1.0, 3.0, 1.0, 3.0, 0.0)];
            AllInRange(bars) && Gt(Some(bars[1].close), PriorEntryHigh(bars, w)[1]) &&
            !Gt(Some(bars[1].close), EntryHigh(bars, w)[1])
  {
    var bars := [Bar(0, 1.0, 1.0, 1.0, 1.0, 0.0), Bar(1, 1.0, 3.0, 1.0, 3.0, 0.0)];
    LaggedPartialWindowLift(Highs(bars), w, MaxOf, 1);
    assert Highs(bars)[WinStart(0, w)..1] == [1.0];
    assert Max([1.0]) == 1.0;
    EntryHighValue(bars, w, 1);
  }
}


