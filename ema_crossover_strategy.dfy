/**
 * `EMAcrossoverStrategy` of strategies/ema_crossover_strategy.py: buy on an
 * upward crossing of a short exponential moving average (`adjust=False`)
 * over a long one; never sell; report a 14-bar ATR for sizing.
 */
module EmaCrossoverStrategy {
  import opened Common
  import opened Series
  import opened Ewm

  const DefaultShortSpan: int := 8
  const DefaultLongSpan: int := 21
  const AtrWindow: nat := 14

  /** One output row: `buy`, `sell`, `ema_short`, `ema_long`, `atr`. */
  datatype SignalRow = SignalRow(buy: bool, sell: bool, emaShort: real, emaLong: real, atr: Option<real>)

  /** `close.ewm(span, adjust=False).mean()`. */
  function EmaColumn(bars: seq<Bar>, span: nat): (r: seq<real>)
    requires span >= 1
    ensures |r| == |bars|
  {
    EmaRecursive(Closes(bars), Alpha(span))
  }

  /** `tr.rolling(14).mean()`: NaN until 14 bars exist. */
  function AtrColumn(bars: seq<Bar>): (r: Column)
    ensures |r| == |bars|
  {
    Rolling(BarTrueRange(bars), AtrWindow, AtrWindow, MeanOf)
  }

  /** `(s > l) & (s.shift(1) <= l.shift(1))`, NaN comparing false; `fillna` changes nothing. */
  predicate CrossesAbove(s: seq<real>, l: seq<real>, t: nat)
    requires t < |s| == |l|
  {
    Gt(Lift(s)[t], Lift(l)[t]) && Le(Shift(Lift(s))[t], Shift(Lift(l))[t])
  }

  function SignalRows(shortSpan: nat, longSpan: nat, bars: seq<Bar>): (rows: seq<SignalRow>)
    requires shortSpan >= 1 && longSpan >= 1
    ensures |rows| == |bars|
    ensures forall t :: 0 <= t < |bars| ==> !rows[t].sell
    ensures forall t :: 0 <= t < |bars| ==>
              rows[t].buy == CrossesAbove(EmaColumn(bars, shortSpan), EmaColumn(bars, longSpan), t) &&
              rows[t].emaShort == EmaColumn(bars, shortSpan)[t] &&
              rows[t].emaLong == EmaColumn(bars, longSpan)[t] &&
              rows[t].atr == AtrColumn(bars)[t]
  {
    var s := EmaColumn(bars, shortSpan);
    var l := EmaColumn(bars, longSpan);
    var atr := AtrColumn(bars);
    seq(|bars|, t requires 0 <= t < |bars| => SignalRow(CrossesAbove(s, l, t), false, s[t], l[t], atr[t]))
  }

  /**
   * `generate_signals`: `close` is read first, then both spans are checked
   * by `ewm` (pandas refuses a span below 1), then `high` and `low` are read.
   */
  function GenerateSignals(shortSpan: int, longSpan: int, frame: Frame): (r: Result<seq<SignalRow>>)
    ensures r.Ok? <==> shortSpan >= 1 && longSpan >= 1 &&
                       "close" in frame.columns && "high" in frame.columns && "low" in frame.columns
    ensures "close" !in frame.columns ==> r == Err(KeyError("close"))
    ensures "close" in frame.columns && (shortSpan < 1 || longSpan < 1) ==> r.Err? && r.error.ValueError?
    ensures r.Ok? ==> r.value == SignalRows(shortSpan, longSpan, frame.bars)
  {
    if "close" !in frame.columns then Err(KeyError("close"))
    else if shortSpan < 1 || longSpan < 1 then Err(ValueError("span must satisfy: span >= 1"))
    else if "high" !in frame.columns then Err(KeyError("high"))
    else if "low" !in frame.columns then Err(KeyError("low"))
    else Ok(SignalRows(shortSpan, longSpan, frame.bars))
  }

  // ---------------------------------------------------------------
  // Lemmas
  // ---------------------------------------------------------------

  /** A crossing is exactly "above now, not above on the previous bar": never at bar 0, where the shifted values are NaN. */
  lemma CrossesAboveValues(s: seq<real>, l: seq<real>, t: nat)
    requires t < |s| == |l|
    ensures CrossesAbove(s, l, t) <==> t > 0 && s[t] > l[t] && s[t - 1] <= l[t - 1]
  {
    if t > 0 {
      assert Shift(Lift(s))[t] == Some(s[t - 1]) && Shift(Lift(l))[t] == Some(l[t - 1]);
    }
  }

  /** No two consecutive bars are buy bars. */
  lemma NoConsecutiveBuys(shortSpan: nat, longSpan: nat, bars: seq<Bar>, t: nat)
    requires shortSpan >= 1 && longSpan >= 1 && t + 1 < |bars|
    requires SignalRows(shortSpan, longSpan, bars)[t].buy
    ensures !SignalRows(shortSpan, longSpan, bars)[t + 1].buy
  {
    var s, l := EmaColumn(bars, shortSpan), EmaColumn(bars, longSpan);
    CrossesAboveValues(s, l, t);
    CrossesAboveValues(s, l, t + 1);
  }

  /**
   * The average follows the `adjust=False` recursion with
   * alpha = 2 / (span + 1), seeded by the first close.
   */
  lemma EmaColumnRecur(bars: seq<Bar>, span: nat, t: nat)
    requires span >= 1 && t < |bars|
    ensures t == 0 ==> EmaColumn(bars, span)[0] == bars[0].close
    ensures t > 0 ==> EmaColumn(bars, span)[t] ==
                      Blend(Alpha(span), bars[t].close, EmaColumn(bars, span)[t - 1])
  {
    EmaRecurrence(Closes(bars), Alpha(span), t);
  }

  /** The average at bar t lies between the smallest and the largest close up to t. */
  lemma EmaWithinCloses(bars: seq<Bar>, span: nat, t: nat)
    requires span >= 1 && t < |bars|
    ensures exists i :: 0 <= i <= t && bars[i].close <= EmaColumn(bars, span)[t]
    ensures exists i :: 0 <= i <= t && EmaColumn(bars, span)[t] <= bars[i].close
  {
    var cs := Closes(bars);
    var lo, hi := MinIndex(cs, t), MaxIndex(cs, t);
    EmaRecursiveWithin(cs, Alpha(span), cs[lo], cs[hi], t);
  }

  /**
   * The ATR is NaN for the first 13 bars and afterwards the mean True Range
   * of the last 14 bars, where the first bar's True Range is its high-low.
   */
  lemma AtrAt(bars: seq<Bar>, t: nat)
    requires t < |bars|
    ensures t + 1 < AtrWindow ==> AtrColumn(bars)[t].None?
    ensures t + 1 >= AtrWindow ==> AtrColumn(bars)[t] == Some(Mean(TrueRangeValues(bars)[t + 1 - AtrWindow..t + 1]))
  {
    var tr := TrueRangeValues(bars);
    TrueRangeOfBars(bars);
    FullWindowLift(tr, AtrWindow, MeanOf, t);
    calc {
      AtrColumn(bars)[t];
      Rolling(BarTrueRange(bars), AtrWindow, AtrWindow, MeanOf)[t];
      Rolling(Lift(tr), AtrWindow, AtrWindow, MeanOf)[t];
    }
  }
}


