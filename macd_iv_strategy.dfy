/**
 * `MACDVolatilityStrategy` of strategies/macd_iv_strategy.py: a MACD
 * crossing state combined with 20/50-bar moving-average trend filters and
 * a volatility filter (a 14-bar high-low range above its 50-bar median).
 *
 * `generate_signals` writes its intermediate columns into the frame it is
 * given rather than into a copy; the frame is a class here and the method
 * states what it leaves behind, including after a missing column.
 */
module MacdIvStrategy {
  import opened Common
  import opened Series
  import opened Ewm

  const FastSpan: nat := 12
  const SlowSpan: nat := 26
  const SignalSpan: nat := 9
  const RangeWindow: nat := 14
  const FastSma: nat := 20
  const SlowSma: nat := 50
  const MedianWindow: nat := 50

  // ---------------------------------------------------------------
  // Columns
  // ---------------------------------------------------------------

  /** `close.ewm(span).mean()` with the pandas default `adjust=True`. */
  function CloseEma(bars: seq<Bar>, span: nat): (r: seq<real>)
    requires span >= 1
    ensures |r| == |bars|
  {
    EmaAdjusted(Closes(bars), Alpha(span))
  }

  /** `fast - slow`. */
  function Macd(bars: seq<Bar>): (r: seq<real>)
    ensures |r| == |bars|
  {
    var fast, slow := CloseEma(bars, FastSpan), CloseEma(bars, SlowSpan);
    seq(|bars|, t requires 0 <= t < |bars| => fast[t] - slow[t])
  }

  /** `macd.ewm(span=9).mean()`. */
  function SignalLine(bars: seq<Bar>): (r: seq<real>)
    ensures |r| == |bars|
  {
    EmaAdjusted(Macd(bars), Alpha(SignalSpan))
  }

  /** `(macd > signal).astype(int)`. */
  function MacdCross(bars: seq<Bar>): (r: seq<int>)
    ensures |r| == |bars|
    ensures forall t :: 0 <= t < |bars| ==> (r[t] == 1 <==> Macd(bars)[t] > SignalLine(bars)[t])
    ensures forall t :: 0 <= t < |bars| ==> (r[t] == 0 <==> Macd(bars)[t] <= SignalLine(bars)[t])
  {
    var m, s := Macd(bars), SignalLine(bars);
    seq(|bars|, t requires 0 <= t < |bars| => if m[t] > s[t] then 1 else 0)
  }

  /** `high.rolling(14).max()`. */
  function HighestHigh(bars: seq<Bar>): (r: Column)
    ensures |r| == |bars|
  {
    Rolling(Lift(Highs(bars)), RangeWindow, RangeWindow, MaxOf)
  }

  /** `low.rolling(14).min()`. */
  function LowestLow(bars: seq<Bar>): (r: Column)
    ensures |r| == |bars|
  {
    Rolling(Lift(Lows(bars)), RangeWindow, RangeWindow, MinOf)
  }

  /** The "atr" column: the 14-bar highest high minus the 14-bar lowest low. */
  function RangeAtr(bars: seq<Bar>): (r: Column)
    ensures |r| == |bars|
    ensures forall t :: 0 <= t < |bars| ==> r[t] == Minus(HighestHigh(bars)[t], LowestLow(bars)[t])
  {
    var hi, lo := HighestHigh(bars), LowestLow(bars);
    seq(|bars|, t requires 0 <= t < |bars| => Minus(hi[t], lo[t]))
  }

  /** `atr.rolling(50).median()`. */
  function AtrMedian(bars: seq<Bar>): (r: Column)
    ensures |r| == |bars|
  {
    Rolling(RangeAtr(bars), MedianWindow, MedianWindow, MedianOf)
  }

  /** `close.rolling(w).mean()`: full windows only. */
  function Sma(bars: seq<Bar>, w: nat): (r: Column)
    requires w >= 1
    ensures |r| == |bars|
  {
    Rolling(Lift(Closes(bars)), w, w, MeanOf)
  }

  predicate BuyAt(bars: seq<Bar>, t: nat)
    requires t < |bars|
  {
    var close := Some(bars[t].close);
    MacdCross(bars)[t] == 1 && Gt(close, Sma(bars, FastSma)[t]) &&
    Gt(Sma(bars, FastSma)[t], Sma(bars, SlowSma)[t]) && Gt(RangeAtr(bars)[t], AtrMedian(bars)[t])
  }

  predicate SellAt(bars: seq<Bar>, t: nat)
    requires t < |bars|
  {
    var close := Some(bars[t].close);
    MacdCross(bars)[t] == 0 && Lt(close, Sma(bars, FastSma)[t]) &&
    Lt(Sma(bars, FastSma)[t], Sma(bars, SlowSma)[t]) && Gt(RangeAtr(bars)[t], AtrMedian(bars)[t])
  }

  function BuyColumn(bars: seq<Bar>): (r: seq<bool>)
    ensures |r| == |bars| && forall t :: 0 <= t < |bars| ==> r[t] == BuyAt(bars, t)
  {
    seq(|bars|, t requires 0 <= t < |bars| => BuyAt(bars, t))
  }

  function SellColumn(bars: seq<Bar>): (r: seq<bool>)
    ensures |r| == |bars| && forall t :: 0 <= t < |bars| ==> r[t] == SellAt(bars, t)
  {
    seq(|bars|, t requires 0 <= t < |bars| => SellAt(bars, t))
  }

  // ---------------------------------------------------------------
  // Lemmas on the columns
  // ---------------------------------------------------------------

  /** Both averages are seeded by the first close, so MACD equals its signal line at bar 0: no cross there. */
  lemma FirstCrossIsZero(bars: seq<Bar>)
    requires |bars| > 0
    ensures Macd(bars)[0] == SignalLine(bars)[0]
    ensures MacdCross(bars)[0] == 0
  {
    EmaFirst(Closes(bars), Alpha(FastSpan));
    EmaFirst(Closes(bars), Alpha(SlowSpan));
    EmaFirst(Macd(bars), Alpha(SignalSpan));
  }

  /**
   * The range column is defined from bar 13 on, where it is the 14-bar
   * highest high minus the 14-bar lowest low (`ChannelAt`); it is never
   * negative when bar t is well formed.
   */
  lemma RangeAtrValue(bars: seq<Bar>, t: nat)
    requires t < |bars|
    ensures RangeAtr(bars)[t].Some? <==> t + 1 >= RangeWindow
    ensures t + 1 >= RangeWindow && InRange(bars[t]) ==> RangeAtr(bars)[t].value >= 0.0
  {
    ChannelAt(bars, t);
    var hi, lo := HighestHigh(bars)[t], LowestLow(bars)[t];
    assert RangeAtr(bars)[t] == Minus(hi, lo);
  }

  /** The 14-bar highest high and lowest low: NaN before 14 bars, and they bracket bar t. */
  lemma ChannelAt(bars: seq<Bar>, t: nat)
    requires t < |bars|
    ensures t + 1 < RangeWindow ==> HighestHigh(bars)[t].None? && LowestLow(bars)[t].None?
    ensures t + 1 >= RangeWindow ==>
              HighestHigh(bars)[t] == Some(Max(Highs(bars)[t + 1 - RangeWindow..t + 1])) &&
              LowestLow(bars)[t] == Some(Min(Lows(bars)[t + 1 - RangeWindow..t + 1])) &&
              bars[t].high <= HighestHigh(bars)[t].value && LowestLow(bars)[t].value <= bars[t].low
  {
    FullWindowLift(Highs(bars), RangeWindow, MaxOf, t);
    FullWindowLift(Lows(bars), RangeWindow, MinOf, t);
    if t + 1 >= RangeWindow {
      var hs := Highs(bars)[t + 1 - RangeWindow..t + 1];
      var ls := Lows(bars)[t + 1 - RangeWindow..t + 1];
      assert hs[|hs| - 1] == bars[t].high && ls[|ls| - 1] == bars[t].low;
    }
  }

  /** The median of the range is defined only where 50 defined ranges end, i.e. from bar 62 on. */
  lemma AtrMedianDefined(bars: seq<Bar>, t: nat)
    requires t < |bars| && AtrMedian(bars)[t].Some?
    ensures t + 2 >= RangeWindow + MedianWindow
  {
    FullWindowDefined(RangeAtr(bars), MedianWindow, MedianOf, t);
    RangeAtrValue(bars, t + 1 - MedianWindow);
  }

  /**
   * A bar is never both a buy and a sell bar, and neither fires before the
   * volatility median exists (bar 62) or before the 50-bar average exists.
   */
  lemma SignalsExclusiveAndLate(bars: seq<Bar>, t: nat)
    requires t < |bars|
    ensures !(BuyAt(bars, t) && SellAt(bars, t))
    ensures BuyAt(bars, t) || SellAt(bars, t) ==>
              t + 2 >= RangeWindow + MedianWindow && Sma(bars, SlowSma)[t].Some?
    ensures BuyAt(bars, t) || SellAt(bars, t) ==>
              RangeAtr(bars)[t].Some? && AtrMedian(bars)[t].Some? &&
              RangeAtr(bars)[t].value > AtrMedian(bars)[t].value
  {
    if BuyAt(bars, t) || SellAt(bars, t) {
      AtrMedianDefined(bars, t);
    }
  }

  // ---------------------------------------------------------------
  // The frame generate_signals writes into
  // ---------------------------------------------------------------

  /** A derived column: integers, reals with NaN, or booleans. */
  datatype Derived = Ints(ints: seq<int>) | Reals(values: Column) | Flags(flags: seq<bool>)

  datatype SignalPair = SignalPair(buy: bool, sell: bool)

  function Pairs(bars: seq<Bar>): (r: seq<SignalPair>)
    ensures |r| == |bars|
    ensures forall t :: 0 <= t < |bars| ==> r[t] == SignalPair(BuyAt(bars, t), SellAt(bars, t))
  {
    seq(|bars|, t requires 0 <= t < |bars| => SignalPair(BuyAt(bars, t), SellAt(bars, t)))
  }

  /** The names `generate_signals` writes on success. */
  const DerivedNames: set<string> := {"macd_cross", "atr", "sma_50", "sma_20", "buy", "sell"}

  /**
   * The caller's frame: the columns it was given, its bars and the
   * columns written into it since.
   */
  class DataFrame {
    const columns: set<string>
    const bars: seq<Bar>
    var added: map<string, Derived>

    constructor (columns: set<string>, bars: seq<Bar>)
      ensures this.columns == columns && this.bars == bars && added == map[]
    {
      this.columns := columns;
      this.bars := bars;
      added := map[];
    }
  }

  /**
   * `generate_signals`: `close` is read first; `macd_cross` is written
   * before `high` and `low` are read, so a frame lacking either keeps that
   * one new column. On success six columns are written and only `buy` and
   * `sell` are returned.
   */
  method GenerateSignals(df: DataFrame) returns (r: Result<seq<SignalPair>>)
    modifies df
    ensures "close" !in df.columns ==> r == Err(KeyError("close")) && df.added == old(df.added)
    ensures "close" in df.columns && "high" !in df.columns ==>
              r == Err(KeyError("high")) && df.added == old(df.added)["macd_cross" := Ints(MacdCross(df.bars))]
    ensures "close" in df.columns && "high" in df.columns && "low" !in df.columns ==>
              r == Err(KeyError("low")) && df.added == old(df.added)["macd_cross" := Ints(MacdCross(df.bars))]
    ensures r.Ok? <==> {"close", "high", "low"} <= df.columns
    ensures r.Ok? ==>
              r.value == Pairs(df.bars) &&
              df.added.Keys == old(df.added).Keys + DerivedNames &&
              (forall k :: k in old(df.added) && k !in DerivedNames ==> df.added[k] == old(df.added)[k]) &&
              df.added["macd_cross"] == Ints(MacdCross(df.bars)) &&
              df.added["atr"] == Reals(RangeAtr(df.bars)) &&
              df.added["sma_50"] == Reals(Sma(df.bars, SlowSma)) &&
              df.added["sma_20"] == Reals(Sma(df.bars, FastSma)) &&
              df.added["buy"] == Flags(BuyColumn(df.bars)) &&
              df.added["sell"] == Flags(SellColumn(df.bars))
  {
    if "close" !in df.columns {
      return Err(KeyError("close"));
    }
    var bars := df.bars;
    var cross := MacdCross(bars);
    df.added := df.added["macd_cross" := Ints(cross)];
    if "high" !in df.columns {
      return Err(KeyError("high"));
    }
    if "low" !in df.columns {
      return Err(KeyError("low"));
    }
    var atr, slow, fast := RangeAtr(bars), Sma(bars, SlowSma), Sma(bars, FastSma);
    var buy, sell := BuyColumn(bars), SellColumn(bars);
    var before := df.added;
    df.added := before["atr" := Reals(atr)]["sma_50" := Reals(slow)]["sma_20" := Reals(fast)]
                      ["buy" := Flags(buy)]["sell" := Flags(sell)];
    r := Ok(Pairs(df.bars));
  }
}
