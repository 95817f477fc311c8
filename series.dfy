/**
 * pandas column semantics over exact reals.
 *
 * A column is a sequence aligned with the bars; `None` is NaN. Arithmetic
 * with NaN gives NaN, comparisons with NaN are false, row-wise `max` skips
 * NaN, and a rolling aggregate over a window is defined when the window
 * holds at least `min_periods` present values.
 */
module Series {
  import opened Common

  type Column = seq<Option<real>>

  function Lift(xs: seq<real>): (c: Column)
    ensures |c| == |xs|
    ensures forall i :: 0 <= i < |xs| ==> c[i] == Some(xs[i])
  {
    seq(|xs|, i requires 0 <= i < |xs| => Some(xs[i]))
  }

  function Highs(bars: seq<Bar>): (r: seq<real>)
    ensures |r| == |bars| && forall i :: 0 <= i < |bars| ==> r[i] == bars[i].high
  {
    seq(|bars|, i requires 0 <= i < |bars| => bars[i].high)
  }

  function Lows(bars: seq<Bar>): (r: seq<real>)
    ensures |r| == |bars| && forall i :: 0 <= i < |bars| ==> r[i] == bars[i].low
  {
    seq(|bars|, i requires 0 <= i < |bars| => bars[i].low)
  }

  function Closes(bars: seq<Bar>): (r: seq<real>)
    ensures |r| == |bars| && forall i :: 0 <= i < |bars| ==> r[i] == bars[i].close
  {
    seq(|bars|, i requires 0 <= i < |bars| => bars[i].close)
  }

  // ---------------------------------------------------------------
  // Element-wise operations with NaN semantics
  // ---------------------------------------------------------------

  predicate Gt(a: Option<real>, b: Option<real>) { a.Some? && b.Some? && a.value > b.value }
  predicate Lt(a: Option<real>, b: Option<real>) { a.Some? && b.Some? && a.value < b.value }
  predicate Ge(a: Option<real>, b: Option<real>) { a.Some? && b.Some? && a.value >= b.value }
  predicate Le(a: Option<real>, b: Option<real>) { a.Some? && b.Some? && a.value <= b.value }

  function Minus(a: Option<real>, b: Option<real>): Option<real>
  {
    if a.Some? && b.Some? then Some(a.value - b.value) else None
  }

  function Scale(k: real, a: Option<real>): Option<real>
  {
    if a.Some? then Some(k * a.value) else None
  }

  function Abs(x: real): real { if x < 0.0 then -x else x }

  function AbsOpt(a: Option<real>): Option<real>
  {
    if a.Some? then Some(Abs(a.value)) else None
  }

  /** `shift(1)`: every value moves one row down and the first row becomes NaN. */
  function Shift<T>(xs: seq<Option<T>>): (r: seq<Option<T>>)
    ensures |r| == |xs|
    ensures |xs| > 0 ==> r[0] == None
    ensures forall t :: 0 < t < |xs| ==> r[t] == xs[t - 1]
  {
    if xs == [] then [] else [None] + xs[..|xs| - 1]
  }

  // ---------------------------------------------------------------
  // Reductions over present values
  // ---------------------------------------------------------------

  /** The non-missing values of `s`, in order. */
  function Present(s: seq<Option<real>>): (r: seq<real>)
    ensures |r| <= |s|
    decreases |s|
  {
    if s == [] then []
    else Present(s[..|s| - 1]) + (if s[|s| - 1].Some? then [s[|s| - 1].value] else [])
  }

  function Sum(s: seq<real>): real
    decreases |s|
  {
    if s == [] then 0.0 else Sum(s[..|s| - 1]) + s[|s| - 1]
  }

  function Mean(s: seq<real>): real
    requires |s| > 0
  {
    Sum(s) / (|s| as real)
  }

  function Max(s: seq<real>): (m: real)
    requires |s| > 0
    ensures exists i :: 0 <= i < |s| && s[i] == m
    ensures forall i :: 0 <= i < |s| ==> s[i] <= m
    decreases |s|
  {
    if |s| == 1 then s[0]
    else
      var m := Max(s[1..]);
      assert forall i :: 1 <= i < |s| ==> s[i] == s[1..][i - 1];
      if s[0] > m then s[0] else m
  }

  function Min(s: seq<real>): (m: real)
    requires |s| > 0
    ensures exists i :: 0 <= i < |s| && s[i] == m
    ensures forall i :: 0 <= i < |s| ==> m <= s[i]
    decreases |s|
  {
    if |s| == 1 then s[0]
    else
      var m := Min(s[1..]);
      assert forall i :: 1 <= i < |s| ==> s[i] == s[1..][i - 1];
      if s[0] < m then s[0] else m
  }

  function Insert(x: real, s: seq<real>): (r: seq<real>)
    ensures |r| == |s| + 1
  {
    if s == [] || x <= s[0] then [x] + s else [s[0]] + Insert(x, s[1..])
  }

  function SortAscending(s: seq<real>): (r: seq<real>)
    ensures |r| == |s|
  {
    if s == [] then [] else Insert(s[0], SortAscending(s[1..]))
  }

  /** pandas `median`: the middle value, or the mean of the two middle values. */
  function Median(s: seq<real>): real
    requires |s| > 0
  {
    var r := SortAscending(s);
    if |s| % 2 == 1 then r[|s| / 2] else (r[|s| / 2 - 1] + r[|s| / 2]) / 2.0
  }

  /** Row-wise `max(axis=1)`, which skips NaN and is NaN only when the whole row is. */
  function MaxPresent(s: seq<Option<real>>): Option<real>
  {
    var p := Present(s);
    if p == [] then None else Some(Max(p))
  }

  // ---------------------------------------------------------------
  // Rolling windows
  // ---------------------------------------------------------------

  datatype Agg = MeanOf | MaxOf | MinOf | MedianOf

  function Apply(a: Agg, s: seq<real>): real
    requires |s| > 0
  {
    match a
    case MeanOf => Mean(s)
    case MaxOf => Max(s)
    case MinOf => Min(s)
    case MedianOf => Median(s)
  }

  /** First row of the window of width `w` that ends at row `t`. */
  function WinStart(t: nat, w: nat): nat
  {
    if t + 1 >= w then t + 1 - w else 0
  }

  function Window<T>(xs: seq<T>, t: nat, w: nat): seq<T>
    requires t < |xs|
  {
    xs[WinStart(t, w)..t + 1]
  }

  function AggAt(vals: seq<real>, minPeriods: nat, a: Agg): Option<real>
    requires minPeriods >= 1
  {
    if |vals| >= minPeriods then Some(Apply(a, vals)) else None
  }

  /**
   * `xs.rolling(w, min_periods=minPeriods).<agg>()`; pandas' default
   * `min_periods` is the window width itself.
   */
  function Rolling(xs: Column, w: nat, minPeriods: nat, a: Agg): (r: Column)
    requires minPeriods >= 1
    ensures |r| == |xs|
  {
    seq(|xs|, t requires 0 <= t < |xs| => AggAt(Present(Window(xs, t, w)), minPeriods, a))
  }

  /** True Range per row: the largest of high-low, |high-prev close|, |low-prev close|, skipping NaN. */
  function TrueRange(high: Column, low: Column, close: Column): (tr: Column)
    requires |high| == |low| == |close|
    ensures |tr| == |high|
  {
    var pc := Shift(close);
    seq(|high|, t requires 0 <= t < |high| =>
      MaxPresent([Minus(high[t], low[t]), AbsOpt(Minus(high[t], pc[t])), AbsOpt(Minus(low[t], pc[t]))]))
  }

  function BarTrueRange(bars: seq<Bar>): (tr: Column)
    ensures |tr| == |bars|
  {
    TrueRange(Lift(Highs(bars)), Lift(Lows(bars)), Lift(Closes(bars)))
  }

  /** The True Range of bar `t` written out over exact reals. */
  function TrueRangeValue(bars: seq<Bar>, t: nat): real
    requires t < |bars|
  {
    var b := bars[t];
    if t == 0 then b.high - b.low
    else
      var pc := bars[t - 1].close;
      Max([b.high - b.low, Abs(b.high - pc), Abs(b.low - pc)])
  }

  function TrueRangeValues(bars: seq<Bar>): (r: seq<real>)
    ensures |r| == |bars|
  {
    seq(|bars|, t requires 0 <= t < |bars| => TrueRangeValue(bars, t))
  }

  // ---------------------------------------------------------------
  // Lemmas
  // ---------------------------------------------------------------

  lemma {:induction false} PresentAll(s: seq<Option<real>>)
    ensures |Present(s)| == |s| <==> forall i :: 0 <= i < |s| ==> s[i].Some?
    decreases |s|
  {
    if s != [] {
      var init := s[..|s| - 1];
      PresentAll(init);
      assert (forall i :: 0 <= i < |s| ==> s[i].Some?) <==>
             (forall i :: 0 <= i < |init| ==> init[i].Some?) && s[|s| - 1].Some?;
    }
  }

  lemma {:induction false} PresentLift(xs: seq<real>)
    ensures Present(Lift(xs)) == xs
    decreases |xs|
  {
    if xs != [] {
      var init := xs[..|xs| - 1];
      assert Lift(xs)[..|xs| - 1] == Lift(init);
      PresentLift(init);
      assert xs == init + [xs[|xs| - 1]];
    }
  }

  lemma LiftSlice(xs: seq<real>, a: nat, b: nat)
    requires a <= b <= |xs|
    ensures Lift(xs)[a..b] == Lift(xs[a..b])
  {
  }

  /** Every present value of `s` is among `Present(s)`. */
  lemma {:induction false} PresentHas(s: seq<Option<real>>, i: nat)
    requires i < |s| && s[i].Some?
    ensures s[i].value in Present(s)
    decreases |s|
  {
    if i < |s| - 1 {
      var init := s[..|s| - 1];
      assert init[i] == s[i];
      PresentHas(init, i);
    }
  }

  /** Every value of `Present(s)` is the value of some present element of `s`. */
  lemma {:induction false} PresentFrom(s: seq<Option<real>>, x: real)
    requires x in Present(s)
    ensures exists i :: 0 <= i < |s| && s[i] == Some(x)
    decreases |s|
  {
    var init := s[..|s| - 1];
    if x in Present(init) {
      PresentFrom(init, x);
      var i :| 0 <= i < |init| && init[i] == Some(x);
      assert s[i] == Some(x);
    } else {
      assert s[|s| - 1] == Some(x);
    }
  }

  lemma WindowLength(t: nat, w: nat)
    requires w >= 1
    ensures t + 1 - WinStart(t, w) == if t + 1 < w then t + 1 else w
  {
  }

  /**
   * A rolling aggregate with the default `min_periods` (the full width) is
   * defined exactly when `w` rows exist up to `t` and none of them is NaN.
   */
  lemma FullWindowDefined(xs: Column, w: nat, a: Agg, t: nat)
    requires w >= 1 && t < |xs|
    ensures Rolling(xs, w, w, a)[t].Some? <==>
            t + 1 >= w && forall j :: t + 1 - w <= j <= t ==> xs[j].Some?
  {
    var win := Window(xs, t, w);
    PresentAll(win);
    if t + 1 >= w {
      assert forall j :: t + 1 - w <= j <= t ==> xs[j] == win[j - (t + 1 - w)];
    }
  }

  /**
   * With `min_periods=1` over a column without NaN, row `t` aggregates the
   * last min(t+1, w) values.
   */
  lemma PartialWindowLift(xs: seq<real>, w: nat, a: Agg, t: nat)
    requires w >= 1 && t < |xs|
    ensures |xs[WinStart(t, w)..t + 1]| == if t + 1 < w then t + 1 else w
    ensures Rolling(Lift(xs), w, 1, a)[t] == Some(Apply(a, xs[WinStart(t, w)..t + 1]))
  {
    LiftSlice(xs, WinStart(t, w), t + 1);
    PresentLift(xs[WinStart(t, w)..t + 1]);
  }

  /**
   * With the default `min_periods` over a column without NaN, row `t` is
   * NaN until `w` rows exist and then aggregates the last `w` values.
   */
  lemma FullWindowLift(xs: seq<real>, w: nat, a: Agg, t: nat)
    requires w >= 1 && t < |xs|
    ensures t + 1 < w ==> Rolling(Lift(xs), w, w, a)[t] == None
    ensures t + 1 >= w ==> Rolling(Lift(xs), w, w, a)[t] == Some(Apply(a, xs[t + 1 - w..t + 1]))
  {
    LiftSlice(xs, WinStart(t, w), t + 1);
    PresentLift(xs[WinStart(t, w)..t + 1]);
  }

  /** The shifted column over the window ending at t holds the `w` values before t. */
  lemma ShiftedWindow(xs: seq<real>, t: nat, w: nat)
    requires 1 <= w <= t < |xs|
    ensures Window(Shift(Lift(xs)), t, w) == Lift(xs[t - w..t])
  {
    var sh := Shift(Lift(xs));
    assert WinStart(t, w) == t + 1 - w;
    forall j | 0 <= j < w
      ensures Window(sh, t, w)[j] == Lift(xs[t - w..t])[j]
    {
      assert Window(sh, t, w)[j] == sh[t + 1 - w + j];
    }
  }

  /** A leading NaN adds nothing to the present values. */
  lemma {:induction false} PresentConsNone(s: seq<Option<real>>)
    ensures Present([None] + s) == Present(s)
    decreases |s|
  {
    if s != [] {
      var n := |s| - 1;
      assert ([None] + s)[..n + 1] == [None] + s[..n];
      PresentConsNone(s[..n]);
    } else {
      assert ([None] + s)[..0] == [];
    }
  }

  /**
   * `xs.shift(1).rolling(w, min_periods=1)` over a column without NaN:
   * NaN at row 0, afterwards the aggregate of the last min(t, w) values
   * before row t.
   */
  lemma LaggedPartialWindowLift(xs: seq<real>, w: nat, a: Agg, t: nat)
    requires w >= 1 && t < |xs|
    ensures t == 0 ==> Rolling(Shift(Lift(xs)), w, 1, a)[0] == None
    ensures t > 0 ==> Rolling(Shift(Lift(xs)), w, 1, a)[t] == Some(Apply(a, xs[WinStart(t - 1, w)..t]))
  {
    var sh := Shift(Lift(xs));
    if t == 0 {
      assert Window(sh, 0, w) == [None];
      assert Present([None]) == Present([None][..0]) + [];
    } else if t >= w {
      ShiftedWindow(xs, t, w);
      PresentLift(xs[t - w..t]);
    } else {
      assert Window(sh, t, w) == [None] + Lift(xs[..t]);
      PresentConsNone(Lift(xs[..t]));
      PresentLift(xs[..t]);
    }
  }

  /** A rolling max is at least every present value of its window, and is one of them. */
  lemma RollingMaxBounds(xs: Column, w: nat, minPeriods: nat, t: nat)
    requires minPeriods >= 1 && t < |xs|
    requires Rolling(xs, w, minPeriods, MaxOf)[t].Some?
    ensures forall j :: WinStart(t, w) <= j <= t && xs[j].Some? ==>
              xs[j].value <= Rolling(xs, w, minPeriods, MaxOf)[t].value
    ensures exists j :: WinStart(t, w) <= j <= t && xs[j] == Rolling(xs, w, minPeriods, MaxOf)[t]
  {
    var win := Window(xs, t, w);
    var m := Rolling(xs, w, minPeriods, MaxOf)[t].value;
    forall j | WinStart(t, w) <= j <= t && xs[j].Some? ensures xs[j].value <= m {
      assert win[j - WinStart(t, w)] == xs[j];
      PresentHas(win, j - WinStart(t, w));
    }
    PresentFrom(win, m);
    var i :| 0 <= i < |win| && win[i] == Some(m);
    assert xs[WinStart(t, w) + i] == Some(m);
  }

  /** A rolling min is at most every present value of its window, and is one of them. */
  lemma RollingMinBounds(xs: Column, w: nat, minPeriods: nat, t: nat)
    requires minPeriods >= 1 && t < |xs|
    requires Rolling(xs, w, minPeriods, MinOf)[t].Some?
    ensures forall j :: WinStart(t, w) <= j <= t && xs[j].Some? ==>
              Rolling(xs, w, minPeriods, MinOf)[t].value <= xs[j].value
    ensures exists j :: WinStart(t, w) <= j <= t && xs[j] == Rolling(xs, w, minPeriods, MinOf)[t]
  {
    var win := Window(xs, t, w);
    var m := Rolling(xs, w, minPeriods, MinOf)[t].value;
    forall j | WinStart(t, w) <= j <= t && xs[j].Some? ensures m <= xs[j].value {
      assert win[j - WinStart(t, w)] == xs[j];
      PresentHas(win, j - WinStart(t, w));
    }
    PresentFrom(win, m);
    var i :| 0 <= i < |win| && win[i] == Some(m);
    assert xs[WinStart(t, w) + i] == Some(m);
  }

  /** With `min_periods=1`, a window whose last row is present is always defined. */
  lemma PartialWindowDefined(xs: Column, w: nat, a: Agg, t: nat)
    requires w >= 1 && t < |xs| && xs[t].Some?
    ensures Rolling(xs, w, 1, a)[t].Some?
  {
    var win := Window(xs, t, w);
    assert win[|win| - 1] == xs[t];
    PresentHas(win, |win| - 1);
  }

  lemma TrueRangeAt(bars: seq<Bar>, t: nat)
    requires t < |bars|
    ensures BarTrueRange(bars)[t] == Some(TrueRangeValue(bars, t))
  {
    if t == 0 {
      TrueRangeFirst(bars);
    } else {
      TrueRangeLater(bars, t);
    }
  }

  lemma TrueRangeFirst(bars: seq<Bar>)
    requires |bars| > 0
    ensures BarTrueRange(bars)[0] == Some(TrueRangeValue(bars, 0))
  {
    var hs, ls, cs := Lift(Highs(bars)), Lift(Lows(bars)), Lift(Closes(bars));
    var b := bars[0];
    var row := [Minus(hs[0], ls[0]), AbsOpt(Minus(hs[0], Shift(cs)[0])), AbsOpt(Minus(ls[0], Shift(cs)[0]))];
    assert BarTrueRange(bars)[0] == MaxPresent(row);
    assert row == [Some(b.high - b.low), None, None];
    assert row[..2][..1] == [Some(b.high - b.low)];
    assert Present(row[..2][..1]) == [b.high - b.low];
    assert Present(row) == [b.high - b.low];
  }

  lemma TrueRangeLater(bars: seq<Bar>, t: nat)
    requires 0 < t < |bars|
    ensures BarTrueRange(bars)[t] == Some(TrueRangeValue(bars, t))
  {
    var hs, ls, cs := Lift(Highs(bars)), Lift(Lows(bars)), Lift(Closes(bars));
    var pc := Shift(cs);
    var b := bars[t];
    var p := bars[t - 1].close;
    var row := [Minus(hs[t], ls[t]), AbsOpt(Minus(hs[t], pc[t])), AbsOpt(Minus(ls[t], pc[t]))];
    assert BarTrueRange(bars)[t] == MaxPresent(row);
    var vals := [b.high - b.low, Abs(b.high - p), Abs(b.low - p)];
    assert row == Lift(vals);
    PresentLift(vals);
  }

  /**
   * On bars, the True Range column has no NaN: at the first bar it is
   * high-low (there is no previous close), afterwards the largest of the three ranges.
   */
  lemma TrueRangeOfBars(bars: seq<Bar>)
    ensures BarTrueRange(bars) == Lift(TrueRangeValues(bars))
  {
    forall t | 0 <= t < |bars|
      ensures BarTrueRange(bars)[t] == Lift(TrueRangeValues(bars))[t]
    {
      TrueRangeAt(bars, t);
    }
  }

  /** True Range dominates the bar's own range, which is non-negative on well-formed bars. */
  lemma TrueRangeAtLeastRange(bars: seq<Bar>, t: nat)
    requires t < |bars|
    ensures TrueRangeValue(bars, t) >= bars[t].high - bars[t].low
  {
    if t > 0 {
      var b := bars[t];
      var p := bars[t - 1].close;
      assert [b.high - b.low, Abs(b.high - p), Abs(b.low - p)][0] == b.high - b.low;
    }
  }
}


