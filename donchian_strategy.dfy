/**
 * The filtered Donchian breakout strategy: a buy when the close breaks
 * above the highest high of the previous bars and volatility, trend and
 * momentum filters agree; a sell when the close breaks below the lowest low
 * of the previous bars. Positions are sized by risk and ATR, at most one
 * open position per direction, protected by ATR stops.
 */
module DonchianStrategy {
  import opened Common
  import opened Series
  import opened RealArith

  /** The constructor's parameters besides the data and the initial capital. */
  datatype Params = Params(
    riskPerTrade: real,
    stopAtrMult: real,
    maxNotionalPerPosition: real,
    minNotional: real,
    donchianEntry: nat,
    donchianExit: nat,
    atrPeriod: nat,
    atrMultEntry: real,
    smaTrend: nat,
    smaMom: nat)

  function DefaultParams(): Params
  {
    Params(0.005, 2.0, 0.10, 10.0, 20, 10, 14, 1.5, 200, 50)
  }

  const DefaultInitialCapital: real := 100000.0

  /** Width of the window over which the median ATR is taken. */
  const MedianWindow: nat := 50

  /** The rolling windows the signals use have a positive width. */
  predicate ValidWindows(p: Params)
  {
    p.donchianEntry >= 1 && p.donchianExit >= 1 && p.atrPeriod >= 1 && p.smaTrend >= 1 && p.smaMom >= 1
  }

  /** What the orders add: the stop multiplier must give a non-zero stop distance. */
  predicate ValidParams(p: Params)
  {
    ValidWindows(p) && p.stopAtrMult != 0.0
  }

  const Required: seq<string> := ["high", "low", "close"]

  /** One row of the signal table. */
  datatype SignalRow = SignalRow(time: int, buy: bool, sell: bool, atr: Option<real>,
                                 donchianHighEntry: Option<real>, donchianLowExit: Option<real>)

  // ---------------------------------------------------------------
  // Columns
  // ---------------------------------------------------------------

  /** Highest high of the previous `w` bars (a full window of the shifted highs). */
  function EntryChannel(bars: seq<Bar>, w: nat): (c: Column)
    requires w >= 1
    ensures |c| == |bars|
  {
    Rolling(Shift(Lift(Highs(bars))), w, w, MaxOf)
  }

  /** Lowest low of the previous `w` bars. */
  function ExitChannel(bars: seq<Bar>, w: nat): (c: Column)
    requires w >= 1
    ensures |c| == |bars|
  {
    Rolling(Shift(Lift(Lows(bars))), w, w, MinOf)
  }

  /** Average True Range over up to `w` bars. */
  function AtrColumn(bars: seq<Bar>, w: nat): (c: Column)
    requires w >= 1
    ensures |c| == |bars|
  {
    Rolling(BarTrueRange(bars), w, 1, MeanOf)
  }

  function CloseMean(bars: seq<Bar>, w: nat): (c: Column)
    requires w >= 1
    ensures |c| == |bars|
  {
    Rolling(Lift(Closes(bars)), w, 1, MeanOf)
  }

  /** The median of the ATR over up to 50 bars. */
  function AtrMedian(bars: seq<Bar>, w: nat): (c: Column)
    requires w >= 1
    ensures |c| == |bars|
  {
    Rolling(AtrColumn(bars, w), MedianWindow, 1, MedianOf)
  }

  /** Breakout above the entry channel, wide enough bar, close above both averages. */
  predicate BuyAt(p: Params, bars: seq<Bar>, t: nat)
    requires ValidWindows(p) && t < |bars|
  {
    var close := Some(bars[t].close);
    Gt(close, EntryChannel(bars, p.donchianEntry)[t]) &&
    Gt(Some(bars[t].high - bars[t].low), Scale(p.atrMultEntry, AtrMedian(bars, p.atrPeriod)[t])) &&
    Gt(close, CloseMean(bars, p.smaTrend)[t]) &&
    Gt(close, CloseMean(bars, p.smaMom)[t])
  }

  /** Breakdown below the exit channel. */
  predicate SellAt(p: Params, bars: seq<Bar>, t: nat)
    requires ValidWindows(p) && t < |bars|
  {
    Lt(Some(bars[t].close), ExitChannel(bars, p.donchianExit)[t])
  }

  function SignalRows(p: Params, bars: seq<Bar>): (rows: seq<SignalRow>)
    requires ValidWindows(p)
    ensures |rows| == |bars|
    ensures forall t :: 0 <= t < |bars| ==>
              rows[t] == SignalRow(bars[t].time, BuyAt(p, bars, t), SellAt(p, bars, t),
                                   AtrColumn(bars, p.atrPeriod)[t],
                                   EntryChannel(bars, p.donchianEntry)[t],
                                   ExitChannel(bars, p.donchianExit)[t])
  {
    var atr := AtrColumn(bars, p.atrPeriod);
    var entry := EntryChannel(bars, p.donchianEntry);
    var exit := ExitChannel(bars, p.donchianExit);
    seq(|bars|, t requires 0 <= t < |bars| =>
      SignalRow(bars[t].time, BuyAt(p, bars, t), SellAt(p, bars, t), atr[t], entry[t], exit[t]))
  }

  /** `generate_signals`: refuses a table without high, low and close. */
  function GenerateSignals(p: Params, frame: Frame): (r: Result<seq<SignalRow>>)
    requires ValidWindows(p)
    ensures r.Err? <==> exists i :: 0 <= i < |Required| && Required[i] !in frame.columns
    ensures r.Err? ==> r.error == AssertionError("Data must contain high, low, close")
    ensures r.Ok? ==> r.value == SignalRows(p, frame.bars)
  {
    if FirstMissing(frame.columns, Required).Some? then Err(AssertionError("Data must contain high, low, close"))
    else Ok(SignalRows(p, frame.bars))
  }

  // ---------------------------------------------------------------
  // What the columns hold
  // ---------------------------------------------------------------

  ghost function HighestHigh(bars: seq<Bar>, t: nat, w: nat): real
    requires 1 <= w <= t < |bars|
  {
    Max(Highs(bars)[t - w..t])
  }

  ghost function LowestLow(bars: seq<Bar>, t: nat, w: nat): real
    requires 1 <= w <= t < |bars|
  {
    Min(Lows(bars)[t - w..t])
  }

  /** The ATR of each bar: the mean True Range of up to `w` bars ending there. */
  ghost function AtrValues(bars: seq<Bar>, w: nat): (r: seq<real>)
    requires w >= 1
    ensures |r| == |bars|
  {
    var tr := TrueRangeValues(bars);
    seq(|bars|, t requires 0 <= t < |bars| => Mean(tr[WinStart(t, w)..t + 1]))
  }

  /**
   * The entry channel is defined from bar `w` on, where it is the highest
   * high of the `w` previous bars; before that there are not enough
   * previous bars.
   */
  lemma EntryChannelValue(bars: seq<Bar>, w: nat, t: nat)
    requires w >= 1 && t < |bars|
    ensures EntryChannel(bars, w)[t].Some? <==> t >= w
    ensures t >= w ==> EntryChannel(bars, w)[t] == Some(HighestHigh(bars, t, w))
  {
    var sh := Shift(Lift(Highs(bars)));
    FullWindowDefined(sh, w, MaxOf, t);
    if t >= w {
      ShiftedWindow(Highs(bars), t, w);
      PresentLift(Highs(bars)[t - w..t]);
    } else if t + 1 >= w {
      assert sh[t + 1 - w] == None;
    }
  }

  /** Likewise for the exit channel and the lowest low. */
  lemma ExitChannelValue(bars: seq<Bar>, w: nat, t: nat)
    requires w >= 1 && t < |bars|
    ensures ExitChannel(bars, w)[t].Some? <==> t >= w
    ensures t >= w ==> ExitChannel(bars, w)[t] == Some(LowestLow(bars, t, w))
  {
    var sh := Shift(Lift(Lows(bars)));
    FullWindowDefined(sh, w, MinOf, t);
    if t >= w {
      ShiftedWindow(Lows(bars), t, w);
      PresentLift(Lows(bars)[t - w..t]);
    } else if t + 1 >= w {
      assert sh[t + 1 - w] == None;
    }
  }

  /** The ATR column has no NaN: it is the ATR of every bar. */
  lemma AtrColumnValues(bars: seq<Bar>, w: nat)
    requires w >= 1
    ensures AtrColumn(bars, w) == Lift(AtrValues(bars, w))
  {
    forall t | 0 <= t < |bars|
      ensures AtrColumn(bars, w)[t] == Some(AtrValues(bars, w)[t])
    {
      AtrAt(bars, w, t);
    }
  }

  lemma AtrAt(bars: seq<Bar>, w: nat, t: nat)
    requires w >= 1 && t < |bars|
    ensures AtrColumn(bars, w)[t] == Some(AtrValues(bars, w)[t])
  {
    var tr := TrueRangeValues(bars);
    TrueRangeOfBars(bars);
    PartialWindowLift(tr, w, MeanOf, t);
    calc {
      AtrColumn(bars, w)[t];
      Rolling(BarTrueRange(bars), w, 1, MeanOf)[t];
      Rolling(Lift(tr), w, 1, MeanOf)[t];
      Some(Apply(MeanOf, tr[WinStart(t, w)..t + 1]));
      Some(Mean(tr[WinStart(t, w)..t + 1]));
      { AtrValuesAt(bars, w, t); }
      Some(AtrValues(bars, w)[t]);
    }
  }

  lemma AtrValuesAt(bars: seq<Bar>, w: nat, t: nat)
    requires w >= 1 && t < |bars|
    ensures AtrValues(bars, w)[t] == Mean(TrueRangeValues(bars)[WinStart(t, w)..t + 1])
  {
  }

  /**
   * A sell at bar t is exactly a close below the lowest low of the previous
   * `donchianExit` bars; there is none before that many bars exist.
   */
  lemma SellIsBreakdown(p: Params, bars: seq<Bar>, t: nat)
    requires ValidWindows(p) && t < |bars|
    ensures SellAt(p, bars, t) <==>
              t >= p.donchianExit && bars[t].close < LowestLow(bars, t, p.donchianExit)
  {
    ExitChannelValue(bars, p.donchianExit, t);
  }

  /**
   * A buy at bar t needs the close above the highest high of the previous
   * `donchianEntry` bars, so there is none before that many bars exist, and
   * a buy closes above every one of those highs.
   */
  lemma BuyIsBreakout(p: Params, bars: seq<Bar>, t: nat)
    requires ValidWindows(p) && t < |bars|
    requires BuyAt(p, bars, t)
    ensures t >= p.donchianEntry
    ensures bars[t].close > HighestHigh(bars, t, p.donchianEntry)
    ensures forall j :: t - p.donchianEntry <= j < t ==> bars[t].close > bars[j].high
  {
    var w := p.donchianEntry;
    EntryChannelValue(bars, w, t);
    BelowHighest(bars, t, w);
  }

  lemma BelowHighest(bars: seq<Bar>, t: nat, w: nat)
    requires 1 <= w <= t < |bars|
    ensures forall j :: t - w <= j < t ==> bars[j].high <= HighestHigh(bars, t, w)
  {
    var hs := Highs(bars)[t - w..t];
    forall j | t - w <= j < t
      ensures bars[j].high <= HighestHigh(bars, t, w)
    {
      assert hs[j - (t - w)] == bars[j].high;
    }
  }

  /** The median ATR of up to 50 bars ending at t. */
  ghost function MedianAtr(bars: seq<Bar>, w: nat, t: nat): real
    requires w >= 1 && t < |bars|
  {
    Median(AtrValues(bars, w)[WinStart(t, MedianWindow)..t + 1])
  }

  /** The mean close of up to `w` bars ending at t. */
  ghost function MeanClose(bars: seq<Bar>, w: nat, t: nat): real
    requires w >= 1 && t < |bars|
  {
    Mean(Closes(bars)[WinStart(t, w)..t + 1])
  }

  lemma AtrMedianAt(bars: seq<Bar>, w: nat, t: nat)
    requires w >= 1 && t < |bars|
    ensures AtrMedian(bars, w)[t] == Some(MedianAtr(bars, w, t))
  {
    AtrColumnValues(bars, w);
    PartialWindowLift(AtrValues(bars, w), MedianWindow, MedianOf, t);
  }

  lemma CloseMeanAt(bars: seq<Bar>, w: nat, t: nat)
    requires w >= 1 && t < |bars|
    ensures CloseMean(bars, w)[t] == Some(MeanClose(bars, w, t))
  {
    PartialWindowLift(Closes(bars), w, MeanOf, t);
  }

  /**
   * A buy needs the bar's range above `atrMultEntry` times the median ATR of
   * up to 50 bars (the product is kept inside `Scale`).
   */
  lemma BuyNeedsWideBar(p: Params, bars: seq<Bar>, t: nat)
    requires ValidWindows(p) && t < |bars|
    requires BuyAt(p, bars, t)
    ensures Gt(Some(bars[t].high - bars[t].low), Scale(p.atrMultEntry, Some(MedianAtr(bars, p.atrPeriod, t))))
  {
    AtrMedianAt(bars, p.atrPeriod, t);
  }

  /** A buy needs the close above both the trend and the momentum averages. */
  lemma BuyNeedsUptrend(p: Params, bars: seq<Bar>, t: nat)
    requires ValidWindows(p) && t < |bars|
    requires BuyAt(p, bars, t)
    ensures bars[t].close > MeanClose(bars, p.smaTrend, t)
    ensures bars[t].close > MeanClose(bars, p.smaMom, t)
  {
    CloseMeanAt(bars, p.smaTrend, t);
    CloseMeanAt(bars, p.smaMom, t);
  }

  /** The ATR of every row is defined: the mean True Range of up to `atrPeriod` bars. */
  lemma AtrDefined(p: Params, bars: seq<Bar>, t: nat)
    requires ValidWindows(p) && t < |bars|
    ensures SignalRows(p, bars)[t].atr == Some(AtrValues(bars, p.atrPeriod)[t])
  {
    AtrColumnValues(bars, p.atrPeriod);
  }

  // ---------------------------------------------------------------
  // Positions and the trade log
  // ---------------------------------------------------------------

  datatype Side = Long | Short

  /** An entry: direction, entry price, protective stop, size, whether it was stopped out, entry time. */
  datatype Position = Position(side: Side, entryPrice: real, stopPrice: real, size: real,
                               closed: bool, entryTime: int)

  /** One line of the trade log, written when a position is opened. */
  datatype LogEntry = LogEntry(time: int, side: Side, price: real, size: real, stopPrice: real, capital: real)

  datatype EquityPoint = EquityPoint(time: int, equity: real)

  /** The strategy's mutable state: capital, positions, trade log and equity curve. */
  datatype Book = Book(capital: real, positions: seq<Position>, tradeLog: seq<LogEntry>,
                       equityCurve: seq<EquityPoint>)

  /** What `backtest` returns. */
  datatype Summary = Summary(capital: real, tradeLog: seq<LogEntry>, equityCurve: seq<EquityPoint>)

  /** The state of a freshly constructed strategy. */
  function Fresh(initialCapital: real): Book
  {
    Book(initialCapital, [], [], [])
  }

  /** 1 for a buy row, -1 for a sell row, 0 otherwise; a buy wins over a sell. */
  function SignalOf(row: SignalRow): (sig: int)
    ensures sig in {-1, 0, 1}
    ensures sig == 1 <==> row.buy
    ensures sig == -1 <==> !row.buy && row.sell
  {
    if row.buy then 1 else if row.sell then -1 else 0
  }

  predicate IsOpen(pos: Position, side: Side)
  {
    pos.side == side && !pos.closed
  }

  /** Some position in this direction is still open. */
  predicate HasOpen(ps: seq<Position>, side: Side)
  {
    exists j :: 0 <= j < |ps| && IsOpen(ps[j], side)
  }

  /**
   * The position `handle_order` opens, if any: nothing without a signal,
   * without a non-zero ATR, or while a position in the same direction is
   * open; otherwise the risk-sized position.
   */
  function NewPosition(p: Params, capital: real, ps: seq<Position>, price: real, row: SignalRow): (r: Option<Position>)
    requires ValidParams(p) && price > 0.0
    ensures r.Some? ==> r.value.entryPrice == price && r.value.entryTime == row.time && !r.value.closed
    ensures r.Some? ==> (r.value.side == Long <==> row.buy)
  {
    var sig := SignalOf(row);
    if sig == 0 || row.atr.None? || row.atr.value == 0.0 then None
    else
      var side := if sig == 1 then Long else Short;
      if HasOpen(ps, side) then None
      else Sized(p, capital, side, price, row.atr.value, row.time)
  }

  /**
   * The risk-sized position: the capital at risk over the stop distance,
   * nothing when its notional is below `minNotional`, cut back to
   * `maxNotionalPerPosition` of the capital.
   */
  function Sized(p: Params, capital: real, side: Side, price: real, atr: real, time: int): (r: Option<Position>)
    requires ValidParams(p) && price > 0.0 && atr != 0.0
    ensures r.Some? ==> r.value.side == side && r.value.entryPrice == price && r.value.entryTime == time
    ensures r.Some? ==> !r.value.closed
  {
    var dist := StopDistance(p, atr);
    var size := capital * p.riskPerTrade / dist;
    if size * price < p.minNotional then None
    else
      Some(Position(side, price, StopPrice(side, price, dist),
                    Clamp(size, price, capital * p.maxNotionalPerPosition), false, time))
  }

  function StopDistance(p: Params, atr: real): (d: real)
    requires ValidParams(p) && atr != 0.0
    ensures d != 0.0
  {
    p.stopAtrMult * atr
  }

  /** A long is stopped below the entry, a short above it. */
  function StopPrice(side: Side, price: real, dist: real): real
  {
    if side == Long then price - dist else price + dist
  }

  /** The size cut back so that its notional is at most `cap`. */
  function Clamp(size: real, price: real, cap: real): real
    requires price > 0.0
  {
    if size * price > cap then cap / price else size
  }

  /** `handle_order`: append the new position and its log line; nothing else changes. */
  function HandleOrderSpec(p: Params, b: Book, price: real, row: SignalRow): (r: Book)
    requires ValidParams(p) && price > 0.0
    ensures r.capital == b.capital && r.equityCurve == b.equityCurve
    ensures |b.positions| <= |r.positions| <= |b.positions| + 1
    ensures |r.positions| - |b.positions| == |r.tradeLog| - |b.tradeLog|
    ensures r.positions[..|b.positions|] == b.positions && r.tradeLog[..|b.tradeLog|] == b.tradeLog
    ensures NewPosition(p, b.capital, b.positions, price, row).None? ==> r.positions == b.positions
    ensures NewPosition(p, b.capital, b.positions, price, row).Some? ==>
              r.positions == b.positions + [NewPosition(p, b.capital, b.positions, price, row).value]
    ensures |r.tradeLog| > |b.tradeLog| ==>
              r.tradeLog[|b.tradeLog|].capital == b.capital && r.tradeLog[|b.tradeLog|].time == row.time &&
              r.tradeLog[|b.tradeLog|].price == price
  {
    Record(b, NewPosition(p, b.capital, b.positions, price, row))
  }

  /** Append an opened position and its log line, which records the capital at entry. */
  function Record(b: Book, entry: Option<Position>): (r: Book)
    ensures r.capital == b.capital && r.equityCurve == b.equityCurve
  {
    match entry
    case None => b
    case Some(pos) =>
      Book(b.capital, b.positions + [pos],
           b.tradeLog + [LogEntry(pos.entryTime, pos.side, pos.entryPrice, pos.size, pos.stopPrice, b.capital)],
           b.equityCurve)
  }

  // ---------------------------------------------------------------
  // Stops and valuation
  // ---------------------------------------------------------------

  /** The bar reaches the stop of this open position. */
  predicate Hit(pos: Position, bar: Bar)
  {
    !pos.closed &&
    ((pos.side == Long && bar.low <= pos.stopPrice) || (pos.side == Short && bar.high >= pos.stopPrice))
  }

  /** Profit of closing the position at its stop. */
  function StopPnl(pos: Position): real
  {
    if pos.side == Long then (pos.stopPrice - pos.entryPrice) * pos.size
    else (pos.entryPrice - pos.stopPrice) * pos.size
  }

  function AfterStop(pos: Position, bar: Bar): (r: Position)
    ensures r == pos.(closed := pos.closed || Hit(pos, bar))
  {
    if Hit(pos, bar) then pos.(closed := true) else pos
  }

  /** Every position the bar stops out is marked closed. */
  function CloseStops(ps: seq<Position>, bar: Bar): (r: seq<Position>)
    ensures |r| == |ps|
  {
    seq(|ps|, j requires 0 <= j < |ps| => AfterStop(ps[j], bar))
  }

  /** What the stops hit by the bar realise, added up in list order. */
  function StopsPnl(ps: seq<Position>, bar: Bar): real
    decreases |ps|
  {
    if ps == [] then 0.0
    else StopsPnl(ps[..|ps| - 1], bar) + (if Hit(ps[|ps| - 1], bar) then StopPnl(ps[|ps| - 1]) else 0.0)
  }

  lemma StopsPnlSnoc(ps: seq<Position>, bar: Bar, i: nat)
    requires i < |ps|
    ensures StopsPnl(ps[..i + 1], bar) == StopsPnl(ps[..i], bar) + (if Hit(ps[i], bar) then StopPnl(ps[i]) else 0.0)
  {
    assert ps[..i + 1][..i] == ps[..i];
  }

  /** Mark-to-market profit of an open position. */
  function OpenPnl(pos: Position, price: real): real
  {
    if pos.side == Long then (price - pos.entryPrice) * pos.size else (pos.entryPrice - price) * pos.size
  }

  /** The unrealised profit of the open positions. */
  function Unrealized(ps: seq<Position>, price: real): real
    decreases |ps|
  {
    if ps == [] then 0.0
    else Unrealized(ps[..|ps| - 1], price) + (if ps[|ps| - 1].closed then 0.0 else OpenPnl(ps[|ps| - 1], price))
  }

  /** The profit realised by the positions already stopped out. */
  function Realized(ps: seq<Position>): real
    decreases |ps|
  {
    if ps == [] then 0.0
    else Realized(ps[..|ps| - 1]) + (if ps[|ps| - 1].closed then StopPnl(ps[|ps| - 1]) else 0.0)
  }

  // ---------------------------------------------------------------
  // One bar of the backtest, and the whole run
  // ---------------------------------------------------------------

  /** Stops first, then the bar's signal at its close, then an equity point. */
  function Step(p: Params, b: Book, bar: Bar, row: SignalRow): (r: Book)
    requires ValidParams(p) && bar.close > 0.0
    ensures |r.equityCurve| == |b.equityCurve| + 1
    ensures r.equityCurve[..|b.equityCurve|] == b.equityCurve
  {
    var stopped := Book(b.capital + StopsPnl(b.positions, bar), CloseStops(b.positions, bar),
                        b.tradeLog, b.equityCurve);
    var h := HandleOrderSpec(p, stopped, bar.close, row);
    h.(equityCurve := h.equityCurve + [EquityPoint(bar.time, h.capital + Unrealized(h.positions, bar.close))])
  }

  function Run(p: Params, b: Book, bars: seq<Bar>, rows: seq<SignalRow>): (r: Book)
    requires ValidParams(p) && |rows| == |bars| && PositiveCloses(bars)
    ensures |r.equityCurve| == |b.equityCurve| + |bars|
    decreases |bars|
  {
    if bars == [] then b
    else
      var n := |bars| - 1;
      Step(p, Run(p, b, bars[..n], rows[..n]), bars[n], rows[n])
  }

  lemma RunSnoc(p: Params, b: Book, bars: seq<Bar>, rows: seq<SignalRow>, i: nat)
    requires ValidParams(p) && |rows| == |bars| && PositiveCloses(bars) && i < |bars|
    ensures PositiveCloses(bars[..i]) && PositiveCloses(bars[..i + 1])
    ensures Run(p, b, bars[..i + 1], rows[..i + 1]) == Step(p, Run(p, b, bars[..i], rows[..i]), bars[i], rows[i])
  {
    assert bars[..i + 1][..i] == bars[..i];
    assert rows[..i + 1][..i] == rows[..i];
  }

  // ---------------------------------------------------------------
  // What an entry looks like
  // ---------------------------------------------------------------

  /** The side a signal row asks for. */
  function SideOf(row: SignalRow): Side
  {
    if row.buy then Long else Short
  }

  /**
   * `handle_order` opens a position exactly when the row has a signal and a
   * non-zero ATR, no position in that direction is open, and the risk-sized
   * notional reaches `minNotional`.
   */
  lemma EntryConditions(p: Params, capital: real, ps: seq<Position>, price: real, row: SignalRow)
    requires ValidParams(p) && price > 0.0
    ensures NewPosition(p, capital, ps, price, row).Some? <==>
              (row.buy || row.sell) && row.atr.Some? && row.atr.value != 0.0 &&
              !HasOpen(ps, SideOf(row)) &&
              capital * p.riskPerTrade / StopDistance(p, row.atr.value) * price >= p.minNotional
  {
  }

  /** The position opened when the entry conditions hold. */
  lemma NewPositionValue(p: Params, capital: real, ps: seq<Position>, price: real, row: SignalRow)
    requires ValidParams(p) && price > 0.0
    requires (row.buy || row.sell) && row.atr.Some? && row.atr.value != 0.0
    requires !HasOpen(ps, SideOf(row))
    requires !(capital * p.riskPerTrade / StopDistance(p, row.atr.value) * price < p.minNotional)
    ensures NewPosition(p, capital, ps, price, row) ==
              Some(Position(SideOf(row), price, StopPrice(SideOf(row), price, StopDistance(p, row.atr.value)),
                            Clamp(capital * p.riskPerTrade / StopDistance(p, row.atr.value), price,
                                  capital * p.maxNotionalPerPosition),
                            false, row.time))
  {
    var r := NewPosition(p, capital, ps, price, row);
    assert r.Some? && r.value.side == SideOf(row);
    assert r.value.stopPrice == StopPrice(SideOf(row), price, StopDistance(p, row.atr.value));
    assert r.value.size ==
             Clamp(capital * p.riskPerTrade / StopDistance(p, row.atr.value), price, capital * p.maxNotionalPerPosition);
  }

  lemma ClampBounds(size: real, price: real, cap: real)
    requires price > 0.0
    ensures Clamp(size, price, cap) * price <= cap
    ensures Clamp(size, price, cap) == size || Clamp(size, price, cap) * price == cap
    ensures Clamp(size, price, cap) != size ==> Clamp(size, price, cap) < size
  {
    if size * price > cap {
      var c := cap / price;
      assert c * price == cap;
      if c >= size {
        MulLe(price, size, c);
        assert price * size <= price * c;
      }
    }
  }

  /**
   * A new position's notional is at most `maxNotionalPerPosition` of the
   * capital, and it is the risk-sized notional (at least `minNotional`)
   * unless it was cut back to that cap.
   */
  lemma EntryWithinCap(p: Params, capital: real, ps: seq<Position>, price: real, row: SignalRow)
    requires ValidParams(p) && price > 0.0
    requires NewPosition(p, capital, ps, price, row).Some?
    ensures NewPosition(p, capital, ps, price, row).value.size * price <= capital * p.maxNotionalPerPosition
    ensures NewPosition(p, capital, ps, price, row).value.size * price >= p.minNotional ||
            NewPosition(p, capital, ps, price, row).value.size * price == capital * p.maxNotionalPerPosition
  {
    var dist := StopDistance(p, row.atr.value);
    var size := capital * p.riskPerTrade / dist;
    ClampBounds(size, price, capital * p.maxNotionalPerPosition);
  }

  /** The loss at a stop is the stop distance times the size. */
  lemma StopLossIsDistanceTimesSize(side: Side, price: real, dist: real, size: real, time: int)
    ensures StopPnl(Position(side, price, StopPrice(side, price, dist), size, false, time)) == -(dist * size)
  {
    if side == Long {
      assert (price - dist - price) * size == -(dist * size);
    } else {
      assert (price - (price + dist)) * size == -(dist * size);
    }
  }

  /**
   * Risk sizing: with a positive stop distance, being stopped out loses
   * exactly `riskPerTrade` of the capital, or less when the size was cut
   * back to the notional cap.
   */
  lemma StopLossWithinRisk(p: Params, capital: real, ps: seq<Position>, price: real, row: SignalRow)
    requires ValidParams(p) && price > 0.0
    requires NewPosition(p, capital, ps, price, row).Some?
    requires StopDistance(p, row.atr.value) > 0.0
    ensures -StopPnl(NewPosition(p, capital, ps, price, row).value) <= capital * p.riskPerTrade
  {
    var pos := NewPosition(p, capital, ps, price, row).value;
    var dist := StopDistance(p, row.atr.value);
    var size := capital * p.riskPerTrade / dist;
    StopLossIsDistanceTimesSize(pos.side, price, dist, pos.size, row.time);
    ClampBounds(size, price, capital * p.maxNotionalPerPosition);
    assert size * dist == capital * p.riskPerTrade;
    MulLe(dist, pos.size, size);
    assert dist * pos.size <= dist * size;
  }

  // ---------------------------------------------------------------
  // Invariants of the book
  // ---------------------------------------------------------------

  /** At most one open position per direction. */
  predicate OnePerSide(ps: seq<Position>)
  {
    forall i, j :: 0 <= i < j < |ps| && !ps[i].closed && !ps[j].closed ==> ps[i].side != ps[j].side
  }

  /** Entry `i` of the trade log records position `i`. */
  predicate LogMirrors(b: Book)
  {
    |b.tradeLog| == |b.positions| &&
    forall i :: 0 <= i < |b.positions| ==>
      var e, pos := b.tradeLog[i], b.positions[i];
      e.time == pos.entryTime && e.side == pos.side && e.price == pos.entryPrice &&
      e.size == pos.size && e.stopPrice == pos.stopPrice
  }

  /** `q` is `ps` with possibly more positions closed and new ones appended. */
  predicate Extends(ps: seq<Position>, q: seq<Position>)
  {
    |ps| <= |q| &&
    forall i :: 0 <= i < |ps| ==>
      q[i] == ps[i].(closed := q[i].closed) && (ps[i].closed ==> q[i].closed)
  }

  lemma CloseStopsKeepOnePerSide(ps: seq<Position>, bar: Bar)
    requires OnePerSide(ps)
    ensures OnePerSide(CloseStops(ps, bar))
  {
    var q := CloseStops(ps, bar);
    forall i, j | 0 <= i < j < |q| && !q[i].closed && !q[j].closed
      ensures q[i].side != q[j].side
    {
      assert q[i] == AfterStop(ps[i], bar) && q[j] == AfterStop(ps[j], bar);
    }
  }

  lemma HandleOrderKeepsOnePerSide(p: Params, b: Book, price: real, row: SignalRow)
    requires ValidParams(p) && price > 0.0 && OnePerSide(b.positions)
    ensures OnePerSide(HandleOrderSpec(p, b, price, row).positions)
  {
    var np := NewPosition(p, b.capital, b.positions, price, row);
    if np.Some? {
      var q := b.positions + [np.value];
      assert !HasOpen(b.positions, np.value.side);
      forall i, j | 0 <= i < j < |q| && !q[i].closed && !q[j].closed
        ensures q[i].side != q[j].side
      {
        if j == |b.positions| {
          assert !IsOpen(b.positions[i], np.value.side);
        }
      }
    }
  }

  /** Each bar keeps at most one open position per direction. */
  lemma StepKeepsOnePerSide(p: Params, b: Book, bar: Bar, row: SignalRow)
    requires ValidParams(p) && bar.close > 0.0 && OnePerSide(b.positions)
    ensures OnePerSide(Step(p, b, bar, row).positions)
  {
    CloseStopsKeepOnePerSide(b.positions, bar);
    var stopped := Book(b.capital + StopsPnl(b.positions, bar), CloseStops(b.positions, bar),
                        b.tradeLog, b.equityCurve);
    HandleOrderKeepsOnePerSide(p, stopped, bar.close, row);
  }

  /** Only one position per direction is open at any time of a backtest. */
  lemma {:induction false} RunKeepsOnePerSide(p: Params, b: Book, bars: seq<Bar>, rows: seq<SignalRow>)
    requires ValidParams(p) && |rows| == |bars| && PositiveCloses(bars) && OnePerSide(b.positions)
    ensures OnePerSide(Run(p, b, bars, rows).positions)
    decreases |bars|
  {
    if bars != [] {
      var n := |bars| - 1;
      RunKeepsOnePerSide(p, b, bars[..n], rows[..n]);
      StepKeepsOnePerSide(p, Run(p, b, bars[..n], rows[..n]), bars[n], rows[n]);
    }
  }

  /** Each bar keeps the trade log in step with the positions. */
  lemma StepKeepsLogMirror(p: Params, b: Book, bar: Bar, row: SignalRow)
    requires ValidParams(p) && bar.close > 0.0 && LogMirrors(b)
    ensures LogMirrors(Step(p, b, bar, row))
  {
    var stopped := Book(b.capital + StopsPnl(b.positions, bar), CloseStops(b.positions, bar),
                        b.tradeLog, b.equityCurve);
    assert LogMirrors(stopped) by {
      forall i | 0 <= i < |b.positions|
        ensures stopped.positions[i] == b.positions[i].(closed := stopped.positions[i].closed)
      {
      }
    }
  }

  lemma {:induction false} RunKeepsLogMirror(p: Params, b: Book, bars: seq<Bar>, rows: seq<SignalRow>)
    requires ValidParams(p) && |rows| == |bars| && PositiveCloses(bars) && LogMirrors(b)
    ensures LogMirrors(Run(p, b, bars, rows))
    decreases |bars|
  {
    if bars != [] {
      var n := |bars| - 1;
      RunKeepsLogMirror(p, b, bars[..n], rows[..n]);
      StepKeepsLogMirror(p, Run(p, b, bars[..n], rows[..n]), bars[n], rows[n]);
    }
  }

  /** A bar never reopens a position nor alters its entry; it can only close some and append one. */
  lemma StepExtends(p: Params, b: Book, bar: Bar, row: SignalRow)
    requires ValidParams(p) && bar.close > 0.0
    ensures Extends(b.positions, Step(p, b, bar, row).positions)
  {
    var stopped := CloseStops(b.positions, bar);
    var q := Step(p, b, bar, row).positions;
    forall i | 0 <= i < |b.positions|
      ensures q[i] == b.positions[i].(closed := q[i].closed) && (b.positions[i].closed ==> q[i].closed)
    {
      assert q[i] == stopped[i];
    }
  }

  lemma CloseStopsPrefix(ps: seq<Position>, bar: Bar, n: nat)
    requires n <= |ps|
    ensures CloseStops(ps, bar)[..n] == CloseStops(ps[..n], bar)
  {
  }

  /** Closing the stopped positions moves exactly their stop profit into the realised profit. */
  lemma {:induction false} RealizedAfterStops(ps: seq<Position>, bar: Bar)
    ensures Realized(CloseStops(ps, bar)) == Realized(ps) + StopsPnl(ps, bar)
    decreases |ps|
  {
    if ps != [] {
      var n := |ps| - 1;
      RealizedAfterStops(ps[..n], bar);
      RealizedStopStep(ps, bar);
    }
  }

  lemma RealizedStopStep(ps: seq<Position>, bar: Bar)
    requires ps != []
    ensures var n := |ps| - 1;
            Realized(CloseStops(ps, bar)) ==
              Realized(CloseStops(ps[..n], bar)) + (if ps[n].closed then StopPnl(ps[n]) else 0.0) +
              (if Hit(ps[n], bar) then StopPnl(ps[n]) else 0.0)
  {
    var n := |ps| - 1;
    var q := CloseStops(ps, bar);
    CloseStopsPrefix(ps, bar, n);
    assert q[..n] == CloseStops(ps[..n], bar);
    assert q[n] == AfterStop(ps[n], bar);
    assert StopPnl(q[n]) == StopPnl(ps[n]);
  }

  lemma RealizedOpenAppend(ps: seq<Position>, pos: Position)
    requires !pos.closed
    ensures Realized(ps + [pos]) == Realized(ps)
  {
    assert (ps + [pos])[..|ps|] == ps;
  }

  /**
   * Each bar keeps the capital equal to the initial capital plus the profit
   * realised by the stopped-out positions: opening a position moves no cash.
   */
  lemma StepKeepsCapital(p: Params, b: Book, bar: Bar, row: SignalRow, initial: real)
    requires ValidParams(p) && bar.close > 0.0
    requires b.capital == initial + Realized(b.positions)
    ensures Step(p, b, bar, row).capital == initial + Realized(Step(p, b, bar, row).positions)
  {
    RealizedAfterStops(b.positions, bar);
    var stopped := Book(b.capital + StopsPnl(b.positions, bar), CloseStops(b.positions, bar),
                        b.tradeLog, b.equityCurve);
    var np := NewPosition(p, stopped.capital, stopped.positions, bar.close, row);
    RecordKeepsRealized(stopped, np);
    var h := HandleOrderSpec(p, stopped, bar.close, row);
    assert h == Record(stopped, np);
    assert Step(p, b, bar, row).positions == h.positions && Step(p, b, bar, row).capital == h.capital;
  }

  /** Recording a freshly opened position leaves the realised profit as it was. */
  lemma RecordKeepsRealized(b: Book, entry: Option<Position>)
    requires entry.Some? ==> !entry.value.closed
    ensures Realized(Record(b, entry).positions) == Realized(b.positions)
  {
    if entry.Some? {
      RealizedOpenAppend(b.positions, entry.value);
    }
  }

  /** Over a whole backtest from a fresh strategy, capital = initial capital + realised stop profit. */
  lemma {:induction false} RunCapital(p: Params, initial: real, bars: seq<Bar>, rows: seq<SignalRow>)
    requires ValidParams(p) && |rows| == |bars| && PositiveCloses(bars)
    ensures Run(p, Fresh(initial), bars, rows).capital ==
              initial + Realized(Run(p, Fresh(initial), bars, rows).positions)
    decreases |bars|
  {
    if bars != [] {
      var n := |bars| - 1;
      RunCapital(p, initial, bars[..n], rows[..n]);
      StepKeepsCapital(p, Run(p, Fresh(initial), bars[..n], rows[..n]), bars[n], rows[n], initial);
    }
  }

  /** The equity curve of a run extends the equity curve of any shorter run. */
  lemma {:induction false} RunEquityPrefix(p: Params, b: Book, bars: seq<Bar>, rows: seq<SignalRow>, k: nat)
    requires ValidParams(p) && |rows| == |bars| && PositiveCloses(bars) && k <= |bars|
    ensures PositiveCloses(bars[..k])
    ensures Run(p, b, bars, rows).equityCurve[..|b.equityCurve| + k] ==
              Run(p, b, bars[..k], rows[..k]).equityCurve
    decreases |bars|
  {
    if k == |bars| {
      assert bars[..k] == bars && rows[..k] == rows;
    } else {
      var n := |bars| - 1;
      RunEquityPrefix(p, b, bars[..n], rows[..n], k);
      assert bars[..n][..k] == bars[..k] && rows[..n][..k] == rows[..k];
      var prev := Run(p, b, bars[..n], rows[..n]);
      var last := Step(p, prev, bars[n], rows[n]);
      assert Run(p, b, bars, rows) == last;
      var before := prev.equityCurve;
      assert last.equityCurve[..|before|] == before;
      assert last.equityCurve[..|b.equityCurve| + k] == before[..|b.equityCurve| + k];
    }
  }

  /**
   * The last equity point of a run is the final capital plus the unrealised
   * profit of the open positions at the last close; with `RunEquityPrefix`
   * this describes every point of the curve.
   */
  lemma RunLastEquity(p: Params, b: Book, bars: seq<Bar>, rows: seq<SignalRow>)
    requires ValidParams(p) && |rows| == |bars| && PositiveCloses(bars) && bars != []
    ensures var s := Run(p, b, bars, rows);
            var last := bars[|bars| - 1];
            s.equityCurve[|b.equityCurve| + |bars| - 1] ==
              EquityPoint(last.time, s.capital + Unrealized(s.positions, last.close))
  {
    var n := |bars| - 1;
    var before := Run(p, b, bars[..n], rows[..n]);
    StepEquity(p, before, bars[n], rows[n]);
  }

  lemma StepEquity(p: Params, b: Book, bar: Bar, row: SignalRow)
    requires ValidParams(p) && bar.close > 0.0
    ensures var r := Step(p, b, bar, row);
            r.equityCurve[|b.equityCurve|] == EquityPoint(bar.time, r.capital + Unrealized(r.positions, bar.close))
  {
  }

  // ---------------------------------------------------------------
  // The strategy object
  // ---------------------------------------------------------------

  class FilteredDonchianStrategy {
    const data: Frame
    const initialCapital: real
    const params: Params

    var capital: real
    var positions: seq<Position>
    var equityCurve: seq<EquityPoint>
    var tradeLog: seq<LogEntry>

    function Snapshot(): Book
      reads this
    {
      Book(capital, positions, tradeLog, equityCurve)
    }

    constructor(data: Frame, initialCapital: real, params: Params)
      ensures this.data == data && this.initialCapital == initialCapital && this.params == params
      ensures Snapshot() == Fresh(initialCapital)
    {
      this.data := data;
      this.initialCapital := initialCapital;
      this.params := params;
      capital := initialCapital;
      positions := [];
      equityCurve := [];
      tradeLog := [];
    }

    /** Whether a position in this direction is still open. */
    method AnyOpen(side: Side) returns (found: bool)
      ensures found == HasOpen(positions, side)
    {
      found := false;
      var i := 0;
      while i < |positions|
        invariant 0 <= i <= |positions|
        invariant found == exists j :: 0 <= j < i && IsOpen(positions[j], side)
      {
        if positions[i].side == side && !positions[i].closed {
          found := true;
        }
        i := i + 1;
      }
    }

    /** `handle_order`: maybe open a position at `price` for this signal row. */
    method HandleOrder(price: real, row: SignalRow)
      requires ValidParams(params) && price > 0.0
      modifies this
      ensures Snapshot() == HandleOrderSpec(params, old(Snapshot()), price, row)
    {
      var signal := if row.buy then 1 else if row.sell then -1 else 0;
      if signal == 0 || row.atr.None? || row.atr.value == 0.0 {
        return;
      }
      var side := if signal == 1 then Long else Short;
      var open := AnyOpen(side);
      if open {
        return;
      }
      OpenPosition(side, price, row.atr.value, row.time);
    }

    /** The sizing half of `handle_order`: stop, risk-sized size, minimum and cap, then the log line. */
    method OpenPosition(side: Side, price: real, atr: real, time: int)
      requires ValidParams(params) && price > 0.0 && atr != 0.0
      modifies this
      ensures Snapshot() == Record(old(Snapshot()), Sized(params, old(capital), side, price, atr, time))
    {
      ghost var sized := Sized(params, capital, side, price, atr, time);
      var stopDistance := params.stopAtrMult * atr;
      assert stopDistance == StopDistance(params, atr);
      var stopPrice := if side == Long then price - stopDistance else price + stopDistance;
      assert stopPrice == StopPrice(side, price, stopDistance);
      var dollarRisk := capital * params.riskPerTrade;
      var size := dollarRisk / stopDistance;
      var notional := size * price;
      if notional < params.minNotional {
        assert sized == None;
        return;
      }
      ghost var raw := size;
      if notional > capital * params.maxNotionalPerPosition {
        size := (capital * params.maxNotionalPerPosition) / price;
      }
      var pos := Position(side, price, stopPrice, size, false, time);
      assert size == Clamp(raw, price, capital * params.maxNotionalPerPosition);
      assert sized.value.stopPrice == stopPrice && sized.value.size == size;
      assert sized == Some(pos);
      positions := positions + [pos];
      tradeLog := tradeLog + [LogEntry(time, side, price, size, stopPrice, capital)];
    }

    /** The stop check of one bar: close every open position whose stop the bar reaches. */
    method CheckStops(bar: Bar)
      modifies this
      ensures capital == old(capital) + StopsPnl(old(positions), bar)
      ensures positions == CloseStops(old(positions), bar)
      ensures tradeLog == old(tradeLog) && equityCurve == old(equityCurve)
    {
      ghost var ps := positions;
      var i := 0;
      while i < |positions|
        invariant |positions| == |ps| && 0 <= i <= |ps|
        invariant forall j :: 0 <= j < i ==> positions[j] == AfterStop(ps[j], bar)
        invariant forall j :: i <= j < |ps| ==> positions[j] == ps[j]
        invariant capital == old(capital) + StopsPnl(ps[..i], bar)
        invariant tradeLog == old(tradeLog) && equityCurve == old(equityCurve)
      {
        StopsPnlSnoc(ps, bar, i);
        ghost var before := capital;
        var pos := positions[i];
        assert pos == ps[i];
        if !pos.closed {
          if pos.side == Long && bar.low <= pos.stopPrice {
            var pnl := (pos.stopPrice - pos.entryPrice) * pos.size;
            assert pnl == StopPnl(pos);
            capital := capital + pnl;
            positions := positions[i := pos.(closed := true)];
          } else if pos.side == Short && bar.high >= pos.stopPrice {
            var pnl := (pos.entryPrice - pos.stopPrice) * pos.size;
            assert pnl == StopPnl(pos);
            capital := capital + pnl;
            positions := positions[i := pos.(closed := true)];
          }
        }
        assert capital == before + (if Hit(ps[i], bar) then StopPnl(ps[i]) else 0.0);
        i := i + 1;
      }
      assert ps[..i] == ps;
    }

    /** The unrealised profit of the open positions at `price`. */
    method UnrealizedAt(price: real) returns (u: real)
      ensures u == Unrealized(positions, price)
    {
      u := 0.0;
      var i := 0;
      while i < |positions|
        invariant 0 <= i <= |positions|
        invariant u == Unrealized(positions[..i], price)
      {
        assert positions[..i + 1][..i] == positions[..i];
        var pos := positions[i];
        if !pos.closed {
          u := u + (if pos.side == Long then (price - pos.entryPrice) * pos.size
                    else (pos.entryPrice - price) * pos.size);
        }
        i := i + 1;
      }
      assert positions[..i] == positions;
    }

    /** One iteration of the backtest loop. */
    method ProcessBar(bar: Bar, row: SignalRow)
      requires ValidParams(params) && bar.close > 0.0
      modifies this
      ensures Snapshot() == Step(params, old(Snapshot()), bar, row)
    {
      ghost var b := Snapshot();
      CheckStops(bar);
      ghost var stopped := Snapshot();
      assert stopped == Book(b.capital + StopsPnl(b.positions, bar), CloseStops(b.positions, bar),
                             b.tradeLog, b.equityCurve);
      HandleOrder(bar.close, row);
      ghost var h := Snapshot();
      var unrealized := UnrealizedAt(bar.close);
      equityCurve := equityCurve + [EquityPoint(bar.time, capital + unrealized)];
      assert Snapshot() == h.(equityCurve := h.equityCurve + [EquityPoint(bar.time, h.capital + Unrealized(h.positions, bar.close))]);
    }

    /** The loop of `backtest` over the bars and their signal rows. */
    method RunBars(bars: seq<Bar>, rows: seq<SignalRow>)
      requires ValidParams(params) && |rows| == |bars| && PositiveCloses(bars)
      modifies this
      ensures Snapshot() == Run(params, old(Snapshot()), bars, rows)
    {
      ghost var start := Snapshot();
      var i := 0;
      while i < |bars|
        invariant 0 <= i <= |bars| && PositiveCloses(bars[..i])
        invariant Snapshot() == Run(params, start, bars[..i], rows[..i])
      {
        RunSnoc(params, start, bars, rows, i);
        ProcessBar(bars[i], rows[i]);
        i := i + 1;
      }
      assert bars[..i] == bars && rows[..i] == rows;
    }

    /**
     * `backtest`: the signals of `historical`, then every bar in order. The
     * state carries over from earlier calls.
     */
    method Backtest(historical: Frame) returns (r: Result<Summary>)
      requires ValidParams(params) && PositiveCloses(historical.bars)
      modifies this
      ensures GenerateSignals(params, historical).Err? ==>
                r == Err(GenerateSignals(params, historical).error) && Snapshot() == old(Snapshot())
      ensures GenerateSignals(params, historical).Ok? ==>
                Snapshot() == Run(params, old(Snapshot()), historical.bars, GenerateSignals(params, historical).value) &&
                r == Ok(Summary(capital, tradeLog, equityCurve))
    {
      var signals := GenerateSignals(params, historical);
      if signals.Err? {
        return Err(signals.error);
      }
      RunBars(historical.bars, signals.value);
      r := Ok(Summary(capital, tradeLog, equityCurve));
    }
  }
}


