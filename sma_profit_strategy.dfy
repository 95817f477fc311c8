/**
 * The two one-unit moving-average crossover strategies of
 * strategies/sma_profit_strategy.py.
 *
 * Both buy on an upward crossing of a short full-window moving average
 * over a long one and hold one unit until they can sell it at a profit.
 * `SimpleMovingAverageProfitStrategy` sells on the downward crossing and
 * keeps a cash account. `SimpleMovingAverageProfitStrategy1` sells whenever
 * the short average is below the long one and the close is above the entry
 * price known when the signals were generated; it keeps no cash.
 */
module SmaProfitStrategy {
  import opened Common
  import opened Series

  const DefaultShortWindow: nat := 5
  const DefaultLongWindow: nat := 20
  const DefaultInitialCapital: real := 10000.0

  /** One input row: its timestamp and its close, which may be NaN. */
  datatype Quote = Quote(time: int, close: Option<real>)

  /** The input table: the names of its columns and its rows in order. */
  datatype Table = Table(columns: set<string>, rows: seq<Quote>)

  datatype Action = Buy | Sell

  /** One output row of `generate_signals`: timestamp, close and signal (`None` when no signal). */
  datatype SignalRow = SignalRow(time: int, close: Option<real>, signal: Option<Action>)

  // ---------------------------------------------------------------
  // Signals
  // ---------------------------------------------------------------

  function CloseColumn(rows: seq<Quote>): (c: Column)
    ensures |c| == |rows| && forall i :: 0 <= i < |rows| ==> c[i] == rows[i].close
  {
    seq(|rows|, i requires 0 <= i < |rows| => rows[i].close)
  }

  /**
   * `close.rolling(w).mean()`: defined only over a full window of present
   * closes. A window of width 0 holds no values, so its mean is NaN.
   */
  function MovingAverage(rows: seq<Quote>, w: nat): (c: Column)
    ensures |c| == |rows|
    ensures w == 0 ==> forall t :: 0 <= t < |rows| ==> c[t].None?
  {
    Rolling(CloseColumn(rows), w, if w == 0 then 1 else w, MeanOf)
  }

  /** `s > l` now and `s <= l` on the previous row; NaN on either side is false. */
  predicate CrossesAbove(s: Column, l: Column, t: nat)
    requires t < |s| == |l|
  {
    Gt(s[t], l[t]) && Le(Shift(s)[t], Shift(l)[t])
  }

  /** `s < l` now and `s >= l` on the previous row. */
  predicate CrossesBelow(s: Column, l: Column, t: nat)
    requires t < |s| == |l|
  {
    Lt(s[t], l[t]) && Ge(Shift(s)[t], Shift(l)[t])
  }

  /**
   * The signal of row t: the sell assignment runs after the buy assignment
   * and so would win, but the two crossings never coincide.
   */
  function CrossSignal(s: Column, l: Column, t: nat): (r: Option<Action>)
    requires t < |s| == |l|
    ensures r == Some(Buy) <==> CrossesAbove(s, l, t)
    ensures r == Some(Sell) <==> CrossesBelow(s, l, t)
    ensures r == None <==> !CrossesAbove(s, l, t) && !CrossesBelow(s, l, t)
  {
    if CrossesBelow(s, l, t) then Some(Sell)
    else if CrossesAbove(s, l, t) then Some(Buy)
    else None
  }

  function SignalRows(shortWindow: nat, longWindow: nat, rows: seq<Quote>): (r: seq<SignalRow>)
    ensures |r| == |rows|
    ensures forall t :: 0 <= t < |rows| ==>
              r[t] == SignalRow(rows[t].time, rows[t].close,
                                CrossSignal(MovingAverage(rows, shortWindow), MovingAverage(rows, longWindow), t))
  {
    var s := MovingAverage(rows, shortWindow);
    var l := MovingAverage(rows, longWindow);
    seq(|rows|, t requires 0 <= t < |rows| => SignalRow(rows[t].time, rows[t].close, CrossSignal(s, l, t)))
  }

  /**
   * The column `generate_signals` reads first and finds missing: `close`
   * when the averages are computed, `timestamp` when the result is selected.
   */
  function MissingColumn(columns: set<string>): (r: Option<string>)
    ensures r.None? <==> "close" in columns && "timestamp" in columns
    ensures r.Some? ==> r.value !in columns
    ensures "close" !in columns ==> r == Some("close")
  {
    if "close" !in columns then Some("close")
    else if "timestamp" !in columns then Some("timestamp")
    else None
  }

  /** `SimpleMovingAverageProfitStrategy.generate_signals`. */
  function GenerateSignals(shortWindow: nat, longWindow: nat, table: Table): (r: Result<seq<SignalRow>>)
    ensures r.Err? <==> "close" !in table.columns || "timestamp" !in table.columns
    ensures r.Err? ==> r.error == KeyError(MissingColumn(table.columns).value)
    ensures r.Ok? ==> r.value == SignalRows(shortWindow, longWindow, table.rows)
  {
    var missing := MissingColumn(table.columns);
    if missing.Some? then Err(KeyError(missing.value))
    else Ok(SignalRows(shortWindow, longWindow, table.rows))
  }

  // ---------------------------------------------------------------
  // What the signals say
  // ---------------------------------------------------------------

  /** A signal needs both averages on this row and on the previous one. */
  lemma SignalNeedsAverages(shortWindow: nat, longWindow: nat, rows: seq<Quote>, t: nat)
    requires t < |rows|
    requires SignalRows(shortWindow, longWindow, rows)[t].signal.Some?
    ensures t > 0
    ensures MovingAverage(rows, shortWindow)[t].Some? && MovingAverage(rows, shortWindow)[t - 1].Some?
    ensures MovingAverage(rows, longWindow)[t].Some? && MovingAverage(rows, longWindow)[t - 1].Some?
  {
    var s := MovingAverage(rows, shortWindow);
    var l := MovingAverage(rows, longWindow);
    assert CrossesAbove(s, l, t) || CrossesBelow(s, l, t);
  }

  /** A window of width 0 gives an all-NaN average, so no row ever signals. */
  lemma ZeroWindowNeverSignals(shortWindow: nat, longWindow: nat, rows: seq<Quote>)
    requires shortWindow == 0 || longWindow == 0
    ensures forall t :: 0 <= t < |rows| ==> SignalRows(shortWindow, longWindow, rows)[t].signal.None?
  {
    forall t | 0 <= t < |rows|
      ensures SignalRows(shortWindow, longWindow, rows)[t].signal.None?
    {
      if SignalRows(shortWindow, longWindow, rows)[t].signal.Some? {
        SignalNeedsAverages(shortWindow, longWindow, rows, t);
      }
    }
  }

  /** A full-window average defined on two consecutive rows covers the last `w + 1` closes. */
  lemma AverageHistory(rows: seq<Quote>, w: nat, t: nat)
    requires w >= 1 && 0 < t < |rows|
    requires MovingAverage(rows, w)[t].Some? && MovingAverage(rows, w)[t - 1].Some?
    ensures t >= w && forall j :: t - w <= j <= t ==> rows[j].close.Some?
  {
    FullWindowDefined(CloseColumn(rows), w, MeanOf, t);
    FullWindowDefined(CloseColumn(rows), w, MeanOf, t - 1);
  }

  /**
   * Hence a signal needs at least `w` rows before it and every close of
   * the last `w + 1` rows, for both windows.
   */
  lemma SignalNeedsHistory(shortWindow: nat, longWindow: nat, rows: seq<Quote>, t: nat)
    requires shortWindow >= 1 && longWindow >= 1 && t < |rows|
    requires SignalRows(shortWindow, longWindow, rows)[t].signal.Some?
    ensures t >= shortWindow && t >= longWindow
    ensures forall j :: t - longWindow <= j <= t ==> rows[j].close.Some?
    ensures forall j :: t - shortWindow <= j <= t ==> rows[j].close.Some?
  {
    SignalNeedsAverages(shortWindow, longWindow, rows, t);
    AverageHistory(rows, shortWindow, t);
    AverageHistory(rows, longWindow, t);
  }

  /** A buy row is never followed by another buy row, nor a sell row by another sell row. */
  lemma NoConsecutiveRepeats(shortWindow: nat, longWindow: nat, rows: seq<Quote>, t: nat)
    requires t + 1 < |rows|
    ensures SignalRows(shortWindow, longWindow, rows)[t].signal == Some(Buy) ==>
              SignalRows(shortWindow, longWindow, rows)[t + 1].signal != Some(Buy)
    ensures SignalRows(shortWindow, longWindow, rows)[t].signal == Some(Sell) ==>
              SignalRows(shortWindow, longWindow, rows)[t + 1].signal != Some(Sell)
  {
    var s := MovingAverage(rows, shortWindow);
    var l := MovingAverage(rows, longWindow);
    assert Shift(s)[t + 1] == s[t] && Shift(l)[t + 1] == l[t];
  }

  // ---------------------------------------------------------------
  // SimpleMovingAverageProfitStrategy: the cash account
  // ---------------------------------------------------------------

  datatype Trade = Trade(time: int, side: Action, price: real)

  datatype EquityPoint = EquityPoint(time: int, equity: real)

  /** The fields `handle_order` updates. */
  datatype Account = Account(capital: real, position: int, entryPrice: real, tradeLog: seq<Trade>)

  /** An account with nothing held and nothing traded. */
  function Fresh(capital: real): Account
  {
    Account(capital, 0, 0.0, [])
  }

  /** `handle_order`: buy one unit when flat; sell it on a sell signal only above the entry price. */
  function HandleSpec(a: Account, price: real, signal: Option<Action>, time: int): (r: Account)
    ensures |a.tradeLog| <= |r.tradeLog| <= |a.tradeLog| + 1 && r.tradeLog[..|a.tradeLog|] == a.tradeLog
    ensures |r.tradeLog| == |a.tradeLog| ==> r == a
    ensures |r.tradeLog| > |a.tradeLog| && r.tradeLog[|a.tradeLog|].side == Buy ==>
              signal == Some(Buy) && a.position == 0 && r.position == 1 && r.capital == a.capital - price
    ensures |r.tradeLog| > |a.tradeLog| && r.tradeLog[|a.tradeLog|].side == Sell ==>
              signal == Some(Sell) && a.position > 0 && price > a.entryPrice &&
              r.position == 0 && r.capital == a.capital + price
    ensures a.position == 0 || a.position == 1 ==>
              Equity(r, price) == Equity(a, price)
  {
    if signal == Some(Buy) && a.position == 0 then
      Account(a.capital - price, 1, price, a.tradeLog + [Trade(time, Buy, price)])
    else if signal == Some(Sell) && a.position > 0 && price > a.entryPrice then
      Account(a.capital + price, 0, 0.0, a.tradeLog + [Trade(time, Sell, price)])
    else a
  }

  /** Cash plus the held units valued at `price`. */
  function Equity(a: Account, price: real): real
  {
    a.capital + a.position as real * price
  }

  /** The account and the equity points `backtest` has produced so far. */
  datatype Sim = Sim(account: Account, equityCurve: seq<EquityPoint>)

  /** One row of `backtest`: a NaN close is skipped; otherwise trade, then mark to market. */
  function Step(s: Sim, row: SignalRow): (r: Sim)
    ensures row.close.None? ==> r == s
    ensures row.close.Some? ==>
              r.equityCurve == s.equityCurve + [EquityPoint(row.time, Equity(r.account, row.close.value))]
    ensures row.close.Some? && (s.account.position == 0 || s.account.position == 1) ==>
              Equity(r.account, row.close.value) == Equity(s.account, row.close.value)
  {
    if row.close.None? then s
    else
      var price := row.close.value;
      var a := HandleSpec(s.account, price, row.signal, row.time);
      Sim(a, s.equityCurve + [EquityPoint(row.time, Equity(a, price))])
  }

  function Run(s: Sim, rows: seq<SignalRow>): Sim
    decreases |rows|
  {
    if rows == [] then s else Step(Run(s, rows[..|rows| - 1]), rows[|rows| - 1])
  }

  lemma RunSnoc(s: Sim, rows: seq<SignalRow>, i: nat)
    requires i < |rows|
    ensures Run(s, rows[..i + 1]) == Step(Run(s, rows[..i]), rows[i])
  {
    assert rows[..i + 1][..i] == rows[..i];
  }

  function SignalCloses(rows: seq<SignalRow>): (c: Column)
    ensures |c| == |rows| && forall i :: 0 <= i < |rows| ==> c[i] == rows[i].close
  {
    seq(|rows|, i requires 0 <= i < |rows| => rows[i].close)
  }

  /** `backtest` appends exactly one equity point per row whose close is present. */
  lemma {:induction false} RunEquityCount(s: Sim, rows: seq<SignalRow>)
    ensures |Run(s, rows).equityCurve| == |s.equityCurve| + |Present(SignalCloses(rows))|
    ensures Run(s, rows).equityCurve[..|s.equityCurve|] == s.equityCurve
    decreases |rows|
  {
    if rows != [] {
      var n := |rows| - 1;
      RunEquityCount(s, rows[..n]);
      assert SignalCloses(rows)[..n] == SignalCloses(rows[..n]);
      var r := Run(s, rows[..n]);
      assert r.equityCurve[..|s.equityCurve|] == s.equityCurve;
    }
  }

  /** The log alternates buy, sell, buy, … starting with a buy. */
  predicate Alternates(log: seq<Trade>)
  {
    forall i :: 0 <= i < |log| ==> log[i].side == (if i % 2 == 0 then Buy else Sell)
  }

  /** Every sell is above the buy just before it. */
  predicate SellsAtProfit(log: seq<Trade>)
  {
    forall i :: 0 < i < |log| && i % 2 == 1 ==> log[i].price > log[i - 1].price
  }

  /** The cash the trades moved: minus each buy's price, plus each sell's. */
  function CashFlow(log: seq<Trade>): real
    decreases |log|
  {
    if log == [] then 0.0
    else
      var last := log[|log| - 1];
      CashFlow(log[..|log| - 1]) + (if last.side == Buy then -last.price else last.price)
  }

  /**
   * What the strategy keeps true of an account that started with `initial`
   * in cash: the position is 1 exactly after a buy, the entry price is that
   * buy's price, and capital is the initial capital plus the cash flow.
   */
  predicate Good(a: Account, initial: real)
  {
    Alternates(a.tradeLog) && SellsAtProfit(a.tradeLog) &&
    a.position == |a.tradeLog| % 2 &&
    (a.position == 1 ==> a.entryPrice == a.tradeLog[|a.tradeLog| - 1].price) &&
    (a.position == 0 ==> a.entryPrice == 0.0) &&
    a.capital == initial + CashFlow(a.tradeLog)
  }

  lemma FreshIsGood(capital: real)
    ensures Good(Fresh(capital), capital)
  {
  }

  lemma HandleKeepsGood(a: Account, initial: real, price: real, signal: Option<Action>, time: int)
    requires Good(a, initial)
    ensures Good(HandleSpec(a, price, signal, time), initial)
  {
    var r := HandleSpec(a, price, signal, time);
    if |r.tradeLog| > |a.tradeLog| {
      var log := r.tradeLog;
      assert log[..|log| - 1] == a.tradeLog;
      assert forall i :: 0 <= i < |a.tradeLog| ==> log[i] == a.tradeLog[i];
    }
  }

  lemma {:induction false} RunKeepsGood(s: Sim, rows: seq<SignalRow>, initial: real)
    requires Good(s.account, initial)
    ensures Good(Run(s, rows).account, initial)
    decreases |rows|
  {
    if rows != [] {
      var n := |rows| - 1;
      RunKeepsGood(s, rows[..n], initial);
      var r := Run(s, rows[..n]);
      if rows[n].close.Some? {
        HandleKeepsGood(r.account, initial, rows[n].close.value, rows[n].signal, rows[n].time);
      }
    }
  }

  /** A completed round trip adds its profit, which is positive. */
  lemma RoundTripGain(log: seq<Trade>, k: nat)
    requires Alternates(log) && SellsAtProfit(log) && 2 * k + 2 <= |log|
    ensures CashFlow(log[..2 * k + 2]) == CashFlow(log[..2 * k]) + (log[2 * k + 1].price - log[2 * k].price)
    ensures CashFlow(log[..2 * k + 2]) > CashFlow(log[..2 * k])
  {
    var p := log[..2 * k + 2];
    assert p[..|p| - 1] == log[..2 * k + 1];
    assert log[..2 * k + 1][..2 * k] == log[..2 * k];
  }

  /** With the position flat, every round trip is complete and the cash flow is positive unless nothing was traded. */
  lemma {:induction false} FlatCashFlow(log: seq<Trade>)
    requires Alternates(log) && SellsAtProfit(log) && |log| % 2 == 0
    ensures CashFlow(log) >= 0.0
    ensures |log| > 0 ==> CashFlow(log) > 0.0
    decreases |log|
  {
    if |log| > 0 {
      var k := (|log| - 2) / 2;
      var init := log[..2 * k];
      assert forall i :: 0 <= i < |init| ==> init[i] == log[i];
      FlatCashFlow(init);
      RoundTripGain(log, k);
      assert log[..2 * k + 2] == log;
    }
  }

  /**
   * Each completed round trip leaves the capital strictly above what it
   * was before the trip, so a flat account that has traded holds more cash
   * than it started with.
   */
  lemma CapitalAfterRoundTrips(a: Account, initial: real)
    requires Good(a, initial) && a.position == 0
    ensures a.capital >= initial
    ensures |a.tradeLog| > 0 ==> a.capital > initial
  {
    FlatCashFlow(a.tradeLog);
  }

  /** What `backtest` returns: the trade log and the equity curve. */
  datatype Report = Report(tradeLog: seq<Trade>, equityCurve: seq<EquityPoint>)

  class SimpleMovingAverageProfitStrategy {
    const shortWindow: nat
    const longWindow: nat
    var capital: real
    var position: int
    var entryPrice: real
    var tradeLog: seq<Trade>

    function Snapshot(): Account
      reads this
    {
      Account(capital, position, entryPrice, tradeLog)
    }

    constructor (shortWindow: nat, longWindow: nat, initialCapital: real)
        ensures this.shortWindow == shortWindow && this.longWindow == longWindow
      ensures Snapshot() == Fresh(initialCapital)
    {
      this.shortWindow := shortWindow;
      this.longWindow := longWindow;
      capital := initialCapital;
      position := 0;
      entryPrice := 0.0;
      tradeLog := [];
    }

    method HandleOrder(currentPrice: real, signal: Option<Action>, timestamp: int)
      modifies this
      ensures Snapshot() == HandleSpec(old(Snapshot()), currentPrice, signal, timestamp)
    {
      if signal == Some(Buy) && position == 0 {
        position := 1;
        entryPrice := currentPrice;
        capital := capital - currentPrice;
        tradeLog := tradeLog + [Trade(timestamp, Buy, currentPrice)];
      } else if signal == Some(Sell) && position > 0 {
        if currentPrice > entryPrice {
          position := 0;
          capital := capital + currentPrice;
          entryPrice := 0.0;
          tradeLog := tradeLog + [Trade(timestamp, Sell, currentPrice)];
        }
      }
    }

    /** One pass of the `backtest` loop: skip a NaN close, else trade and record the equity. */
    method ProcessRow(row: SignalRow, equityCurve: seq<EquityPoint>) returns (curve: seq<EquityPoint>)
      modifies this
      ensures Sim(Snapshot(), curve) == Step(Sim(old(Snapshot()), equityCurve), row)
    {
      curve := equityCurve;
      if row.close.Some? {
        HandleOrder(row.close.value, row.signal, row.time);
        var currentEquity := capital + position as real * row.close.value;
        curve := curve + [EquityPoint(row.time, currentEquity)];
        assert currentEquity == Equity(Snapshot(), row.close.value);
      }
    }

    /**
     * `backtest`: `timestamp` is read first, then the signals are generated;
     * rows with a NaN close are skipped and every other row trades and adds
     * one equity point. The account carries over from earlier calls.
     */
    method Backtest(historical: Table) returns (r: Result<Report>)
        modifies this
      ensures "timestamp" !in historical.columns ==>
                r == Err(KeyError("timestamp")) && Snapshot() == old(Snapshot())
      ensures "timestamp" in historical.columns && "close" !in historical.columns ==>
                r == Err(KeyError("close")) && Snapshot() == old(Snapshot())
      ensures "timestamp" in historical.columns && "close" in historical.columns ==>
                var sim := Run(Sim(old(Snapshot()), []), SignalRows(shortWindow, longWindow, historical.rows));
                r == Ok(Report(tradeLog, sim.equityCurve)) && Snapshot() == sim.account
    {
      if "timestamp" !in historical.columns {
        return Err(KeyError("timestamp"));
      }
      var signals := GenerateSignals(shortWindow, longWindow, historical);
      if signals.Err? {
        return Err(signals.error);
      }
      var rows := signals.value;
      ghost var start := Snapshot();
      var equityCurve: seq<EquityPoint> := [];
      var i := 0;
      while i < |rows|
        invariant 0 <= i <= |rows|
        invariant Sim(Snapshot(), equityCurve) == Run(Sim(start, []), rows[..i])
      {
        RunSnoc(Sim(start, []), rows, i);
        equityCurve := ProcessRow(rows[i], equityCurve);
        i := i + 1;
      }
      assert rows[..i] == rows;
      r := Ok(Report(tradeLog, equityCurve));
    }
  }

  // ---------------------------------------------------------------
  // SimpleMovingAverageProfitStrategy1: signals that depend on the entry price
  // ---------------------------------------------------------------

  /**
   * `profit_check`: false when the entry price is unset or 0 (falsy in
   * Python), otherwise close > entry price with NaN giving false.
   */
  predicate ProfitCheck(close: Option<real>, entryPrice: Option<real>)
  {
    entryPrice.Some? && entryPrice.value != 0.0 && Gt(close, entryPrice)
  }

  /** The signal of row t: sell (assigned last, so it wins) when the short average is below and the close shows a profit. */
  function ProfitSignal(s: Column, l: Column, close: Option<real>, entryPrice: Option<real>, t: nat): (r: Option<Action>)
    requires t < |s| == |l|
    ensures r == Some(Sell) <==> Lt(s[t], l[t]) && ProfitCheck(close, entryPrice)
    ensures r == Some(Buy) <==> CrossesAbove(s, l, t)
  {
    if Lt(s[t], l[t]) && ProfitCheck(close, entryPrice) then Some(Sell)
    else if CrossesAbove(s, l, t) then Some(Buy)
    else None
  }

  function ProfitSignalRows(shortWindow: nat, longWindow: nat, entryPrice: Option<real>, rows: seq<Quote>): (r: seq<SignalRow>)
    ensures |r| == |rows|
    ensures forall t :: 0 <= t < |rows| ==>
              r[t] == SignalRow(rows[t].time, rows[t].close,
                                ProfitSignal(MovingAverage(rows, shortWindow), MovingAverage(rows, longWindow),
                                             rows[t].close, entryPrice, t))
  {
    var s := MovingAverage(rows, shortWindow);
    var l := MovingAverage(rows, longWindow);
    seq(|rows|, t requires 0 <= t < |rows| =>
      SignalRow(rows[t].time, rows[t].close, ProfitSignal(s, l, rows[t].close, entryPrice, t)))
  }

  /** `SimpleMovingAverageProfitStrategy1.generate_signals`, given the entry price held when it is called. */
  function GenerateProfitSignals(shortWindow: nat, longWindow: nat, entryPrice: Option<real>, table: Table): (r: Result<seq<SignalRow>>)
    ensures r.Err? <==> "close" !in table.columns || "timestamp" !in table.columns
    ensures r.Err? ==> r.error == KeyError(MissingColumn(table.columns).value)
    ensures r.Ok? ==> r.value == ProfitSignalRows(shortWindow, longWindow, entryPrice, table.rows)
  {
    var missing := MissingColumn(table.columns);
    if missing.Some? then Err(KeyError(missing.value))
    else Ok(ProfitSignalRows(shortWindow, longWindow, entryPrice, table.rows))
  }

  predicate NoSells(rows: seq<SignalRow>)
  {
    forall t :: 0 <= t < |rows| ==> rows[t].signal != Some(Sell)
  }

  /** Without a usable entry price no row carries a sell signal. */
  lemma NoEntryNoSells(shortWindow: nat, longWindow: nat, entryPrice: Option<real>, rows: seq<Quote>)
    requires entryPrice.None? || entryPrice == Some(0.0)
    ensures NoSells(ProfitSignalRows(shortWindow, longWindow, entryPrice, rows))
  {
    var r := ProfitSignalRows(shortWindow, longWindow, entryPrice, rows);
    forall t | 0 <= t < |rows| ensures r[t].signal != Some(Sell) {
      assert !ProfitCheck(rows[t].close, entryPrice);
    }
  }

  /** A buy row of the second strategy is never followed by another buy row. */
  lemma NoConsecutiveProfitBuys(shortWindow: nat, longWindow: nat, entryPrice: Option<real>, rows: seq<Quote>, t: nat)
    requires t + 1 < |rows|
    requires ProfitSignalRows(shortWindow, longWindow, entryPrice, rows)[t].signal == Some(Buy)
    ensures ProfitSignalRows(shortWindow, longWindow, entryPrice, rows)[t + 1].signal != Some(Buy)
  {
    var s := MovingAverage(rows, shortWindow);
    var l := MovingAverage(rows, longWindow);
    assert Shift(s)[t + 1] == s[t] && Shift(l)[t + 1] == l[t];
  }

  /** A trade of the second strategy: side and price (NaN when the close was). */
  datatype Entry = Entry(side: Action, price: Option<real>)

  /** The fields its `handle_order` updates: `position` is `'long'` exactly when `holding`. */
  datatype Holding = Holding(holding: bool, entryPrice: Option<real>, trades: seq<Entry>)

  function FreshHolding(): Holding
  {
    Holding(false, None, [])
  }

  /** `handle_order`: buy when not long; sell when long and the price is above the entry price. */
  function HandleProfitSpec(h: Holding, price: Option<real>, signal: Option<Action>): (r: Holding)
    ensures |h.trades| <= |r.trades| <= |h.trades| + 1 && r.trades[..|h.trades|] == h.trades
    ensures |r.trades| == |h.trades| ==> r == h
    ensures |r.trades| > |h.trades| ==>
              (r.trades[|h.trades|] == Entry(Buy, price) && signal == Some(Buy) && !h.holding &&
                 r.holding && r.entryPrice == price) ||
              (r.trades[|h.trades|] == Entry(Sell, price) && signal == Some(Sell) && h.holding &&
                 Gt(price, h.entryPrice) && !r.holding && r.entryPrice.None?)
  {
    if signal == Some(Buy) && !h.holding then
      Holding(true, price, h.trades + [Entry(Buy, price)])
    else if signal == Some(Sell) && h.holding && Gt(price, h.entryPrice) then
      Holding(false, None, h.trades + [Entry(Sell, price)])
    else h
  }

  function RunProfit(h: Holding, rows: seq<SignalRow>): Holding
    decreases |rows|
  {
    if rows == [] then h
    else
      var n := |rows| - 1;
      var prev := RunProfit(h, rows[..n]);
      HandleProfitSpec(prev, rows[n].close, rows[n].signal)
  }

  lemma RunProfitSnoc(h: Holding, rows: seq<SignalRow>, i: nat)
    requires i < |rows|
    ensures RunProfit(h, rows[..i + 1]) == HandleProfitSpec(RunProfit(h, rows[..i]), rows[i].close, rows[i].signal)
  {
    assert rows[..i + 1][..i] == rows[..i];
  }

  /**
   * What the second strategy keeps true: its trades alternate buy, sell, …
   * starting with a buy, it is long exactly after a buy at the entry price,
   * and every sell is above the buy before it.
   */
  predicate GoodHolding(h: Holding)
  {
    (forall i :: 0 <= i < |h.trades| ==> h.trades[i].side == (if i % 2 == 0 then Buy else Sell)) &&
    (forall i :: 0 < i < |h.trades| && i % 2 == 1 ==> Gt(h.trades[i].price, h.trades[i - 1].price)) &&
    h.holding == (|h.trades| % 2 == 1) &&
    (h.holding ==> h.entryPrice == h.trades[|h.trades| - 1].price) &&
    (!h.holding ==> h.entryPrice.None?)
  }

  lemma {:induction false} RunProfitKeepsGood(h: Holding, rows: seq<SignalRow>)
    requires GoodHolding(h)
    ensures GoodHolding(RunProfit(h, rows))
    decreases |rows|
  {
    if rows != [] {
      var n := |rows| - 1;
      RunProfitKeepsGood(h, rows[..n]);
      HandleProfitKeepsGood(RunProfit(h, rows[..n]), rows[n].close, rows[n].signal);
    }
  }

  /** One order keeps the ledger alternating and every sale above its purchase. */
  lemma HandleProfitKeepsGood(h: Holding, price: Option<real>, signal: Option<Action>)
    requires GoodHolding(h)
    ensures GoodHolding(HandleProfitSpec(h, price, signal))
  {
    var r := HandleProfitSpec(h, price, signal);
    if |r.trades| > |h.trades| {
      assert forall i :: 0 <= i < |h.trades| ==> r.trades[i] == h.trades[i];
    }
  }

  /** Over rows without a sell signal at most one trade, a buy, is added. */
  lemma {:induction false} RunWithoutSells(h: Holding, rows: seq<SignalRow>)
    requires NoSells(rows)
    ensures var r := RunProfit(h, rows);
            |h.trades| <= |r.trades| <= |h.trades| + (if h.holding then 0 else 1) &&
            r.trades[..|h.trades|] == h.trades &&
            (|r.trades| > |h.trades| ==> r.trades[|h.trades|].side == Buy && r.holding) &&
            (|r.trades| == |h.trades| ==> r.holding == h.holding)
    decreases |rows|
  {
    if rows != [] {
      var n := |rows| - 1;
      assert NoSells(rows[..n]);
      RunWithoutSells(h, rows[..n]);
      var prev := RunProfit(h, rows[..n]);
      var r := HandleProfitSpec(prev, rows[n].close, rows[n].signal);
      assert rows[n].signal != Some(Sell);
      if |prev.trades| > |h.trades| {
        assert r == prev;
      } else {
        assert prev.trades == h.trades;
      }
    }
  }

  /**
   * On a fresh instance the signals are generated with no entry price, so
   * none is a sell and `backtest` records at most one trade, a buy.
   */
  lemma FreshBacktestTradesOnce(shortWindow: nat, longWindow: nat, rows: seq<Quote>)
    ensures var r := RunProfit(FreshHolding(), ProfitSignalRows(shortWindow, longWindow, None, rows));
            |r.trades| <= 1 && (|r.trades| == 1 ==> r.trades[0].side == Buy)
  {
    var signals := ProfitSignalRows(shortWindow, longWindow, None, rows);
    NoEntryNoSells(shortWindow, longWindow, None, rows);
    RunWithoutSells(FreshHolding(), signals);
  }

  class SimpleMovingAverageProfitStrategy1 {
    const shortWindow: nat
    const longWindow: nat
    var holding: bool
    var entryPrice: Option<real>
    var trades: seq<Entry>

    function Snapshot(): Holding
      reads this
    {
      Holding(holding, entryPrice, trades)
    }

    constructor (shortWindow: nat, longWindow: nat)
        ensures this.shortWindow == shortWindow && this.longWindow == longWindow
      ensures Snapshot() == FreshHolding()
    {
      this.shortWindow := shortWindow;
      this.longWindow := longWindow;
      holding := false;
      entryPrice := None;
      trades := [];
    }

    method HandleOrder(currentPrice: Option<real>, signal: Option<Action>)
      modifies this
      ensures Snapshot() == HandleProfitSpec(old(Snapshot()), currentPrice, signal)
    {
      if signal == Some(Buy) && !holding {
        holding := true;
        entryPrice := currentPrice;
        trades := trades + [Entry(Buy, currentPrice)];
      } else if signal == Some(Sell) && holding && Gt(currentPrice, entryPrice) {
        holding := false;
        trades := trades + [Entry(Sell, currentPrice)];
        entryPrice := None;
      }
    }

    /** `backtest`: the signals are generated once, with the entry price held now, then every row is handled. */
    method Backtest(historical: Table) returns (r: Result<seq<Entry>>)
        modifies this
      ensures GenerateProfitSignals(shortWindow, longWindow, old(entryPrice), historical).Err? ==>
                r == Err(GenerateProfitSignals(shortWindow, longWindow, old(entryPrice), historical).error) &&
                Snapshot() == old(Snapshot())
      ensures GenerateProfitSignals(shortWindow, longWindow, old(entryPrice), historical).Ok? ==>
                Snapshot() == RunProfit(old(Snapshot()),
                                        GenerateProfitSignals(shortWindow, longWindow, old(entryPrice), historical).value) &&
                r == Ok(trades)
    {
      var signals := GenerateProfitSignals(shortWindow, longWindow, entryPrice, historical);
      if signals.Err? {
        return Err(signals.error);
      }
      var rows := signals.value;
      ghost var start := Snapshot();
      var i := 0;
      while i < |rows|
        invariant 0 <= i <= |rows|
        invariant Snapshot() == RunProfit(start, rows[..i])
      {
        RunProfitSnoc(start, rows, i);
        HandleOrder(rows[i].close, rows[i].signal);
        i := i + 1;
      }
      assert rows[..i] == rows;
      r := Ok(trades);
    }
  }
}
