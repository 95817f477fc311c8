/**
 * The SMA strategy: signals from the low and high crossing a trailing
 * simple moving average of the close, a long-only simulation that sells
 * only at a minimum profit, and the performance metrics of its ledger.
 */
module SmaStrategy {
  import opened Common
  import opened Series
  import opened RealArith

  /** Strategy parameters; the share of the balance to invest is kept as a fraction. */
  datatype Config = Config(smaPeriod: nat, investmentFraction: real, profitThreshold: real)

  /** The constructor takes the investment share in percent. */
  function NewConfig(smaPeriod: nat, balanceInvestmentPct: real, profitThreshold: real): (c: Config)
    ensures c.investmentFraction * 100.0 == balanceInvestmentPct
    ensures c.smaPeriod == smaPeriod && c.profitThreshold == profitThreshold
  {
    Config(smaPeriod, balanceInvestmentPct / 100.0, profitThreshold)
  }

  /** Defaults: a 200-bar average, 80% of the balance per entry, 20% minimum profit. */
  function DefaultConfig(): Config
  {
    NewConfig(200, 80.0, 0.20)
  }

  const Required: seq<string> := ["open", "high", "low", "close"]

  /** One row of the signal table: the bar, its moving average and its signal (1 buy, -1 sell, 0 hold). */
  datatype SignalRow = SignalRow(bar: Bar, sma: Option<real>, signal: int)

  /** `close.rolling(window=period, min_periods=1).mean()`. */
  function SmaColumn(bars: seq<Bar>, period: nat): (c: Column)
    requires period >= 1
    ensures |c| == |bars|
  {
    Rolling(Lift(Closes(bars)), period, 1, MeanOf)
  }

  /** The mean of the closes of the (possibly shorter) window that ends at bar t. */
  ghost function TrailingMean(bars: seq<Bar>, period: nat, t: nat): real
    requires period >= 1 && t < |bars|
  {
    Mean(Closes(bars)[WinStart(t, period)..t + 1])
  }

  function SignalAt(bars: seq<Bar>, sma: Column, t: nat): (sig: int)
    requires |sma| == |bars| && t < |bars|
    ensures sig in {-1, 0, 1}
    ensures sig != 0 ==> sma[t].Some?
  {
    var low := Lift(Lows(bars));
    var high := Lift(Highs(bars));
    if Gt(low[t], sma[t]) && Lt(Shift(low)[t], Shift(sma)[t]) then 1
    else if Lt(high[t], sma[t]) then -1
    else 0
  }

  function SignalRows(bars: seq<Bar>, period: nat): (rows: seq<SignalRow>)
    requires period >= 1
    ensures |rows| == |bars|
    ensures forall t :: 0 <= t < |bars| ==> rows[t].bar == bars[t]
    ensures forall t :: 0 <= t < |bars| ==> rows[t].signal == SignalAt(bars, SmaColumn(bars, period), t)
  {
    var sma := SmaColumn(bars, period);
    seq(|bars|, t requires 0 <= t < |bars| => SignalRow(bars[t], sma[t], SignalAt(bars, sma, t)))
  }

  /**
   * `generate_signals`: refuses a table without open, high, low and close,
   * naming the first one missing; then pandas refuses a window narrower
   * than `min_periods=1`.
   */
  function GenerateSignals(frame: Frame, period: nat): (r: Result<seq<SignalRow>>)
    ensures r.Ok? <==> (forall i :: 0 <= i < |Required| ==> Required[i] in frame.columns) && period >= 1
    ensures FirstMissing(frame.columns, Required).Some? ==>
              r == Err(ValueError("Required column " + FirstMissing(frame.columns, Required).value + " not found in data"))
    ensures FirstMissing(frame.columns, Required).None? && period == 0 ==>
              r == Err(ValueError("min_periods 1 must be <= window 0"))
    ensures r.Ok? ==> period >= 1 && r.value == SignalRows(frame.bars, period)
  {
    match FirstMissing(frame.columns, Required)
    case Some(c) => Err(ValueError("Required column " + c + " not found in data"))
    case None =>
      if period == 0 then Err(ValueError("min_periods 1 must be <= window 0"))
      else Ok(SignalRows(frame.bars, period))
  }

  /**
   * The moving average is defined at every bar: it is the mean of the last
   * min(t+1, period) closes.
   */
  lemma SmaIsTrailingMean(bars: seq<Bar>, period: nat, t: nat)
    requires period >= 1 && t < |bars|
    ensures |Closes(bars)[WinStart(t, period)..t + 1]| == if t + 1 < period then t + 1 else period
    ensures SmaColumn(bars, period)[t] == Some(TrailingMean(bars, period, t))
  {
    PartialWindowLift(Closes(bars), period, MeanOf, t);
  }

  /** Bar t is a buy exactly when its low is above the average and the previous low was below the previous average. */
  lemma SignalIsBuy(bars: seq<Bar>, period: nat, t: nat)
    requires period >= 1 && t < |bars|
    ensures SignalRows(bars, period)[t].signal == 1 <==>
              t > 0 && bars[t].low > TrailingMean(bars, period, t) &&
              bars[t - 1].low < TrailingMean(bars, period, t - 1)
  {
    SignalValues(bars, period, t);
  }

  /** Otherwise bar t is a sell exactly when its high is below the average, and a hold when neither. */
  lemma SignalIsSell(bars: seq<Bar>, period: nat, t: nat)
    requires period >= 1 && t < |bars|
    ensures SignalRows(bars, period)[t].signal == -1 <==>
              !(t > 0 && bars[t].low > TrailingMean(bars, period, t) &&
                bars[t - 1].low < TrailingMean(bars, period, t - 1)) &&
              bars[t].high < TrailingMean(bars, period, t)
  {
    SignalValues(bars, period, t);
  }

  lemma SignalValues(bars: seq<Bar>, period: nat, t: nat)
    requires period >= 1 && t < |bars|
    ensures var m := TrailingMean(bars, period, t);
            var prev := if t > 0 then TrailingMean(bars, period, t - 1) else 0.0;
            var sig := SignalRows(bars, period)[t].signal;
            (sig == 1 <==> t > 0 && bars[t].low > m && bars[t - 1].low < prev) &&
            (sig == -1 <==> !(t > 0 && bars[t].low > m && bars[t - 1].low < prev) && bars[t].high < m)
  {
    SmaIsTrailingMean(bars, period, t);
    if t > 0 {
      SmaIsTrailingMean(bars, period, t - 1);
    }
    SignalAtValues(bars, SmaColumn(bars, period), t, TrailingMean(bars, period, t), if t > 0 then TrailingMean(bars, period, t - 1) else 0.0);
  }

  /** `SignalAt` with the averages at t and t-1 known. */
  lemma SignalAtValues(bars: seq<Bar>, sma: Column, t: nat, m: real, prev: real)
    requires |sma| == |bars| && t < |bars| && sma[t] == Some(m)
    requires t > 0 ==> sma[t - 1] == Some(prev)
    ensures SignalAt(bars, sma, t) == 1 <==> t > 0 && bars[t].low > m && bars[t - 1].low < prev
    ensures SignalAt(bars, sma, t) == -1 <==> !(t > 0 && bars[t].low > m && bars[t - 1].low < prev) && bars[t].high < m
  {
    var low := Lift(Lows(bars));
    var high := Lift(Highs(bars));
    assert low[t] == Some(bars[t].low) && high[t] == Some(bars[t].high);
    if t > 0 {
      assert Shift(low)[t] == Some(bars[t - 1].low);
      assert Shift(sma)[t] == Some(prev);
    } else {
      assert Shift(low)[t] == None;
    }
  }

  // ---------------------------------------------------------------
  // handle_order
  // ---------------------------------------------------------------

  datatype Side = Buy | Sell

  /** An order; a sell leaves its volume open (the position is tracked elsewhere). */
  datatype Order = Order(side: Side, volume: Option<real>, price: real)

  const DefaultBalance: real := 10000.0

  function HandleOrder(cfg: Config, currentPrice: real, signals: seq<SignalRow>, balance: Option<real>)
    : (r: Result<Option<Order>>)
    ensures signals == [] <==> r == Err(IndexError)
    ensures signals != [] ==>
              var last := signals[|signals| - 1].signal;
              var funds := if balance.Some? then balance.value else DefaultBalance;
              (r == Err(ZeroDivisionError) <==> last == 1 && currentPrice == 0.0) &&
              (r == Ok(None) <==> last != 1 && last != -1) &&
              (r.Ok? && r.value.Some? && r.value.value.side == Buy <==> last == 1 && currentPrice != 0.0) &&
              (r.Ok? && r.value.Some? && r.value.value.side == Sell <==> last == -1) &&
              (r.Ok? && r.value.Some? && r.value.value.side == Buy ==>
                 r.value.value.volume.Some? &&
                 r.value.value.volume.value * currentPrice == funds * cfg.investmentFraction) &&
              (r.Ok? && r.value.Some? && r.value.value.side == Sell ==> r.value.value.volume.None?)
    ensures r.Ok? && r.value.Some? ==> r.value.value.price == currentPrice
  {
    var funds := if balance.Some? then balance.value else DefaultBalance;
    if signals == [] then Err(IndexError)
    else
      var last := signals[|signals| - 1].signal;
      if last == 0 then Ok(None)
      else if last == 1 then
        if currentPrice == 0.0 then Err(ZeroDivisionError)
        else Ok(Some(Order(Buy, Some(funds * cfg.investmentFraction / currentPrice), currentPrice)))
      else if last == -1 then Ok(Some(Order(Sell, None, currentPrice)))
      else Ok(None)
  }

  // ---------------------------------------------------------------
  // The backtest loop
  // ---------------------------------------------------------------

  datatype Trade =
    | BuyTrade(time: int, price: real, volume: real, cost: real, balance: real)
    | SellTrade(time: int, price: real, volume: real, revenue: real, profit: real, profitPct: real, balance: real)

  datatype EquityPoint = EquityPoint(time: int, equity: real)

  /** The simulation state after some bars: holdings, cash, entry price and the ledgers so far. */
  datatype Sim = Sim(position: real, balance: real, entryPrice: Option<real>,
                     trades: seq<Trade>, equity: seq<EquityPoint>)

  const StartingBalance: real := 10000.0

  function Start(): Sim
  {
    Sim(0.0, StartingBalance, None, [], [])
  }

  predicate PositiveRows(rows: seq<SignalRow>)
  {
    forall i :: 0 <= i < |rows| ==> rows[i].bar.close > 0.0
  }

  /** An open position always has a known, positive entry price. */
  predicate Coherent(s: Sim)
  {
    s.position > 0.0 ==> s.entryPrice.Some? && s.entryPrice.value > 0.0
  }

  /** Cash plus the open position valued at `price`. */
  function MarkToMarket(s: Sim, price: real): real
  {
    if s.position > 0.0 then s.balance + s.position * price else s.balance
  }

  /**
   * One bar: record the equity, then buy with the configured share of the
   * balance when flat on a buy signal, or sell the whole position on a sell
   * signal when the gain since entry reaches the threshold.
   */
  function Step(cfg: Config, s: Sim, row: SignalRow): (s': Sim)
    requires Coherent(s) && row.bar.close > 0.0
    ensures Coherent(s')
    ensures s'.equity == s.equity + [EquityPoint(row.bar.time, MarkToMarket(s, row.bar.close))]
  {
    var price := row.bar.close;
    var s1 := s.(equity := s.equity + [EquityPoint(row.bar.time, MarkToMarket(s, price))]);
    if row.signal == 1 && s.position == 0.0 then
      var volume := s.balance * cfg.investmentFraction / price;
      var cost := volume * price;
      var balance := s.balance - cost;
      s1.(position := volume, balance := balance, entryPrice := Some(price),
          trades := s.trades + [BuyTrade(row.bar.time, price, volume, cost, balance)])
    else if s.position > 0.0 && row.signal == -1 then
      var entry := s.entryPrice.value;
      var profitPct := (price - entry) / entry;
      if profitPct >= cfg.profitThreshold then
        var revenue := s.position * price;
        var profit := revenue - s.position * entry;
        var balance := s.balance + revenue;
        s1.(position := 0.0, balance := balance, entryPrice := None,
            trades := s.trades + [SellTrade(row.bar.time, price, s.position, revenue, profit, profitPct, balance)])
      else s1
    else s1
  }

  /** The state after the rows, in order. */
  function Run(cfg: Config, rows: seq<SignalRow>): (s: Sim)
    requires PositiveRows(rows)
    ensures Coherent(s)
    ensures |s.equity| == |rows|
    decreases |rows|
  {
    if rows == [] then Start()
    else Step(cfg, Run(cfg, rows[..|rows| - 1]), rows[|rows| - 1])
  }

  lemma RunSnoc(cfg: Config, rows: seq<SignalRow>, i: nat)
    requires PositiveRows(rows) && i < |rows|
    ensures PositiveRows(rows[..i])
    ensures Run(cfg, rows[..i + 1]) == Step(cfg, Run(cfg, rows[..i]), rows[i])
  {
    assert rows[..i + 1][..i] == rows[..i];
  }

  /** The backtest loop over the signal rows, returning the trade ledger and the equity curve. */
  method Simulate(cfg: Config, rows: seq<SignalRow>) returns (trades: seq<Trade>, equity: seq<EquityPoint>)
    requires PositiveRows(rows)
    ensures trades == Run(cfg, rows).trades
    ensures equity == Run(cfg, rows).equity
  {
    var position: real := 0.0;
    var balance: real := StartingBalance;
    var entryPrice: Option<real> := None;
    trades, equity := [], [];
    var i := 0;
    while i < |rows|
      invariant 0 <= i <= |rows|
      invariant Sim(position, balance, entryPrice, trades, equity) == Run(cfg, rows[..i])
    {
      RunSnoc(cfg, rows, i);
      position, balance, entryPrice, trades, equity :=
        ProcessBar(cfg, rows[i], position, balance, entryPrice, trades, equity);
      i := i + 1;
    }
    assert rows[..i] == rows;
  }

  /** The loop body for one bar: record the equity, then act on the bar's signal. */
  method ProcessBar(cfg: Config, row: SignalRow, position: real, balance: real, entryPrice: Option<real>,
                    trades: seq<Trade>, equity: seq<EquityPoint>)
    returns (position': real, balance': real, entryPrice': Option<real>,
             trades': seq<Trade>, equity': seq<EquityPoint>)
    requires Coherent(Sim(position, balance, entryPrice, trades, equity)) && row.bar.close > 0.0
    ensures Sim(position', balance', entryPrice', trades', equity') ==
            Step(cfg, Sim(position, balance, entryPrice, trades, equity), row)
  {
    ghost var next := Step(cfg, Sim(position, balance, entryPrice, trades, equity), row);
    var time, price := row.bar.time, row.bar.close;
    var current := balance;
    if position > 0.0 {
      current := balance + position * price;
    }
    assert current == MarkToMarket(Sim(position, balance, entryPrice, trades, equity), price);
    position', balance', entryPrice', trades' := position, balance, entryPrice, trades;
    equity' := equity + [EquityPoint(time, current)];
    if row.signal == 1 && position == 0.0 {
      var volume := balance * cfg.investmentFraction / price;
      position' := volume;
      entryPrice' := Some(price);
      var cost := volume * price;
      balance' := balance - cost;
      var purchase := BuyTrade(time, price, volume, cost, balance');
      trades' := trades + [purchase];
      assert next.trades[|trades|] == purchase;
      assert next.trades == trades';
    } else if position > 0.0 && row.signal == -1 {
      var entry := entryPrice.value;
      var profitPct := (price - entry) / entry;
      if profitPct >= cfg.profitThreshold {
        var revenue := position * price;
        var profit := revenue - position * entry;
        balance' := balance + revenue;
        var sale := SellTrade(time, price, position, revenue, profit, profitPct, balance');
        trades' := trades + [sale];
        position' := 0.0;
        entryPrice' := None;
        assert next.trades[|trades|] == sale;
        assert next.trades == trades';
      }
    }
    assert next.equity == equity';
  }

  // ---------------------------------------------------------------
  // What the loop keeps
  // ---------------------------------------------------------------

  /** Trades alternate, starting with a buy. */
  predicate Alternates(trades: seq<Trade>)
  {
    forall i :: 0 <= i < |trades| ==> (trades[i].BuyTrade? <==> i % 2 == 0)
  }

  /** `sell` sells the whole volume of `buy`, at a gain of at least the threshold. */
  predicate ClosesBuy(cfg: Config, sell: Trade, buy: Trade)
  {
    sell.SellTrade? && sell.volume == buy.volume &&
    sell.profitPct * buy.price == sell.price - buy.price &&
    sell.profitPct >= cfg.profitThreshold &&
    sell.profit == sell.volume * (sell.price - buy.price)
  }

  predicate SellsCloseBuys(cfg: Config, trades: seq<Trade>)
  {
    forall i :: 0 < i < |trades| && trades[i].SellTrade? ==> ClosesBuy(cfg, trades[i], trades[i - 1])
  }

  /** Every trade is at a positive price and every buy buys a positive volume. */
  predicate PositiveTrades(trades: seq<Trade>)
  {
    forall i :: 0 <= i < |trades| ==> trades[i].price > 0.0 && (trades[i].BuyTrade? ==> trades[i].volume > 0.0)
  }

  /** No trade leaves the cash balance below zero. */
  predicate NonNegBalances(trades: seq<Trade>)
  {
    forall i :: 0 <= i < |trades| ==> trades[i].balance >= 0.0
  }

  predicate PositiveCurve(curve: seq<EquityPoint>)
  {
    forall i :: 0 <= i < |curve| ==> curve[i].equity > 0.0
  }

  /** What the backtest loop keeps when the investment share is in (0, 1]. */
  predicate Good(cfg: Config, s: Sim)
  {
    Alternates(s.trades) && SellsCloseBuys(cfg, s.trades) && PositiveTrades(s.trades) &&
    NonNegBalances(s.trades) &&
    (|s.trades| % 2 == 0 ==> s.position == 0.0 && s.entryPrice == None && s.balance > 0.0) &&
    (|s.trades| % 2 == 1 ==>
       s.position > 0.0 && s.balance >= 0.0 &&
       s.position == s.trades[|s.trades| - 1].volume &&
       s.entryPrice == Some(s.trades[|s.trades| - 1].price)) &&
    (s.trades == [] ==> s.balance == StartingBalance) &&
    (s.trades != [] ==> s.balance == s.trades[|s.trades| - 1].balance) &&
    PositiveCurve(s.equity)
  }

  lemma MarkPositive(cfg: Config, s: Sim, price: real)
    requires Good(cfg, s) && price > 0.0
    ensures MarkToMarket(s, price) > 0.0
  {
    if s.position > 0.0 {
      PosMul(s.position, price);
    }
  }

  lemma AlternatesSnoc(ts: seq<Trade>, x: Trade)
    requires Alternates(ts) && (x.BuyTrade? <==> |ts| % 2 == 0)
    ensures Alternates(ts + [x])
  {
  }

  lemma SellsCloseSnoc(cfg: Config, ts: seq<Trade>, x: Trade)
    requires SellsCloseBuys(cfg, ts)
    requires x.SellTrade? ==> |ts| > 0 && ClosesBuy(cfg, x, ts[|ts| - 1])
    ensures SellsCloseBuys(cfg, ts + [x])
  {
    var ts' := ts + [x];
    forall i | 0 < i < |ts'| && ts'[i].SellTrade?
      ensures ClosesBuy(cfg, ts'[i], ts'[i - 1])
    {
      if i < |ts| {
        assert ts'[i] == ts[i] && ts'[i - 1] == ts[i - 1];
      } else {
        assert ts'[i] == x && ts'[i - 1] == ts[|ts| - 1];
      }
    }
  }

  lemma PositiveTradesSnoc(ts: seq<Trade>, x: Trade)
    requires PositiveTrades(ts) && x.price > 0.0 && (x.BuyTrade? ==> x.volume > 0.0)
    ensures PositiveTrades(ts + [x])
  {
    assert forall i :: 0 <= i < |ts| ==> (ts + [x])[i] == ts[i];
  }

  lemma NonNegBalancesSnoc(ts: seq<Trade>, x: Trade)
    requires NonNegBalances(ts) && x.balance >= 0.0
    ensures NonNegBalances(ts + [x])
  {
    assert forall i :: 0 <= i < |ts| ==> (ts + [x])[i] == ts[i];
  }

  lemma PositiveCurveSnoc(curve: seq<EquityPoint>, p: EquityPoint)
    requires PositiveCurve(curve) && p.equity > 0.0
    ensures PositiveCurve(curve + [p])
  {
    assert forall i :: 0 <= i < |curve| ==> (curve + [p])[i] == curve[i];
  }

  /**
   * A buy only moves money from the balance into the position: valued at
   * the entry price, the account is worth what it was worth before.
   */
  lemma BuyKeepsEquity(cfg: Config, s: Sim, row: SignalRow)
    requires Coherent(s) && row.bar.close > 0.0 && row.signal == 1 && s.position == 0.0
    requires 0.0 <= cfg.investmentFraction && 0.0 <= s.balance
    ensures MarkToMarket(Step(cfg, s, row), row.bar.close) == MarkToMarket(s, row.bar.close)
  {
    var price := row.bar.close;
    var volume := s.balance * cfg.investmentFraction / price;
    assert volume * price == s.balance * cfg.investmentFraction;
  }

  lemma BuyKeepsGood(cfg: Config, s: Sim, row: SignalRow)
    requires 0.0 < cfg.investmentFraction <= 1.0
    requires Good(cfg, s) && Coherent(s) && row.bar.close > 0.0
    requires row.signal == 1 && s.position == 0.0
    ensures Good(cfg, Step(cfg, s, row))
  {
    var price := row.bar.close;
    var f := cfg.investmentFraction;
    var b := s.balance;
    assert |s.trades| % 2 == 0;
    PosMul(b, f);
    var volume := b * f / price;
    assert volume > 0.0;
    var cost := volume * price;
    assert cost == b * f;
    NonNegMul(b, 1.0 - f);
    assert b - b * f == b * (1.0 - f);
    var buy := BuyTrade(row.bar.time, price, volume, cost, b - cost);
    var point := EquityPoint(row.bar.time, b);
    assert Step(cfg, s, row) == Sim(volume, b - cost, Some(price), s.trades + [buy], s.equity + [point]);
    AlternatesSnoc(s.trades, buy);
    SellsCloseSnoc(cfg, s.trades, buy);
    PositiveTradesSnoc(s.trades, buy);
    NonNegBalancesSnoc(s.trades, buy);
    PositiveCurveSnoc(s.equity, point);
  }

  lemma SellKeepsGood(cfg: Config, s: Sim, row: SignalRow)
    requires Good(cfg, s) && Coherent(s) && row.bar.close > 0.0
    requires s.position > 0.0 && row.signal == -1
    ensures Good(cfg, Step(cfg, s, row))
  {
    var price := row.bar.close;
    var entry := s.entryPrice.value;
    var pct := (price - entry) / entry;
    var point := EquityPoint(row.bar.time, MarkToMarket(s, price));
    MarkPositive(cfg, s, price);
    PositiveCurveSnoc(s.equity, point);
    if pct >= cfg.profitThreshold {
      var n := |s.trades|;
      assert n % 2 == 1;
      var revenue := s.position * price;
      var sell := SellTrade(row.bar.time, price, s.position, revenue, revenue - s.position * entry, pct, s.balance + revenue);
      assert Step(cfg, s, row).trades[n] == sell;
      assert Step(cfg, s, row) == Sim(0.0, s.balance + revenue, None, s.trades + [sell], s.equity + [point]);
      PosMul(s.position, price);
      assert pct * entry == price - entry;
      assert revenue - s.position * entry == s.position * (price - entry);
      assert ClosesBuy(cfg, sell, s.trades[n - 1]);
      AlternatesSnoc(s.trades, sell);
      SellsCloseSnoc(cfg, s.trades, sell);
      PositiveTradesSnoc(s.trades, sell);
      NonNegBalancesSnoc(s.trades, sell);
    } else {
      assert Step(cfg, s, row) == s.(equity := s.equity + [point]);
    }
  }

  lemma {:induction false} StepKeepsGood(cfg: Config, s: Sim, row: SignalRow)
    requires 0.0 < cfg.investmentFraction <= 1.0
    requires Good(cfg, s) && Coherent(s) && row.bar.close > 0.0
    ensures Good(cfg, Step(cfg, s, row))
  {
    if row.signal == 1 && s.position == 0.0 {
      BuyKeepsGood(cfg, s, row);
    } else if s.position > 0.0 && row.signal == -1 {
      SellKeepsGood(cfg, s, row);
    } else {
      var point := EquityPoint(row.bar.time, MarkToMarket(s, row.bar.close));
      MarkPositive(cfg, s, row.bar.close);
      PositiveCurveSnoc(s.equity, point);
      assert Step(cfg, s, row) == s.(equity := s.equity + [point]);
    }
  }

  /**
   * With an investment share in (0, 1]: trades alternate buy/sell, every
   * sell closes the whole preceding buy at a gain of at least the
   * threshold, the balance never goes negative and the equity curve stays
   * positive.
   */
  lemma {:induction false} RunGood(cfg: Config, rows: seq<SignalRow>)
    requires 0.0 < cfg.investmentFraction <= 1.0 && PositiveRows(rows)
    ensures Good(cfg, Run(cfg, rows))
    decreases |rows|
  {
    if rows != [] {
      var init := rows[..|rows| - 1];
      RunGood(cfg, init);
      StepKeepsGood(cfg, Run(cfg, init), rows[|rows| - 1]);
    }
  }

  /**
   * On a ledger the loop produces (see `RunGood`), every sell follows a buy
   * of the same volume and realizes at least threshold x volume x entry price.
   */
  lemma SellProfitAboveThreshold(cfg: Config, ts: seq<Trade>, i: nat)
    requires Alternates(ts) && SellsCloseBuys(cfg, ts) && PositiveTrades(ts)
    requires i < |ts| && ts[i].SellTrade?
    ensures i > 0 && ts[i - 1].BuyTrade?
    ensures ts[i].volume == ts[i - 1].volume
    ensures ts[i].profit >= cfg.profitThreshold * ts[i].volume * ts[i - 1].price
  {
    assert i % 2 == 1;
    assert ClosesBuy(cfg, ts[i], ts[i - 1]);
    ProfitBound(cfg.profitThreshold, ts[i].profitPct, ts[i].volume, ts[i - 1].price, ts[i].price, ts[i].profit);
  }

  lemma ProfitBound(threshold: real, pct: real, v: real, e: real, p: real, profit: real)
    requires e > 0.0 && v > 0.0 && pct >= threshold
    requires pct * e == p - e && profit == v * (p - e)
    ensures profit >= threshold * v * e
  {
    MulLe(e, threshold, pct);
    assert e * threshold <= e * pct;
    MulLe(v, threshold * e, p - e);
    assert v * (threshold * e) == threshold * v * e;
  }

  /** The equity curve only grows: the curve after a prefix of the rows is a prefix of the final curve. */
  lemma {:induction false} RunEquityPrefix(cfg: Config, rows: seq<SignalRow>, k: nat)
    requires PositiveRows(rows) && k <= |rows|
    ensures Run(cfg, rows[..k]).equity == Run(cfg, rows).equity[..k]
    decreases |rows|
  {
    if k < |rows| {
      var init := rows[..|rows| - 1];
      assert rows[..k] == init[..k];
      RunEquityPrefix(cfg, init, k);
    } else {
      assert rows[..k] == rows;
    }
  }

  /** Equity point i is the portfolio valued at bar i's close, before bar i's signal is acted on. */
  lemma EquityBeforeSignal(cfg: Config, rows: seq<SignalRow>, i: nat)
    requires PositiveRows(rows) && i < |rows|
    ensures Run(cfg, rows).equity[i] ==
              EquityPoint(rows[i].bar.time, MarkToMarket(Run(cfg, rows[..i]), rows[i].bar.close))
  {
    RunEquityPrefix(cfg, rows, i + 1);
    assert rows[..i + 1][..i] == rows[..i];
  }

  // ---------------------------------------------------------------
  // Metrics
  // ---------------------------------------------------------------

  datatype Metrics = Metrics(finalCapital: real, cagr: real, sharpe: real, maxDrawdown: Option<real>,
                             avgTradesPerDay: real, avgTradesPerMonth: real)

  const SecondsPerDay: int := 86400
  const RiskFree: real := 0.02
  const TradingDays: real := 252.0
  const Epsilon: real := 0.0000000001

  /** The square root the Sharpe ratio uses, supplied by the caller; it must not be negative on non-negative inputs. */
  ghost predicate SqrtLike(sqrt: real -> real)
  {
    forall x :: 0.0 <= x ==> 0.0 <= sqrt(x)
  }

  /**
   * Whole days between two timestamps, rounded down like `timedelta.days`
   * (which floors, also for a negative span); Dafny's division agrees with
   * flooring here because the divisor is positive.
   */
  function WholeDays(from: int, to: int): (d: int)
    ensures d * SecondsPerDay <= to - from < (d + 1) * SecondsPerDay
  {
    (to - from) / SecondsPerDay
  }

  function Balances(trades: seq<Trade>): (r: seq<real>)
    ensures |r| == |trades| && forall i :: 0 <= i < |trades| ==> r[i] == trades[i].balance
  {
    seq(|trades|, i requires 0 <= i < |trades| => trades[i].balance)
  }

  function SumSquares(xs: seq<real>, m: real): (r: real)
    ensures r >= 0.0
    decreases |xs|
  {
    if xs == [] then 0.0
    else
      var d := xs[|xs| - 1] - m;
      SquareNonNeg(d);
      SumSquares(xs[..|xs| - 1], m) + d * d
  }

  /** Population variance (`np.std` squared, ddof=0). */
  function Variance(xs: seq<real>): (v: real)
    requires |xs| > 0
    ensures v >= 0.0
  {
    SumSquares(xs, Mean(xs)) / (|xs| as real)
  }

  /** Annualised Sharpe ratio with a 2% risk-free rate; 0 without returns. */
  function Sharpe(daily: seq<real>, sqrt: real -> real): real
    requires SqrtLike(sqrt)
  {
    if |daily| == 0 then 0.0
    else ((Mean(daily) - RiskFree / TradingDays) / (sqrt(Variance(daily)) + Epsilon)) * sqrt(TradingDays)
  }

  /** Compound annual growth from the starting balance; 0 when the ledger spans no whole day. */
  function Cagr(finalCapital: real, days: int, pow: (real, real) -> real): real
  {
    var years := days as real / 365.25;
    if years > 0.0 then pow(finalCapital / StartingBalance, 1.0 / years) - 1.0 else 0.0
  }

  /** Drawdown at i: the fall of balance i below the running peak, relative to the peak; NaN when the peak is 0. */
  function DrawdownAt(bs: seq<real>, i: nat): Option<real>
    requires i < |bs|
  {
    var peak := Max(bs[..i + 1]);
    if peak == 0.0 then None else Some((bs[i] - peak) / peak)
  }

  /** The smallest drawdown, skipping NaN; NaN when every drawdown is. */
  function MaxDrawdown(bs: seq<real>): Option<real>
  {
    var dd := seq(|bs|, i requires 0 <= i < |bs| => DrawdownAt(bs, i));
    var p := Present(dd);
    if p == [] then None else Some(Min(p))
  }

  function CalculateMetrics(trades: seq<Trade>, daily: seq<real>, sqrt: real -> real,
                            pow: (real, real) -> real): (m: Metrics)
    requires SqrtLike(sqrt)
    ensures trades == [] ==> m == Metrics(StartingBalance, 0.0, 0.0, Some(0.0), 0.0, 0.0)
    ensures trades != [] ==> m.finalCapital == trades[|trades| - 1].balance
  {
    if trades == [] then Metrics(StartingBalance, 0.0, 0.0, Some(0.0), 0.0, 0.0)
    else
      var finalCapital := trades[|trades| - 1].balance;
      var days := WholeDays(trades[0].time, trades[|trades| - 1].time);
      Metrics(finalCapital, Cagr(finalCapital, days, pow), Sharpe(daily, sqrt),
              MaxDrawdown(Balances(trades)),
              PerDay(|trades|, days), PerMonth(|trades|, days))
  }

  /** The Sharpe ratio is positive exactly when the mean return beats the daily risk-free rate. */
  lemma SharpeSign(daily: seq<real>, sqrt: real -> real)
    requires SqrtLike(sqrt) && sqrt(TradingDays) > 0.0
    ensures Sharpe(daily, sqrt) > 0.0 <==> |daily| > 0 && Mean(daily) > RiskFree / TradingDays
    ensures Sharpe(daily, sqrt) < 0.0 <==> |daily| > 0 && Mean(daily) < RiskFree / TradingDays
  {
    if |daily| > 0 {
      var a := Mean(daily) - RiskFree / TradingDays;
      var d := sqrt(Variance(daily)) + Epsilon;
      assert d > 0.0;
      QuotientSign(a, d, sqrt(TradingDays));
    }
  }

  lemma QuotientSign(a: real, d: real, k: real)
    requires d > 0.0 && k > 0.0
    ensures (a / d) * k > 0.0 <==> a > 0.0
    ensures (a / d) * k < 0.0 <==> a < 0.0
  {
    var q := a / d;
    assert q * d == a;
    if a > 0.0 {
      PosMul(q, k);
    } else if a < 0.0 {
      assert (-q) * d == -a;
      PosMul(-q, k);
    }
  }

  /** Growth is 0 over less than a whole day, and 0 whenever the final balance equals the starting one. */
  lemma CagrFlat(finalCapital: real, days: int, pow: (real, real) -> real)
    requires forall y :: pow(1.0, y) == 1.0
    ensures days <= 0 ==> Cagr(finalCapital, days, pow) == 0.0
    ensures finalCapital == StartingBalance ==> Cagr(finalCapital, days, pow) == 0.0
  {
    if finalCapital == StartingBalance {
      assert finalCapital / StartingBalance == 1.0;
    }
  }

  /** On a ledger of non-negative balances that starts above 0, the maximum drawdown is defined and lies in [-1, 0]. */
  lemma DrawdownBounds(bs: seq<real>)
    requires |bs| > 0 && bs[0] > 0.0
    requires forall i :: 0 <= i < |bs| ==> bs[i] >= 0.0
    ensures MaxDrawdown(bs).Some?
    ensures -1.0 <= MaxDrawdown(bs).value <= 0.0
  {
    var dd := seq(|bs|, i requires 0 <= i < |bs| => DrawdownAt(bs, i));
    forall i | 0 <= i < |bs|
      ensures dd[i].Some? && -1.0 <= dd[i].value <= 0.0
    {
      DrawdownAtBounds(bs, i);
    }
    assert dd[0].Some?;
    PresentHas(dd, 0);
    var p := Present(dd);
    var m := Min(p);
    var k :| 0 <= k < |p| && p[k] == m;
    PresentFrom(dd, m);
  }

  lemma DrawdownAtBounds(bs: seq<real>, i: nat)
    requires i < |bs| && bs[0] > 0.0
    requires forall j :: 0 <= j < |bs| ==> bs[j] >= 0.0
    ensures DrawdownAt(bs, i).Some? && -1.0 <= DrawdownAt(bs, i).value <= 0.0
  {
    var pre := bs[..i + 1];
    var peak := Max(pre);
    assert pre[0] == bs[0] && pre[i] == bs[i];
    assert peak > 0.0;
    DivBetween(bs[i] - peak, peak, -1.0, 0.0);
  }

  /**
   * On any ledger of non-negative balances, a maximum drawdown that is
   * defined lies in [-1, 0]: a balance can fall at most to zero and never
   * rises above the running peak. (Leading zero balances have no peak, so
   * their rows are NaN and skipped.)
   */
  lemma DrawdownWithin(bs: seq<real>)
    requires forall i :: 0 <= i < |bs| ==> bs[i] >= 0.0
    ensures MaxDrawdown(bs).Some? ==> -1.0 <= MaxDrawdown(bs).value <= 0.0
  {
    var dd := seq(|bs|, i requires 0 <= i < |bs| => DrawdownAt(bs, i));
    var p := Present(dd);
    if p != [] {
      var m := Min(p);
      var k :| 0 <= k < |p| && p[k] == m;
      PresentFrom(dd, m);
      var i :| 0 <= i < |dd| && dd[i] == Some(m);
      DrawdownAtWithin(bs, i);
    }
  }

  lemma DrawdownAtWithin(bs: seq<real>, i: nat)
    requires i < |bs|
    requires forall j :: 0 <= j < |bs| ==> bs[j] >= 0.0
    ensures DrawdownAt(bs, i).Some? ==> -1.0 <= DrawdownAt(bs, i).value <= 0.0
  {
    var pre := bs[..i + 1];
    var peak := Max(pre);
    assert pre[i] == bs[i];
    if peak != 0.0 {
      assert peak > 0.0;
      DivBetween(bs[i] - peak, peak, -1.0, 0.0);
    }
  }

  /** A ledger whose balances never fall has no drawdown. */
  lemma DrawdownZeroWhenRising(bs: seq<real>)
    requires |bs| > 0 && bs[0] > 0.0
    requires forall i, j :: 0 <= i <= j < |bs| ==> bs[i] <= bs[j]
    ensures MaxDrawdown(bs) == Some(0.0)
  {
    var dd := seq(|bs|, i requires 0 <= i < |bs| => DrawdownAt(bs, i));
    forall i | 0 <= i < |bs|
      ensures dd[i] == Some(0.0)
    {
      var pre := bs[..i + 1];
      var peak := Max(pre);
      assert pre[i] == bs[i];
      assert peak == bs[i];
    }
    PresentHas(dd, 0);
    var p := Present(dd);
    var m := Min(p);
    var k :| 0 <= k < |p| && p[k] == m;
    PresentFrom(dd, m);
  }

  /** Trades per day over whole days; 0 when the ledger spans none. */
  function PerDay(n: nat, days: int): real
  {
    if days > 0 then n as real / days as real else 0.0
  }

  /** Trades per average (30.44-day) month; 0 when the ledger spans no whole day. */
  function PerMonth(n: nat, days: int): real
  {
    var months := days as real / 30.44;
    if months > 0.0 then n as real / months else 0.0
  }

  /** Trade frequency is 0 when the ledger spans no whole day, and otherwise counts trades per day and per month. */
  lemma TradeRates(n: nat, days: int)
    ensures days <= 0 ==> PerDay(n, days) == 0.0 && PerMonth(n, days) == 0.0
    ensures days > 0 ==> PerDay(n, days) * days as real == n as real &&
                         PerMonth(n, days) * (days as real / 30.44) == n as real
  {
    var months := days as real / 30.44;
    assert months * 30.44 == days as real;
    if days > 0 {
      assert months > 0.0;
    } else {
      assert months <= 0.0;
    }
  }

  // ---------------------------------------------------------------
  // backtest
  // ---------------------------------------------------------------

  /** `pct_change().dropna()`: the relative change from each value to the next. */
  function PctChange(xs: seq<real>): (r: seq<real>)
    requires forall i :: 0 <= i < |xs| ==> xs[i] != 0.0
    ensures |r| == if |xs| == 0 then 0 else |xs| - 1
    ensures forall i :: 0 <= i < |r| ==> xs[i] * (1.0 + r[i]) == xs[i + 1]
  {
    if |xs| <= 1 then []
    else seq(|xs| - 1, i requires 0 <= i < |xs| - 1 => (xs[i + 1] - xs[i]) / xs[i])
  }

  function Equities(curve: seq<EquityPoint>): (r: seq<real>)
    ensures |r| == |curve| && forall i :: 0 <= i < |curve| ==> r[i] == curve[i].equity
  {
    seq(|curve|, i requires 0 <= i < |curve| => curve[i].equity)
  }

  /**
   * `backtest`: signals, the simulation and its metrics. An empty table has
   * no equity column to take returns from, which raises a KeyError.
   */
  method Backtest(cfg: Config, frame: Frame, sqrt: real -> real, pow: (real, real) -> real)
    returns (r: Result<Metrics>)
    requires 0.0 < cfg.investmentFraction <= 1.0
    requires PositiveCloses(frame.bars) && SqrtLike(sqrt)
    ensures GenerateSignals(frame, cfg.smaPeriod).Err? ==> r == Err(GenerateSignals(frame, cfg.smaPeriod).error)
    ensures GenerateSignals(frame, cfg.smaPeriod).Ok? && frame.bars == [] ==> r == Err(KeyError("equity"))
    ensures r.Ok? <==> GenerateSignals(frame, cfg.smaPeriod).Ok? && frame.bars != []
    ensures r.Ok? ==>
              var rows := GenerateSignals(frame, cfg.smaPeriod).value;
              PositiveRows(rows) &&
              (forall i :: 0 <= i < |Run(cfg, rows).equity| ==> Run(cfg, rows).equity[i].equity > 0.0) &&
              r.value == CalculateMetrics(Run(cfg, rows).trades, PctChange(Equities(Run(cfg, rows).equity)), sqrt, pow)
    ensures r.Ok? && r.value.maxDrawdown.Some? ==> -1.0 <= r.value.maxDrawdown.value <= 0.0
  {
    var signals := GenerateSignals(frame, cfg.smaPeriod);
    if signals.Err? {
      return Err(signals.error);
    }
    var rows := signals.value;
    assert PositiveRows(rows);
    var trades, equity := Simulate(cfg, rows);
    if equity == [] {
      return Err(KeyError("equity"));
    }
    RunGood(cfg, rows);
    DrawdownWithin(Balances(trades));
    var daily := PctChange(Equities(equity));
    r := Ok(CalculateMetrics(trades, daily, sqrt, pow));
  }
}
