/**
 * The backtester: it runs a strategy's own backtest over the data when the
 * strategy has one and falls back to a generic backtest otherwise. The
 * strategy's backtest is a value of function type (absent when the
 * strategy object has no `backtest` attribute); a raised exception is an
 * `Err` result. The backtester logs one record per run, which is returned
 * beside the outcome.
 */
module Backtester {
  import opened Common

  const DefaultInitialCapital: int := 10000

  /** A strategy as the backtester sees it: only its `backtest`, if any. */
  datatype Strategy<!D, R> = Strategy(backtest: Option<D -> Result<Option<R>>>)

  datatype Backtester<!D, R> = Backtester(strategy: Strategy<D, R>, data: D, initialCapital: int)

  datatype LogRecord = Info(message: string) | Failure(error: Error)

  /** What a run returns (or raises) and the record it logs. */
  datatype RunResult<R> = RunResult(outcome: Result<Option<R>>, log: LogRecord)

  const CompletedMessage: string := "Backtest completed successfully."

  /** A backtester built with the default initial capital. */
  function Make<D, R>(strategy: Strategy<D, R>, data: D): (b: Backtester<D, R>)
    ensures b.strategy == strategy && b.data == data
    ensures b.initialCapital == 10000
  {
    Backtester(strategy, data, DefaultInitialCapital)
  }

  /** The generic fallback has no logic yet: it returns nothing. */
  function GenericBacktest<D, R>(b: Backtester<D, R>): (r: Result<Option<R>>)
    ensures r.Ok? && r.value.None?
  {
    Ok(None)
  }

  /**
   * One run: delegate to the strategy's backtest when there is one,
   * otherwise the generic fallback; an error is logged and re-raised as is.
   */
  function Run<D, R>(b: Backtester<D, R>): (r: RunResult<R>)
    ensures b.strategy.backtest.Some? ==> r.outcome == b.strategy.backtest.value(b.data)
    ensures b.strategy.backtest.None? ==> r.outcome == Ok(None)
    ensures r.outcome.Ok? <==> r.log == Info(CompletedMessage)
    ensures r.outcome.Err? ==> r.log == Failure(r.outcome.error)
  {
    var outcome := if b.strategy.backtest.Some? then b.strategy.backtest.value(b.data)
                   else GenericBacktest(b);
    match outcome
    case Ok(_) => RunResult(outcome, Info(CompletedMessage))
    case Err(e) => RunResult(outcome, Failure(e))
  }

  // ---------------------------------------------------------------
  // Lemmas
  // ---------------------------------------------------------------

  /** The initial capital is stored but reaches neither path. */
  lemma RunIgnoresCapital<D, R>(b: Backtester<D, R>, capital: int)
    ensures Run(b.(initialCapital := capital)) == Run(b)
  {
  }

  /**
   * Errors are never swallowed: a run raises exactly when the strategy's
   * own backtest raises, and then with the same error.
   */
  lemma RunRaisesExactly<D, R>(b: Backtester<D, R>)
    ensures Run(b).outcome.Err? <==>
              b.strategy.backtest.Some? && b.strategy.backtest.value(b.data).Err?
    ensures Run(b).outcome.Err? ==> Run(b).outcome.error == b.strategy.backtest.value(b.data).error
  {
  }

  /**
   * A strategy whose `backtest` defers to the base class, which does
   * nothing, runs to completion with no result — the same as a strategy
   * with no `backtest` at all.
   */
  lemma NoOpBacktestIsGeneric<D, R>(b: Backtester<D, R>)
    requires b.strategy.backtest == Some((d: D) => Ok(None))
    ensures Run(b) == Run(b.(strategy := Strategy(None)))
    ensures Run(b) == RunResult(Ok(None), Info(CompletedMessage))
  {
  }
}


