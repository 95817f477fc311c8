/** Values shared by every strategy: optional values (pandas NaN), errors, bars and frames. */
module Common {

  /** `None` stands for a missing value (pandas NaN, or Python `None`). */
  datatype Option<+T> = None | Some(value: T)

  /** The exceptions the strategies raise on malformed input. */
  datatype Error =
    | ValueError(message: string)
    | AssertionError(message: string)
    | KeyError(column: string)
    | IndexError
    | ZeroDivisionError

  datatype Result<+T> = Ok(value: T) | Err(error: Error)

  /** One OHLCV bar; `time` is its timestamp in seconds since the epoch. */
  datatype Bar = Bar(time: int, open: real, high: real, low: real, close: real, volume: real)

  /** A price table: the names of the columns it carries and its bars in timestamp order. */
  datatype Frame = Frame(columns: set<string>, bars: seq<Bar>)

  /** A well-formed bar: the close lies inside the bar's range. */
  predicate InRange(b: Bar)
  {
    b.low <= b.close <= b.high
  }

  predicate AllInRange(bars: seq<Bar>)
  {
    forall i :: 0 <= i < |bars| ==> InRange(bars[i])
  }

  predicate PositiveCloses(bars: seq<Bar>)
  {
    forall i :: 0 <= i < |bars| ==> bars[i].close > 0.0
  }

  /** The first name of `names` that `columns` lacks, if any. */
  function FirstMissing(columns: set<string>, names: seq<string>): (r: Option<string>)
    ensures r.None? <==> forall i :: 0 <= i < |names| ==> names[i] in columns
    ensures r.Some? ==> r.value in names && r.value !in columns
    ensures r.Some? ==> exists k :: 0 <= k < |names| && names[k] == r.value &&
                                    forall j :: 0 <= j < k ==> names[j] in columns
  {
    if names == [] then None
    else if names[0] !in columns then Some(names[0])
    else FirstMissing(columns, names[1..])
  }
}
