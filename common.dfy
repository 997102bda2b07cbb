/** Shared vocabulary of the trading agent: optional values, the Python errors the
    modelled code can raise, the run mode and calendar dates. */
module Common {

  datatype Option<+T> = None | Some(value: T)

  /** The exceptions the modelled Python code raises (or lets escape); a
      `ValidationError` is pydantic's, naming the field a record rejects. */
  datatype Error =
    | ValueError(message: string)
    | KeyError(key: string)
    | IndexError
    | TypeError
    | ValidationError(field: string)

  datatype Result<+T> = Ok(value: T) | Err(error: Error)

  /** `RunMode.WARMUP` replays the market with the next day's price change known;
      every other mode is a test run. */
  datatype RunMode = Warmup | Test

  /** A calendar date; `Text.DateText` renders it as Python's `str(date)` does. */
  datatype Date = Date(year: nat, month: nat, day: nat)

  /** How many leading keys a dictionary lookup loop gets through before the first
      missing key raises a `KeyError`. */
  function CoveredPrefix<V>(keys: seq<string>, m: map<string, V>): (n: nat)
    ensures n <= |keys|
    ensures forall k :: 0 <= k < n ==> keys[k] in m
    ensures n < |keys| ==> keys[n] !in m
  {
    if keys == [] || keys[0] !in m then 0 else 1 + CoveredPrefix(keys[1..], m)
  }
}
