/**
 * The retry policy shared by the two device links (src/helpers.rs): call a
 * fallible operation until it succeeds or the attempt budget is spent,
 * sleeping a constant delay between failed attempts.
 */
module Helpers {
  import opened Primitive
  import opened Outcomes

  /**
   * The error returned once the budget is spent: the last attempt's error,
   * with a context ("Operation failed after {max_retries} attempts") that
   * names the configured budget.
   */
  datatype RetryError<E> = FailedAfter(maxRetries: nat, cause: E)

  /** Number of calls made when every call fails: `max_retries`, but never less than one. */
  function AttemptLimit(maxRetries: nat): (n: nat)
    ensures n >= 1 && n >= maxRetries
    ensures maxRetries >= 1 ==> n == maxRetries
  {
    if maxRetries == 0 then 1 else maxRetries
  }

  /**
   * Index of the first call, among calls 0 .. limit-1 of `f`, that succeeds,
   * or `limit` when none of them does.
   */
  function FirstSuccess<T, E>(f: nat -> Result<T, E>, limit: nat): (k: nat)
    ensures k <= limit
    ensures k < limit ==> f(k).Ok?
    ensures forall j :: 0 <= j < k ==> f(j).Err?
  {
    if limit == 0 then 0
    else
      var k := FirstSuccess(f, limit - 1);
      if k < limit - 1 then k
      else if f(limit - 1).Ok? then limit - 1
      else limit
  }

  /**
   * `retry_with_backoff(max_retries, delay_secs, f)`. Call k of the operation
   * (counting from 0) yields `f(k)`; `calls` is the number of calls made and
   * `sleeps` the sequence of delays slept, in seconds.
   */
  method RetryWithBackoff<T, E>(maxRetries: u32, delaySecs: u64, f: nat -> Result<T, E>)
    returns (r: Result<T, RetryError<E>>, calls: nat, sleeps: seq<u64>)
    ensures var k := FirstSuccess(f, AttemptLimit(maxRetries));
      calls == if k < AttemptLimit(maxRetries) then k + 1 else AttemptLimit(maxRetries)
    ensures 1 <= calls <= AttemptLimit(maxRetries)
    ensures forall j :: 0 <= j < calls - 1 ==> f(j).Err?
    ensures r.Ok? <==> f(calls - 1).Ok?
    ensures r.Ok? ==> r.value == f(calls - 1).value
    ensures r.Err? ==> calls == AttemptLimit(maxRetries) && r.error == FailedAfter(maxRetries, f(calls - 1).error)
    ensures sleeps == seq(calls - 1, _ => delaySecs)
  {
    var attempts: nat := 0;
    calls, sleeps := 0, [];
    while true
      invariant calls == attempts < AttemptLimit(maxRetries)
      invariant forall j :: 0 <= j < calls ==> f(j).Err?
      invariant sleeps == seq(calls, _ => delaySecs)
      decreases AttemptLimit(maxRetries) - attempts
    {
      var outcome := f(calls);
      calls := calls + 1;
      match outcome
      case Ok(result) =>
        r := Ok(result);
        return;
      case Err(err) =>
        attempts := attempts + 1;
        if attempts >= maxRetries {
          r := Err(FailedAfter(maxRetries, err));
          return;
        }
        sleeps := sleeps + [delaySecs];
    }
  }

  /** The three unit tests of helpers.rs, replayed against the contract above. */
  method RetryTests()
  {
    var succeedFirst: nat -> Result<int, string> := _ => Ok(42);
    var r, calls, sleeps := RetryWithBackoff(3, 1, succeedFirst);
    assert calls == 1 && r == Ok(42);

    var succeedThird: nat -> Result<int, string> := k => if k < 2 then Err("Temporary failure") else Ok(42);
    assert FirstSuccess(succeedThird, 3) == 2;
    r, calls, sleeps := RetryWithBackoff(3, 0, succeedThird);
    assert r == Ok(42) && calls == 3;

    var alwaysFail: nat -> Result<int, string> := _ => Err("Always fails");
    assert FirstSuccess(alwaysFail, 3) == 3;
    r, calls, sleeps := RetryWithBackoff(3, 0, alwaysFail);
    assert r.Err? && calls == 3;

    r, calls, sleeps := RetryWithBackoff(0, 1, alwaysFail);
    assert calls == 1 && sleeps == [];
  }
}
