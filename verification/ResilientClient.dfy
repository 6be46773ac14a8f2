/** Retries with exponential backoff (common/resilience/resilient-http-client.factory.ts). */
module ResilientClient {
  import opened Outcomes

  const BACKOFF_MS: nat := 100
  const DEFAULT_RETRIES: nat := 2

  function Pow2(n: nat): nat {
    if n == 0 then 1 else 2 * Pow2(n - 1)
  }

  /** How many calls are made when the k-th answers yes or no: up to the first yes, at most n. */
  function Calls(succeeds: nat -> bool, n: nat): (calls: nat)
    ensures calls <= n
    ensures forall k: nat | k < calls - 1 :: !succeeds(k)
    ensures calls < n ==> calls > 0 && succeeds(calls - 1)
  {
    if n == 0 then 0
    else
      var before := Calls(succeeds, n - 1);
      if before > 0 && succeeds(before - 1) then before else before + 1
  }

  /** The action is called again after each failure until it succeeds or the retries are used up. The result
      is the first success, or the last error; the sleeps before calls 1, 2, ... add up to
      100 * (2^(calls - 1) - 1) milliseconds, so to at most 100 * (2^retries - 1). */
  method WithRetries<T, E>(answers: nat -> Result<T, E>, retries: int)
    returns (outcome: Result<T, Option<E>>, calls: nat, sleptMs: nat)
    ensures retries < 0 ==> outcome == Err(None) && calls == 0 && sleptMs == 0
    ensures retries >= 0 ==>
      && 1 <= calls <= retries + 1
      && sleptMs == 100 * (Pow2(calls - 1) - 1)
      && (forall k: nat | k < calls - 1 :: answers(k).Err?)
      && match outcome
         case Ok(value) => answers(calls - 1) == Ok(value)
         case Err(error) => calls == retries + 1 && answers(retries).Err? && error == Some(answers(retries).error)
  {
    var lastError: Option<E> := None;
    calls, sleptMs := 0, 0;
    var attempt := 0;
    while attempt <= retries
      invariant calls == attempt && (retries < 0 ==> attempt == 0 && sleptMs == 0)
      invariant retries >= 0 ==>
        attempt <= retries + 1 && sleptMs == BACKOFF_MS * (Pow2(if attempt <= retries then attempt else retries) - 1)
      invariant forall k: nat | k < attempt :: answers(k).Err?
      invariant lastError == if attempt == 0 then None else Some(answers(attempt - 1).error)
    {
      calls := calls + 1;
      match answers(attempt) {
        case Ok(value) => return Ok(value), calls, sleptMs;
        case Err(error) =>
          lastError := Some(error);
          if attempt < retries {
            sleptMs := sleptMs + BACKOFF_MS * Pow2(attempt);
          }
      }
      attempt := attempt + 1;
    }
    outcome := Err(lastError);
  }
}
