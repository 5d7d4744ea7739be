// Result and option types shared by every module.
module Common {

  datatype Option<+T> = None | Some(value: T)

  // A service call either commits a value or raises, in which case the
  // enclosing transaction is rolled back and nothing changes.
  datatype Result<+T, +E> = Ok(value: T) | Err(error: E)

  function Max(a: int, b: int): int {
    if a < b then b else a
  }

  function Min(a: int, b: int): int {
    if a < b then a else b
  }

  // --- leases ---

  const RETRY_MAX_SECONDS := 300

  // A controlled wait: the time is set and has not come yet.
  predicate Waiting(at: Option<int>, now: int) {
    at.Some? && now < at.value
  }

  // Seconds before a worker may try again after its nth dispatch.
  function Backoff(dispatches: nat): int {
    Min(RETRY_MAX_SECONDS, 5 * Doublings(Min(dispatches, 6)))
  }

  function Doublings(n: nat): int {
    if n == 0 then 1 else 2 * Doublings(n - 1)
  }

  // Five seconds, doubled with every dispatch, and five minutes at most.
  lemma BackoffDoubles(dispatches: nat)
    ensures Backoff(0) == 5 && Backoff(1) == 10 && Backoff(2) == 20 && Backoff(3) == 40 && Backoff(4) == 80
    ensures Backoff(5) == 160 && (6 <= dispatches ==> Backoff(dispatches) == 300)
  {
    assert Doublings(2) == 4;
    assert Doublings(4) == 16;
  }
}
