/**
 * The retry policy the adapters declare with tenacity's `@retry`: stop
 * after a fixed number of attempts, retry only errors the predicate
 * accepts, and re-raise the last error when giving up.
 */
module Retry {
  import opened Wrappers

  /** The error attempt `k` raises, `None` when it returns; attempts past the list return. */
  function AttemptError<E>(errors: seq<Option<E>>, k: nat): Option<E> {
    if k < |errors| then errors[k] else None
  }

  /** Whether another attempt follows attempt `k`. */
  predicate Again<E>(errors: seq<Option<E>>, retryable: E -> bool, max: nat, k: nat) {
    k + 1 < max && AttemptError(errors, k).Some? && retryable(AttemptError(errors, k).value)
  }

  /**
   * How many attempts are made from attempt `k` on: every attempt but the
   * last raised a retryable error, and the last one returned, raised an
   * error not retried, or was the final one allowed.
   */
  function AttemptCount<E>(errors: seq<Option<E>>, retryable: E -> bool, max: nat, k: nat): (n: nat)
    requires k < max
    ensures k < n <= max
    ensures forall j :: k <= j < n - 1 ==> Again(errors, retryable, max, j)
    ensures !Again(errors, retryable, max, n - 1)
    decreases max - k
  {
    if Again(errors, retryable, max, k) then AttemptCount(errors, retryable, max, k + 1) else k + 1
  }

  /** What the decorated call ends with: success, or the last attempt's error re-raised. */
  function Final<E>(errors: seq<Option<E>>, retryable: E -> bool, max: nat): (r: Option<E>)
    requires max > 0
    ensures r.Some? ==> exists k :: 0 <= k < max && AttemptError(errors, k) == r
  {
    AttemptError(errors, AttemptCount(errors, retryable, max, 0) - 1)
  }

  /**
   * A loop that stopped after attempt `a`, every earlier attempt having
   * been retried, made exactly `AttemptCount` attempts.
   */
  lemma {:induction false} StoppedAfter<E>(errors: seq<Option<E>>, retryable: E -> bool, max: nat, k: nat, a: nat)
    requires k <= a < max
    requires forall j :: k <= j < a ==> Again(errors, retryable, max, j)
    requires !Again(errors, retryable, max, a)
    ensures AttemptCount(errors, retryable, max, k) == a + 1
    decreases a - k
  {
    if k < a {
      StoppedAfter(errors, retryable, max, k + 1, a);
    }
  }

  /** An error the predicate refuses is raised at once, after a single attempt. */
  lemma NotRetried<E>(errors: seq<Option<E>>, retryable: E -> bool, max: nat)
    requires max > 0 && |errors| > 0 && errors[0].Some? && !retryable(errors[0].value)
    ensures AttemptCount(errors, retryable, max, 0) == 1
    ensures Final(errors, retryable, max) == errors[0]
  {
  }

  /** Every attempt before `a` raised an error the predicate accepts. */
  predicate RetriedBefore<E>(errors: seq<Option<E>>, retryable: E -> bool, a: nat) {
    forall j :: 0 <= j < a ==> AttemptError(errors, j).Some? && retryable(AttemptError(errors, j).value)
  }

  /** The call succeeds iff some allowed attempt returns after only retryable errors before it. */
  lemma SucceedsIff<E>(errors: seq<Option<E>>, retryable: E -> bool, max: nat)
    requires max > 0
    ensures Final(errors, retryable, max).None? <==>
      exists a :: 0 <= a < max && AttemptError(errors, a).None? && RetriedBefore(errors, retryable, a)
  {
    var n := AttemptCount(errors, retryable, max, 0);
    if Final(errors, retryable, max).None? {
      forall j | 0 <= j < n - 1
        ensures AttemptError(errors, j).Some? && retryable(AttemptError(errors, j).value)
      {
        assert Again(errors, retryable, max, j);
      }
      assert RetriedBefore(errors, retryable, n - 1);
    }
    forall a | 0 <= a < max && AttemptError(errors, a).None? && RetriedBefore(errors, retryable, a)
      ensures Final(errors, retryable, max).None?
    {
      StoppedAfter(errors, retryable, max, 0, a);
    }
  }
}
