/**
 * The retry policy of the operator (the error-handling package): how a
 * failure is classified, the exponential backoff, and the per-object retry
 * table the handler keeps between reconciles.
 */
module Errors {
  import opened Common
  import opened Kube

  const MaxRetryAttempts := 5
  /** Durations are whole seconds. */
  const BaseRetryDelay := 30
  const MaxRetryDelay := 300

  /** Permanent: do not retry; Transient: retry with backoff; Retryable: retry at once. */
  datatype Classification = Permanent | Transient | Retryable

  predicate IsReason(e: Error, r: StatusReason)
  {
    e.kind == StatusError(r)
  }

  /** Classify a failure by the Kubernetes status reason it carries; `None` is a nil error. */
  function ClassifyError(err: Option<Error>): (c: Classification)
    ensures c == Retryable <==> err.None? || IsReason(err.value, Conflict)
    ensures c == Permanent <==>
              err.Some? && (IsReason(err.value, NotFound) || IsReason(err.value, Invalid) || IsReason(err.value, BadRequest))
    ensures err.Some? && !err.value.kind.StatusError? ==> c == Transient
  {
    if err.None? then Retryable
    else
      var e := err.value;
      if IsReason(e, NotFound) || IsReason(e, Invalid) || IsReason(e, BadRequest) then Permanent
      else if IsReason(e, TooManyRequests) || IsReason(e, ServiceUnavailable) || IsReason(e, Timeout) then Transient
      else if IsReason(e, Conflict) then Retryable
      else Transient
  }

  function Pow2(n: nat): (p: nat)
    ensures p >= 1
  {
    if n == 0 then 1 else 2 * Pow2(n - 1)
  }

  lemma {:induction false} Pow2Monotone(a: nat, b: nat)
    requires a <= b
    ensures Pow2(a) <= Pow2(b)
    decreases b
  {
    if a < b {
      Pow2Monotone(a, b - 1);
    }
  }

  function Min(a: int, b: int): int
  {
    if a <= b then a else b
  }

  /**
   * The backoff before retry number `retryCount + 1`: the base delay doubled
   * once per earlier retry, capped at the maximum; a negative count is no retry.
   */
  function Backoff(retryCount: int): (d: int)
    ensures BaseRetryDelay <= d <= MaxRetryDelay
  {
    Min(BaseRetryDelay * Pow2(if retryCount < 0 then 0 else retryCount), MaxRetryDelay)
  }

  /** Each further retry doubles the delay until the cap. */
  lemma BackoffDoubles(n: nat)
    ensures Backoff(n + 1) == Min(2 * Backoff(n), MaxRetryDelay)
  {
  }

  /** The published schedule: 30 s, 60 s, 120 s, 240 s, and 5 minutes from the fifth retry on. */
  lemma {:induction false} BackoffSchedule(n: int)
    ensures Backoff(0) == 30 && Backoff(1) == 60 && Backoff(2) == 120 && Backoff(3) == 240
    ensures n >= 4 ==> Backoff(n) == MaxRetryDelay
  {
    if n >= 4 {
      Pow2Monotone(4, n);
    }
  }

  lemma {:induction false} BackoffMonotone(a: int, b: int)
    requires a <= b
    ensures Backoff(a) <= Backoff(b)
  {
    if 0 <= a {
      Pow2Monotone(a, b);
    } else if 0 <= b {
      Pow2Monotone(0, b);
    }
  }

  /**
   * The retry-table key of an object: `namespace/name`. The name is its
   * tail, and a namespace without '/' is read back as the text before the
   * first '/'.
   */
  function RetryKey(sa: ServiceAccount): (k: string)
    ensures |sa.name| <= |k| && k[|k| - |sa.name|..] == sa.name
    ensures '/' !in sa.namespace ==> Before(k, '/') == sa.namespace
  {
    if '/' in sa.namespace then sa.namespace + "/" + sa.name
    else
      BeforeJoin(sa.namespace, '/', sa.name);
      sa.namespace + "/" + sa.name
  }

  /**
   * Distinct objects have distinct keys. Kubernetes namespaces are DNS labels
   * and never contain '/'; without that the key `a/b/c` would be shared.
   */
  lemma {:induction false} RetryKeyInjective(a: ServiceAccount, b: ServiceAccount)
    requires '/' !in a.namespace && '/' !in b.namespace
    requires RetryKey(a) == RetryKey(b)
    ensures a.namespace == b.namespace && a.name == b.name
  {
    var n := |a.namespace| + 1;
    assert a.name == RetryKey(a)[n..] == RetryKey(b)[n..] == b.name;
  }

  /** `retryCounts[key]`: a key never written reads as 0. */
  function CountAt(m: map<string, int>, key: string): int
  {
    if key in m then m[key] else 0
  }

  /** Writing one object's count leaves every other object's count unchanged. */
  lemma OtherObjectsKeepTheirCount(m: map<string, int>, sa: ServiceAccount, other: ServiceAccount, count: int)
    requires '/' !in sa.namespace && '/' !in other.namespace
    requires sa.namespace != other.namespace || sa.name != other.name
    ensures CountAt(m[RetryKey(sa) := count], RetryKey(other)) == CountAt(m, RetryKey(other))
  {
    if RetryKey(sa) == RetryKey(other) {
      RetryKeyInjective(sa, other);
    }
  }

  /** What a handler answers, and the retry table it leaves behind. */
  datatype Outcome = Outcome(result: CtrlResult, counts: map<string, int>)

  /** `m` with the count at `key` one higher. */
  function Bumped(m: map<string, int>, key: string): map<string, int>
  {
    m[key := CountAt(m, key) + 1]
  }

  /** `ResetRetryCount` on a table. */
  function ResetAt(m: map<string, int>, key: string): (r: map<string, int>)
    ensures CountAt(r, key) == 0
    ensures forall k :: k != key ==> CountAt(r, k) == CountAt(m, k)
  {
    m[key := 0]
  }

  /**
   * `HandleError` for the object with retry key `key` and table `m`.
   * A transient failure always waits `Backoff(count)`: below the ceiling it
   * also bumps the count; at the ceiling it waits the maximum delay, which is
   * what the backoff has reached by then.
   */
  function HandleErrorOn(m: map<string, int>, key: string, err: Option<Error>): (o: Outcome)
    ensures err.None? ==> o == Outcome(EmptyResult, m)
    ensures o.counts == m || (ClassifyError(err) == Transient && CountAt(m, key) < MaxRetryAttempts && o.counts == Bumped(m, key))
    ensures err.Some? ==> (Requeues(o.result) <==> ClassifyError(err) != Permanent)
    ensures o.result.requeue ==> o.result.requeueAfter == 0
    ensures err.Some? && ClassifyError(err) == Transient ==> o.result == CtrlResult(false, Backoff(CountAt(m, key)))
    ensures err.Some? && ClassifyError(err) == Transient && CountAt(m, key) < MaxRetryAttempts ==> o.counts == Bumped(m, key)
    ensures err.Some? && ClassifyError(err) == Retryable ==> o == Outcome(CtrlResult(true, 0), m)
    ensures err.Some? && ClassifyError(err) == Permanent ==> o == Outcome(EmptyResult, m)
  {
    if err.None? then Outcome(EmptyResult, m)
    else
      match ClassifyError(err)
      case Permanent => Outcome(EmptyResult, m)
      case Transient =>
        var retryCount := CountAt(m, key);
        if retryCount >= MaxRetryAttempts then
          BackoffSchedule(retryCount);
          Outcome(CtrlResult(false, MaxRetryDelay), m)
        else
          Outcome(CtrlResult(false, Backoff(retryCount)), m[key := retryCount + 1])
      case Retryable => Outcome(CtrlResult(true, 0), m)
  }

  /**
   * `HandleDeletionError`: like `HandleErrorOn`, except that a transient
   * failure at the ceiling gives up (an empty result) instead of waiting.
   */
  function HandleDeletionErrorOn(m: map<string, int>, key: string, err: Option<Error>): (o: Outcome)
    ensures err.None? ==> o == Outcome(EmptyResult, m)
    ensures o.counts == m || (ClassifyError(err) == Transient && CountAt(m, key) < MaxRetryAttempts && o.counts == Bumped(m, key))
    ensures err.Some? ==> (Requeues(o.result) <==>
              ClassifyError(err) == Retryable || (ClassifyError(err) == Transient && CountAt(m, key) < MaxRetryAttempts))
    ensures o.result.requeue ==> o.result.requeueAfter == 0
    ensures !o.result.requeue && Requeues(o.result) ==> o.result.requeueAfter == Backoff(CountAt(m, key))
    ensures err.Some? && ClassifyError(err) == Transient && CountAt(m, key) < MaxRetryAttempts ==> o.counts == Bumped(m, key)
    ensures err.Some? && ClassifyError(err) == Retryable ==> o == Outcome(CtrlResult(true, 0), m)
    ensures err.Some? && !Requeues(o.result) ==> o == Outcome(EmptyResult, m)
  {
    if err.None? then Outcome(EmptyResult, m)
    else
      match ClassifyError(err)
      case Permanent => Outcome(EmptyResult, m)
      case Transient =>
        var retryCount := CountAt(m, key);
        if retryCount >= MaxRetryAttempts then Outcome(EmptyResult, m)
        else Outcome(CtrlResult(false, Backoff(retryCount)), m[key := retryCount + 1])
      case Retryable => Outcome(CtrlResult(true, 0), m)
  }

  /**
   * The deletion handler is the more permissive one: it leaves the same
   * table, and whenever it asks for a retry it asks for the same retry.
   */
  lemma DeletionHandlerIsMorePermissive(m: map<string, int>, key: string, err: Option<Error>)
    ensures HandleDeletionErrorOn(m, key, err).counts == HandleErrorOn(m, key, err).counts
    ensures Requeues(HandleDeletionErrorOn(m, key, err).result) ==>
              HandleDeletionErrorOn(m, key, err).result == HandleErrorOn(m, key, err).result
  {
  }

  /** The delays `HandleError` answers to `k` transient failures in a row. */
  function TransientDelays(m: map<string, int>, key: string, e: Error, k: nat): (ds: seq<int>)
    ensures |ds| == k
    decreases k
  {
    if k == 0 then []
    else
      var o := HandleErrorOn(m, key, Some(e));
      [o.result.requeueAfter] + TransientDelays(o.counts, key, e, k - 1)
  }

  /** The table after `k` transient failures in a row. */
  function AfterTransients(m: map<string, int>, key: string, e: Error, k: nat): map<string, int>
    decreases k
  {
    if k == 0 then m else AfterTransients(HandleErrorOn(m, key, Some(e)).counts, key, e, k - 1)
  }

  /**
   * Starting from a count `c >= 0`, the i-th of consecutive transient
   * failures waits `Backoff(c + i)`: 30 s, 60 s, ... and 5 minutes from then on.
   */
  lemma {:induction false} TransientDelaysFollowBackoff(m: map<string, int>, key: string, e: Error, k: nat, i: nat)
    requires ClassifyError(Some(e)) == Transient
    requires CountAt(m, key) >= 0
    requires i < k
    ensures TransientDelays(m, key, e, k)[i] == Backoff(CountAt(m, key) + i)
    decreases i
  {
    var c := CountAt(m, key);
    var o := HandleErrorOn(m, key, Some(e));
    if i > 0 {
      TransientDelaysFollowBackoff(o.counts, key, e, k - 1, i - 1);
      if c >= MaxRetryAttempts {
        BackoffSchedule(c + i - 1);
        BackoffSchedule(c + i);
      }
    }
  }

  /**
   * Consecutive transient failures raise the count by one each, up to the
   * ceiling, and never lower it; other objects' counts are untouched.
   */
  lemma {:induction false} AfterTransientsCount(m: map<string, int>, key: string, e: Error, k: nat)
    requires ClassifyError(Some(e)) == Transient
    requires CountAt(m, key) >= 0
    ensures CountAt(AfterTransients(m, key, e, k), key) ==
              if CountAt(m, key) >= MaxRetryAttempts then CountAt(m, key) else Min(CountAt(m, key) + k, MaxRetryAttempts)
    ensures forall other :: other != key ==> CountAt(AfterTransients(m, key, e, k), other) == CountAt(m, other)
    decreases k
  {
    if k > 0 {
      AfterTransientsCount(HandleErrorOn(m, key, Some(e)).counts, key, e, k - 1);
    }
  }

  /** No handler ever raises a count above the ceiling it started within. */
  lemma CountsStayWithinCeiling(m: map<string, int>, key: string, err: Option<Error>)
    requires CountAt(m, key) <= MaxRetryAttempts
    ensures CountAt(HandleErrorOn(m, key, err).counts, key) <= MaxRetryAttempts
    ensures CountAt(HandleDeletionErrorOn(m, key, err).counts, key) <= MaxRetryAttempts
  {
  }

  /**
   * The error handler: the retry table (key `namespace/name`) lives in the
   * handler and is updated in place by the reconciles that use it.
   */
  class ErrorHandler {
    var retryCounts: map<string, int>

    constructor()
      ensures retryCounts == map[]
    {
      retryCounts := map[];
    }

    /** An object never counted reads as 0. */
    function GetRetryCount(sa: ServiceAccount): (c: int)
      reads this
      ensures RetryKey(sa) !in retryCounts ==> c == 0
      ensures RetryKey(sa) in retryCounts ==> c == retryCounts[RetryKey(sa)]
    {
      CountAt(retryCounts, RetryKey(sa))
    }

    method SetRetryCount(sa: ServiceAccount, count: int)
      modifies this
      ensures retryCounts == old(retryCounts)[RetryKey(sa) := count]
      ensures GetRetryCount(sa) == count
    {
      retryCounts := retryCounts[RetryKey(sa) := count];
    }

    /** The doubling loop, capped after it stops. */
    method CalculateBackoff(retryCount: int) returns (delay: int)
      ensures delay == Backoff(retryCount)
    {
      delay := BaseRetryDelay;
      var i := 0;
      while i < retryCount && delay < MaxRetryDelay
        invariant 0 <= i && (i <= retryCount || i == 0)
        invariant delay == BaseRetryDelay * Pow2(i)
        decreases retryCount - i
      {
        delay := delay * 2;
        i := i + 1;
      }
      if i < retryCount {
        Pow2Monotone(i, retryCount);
      }
      if delay > MaxRetryDelay {
        delay := MaxRetryDelay;
      }
    }

    method HandleError(sa: ServiceAccount, err: Option<Error>) returns (result: CtrlResult, handleErr: Option<Error>)
      modifies this
      ensures handleErr.None?
      ensures Outcome(result, retryCounts) == HandleErrorOn(old(retryCounts), RetryKey(sa), err)
    {
      if err.None? {
        return EmptyResult, None;
      }
      var errorClass := ClassifyError(err);
      match errorClass
      case Permanent =>
        return EmptyResult, None;
      case Transient =>
        var retryCount := GetRetryCount(sa);
        if retryCount >= MaxRetryAttempts {
          return CtrlResult(false, MaxRetryDelay), None;
        }
        SetRetryCount(sa, retryCount + 1);
        var delay := CalculateBackoff(retryCount);
        return CtrlResult(false, delay), None;
      case Retryable =>
        return CtrlResult(true, 0), None;
    }

    method HandleDeletionError(sa: ServiceAccount, err: Option<Error>) returns (result: CtrlResult, handleErr: Option<Error>)
      modifies this
      ensures handleErr.None?
      ensures Outcome(result, retryCounts) == HandleDeletionErrorOn(old(retryCounts), RetryKey(sa), err)
    {
      if err.None? {
        return EmptyResult, None;
      }
      var errorClass := ClassifyError(err);
      match errorClass
      case Permanent =>
        return EmptyResult, None;
      case Transient =>
        var retryCount := GetRetryCount(sa);
        if retryCount >= MaxRetryAttempts {
          return EmptyResult, None;
        }
        SetRetryCount(sa, retryCount + 1);
        var delay := CalculateBackoff(retryCount);
        return CtrlResult(false, delay), None;
      case Retryable =>
        return CtrlResult(true, 0), None;
    }

    method ResetRetryCount(sa: ServiceAccount)
      modifies this
      ensures retryCounts == ResetAt(old(retryCounts), RetryKey(sa))
      ensures GetRetryCount(sa) == 0
    {
      retryCounts := retryCounts[RetryKey(sa) := 0];
    }

    method MarkSuccess(sa: ServiceAccount)
      modifies this
      ensures retryCounts == ResetAt(old(retryCounts), RetryKey(sa))
      ensures GetRetryCount(sa) == 0
    {
      ResetRetryCount(sa);
    }
  }
}
