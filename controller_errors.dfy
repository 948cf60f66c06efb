/**
 * The controller package's own copy of the retry policy. It differs from the
 * error-handling package only in shape (a `default` branch where that one
 * names `Retryable`) and in logging a status condition; every decision it
 * makes is proved equal to the package's.
 */
module ControllerErrors {
  import opened Common
  import opened Kube
  import Errors

  const MaxRetryAttempts := 5
  const BaseRetryDelay := 30
  const MaxRetryDelay := 300

  /** Same table as the package's: the classification agrees on every error. */
  function ClassifyError(err: Option<Error>): (c: Errors.Classification)
    ensures c == Errors.ClassifyError(err)
  {
    if err.None? then Errors.Retryable
    else
      var e := err.value;
      if Errors.IsReason(e, NotFound) || Errors.IsReason(e, Invalid) || Errors.IsReason(e, BadRequest) then Errors.Permanent
      else if Errors.IsReason(e, TooManyRequests) || Errors.IsReason(e, ServiceUnavailable) || Errors.IsReason(e, Timeout) then Errors.Transient
      else if Errors.IsReason(e, Conflict) then Errors.Retryable
      else Errors.Transient
  }

  /** `HandleError` of this copy: anything not Permanent or Transient falls to the immediate retry. */
  function HandleErrorOn(m: map<string, int>, key: string, err: Option<Error>): (o: Errors.Outcome)
    ensures o == Errors.HandleErrorOn(m, key, err)
  {
    if err.None? then Errors.Outcome(EmptyResult, m)
    else
      var errorClass := ClassifyError(err);
      if errorClass == Errors.Permanent then Errors.Outcome(EmptyResult, m)
      else if errorClass == Errors.Transient then
        var retryCount := Errors.CountAt(m, key);
        if retryCount >= MaxRetryAttempts then
          Errors.BackoffSchedule(retryCount);
          Errors.Outcome(CtrlResult(false, MaxRetryDelay), m)
        else Errors.Outcome(CtrlResult(false, Errors.Backoff(retryCount)), m[key := retryCount + 1])
      else Errors.Outcome(CtrlResult(true, 0), m)
  }

  function HandleDeletionErrorOn(m: map<string, int>, key: string, err: Option<Error>): (o: Errors.Outcome)
    ensures o == Errors.HandleDeletionErrorOn(m, key, err)
  {
    if err.None? then Errors.Outcome(EmptyResult, m)
    else
      var errorClass := ClassifyError(err);
      if errorClass == Errors.Permanent then Errors.Outcome(EmptyResult, m)
      else if errorClass == Errors.Transient then
        var retryCount := Errors.CountAt(m, key);
        if retryCount >= MaxRetryAttempts then Errors.Outcome(EmptyResult, m)
        else Errors.Outcome(CtrlResult(false, Errors.Backoff(retryCount)), m[key := retryCount + 1])
      else Errors.Outcome(CtrlResult(true, 0), m)
  }

  /** A condition that this copy reports; it is only logged. */
  datatype Condition = Condition(conditionType: string, reason: string, message: string, status: bool)

  class ErrorHandler {
    var retryCounts: map<string, int>

    constructor()
      ensures retryCounts == map[]
    {
      retryCounts := map[];
    }

    /** An object never counted reads as 0. */
    function GetRetryCount(sa: ServiceAccount): (c: int)
      reads this
      ensures Errors.RetryKey(sa) !in retryCounts ==> c == 0
      ensures Errors.RetryKey(sa) in retryCounts ==> c == retryCounts[Errors.RetryKey(sa)]
    {
      Errors.CountAt(retryCounts, Errors.RetryKey(sa))
    }

    method SetRetryCount(sa: ServiceAccount, count: int)
      modifies this
      ensures retryCounts == old(retryCounts)[Errors.RetryKey(sa) := count]
    {
      retryCounts := retryCounts[Errors.RetryKey(sa) := count];
    }

    /** The same doubling loop; it computes the package's backoff for every count. */
    method CalculateBackoff(retryCount: int) returns (delay: int)
      ensures delay == Errors.Backoff(retryCount)
    {
      delay := BaseRetryDelay;
      var i := 0;
      while i < retryCount && delay < MaxRetryDelay
        invariant 0 <= i && (i <= retryCount || i == 0)
        invariant delay == BaseRetryDelay * Errors.Pow2(i)
        decreases retryCount - i
      {
        delay := delay * 2;
        i := i + 1;
      }
      if i < retryCount {
        Errors.Pow2Monotone(i, retryCount);
      }
      if delay > MaxRetryDelay {
        delay := MaxRetryDelay;
      }
    }

    /** Reporting a condition changes no state: the object has no status to write. */
    method UpdateServiceAccountStatus(sa: ServiceAccount, condition: Condition)
    {
    }

    method HandleError(sa: ServiceAccount, err: Option<Error>) returns (result: CtrlResult, handleErr: Option<Error>)
      modifies this
      ensures handleErr.None?
      ensures Errors.Outcome(result, retryCounts) == Errors.HandleErrorOn(old(retryCounts), Errors.RetryKey(sa), err)
    {
      if err.None? {
        return EmptyResult, None;
      }
      var errorClass := ClassifyError(err);
      if errorClass == Errors.Permanent {
        UpdateServiceAccountStatus(sa, Condition("PodIdentityReady", "Error", "Permanent error", false));
        return EmptyResult, None;
      } else if errorClass == Errors.Transient {
        var retryCount := GetRetryCount(sa);
        if retryCount >= MaxRetryAttempts {
          UpdateServiceAccountStatus(sa, Condition("PodIdentityReady", "Error", "Max retries reached", false));
          return CtrlResult(false, MaxRetryDelay), None;
        }
        SetRetryCount(sa, retryCount + 1);
        var delay := CalculateBackoff(retryCount);
        UpdateServiceAccountStatus(sa, Condition("PodIdentityReady", "Retrying", "Retrying", false));
        return CtrlResult(false, delay), None;
      }
      return CtrlResult(true, 0), None;
    }

    method HandleDeletionError(sa: ServiceAccount, err: Option<Error>) returns (result: CtrlResult, handleErr: Option<Error>)
      modifies this
      ensures handleErr.None?
      ensures Errors.Outcome(result, retryCounts) == Errors.HandleDeletionErrorOn(old(retryCounts), Errors.RetryKey(sa), err)
    {
      if err.None? {
        return EmptyResult, None;
      }
      var errorClass := ClassifyError(err);
      if errorClass == Errors.Permanent {
        return EmptyResult, None;
      } else if errorClass == Errors.Transient {
        var retryCount := GetRetryCount(sa);
        if retryCount >= MaxRetryAttempts {
          return EmptyResult, None;
        }
        SetRetryCount(sa, retryCount + 1);
        var delay := CalculateBackoff(retryCount);
        return CtrlResult(false, delay), None;
      }
      return CtrlResult(true, 0), None;
    }

    method ResetRetryCount(sa: ServiceAccount)
      modifies this
      ensures retryCounts == Errors.ResetAt(old(retryCounts), Errors.RetryKey(sa))
    {
      retryCounts := retryCounts[Errors.RetryKey(sa) := 0];
    }

    method MarkSuccess(sa: ServiceAccount, message: string)
      modifies this
      ensures retryCounts == Errors.ResetAt(old(retryCounts), Errors.RetryKey(sa))
    {
      ResetRetryCount(sa);
      UpdateServiceAccountStatus(sa, Condition("PodIdentityReady", "Ready", message, true));
    }
  }
}
