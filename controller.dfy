/**
 * The ServiceAccount reconciler: how one reconcile of one object decides
 * between tearing its association down and creating or updating it, which
 * writes it makes, which AWS calls, what it answers to the controller
 * runtime, and how it moves the object's retry count. The whole effect of a
 * reconcile is a `Run`, computed by `ReconcileRun`; the reconciler's methods
 * are proved to have exactly that effect, and the properties of the
 * reconciler are proved about `ReconcileRun` for every input. The event
 * filters that decide which changes reach the reconciler close the module.
 */
module Controller {
  import opened Common
  import opened Kube
  import opened Clients
  import Errors

  /** The effect of one reconcile: its answer, the AWS calls and object writes it made in order, and the retry table it leaves. */
  datatype Run = Run(result: CtrlResult, err: Option<Error>, calls: seq<AwsCall>, writes: seq<ServiceAccount>, counts: map<string, int>)

  /** Drop the assume-role and association-id annotations; a nil annotation map stays nil. */
  function StripAssociationAnnotations(sa: ServiceAccount): (r: ServiceAccount)
    ensures forall k :: HasAnnotation(r, k) <==> HasAnnotation(sa, k) && k != AssumeRoleAnnotation && k != AssociationIdAnnotation
    ensures forall k :: HasAnnotation(r, k) ==> AnnotationOrEmpty(r, k) == AnnotationOrEmpty(sa, k)
    ensures r.annotations.Some? <==> sa.annotations.Some?
    ensures r.namespace == sa.namespace && r.name == sa.name && r.finalizers == sa.finalizers && r.deleting == sa.deleting
  {
    if sa.annotations.Some? then
      sa.(annotations := Some(sa.annotations.value - {AssumeRoleAnnotation, AssociationIdAnnotation}))
    else sa
  }

  /** What `deletePodIdentityAssociation` answers, the writes it makes, and the object it leaves in memory. */
  datatype Deleted = Deleted(err: Option<Error>, writes: seq<ServiceAccount>, sa: ServiceAccount)

  function DeleteAssociationStep(sa: ServiceAccount, deleteAnswer: Option<Error>, answers: seq<Option<Error>>, n: nat): (d: Deleted)
    ensures deleteAnswer.Some? ==> d == Deleted(deleteAnswer, [], sa)
    ensures d.err.None? ==> deleteAnswer.None? && !HasAnnotation(d.sa, AssumeRoleAnnotation) && !HasAnnotation(d.sa, AssociationIdAnnotation)
    ensures |d.writes| <= 1 && (d.writes != [] ==> d.writes == [d.sa])
    ensures d.writes == [] <==> deleteAnswer.Some? || sa.annotations.None?
    ensures d.writes != [] ==> d.err == AnswerAt(answers, n)
    ensures deleteAnswer.None? && sa.annotations.None? ==> d.err.None?
    ensures d.sa.namespace == sa.namespace && d.sa.name == sa.name && d.sa.finalizers == sa.finalizers && d.sa.deleting == sa.deleting
    ensures forall k :: k != AssumeRoleAnnotation && k != AssociationIdAnnotation ==> AnnotationOrEmpty(d.sa, k) == AnnotationOrEmpty(sa, k)
  {
    if deleteAnswer.Some? then Deleted(deleteAnswer, [], sa)
    else if sa.annotations.None? then Deleted(None, [], sa)
    else
      var stripped := StripAssociationAnnotations(sa);
      Deleted(AnswerAt(answers, n), [stripped], stripped)
  }

  /**
   * `handleDeletion` (`resetOnSuccess == false`) and
   * `cleanupPodIdentityAssociation` (`resetOnSuccess == true`): with the
   * finalizer, delete the association, then persist the object without the
   * finalizer; every failure goes to the deletion handler.
   */
  function TeardownRun(sa: ServiceAccount, aws: AwsAnswers, answers: seq<Option<Error>>, n: nat,
                       m: map<string, int>, resetOnSuccess: bool): (run: Run)
    ensures !HasFinalizer(sa) ==> run == Run(EmptyResult, None, [], [], m)
    ensures HasFinalizer(sa) ==> run.calls == [DeleteCall(sa)]
    ensures run.err.None?
    ensures run.writes != [] ==> aws.deleteAnswer.None?
    ensures forall w :: w in run.writes ==> w.namespace == sa.namespace && w.name == sa.name && w.deleting == sa.deleting
  {
    if !HasFinalizer(sa) then Run(EmptyResult, None, [], [], m)
    else
      var key := Errors.RetryKey(sa);
      var d := DeleteAssociationStep(sa, aws.deleteAnswer, answers, n);
      if d.err.Some? then
        var o := Errors.HandleDeletionErrorOn(m, key, d.err);
        Run(o.result, None, [DeleteCall(sa)], d.writes, o.counts)
      else
        var released := RemoveFinalizer(d.sa);
        var e := AnswerAt(answers, n + |d.writes|);
        if e.Some? then
          var o := Errors.HandleDeletionErrorOn(m, key, e);
          Run(o.result, None, [DeleteCall(sa)], d.writes + [released], o.counts)
        else Run(EmptyResult, None, [DeleteCall(sa)], d.writes + [released], if resetOnSuccess then Errors.ResetAt(m, key) else m)
  }

  /** What `create`/`updatePodIdentityAssociation` hand back: an id, the error they propagate, and the retry table. */
  datatype OpStep = OpStep(associationId: string, err: Option<Error>, counts: map<string, int>)

  /**
   * An AWS create or update as the reconciler wraps it. A failure goes to
   * the error handler; the failure is propagated exactly when it is not
   * permanent (every other verdict asks for a retry), and a permanent one is
   * swallowed as if the call had answered no id.
   */
  function OperationStep(op: Result<string>, m: map<string, int>, key: string): (s: OpStep)
    ensures op.Ok? ==> s == OpStep(op.value, None, m)
    ensures op.Fail? ==> s.associationId == "" && s.counts == Errors.HandleErrorOn(m, key, Some(op.error)).counts
    ensures op.Fail? ==> (s.err.Some? <==> Errors.ClassifyError(Some(op.error)) != Errors.Permanent)
    ensures s.err.Some? ==> s.err == Some(op.error)
  {
    if op.Ok? then OpStep(op.value, None, m)
    else
      var o := Errors.HandleErrorOn(m, key, Some(op.error));
      if Requeues(o.result) then OpStep("", Some(op.error), o.counts) else OpStep("", None, o.counts)
  }

  /** `reconcilePodIdentityAssociation`: check, then update or create, then record the id and mark success. */
  function AssociationRun(sa: ServiceAccount, roleArn: string, assumeRoleArn: string, aws: AwsAnswers,
                          answers: seq<Option<Error>>, n: nat, m: map<string, int>): (run: Run)
    ensures |run.calls| >= 1 && run.calls[0] == ExistsCall(sa)
    ensures aws.existsAnswer.Ok? ==>
              run.calls == [ExistsCall(sa), if aws.existsAnswer.value then UpdateCall(sa, roleArn, assumeRoleArn)
                                            else CreateCall(sa, roleArn, assumeRoleArn)]
    ensures aws.existsAnswer.Fail? ==> run.calls == [ExistsCall(sa)] && run.writes == []
    ensures run.err.Some? ==> run.writes == [] && run.result == EmptyResult
    ensures |run.writes| <= 1
    ensures run.writes != [] ==> HasAnnotation(run.writes[0], AssociationIdAnnotation) && run.writes[0].finalizers == sa.finalizers
    ensures forall w :: w in run.writes ==> w.namespace == sa.namespace && w.name == sa.name && w.deleting == sa.deleting
  {
    var key := Errors.RetryKey(sa);
    if aws.existsAnswer.Fail? then
      var o := Errors.HandleErrorOn(m, key, Some(aws.existsAnswer.error));
      Run(o.result, None, [ExistsCall(sa)], [], o.counts)
    else
      var found := aws.existsAnswer.value;
      var calls := [ExistsCall(sa), if found then UpdateCall(sa, roleArn, assumeRoleArn) else CreateCall(sa, roleArn, assumeRoleArn)];
      var s := OperationStep(if found then aws.updateAnswer else aws.createAnswer, m, key);
      if s.err.Some? then Run(EmptyResult, s.err, calls, [], s.counts)
      else if s.associationId != "" then
        var recorded := SetAnnotation(sa, AssociationIdAnnotation, s.associationId);
        var e := AnswerAt(answers, n);
        if e.Some? then
          var o := Errors.HandleErrorOn(s.counts, key, e);
          Run(o.result, None, calls, [recorded], o.counts)
        else Run(EmptyResult, None, calls, [recorded], Errors.ResetAt(s.counts, key))
      else Run(EmptyResult, None, calls, [], Errors.ResetAt(s.counts, key))
  }

  /** `run` preceded by one successful write of `w`. */
  function AfterWrite(w: ServiceAccount, run: Run): (r: Run)
    ensures r.writes == [w] + run.writes
  {
    run.(writes := [w] + run.writes)
  }

  /**
   * One reconcile of the object the Kubernetes client answers with:
   * `fetched` is that answer, `answers` the answers to the writes from the
   * `n`-th on, `m` the retry table.
   */
  function ReconcileRun(fetched: Result<ServiceAccount>, aws: AwsAnswers, answers: seq<Option<Error>>, n: nat,
                        m: map<string, int>): (run: Run)
    ensures fetched.Fail? ==> run.calls == [] && run.writes == [] && run.counts == m && run.result == EmptyResult
    ensures fetched.Fail? ==> (run.err.None? <==> Errors.IsReason(fetched.error, NotFound))
    ensures fetched.Fail? && run.err.Some? ==> run.err == Some(fetched.error)
  {
    if fetched.Fail? then
      Run(EmptyResult, if Errors.IsReason(fetched.error, NotFound) then None else Some(fetched.error), [], [], m)
    else
      var sa := fetched.value;
      if sa.deleting then TeardownRun(sa, aws, answers, n, m, false)
      else if !HasAnnotation(sa, RoleAnnotation) then TeardownRun(sa, aws, answers, n, m, true)
      else
        var roleArn := AnnotationOrEmpty(sa, RoleAnnotation);
        var assumeRoleArn := AnnotationOrEmpty(sa, AssumeRoleAnnotation);
        if HasFinalizer(sa) then AssociationRun(sa, roleArn, assumeRoleArn, aws, answers, n, m)
        else
          var guarded := AddFinalizer(sa);
          var e := AnswerAt(answers, n);
          if e.Some? then Run(EmptyResult, e, [], [guarded], m)
          else AfterWrite(guarded, AssociationRun(guarded, roleArn, assumeRoleArn, aws, answers, n + 1, m))
  }

  // ---------------------------------------------------------------------
  // Properties of a reconcile, for every stored object and every answer.
  // ---------------------------------------------------------------------

  /** Every AWS call is made for an object that already carries the finalizer. */
  lemma AwsCallsOnlyBehindTheFinalizer(fetched: Result<ServiceAccount>, aws: AwsAnswers, answers: seq<Option<Error>>, n: nat, m: map<string, int>)
    ensures var run := ReconcileRun(fetched, aws, answers, n, m);
            forall i :: 0 <= i < |run.calls| ==> HasFinalizer(run.calls[i].sa)
    ensures var run := ReconcileRun(fetched, aws, answers, n, m);
            run.calls != [] ==>
              fetched.Ok? && (HasFinalizer(fetched.value) || (run.writes != [] && run.writes[0] == AddFinalizer(fetched.value) && AnswerAt(answers, n).None?))
  {
  }

  /**
   * The finalizer leaves the object only in the last write of a reconcile,
   * and only after the association's delete succeeded.
   */
  lemma FinalizerRemovedOnlyAfterDelete(fetched: Result<ServiceAccount>, aws: AwsAnswers, answers: seq<Option<Error>>, n: nat, m: map<string, int>)
    ensures var run := ReconcileRun(fetched, aws, answers, n, m);
            forall i :: 0 <= i < |run.writes| && !HasFinalizer(run.writes[i]) ==>
              i == |run.writes| - 1 && fetched.Ok? && HasFinalizer(fetched.value)
              && run.calls == [DeleteCall(fetched.value)] && aws.deleteAnswer.None?
  {
    var run := ReconcileRun(fetched, aws, answers, n, m);
    if fetched.Ok? {
      var sa := fetched.value;
      if !sa.deleting && HasAnnotation(sa, RoleAnnotation) {
        var roleArn := AnnotationOrEmpty(sa, RoleAnnotation);
        var assumeRoleArn := AnnotationOrEmpty(sa, AssumeRoleAnnotation);
        var g := AddFinalizer(sa);
        if HasFinalizer(sa) {
          AssociationRunKeepsTheFinalizer(sa, roleArn, assumeRoleArn, aws, answers, n, m);
        } else {
          AssociationRunKeepsTheFinalizer(g, roleArn, assumeRoleArn, aws, answers, n + 1, m);
        }
        forall i | 0 <= i < |run.writes| ensures HasFinalizer(run.writes[i]) {
          if !HasFinalizer(sa) && AnswerAt(answers, n).None? {
            var inner := AssociationRun(g, roleArn, assumeRoleArn, aws, answers, n + 1, m);
            assert run.writes == [g] + inner.writes;
            if i > 0 {
              assert run.writes[i] == inner.writes[i - 1];
            }
          }
        }
      }
    }
  }

  lemma AssociationRunKeepsTheFinalizer(sa: ServiceAccount, roleArn: string, assumeRoleArn: string, aws: AwsAnswers,
                                        answers: seq<Option<Error>>, n: nat, m: map<string, int>)
    requires HasFinalizer(sa)
    ensures forall w :: w in AssociationRun(sa, roleArn, assumeRoleArn, aws, answers, n, m).writes ==> HasFinalizer(w)
  {
  }

  /** An object with the role annotation gets the finalizer persisted first; if that write fails, nothing else happens. */
  lemma ManagedObjectGetsFinalizerFirst(sa: ServiceAccount, aws: AwsAnswers, answers: seq<Option<Error>>, n: nat, m: map<string, int>)
    requires !sa.deleting && HasAnnotation(sa, RoleAnnotation) && !HasFinalizer(sa)
    ensures var run := ReconcileRun(Ok(sa), aws, answers, n, m);
            run.writes != [] && run.writes[0] == AddFinalizer(sa)
    ensures AnswerAt(answers, n).Some? ==>
              ReconcileRun(Ok(sa), aws, answers, n, m) == Run(EmptyResult, AnswerAt(answers, n), [], [AddFinalizer(sa)], m)
  {
  }

  /** Without the finalizer, an object being deleted or without the role annotation is left alone. */
  lemma UnmanagedObjectIsUntouched(sa: ServiceAccount, aws: AwsAnswers, answers: seq<Option<Error>>, n: nat, m: map<string, int>)
    requires !HasFinalizer(sa) && (sa.deleting || !HasAnnotation(sa, RoleAnnotation))
    ensures ReconcileRun(Ok(sa), aws, answers, n, m) == Run(EmptyResult, None, [], [], m)
  {
  }

  /** A failed association delete leaves the object unwritten (finalizer kept) and answers what the deletion handler decides. */
  lemma DeleteFailureKeepsTheFinalizer(sa: ServiceAccount, aws: AwsAnswers, answers: seq<Option<Error>>, n: nat, m: map<string, int>)
    requires HasFinalizer(sa) && (sa.deleting || !HasAnnotation(sa, RoleAnnotation)) && aws.deleteAnswer.Some?
    ensures var run := ReconcileRun(Ok(sa), aws, answers, n, m);
            run.writes == [] && run.calls == [DeleteCall(sa)] && run.err.None?
            && Errors.Outcome(run.result, run.counts) == Errors.HandleDeletionErrorOn(m, Errors.RetryKey(sa), aws.deleteAnswer)
  {
  }

  /**
   * A teardown whose delete and writes succeed leaves the object without the
   * finalizer and the association annotations, every other annotation kept.
   * Cleanup resets the retry count; deletion does not.
   */
  lemma TeardownCompletes(sa: ServiceAccount, aws: AwsAnswers, answers: seq<Option<Error>>, n: nat, m: map<string, int>)
    requires HasFinalizer(sa) && (sa.deleting || !HasAnnotation(sa, RoleAnnotation))
    requires aws.deleteAnswer.None? && AnswerAt(answers, n).None? && AnswerAt(answers, n + 1).None?
    ensures var run := ReconcileRun(Ok(sa), aws, answers, n, m);
            run.result == EmptyResult && run.err.None? && run.calls == [DeleteCall(sa)]
            && run.writes != [] && Last(run.writes) == RemoveFinalizer(StripAssociationAnnotations(sa))
            && run.counts == (if sa.deleting then m else Errors.ResetAt(m, Errors.RetryKey(sa)))
    ensures var last := RemoveFinalizer(StripAssociationAnnotations(sa));
            !HasFinalizer(last) && !HasAnnotation(last, AssumeRoleAnnotation) && !HasAnnotation(last, AssociationIdAnnotation)
            && forall k :: k != AssumeRoleAnnotation && k != AssociationIdAnnotation ==> AnnotationOrEmpty(last, k) == AnnotationOrEmpty(sa, k)
  {
  }

  function Last(ws: seq<ServiceAccount>): ServiceAccount
    requires ws != []
  {
    ws[|ws| - 1]
  }

  /**
   * The path that records an association: once the finalizer is in place
   * and the check answers, the update (association present) or create
   * (absent) that answers an id is followed by a write of that id, and a
   * successful write resets the retry count.
   */
  lemma AssociationIsRecorded(sa: ServiceAccount, aws: AwsAnswers, answers: seq<Option<Error>>, n: nat, m: map<string, int>)
    requires !sa.deleting && HasAnnotation(sa, RoleAnnotation)
    requires HasFinalizer(sa) || AnswerAt(answers, n).None?
    requires aws.existsAnswer.Ok?
    requires var op := if aws.existsAnswer.value then aws.updateAnswer else aws.createAnswer;
             op.Ok? && op.value != ""
    requires AnswerAt(answers, if HasFinalizer(sa) then n else n + 1).None?
    ensures var run := ReconcileRun(Ok(sa), aws, answers, n, m);
            var g := AddFinalizer(sa);
            var op := if aws.existsAnswer.value then aws.updateAnswer else aws.createAnswer;
            var roleArn := AnnotationOrEmpty(sa, RoleAnnotation);
            var assumeRoleArn := AnnotationOrEmpty(sa, AssumeRoleAnnotation);
            run.result == EmptyResult && run.err.None?
            && run.calls == [ExistsCall(g), if aws.existsAnswer.value then UpdateCall(g, roleArn, assumeRoleArn) else CreateCall(g, roleArn, assumeRoleArn)]
            && run.writes != [] && Last(run.writes) == SetAnnotation(g, AssociationIdAnnotation, op.value)
            && run.counts == Errors.ResetAt(m, Errors.RetryKey(sa))
  {
  }

  /**
   * A failing create or update: a permanent failure is swallowed and the
   * reconcile ends as a success with nothing written; any other failure is
   * propagated with an empty result, so the delay the handler computed for
   * a transient failure is dropped, while the count it bumped stays bumped.
   */
  lemma OperationFailureVerdict(sa: ServiceAccount, roleArn: string, assumeRoleArn: string, aws: AwsAnswers,
                                answers: seq<Option<Error>>, n: nat, m: map<string, int>)
    requires aws.existsAnswer.Ok?
    requires (if aws.existsAnswer.value then aws.updateAnswer else aws.createAnswer).Fail?
    ensures var run := AssociationRun(sa, roleArn, assumeRoleArn, aws, answers, n, m);
            var e := (if aws.existsAnswer.value then aws.updateAnswer else aws.createAnswer).error;
            var key := Errors.RetryKey(sa);
            run.result == EmptyResult && run.writes == [] && |run.calls| == 2
            && (run.err.Some? <==> Errors.ClassifyError(Some(e)) != Errors.Permanent)
            && (run.err.Some? ==> run.err == Some(e) && run.counts == Errors.HandleErrorOn(m, key, Some(e)).counts)
            && (run.err.None? ==> run.counts == Errors.ResetAt(m, key))
  {
  }

  /** A failing existence check answers exactly what the error handler decides, with no error and no write. */
  lemma ExistsFailureIsHandled(sa: ServiceAccount, roleArn: string, assumeRoleArn: string, aws: AwsAnswers,
                               answers: seq<Option<Error>>, n: nat, m: map<string, int>)
    requires aws.existsAnswer.Fail?
    ensures var run := AssociationRun(sa, roleArn, assumeRoleArn, aws, answers, n, m);
            run.err.None? && run.writes == [] && run.calls == [ExistsCall(sa)]
            && Errors.Outcome(run.result, run.counts) == Errors.HandleErrorOn(m, Errors.RetryKey(sa), Some(aws.existsAnswer.error))
  {
  }

  /** A reconcile writes only the object it read, and never changes its identity or its deletion mark. */
  lemma WritesStayOnTheObject(fetched: Result<ServiceAccount>, aws: AwsAnswers, answers: seq<Option<Error>>, n: nat, m: map<string, int>)
    ensures var run := ReconcileRun(fetched, aws, answers, n, m);
            forall w :: w in run.writes ==>
              fetched.Ok? && w.namespace == fetched.value.namespace && w.name == fetched.value.name && w.deleting == fetched.value.deleting
  {
    if fetched.Ok? {
      var sa := fetched.value;
      if !sa.deleting && HasAnnotation(sa, RoleAnnotation) && !HasFinalizer(sa) {
        var guarded := AddFinalizer(sa);
        var inner := AssociationRun(guarded, AnnotationOrEmpty(sa, RoleAnnotation), AnnotationOrEmpty(sa, AssumeRoleAnnotation), aws, answers, n + 1, m);
        assert forall w :: w in [guarded] + inner.writes ==> w == guarded || w in inner.writes;
      }
    }
  }

  /** The table a handler leaves: only the object's count moves, and it stays within the ceiling. */
  ghost predicate KeepsOtherCounts(m: map<string, int>, r: map<string, int>, key: string)
  {
    (forall k :: k != key ==> Errors.CountAt(r, k) == Errors.CountAt(m, k))
    && (Errors.CountAt(m, key) <= Errors.MaxRetryAttempts ==> Errors.CountAt(r, key) <= Errors.MaxRetryAttempts)
  }

  lemma HandlersKeepOtherCounts(m: map<string, int>, key: string, e: Option<Error>)
    ensures KeepsOtherCounts(m, Errors.HandleErrorOn(m, key, e).counts, key)
    ensures KeepsOtherCounts(m, Errors.HandleDeletionErrorOn(m, key, e).counts, key)
  {
    if Errors.CountAt(m, key) <= Errors.MaxRetryAttempts {
      Errors.CountsStayWithinCeiling(m, key, e);
    }
  }

  lemma KeepsOtherCountsTransitive(a: map<string, int>, b: map<string, int>, c: map<string, int>, key: string)
    requires KeepsOtherCounts(a, b, key) && KeepsOtherCounts(b, c, key)
    ensures KeepsOtherCounts(a, c, key)
  {
  }

  lemma TeardownKeepsOtherCounts(sa: ServiceAccount, aws: AwsAnswers, answers: seq<Option<Error>>, n: nat, m: map<string, int>, reset: bool)
    ensures KeepsOtherCounts(m, TeardownRun(sa, aws, answers, n, m, reset).counts, Errors.RetryKey(sa))
  {
    var key := Errors.RetryKey(sa);
    var d := DeleteAssociationStep(sa, aws.deleteAnswer, answers, n);
    HandlersKeepOtherCounts(m, key, d.err);
    HandlersKeepOtherCounts(m, key, AnswerAt(answers, n + |d.writes|));
  }

  lemma AssociationRunKeepsOtherCounts(sa: ServiceAccount, roleArn: string, assumeRoleArn: string, aws: AwsAnswers,
                                       answers: seq<Option<Error>>, n: nat, m: map<string, int>)
    ensures KeepsOtherCounts(m, AssociationRun(sa, roleArn, assumeRoleArn, aws, answers, n, m).counts, Errors.RetryKey(sa))
  {
    var key := Errors.RetryKey(sa);
    if aws.existsAnswer.Fail? {
      HandlersKeepOtherCounts(m, key, Some(aws.existsAnswer.error));
    } else {
      var op := if aws.existsAnswer.value then aws.updateAnswer else aws.createAnswer;
      var s := OperationStep(op, m, key);
      if op.Fail? {
        HandlersKeepOtherCounts(m, key, Some(op.error));
      }
      assert KeepsOtherCounts(m, s.counts, key);
      HandlersKeepOtherCounts(s.counts, key, AnswerAt(answers, n));
      KeepsOtherCountsTransitive(m, s.counts, Errors.HandleErrorOn(s.counts, key, AnswerAt(answers, n)).counts, key);
      KeepsOtherCountsTransitive(m, s.counts, Errors.ResetAt(s.counts, key), key);
    }
  }

  /** A reconcile moves no count but its own object's, and keeps that one within the ceiling. */
  lemma CountsChangeOnlyForTheObject(fetched: Result<ServiceAccount>, aws: AwsAnswers, answers: seq<Option<Error>>, n: nat, m: map<string, int>)
    ensures fetched.Fail? ==> ReconcileRun(fetched, aws, answers, n, m).counts == m
    ensures fetched.Ok? ==> KeepsOtherCounts(m, ReconcileRun(fetched, aws, answers, n, m).counts, Errors.RetryKey(fetched.value))
  {
    if fetched.Ok? {
      var sa := fetched.value;
      var roleArn := AnnotationOrEmpty(sa, RoleAnnotation);
      var assumeRoleArn := AnnotationOrEmpty(sa, AssumeRoleAnnotation);
      TeardownKeepsOtherCounts(sa, aws, answers, n, m, true);
      TeardownKeepsOtherCounts(sa, aws, answers, n, m, false);
      AssociationRunKeepsOtherCounts(sa, roleArn, assumeRoleArn, aws, answers, n, m);
      AssociationRunKeepsOtherCounts(AddFinalizer(sa), roleArn, assumeRoleArn, aws, answers, n + 1, m);
    }
  }

  // ---------------------------------------------------------------------
  // The reconciler.
  // ---------------------------------------------------------------------

  class ServiceAccountReconciler {
    /** Built on the first reconcile and kept for the reconciler's lifetime. */
    var errorHandler: Errors.ErrorHandler?
    const aws: AwsApi
    const kube: KubeApi

    constructor(aws: AwsApi, kube: KubeApi)
      ensures this.aws == aws && this.kube == kube && errorHandler == null
    {
      this.aws := aws;
      this.kube := kube;
      errorHandler := null;
    }

    /** The retry table the next reconcile starts from; a handler not yet built has an empty one. */
    function Counts(): map<string, int>
      reads this, errorHandler
    {
      if errorHandler == null then map[] else errorHandler.retryCounts
    }

    method Reconcile(namespace: string, name: string) returns (result: CtrlResult, err: Option<Error>)
      modifies this, errorHandler, aws, kube
      ensures errorHandler != null
      ensures old(errorHandler) != null ==> errorHandler == old(errorHandler)
      ensures var run := ReconcileRun(kube.fetched, aws.answers, kube.updateAnswers, |old(kube.written)|, old(Counts()));
              result == run.result && err == run.err
              && aws.calls == old(aws.calls) + run.calls && kube.written == old(kube.written) + run.writes
              && errorHandler.retryCounts == run.counts
      ensures kube.gets == old(kube.gets) + [(namespace, name)]
    {
      if errorHandler == null {
        errorHandler := new Errors.ErrorHandler();
      }
      var fetched := kube.GetServiceAccount(namespace, name);
      if fetched.Fail? {
        if Errors.IsReason(fetched.error, NotFound) {
          return EmptyResult, None;
        }
        return EmptyResult, Some(fetched.error);
      }
      var serviceAccount := fetched.value;
      if serviceAccount.deleting {
        result, err := HandleDeletion(serviceAccount);
        return;
      }
      var hasRoleArn := HasAnnotation(serviceAccount, RoleAnnotation);
      var roleArn := AnnotationOrEmpty(serviceAccount, RoleAnnotation);
      var assumeRoleArn := AnnotationOrEmpty(serviceAccount, AssumeRoleAnnotation);
      if !hasRoleArn {
        result, err := CleanupPodIdentityAssociation(serviceAccount);
        return;
      }
      if !HasFinalizer(serviceAccount) {
        serviceAccount := AddFinalizer(serviceAccount);
        var updateErr := kube.UpdateServiceAccount(serviceAccount);
        if updateErr.Some? {
          return EmptyResult, updateErr;
        }
      }
      result, err := ReconcilePodIdentityAssociation(serviceAccount, roleArn, assumeRoleArn);
    }

    method ReconcilePodIdentityAssociation(sa: ServiceAccount, roleArn: string, assumeRoleArn: string)
      returns (result: CtrlResult, err: Option<Error>)
      requires errorHandler != null
      modifies errorHandler, aws, kube
      ensures var run := AssociationRun(sa, roleArn, assumeRoleArn, aws.answers, kube.updateAnswers, |old(kube.written)|, old(errorHandler.retryCounts));
              result == run.result && err == run.err
              && aws.calls == old(aws.calls) + run.calls && kube.written == old(kube.written) + run.writes
              && errorHandler.retryCounts == run.counts
      ensures kube.gets == old(kube.gets)
    {
      var found, existsErr := aws.AssociationExists(sa);
      if existsErr.Some? {
        result, err := errorHandler.HandleError(sa, existsErr);
        return;
      }
      var associationId: string;
      if found {
        associationId, err := UpdatePodIdentityAssociation(sa, roleArn, assumeRoleArn);
      } else {
        associationId, err := CreatePodIdentityAssociation(sa, roleArn, assumeRoleArn);
      }
      if err.Some? {
        return EmptyResult, err;
      }
      if associationId != "" {
        var recorded := SetAnnotation(sa, AssociationIdAnnotation, associationId);
        var updateErr := kube.UpdateServiceAccount(recorded);
        if updateErr.Some? {
          result, err := errorHandler.HandleError(recorded, updateErr);
          return;
        }
      }
      errorHandler.MarkSuccess(sa);
      return EmptyResult, None;
    }

    method UpdatePodIdentityAssociation(sa: ServiceAccount, roleArn: string, assumeRoleArn: string)
      returns (associationId: string, err: Option<Error>)
      requires errorHandler != null
      modifies errorHandler, aws
      ensures aws.calls == old(aws.calls) + [UpdateCall(sa, roleArn, assumeRoleArn)]
      ensures OpStep(associationId, err, errorHandler.retryCounts) == OperationStep(aws.answers.updateAnswer, old(errorHandler.retryCounts), Errors.RetryKey(sa))
    {
      var opErr: Option<Error>;
      associationId, opErr := aws.UpdatePodIdentityAssociation(sa, roleArn, assumeRoleArn);
      if opErr.Some? {
        var result, handleErr := errorHandler.HandleError(sa, opErr);
        if handleErr.Some? {
          return "", handleErr;
        }
        if Requeues(result) {
          return "", opErr;
        }
      }
      err := None;
    }

    method CreatePodIdentityAssociation(sa: ServiceAccount, roleArn: string, assumeRoleArn: string)
      returns (associationId: string, err: Option<Error>)
      requires errorHandler != null
      modifies errorHandler, aws
      ensures aws.calls == old(aws.calls) + [CreateCall(sa, roleArn, assumeRoleArn)]
      ensures OpStep(associationId, err, errorHandler.retryCounts) == OperationStep(aws.answers.createAnswer, old(errorHandler.retryCounts), Errors.RetryKey(sa))
    {
      var opErr: Option<Error>;
      associationId, opErr := aws.CreatePodIdentityAssociation(sa, roleArn, assumeRoleArn);
      if opErr.Some? {
        var result, handleErr := errorHandler.HandleError(sa, opErr);
        if handleErr.Some? {
          return "", handleErr;
        }
        if Requeues(result) {
          return "", opErr;
        }
      }
      err := None;
    }

    method HandleDeletion(sa: ServiceAccount) returns (result: CtrlResult, err: Option<Error>)
      requires errorHandler != null
      modifies errorHandler, aws, kube
      ensures var run := TeardownRun(sa, aws.answers, kube.updateAnswers, |old(kube.written)|, old(errorHandler.retryCounts), false);
              result == run.result && err == run.err
              && aws.calls == old(aws.calls) + run.calls && kube.written == old(kube.written) + run.writes
              && errorHandler.retryCounts == run.counts
      ensures kube.gets == old(kube.gets)
    {
      if HasFinalizer(sa) {
        var deleteErr, current := DeletePodIdentityAssociation(sa);
        if deleteErr.Some? {
          result, err := errorHandler.HandleDeletionError(sa, deleteErr);
          return;
        }
        current := RemoveFinalizer(current);
        var updateErr := kube.UpdateServiceAccount(current);
        if updateErr.Some? {
          result, err := errorHandler.HandleDeletionError(current, updateErr);
          return;
        }
      }
      return EmptyResult, None;
    }

    /** Delete the association, then persist the object without its association annotations; `sa'` is the object as left in memory. */
    method DeletePodIdentityAssociation(sa: ServiceAccount) returns (err: Option<Error>, sa': ServiceAccount)
      modifies aws, kube
      ensures var d := DeleteAssociationStep(sa, aws.answers.deleteAnswer, kube.updateAnswers, |old(kube.written)|);
              err == d.err && sa' == d.sa
              && aws.calls == old(aws.calls) + [DeleteCall(sa)] && kube.written == old(kube.written) + d.writes
      ensures kube.gets == old(kube.gets)
    {
      err := aws.DeletePodIdentityAssociation(sa);
      sa' := sa;
      if err.Some? {
        return;
      }
      if sa.annotations.Some? {
        sa' := StripAssociationAnnotations(sa);
        err := kube.UpdateServiceAccount(sa');
      }
    }

    method CleanupPodIdentityAssociation(sa: ServiceAccount) returns (result: CtrlResult, err: Option<Error>)
      requires errorHandler != null
      modifies errorHandler, aws, kube
      ensures var run := TeardownRun(sa, aws.answers, kube.updateAnswers, |old(kube.written)|, old(errorHandler.retryCounts), true);
              result == run.result && err == run.err
              && aws.calls == old(aws.calls) + run.calls && kube.written == old(kube.written) + run.writes
              && errorHandler.retryCounts == run.counts
      ensures kube.gets == old(kube.gets)
    {
      if !HasFinalizer(sa) {
        return EmptyResult, None;
      }
      var deleteErr, current := DeletePodIdentityAssociation(sa);
      if deleteErr.Some? {
        result, err := errorHandler.HandleDeletionError(sa, deleteErr);
        return;
      }
      current := RemoveFinalizer(current);
      var updateErr := kube.UpdateServiceAccount(current);
      if updateErr.Some? {
        result, err := errorHandler.HandleDeletionError(current, updateErr);
        return;
      }
      errorHandler.ResetRetryCount(sa);
      return EmptyResult, None;
    }
  }

  // ---------------------------------------------------------------------
  // Event filters.
  // ---------------------------------------------------------------------

  /** An update event reaches the reconciler when the role or the assume-role value changed; a missing key reads as "". */
  predicate UpdatePredicate(oldSa: ServiceAccount, newSa: ServiceAccount): (b: bool)
    ensures oldSa.annotations == newSa.annotations ==> !b
  {
    AnnotationOrEmpty(oldSa, RoleAnnotation) != AnnotationOrEmpty(newSa, RoleAnnotation)
    || AnnotationOrEmpty(oldSa, AssumeRoleAnnotation) != AnnotationOrEmpty(newSa, AssumeRoleAnnotation)
  }

  /** A create event reaches the reconciler when the role or assume-role key, or the finalizer, is present. */
  predicate CreatePredicate(sa: ServiceAccount): (b: bool)
    ensures HasFinalizer(sa) ==> b
    ensures !b ==> AnnotationOrEmpty(sa, RoleAnnotation) == "" && AnnotationOrEmpty(sa, AssumeRoleAnnotation) == ""
  {
    HasAnnotation(sa, RoleAnnotation) || HasAnnotation(sa, AssumeRoleAnnotation) || HasFinalizer(sa)
  }

  /**
   * Delete and generic events never reach the reconciler: a managed object
   * is torn down through the update that marks it, while the finalizer holds
   * it in place.
   */
  predicate DeletePredicate(sa: ServiceAccount): (b: bool)
    ensures !b
  {
    false
  }

  predicate GenericPredicate(sa: ServiceAccount): (b: bool)
    ensures !b
  {
    false
  }

  /** The reconciler's own bookkeeping writes (the id, adding or removing the finalizer) do not trigger it again. */
  lemma OwnBookkeepingWritesAreFiltered(sa: ServiceAccount, associationId: string)
    ensures !UpdatePredicate(sa, SetAnnotation(sa, AssociationIdAnnotation, associationId))
    ensures !UpdatePredicate(sa, AddFinalizer(sa))
    ensures !UpdatePredicate(sa, RemoveFinalizer(sa))
  {
  }

  /** Stripping the association annotations triggers another reconcile exactly when the assume-role value was non-empty. */
  lemma StripRetriggersOnlyWithAssumeRole(sa: ServiceAccount)
    ensures UpdatePredicate(sa, StripAssociationAnnotations(sa)) <==> AnnotationOrEmpty(sa, AssumeRoleAnnotation) != ""
  {
  }

  /** The create filter drops only objects whose reconcile would do nothing at all. */
  lemma CreateFilterDropsOnlyNoOps(sa: ServiceAccount, aws: AwsAnswers, answers: seq<Option<Error>>, n: nat, m: map<string, int>)
    requires !CreatePredicate(sa)
    ensures ReconcileRun(Ok(sa), aws, answers, n, m) == Run(EmptyResult, None, [], [], m)
  {
  }

  /**
   * The update filter compares annotations only. When a managed object is
   * deleted, the only change is its deletion mark, so the event is dropped,
   * although reconciling the marked object would delete its association and
   * release the finalizer.
   */
  lemma DeletionMarkIsFiltered(sa: ServiceAccount, aws: AwsAnswers, answers: seq<Option<Error>>, n: nat, m: map<string, int>)
    requires HasFinalizer(sa) && !sa.deleting
    ensures var marked := sa.(deleting := true);
            !UpdatePredicate(sa, marked) && ReconcileRun(Ok(marked), aws, answers, n, m).calls == [DeleteCall(marked)]
  {
  }

  /** The update filter with the deletion mark taken into account. */
  predicate UpdatePredicateWithDeletion(oldSa: ServiceAccount, newSa: ServiceAccount)
  {
    UpdatePredicate(oldSa, newSa) || (!oldSa.deleting && newSa.deleting)
  }

  /**
   * The corrected filter passes every event the original passes, and also
   * the deletion mark of an object the reconciler still has to tear down;
   * it passes no other new event.
   */
  lemma CorrectedFilterPassesPendingTeardowns(oldSa: ServiceAccount, newSa: ServiceAccount, aws: AwsAnswers,
                                              answers: seq<Option<Error>>, n: nat, m: map<string, int>)
    ensures UpdatePredicate(oldSa, newSa) ==> UpdatePredicateWithDeletion(oldSa, newSa)
    ensures UpdatePredicateWithDeletion(oldSa, newSa) && !UpdatePredicate(oldSa, newSa) ==> newSa.deleting && !oldSa.deleting
    ensures !oldSa.deleting && newSa.deleting && HasFinalizer(newSa) ==>
              UpdatePredicateWithDeletion(oldSa, newSa) && ReconcileRun(Ok(newSa), aws, answers, n, m).calls == [DeleteCall(newSa)]
  {
  }
}
