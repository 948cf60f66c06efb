# pia-operator reconciliation core in Dafny

pia-operator is a Kubernetes operator. It keeps one EKS Pod Identity
Association per annotated ServiceAccount:

- `pia-operator.eks.aws.com/role` names the base IAM role.
- `pia-operator.eks.aws.com/assume-role` optionally names a target role.
- The operator records the association's id in
  `pia-operator.eks.aws.com/association-id`.
- It guards the object with the finalizer `pia-operator.eks.aws.com/finalizer`
  so that the association is deleted before the object goes away.

This project models, and proves properties of, the following parts of it.

- **The retry policy** (`errors.dfy`, module `Errors`):
  - error classification (permanent, transient, retryable);
  - the exponential backoff: 30 s doubling to a 5-minute cap;
  - the per-object retry table keyed `namespace/name`;
  - the two handlers: `HandleError` and the more permissive `HandleDeletionError`.

  The handler is a class whose table the methods update in place. Each
  method is proved equal to a function on tables (`HandleErrorOn`,
  `HandleDeletionErrorOn`, `ResetAt`). The properties are proved about
  those functions.
- **The controller's copy of that policy** (`controller_errors.dfy`, module
  `ControllerErrors`). Every decision it makes is proved equal to the
  package's.
- **The EKS client the operator runs with** (`awsclient.dfy`, module `AwsClient`):
  - request building (tags, and the optional target role);
  - lookup by the cached id, or by a scan of the paginated listing;
  - the "not found" test;
  - create, update, delete, get, exists, list and find.

  The SDK is an oracle (`eks.dfy`, module `Eks`). Its answers are fixed
  when it is built, and it logs every request.
- **The second copy of that client** (`internal_awsclient.dfy`, module
  `InternalAwsClient`). It adds an idempotency token and tests "not found"
  on the text alone. It is proved equal to the first copy wherever the two
  agree, and the differences are exhibited.
- **The reconciler** (`controller.dfy`, module `Controller`):
  - `Reconcile`;
  - `reconcilePodIdentityAssociation`, and the update and create wrappers;
  - `handleDeletion`, `deletePodIdentityAssociation` and
    `cleanupPodIdentityAssociation`;
  - the event filters.

  The AWS client interface and the Kubernetes client are oracles
  (`clients.dfy`, module `Clients`). The whole effect of one reconcile is
  `ReconcileRun`: its answer, the AWS calls, the object writes, and the new
  retry table. The reconciler's methods are proved to have exactly that
  effect. The safety properties are then proved about `ReconcileRun` for
  every stored object and every oracle answer:
  - the finalizer comes first;
  - it goes only after a successful delete;
  - the failure verdicts;
  - the counts move only for the reconciled object.

Shared values live in `common.dfy` (module `Common`): Go errors as a kind
plus a message, `%w` wrapping, and the ASCII string tests. The
ServiceAccount object, the finalizer helpers and the controller result live
in `kube.dfy` (module `Kube`).

Durations are whole seconds. An error carries its Kubernetes status reason
(or the EKS `ResourceNotFoundException` type) and its text. Wrapping with
`%w` keeps the kind and prefixes the text.

Behaviour of the code worth knowing:

- A transient failure of the AWS create or update makes the reconciler
  return the raw error. The delay the handler computed is thrown away
  (`internal/controller/serviceaccount_controller.go:143-146`, `:176-178` for
  update, `:192-194` for create),
  but the count the handler bumped stays bumped. See
  `Controller.OperationFailureVerdict`.
- Suppose the cached association id is stale. Then the describe answers
  not-found and `AssociationExists` answers false. The reconciler then takes
  the create path, and the listing is never consulted. See
  `AwsClient.StaleCachedIdReadsAsAbsent`.
- When `HandleDeletionError` gives up, the finalizer is not removed: the
  reconcile ends without writing. See `Controller.DeleteFailureKeepsTheFinalizer`.
- `handleDeletion` never resets the retry count; only
  `cleanupPodIdentityAssociation` does. See `Controller.TeardownCompletes`.
- The Kubernetes client interface names its parameters `(name, namespace)`,
  whereas the implementation and the caller use `(namespace, name)`
  (`pkg/k8sclient/interface.go:20`, `pkg/k8sclient/client.go:18`).
  `Clients.KubeApi.GetServiceAccount` follows the implementation.

## Model

| member | source | states |
|---|---|---|
| Errors.ClassifyError | pkg/errors/errors.go:48-70 | a nil error or a Conflict is retryable (iff); NotFound, Invalid and BadRequest are permanent (iff); every error without a status reason is transient |
| Errors.Backoff | pkg/errors/errors.go:74-83 | the delay always lies between 30 s and 5 minutes |
| Errors.BackoffDoubles | pkg/errors/errors.go:76-78 | each further retry doubles the delay, up to the cap |
| Errors.BackoffSchedule | pkg/errors/errors.go:14-19 | the schedule is 30, 60, 120, 240 s, then 5 minutes from the fifth retry on |
| Errors.BackoffMonotone | pkg/errors/errors.go:74-83 | the delay never shrinks as the count grows |
| Errors.RetryKey | pkg/errors/errors.go:86-87 | the key ends with the object's name, and a namespace without '/' is read back as the text before the first '/' |
| Errors.RetryKeyInjective | pkg/errors/errors.go:86-95 | distinct objects have distinct `namespace/name` keys, given that namespaces contain no '/' |
| Errors.OtherObjectsKeepTheirCount | pkg/errors/errors.go:92-95 | writing one object's count leaves every other object's count unchanged |
| Errors.ResetAt | pkg/errors/errors.go:179-182 | the object's count reads 0 afterwards, and every other count is unchanged |
| Errors.HandleErrorOn | pkg/errors/errors.go:100-135 | nil gives an empty result; a permanent failure gives an empty result and the same table; a retryable one an immediate requeue and the same table; a transient one waits Backoff(count), and below the ceiling bumps the count by one; a retry is asked for exactly when the failure is not permanent |
| Errors.HandleDeletionErrorOn | pkg/errors/errors.go:139-176 | a retryable failure is an immediate requeue with the same table; a transient one below the ceiling waits Backoff(count) and bumps the count by one; every failure that asks for no retry (permanent, or transient at the ceiling) gives an empty result and the same table |
| Errors.DeletionHandlerIsMorePermissive | pkg/errors/errors.go:137-139 | the deletion handler leaves the same table, and whenever it asks for a retry it asks for the same one as HandleError |
| Errors.TransientDelaysFollowBackoff | pkg/errors/errors.go:114-124 | the i-th of consecutive transient failures waits Backoff(c + i) |
| Errors.AfterTransientsCount | pkg/errors/errors.go:114-124 | consecutive transient failures raise the count by one each up to the ceiling, and touch no other object |
| Errors.CountsStayWithinCeiling | pkg/errors/errors.go:116-121 | no handler raises a count above 5 once it started at or below 5 |
| Errors.ErrorHandler.constructor | pkg/errors/errors.go:38-44 | the retry table starts empty |
| Errors.ErrorHandler.GetRetryCount | pkg/errors/errors.go:86-89 | an object never counted reads 0, otherwise its entry |
| Errors.ErrorHandler.SetRetryCount | pkg/errors/errors.go:92-95 | exactly the object's entry is overwritten |
| Errors.ErrorHandler.CalculateBackoff | pkg/errors/errors.go:74-83 | the doubling loop computes Backoff for every count |
| Errors.ErrorHandler.HandleError | pkg/errors/errors.go:100-135 | the handler never returns an error; its result and new table are HandleErrorOn of the old table |
| Errors.ErrorHandler.HandleDeletionError | pkg/errors/errors.go:139-176 | the handler never returns an error; its result and new table are HandleDeletionErrorOn of the old table |
| Errors.ErrorHandler.ResetRetryCount | pkg/errors/errors.go:179-182 | the object's count becomes 0, others unchanged |
| Errors.ErrorHandler.MarkSuccess | pkg/errors/errors.go:185-187 | a success resets the object's count |
| ControllerErrors.ClassifyError | internal/controller/errors.go:56-78 | this copy classifies every error as the package does |
| ControllerErrors.HandleErrorOn | internal/controller/errors.go:115-151 | this copy's handler, with Retryable falling into `default`, decides as the package's |
| ControllerErrors.HandleDeletionErrorOn | internal/controller/errors.go:155-187 | the same, for deletions |
| ControllerErrors.ErrorHandler.constructor | internal/controller/errors.go:47-53 | the retry table starts empty |
| ControllerErrors.ErrorHandler.GetRetryCount | internal/controller/errors.go:93-96 | an object never counted reads 0 |
| ControllerErrors.ErrorHandler.SetRetryCount | internal/controller/errors.go:99-102 | exactly the object's entry is overwritten |
| ControllerErrors.ErrorHandler.CalculateBackoff | internal/controller/errors.go:81-90 | the same constants and loop give the package's Backoff for every count |
| ControllerErrors.ErrorHandler.HandleError | internal/controller/errors.go:115-151 | never returns an error; result and new table equal the package handler's |
| ControllerErrors.ErrorHandler.HandleDeletionError | internal/controller/errors.go:155-187 | never returns an error; result and new table equal the package deletion handler's |
| ControllerErrors.ErrorHandler.ResetRetryCount | internal/controller/errors.go:190-193 | the object's count becomes 0 |
| ControllerErrors.ErrorHandler.MarkSuccess | internal/controller/errors.go:196-199 | a success resets the count; reporting the condition changes no state |
| Kube.SetAnnotation | pkg/awsclient/client.go:78-82 | a nil annotation map is allocated; exactly one key is set; nothing else changes |
| Kube.AddFinalizer | internal/controller/serviceaccount_controller.go:111-112 | the finalizer is present afterwards; a present finalizer leaves the object unchanged; no other finalizer changes |
| Kube.Without | internal/controller/serviceaccount_controller.go:221 | no copy of the removed entry remains; every other entry keeps its number of copies; a list without it is unchanged |
| Kube.RemoveFinalizer | internal/controller/serviceaccount_controller.go:221 | the finalizer is gone; every other finalizer and all annotations stay |
| AwsClient.ConvertToAssociation | pkg/awsclient/client.go:272-284 | id, namespace, name, role and tags are copied; the status is always ACTIVE |
| AwsClient.ConvertToAssociationSummary | pkg/awsclient/client.go:287-295 | a listed entry has no role, empty tags and no status |
| AwsClient.CreateInputFor | pkg/awsclient/client.go:52-69 | the tag keys are exactly managed-by, serviceaccount, namespace, base-role, plus assume-role iff one is given; the tags mirror the request; the target role is set iff assume-role is non-empty; no token |
| AwsClient.UpdateInputFor | pkg/awsclient/client.go:107-116 | the update carries the id and the role; the target role is set iff assume-role is non-empty |
| AwsClient.IsNotFoundError | pkg/awsclient/client.go:255-269 | only an error can be a not-found; the typed exception always is, and so is any text containing "not found" (the exact test is IsNotFoundErrorSimplified) |
| AwsClient.IsNotFoundErrorSimplified | pkg/awsclient/client.go:255-269 | "not found" holds iff the error is the typed exception, or its text contains "not found", or its lower-cased text contains "notfound"; the other two checks are redundant |
| AwsClient.NotFoundTextsSayNotFound | pkg/awsclient/client.go:188-191 | every not-found text this client produces itself passes its own not-found test |
| AwsClient.FirstMatch | pkg/awsclient/client.go:245-249 | the first association with the object's namespace and name, and none before it; None iff there is none |
| AwsClient.FindIn | pkg/awsclient/client.go:245-251 | a found association is in the listing and bound to the object; a failure is the client's not-found error, and then no entry is bound to it |
| AwsClient.ScanForServiceAccount | pkg/awsclient/client.go:239-252 | the scan returns the first match, or the not-found error naming the object |
| AwsClient.ListOutcome | pkg/awsclient/client.go:215-236 | a listing succeeds only when every page does |
| AwsClient.FindOutcome | pkg/awsclient/client.go:239-252 | a failed listing is passed through unchanged; a found association is in the listing and bound to the object; a miss on a listing is a not-found error, and no entry is bound to the object |
| AwsClient.GetOutcome | pkg/awsclient/client.go:178-200 | with a cached id: a successful describe gives the converted association, a not-found gives the client's not-found error, any other failure gives that failure wrapped; without one a failed listing is its answer and a found association is bound to the object | |
| AwsClient.ListOutcomeFailsOnAFailingPage | pkg/awsclient/client.go:215-236 | a listing succeeds iff every page does; a failure is the wrapped error of a failing page |
| AwsClient.ListAllPages | pkg/awsclient/client.go:215-236 | the paging loop returns every page's entries in order, or the first page failure wrapped |
| AwsClient.ExistsOutcome | pkg/awsclient/client.go:203-212 | "exists" iff the lookup succeeded, with no error; a failure is (false, nil) iff its text contains "not found", otherwise the failure itself is returned |
| AwsClient.StaleCachedIdReadsAsAbsent | pkg/awsclient/client.go:181-192 | a cached id the service no longer knows reads as "absent, no error" |
| AwsClient.UnmatchedListingReadsAsAbsent | pkg/awsclient/client.go:239-252 | without a cached id, a listing with no entry for the object reads as "absent, no error" |
| AwsClient.ExistsOutcomeCases | pkg/awsclient/client.go:178-212 | a matched listing entry, or a successful describe, reads as "present, no error"; a failing listing whose text lacks "not found" is returned as the error; a describe failure that is not a not-found is returned wrapped, never read as absence | |
| AwsClient.DeleteAnswerOutcome | pkg/awsclient/client.go:164-172 | the delete fails iff the service answers an error that is not a not-found, and then with that error wrapped |
| AwsClient.UpdateAnswerOutcome | pkg/awsclient/client.go:124-132 | fails iff the service fails, and then with "" and the service error wrapped; on success the resolved id | |
| AwsClient.NothingToDeleteIsSuccess | pkg/awsclient/client.go:141-152 | with no cached id and no listing entry, the find failure is a not-found, so deleting succeeds |
| AwsClient.Client.CreatePodIdentityAssociation | pkg/awsclient/client.go:49-88 | sends exactly CreateInputFor; on failure answers "" and the wrapped error; on success answers the id and records it on the object |
| AwsClient.Client.UpdatePodIdentityAssociation | pkg/awsclient/client.go:93-133 | uses the cached id, else the listing's match; a failed find aborts before any update request; the answer is UpdateAnswerOutcome |
| AwsClient.Client.DeletePodIdentityAssociation | pkg/awsclient/client.go:138-173 | resolves the id the same way; a not-found during the find or the delete is success; the requests sent are stated case by case |
| AwsClient.Client.GetPodIdentityAssociation | pkg/awsclient/client.go:178-200 | a describe by cached id, else a find; the answer is GetOutcome |
| AwsClient.Client.AssociationExists | pkg/awsclient/client.go:203-212 | the answer is ExistsOutcome of the lookup |
| AwsClient.Client.ListPodIdentityAssociations | pkg/awsclient/client.go:215-236 | one listing request; the answer is the listing outcome |
| AwsClient.Client.FindAssociationByServiceAccount | pkg/awsclient/client.go:239-252 | a failed listing is passed through, else the first match |
| InternalAwsClient.GenerateClientToken | internal/awsclient/client.go:260-262 | the token starts with `pia-operator-` and the cluster name, ends with the object's name, and a namespace without '-' is read back from it |
| InternalAwsClient.TokenTellsObjectsApart | internal/awsclient/client.go:260-262 | within one cluster, objects whose namespaces hold no '-' get distinct tokens |
| InternalAwsClient.DistinctObjectsCanShareAToken | internal/awsclient/client.go:260-262 | team-a/app and team/a-app get the same token |
| InternalAwsClient.CreateInputFor | internal/awsclient/client.go:58-76 | the create request is the other client's, plus this object's token |
| InternalAwsClient.UpdateInputFor | internal/awsclient/client.go:112-122 | the update request is the other client's, plus this object's token |
| InternalAwsClient.IsNotFoundError | internal/awsclient/client.go:265-276 | only an error can be a not-found, and any text containing "not found" is one (the exact test is IsNotFoundErrorReadsTextOnly) |
| InternalAwsClient.IsNotFoundErrorReadsTextOnly | internal/awsclient/client.go:265-276 | the typed check never fires; the test holds iff the text contains "not found" or its lower-cased text contains "notfound" |
| InternalAwsClient.NotFoundTestsAgree | internal/awsclient/client.go:265-276 | this test implies the other client's; the two agree on every error except a typed exception whose text does not name it |
| InternalAwsClient.TypedExceptionWithBareTextIsMissed | internal/awsclient/client.go:270-275 | a typed not-found exception with empty text is found by the other client but missed by this one |
| InternalAwsClient.GetOutcomesAgree | internal/awsclient/client.go:181-204 | lookups answer as in the other client, under that condition on the describe error |
| InternalAwsClient.DeleteAnswerOutcome | internal/awsclient/client.go:169-175 | the delete fails iff the service answers an error that is not a not-found by this copy's test, and then with that error wrapped |
| InternalAwsClient.DeleteOutcomesAgree | internal/awsclient/client.go:169-175 | delete answers are the other client's, under the same condition |
| InternalAwsClient.Client.CreatePodIdentityAssociation | internal/awsclient/client.go:55-95 | sends this copy's CreateInputFor; records the id on success; the wrapped error on failure |
| InternalAwsClient.Client.UpdatePodIdentityAssociation | internal/awsclient/client.go:98-139 | resolves the id like the other client; sends this copy's UpdateInputFor |
| InternalAwsClient.Client.DeletePodIdentityAssociation | internal/awsclient/client.go:142-178 | like the other client, with this copy's not-found test |
| InternalAwsClient.Client.GetPodIdentityAssociation | internal/awsclient/client.go:181-204 | describe by cached id, else find, with this copy's not-found test |
| InternalAwsClient.Client.AssociationExists | internal/awsclient/client.go:207-216 | "absent, no error" exactly when the lookup's error text contains "not found" |
| InternalAwsClient.Client.ListPodIdentityAssociations | internal/awsclient/client.go:219-241 | the same paging as the other client |
| InternalAwsClient.Client.FindAssociationByServiceAccount | internal/awsclient/client.go:244-257 | the same scan as the other client |
| Clients.AwsApi.AssociationExists | pkg/awsclient/interface.go:31 | logs the call, and answers presence or the failure |
| Clients.AwsApi.CreatePodIdentityAssociation | pkg/awsclient/interface.go:28 | logs the call; answers the id, or "" with the failure |
| Clients.AwsApi.UpdatePodIdentityAssociation | pkg/awsclient/interface.go:29 | logs the call; answers the id, or "" with the failure |
| Clients.AwsApi.DeletePodIdentityAssociation | pkg/awsclient/interface.go:30 | logs the call and answers its failure |
| Clients.KubeApi.GetServiceAccount | pkg/k8sclient/client.go:18-25 | logs the read and answers the stored object or the failure |
| Clients.KubeApi.UpdateServiceAccount | pkg/k8sclient/client.go:14-16 | logs the whole written object and answers the next write answer |
| Controller.StripAssociationAnnotations | internal/controller/serviceaccount_controller.go:241-244 | exactly the assume-role and association-id keys go; every other annotation, the role included, keeps its value; a nil map stays nil |
| Controller.DeleteAssociationStep | internal/controller/serviceaccount_controller.go:233-252 | a delete failure is returned with no write; on success the object is written once, stripped, unless its map is nil; the answer is then the write's error, or nil with no write; identity and finalizers are kept |
| Controller.TeardownRun | internal/controller/serviceaccount_controller.go:214-229 | (with `cleanupPodIdentityAssociation`, :256-276) without the finalizer nothing happens; with it exactly one delete call is made; no error is ever returned; nothing is written unless the delete succeeded; every write is of the same object |
| Controller.OperationStep | internal/controller/serviceaccount_controller.go:169-199 | a failed create or update is propagated iff it is not permanent; the id is then ""; the table is HandleError's |
| Controller.AssociationRun | internal/controller/serviceaccount_controller.go:126-164 | the existence check comes first, and alone when it fails, with no write; when it answers, exactly one more call follows: an update iff the association exists, a create otherwise, whatever that call answers; a propagated error comes with an empty result and no write; at most one write, which records the id and keeps the object's identity, deletion mark and finalizers | |
| Controller.ReconcileRun | internal/controller/serviceaccount_controller.go:84-94 | a failed read makes no call and no write and keeps the table; the answer is (empty, nil) iff the failure is NotFound, else the failure itself |
| Controller.AwsCallsOnlyBehindTheFinalizer | internal/controller/serviceaccount_controller.go:110-120 | every AWS call passes an object that carries the finalizer; any call at all means the object had it or the write adding it succeeded |
| Controller.FinalizerRemovedOnlyAfterDelete | internal/controller/serviceaccount_controller.go:214-229 | a written object lacks the finalizer only in a reconcile's last write, only for an object that had it, and only after the one delete call succeeded |
| Controller.ManagedObjectGetsFinalizerFirst | internal/controller/serviceaccount_controller.go:110-117 | an annotated object without the finalizer has it added in the first write; if that write fails, the reconcile returns that error with no AWS call |
| Controller.UnmanagedObjectIsUntouched | internal/controller/serviceaccount_controller.go:214-215 | without the finalizer, a deleted or unannotated object gets no call and no write, and the table is unchanged |
| Controller.DeleteFailureKeepsTheFinalizer | internal/controller/serviceaccount_controller.go:217-219 | a failed delete writes nothing, so the finalizer stays; the answer is the deletion handler's |
| Controller.TeardownCompletes | internal/controller/serviceaccount_controller.go:256-276 | a successful teardown's last write has no finalizer, no assume-role and no id, and keeps every other annotation; cleanup resets the count, deletion does not |
| Controller.AssociationIsRecorded | internal/controller/serviceaccount_controller.go:126-164 | check, then update (present) or create (absent), then a write of the answered id; success resets the count |
| Controller.OperationFailureVerdict | internal/controller/serviceaccount_controller.go:138-146 | a failed create or update writes nothing; a permanent failure ends as a success with the count reset; any other returns the raw error with an empty result and the handler's table |
| Controller.ExistsFailureIsHandled | internal/controller/serviceaccount_controller.go:129-132 | a failed existence check answers HandleError's result, with no error and no write |
| Controller.WritesStayOnTheObject | internal/controller/serviceaccount_controller.go:75-121 | every write is of the object read, with its namespace, name and deletion mark |
| Controller.CountsChangeOnlyForTheObject | internal/controller/serviceaccount_controller.go:75-121 | a reconcile changes no other object's count, and keeps its own within the ceiling |
| Controller.ServiceAccountReconciler.Reconcile | internal/controller/serviceaccount_controller.go:75-121 | builds the handler when there is none and keeps an existing one, so the retry table carries over between reconciles; the answer, the AWS calls, the writes and the new table are exactly ReconcileRun's |
| Controller.ServiceAccountReconciler.ReconcilePodIdentityAssociation | internal/controller/serviceaccount_controller.go:126-164 | its effect is exactly AssociationRun's |
| Controller.ServiceAccountReconciler.UpdatePodIdentityAssociation | internal/controller/serviceaccount_controller.go:169-182 | one update call; the id, the error and the table are OperationStep's |
| Controller.ServiceAccountReconciler.CreatePodIdentityAssociation | internal/controller/serviceaccount_controller.go:186-199 | one create call; the id, the error and the table are OperationStep's |
| Controller.ServiceAccountReconciler.HandleDeletion | internal/controller/serviceaccount_controller.go:214-229 | its effect is exactly TeardownRun without reset |
| Controller.ServiceAccountReconciler.DeletePodIdentityAssociation | internal/controller/serviceaccount_controller.go:233-252 | one delete call; its writes, its error and the object left in memory are DeleteAssociationStep's |
| Controller.ServiceAccountReconciler.CleanupPodIdentityAssociation | internal/controller/serviceaccount_controller.go:256-276 | its effect is exactly TeardownRun with reset |
| Controller.UpdatePredicate | internal/controller/serviceaccount_controller.go:283-289 | an update that leaves the annotations as they were never passes |
| Controller.CreatePredicate | internal/controller/serviceaccount_controller.go:290-296 | an object with the finalizer always passes; one that is dropped has empty role and assume-role values |
| Controller.DeletePredicate | internal/controller/serviceaccount_controller.go:297 | no delete event passes |
| Controller.GenericPredicate | internal/controller/serviceaccount_controller.go:298 | no generic event passes |
| Controller.OwnBookkeepingWritesAreFiltered | internal/controller/serviceaccount_controller.go:283-289 | writing the id, adding the finalizer or removing it does not pass the update filter |
| Controller.StripRetriggersOnlyWithAssumeRole | internal/controller/serviceaccount_controller.go:283-289 | the stripping write passes the update filter iff the assume-role value was non-empty |
| Controller.CreateFilterDropsOnlyNoOps | internal/controller/serviceaccount_controller.go:290-296 | every object the create filter drops would have been reconciled as a no-op |
| Controller.DeletionMarkIsFiltered | internal/controller/serviceaccount_controller.go:283-289 | the update that marks a managed object deleted is dropped, although its reconcile would delete the association |
| Controller.CorrectedFilterPassesPendingTeardowns | internal/controller/serviceaccount_controller.go:283-289 | the corrected filter passes everything the original passes, plus the deletion mark, and nothing else |

## Left out

- Logging, metrics (`pkg/metrics`) and status conditions. The controller
  copy's `UpdateServiceAccountStatus` only logs, so it is an empty method.
- The creation and modification timestamps of associations, and the
  `context` arguments.
- `NewClient`, `NewErrorHandler`'s client and logger, and the AWS
  configuration loading: these are I/O and wiring.
- `SetupWithManager`'s registration with the manager. Only its four event
  filters are modelled.
- The SDK, the EKS service and the Kubernetes API server are oracles with
  fixed answers. A listing is given as its sequence of page answers, and
  the answers to successive object writes as a sequence. The object read is
  the one stored, whatever name is asked for. Retries by the controller
  runtime, and concurrent reconciles, are not modelled.
- The reconciler calls the AWS client through its interface, and the model
  does the same. The in-place write of the association id that the real
  client makes on create is therefore not repeated in the reconciler's
  model. The reconciler writes the same key with the same id before any
  persist, so the objects written agree.
- `r.Update` (the embedded controller-runtime client) and
  `K8sClient.UpdateServiceAccount` both write through
  `Clients.KubeApi.UpdateServiceAccount`. Resource versions are not
  modelled.
- Common.ToLower: lower-cases ASCII letters only, where Go's
  `strings.ToLower` also folds other Unicode letters.
- Errors.ClassifyError: classifies by the status reason only. The Kubernetes
  helpers also fall back on the HTTP status code of an error without a
  reason, and that fallback is not modelled.
- Controller.ReconcileRun: reads `errors.IsNotFound` on a failed read
  (`internal/controller/serviceaccount_controller.go:86`) by the status reason
  only, without the same HTTP 404 fallback.
- Kube.Without: states which entries remain and how many copies of each, not
  that they keep their order.
- internal/k8sclient/client.go and internal/k8sclient/interface.go are not
  part of this model. The controller uses the `pkg` client.
- Go `time.Duration` is 64-bit nanoseconds. The backoff loop stops at
  5 minutes, far below overflow, so durations are unbounded whole seconds.

## Findings

| source | as written | input that shows it | evidently intended | confidence | as-written member | corrected member |
|---|---|---|---|---|---|---|
| internal/controller/serviceaccount_controller.go:283-289 | the update filter passes an event only when the role or assume-role value changed | deleting a ServiceAccount that has the role annotation and the finalizer: the API server only sets its deletion timestamp, so old and new annotations are equal and the event is dropped | the deletion mark reaches the reconciler, which would delete the association and release the finalizer | medium, not executed | Controller.DeletionMarkIsFiltered | Controller.CorrectedFilterPassesPendingTeardowns |
