/**
 * The Kubernetes side of the operator: the ServiceAccount object it watches,
 * the annotation keys and finalizer it owns, the finalizer helpers it calls,
 * and the result a reconcile returns to the controller runtime.
 */
module Kube {
  import opened Common

  const RoleAnnotation := "pia-operator.eks.aws.com/role"
  const AssumeRoleAnnotation := "pia-operator.eks.aws.com/assume-role"
  const Finalizer := "pia-operator.eks.aws.com/finalizer"
  const AssociationIdAnnotation := "pia-operator.eks.aws.com/association-id"

  /**
   * A ServiceAccount as the operator sees it. `annotations == None` is a nil
   * annotation map (reads give "", deletes do nothing, writes need a fresh
   * map first); `deleting` says the deletion timestamp is set.
   */
  datatype ServiceAccount = ServiceAccount(
    namespace: string,
    name: string,
    annotations: Option<map<string, string>>,
    finalizers: seq<string>,
    deleting: bool)

  /** The annotation map, with a nil map read as empty. */
  function AnnotationMap(sa: ServiceAccount): map<string, string>
  {
    if sa.annotations.Some? then sa.annotations.value else map[]
  }

  /** `v, ok := sa.Annotations[key]`. */
  predicate HasAnnotation(sa: ServiceAccount, key: string)
  {
    key in AnnotationMap(sa)
  }

  /** `sa.Annotations[key]`: a missing key reads as "". */
  function AnnotationOrEmpty(sa: ServiceAccount, key: string): string
  {
    if key in AnnotationMap(sa) then AnnotationMap(sa)[key] else ""
  }

  /** Allocate the annotation map if it is nil, then write one key. */
  function SetAnnotation(sa: ServiceAccount, key: string, value: string): (r: ServiceAccount)
    ensures r.annotations.Some?
    ensures AnnotationMap(r) == AnnotationMap(sa)[key := value]
    ensures r.namespace == sa.namespace && r.name == sa.name
    ensures r.finalizers == sa.finalizers && r.deleting == sa.deleting
  {
    sa.(annotations := Some(AnnotationMap(sa)[key := value]))
  }

  /** `controllerutil.ContainsFinalizer`. */
  predicate HasFinalizer(sa: ServiceAccount)
  {
    Finalizer in sa.finalizers
  }

  /** `controllerutil.AddFinalizer`: append the finalizer unless it is already there. */
  function AddFinalizer(sa: ServiceAccount): (r: ServiceAccount)
    ensures HasFinalizer(r)
    ensures forall f :: f in r.finalizers <==> f in sa.finalizers || f == Finalizer
    ensures HasFinalizer(sa) ==> r == sa
    ensures r.annotations == sa.annotations
    ensures r.namespace == sa.namespace && r.name == sa.name && r.deleting == sa.deleting
  {
    if HasFinalizer(sa) then sa else sa.(finalizers := sa.finalizers + [Finalizer])
  }

  /** The finalizer list without any copy of `f`, the rest in order. */
  function Without(fs: seq<string>, f: string): (r: seq<string>)
    ensures forall g :: g in r <==> g in fs && g != f
    ensures |r| <= |fs|
    ensures f !in fs ==> r == fs
    ensures forall g :: g != f ==> multiset(r)[g] == multiset(fs)[g]
  {
    if |fs| == 0 then []
    else
      assert fs == [fs[0]] + fs[1..];
      if fs[0] == f then Without(fs[1..], f)
      else [fs[0]] + Without(fs[1..], f)
  }

  /** `controllerutil.RemoveFinalizer`: drop every copy of the finalizer. */
  function RemoveFinalizer(sa: ServiceAccount): (r: ServiceAccount)
    ensures !HasFinalizer(r)
    ensures forall f :: f in r.finalizers <==> f in sa.finalizers && f != Finalizer
    ensures r.annotations == sa.annotations
    ensures r.namespace == sa.namespace && r.name == sa.name && r.deleting == sa.deleting
  {
    sa.(finalizers := Without(sa.finalizers, Finalizer))
  }

  /** `ctrl.Result`; `requeueAfter` is a duration in whole seconds. */
  datatype CtrlResult = CtrlResult(requeue: bool, requeueAfter: int)

  const EmptyResult := CtrlResult(false, 0)

  /** The test the reconciler applies to a handler's answer before propagating an error. */
  predicate Requeues(r: CtrlResult)
  {
    r.requeue || r.requeueAfter > 0
  }
}
