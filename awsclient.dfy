/**
 * The EKS Pod Identity client the operator runs with: how it builds requests,
 * how it finds an object's association (by the cached id annotation, or by
 * scanning the cluster's listing), how it reads "not found", and what each
 * operation answers for every answer the service can give.
 */
module AwsClient {
  import opened Common
  import opened Kube
  import opened Eks

  /** The client's own view of an association (timestamps left out). */
  datatype PodIdentityAssociation = PodIdentityAssociation(
    id: string,
    clusterName: string,
    namespace: string,
    serviceAccountName: string,
    roleArn: string,
    assumeRolePolicy: string,
    tags: map<string, string>,
    status: string)

  const StatusCreating := "CREATING"
  const StatusActive := "ACTIVE"
  const StatusDeleting := "DELETING"
  const StatusFailed := "FAILED"

  const CreateFailure := "failed to create Pod Identity Association: "
  const UpdateFailure := "failed to update Pod Identity Association: "
  const DeleteFailure := "failed to delete Pod Identity Association: "
  const DescribeFailure := "failed to describe Pod Identity Association: "
  const ListFailure := "failed to list Pod Identity Associations: "
  const FindFailure := "failed to find existing association: "
  const NotFoundText := "Pod Identity Association not found"

  /** The error a scan that found nothing answers. */
  function NotFoundForServiceAccount(sa: ServiceAccount): Error
  {
    Error(Plain, NotFoundText + " for ServiceAccount " + sa.namespace + "/" + sa.name)
  }

  /** A described association: status fixed to ACTIVE, the SDK has no status field. */
  function ConvertToAssociation(a: Association): (p: PodIdentityAssociation)
    ensures p.id == a.associationId && p.roleArn == a.roleArn && p.tags == a.tags
    ensures p.namespace == a.namespace && p.serviceAccountName == a.serviceAccount
    ensures p.status == StatusActive
  {
    PodIdentityAssociation(a.associationId, a.clusterName, a.namespace, a.serviceAccount, a.roleArn, "", a.tags, StatusActive)
  }

  /** A listed association: a summary has no role, tags or status. */
  function ConvertToAssociationSummary(s: AssociationSummary): (p: PodIdentityAssociation)
    ensures p.id == s.associationId && p.namespace == s.namespace && p.serviceAccountName == s.serviceAccount
    ensures p.roleArn == "" && p.tags == map[] && p.status == ""
  {
    PodIdentityAssociation(s.associationId, s.clusterName, s.namespace, s.serviceAccount, "", "", map[], "")
  }

  function ConvertPage(page: seq<AssociationSummary>): (ps: seq<PodIdentityAssociation>)
    ensures |ps| == |page|
    ensures forall i :: 0 <= i < |page| ==> ps[i] == ConvertToAssociationSummary(page[i])
  {
    seq(|page|, i requires 0 <= i < |page| => ConvertToAssociationSummary(page[i]))
  }

  /** The request that creates an object's association. */
  function CreateInputFor(clusterName: string, sa: ServiceAccount, roleArn: string, assumeRoleArn: string): (input: CreateInput)
    ensures input.clusterName == clusterName && input.namespace == sa.namespace && input.serviceAccount == sa.name
    ensures input.roleArn == roleArn
    ensures input.targetRoleArn.Some? <==> assumeRoleArn != ""
    ensures input.targetRoleArn.Some? ==> input.targetRoleArn.value == assumeRoleArn
    ensures input.clientRequestToken.None?
    ensures input.tags.Keys == {"managed-by", "serviceaccount", "namespace", "base-role"} + (if assumeRoleArn != "" then {"assume-role"} else {})
    ensures input.tags["managed-by"] == "pia-operator"
    ensures input.tags["serviceaccount"] == input.serviceAccount && input.tags["namespace"] == input.namespace
    ensures input.tags["base-role"] == input.roleArn
    ensures input.targetRoleArn.Some? ==> input.tags["assume-role"] == input.targetRoleArn.value
  {
    var input := CreateInput(clusterName, sa.namespace, sa.name, roleArn, None, None,
                             map["managed-by" := "pia-operator", "serviceaccount" := sa.name,
                                 "namespace" := sa.namespace, "base-role" := roleArn]);
    if assumeRoleArn != "" then
      input.(targetRoleArn := Some(assumeRoleArn), tags := input.tags["assume-role" := assumeRoleArn])
    else input
  }

  /** The request that re-points an existing association; it carries no tags. */
  function UpdateInputFor(clusterName: string, associationId: string, roleArn: string, assumeRoleArn: string): (input: UpdateInput)
    ensures input.clusterName == clusterName && input.associationId == associationId && input.roleArn == roleArn
    ensures input.targetRoleArn.Some? <==> assumeRoleArn != ""
    ensures input.targetRoleArn.Some? ==> input.targetRoleArn.value == assumeRoleArn
    ensures input.clientRequestToken.None?
  {
    var input := UpdateInput(clusterName, associationId, roleArn, None, None);
    if assumeRoleArn != "" then input.(targetRoleArn := Some(assumeRoleArn)) else input
  }

  /** The client's test for "the association does not exist". */
  predicate IsNotFoundError(err: Option<Error>): (b: bool)
    ensures b ==> err.Some?
    ensures err.Some? && err.value.kind == ResourceNotFoundException ==> b
    ensures err.Some? && Contains(err.value.message, "not found") ==> b
  {
    if err.None? then false
    else if err.value.kind == ResourceNotFoundException then true
    else
      var text := err.value.message;
      Contains(text, "ResourceNotFoundException") || Contains(text, "not found")
      || Contains(text, "NotFound") || Contains(ToLower(text), "notfound")
  }

  /**
   * Two of the four text tests are redundant: "ResourceNotFoundException"
   * contains "NotFound", and any text containing "NotFound" contains
   * "notfound" once lower-cased.
   */
  lemma IsNotFoundErrorSimplified(err: Option<Error>)
    ensures IsNotFoundError(err) <==>
              err.Some? && (err.value.kind == ResourceNotFoundException
                            || Contains(err.value.message, "not found")
                            || Contains(ToLower(err.value.message), "notfound"))
  {
    if err.Some? {
      var text := err.value.message;
      if Contains(text, "ResourceNotFoundException") {
        ExceptionNameSaysNotFound(text);
      }
      if Contains(text, "NotFound") {
        LowerCasedNotFound(text);
      }
    }
  }

  lemma ExceptionNameSaysNotFound(text: string)
    requires Contains(text, "ResourceNotFoundException")
    ensures Contains(text, "NotFound")
  {
    var name := "ResourceNotFoundException";
    assert name[8..][..8] == "NotFound";
    ContainsTransitive(text, name, "NotFound", 8);
  }

  lemma LowerCasedNotFound(text: string)
    requires Contains(text, "NotFound")
    ensures Contains(ToLower(text), "notfound")
  {
    ToLowerKeepsContains(text, "NotFound");
    var lowered := ToLower("NotFound");
    assert |lowered| == 8;
    assert lowered[0] == 'n' && lowered[1] == 'o' && lowered[2] == 't' && lowered[3] == 'f';
    assert lowered[4] == 'o' && lowered[5] == 'u' && lowered[6] == 'n' && lowered[7] == 'd';
    assert lowered == "notfound";
  }

  /** Every not-found text this client produces passes the "not found" test. */
  lemma NotFoundTextsSayNotFound(sa: ServiceAccount)
    ensures Contains(NotFoundText, "not found")
    ensures Contains(NotFoundForServiceAccount(sa).message, "not found")
    ensures IsNotFoundError(Some(NotFoundForServiceAccount(sa)))
  {
    assert StartsWith(NotFoundText[25..], "not found");
    ContainsAt(NotFoundText, 25, "not found");
    var text := NotFoundForServiceAccount(sa).message;
    assert text[25..][..9] == NotFoundText[25..][..9];
    ContainsAt(text, 25, "not found");
  }

  predicate Matches(a: PodIdentityAssociation, sa: ServiceAccount)
  {
    a.namespace == sa.namespace && a.serviceAccountName == sa.name
  }

  /** The position of the first association bound to the object, if any. */
  function FirstMatch(associations: seq<PodIdentityAssociation>, sa: ServiceAccount): (r: Option<nat>)
    ensures r.Some? ==> r.value < |associations| && Matches(associations[r.value], sa)
    ensures r.Some? ==> forall j :: 0 <= j < r.value ==> !Matches(associations[j], sa)
    ensures r.None? ==> forall j :: 0 <= j < |associations| ==> !Matches(associations[j], sa)
  {
    if |associations| == 0 then None
    else if Matches(associations[0], sa) then Some(0)
    else
      match FirstMatch(associations[1..], sa)
      case None => None
      case Some(i) => Some(i + 1)
  }

  /** What the scan over a listing answers. */
  function FindIn(associations: seq<PodIdentityAssociation>, sa: ServiceAccount): (r: Result<PodIdentityAssociation>)
    ensures r.Ok? ==> r.value in associations && Matches(r.value, sa)
    ensures r.Fail? ==> r.error == NotFoundForServiceAccount(sa) && forall a :: a in associations ==> !Matches(a, sa)
  {
    match FirstMatch(associations, sa)
    case Some(i) => Ok(associations[i])
    case None => Fail(NotFoundForServiceAccount(sa))
  }

  /** The scan of `findAssociationByServiceAccount`: the first association bound to the object. */
  method ScanForServiceAccount(associations: seq<PodIdentityAssociation>, sa: ServiceAccount) returns (r: Result<PodIdentityAssociation>)
    ensures r == FindIn(associations, sa)
  {
    var i := 0;
    while i < |associations|
      invariant 0 <= i <= |associations|
      invariant forall j :: 0 <= j < i ==> !Matches(associations[j], sa)
    {
      if Matches(associations[i], sa) {
        return Ok(associations[i]);
      }
      i := i + 1;
    }
    return Fail(NotFoundForServiceAccount(sa));
  }

  /** What a listing answers for the given page answers: every page in order, or the first failure. */
  function ListOutcome(pages: seq<Result<seq<AssociationSummary>>>): (r: Result<seq<PodIdentityAssociation>>)
    ensures r.Ok? ==> forall p :: 0 <= p < |pages| ==> pages[p].Ok?
  {
    if |pages| == 0 then Ok([])
    else if pages[0].Fail? then Fail(Wrap(ListFailure, pages[0].error))
    else
      var rest := ListOutcome(pages[1..]);
      assert forall p :: 0 < p < |pages| ==> pages[p] == pages[1..][p - 1];
      if rest.Fail? then rest else Ok(ConvertPage(pages[0].value) + rest.value)
  }

  /** A listing succeeds exactly when every page does; a failure is a failing page's error, wrapped. */
  lemma {:induction false} ListOutcomeFailsOnAFailingPage(pages: seq<Result<seq<AssociationSummary>>>)
    ensures ListOutcome(pages).Ok? <==> forall p :: 0 <= p < |pages| ==> pages[p].Ok?
    ensures ListOutcome(pages).Fail? ==> exists p :: 0 <= p < |pages| && pages[p].Fail? && ListOutcome(pages).error == Wrap(ListFailure, pages[p].error)
  {
    if |pages| > 0 && pages[0].Ok? {
      ListOutcomeFailsOnAFailingPage(pages[1..]);
      if ListOutcome(pages).Fail? {
        var p :| 0 <= p < |pages[1..]| && pages[1..][p].Fail? && ListOutcome(pages[1..]).error == Wrap(ListFailure, pages[1..][p].error);
        assert pages[p + 1].Fail?;
      } else {
        forall p | 0 <= p < |pages| ensures pages[p].Ok? {
          if p > 0 {
            assert pages[p] == pages[1..][p - 1];
          }
        }
      }
    }
  }

  /** `acc` placed in front of a listing outcome. */
  function Prefixed(acc: seq<PodIdentityAssociation>, r: Result<seq<PodIdentityAssociation>>): Result<seq<PodIdentityAssociation>>
  {
    if r.Fail? then r else Ok(acc + r.value)
  }

  lemma PrefixedAppend(a: seq<PodIdentityAssociation>, b: seq<PodIdentityAssociation>, r: Result<seq<PodIdentityAssociation>>)
    ensures Prefixed(a, Prefixed(b, r)) == Prefixed(a + b, r)
  {
    if r.Ok? {
      assert a + (b + r.value) == (a + b) + r.value;
    }
  }

  /** What a find answers: a failed listing unchanged, else the scan. */
  function FindOutcome(listed: Result<seq<PodIdentityAssociation>>, sa: ServiceAccount): (r: Result<PodIdentityAssociation>)
    ensures listed.Fail? ==> r == Fail(listed.error)
    ensures r.Ok? ==> listed.Ok? && r.value in listed.value && Matches(r.value, sa)
    ensures listed.Ok? && r.Fail? ==> IsNotFoundError(Some(r.error)) && forall a :: a in listed.value ==> !Matches(a, sa)
  {
    NotFoundTextsSayNotFound(sa);
    if listed.Fail? then Fail(listed.error) else FindIn(listed.value, sa)
  }

  /** What a lookup answers: by the cached id through a describe, else by a find. */
  function GetOutcome(cachedId: string, describeAnswer: Result<Association>,
                      pages: seq<Result<seq<AssociationSummary>>>, sa: ServiceAccount): (r: Result<PodIdentityAssociation>)
    ensures cachedId != "" ==> (r.Ok? <==> describeAnswer.Ok?)
    ensures cachedId != "" && describeAnswer.Ok? ==> r == Ok(ConvertToAssociation(describeAnswer.value))
    ensures cachedId != "" && describeAnswer.Fail? && IsNotFoundError(Some(describeAnswer.error)) ==>
              r == Fail(Error(Plain, NotFoundText))
    ensures cachedId != "" && describeAnswer.Fail? && !IsNotFoundError(Some(describeAnswer.error)) ==>
              r == Fail(Wrap(DescribeFailure, describeAnswer.error))
    ensures cachedId == "" && ListOutcome(pages).Fail? ==> r == Fail(ListOutcome(pages).error)
    ensures cachedId == "" && r.Ok? ==> Matches(r.value, sa)
  {
    if cachedId != "" then
      if describeAnswer.Ok? then Ok(ConvertToAssociation(describeAnswer.value))
      else if IsNotFoundError(Some(describeAnswer.error)) then Fail(Error(Plain, NotFoundText))
      else Fail(Wrap(DescribeFailure, describeAnswer.error))
    else FindOutcome(ListOutcome(pages), sa)
  }

  /** `AssociationExists` on a lookup's answer: any failure whose text says "not found" is absence. */
  function ExistsOutcome(got: Result<PodIdentityAssociation>): (r: (bool, Option<Error>))
    ensures r.0 <==> got.Ok?
    ensures r.0 ==> r.1.None?
    ensures got.Fail? ==> (r == (false, None) <==> Contains(got.error.message, "not found"))
    ensures r.1.Some? ==> r.1 == Some(got.error)
  {
    if got.Ok? then (true, None)
    else if Contains(got.error.message, "not found") then (false, None)
    else (false, Some(got.error))
  }

  /**
   * A cached id the service no longer knows reads as "no association", and
   * the listing is never consulted: the reconciler then creates a new one.
   */
  lemma StaleCachedIdReadsAsAbsent(cachedId: string, describeAnswer: Result<Association>,
                                   pages: seq<Result<seq<AssociationSummary>>>, sa: ServiceAccount)
    requires cachedId != "" && describeAnswer.Fail? && IsNotFoundError(Some(describeAnswer.error))
    ensures ExistsOutcome(GetOutcome(cachedId, describeAnswer, pages, sa)) == (false, None)
  {
    NotFoundTextsSayNotFound(sa);
  }

  /** Without a cached id, a listing with no entry for the object reads as "no association". */
  lemma UnmatchedListingReadsAsAbsent(describeAnswer: Result<Association>,
                                      pages: seq<Result<seq<AssociationSummary>>>, sa: ServiceAccount)
    requires ListOutcome(pages).Ok? && FirstMatch(ListOutcome(pages).value, sa).None?
    ensures ExistsOutcome(GetOutcome("", describeAnswer, pages, sa)) == (false, None)
  {
    NotFoundTextsSayNotFound(sa);
  }

  /**
   * A found association is reported present; a failing listing whose text
   * lacks "not found" is an error, returned wrapped as the listing wrapped it.
   */
  lemma ExistsOutcomeCases(cachedId: string, describeAnswer: Result<Association>,
                           pages: seq<Result<seq<AssociationSummary>>>, sa: ServiceAccount)
    ensures cachedId == "" && ListOutcome(pages).Ok? && FirstMatch(ListOutcome(pages).value, sa).Some? ==>
              ExistsOutcome(GetOutcome(cachedId, describeAnswer, pages, sa)) == (true, None)
    ensures cachedId != "" && describeAnswer.Ok? ==>
              ExistsOutcome(GetOutcome(cachedId, describeAnswer, pages, sa)) == (true, None)
    ensures cachedId == "" && ListOutcome(pages).Fail? && !Contains(ListOutcome(pages).error.message, "not found") ==>
              ExistsOutcome(GetOutcome(cachedId, describeAnswer, pages, sa)) == (false, Some(ListOutcome(pages).error))
    ensures cachedId != "" && describeAnswer.Fail? && !IsNotFoundError(Some(describeAnswer.error)) ==>
              ExistsOutcome(GetOutcome(cachedId, describeAnswer, pages, sa)) == (false, Some(Wrap(DescribeFailure, describeAnswer.error)))
  {
    if cachedId != "" && describeAnswer.Fail? && !IsNotFoundError(Some(describeAnswer.error)) {
      var message := describeAnswer.error.message;
      if Contains(DescribeFailure + message, "not found") {
        assert (DescribeFailure + message)[0..] == DescribeFailure + message;
        DescribeFailureAddsNoNotFound(message, 0);
      }
    }
  }

  /**
   * The describe-failure prefix contributes no "not found": a wrapped text
   * says "not found" only when the service's own text does.
   */
  lemma {:induction false} DescribeFailureAddsNoNotFound(message: string, k: nat)
    requires k <= |DescribeFailure|
    requires Contains((DescribeFailure + message)[k..], "not found")
    ensures Contains(message, "not found")
    decreases |DescribeFailure| - k
  {
    var s := DescribeFailure + message;
    if k == |DescribeFailure| {
      assert s[k..] == message;
    } else {
      assert !StartsWith(s[k..], "not found") by {
        assert "not found"[0] == 'n' && "not found"[1] == 'o';
        if k + 1 < |DescribeFailure| {
          assert s[k] == DescribeFailure[k] && s[k + 1] == DescribeFailure[k + 1];
          assert !(DescribeFailure[k] == 'n' && DescribeFailure[k + 1] == 'o');
        } else {
          assert s[k] == DescribeFailure[k] != 'n';
        }
      }
      assert s[k..][1..] == s[k + 1..];
      DescribeFailureAddsNoNotFound(message, k + 1);
    }
  }

  /** What the delete call's answer becomes: a not-found is success. */
  function DeleteAnswerOutcome(answer: Option<Error>): (r: Option<Error>)
    ensures r.Some? ==> answer.Some? && !IsNotFoundError(answer)
    ensures answer.Some? && !IsNotFoundError(answer) ==> r == Some(Wrap(DeleteFailure, answer.value))
  {
    if answer.None? || IsNotFoundError(answer) then None else Some(Wrap(DeleteFailure, answer.value))
  }

  /** What the update call's answer becomes, for the resolved id. */
  function UpdateAnswerOutcome(associationId: string, answer: Option<Error>): (r: (string, Option<Error>))
    ensures r.1.None? <==> answer.None?
    ensures r.1.None? ==> r.0 == associationId
    ensures r.1.Some? ==> r.0 == ""
    ensures answer.Some? ==> r.1 == Some(Wrap(UpdateFailure, answer.value))
  {
    if answer.None? then (associationId, None) else ("", Some(Wrap(UpdateFailure, answer.value)))
  }

  /**
   * Deleting is idempotent: with no cached id and a listing that has no
   * entry for the object, the delete answers success without asking the
   * service to delete anything.
   */
  lemma NothingToDeleteIsSuccess(pages: seq<Result<seq<AssociationSummary>>>, sa: ServiceAccount)
    requires ListOutcome(pages).Ok? && FirstMatch(ListOutcome(pages).value, sa).None?
    ensures FindOutcome(ListOutcome(pages), sa).Fail?
    ensures IsNotFoundError(Some(FindOutcome(ListOutcome(pages), sa).error))
  {
    NotFoundTextsSayNotFound(sa);
  }

  /** Every page of the cluster's listing, converted entry by entry, or the first page failure. */
  method ListAllPages(eks: EksApi, clusterName: string) returns (r: Result<seq<PodIdentityAssociation>>)
    modifies eks
    ensures eks.requests == old(eks.requests) + [ListRequest(clusterName)]
    ensures r == ListOutcome(eks.listPages)
  {
    eks.ListPodIdentityAssociations(clusterName);
    var associations: seq<PodIdentityAssociation> := [];
    var p := 0;
    assert eks.listPages[0..] == eks.listPages;
    assert Prefixed([], ListOutcome(eks.listPages)) == ListOutcome(eks.listPages) by {
      if ListOutcome(eks.listPages).Ok? {
        assert [] + ListOutcome(eks.listPages).value == ListOutcome(eks.listPages).value;
      }
    }
    while p < |eks.listPages|
      invariant 0 <= p <= |eks.listPages|
      invariant eks.requests == old(eks.requests) + [ListRequest(clusterName)]
      invariant ListOutcome(eks.listPages) == Prefixed(associations, ListOutcome(eks.listPages[p..]))
    {
      var page := eks.NextPage(p);
      assert eks.listPages[p..][0] == page && eks.listPages[p..][1..] == eks.listPages[p + 1..];
      if page.Fail? {
        return Fail(Wrap(ListFailure, page.error));
      }
      var before := associations;
      var j := 0;
      while j < |page.value|
        invariant 0 <= j <= |page.value|
        invariant associations == before + ConvertPage(page.value[..j])
      {
        associations := associations + [ConvertToAssociationSummary(page.value[j])];
        j := j + 1;
        assert ConvertPage(page.value[..j]) == ConvertPage(page.value[..j - 1]) + [ConvertToAssociationSummary(page.value[j - 1])];
      }
      assert page.value[..j] == page.value;
      PrefixedAppend(before, ConvertPage(page.value), ListOutcome(eks.listPages[p + 1..]));
      p := p + 1;
    }
    assert eks.listPages[p..] == [];
    assert associations + [] == associations;
    return Ok(associations);
  }

  class Client {
    const clusterName: string
    const eks: EksApi

    constructor(clusterName: string, eks: EksApi)
      ensures this.clusterName == clusterName && this.eks == eks
    {
      this.clusterName := clusterName;
      this.eks := eks;
    }

    /** Create the association and record its id on the object (allocating the annotation map if nil). */
    method CreatePodIdentityAssociation(sa: ServiceAccount, roleArn: string, assumeRoleArn: string)
      returns (associationId: string, err: Option<Error>, sa': ServiceAccount)
      modifies eks
      ensures eks.requests == old(eks.requests) + [CreateRequest(CreateInputFor(clusterName, sa, roleArn, assumeRoleArn))]
      ensures eks.createAnswer.Fail? ==>
                associationId == "" && err == Some(Wrap(CreateFailure, eks.createAnswer.error)) && sa' == sa
      ensures eks.createAnswer.Ok? ==>
                associationId == eks.createAnswer.value && err.None?
                && sa' == SetAnnotation(sa, AssociationIdAnnotation, associationId)
    {
      var input := CreateInputFor(clusterName, sa, roleArn, assumeRoleArn);
      var result := eks.CreatePodIdentityAssociation(input);
      if result.Fail? {
        return "", Some(Wrap(CreateFailure, result.error)), sa;
      }
      associationId := result.value;
      sa' := SetAnnotation(sa, AssociationIdAnnotation, associationId);
      err := None;
    }

    /** Re-point the object's association: by its cached id, else by the one the listing holds. */
    method UpdatePodIdentityAssociation(sa: ServiceAccount, roleArn: string, assumeRoleArn: string)
      returns (associationId: string, err: Option<Error>)
      modifies eks
      ensures var cached := AnnotationOrEmpty(sa, AssociationIdAnnotation);
              cached != "" ==>
                eks.requests == old(eks.requests) + [UpdateRequest(UpdateInputFor(clusterName, cached, roleArn, assumeRoleArn))]
                && (associationId, err) == UpdateAnswerOutcome(cached, eks.updateAnswer)
      ensures var found := FindOutcome(ListOutcome(eks.listPages), sa);
              AnnotationOrEmpty(sa, AssociationIdAnnotation) == "" && found.Fail? ==>
                eks.requests == old(eks.requests) + [ListRequest(clusterName)]
                && associationId == "" && err == Some(Wrap(FindFailure, found.error))
      ensures var found := FindOutcome(ListOutcome(eks.listPages), sa);
              AnnotationOrEmpty(sa, AssociationIdAnnotation) == "" && found.Ok? ==>
                eks.requests == old(eks.requests) + [ListRequest(clusterName), UpdateRequest(UpdateInputFor(clusterName, found.value.id, roleArn, assumeRoleArn))]
                && (associationId, err) == UpdateAnswerOutcome(found.value.id, eks.updateAnswer)
    {
      associationId := AnnotationOrEmpty(sa, AssociationIdAnnotation);
      if associationId == "" {
        var association := FindAssociationByServiceAccount(sa);
        if association.Fail? {
          return "", Some(Wrap(FindFailure, association.error));
        }
        associationId := association.value.id;
      }
      var input := UpdateInputFor(clusterName, associationId, roleArn, assumeRoleArn);
      var updateErr := eks.UpdatePodIdentityAssociation(input);
      if updateErr.Some? {
        return "", Some(Wrap(UpdateFailure, updateErr.value));
      }
      err := None;
    }

    /** Delete the object's association; an association that is not there counts as deleted. */
    method DeletePodIdentityAssociation(sa: ServiceAccount) returns (err: Option<Error>)
      modifies eks
      ensures var cached := AnnotationOrEmpty(sa, AssociationIdAnnotation);
              cached != "" ==>
                eks.requests == old(eks.requests) + [DeleteRequest(clusterName, cached)]
                && err == DeleteAnswerOutcome(eks.deleteAnswer)
      ensures var found := FindOutcome(ListOutcome(eks.listPages), sa);
              AnnotationOrEmpty(sa, AssociationIdAnnotation) == "" && found.Fail? ==>
                eks.requests == old(eks.requests) + [ListRequest(clusterName)]
                && err == (if IsNotFoundError(Some(found.error)) then None else Some(Wrap(FindFailure, found.error)))
      ensures var found := FindOutcome(ListOutcome(eks.listPages), sa);
              AnnotationOrEmpty(sa, AssociationIdAnnotation) == "" && found.Ok? ==>
                eks.requests == old(eks.requests) + [ListRequest(clusterName), DeleteRequest(clusterName, found.value.id)]
                && err == DeleteAnswerOutcome(eks.deleteAnswer)
    {
      var associationId := AnnotationOrEmpty(sa, AssociationIdAnnotation);
      if associationId == "" {
        var association := FindAssociationByServiceAccount(sa);
        if association.Fail? {
          if IsNotFoundError(Some(association.error)) {
            return None;
          }
          return Some(Wrap(FindFailure, association.error));
        }
        associationId := association.value.id;
      }
      var deleteErr := eks.DeletePodIdentityAssociation(clusterName, associationId);
      if deleteErr.Some? {
        if IsNotFoundError(deleteErr) {
          return None;
        }
        return Some(Wrap(DeleteFailure, deleteErr.value));
      }
      return None;
    }

    /** Look the object's association up: describe by cached id, else find it in the listing. */
    method GetPodIdentityAssociation(sa: ServiceAccount) returns (r: Result<PodIdentityAssociation>)
      modifies eks
      ensures var cached := AnnotationOrEmpty(sa, AssociationIdAnnotation);
              eks.requests == old(eks.requests) + [if cached != "" then DescribeRequest(clusterName, cached) else ListRequest(clusterName)]
      ensures r == GetOutcome(AnnotationOrEmpty(sa, AssociationIdAnnotation), eks.describeAnswer, eks.listPages, sa)
    {
      var associationId := AnnotationOrEmpty(sa, AssociationIdAnnotation);
      if associationId != "" {
        var result := eks.DescribePodIdentityAssociation(clusterName, associationId);
        if result.Fail? {
          if IsNotFoundError(Some(result.error)) {
            return Fail(Error(Plain, NotFoundText));
          }
          return Fail(Wrap(DescribeFailure, result.error));
        }
        return Ok(ConvertToAssociation(result.value));
      }
      r := FindAssociationByServiceAccount(sa);
    }

    method AssociationExists(sa: ServiceAccount) returns (found: bool, err: Option<Error>)
      modifies eks
      ensures var cached := AnnotationOrEmpty(sa, AssociationIdAnnotation);
              eks.requests == old(eks.requests) + [if cached != "" then DescribeRequest(clusterName, cached) else ListRequest(clusterName)]
      ensures (found, err) == ExistsOutcome(GetOutcome(AnnotationOrEmpty(sa, AssociationIdAnnotation), eks.describeAnswer, eks.listPages, sa))
    {
      var got := GetPodIdentityAssociation(sa);
      if got.Fail? {
        if Contains(got.error.message, "not found") {
          return false, None;
        }
        return false, Some(got.error);
      }
      return true, None;
    }

    method ListPodIdentityAssociations() returns (r: Result<seq<PodIdentityAssociation>>)
      modifies eks
      ensures eks.requests == old(eks.requests) + [ListRequest(clusterName)]
      ensures r == ListOutcome(eks.listPages)
    {
      r := ListAllPages(eks, clusterName);
    }

    method FindAssociationByServiceAccount(sa: ServiceAccount) returns (r: Result<PodIdentityAssociation>)
      modifies eks
      ensures eks.requests == old(eks.requests) + [ListRequest(clusterName)]
      ensures r == FindOutcome(ListOutcome(eks.listPages), sa)
    {
      var associations := ListPodIdentityAssociations();
      if associations.Fail? {
        return Fail(associations.error);
      }
      r := ScanForServiceAccount(associations.value, sa);
    }
  }
}
