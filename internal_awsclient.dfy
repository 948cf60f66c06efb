/**
 * The second copy of the EKS client, kept beside the controller. It makes the
 * same requests as the client the operator runs with, plus an idempotency
 * token on create and update, and its "not found" test reads only the error
 * text. Where the two copies agree, that is proved; where they differ, the
 * difference is pinned down.
 */
module InternalAwsClient {
  import opened Common
  import opened Kube
  import opened Eks
  import AwsClient

  /**
   * The idempotency token: `pia-operator-<cluster>-<namespace>-<name>`. It
   * ends with the name, and a namespace without '-' is read back as the text
   * up to the next '-' after the cluster.
   */
  function GenerateClientToken(clusterName: string, sa: ServiceAccount): (t: string)
    ensures |clusterName| + 14 <= |t| && t[..|clusterName| + 14] == "pia-operator-" + clusterName + "-"
    ensures |sa.name| <= |t| && t[|t| - |sa.name|..] == sa.name
    ensures '-' !in sa.namespace ==> Before(t[|clusterName| + 14..], '-') == sa.namespace
  {
    var t := "pia-operator-" + clusterName + "-" + sa.namespace + "-" + sa.name;
    assert t[|clusterName| + 14..] == sa.namespace + "-" + sa.name;
    if '-' in sa.namespace then t
    else
      BeforeJoin(sa.namespace, '-', sa.name);
      t
  }

  /**
   * Within one cluster, objects whose namespaces hold no '-' get distinct
   * tokens.
   */
  lemma TokenTellsObjectsApart(clusterName: string, a: ServiceAccount, b: ServiceAccount)
    requires '-' !in a.namespace && '-' !in b.namespace
    requires GenerateClientToken(clusterName, a) == GenerateClientToken(clusterName, b)
    ensures a.namespace == b.namespace && a.name == b.name
  {
    var n := |clusterName| + 14 + |a.namespace| + 1;
    assert GenerateClientToken(clusterName, a)[n..] == a.name;
    assert GenerateClientToken(clusterName, b)[n..] == b.name;
  }

  /**
   * Without that condition the token does not tell objects apart: "-" is
   * allowed inside both a namespace and a name, so team-a/app and team/a-app
   * get one token.
   */
  lemma DistinctObjectsCanShareAToken(clusterName: string)
    ensures var a := ServiceAccount("team-a", "app", None, [], false);
            var b := ServiceAccount("team", "a-app", None, [], false);
            (a.namespace, a.name) != (b.namespace, b.name)
            && GenerateClientToken(clusterName, a) == GenerateClientToken(clusterName, b)
  {
    var prefix := "pia-operator-" + clusterName + "-";
    assert GenerateClientToken(clusterName, ServiceAccount("team-a", "app", None, [], false)) == prefix + "team-a-app";
    assert GenerateClientToken(clusterName, ServiceAccount("team", "a-app", None, [], false)) == prefix + "team-a-app";
  }

  /** The create request: the other client's request, with this object's token. */
  function CreateInputFor(clusterName: string, sa: ServiceAccount, roleArn: string, assumeRoleArn: string): (input: CreateInput)
    ensures input == AwsClient.CreateInputFor(clusterName, sa, roleArn, assumeRoleArn).(clientRequestToken := Some(GenerateClientToken(clusterName, sa)))
  {
    var input := CreateInput(clusterName, sa.namespace, sa.name, roleArn, None, Some(GenerateClientToken(clusterName, sa)),
                             map["managed-by" := "pia-operator", "serviceaccount" := sa.name,
                                 "namespace" := sa.namespace, "base-role" := roleArn]);
    if assumeRoleArn != "" then
      input.(targetRoleArn := Some(assumeRoleArn), tags := input.tags["assume-role" := assumeRoleArn])
    else input
  }

  /** The update request: the other client's request, with this object's token. */
  function UpdateInputFor(clusterName: string, sa: ServiceAccount, associationId: string, roleArn: string, assumeRoleArn: string): (input: UpdateInput)
    ensures input == AwsClient.UpdateInputFor(clusterName, associationId, roleArn, assumeRoleArn).(clientRequestToken := Some(GenerateClientToken(clusterName, sa)))
  {
    var input := UpdateInput(clusterName, associationId, roleArn, None, Some(GenerateClientToken(clusterName, sa)));
    if assumeRoleArn != "" then input.(targetRoleArn := Some(assumeRoleArn)) else input
  }

  /**
   * The typed-exception pointer this copy consults is declared and never
   * assigned, so it is always nil.
   */
  const TypedNotFound: Option<Error> := None

  /** This copy's "not found" test: the text checks, and a typed check that never fires. */
  predicate IsNotFoundError(err: Option<Error>): (b: bool)
    ensures b ==> err.Some?
    ensures err.Some? && Contains(err.value.message, "not found") ==> b
  {
    if err.None? then false
    else
      var text := err.value.message;
      Contains(text, "ResourceNotFoundException") || Contains(text, "not found")
      || Contains(text, "NotFound") || Contains(ToLower(text), "notfound")
      || (TypedNotFound.Some? && Contains(text, "ResourceNotFoundException"))
  }

  /** The test depends on the text alone, and two text checks suffice. */
  lemma IsNotFoundErrorReadsTextOnly(err: Option<Error>)
    ensures IsNotFoundError(err) <==>
              err.Some? && (Contains(err.value.message, "not found") || Contains(ToLower(err.value.message), "notfound"))
  {
    if err.Some? {
      var text := err.value.message;
      if Contains(text, "ResourceNotFoundException") {
        AwsClient.ExceptionNameSaysNotFound(text);
      }
      if Contains(text, "NotFound") {
        AwsClient.LowerCasedNotFound(text);
      }
    }
  }

  /**
   * The two copies' tests: this one never says "not found" where the other
   * does not, and they agree on every error that is not the typed exception
   * and on every typed exception whose text names it.
   */
  lemma NotFoundTestsAgree(err: Option<Error>)
    ensures IsNotFoundError(err) ==> AwsClient.IsNotFoundError(err)
    ensures err.Some? && (err.value.kind != ResourceNotFoundException || Contains(err.value.message, "ResourceNotFoundException")) ==>
              (IsNotFoundError(err) <==> AwsClient.IsNotFoundError(err))
  {
    IsNotFoundErrorReadsTextOnly(err);
    AwsClient.IsNotFoundErrorSimplified(err);
    if err.Some? && Contains(err.value.message, "ResourceNotFoundException") {
      AwsClient.ExceptionNameSaysNotFound(err.value.message);
      AwsClient.LowerCasedNotFound(err.value.message);
    }
  }

  /** A typed exception with a text that says nothing is found by the other copy and missed by this one. */
  lemma TypedExceptionWithBareTextIsMissed()
    ensures var err := Some(Error(ResourceNotFoundException, ""));
            AwsClient.IsNotFoundError(err) && !IsNotFoundError(err)
  {
    IsNotFoundErrorReadsTextOnly(Some(Error(ResourceNotFoundException, "")));
  }

  /** What a lookup answers, with this copy's "not found" test. */
  function GetOutcome(cachedId: string, describeAnswer: Result<Association>,
                      pages: seq<Result<seq<AssociationSummary>>>, sa: ServiceAccount): Result<AwsClient.PodIdentityAssociation>
  {
    if cachedId != "" then
      if describeAnswer.Ok? then Ok(AwsClient.ConvertToAssociation(describeAnswer.value))
      else if IsNotFoundError(Some(describeAnswer.error)) then Fail(Error(Plain, AwsClient.NotFoundText))
      else Fail(Wrap(AwsClient.DescribeFailure, describeAnswer.error))
    else AwsClient.FindOutcome(AwsClient.ListOutcome(pages), sa)
  }

  /** Whether a service error is one on which the two "not found" tests agree. */
  predicate TextNamesTypedException(e: Error)
  {
    e.kind != ResourceNotFoundException || Contains(e.message, "ResourceNotFoundException")
  }

  /** Lookups answer alike in both copies unless the describe fails with a typed exception whose text does not name it. */
  lemma GetOutcomesAgree(cachedId: string, describeAnswer: Result<Association>,
                         pages: seq<Result<seq<AssociationSummary>>>, sa: ServiceAccount)
    requires describeAnswer.Fail? ==> TextNamesTypedException(describeAnswer.error)
    ensures GetOutcome(cachedId, describeAnswer, pages, sa) == AwsClient.GetOutcome(cachedId, describeAnswer, pages, sa)
  {
    if describeAnswer.Fail? {
      NotFoundTestsAgree(Some(describeAnswer.error));
    }
  }

  /** What the delete call's answer becomes: a not-found is success. */
  function DeleteAnswerOutcome(answer: Option<Error>): (r: Option<Error>)
    ensures r.Some? ==> answer.Some? && !IsNotFoundError(answer)
    ensures answer.Some? && !IsNotFoundError(answer) ==> r == Some(Wrap(AwsClient.DeleteFailure, answer.value))
  {
    if answer.None? || IsNotFoundError(answer) then None else Some(Wrap(AwsClient.DeleteFailure, answer.value))
  }

  /** Delete answers alike in both copies under the same condition on the service's error. */
  lemma DeleteOutcomesAgree(answer: Option<Error>)
    requires answer.Some? ==> TextNamesTypedException(answer.value)
    ensures DeleteAnswerOutcome(answer) == AwsClient.DeleteAnswerOutcome(answer)
  {
    NotFoundTestsAgree(answer);
  }

  class Client {
    const clusterName: string
    const eks: EksApi

    constructor(clusterName: string, eks: EksApi)
      ensures this.clusterName == clusterName && this.eks == eks
    {
      this.clusterName := clusterName;
      this.eks := eks;
    }

    /** Create the association with the object's token and record its id on the object. */
    method CreatePodIdentityAssociation(sa: ServiceAccount, roleArn: string, assumeRoleArn: string)
      returns (associationId: string, err: Option<Error>, sa': ServiceAccount)
      modifies eks
      ensures eks.requests == old(eks.requests) + [CreateRequest(CreateInputFor(clusterName, sa, roleArn, assumeRoleArn))]
      ensures eks.createAnswer.Fail? ==>
                associationId == "" && err == Some(Wrap(AwsClient.CreateFailure, eks.createAnswer.error)) && sa' == sa
      ensures eks.createAnswer.Ok? ==>
                associationId == eks.createAnswer.value && err.None?
                && sa' == SetAnnotation(sa, AssociationIdAnnotation, associationId)
    {
      var input := CreateInputFor(clusterName, sa, roleArn, assumeRoleArn);
      var result := eks.CreatePodIdentityAssociation(input);
      if result.Fail? {
        return "", Some(Wrap(AwsClient.CreateFailure, result.error)), sa;
      }
      associationId := result.value;
      sa' := SetAnnotation(sa, AssociationIdAnnotation, associationId);
      err := None;
    }

    /** Re-point the object's association (cached id, else the listing's), with the object's token. */
    method UpdatePodIdentityAssociation(sa: ServiceAccount, roleArn: string, assumeRoleArn: string)
      returns (associationId: string, err: Option<Error>)
      modifies eks
      ensures var cached := AnnotationOrEmpty(sa, AssociationIdAnnotation);
              cached != "" ==>
                eks.requests == old(eks.requests) + [UpdateRequest(UpdateInputFor(clusterName, sa, cached, roleArn, assumeRoleArn))]
                && (associationId, err) == AwsClient.UpdateAnswerOutcome(cached, eks.updateAnswer)
      ensures var found := AwsClient.FindOutcome(AwsClient.ListOutcome(eks.listPages), sa);
              AnnotationOrEmpty(sa, AssociationIdAnnotation) == "" && found.Fail? ==>
                eks.requests == old(eks.requests) + [ListRequest(clusterName)]
                && associationId == "" && err == Some(Wrap(AwsClient.FindFailure, found.error))
      ensures var found := AwsClient.FindOutcome(AwsClient.ListOutcome(eks.listPages), sa);
              AnnotationOrEmpty(sa, AssociationIdAnnotation) == "" && found.Ok? ==>
                eks.requests == old(eks.requests) + [ListRequest(clusterName), UpdateRequest(UpdateInputFor(clusterName, sa, found.value.id, roleArn, assumeRoleArn))]
                && (associationId, err) == AwsClient.UpdateAnswerOutcome(found.value.id, eks.updateAnswer)
    {
      associationId := AnnotationOrEmpty(sa, AssociationIdAnnotation);
      if associationId == "" {
        var association := FindAssociationByServiceAccount(sa);
        if association.Fail? {
          return "", Some(Wrap(AwsClient.FindFailure, association.error));
        }
        associationId := association.value.id;
      }
      var input := UpdateInputFor(clusterName, sa, associationId, roleArn, assumeRoleArn);
      var updateErr := eks.UpdatePodIdentityAssociation(input);
      if updateErr.Some? {
        return "", Some(Wrap(AwsClient.UpdateFailure, updateErr.value));
      }
      err := None;
    }

    /** Delete the object's association; a not-found, by this copy's test, counts as deleted. */
    method DeletePodIdentityAssociation(sa: ServiceAccount) returns (err: Option<Error>)
      modifies eks
      ensures var cached := AnnotationOrEmpty(sa, AssociationIdAnnotation);
              cached != "" ==>
                eks.requests == old(eks.requests) + [DeleteRequest(clusterName, cached)]
                && err == DeleteAnswerOutcome(eks.deleteAnswer)
      ensures var found := AwsClient.FindOutcome(AwsClient.ListOutcome(eks.listPages), sa);
              AnnotationOrEmpty(sa, AssociationIdAnnotation) == "" && found.Fail? ==>
                eks.requests == old(eks.requests) + [ListRequest(clusterName)]
                && err == (if IsNotFoundError(Some(found.error)) then None else Some(Wrap(AwsClient.FindFailure, found.error)))
      ensures var found := AwsClient.FindOutcome(AwsClient.ListOutcome(eks.listPages), sa);
              AnnotationOrEmpty(sa, AssociationIdAnnotation) == "" && found.Ok? ==>
                eks.requests == old(eks.requests) + [ListRequest(clusterName), DeleteRequest(clusterName, found.value.id)]
                && err == DeleteAnswerOutcome(eks.deleteAnswer)
    {
      var associationId := AnnotationOrEmpty(sa, AssociationIdAnnotation);
      if associationId == "" {
        var association := FindAssociationByServiceAccount(sa);
        if association.Fail? {
          if IsNotFoundError(Some(association.error)) {
            return None;
          }
          return Some(Wrap(AwsClient.FindFailure, association.error));
        }
        associationId := association.value.id;
      }
      var deleteErr := eks.DeletePodIdentityAssociation(clusterName, associationId);
      if deleteErr.Some? {
        if IsNotFoundError(deleteErr) {
          return None;
        }
        return Some(Wrap(AwsClient.DeleteFailure, deleteErr.value));
      }
      return None;
    }

    method GetPodIdentityAssociation(sa: ServiceAccount) returns (r: Result<AwsClient.PodIdentityAssociation>)
      modifies eks
      ensures var cached := AnnotationOrEmpty(sa, AssociationIdAnnotation);
              eks.requests == old(eks.requests) + [if cached != "" then DescribeRequest(clusterName, cached) else ListRequest(clusterName)]
      ensures r == GetOutcome(AnnotationOrEmpty(sa, AssociationIdAnnotation), eks.describeAnswer, eks.listPages, sa)
    {
      var associationId := AnnotationOrEmpty(sa, AssociationIdAnnotation);
      if associationId != "" {
        var result := eks.DescribePodIdentityAssociation(clusterName, associationId);
        if result.Fail? {
          if IsNotFoundError(Some(result.error)) {
            return Fail(Error(Plain, AwsClient.NotFoundText));
          }
          return Fail(Wrap(AwsClient.DescribeFailure, result.error));
        }
        return Ok(AwsClient.ConvertToAssociation(result.value));
      }
      r := FindAssociationByServiceAccount(sa);
    }

    method AssociationExists(sa: ServiceAccount) returns (found: bool, err: Option<Error>)
      modifies eks
      ensures var cached := AnnotationOrEmpty(sa, AssociationIdAnnotation);
              eks.requests == old(eks.requests) + [if cached != "" then DescribeRequest(clusterName, cached) else ListRequest(clusterName)]
      ensures (found, err) == AwsClient.ExistsOutcome(GetOutcome(AnnotationOrEmpty(sa, AssociationIdAnnotation), eks.describeAnswer, eks.listPages, sa))
    {
      var got := GetPodIdentityAssociation(sa);
      if got.Fail? {
        if Contains(got.error.message, "not found") {
          return false, None;
        }
        return false, Some(got.error);
      }
      return true, None;
    }

    method ListPodIdentityAssociations() returns (r: Result<seq<AwsClient.PodIdentityAssociation>>)
      modifies eks
      ensures eks.requests == old(eks.requests) + [ListRequest(clusterName)]
      ensures r == AwsClient.ListOutcome(eks.listPages)
    {
      r := AwsClient.ListAllPages(eks, clusterName);
    }

    method FindAssociationByServiceAccount(sa: ServiceAccount) returns (r: Result<AwsClient.PodIdentityAssociation>)
      modifies eks
      ensures eks.requests == old(eks.requests) + [ListRequest(clusterName)]
      ensures r == AwsClient.FindOutcome(AwsClient.ListOutcome(eks.listPages), sa)
    {
      var associations := ListPodIdentityAssociations();
      if associations.Fail? {
        return Fail(associations.error);
      }
      r := AwsClient.ScanForServiceAccount(associations.value, sa);
    }
  }
}
