/**
 * The EKS service as the AWS clients see it: the request shapes they build,
 * the association records it answers with, and an oracle standing for the
 * SDK. The oracle's answers are fixed when it is built (each client
 * operation asks each kind of question at most once) and it logs every
 * request it receives, in order.
 */
module Eks {
  import opened Common

  /** The service's full association record (timestamps left out); absent fields read as "". */
  datatype Association = Association(
    associationId: string,
    clusterName: string,
    namespace: string,
    serviceAccount: string,
    roleArn: string,
    tags: map<string, string>)

  /** One entry of a listing page. */
  datatype AssociationSummary = AssociationSummary(
    associationId: string,
    clusterName: string,
    namespace: string,
    serviceAccount: string)

  datatype CreateInput = CreateInput(
    clusterName: string,
    namespace: string,
    serviceAccount: string,
    roleArn: string,
    targetRoleArn: Option<string>,
    clientRequestToken: Option<string>,
    tags: map<string, string>)

  datatype UpdateInput = UpdateInput(
    clusterName: string,
    associationId: string,
    roleArn: string,
    targetRoleArn: Option<string>,
    clientRequestToken: Option<string>)

  datatype Request =
    | CreateRequest(create: CreateInput)
    | UpdateRequest(update: UpdateInput)
    | DeleteRequest(deleteCluster: string, deleteId: string)
    | DescribeRequest(describeCluster: string, describeId: string)
    | ListRequest(listCluster: string)

  class EksApi {
    /** The id the service gives a created association, or the failure. */
    const createAnswer: Result<string>
    const updateAnswer: Option<Error>
    const deleteAnswer: Option<Error>
    const describeAnswer: Result<Association>
    /** The answers to successive page fetches of a listing. */
    const listPages: seq<Result<seq<AssociationSummary>>>
    var requests: seq<Request>

    constructor(createAnswer: Result<string>, updateAnswer: Option<Error>, deleteAnswer: Option<Error>,
                describeAnswer: Result<Association>, listPages: seq<Result<seq<AssociationSummary>>>)
      ensures this.createAnswer == createAnswer && this.updateAnswer == updateAnswer
      ensures this.deleteAnswer == deleteAnswer && this.describeAnswer == describeAnswer
      ensures this.listPages == listPages
      ensures requests == []
    {
      this.createAnswer := createAnswer;
      this.updateAnswer := updateAnswer;
      this.deleteAnswer := deleteAnswer;
      this.describeAnswer := describeAnswer;
      this.listPages := listPages;
      requests := [];
    }

    method CreatePodIdentityAssociation(input: CreateInput) returns (r: Result<string>)
      modifies this
      ensures requests == old(requests) + [CreateRequest(input)]
      ensures r == createAnswer
    {
      requests := requests + [CreateRequest(input)];
      r := createAnswer;
    }

    method UpdatePodIdentityAssociation(input: UpdateInput) returns (err: Option<Error>)
      modifies this
      ensures requests == old(requests) + [UpdateRequest(input)]
      ensures err == updateAnswer
    {
      requests := requests + [UpdateRequest(input)];
      err := updateAnswer;
    }

    method DeletePodIdentityAssociation(clusterName: string, associationId: string) returns (err: Option<Error>)
      modifies this
      ensures requests == old(requests) + [DeleteRequest(clusterName, associationId)]
      ensures err == deleteAnswer
    {
      requests := requests + [DeleteRequest(clusterName, associationId)];
      err := deleteAnswer;
    }

    method DescribePodIdentityAssociation(clusterName: string, associationId: string) returns (r: Result<Association>)
      modifies this
      ensures requests == old(requests) + [DescribeRequest(clusterName, associationId)]
      ensures r == describeAnswer
    {
      requests := requests + [DescribeRequest(clusterName, associationId)];
      r := describeAnswer;
    }

    /** Start a listing: the paginator is built once from the cluster name. */
    method ListPodIdentityAssociations(clusterName: string)
      modifies this
      ensures requests == old(requests) + [ListRequest(clusterName)]
    {
      requests := requests + [ListRequest(clusterName)];
    }

    /** The paginator's `NextPage` for page number `page`. */
    method NextPage(page: nat) returns (r: Result<seq<AssociationSummary>>)
      requires page < |listPages|
      ensures r == listPages[page]
    {
      r := listPages[page];
    }
  }
}
