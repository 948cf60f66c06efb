/**
 * The two services the reconciler talks to, seen through the interfaces it
 * holds: the AWS client's four operations and the Kubernetes client's read
 * and write of a ServiceAccount. Each is an oracle whose answers are fixed
 * when it is built and which logs what it is asked, in order.
 */
module Clients {
  import opened Common
  import opened Kube

  /** A call the reconciler makes on the AWS client, with the object it passes. */
  datatype AwsCall =
    | ExistsCall(sa: ServiceAccount)
    | CreateCall(sa: ServiceAccount, roleArn: string, assumeRoleArn: string)
    | UpdateCall(sa: ServiceAccount, roleArn: string, assumeRoleArn: string)
    | DeleteCall(sa: ServiceAccount)

  /** What the AWS client answers to each of its operations. */
  datatype AwsAnswers = AwsAnswers(
    existsAnswer: Result<bool>,
    createAnswer: Result<string>,
    updateAnswer: Result<string>,
    deleteAnswer: Option<Error>)

  /** The association id an operation answers: "" when it fails. */
  function IdOf(r: Result<string>): string
  {
    if r.Ok? then r.value else ""
  }

  /** The `AWSClient` interface. */
  class AwsApi {
    const answers: AwsAnswers
    var calls: seq<AwsCall>

    constructor(answers: AwsAnswers)
      ensures this.answers == answers && calls == []
    {
      this.answers := answers;
      calls := [];
    }

    method AssociationExists(sa: ServiceAccount) returns (found: bool, err: Option<Error>)
      modifies this
      ensures calls == old(calls) + [ExistsCall(sa)]
      ensures answers.existsAnswer.Ok? ==> found == answers.existsAnswer.value && err.None?
      ensures answers.existsAnswer.Fail? ==> !found && err == Some(answers.existsAnswer.error)
    {
      calls := calls + [ExistsCall(sa)];
      if answers.existsAnswer.Fail? {
        return false, Some(answers.existsAnswer.error);
      }
      return answers.existsAnswer.value, None;
    }

    method CreatePodIdentityAssociation(sa: ServiceAccount, roleArn: string, assumeRoleArn: string)
      returns (associationId: string, err: Option<Error>)
      modifies this
      ensures calls == old(calls) + [CreateCall(sa, roleArn, assumeRoleArn)]
      ensures associationId == IdOf(answers.createAnswer)
      ensures err == (if answers.createAnswer.Fail? then Some(answers.createAnswer.error) else None)
    {
      calls := calls + [CreateCall(sa, roleArn, assumeRoleArn)];
      if answers.createAnswer.Fail? {
        return "", Some(answers.createAnswer.error);
      }
      return answers.createAnswer.value, None;
    }

    method UpdatePodIdentityAssociation(sa: ServiceAccount, roleArn: string, assumeRoleArn: string)
      returns (associationId: string, err: Option<Error>)
      modifies this
      ensures calls == old(calls) + [UpdateCall(sa, roleArn, assumeRoleArn)]
      ensures associationId == IdOf(answers.updateAnswer)
      ensures err == (if answers.updateAnswer.Fail? then Some(answers.updateAnswer.error) else None)
    {
      calls := calls + [UpdateCall(sa, roleArn, assumeRoleArn)];
      if answers.updateAnswer.Fail? {
        return "", Some(answers.updateAnswer.error);
      }
      return answers.updateAnswer.value, None;
    }

    method DeletePodIdentityAssociation(sa: ServiceAccount) returns (err: Option<Error>)
      modifies this
      ensures calls == old(calls) + [DeleteCall(sa)]
      ensures err == answers.deleteAnswer
    {
      calls := calls + [DeleteCall(sa)];
      err := answers.deleteAnswer;
    }
  }

  /** The answer to the `i`-th write; writes past the given answers succeed. */
  function AnswerAt(answers: seq<Option<Error>>, i: nat): Option<Error>
  {
    if i < |answers| then answers[i] else None
  }

  /**
   * The Kubernetes client: one stored object (or the failure of reading it),
   * and the answers to successive writes. Every written object is logged.
   */
  class KubeApi {
    const fetched: Result<ServiceAccount>
    const updateAnswers: seq<Option<Error>>
    var gets: seq<(string, string)>
    var written: seq<ServiceAccount>

    constructor(fetched: Result<ServiceAccount>, updateAnswers: seq<Option<Error>>)
      ensures this.fetched == fetched && this.updateAnswers == updateAnswers
      ensures gets == [] && written == []
    {
      this.fetched := fetched;
      this.updateAnswers := updateAnswers;
      gets := [];
      written := [];
    }

    method GetServiceAccount(namespace: string, name: string) returns (r: Result<ServiceAccount>)
      modifies this
      ensures gets == old(gets) + [(namespace, name)] && written == old(written)
      ensures r == fetched
    {
      gets := gets + [(namespace, name)];
      r := fetched;
    }

    /** A write of the whole object; it answers the next of the given answers. */
    method UpdateServiceAccount(sa: ServiceAccount) returns (err: Option<Error>)
      modifies this
      ensures written == old(written) + [sa] && gets == old(gets)
      ensures err == AnswerAt(updateAnswers, |old(written)|)
    {
      err := AnswerAt(updateAnswers, |written|);
      written := written + [sa];
    }
  }
}
