/**
 * Values shared by every part of the model: optional values, results,
 * Go error values and the string helpers the operator applies to error text.
 */
module Common {

  datatype Option<+T> = None | Some(value: T)

  /** A Go `(T, error)` pair where exactly one side is meaningful. */
  datatype Result<+T> = Ok(value: T) | Fail(error: Error)

  /** The reason carried by a Kubernetes API status error. */
  datatype StatusReason =
    | NotFound
    | Invalid
    | BadRequest
    | TooManyRequests
    | ServiceUnavailable
    | Timeout
    | Conflict
    | AlreadyExists
    | Forbidden
    | InternalError
    | Unknown

  /** What `errors.As` can find along an error's wrap chain. */
  datatype ErrorKind =
    | StatusError(reason: StatusReason)   // a Kubernetes API status error
    | ResourceNotFoundException           // the EKS SDK's typed not-found exception
    | Plain                               // any other error, e.g. from errors.New

  /** A Go error value: what it wraps, and the text `Error()` returns. */
  datatype Error = Error(kind: ErrorKind, message: string)

  /** `fmt.Errorf(prefix + "%w", e)`: the text grows, the wrap chain is kept. */
  function Wrap(prefix: string, e: Error): Error
  {
    Error(e.kind, prefix + e.message)
  }

  predicate StartsWith(s: string, prefix: string)
  {
    |prefix| <= |s| && s[..|prefix|] == prefix
  }

  /** `strings.Contains(s, sub)`. */
  predicate Contains(s: string, sub: string)
    decreases |s|
  {
    StartsWith(s, sub) || (|s| > 0 && Contains(s[1..], sub))
  }

  /** A substring of a suffix is a substring of the whole string. */
  lemma {:induction false} ContainsInSuffix(s: string, k: nat, sub: string)
    requires k <= |s|
    requires Contains(s[k..], sub)
    ensures Contains(s, sub)
    decreases k
  {
    if k > 0 {
      assert s[1..][k - 1..] == s[k..];
      ContainsInSuffix(s[1..], k - 1, sub);
    }
  }

  /** `Contains` holds exactly when `sub` occurs at some offset of `s`. */
  lemma {:induction false} ContainsAt(s: string, k: nat, sub: string)
    requires k <= |s| && StartsWith(s[k..], sub)
    ensures Contains(s, sub)
  {
    ContainsInSuffix(s, k, sub);
  }

  /** If `big` occurs in `s` and `small` occurs in `big` at offset `off`, then `small` occurs in `s`. */
  lemma {:induction false} ContainsTransitive(s: string, big: string, small: string, off: nat)
    requires off <= |big| && StartsWith(big[off..], small)
    requires Contains(s, big)
    ensures Contains(s, small)
    decreases |s|
  {
    if StartsWith(s, big) {
      assert s[..|big|] == big;
      assert forall i :: 0 <= i < |small| ==> s[off..][i] == big[off..][i];
      assert s[off..][..|small|] == big[off..][..|small|];
      ContainsAt(s, off, small);
    } else {
      ContainsTransitive(s[1..], big, small, off);
      ContainsInSuffix(s, 1, small);
    }
  }

  /** The text before the first `sep`, or all of it when there is none. */
  function Before(s: string, sep: char): (r: string)
    ensures |r| <= |s| && r == s[..|r|]
    ensures sep !in r
    decreases |s|
  {
    if |s| == 0 || s[0] == sep then "" else [s[0]] + Before(s[1..], sep)
  }

  /** Joining a field free of `sep` to any rest with `sep` keeps the field recoverable. */
  lemma {:induction false} BeforeJoin(field: string, sep: char, rest: string)
    requires sep !in field
    ensures Before(field + [sep] + rest, sep) == field
    decreases |field|
  {
    if |field| > 0 {
      assert (field + [sep] + rest)[1..] == field[1..] + [sep] + rest;
      BeforeJoin(field[1..], sep, rest);
    }
  }

  /** Lower-casing of one character (ASCII letters only). */
  function LowerChar(c: char): char
  {
    if 'A' <= c <= 'Z' then (c as int + 32) as char else c
  }

  /** `strings.ToLower`, restricted to ASCII letters. */
  function ToLower(s: string): (r: string)
    ensures |r| == |s|
    ensures forall i :: 0 <= i < |s| ==> r[i] == LowerChar(s[i])
    decreases |s|
  {
    if |s| == 0 then "" else [LowerChar(s[0])] + ToLower(s[1..])
  }

  /** Lower-casing keeps every occurrence of a substring, lower-cased. */
  lemma {:induction false} ToLowerKeepsContains(s: string, sub: string)
    requires Contains(s, sub)
    ensures Contains(ToLower(s), ToLower(sub))
    decreases |s|
  {
    if StartsWith(s, sub) {
      assert ToLower(s)[..|sub|] == ToLower(sub);
      assert StartsWith(ToLower(s)[0..], ToLower(sub));
      ContainsAt(ToLower(s), 0, ToLower(sub));
    } else {
      ToLowerKeepsContains(s[1..], sub);
      assert ToLower(s)[1..] == ToLower(s[1..]);
      ContainsInSuffix(ToLower(s), 1, ToLower(sub));
    }
  }
}
