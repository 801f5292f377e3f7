/**
 The `ValueError`s the server raises, kept apart by cause, and the message
 text each one carries.
 */
module Errors {
  import opened Wrappers

  datatype Error =
    | NoComputer(session: string)            // registry lookup of an absent session
    | SdkNotInstalled                        // `from orgo import Computer` failed
    | ApiKeyMissing                          // provider "anthropic" without a key
    | ActionFailed(action: string, detail: string)  // an SDK call raised

  const NotFoundPrefix: string := "No computer found for session '"
  const NotFoundSuffix: string := "'. Initialize one first."
  const FailedSeparator: string := " failed: "

  /** The text of the `ValueError`. */
  function Message(e: Error): string
  {
    match e
    case NoComputer(k) => NotFoundPrefix + k + NotFoundSuffix
    case SdkNotInstalled => "Orgo SDK not installed"
    case ApiKeyMissing => "Anthropic API key required but not provided"
    case ActionFailed(a, d) => a + FailedSeparator + d
  }

  /** The session a "no computer found" message names, if `m` is one. */
  function SessionNamedIn(m: string): Option<string>
  {
    if |m| >= |NotFoundPrefix| + |NotFoundSuffix|
       && m[..|NotFoundPrefix|] == NotFoundPrefix
       && m[|m| - |NotFoundSuffix|..] == NotFoundSuffix
    then Some(m[|NotFoundPrefix|..|m| - |NotFoundSuffix|])
    else None
  }

  /** The lookup error names the session that was looked up. */
  lemma NotFoundNamesSession(k: string)
    ensures SessionNamedIn(Message(NoComputer(k))) == Some(k)
  {
    var m := Message(NoComputer(k));
    assert m == NotFoundPrefix + k + NotFoundSuffix;
    assert m[..|NotFoundPrefix|] == NotFoundPrefix;
    assert m[|m| - |NotFoundSuffix|..] == NotFoundSuffix;
    assert m[|NotFoundPrefix|..|m| - |NotFoundSuffix|] == k;
  }

  /** Splits off the action at the first " failed: " in `m`. */
  function ActionFailedParts(m: string): Option<(string, string)>
  {
    match FirstSeparator(m, 0)
    case None => None
    case Some(j) => Some((m[..j], m[j + |FailedSeparator|..]))
  }

  /** The first position at or after `j` where " failed: " starts in `m`. */
  function FirstSeparator(m: string, j: nat): (r: Option<nat>)
    requires j <= |m|
    ensures r.Some? ==> j <= r.value && r.value + |FailedSeparator| <= |m|
    decreases |m| - j
  {
    if j + |FailedSeparator| > |m| then None
    else if m[j..j + |FailedSeparator|] == FailedSeparator then Some(j)
    else FirstSeparator(m, j + 1)
  }

  lemma {:induction false} SeparatorFoundAfterAction(a: string, d: string, j: nat)
    requires forall i :: 0 <= i < |a| ==> a[i] != ':'
    requires j <= |a|
    ensures FirstSeparator(a + FailedSeparator + d, j) == Some(|a|)
    decreases |a| - j
  {
    var m := a + FailedSeparator + d;
    if j == |a| {
      assert m[j..j + |FailedSeparator|] == FailedSeparator;
    } else {
      assert m[j + 7] != ':' by {
        if j + 7 >= |a| {
          assert m[j + 7] == FailedSeparator[j + 7 - |a|];
        }
      }
      assert m[j..j + |FailedSeparator|][7] != FailedSeparator[7];
      SeparatorFoundAfterAction(a, d, j + 1);
    }
  }

  /**
   A failed SDK call's message reads back to the action and the SDK's own
   message, whenever the action name has no colon (none of the server's does).
   */
  lemma ActionFailedNamesActionAndDetail(a: string, d: string)
    requires forall i :: 0 <= i < |a| ==> a[i] != ':'
    ensures ActionFailedParts(Message(ActionFailed(a, d))) == Some((a, d))
  {
    var m := a + FailedSeparator + d;
    SeparatorFoundAfterAction(a, d, 0);
    assert m[..|a|] == a;
    assert m[|a| + |FailedSeparator|..] == d;
  }
}
