/** Shared value types: optional values, the failures the tool can raise, and the
    few string helpers (substring test, character search, reversal) its Python
    code gets from the language. */
module Base {

  datatype Option<+T> = None | Some(value: T)

  /** Everything that can abort an operation.  `ClientError` is botocore's
      ClientError (only its message is kept); `Unscripted` is a remote call for
      which the scripted client has no reply left, which is not a ClientError and
      so is never caught by the tool; `OperationFailed` is the plain Exception
      raised when a stack ends outside the successful statuses. */
  datatype Failure =
    | ClientError(message: string)
    | Unscripted(operation: string)
    | WaiterFailed(statusReason: string)
    | OperationFailed(action: string, stackName: string, status: string)
    | FormatError(item: string)
    | UnpackError(item: string)

  datatype Result<+T> = Ok(value: T) | Err(failure: Failure)

  datatype Outcome = Pass | Fail(failure: Failure)

  /** The text of the Exception raised for a stack that did not settle in a
      successful status. */
  function OperationFailedMessage(action: string, stackName: string, status: string): (m: string)
    ensures Contains(m, stackName) && Contains(m, status)
  {
    var lead := "Stack did not " + action + " successfully: ";
    var middle := lead + stackName + " is in ";
    ContainsAt(middle + status + " status", stackName, |lead|);
    ContainsAt(middle + status + " status", status, |middle|);
    middle + status + " status"
  }

  /** Python's `fragment in text` for strings. */
  function Contains(text: string, fragment: string): bool
    decreases |text|
  {
    fragment <= text || (text != [] && Contains(text[1..], fragment))
  }

  /** `fragment` occurs in `text` starting at index `i`. */
  ghost predicate OccursAt(text: string, fragment: string, i: int)
  {
    0 <= i && i + |fragment| <= |text| && text[i..i + |fragment|] == fragment
  }

  lemma {:induction false} ContainsAt(text: string, fragment: string, i: nat)
    requires i + |fragment| <= |text| && text[i..i + |fragment|] == fragment
    ensures Contains(text, fragment)
    decreases i
  {
    if i == 0 {
      assert fragment <= text;
    } else {
      assert text[1..][i - 1..i - 1 + |fragment|] == text[i..i + |fragment|];
      ContainsAt(text[1..], fragment, i - 1);
    }
  }

  /** The recursive substring test agrees with "occurs at some index". */
  lemma {:induction false} ContainsIffOccurs(text: string, fragment: string)
    ensures Contains(text, fragment) <==> exists i :: OccursAt(text, fragment, i)
    decreases |text|
  {
    if Contains(text, fragment) {
      if fragment <= text {
        assert text[0..|fragment|] == fragment;
        assert OccursAt(text, fragment, 0);
      } else {
        ContainsIffOccurs(text[1..], fragment);
        var j :| OccursAt(text[1..], fragment, j);
        assert text[1..][j..j + |fragment|] == text[j + 1..j + 1 + |fragment|];
        assert OccursAt(text, fragment, j + 1);
      }
    }
    if exists i :: OccursAt(text, fragment, i) {
      var i :| OccursAt(text, fragment, i);
      ContainsAt(text, fragment, i);
    }
  }

  /** Index of the first `c` in `s`, or |s| when there is none. */
  function IndexOf(s: string, c: char): (i: nat)
    ensures i <= |s|
    ensures i < |s| ==> s[i] == c
    ensures forall j | 0 <= j < i :: s[j] != c
    ensures i == |s| <==> c !in s
    decreases |s|
  {
    if s == [] then 0 else if s[0] == c then 0 else 1 + IndexOf(s[1..], c)
  }

  /** Python's `reversed(...)` materialised as a sequence. */
  function Reverse<T>(s: seq<T>): (r: seq<T>)
    ensures |r| == |s|
    ensures forall i | 0 <= i < |s| :: r[i] == s[|s| - 1 - i]
    decreases |s|
  {
    if s == [] then [] else Reverse(s[1..]) + [s[0]]
  }
}
