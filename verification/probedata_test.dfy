/**
  The asserted cases for the two message matchers: each assertion of the
  repository's tests is one lemma here, stated over the whole message.
 */
module ProbeDataTest {
  import opened ProbeErrors

  /** The words every tested message starts with. */
  const ServerReturned: string := "Server returned "

  /** Where "returned " starts in a message that starts with `ServerReturned`. */
  const ReturnedStart: nat := 7

  /** No status-code pattern starts before the word "returned" in "Server returned ...". */
  lemma NoCodeBeforeReturned(s: string)
    requires OccursAt(s, ServerReturned, 0)
    ensures forall j: nat :: j < ReturnedStart ==> !CodeAt(s, j)
  {
    forall j: nat | j < ReturnedStart
      ensures !OccursAt(s, ReturnedWord, j)
    {
      forall k | 0 <= k < |ServerReturned|
        ensures s[k] == ServerReturned[k]
      {
        assert s[0 + k] == ServerReturned[k];
      }
      ReturnedStartsWithRe(s, j);
    }
  }

  /** Every occurrence of "returned " starts with the characters 'r', 'e'. */
  lemma ReturnedStartsWithRe(s: string, i: nat)
    ensures OccursAt(s, ReturnedWord, i) ==> s[i] == 'r' && s[i + 1] == 'e'
  {
    if OccursAt(s, ReturnedWord, i) {
      assert s[i + 0] == ReturnedWord[0] && s[i + 1] == ReturnedWord[1];
    }
  }

  /** Every occurrence of "5XX" starts with the character '5'. */
  lemma MarkStartsWithFive(s: string, i: nat)
    ensures OccursAt(s, InternalServerErrorMark, i) ==> s[i] == '5'
  {
    if OccursAt(s, InternalServerErrorMark, i) {
      assert s[i + 0] == InternalServerErrorMark[0];
    }
  }

  /** The literal "5XX" does not occur in a message with no '5' in it. */
  lemma NoMarkWithoutFive(s: string)
    requires forall k :: 0 <= k < |s| ==> s[k] != '5'
    ensures !IsInternalServerError(ProbeError(s))
  {
    forall i: nat
      ensures !OccursAt(s, InternalServerErrorMark, i)
    {
      MarkStartsWithFive(s, i);
    }
  }

  /** A status-code pattern needs two adjacent digits, ten characters after its start. */
  lemma NoCodeWithoutAdjacentDigits(s: string)
    requires forall k :: 0 <= k < |s| - 1 ==> !(IsDigit(s[k]) && IsDigit(s[k + 1]))
    ensures forall j: nat :: !CodeAt(s, j)
  {
  }

  /** "Server returned 404 Not Found" carries code 404. */
  lemma HTTPErrorCode404()
    ensures HTTPErrorCode(ProbeError("Server returned 404 Not Found")) == 404
  {
    var s := "Server returned 404 Not Found";
    assert CodeAt(s, ReturnedStart);
    NoCodeBeforeReturned(s);
  }

  /** "Server returned 503 Service not available" carries code 503. */
  lemma HTTPErrorCode503()
    ensures HTTPErrorCode(ProbeError("Server returned 503 Service not available")) == 503
  {
    var s := "Server returned 503 Service not available";
    assert CodeAt(s, ReturnedStart);
    NoCodeBeforeReturned(s);
  }

  /** "Server returned 5xx Internal server error" carries no code: "5xx" is not three digits. */
  lemma HTTPErrorCode5xx()
    ensures HTTPErrorCode(ProbeError("Server returned 5xx Internal server error")) == 0
  {
    NoCodeWithoutAdjacentDigits("Server returned 5xx Internal server error");
  }

  /** "Server returned 404 Not Found" is not an internal server error. */
  lemma NotInternalServerError404()
    ensures !IsInternalServerError(ProbeError("Server returned 404 Not Found"))
  {
    NoMarkWithoutFive("Server returned 404 Not Found");
  }

  /** "Server returned 5XX Internal server error" is an internal server error. */
  lemma InternalServerError5XX()
    ensures IsInternalServerError(ProbeError("Server returned 5XX Internal server error"))
  {
    assert OccursAt("Server returned 5XX Internal server error", InternalServerErrorMark, 16);
  }

  /** "Server returned 7XX Internal server error" is not an internal server error. */
  lemma NotInternalServerError7XX()
    ensures !IsInternalServerError(ProbeError("Server returned 7XX Internal server error"))
  {
    NoMarkWithoutFive("Server returned 7XX Internal server error");
  }
}
