/**
  The error value a probe returns, and the two classifications derived from
  its message text: the HTTP-like status code the external tool reports for a
  remote target, and the narrow "5XX" internal-server-error heuristic.
  Both are textual pattern matches over the message, not numeric range checks.
 */
module ProbeErrors {
  import opened Wrappers

  /** A probe failure carrying the message text (the tool's own or a wrapper's). */
  datatype ProbeError = ProbeError(message: string)

  /** The literal that precedes a status code in the tool's diagnostics. */
  const ReturnedWord: string := "returned "

  /** The literal whose presence marks an internal server error. */
  const InternalServerErrorMark: string := "5XX"

  predicate IsDigit(c: char) {
    '0' <= c <= '9'
  }

  function DigitValue(c: char): (d: nat)
    requires IsDigit(c)
    ensures d < 10
  {
    c as int - '0' as int
  }

  /** `pat` occurs in `s` starting at position `i`. */
  predicate OccursAt(s: string, pat: string, i: nat) {
    i + |pat| <= |s| && forall k :: 0 <= k < |pat| ==> s[i + k] == pat[k]
  }

  /** A status-code pattern "returned DDD " (three decimal digits, then a space) starts at `i`. */
  predicate CodeAt(s: string, i: nat) {
    OccursAt(s, ReturnedWord, i) && i + 13 <= |s|
    && IsDigit(s[i + 9]) && IsDigit(s[i + 10]) && IsDigit(s[i + 11])
    && s[i + 12] == ' '
  }

  /** The decimal value of the three digits of the pattern at `i`. */
  function CodeValue(s: string, i: nat): (code: nat)
    requires CodeAt(s, i)
    ensures code < 1000
  {
    100 * DigitValue(s[i + 9]) + 10 * DigitValue(s[i + 10]) + DigitValue(s[i + 11])
  }

  /** The leftmost position at or after `from` where a status-code pattern starts. */
  function FirstCodeFrom(s: string, from: nat): (r: Option<nat>)
    requires from <= |s|
    ensures r.Some? ==> from <= r.value && CodeAt(s, r.value)
    ensures r.Some? ==> forall j: nat :: from <= j < r.value ==> !CodeAt(s, j)
    ensures r.None? ==> forall j: nat :: from <= j ==> !CodeAt(s, j)
    decreases |s| - from
  {
    if CodeAt(s, from) then Some(from)
    else if from == |s| then None
    else FirstCodeFrom(s, from + 1)
  }

  /**
    The status code embedded in the message: the value of the leftmost
    "returned DDD " pattern, or 0 when the message holds none.
   */
  function HTTPErrorCode(err: ProbeError): (code: nat)
    ensures code < 1000
    ensures (forall j: nat :: !CodeAt(err.message, j)) ==> code == 0
    ensures forall i: nat {:trigger CodeAt(err.message, i)} ::
      CodeAt(err.message, i) && (forall j: nat :: j < i ==> !CodeAt(err.message, j))
      ==> code == CodeValue(err.message, i)
  {
    match FirstCodeFrom(err.message, 0)
    case Some(i) => CodeValue(err.message, i)
    case None => 0
  }

  /** Whether `pat` occurs in `s` at some position at or after `from`. */
  function ContainsFrom(s: string, pat: string, from: nat): (r: bool)
    requires from <= |s|
    ensures r <==> exists j: nat :: from <= j && OccursAt(s, pat, j)
    decreases |s| - from
  {
    if OccursAt(s, pat, from) then true
    else if from == |s| then false
    else ContainsFrom(s, pat, from + 1)
  }

  /** True exactly when the message contains the case-sensitive literal "5XX". */
  function IsInternalServerError(err: ProbeError): (r: bool)
    ensures r <==> exists i: nat :: OccursAt(err.message, InternalServerErrorMark, i)
  {
    ContainsFrom(err.message, InternalServerErrorMark, 0)
  }
}
