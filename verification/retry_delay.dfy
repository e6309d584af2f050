/**
 * The retry delay that a rate-limit message announces, as JavaScript's
 * `/try again in (\d+)/.exec(message)` finds it: the leftmost position where
 * the text "try again in " is immediately followed by a digit, and as capture
 * group 1 the longest run of ASCII digits starting there.
 */
module RetryDelay {
  import opened Wrappers

  /** The literal part of the pattern, trailing space included. */
  const Marker: string := "try again in "

  /** `\d` of a JavaScript regular expression without the `u` flag. */
  predicate IsDigit(c: char) {
    '0' <= c <= '9'
  }

  predicate AllDigits(d: string) {
    forall k :: 0 <= k < |d| ==> IsDigit(d[k])
  }

  /** The pattern matches at index `i` of `s`. */
  predicate MatchesAt(s: string, i: int) {
    && 0 <= i
    && i + |Marker| < |s|
    && s[i..i + |Marker|] == Marker
    && IsDigit(s[i + |Marker|])
  }

  predicate NoMatchBefore(s: string, i: int) {
    forall k :: 0 <= k < i ==> !MatchesAt(s, k)
  }

  /** The match the regular expression reports: it starts at `i`, the leftmost
      match, and its group 1 is `d`, the maximal digit run after the marker. */
  predicate IsCapture(s: string, i: int, d: string) {
    && MatchesAt(s, i)
    && NoMatchBefore(s, i)
    && 0 < |d|
    && i + |Marker| + |d| <= |s|
    && s[i + |Marker| .. i + |Marker| + |d|] == d
    && AllDigits(d)
    && (i + |Marker| + |d| == |s| || !IsDigit(s[i + |Marker| + |d|]))
  }

  /** A successful `exec`: the match index and group 1. */
  datatype Capture = Capture(at: nat, digits: string)

  /** Length of the run of digits that starts at index `j`. */
  function DigitRun(s: string, j: nat): (n: nat)
    requires j <= |s|
    ensures j + n <= |s|
    ensures forall k :: j <= k < j + n ==> IsDigit(s[k])
    ensures j + n == |s| || !IsDigit(s[j + n])
    decreases |s| - j
  {
    if j < |s| && IsDigit(s[j]) then 1 + DigitRun(s, j + 1) else 0
  }

  /** The leftmost match at or after `from`. */
  function SearchFrom(s: string, from: nat): (r: Option<nat>)
    requires from <= |s|
    ensures r.Some? ==> from <= r.value && MatchesAt(s, r.value)
    ensures forall k :: from <= k && (r.None? || k < r.value) ==> !MatchesAt(s, k)
    decreases |s| - from
  {
    if |s| <= from + |Marker| then None
    else if MatchesAt(s, from) then Some(from)
    else SearchFrom(s, from + 1)
  }

  /** `/try again in (\d+)/.exec(s)`: None exactly when nothing matches,
      otherwise the leftmost match with its greedy group. */
  function Exec(s: string): (r: Option<Capture>)
    ensures r.None? <==> forall i :: !MatchesAt(s, i)
    ensures r.Some? ==> IsCapture(s, r.value.at, r.value.digits)
  {
    match SearchFrom(s, 0)
    case None => None
    case Some(i) =>
      var j := i + |Marker|;
      var n := DigitRun(s, j);
      assert s[j..j + n] == s[j..][..n];
      Some(Capture(i, s[j..j + n]))
  }

  /** Group 1 of the match, if any. */
  function Delay(s: string): Option<string> {
    match Exec(s)
    case None => None
    case Some(c) => Some(c.digits)
  }

  /** A run of digits at `j` that is not followed by a digit is the one DigitRun measures. */
  lemma MaximalRunIsDigitRun(s: string, j: nat, n: nat)
    requires j + n <= |s|
    requires forall k :: j <= k < j + n ==> IsDigit(s[k])
    requires j + n == |s| || !IsDigit(s[j + n])
    ensures DigitRun(s, j) == n
  {
  }

  /** IsCapture pins down the match: it is a complete specification of Exec. */
  lemma CaptureUnique(s: string, i: int, d: string, i': int, d': string)
    requires IsCapture(s, i, d) && IsCapture(s, i', d')
    ensures i == i' && d == d'
  {
    var j := i + |Marker|;
    assert i == i';
    assert forall k :: j <= k < j + |d| ==> s[k] == d[k - j];
    assert forall k :: j <= k < j + |d'| ==> s[k] == d'[k - j];
    MaximalRunIsDigitRun(s, j, |d|);
    MaximalRunIsDigitRun(s, j, |d'|);
  }

  /** A text with no "t" directly followed by "r" contains no match. */
  predicate NoTr(p: string) {
    forall k :: 0 <= k < |p| - 1 ==> !(p[k] == 't' && p[k + 1] == 'r')
  }

  /** Joining two texts without "tr" across the seam keeps them free of "tr". */
  lemma NoTrAppend(a: string, b: string)
    requires NoTr(a) && NoTr(b)
    requires |a| == 0 || a[|a| - 1] != 't'
    ensures NoTr(a + b)
  {
  }

  /** The pattern cannot match where the text does not read "tr". */
  lemma NoMatchWithoutTr(s: string, i: nat)
    requires i + 1 < |s| && !(s[i] == 't' && s[i + 1] == 'r')
    ensures !MatchesAt(s, i)
  {
  }

  lemma NoTrNoMatch(s: string)
    requires NoTr(s)
    ensures Exec(s).None?
  {
    forall i | 0 <= i && i + 1 < |s|
      ensures !MatchesAt(s, i)
    {
      NoMatchWithoutTr(s, i);
    }
  }

  /** A message whose first "try again in <digits>" follows a prefix `p` that
      cannot hold or begin a match yields exactly those digits. */
  lemma ExecFindsDelayAfter(p: string, d: string, rest: string)
    requires NoTr(p) && (|p| == 0 || p[|p| - 1] != 't')
    requires 0 < |d| && AllDigits(d)
    requires |rest| == 0 || !IsDigit(rest[0])
    ensures Exec(p + Marker + d + rest) == Some(Capture(|p|, d))
  {
    var s := p + Marker + d + rest;
    var j := |p| + |Marker|;
    assert s[|p|..j] == Marker;
    assert s[j..j + |d|] == d;
    assert s[j] == d[0];
    forall k | 0 <= k < |p|
      ensures !MatchesAt(s, k)
    {
      assert s[k] == p[k];
      if k + 1 < |p| {
        assert s[k + 1] == p[k + 1];
      }
      NoMatchWithoutTr(s, k);
    }
    if j + |d| < |s| {
      assert s[j + |d|] == rest[0];
    }
    assert IsCapture(s, |p|, d);
    var c := Exec(s).value;
    CaptureUnique(s, c.at, c.digits, |p|, d);
  }
}
