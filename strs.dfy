/** The searches of Go's strings package that the core uses:
    strings.Index, strings.LastIndex of a one-byte separator, and
    strings.TrimSuffix. */
module Strs {

  /** `sep` occurs in `s` starting at position k. */
  predicate HasAt(s: string, sep: string, k: int) {
    0 <= k && k + |sep| <= |s| && s[k..k + |sep|] == sep
  }

  /** strings.Index: the first position where `sep` occurs, or -1. */
  function Index(s: string, sep: string): (r: int)
    ensures -1 <= r <= |s|
    ensures r >= 0 ==> HasAt(s, sep, r)
    ensures r >= 0 ==> forall k :: 0 <= k < r ==> !HasAt(s, sep, k)
    ensures r == -1 ==> forall k :: !HasAt(s, sep, k)
    decreases |s|
  {
    if |s| < |sep| then -1
    else if s[..|sep|] == sep then 0
    else
      var j := Index(s[1..], sep);
      ShiftHasAt(s, sep);
      if j < 0 then -1 else j + 1
  }

  /** Dropping the first character shifts every occurrence by one. */
  lemma ShiftHasAt(s: string, sep: string)
    requires |s| > 0
    ensures forall k :: 1 <= k ==> (HasAt(s, sep, k) <==> HasAt(s[1..], sep, k - 1))
  {
    forall k | 1 <= k
      ensures HasAt(s, sep, k) <==> HasAt(s[1..], sep, k - 1)
    {
      if k + |sep| <= |s| {
        assert s[1..][k - 1..k - 1 + |sep|] == s[k..k + |sep|];
      }
    }
  }

  /** strings.LastIndex with a one-character separator: the last position
      holding `c`, or -1. */
  function LastIndex(s: string, c: char): (r: int)
    ensures -1 <= r < |s|
    ensures r >= 0 ==> s[r] == c
    ensures forall k :: r < k < |s| ==> s[k] != c
  {
    if |s| == 0 then -1
    else if s[|s| - 1] == c then |s| - 1
    else LastIndex(s[..|s| - 1], c)
  }

  /** strings.TrimSuffix with the suffix "\n". */
  function TrimNewline(s: string): (r: string)
    ensures |s| > 0 && s[|s| - 1] == '\n' ==> r + "\n" == s
    ensures !(|s| > 0 && s[|s| - 1] == '\n') ==> r == s
  {
    if |s| > 0 && s[|s| - 1] == '\n' then s[..|s| - 1] else s
  }
}
