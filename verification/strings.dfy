/** String helpers the logger relies on: ASCII lower-casing (Python's
    `str.lower` on the inputs that matter here), `str.startswith`, and a
    first-occurrence search with the split it induces. */
module Strings {
  import opened Wrappers

  predicate IsUpper(c: char) {
    'A' <= c <= 'Z'
  }

  predicate IsLower(c: char) {
    'a' <= c <= 'z'
  }

  function LowerChar(c: char): char {
    if IsUpper(c) then (c as int + 32) as char else c
  }

  function UpperChar(c: char): char {
    if IsLower(c) then (c as int - 32) as char else c
  }

  /** ASCII lower-casing of every character of `s`. */
  function Lower(s: string): (r: string)
    ensures |r| == |s|
    ensures forall i :: 0 <= i < |s| ==> r[i] == LowerChar(s[i])
  {
    seq(|s|, i requires 0 <= i < |s| => LowerChar(s[i]))
  }

  /** Comparing `Lower(s)` with an all-lower-case word `t` is a
      case-insensitive comparison: each character of `s` is the
      corresponding letter of `t` in either case. */
  lemma LowerEqualsIgnoringCase(s: string, t: string)
    requires forall i :: 0 <= i < |t| ==> IsLower(t[i])
    ensures Lower(s) == t <==>
              |s| == |t| && forall i :: 0 <= i < |s| ==> s[i] == t[i] || s[i] == UpperChar(t[i])
  {
    if Lower(s) == t {
      forall i | 0 <= i < |s|
        ensures s[i] == t[i] || s[i] == UpperChar(t[i])
      {
        assert LowerChar(s[i]) == t[i];
      }
    }
    if |s| == |t| && forall i :: 0 <= i < |s| ==> s[i] == t[i] || s[i] == UpperChar(t[i]) {
      forall i | 0 <= i < |s|
        ensures Lower(s)[i] == t[i]
      {
        assert s[i] == t[i] || s[i] == UpperChar(t[i]);
      }
    }
  }

  /** Python's `s.startswith(prefix)`, compared character by character. */
  function StartsWith(s: string, prefix: string): (b: bool)
    ensures b <==> prefix <= s
  {
    if |prefix| == 0 then true
    else if |s| == 0 then false
    else s[0] == prefix[0] && StartsWith(s[1..], prefix[1..])
  }

  predicate EndsWith(s: string, suffix: string) {
    |suffix| <= |s| && s[|s| - |suffix|..] == suffix
  }

  /** `pat` occurs in `s` starting at index `i`. */
  predicate OccursAt(s: string, pat: string, i: nat) {
    i + |pat| <= |s| && s[i..i + |pat|] == pat
  }

  /** Leftmost occurrence of `pat` in `s` at an index `k` or later. */
  function FindFrom(s: string, pat: string, k: nat): (r: Option<nat>)
    requires k <= |s|
    ensures r.Some? ==> k <= r.value && OccursAt(s, pat, r.value)
    ensures r.Some? ==> forall j: nat :: k <= j < r.value ==> !OccursAt(s, pat, j)
    ensures r.None? ==> forall j: nat :: k <= j ==> !OccursAt(s, pat, j)
    decreases |s| - k
  {
    if OccursAt(s, pat, k) then Some(k)
    else if k == |s| then None
    else FindFrom(s, pat, k + 1)
  }

  /** Index of the first occurrence of `pat` in `s`, as `str.find` would
      report it (with `None` for -1). */
  function Find(s: string, pat: string): (r: Option<nat>)
    ensures r.Some? ==> OccursAt(s, pat, r.value)
    ensures r.Some? ==> forall j: nat :: j < r.value ==> !OccursAt(s, pat, j)
    ensures r.None? ==> forall j: nat :: !OccursAt(s, pat, j)
  {
    FindFrom(s, pat, 0)
  }

  predicate Contains(s: string, pat: string) {
    Find(s, pat).Some?
  }

  /** An occurrence inside a prefix of `s` is an occurrence in `s`. */
  lemma OccursInPrefix(s: string, pat: string, n: nat, j: nat)
    requires n <= |s|
    requires OccursAt(s[..n], pat, j)
    ensures OccursAt(s, pat, j)
  {
    assert s[j..j + |pat|] == s[..n][j..j + |pat|];
  }

  /** The text before the first occurrence of `pat` does not contain it. */
  lemma NoOccurrenceBeforeFirst(s: string, pat: string, i: nat)
    requires 0 < |pat| && i <= |s|
    requires forall j: nat :: j < i ==> !OccursAt(s, pat, j)
    ensures !Contains(s[..i], pat)
  {
    forall j: nat | OccursAt(s[..i], pat, j)
      ensures false
    {
      OccursInPrefix(s, pat, i, j);
    }
  }

  /** Splitting `s` at the first occurrence of `sep`, as a reader of a log
      line would: the text before it and, if `sep` occurs, the text after.
      As with Python's `str.partition`, the separator must not be empty. */
  function Partition(s: string, sep: string): (r: (string, Option<string>))
    requires |sep| > 0
    ensures r.1.None? <==> !Contains(s, sep)
    ensures r.1.None? ==> r.0 == s
    ensures r.1.Some? ==> s == r.0 + sep + r.1.value && !Contains(r.0, sep)
    ensures r.1.Some? ==> Find(s, sep) == Some(|r.0|)
  {
    match Find(s, sep)
    case None => (s, None)
    case Some(i) =>
      NoOccurrenceBeforeFirst(s, sep, i);
      assert s == s[..i] + sep + s[i + |sep|..] by {
        assert s == s[..i] + s[i..i + |sep|] + s[i + |sep|..];
      }
      (s[..i], Some(s[i + |sep|..]))
  }
}
