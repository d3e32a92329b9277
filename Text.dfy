/** The handful of Python `str` operations the scripts use: `startswith`,
    `endswith`, `in` (substring), `find` from an offset, `upper` and `lower`.
    Case mapping covers ASCII letters only. */
module Text {

  predicate StartsWith(s: string, prefix: string) {
    |prefix| <= |s| && s[..|prefix|] == prefix
  }

  predicate EndsWith(s: string, suffix: string) {
    |suffix| <= |s| && s[|s| - |suffix|..] == suffix
  }

  /** `pat` occurs in `s` starting at index `i`. */
  predicate OccursAt(s: string, pat: string, i: int) {
    0 <= i && i + |pat| <= |s| && s[i..i + |pat|] == pat
  }

  /** Python's `pat in s`. */
  predicate Contains(s: string, pat: string) {
    exists i | 0 <= i <= |s| - |pat| :: OccursAt(s, pat, i)
  }

  /** The first index at or after `from` where `pat` occurs in `s`, or `|s|`
      when there is none (the cut point of `s.split(pat)`). */
  function FindFrom(s: string, pat: string, from: nat): (j: nat)
    requires from <= |s|
    requires pat != []
    ensures from <= j <= |s|
    ensures j < |s| ==> OccursAt(s, pat, j)
    ensures forall k :: from <= k < j ==> !OccursAt(s, pat, k)
    decreases |s| - from
  {
    if from + |pat| > |s| then |s|
    else if s[from..from + |pat|] == pat then from
    else FindFrom(s, pat, from + 1)
  }

  /** A prefix fixes each character it covers. */
  lemma PrefixChar(s: string, prefix: string, k: nat)
    requires k < |prefix|
    ensures StartsWith(s, prefix) ==> k < |s| && s[k] == prefix[k]
  {
    if StartsWith(s, prefix) {
      assert s[..|prefix|][k] == s[k];
    }
  }

  /** A longer prefix implies each of its own prefixes. */
  lemma PrefixOfPrefix(s: string, longer: string, shorter: string)
    requires StartsWith(longer, shorter)
    ensures StartsWith(s, longer) ==> StartsWith(s, shorter)
  {
    if StartsWith(s, longer) {
      assert s[..|shorter|] == s[..|longer|][..|shorter|];
    }
  }

  function UpperChar(c: char): char {
    if 'a' <= c <= 'z' then (c as int - 32) as char else c
  }

  function LowerChar(c: char): char {
    if 'A' <= c <= 'Z' then (c as int + 32) as char else c
  }

  /** `s.upper()` on ASCII letters. */
  function Upper(s: string): (r: string)
    ensures |r| == |s|
    ensures forall i :: 0 <= i < |s| ==> r[i] == UpperChar(s[i])
  {
    seq(|s|, i requires 0 <= i < |s| => UpperChar(s[i]))
  }

  /** `s.lower()` on ASCII letters. */
  function Lower(s: string): (r: string)
    ensures |r| == |s|
    ensures forall i :: 0 <= i < |s| ==> r[i] == LowerChar(s[i])
  {
    seq(|s|, i requires 0 <= i < |s| => LowerChar(s[i]))
  }

  /** Upper-casing twice changes nothing more than upper-casing once. */
  lemma UpperIdempotent(s: string)
    ensures Upper(Upper(s)) == Upper(s)
  {
    var u := Upper(s);
    assert forall i :: 0 <= i < |u| ==> UpperChar(u[i]) == u[i];
  }
}
