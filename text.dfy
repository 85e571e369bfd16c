/**
 * The string operations the chat app relies on, restricted to ASCII:
 * `toLowerCase`, `includes` and `trim`.
 */
module Text {

  // ---------------------------------------------------------------- case

  predicate IsUpper(c: char) {
    'A' <= c <= 'Z'
  }

  function LowerChar(c: char): (d: char)
    ensures !IsUpper(d)
    ensures !IsUpper(c) ==> d == c
  {
    if IsUpper(c) then (c as int + 32) as char else c
  }

  /** `String.prototype.toLowerCase`, with ASCII case folding only. */
  function Lower(s: string): (r: string)
    ensures |r| == |s|
    ensures forall i :: 0 <= i < |s| ==> r[i] == LowerChar(s[i])
  {
    if s == [] then [] else [LowerChar(s[0])] + Lower(s[1..])
  }

  /** Lower-casing twice is lower-casing once. */
  lemma LowerIdempotent(s: string)
    ensures Lower(Lower(s)) == Lower(s)
  {
    var t := Lower(s);
    assert forall i :: 0 <= i < |t| ==> Lower(t)[i] == t[i];
  }

  // ---------------------------------------------------------------- substrings

  /** `needle` sits in `s` starting at index `i`. */
  ghost predicate OccursAt(s: string, needle: string, i: int) {
    0 <= i && i + |needle| <= |s| && s[i..i + |needle|] == needle
  }

  ghost predicate Occurs(s: string, needle: string) {
    exists i :: OccursAt(s, needle, i)
  }

  lemma OccursShift(s: string, needle: string)
    requires |s| > 0 && !OccursAt(s, needle, 0)
    ensures Occurs(s, needle) <==> Occurs(s[1..], needle)
  {
    if Occurs(s, needle) {
      var i :| OccursAt(s, needle, i);
      assert s[1..][i - 1..i - 1 + |needle|] == s[i..i + |needle|];
      assert OccursAt(s[1..], needle, i - 1);
    }
    if Occurs(s[1..], needle) {
      var j :| OccursAt(s[1..], needle, j);
      assert s[1..][j..j + |needle|] == s[j + 1..j + 1 + |needle|];
      assert OccursAt(s, needle, j + 1);
    }
  }

  /** `String.prototype.includes`: scans `s` for the first place `needle` starts. */
  function Includes(s: string, needle: string): (r: bool)
    ensures r <==> Occurs(s, needle)
    decreases |s|
  {
    if |needle| > |s| then
      false
    else if s[..|needle|] == needle then
      assert OccursAt(s, needle, 0);
      true
    else
      OccursShift(s, needle);
      Includes(s[1..], needle)
  }

  // ---------------------------------------------------------------- white space

  /** The ASCII white-space characters `String.prototype.trim` removes. */
  predicate IsSpace(c: char) {
    c == ' ' || c == '\t' || c == '\n' || c == '\r' || c == '\U{000B}' || c == '\U{000C}'
  }

  predicate IsTrimmed(s: string) {
    s == [] || (!IsSpace(s[0]) && !IsSpace(s[|s| - 1]))
  }

  /** The first index at or after `lo` that holds no white space, or `|s|`. */
  function SkipSpaces(s: string, lo: nat): (n: nat)
    requires lo <= |s|
    ensures lo <= n <= |s|
    ensures forall i :: lo <= i < n ==> IsSpace(s[i])
    ensures n == |s| || !IsSpace(s[n])
    decreases |s| - lo
  {
    if lo < |s| && IsSpace(s[lo]) then SkipSpaces(s, lo + 1) else lo
  }

  /** The least end `n` in `lo..hi` such that `s[n..hi]` is all white space. */
  function SkipSpacesBack(s: string, lo: nat, hi: nat): (n: nat)
    requires lo <= hi <= |s|
    ensures lo <= n <= hi
    ensures forall i :: n <= i < hi ==> IsSpace(s[i])
    ensures n == lo || !IsSpace(s[n - 1])
    decreases hi
  {
    if lo < hi && IsSpace(s[hi - 1]) then SkipSpacesBack(s, lo, hi - 1) else hi
  }

  /**
   * `String.prototype.trim`: what is left after dropping white space at both
   * ends. It is the slice of `s` between a white-space prefix and a
   * white-space suffix, has no white space at either end, and is empty exactly
   * when `s` is all white space.
   */
  function Trim(s: string): (r: string)
    ensures IsTrimmed(r)
    ensures exists a, b :: 0 <= a <= b <= |s| && r == s[a..b]
                           && (forall i :: 0 <= i < a ==> IsSpace(s[i]))
                           && (forall i :: b <= i < |s| ==> IsSpace(s[i]))
    ensures r == [] <==> forall i :: 0 <= i < |s| ==> IsSpace(s[i])
  {
    var a := SkipSpaces(s, 0);
    var b := SkipSpacesBack(s, a, |s|);
    assert forall i :: b <= i < |s| ==> IsSpace(s[i]);
    s[a..b]
  }
}
