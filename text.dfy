/**
 * String operations of JavaScript's `String.prototype` that the application relies on:
 * `toLowerCase`, `includes`, `startsWith`, `trim` and `Array.prototype.join`.
 */
module Text {

  /** The lower-case form of one character (letters A to Z; every other character is kept). */
  function LowerChar(c: char): char {
    if 'A' <= c <= 'Z' then (c as int + 32) as char else c
  }

  /** `s.toLowerCase()`, restricted to the ASCII letters. */
  function ToLower(s: string): (r: string)
    ensures |r| == |s|
    ensures forall i :: 0 <= i < |s| ==> r[i] == LowerChar(s[i])
  {
    seq(|s|, i requires 0 <= i < |s| => LowerChar(s[i]))
  }

  lemma {:induction false} ToLowerIdempotent(s: string)
    ensures ToLower(ToLower(s)) == ToLower(s)
  {
    var once := ToLower(s);
    assert forall i :: 0 <= i < |s| ==> LowerChar(once[i]) == once[i];
  }

  lemma {:induction false} ToLowerConcat(a: string, b: string)
    ensures ToLower(a + b) == ToLower(a) + ToLower(b)
  {
    assert forall i :: 0 <= i < |a + b| ==> (a + b)[i] == if i < |a| then a[i] else b[i - |a|];
  }

  /** `t` occurs in `s` starting at position `i`. */
  predicate OccursAt(s: string, t: string, i: int) {
    0 <= i && i + |t| <= |s| && s[i..i + |t|] == t
  }

  /** `s.includes(t)`: `t` is a contiguous substring of `s`. */
  function Contains(s: string, t: string): (r: bool)
    ensures r <==> exists i :: OccursAt(s, t, i)
    decreases |s|
  {
    if t <= s then
      assert OccursAt(s, t, 0);
      true
    else if s == [] then
      assert forall i :: !OccursAt(s, t, i);
      false
    else
      var rest := Contains(s[1..], t);
      assert forall i :: OccursAt(s, t, i) && i > 0 ==> OccursAt(s[1..], t, i - 1);
      assert forall i :: OccursAt(s[1..], t, i) ==> OccursAt(s, t, i + 1);
      assert !OccursAt(s, t, 0);
      rest
  }

  /** Every string contains the empty string. */
  lemma ContainsEmpty(s: string)
    ensures Contains(s, "")
  {
    assert OccursAt(s, "", 0);
  }

  /** A string whose first character `s` lacks occurs nowhere in it. */
  lemma MissingFirstChar(s: string, t: string)
    requires t != [] && forall i :: 0 <= i < |s| ==> s[i] != t[0]
    ensures forall i :: !OccursAt(s, t, i)
    ensures !Contains(s, t)
  {
    forall i | 0 <= i && i + |t| <= |s| ensures !OccursAt(s, t, i) {
      assert s[i..i + |t|][0] == s[i];
    }
  }

  /** A string longer than `s` never occurs in it. */
  lemma ContainsTooLong(s: string, t: string)
    requires |t| > |s|
    ensures !Contains(s, t)
  {
  }

  /** `s.startsWith(p)`. */
  predicate StartsWith(s: string, p: string) {
    p <= s
  }

  /**
   * The characters `String.prototype.trim` removes: the ECMAScript WhiteSpace
   * and LineTerminator code points.
   */
  predicate IsSpace(c: char) {
    c == '\t' || c == '\U{000B}' || c == '\U{000C}' || c == ' ' || c == '\U{00A0}'
    || c == '\U{FEFF}' || c == '\U{1680}' || ('\U{2000}' <= c <= '\U{200A}')
    || c == '\U{202F}' || c == '\U{205F}' || c == '\U{3000}'
    || c == '\n' || c == '\r' || c == '\U{2028}' || c == '\U{2029}'
  }

  /** Every character of `s` is white space (the empty string included). */
  predicate Blank(s: string) {
    forall i :: 0 <= i < |s| ==> IsSpace(s[i])
  }

  /** How many white-space characters `s` starts with. */
  function LeadingSpaces(s: string): (n: nat)
    ensures n <= |s|
    ensures forall k :: 0 <= k < n ==> IsSpace(s[k])
    ensures n < |s| ==> !IsSpace(s[n])
  {
    if s != [] && IsSpace(s[0]) then 1 + LeadingSpaces(s[1..]) else 0
  }

  /** How many white-space characters `s` ends with. */
  function TrailingSpaces(s: string): (n: nat)
    ensures n <= |s|
    ensures forall k :: |s| - n <= k < |s| ==> IsSpace(s[k])
    ensures n < |s| ==> !IsSpace(s[|s| - n - 1])
  {
    if s != [] && IsSpace(s[|s| - 1]) then 1 + TrailingSpaces(s[..|s| - 1]) else 0
  }

  /** `s.trimEnd()`. */
  function TrimEnd(s: string): string {
    s[..|s| - TrailingSpaces(s)]
  }

  /** `r` is the slice of `s` at `i`, with only white space before and after it. */
  predicate TrimmedAt(s: string, r: string, i: int) {
    0 <= i <= |s| - |r| && r == s[i..i + |r|]
    && (forall k :: 0 <= k < i ==> IsSpace(s[k]))
    && (forall k :: i + |r| <= k < |s| ==> IsSpace(s[k]))
  }

  /** `s.trim()`: `s` without its leading and trailing white space. */
  function Trim(s: string): (r: string)
    ensures exists i :: TrimmedAt(s, r, i)
    ensures r != [] ==> !IsSpace(r[0]) && !IsSpace(r[|r| - 1])
    ensures r == [] <==> Blank(s)
  {
    var i := LeadingSpaces(s);
    var a := s[i..];
    var r := TrimEnd(a);
    assert r == s[i..i + |r|];
    assert forall k :: i + |r| <= k < |s| ==> s[k] == a[k - i];
    assert TrimmedAt(s, r, i);
    r
  }

  /** `parts.join(sep)`. */
  function Join(parts: seq<string>, sep: string): (r: string)
    ensures parts == [] ==> r == ""
    ensures |parts| == 1 ==> r == parts[0]
    ensures forall k :: 0 <= k < |parts| ==> Contains(r, parts[k])
  {
    if parts == [] then ""
    else if |parts| == 1 then
      assert OccursAt(parts[0], parts[0], 0);
      parts[0]
    else
      var rest := Join(parts[1..], sep);
      var r := parts[0] + sep + rest;
      assert OccursAt(r, parts[0], 0);
      forall k | 1 <= k < |parts| ensures Contains(r, parts[k]) {
        assert parts[k] == parts[1..][k - 1];
        var i :| OccursAt(rest, parts[k], i);
        assert r[|parts[0] + sep| + i..|parts[0] + sep| + i + |parts[k]|] == rest[i..i + |parts[k]|];
        assert OccursAt(r, parts[k], |parts[0] + sep| + i);
      }
      r
  }

  /** Containment survives extending the haystack on either side. */
  lemma ContainsInfix(a: string, s: string, b: string, t: string)
    requires Contains(s, t)
    ensures Contains(a + s + b, t)
  {
    var i :| OccursAt(s, t, i);
    var big := a + s + b;
    assert big[|a| + i..|a| + i + |t|] == s[i..i + |t|];
    assert OccursAt(big, t, |a| + i);
  }

  /** What the lowercased middle part contains, the lowercased whole contains. */
  lemma ContainsLowerPart(a: string, s: string, b: string, t: string)
    requires Contains(ToLower(s), t)
    ensures Contains(ToLower(a + s + b), t)
  {
    var i :| OccursAt(ToLower(s), t, i);
    var big := ToLower(a + s + b);
    assert forall k :: 0 <= k < |s| ==> big[|a| + k] == ToLower(s)[k];
    assert big[|a| + i..|a| + i + |t|] == ToLower(s)[i..i + |t|];
    assert OccursAt(big, t, |a| + i);
  }
}
