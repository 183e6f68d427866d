/**
 * The few JavaScript values and built-in string and array operations the
 * application's logic relies on, with ECMAScript semantics:
 * `String.prototype.trim`, `includes`, `indexOf`, `replace` with a string
 * pattern (first occurrence only), `replace` with a global one-character
 * regular expression, and `Array.prototype.filter`.
 */
module Js {
  import opened Wrappers

  /** A JavaScript value, as far as the validators and request bodies need one. */
  datatype Value = Undefined | Null | Bool(b: bool) | Num(x: real) | Str(s: string)

  /** The type name zod reports for a value it received. */
  function TypeName(v: Value): string {
    match v
    case Undefined => "undefined"
    case Null => "null"
    case Bool(_) => "boolean"
    case Num(_) => "number"
    case Str(_) => "string"
  }

  /** ECMAScript LineTerminator code points: what `.` in a regular expression does not match. */
  predicate IsLineTerminator(c: char) {
    c == '\n' || c == '\r' || c == '\U{2028}' || c == '\U{2029}'
  }

  /** ECMAScript WhiteSpace and LineTerminator: what `trim` strips and `\s` matches. */
  predicate IsWhiteSpace(c: char) {
    || IsLineTerminator(c)
    || c == '\t' || c == '\U{000B}' || c == '\U{000C}' || c == ' '
    || c == '\U{00A0}' || c == '\U{1680}' || ('\U{2000}' <= c <= '\U{200A}')
    || c == '\U{202F}' || c == '\U{205F}' || c == '\U{3000}' || c == '\U{FEFF}'
  }

  /** `\d`: an ASCII decimal digit. */
  predicate IsAsciiDigit(c: char) {
    '0' <= c <= '9'
  }

  /** `[a-zA-Z]`: an ASCII letter. */
  predicate IsAsciiLetter(c: char) {
    ('a' <= c <= 'z') || ('A' <= c <= 'Z')
  }

  /** `needle` occurs in `hay` starting at index `i`. */
  predicate OccursAt(hay: string, needle: string, i: nat) {
    i + |needle| <= |hay| && hay[i..i + |needle|] == needle
  }

  /** `hay.includes(needle)`. */
  predicate Contains(hay: string, needle: string) {
    exists i: nat | i <= |hay| :: OccursAt(hay, needle, i)
  }

  /** The first index at or after `from` where `needle` occurs, if any. */
  function IndexOfFrom(hay: string, needle: string, from: nat): (r: Option<nat>)
    decreases |hay| - from
    ensures r.Some? ==> from <= r.value && OccursAt(hay, needle, r.value)
    ensures r.Some? ==> forall j: nat :: from <= j < r.value ==> !OccursAt(hay, needle, j)
    ensures r.None? ==> forall j: nat :: from <= j ==> !OccursAt(hay, needle, j)
  {
    if from + |needle| > |hay| then None
    else if OccursAt(hay, needle, from) then Some(from)
    else IndexOfFrom(hay, needle, from + 1)
  }

  /** `hay.indexOf(needle)`, with -1 written as `None`. */
  function IndexOf(hay: string, needle: string): (r: Option<nat>)
    ensures r.None? <==> !Contains(hay, needle)
    ensures r.Some? ==> OccursAt(hay, needle, r.value)
    ensures r.Some? ==> forall j: nat :: j < r.value ==> !OccursAt(hay, needle, j)
  {
    IndexOfFrom(hay, needle, 0)
  }

  /** `s.replace(pattern, replacement)` with a string pattern: only the first occurrence is replaced. */
  function ReplaceFirst(s: string, pattern: string, replacement: string): (r: string)
    ensures !Contains(s, pattern) ==> r == s
    ensures Contains(s, pattern) ==>
      exists i: nat :: OccursAt(s, pattern, i)
        && (forall j: nat :: j < i ==> !OccursAt(s, pattern, j))
        && r == s[..i] + replacement + s[i + |pattern|..]
  {
    match IndexOf(s, pattern)
    case None => s
    case Some(i) => s[..i] + replacement + s[i + |pattern|..]
  }

  /** `r` is `s` with some elements dropped, the rest kept in order. */
  predicate IsSubsequence<T(==)>(r: seq<T>, s: seq<T>)
    decreases |s|
  {
    if r == [] then true
    else if s == [] then false
    else (r[0] == s[0] && IsSubsequence(r[1..], s[1..])) || IsSubsequence(r, s[1..])
  }

  /** `s.filter(p)`: the elements satisfying `p`, in their original order. */
  function Filter<T(==,!new)>(s: seq<T>, p: T -> bool): (r: seq<T>)
    ensures IsSubsequence(r, s)
    ensures forall i :: 0 <= i < |r| ==> p(r[i])
    ensures forall i :: 0 <= i < |s| && p(s[i]) ==> s[i] in r
    ensures forall x :: multiset(r)[x] == if p(x) then multiset(s)[x] else 0
    ensures |r| <= |s|
  {
    if s == [] then []
    else
      assert s == [s[0]] + s[1..];
      if p(s[0]) then [s[0]] + Filter(s[1..], p)
      else Filter(s[1..], p)
  }

  /** A filter whose predicate holds everywhere keeps the whole sequence. */
  lemma {:induction false} FilterKeepsAll<T(!new)>(s: seq<T>, p: T -> bool)
    requires forall i :: 0 <= i < |s| ==> p(s[i])
    ensures Filter(s, p) == s
  {
    if s != [] {
      FilterKeepsAll(s[1..], p);
    }
  }

  /** `s.replace(/c/g, "")`: every occurrence of the character `c` removed. */
  function RemoveAll(s: string, c: char): (r: string)
    ensures c !in r
    ensures IsSubsequence(r, s)
    ensures forall i :: 0 <= i < |s| && s[i] != c ==> s[i] in r
    ensures forall x :: multiset(r)[x] == if x == c then 0 else multiset(s)[x]
  {
    Filter(s, (x: char) => x != c)
  }

  /** `s.trimStart()`. */
  function TrimStart(s: string): (r: string)
    ensures exists k :: 0 <= k <= |s| && r == s[k..] && forall i :: 0 <= i < k ==> IsWhiteSpace(s[i])
    ensures r != [] ==> !IsWhiteSpace(r[0])
  {
    if s != [] && IsWhiteSpace(s[0]) then
      var r := TrimStart(s[1..]);
      assert forall k :: 0 <= k <= |s| - 1 ==> s[1..][k..] == s[k + 1..];
      r
    else
      assert s == s[0..];
      s
  }

  /** `s.trimEnd()`. */
  function TrimEnd(s: string): (r: string)
    ensures exists k :: 0 <= k <= |s| && r == s[..k] && forall i :: k <= i < |s| ==> IsWhiteSpace(s[i])
    ensures r != [] ==> !IsWhiteSpace(r[|r| - 1])
  {
    if s != [] && IsWhiteSpace(s[|s| - 1]) then
      var t := s[..|s| - 1];
      var r := TrimEnd(t);
      var k :| 0 <= k <= |t| && r == t[..k] && forall i :: k <= i < |t| ==> IsWhiteSpace(t[i]);
      assert t[..k] == s[..k];
      r
    else
      assert s == s[..|s|];
      s
  }

  /** `s.trim()`: leading and trailing white space and line terminators removed. */
  function Trim(s: string): (r: string)
    ensures exists i, j ::
              && 0 <= i <= j <= |s| && r == s[i..j]
              && (forall k :: 0 <= k < i ==> IsWhiteSpace(s[k]))
              && (forall k :: j <= k < |s| ==> IsWhiteSpace(s[k]))
    ensures r != [] ==> !IsWhiteSpace(r[0]) && !IsWhiteSpace(r[|r| - 1])
  {
    var t := TrimStart(s);
    var r := TrimEnd(t);
    assert forall i, j :: 0 <= i <= |s| && 0 <= j <= |s| - i ==> s[i..][..j] == s[i..i + j];
    r
  }

  /** Every string contains the empty string. */
  lemma ContainsEmpty(hay: string)
    ensures Contains(hay, "")
  {
    assert OccursAt(hay, "", 0);
  }

  /** A string that contains `needle` is at least as long as it. */
  lemma ContainsLength(hay: string, needle: string)
    requires Contains(hay, needle)
    ensures |needle| <= |hay|
  {
  }
}
