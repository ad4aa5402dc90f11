/** The JavaScript string operations the slices and the register form rely on. */
module Strings {

  /** ECMAScript white space and line terminators: the characters `String.prototype.trim`
      strips and the regular-expression class `\s` matches (so `\S` is its complement). */
  predicate IsWhitespace(c: char) {
    || c == ' ' || c == '\t' || c == '\n' || c == '\r'
    || c == '\U{B}' || c == '\U{C}' || c == '\U{A0}' || c == '\U{1680}'
    || ('\U{2000}' <= c <= '\U{200A}')
    || c == '\U{2028}' || c == '\U{2029}' || c == '\U{202F}' || c == '\U{205F}'
    || c == '\U{3000}' || c == '\U{FEFF}'
  }

  /** Every character of `s` is white space (vacuously so for the empty string). */
  predicate IsBlank(s: string) {
    forall i :: 0 <= i < |s| ==> IsWhitespace(s[i])
  }

  /** `s` with its leading white space removed. */
  function TrimStart(s: string): (r: string)
    ensures |r| <= |s| && r == s[|s| - |r|..]
    ensures IsBlank(s[..|s| - |r|])
    ensures r == [] || !IsWhitespace(r[0])
  {
    if s != [] && IsWhitespace(s[0]) then TrimStart(s[1..]) else s
  }

  /** `s` with its trailing white space removed. */
  function TrimEnd(s: string): (r: string)
    ensures |r| <= |s| && r == s[..|r|]
    ensures IsBlank(s[|r|..])
    ensures r == [] || !IsWhitespace(r[|r| - 1])
  {
    if s != [] && IsWhitespace(s[|s| - 1]) then TrimEnd(s[..|s| - 1]) else s
  }

  /** `String.prototype.trim`. */
  function Trim(s: string): string {
    TrimEnd(TrimStart(s))
  }

  /** `s.trim()` is the empty string exactly when `s` is blank. */
  lemma TrimEmptyIffBlank(s: string)
    ensures Trim(s) == [] <==> IsBlank(s)
  {
    var t := TrimStart(s);
    if Trim(s) == [] {
      assert s[..|s|] == s;
    } else {
      assert t != [] && !IsWhitespace(t[0]);
      assert s[|s| - |t|] == t[0];
    }
  }

  /** ASCII upper-case letters mapped to lower case; every other character unchanged. */
  function LowerChar(c: char): (r: char)
    ensures 'A' <= c <= 'Z' ==> 'a' <= r <= 'z' && r as int == c as int + 32
    ensures !('A' <= c <= 'Z') ==> r == c
  {
    if 'A' <= c <= 'Z' then (c as int + 32) as char else c
  }

  /** `String.prototype.toLowerCase`, restricted to the ASCII letters. */
  function ToLower(s: string): (r: string)
    ensures |r| == |s|
    ensures forall i :: 0 <= i < |s| ==> r[i] == LowerChar(s[i])
  {
    if s == [] then [] else [LowerChar(s[0])] + ToLower(s[1..])
  }

  /** Lower-casing twice is lower-casing once. */
  lemma ToLowerIdempotent(s: string)
    ensures ToLower(ToLower(s)) == ToLower(s)
  {
    var once, twice := ToLower(s), ToLower(ToLower(s));
    assert forall i :: 0 <= i < |s| ==> twice[i] == LowerChar(once[i]) == once[i];
  }

  /** `hay.includes(needle)`: `needle` occurs in `hay` at some position. */
  predicate Includes(hay: string, needle: string) {
    exists i :: 0 <= i <= |hay| && needle <= hay[i..]
  }

  /** Every string includes the empty string. */
  lemma IncludesEmpty(hay: string)
    ensures Includes(hay, [])
  {
    assert [] <= hay[0..];
  }

  /** The position of the first `c` in `s`, or `|s|` when there is none. */
  function IndexOf(s: string, c: char): (k: nat)
    ensures k <= |s|
    ensures k < |s| ==> s[k] == c
    ensures forall i :: 0 <= i < k ==> s[i] != c
    ensures k == |s| <==> c !in s
  {
    if s == [] || s[0] == c then 0 else 1 + IndexOf(s[1..], c)
  }

  /** `s.replace(from, to)` with a one-character string pattern: the character at the
      position of the first `from` becomes `to`, every other character stays. */
  function ReplaceFirst(s: string, from: char, to: char): (r: string)
    ensures |r| == |s|
    ensures forall i :: 0 <= i < |s| ==> r[i] == if i == IndexOf(s, from) then to else s[i]
    ensures from !in s ==> r == s
  {
    var k := IndexOf(s, from);
    if k == |s| then s else s[..k] + [to] + s[k + 1..]
  }

  /** `ReplaceFirst` behind a prefix, in the two cases a caller tells apart. */
  lemma PrefixedReplaceFirst(prefix: string, s: string, from: char, to: char)
    ensures |prefix + ReplaceFirst(s, from, to)| == |prefix| + |s|
    ensures (prefix + ReplaceFirst(s, from, to))[..|prefix|] == prefix
    ensures from !in s ==> prefix + ReplaceFirst(s, from, to) == prefix + s
    ensures from in s ==>
              var k := IndexOf(s, from);
              prefix + ReplaceFirst(s, from, to) == prefix + s[..k] + [to] + s[k + 1..]
  {
    PrefixOfConcat(prefix, ReplaceFirst(s, from, to));
    if from in s {
      ReplaceFirstSplices(s, from, to);
      var k := IndexOf(s, from);
      ConcatAssociates(prefix, s[..k], [to], s[k + 1..]);
    }
  }

  /** With a `from` present, `to` is spliced in at the position of the first one. */
  lemma ReplaceFirstSplices(s: string, from: char, to: char)
    requires from in s
    ensures var k := IndexOf(s, from);
            k < |s| && ReplaceFirst(s, from, to) == s[..k] + [to] + s[k + 1..]
  {
  }

  /** A concatenation starts with its left operand. */
  lemma PrefixOfConcat<T>(p: seq<T>, t: seq<T>)
    ensures (p + t)[..|p|] == p
  {
    assert forall i :: 0 <= i < |p| ==> (p + t)[i] == p[i];
  }

  /** Concatenation regroups freely. */
  lemma ConcatAssociates<T>(p: seq<T>, a: seq<T>, b: seq<T>, c: seq<T>)
    ensures p + (a + b + c) == p + a + b + c
  {
  }

  /** The value of JavaScript's `length`: code points above U+FFFF count as two
      UTF-16 code units. */
  function Utf16Length(s: string): (n: nat)
    ensures |s| <= n <= 2 * |s|
    ensures (forall i :: 0 <= i < |s| ==> s[i] as int <= 0xFFFF) ==> n == |s|
  {
    if s == [] then 0 else (if s[0] as int > 0xFFFF then 2 else 1) + Utf16Length(s[1..])
  }
}
