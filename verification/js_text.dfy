/**
 The part of JavaScript's string semantics the chat view relies on:
 `String.prototype.trim`, used to reject blank questions before they are sent.

 Strings are `seq<char>`. JavaScript strings are UTF-16, but every character
 `trim` removes lies in the Basic Multilingual Plane, so treating the string
 as a sequence of code points changes nothing about what is removed.
 */
module JsText {

  /** The ECMAScript WhiteSpace and LineTerminator code points: exactly the
      characters `trim` strips from both ends. */
  predicate IsJsWhitespace(c: char) {
    var n := c as int;
    || n == 0x09 || n == 0x0A || n == 0x0B || n == 0x0C || n == 0x0D
    || n == 0x20 || n == 0xA0 || n == 0x1680
    || (0x2000 <= n <= 0x200A)
    || n == 0x2028 || n == 0x2029 || n == 0x202F || n == 0x205F
    || n == 0x3000 || n == 0xFEFF
  }

  /** A string that `trim` reduces to the empty string, i.e. one made of
      whitespace only (the empty string included). */
  predicate IsBlank(s: string) {
    forall i :: 0 <= i < |s| ==> IsJsWhitespace(s[i])
  }

  /** The index of the first non-whitespace character of `s` at or after
      `from`, or `|s|` when there is none. */
  function SkipLeading(s: string, from: nat): (k: nat)
    requires from <= |s|
    ensures from <= k <= |s|
    ensures forall i :: from <= i < k ==> IsJsWhitespace(s[i])
    ensures k < |s| ==> !IsJsWhitespace(s[k])
    decreases |s| - from
  {
    if from < |s| && IsJsWhitespace(s[from]) then SkipLeading(s, from + 1) else from
  }

  /** Scanning back from `end`, the end of the last non-whitespace character
      of `s` at or after `lo`, or `lo` when there is none. */
  function SkipTrailing(s: string, lo: nat, end: nat): (h: nat)
    requires lo <= end <= |s|
    ensures lo <= h <= end
    ensures forall i :: h <= i < end ==> IsJsWhitespace(s[i])
    ensures h > lo ==> !IsJsWhitespace(s[h - 1])
    decreases end
  {
    if end > lo && IsJsWhitespace(s[end - 1]) then SkipTrailing(s, lo, end - 1) else end
  }

  /** `r` is the slice of `s` starting at `k`, and every character of `s`
      outside that slice is whitespace. */
  predicate IsTrimmedSlice(s: string, k: nat, r: string)
    requires k + |r| <= |s|
  {
    && r == s[k..k + |r|]
    && (forall i :: 0 <= i < k ==> IsJsWhitespace(s[i]))
    && (forall i :: k + |r| <= i < |s| ==> IsJsWhitespace(s[i]))
  }

  /** `s.trim()`: the slice of `s` left after removing whitespace at both
      ends. It is empty exactly when `s` is blank, and otherwise neither
      starts nor ends with whitespace. */
  function Trim(s: string): (r: string)
    ensures exists k :: 0 <= k <= |s| - |r| && IsTrimmedSlice(s, k, r)
    ensures r == [] <==> IsBlank(s)
    ensures r != [] ==> !IsJsWhitespace(r[0]) && !IsJsWhitespace(r[|r| - 1])
  {
    var lo := SkipLeading(s, 0);
    var hi := SkipTrailing(s, lo, |s|);
    assert IsTrimmedSlice(s, lo, s[lo..hi]);
    assert hi == lo ==> IsBlank(s);
    s[lo..hi]
  }

  /** Trimming a second time removes nothing more. */
  lemma TrimIdempotent(s: string)
    ensures Trim(Trim(s)) == Trim(s)
  {
    var r := Trim(s);
    if r != [] {
      assert SkipLeading(r, 0) == 0;
      assert SkipTrailing(r, 0, |r|) == |r|;
    }
  }
}
