/**
 * The JavaScript string operations the chat pipeline relies on:
 * `trim`, `toLowerCase`, `startsWith` and `substring(0, n)`.
 */
module Text {

  /** The characters ECMAScript's `String.prototype.trim` strips and the
      regular-expression class `\s` matches: WhiteSpace (tab, vertical tab,
      form feed, the byte-order mark and the Unicode space separators) and
      LineTerminator (line feed, carriage return, U+2028, U+2029). */
  predicate IsSpace(c: char) {
    || c == '\t' || c == '\n' || c == '\U{B}' || c == '\U{C}' || c == '\r'
    || c == ' ' || c == '\U{A0}' || c == '\U{1680}'
    || ('\U{2000}' <= c <= '\U{200A}')
    || c == '\U{2028}' || c == '\U{2029}' || c == '\U{202F}' || c == '\U{205F}'
    || c == '\U{3000}' || c == '\U{FEFF}'
  }

  /** Every character of `s` is white space (so `s` is falsy once trimmed). */
  predicate AllSpace(s: string) {
    forall k :: 0 <= k < |s| ==> IsSpace(s[k])
  }

  /** The index of the first character at or after `i` that is not white
      space, or `|s|` when there is none. */
  function SkipSpace(s: string, i: nat): (j: nat)
    requires i <= |s|
    ensures i <= j <= |s|
    ensures forall k :: i <= k < j ==> IsSpace(s[k])
    ensures j < |s| ==> !IsSpace(s[j])
    decreases |s| - i
  {
    if i < |s| && IsSpace(s[i]) then SkipSpace(s, i + 1) else i
  }

  /** The index just past the last character before `j`, and not before
      `lo`, that is not white space, or `lo` when there is none. */
  function SkipSpaceBack(s: string, lo: nat, j: nat): (i: nat)
    requires lo <= j <= |s|
    ensures lo <= i <= j
    ensures forall k :: i <= k < j ==> IsSpace(s[k])
    ensures lo < i ==> !IsSpace(s[i - 1])
    decreases j
  {
    if lo < j && IsSpace(s[j - 1]) then SkipSpaceBack(s, lo, j - 1) else j
  }

  /** `s.trim()`: what lies between the leading and the trailing white space. */
  function Trim(s: string): string {
    var lo := SkipSpace(s, 0);
    s[lo..SkipSpaceBack(s, lo, |s|)]
  }

  /** What `Trim` keeps: an infix of `s`, with only white space cut away on
      either side. */
  lemma TrimShape(s: string)
    ensures var r := Trim(s);
            exists i :: 0 <= i <= i + |r| <= |s| && r == s[i..i + |r|]
                        && AllSpace(s[..i]) && AllSpace(s[i + |r|..])
  {
    var lo := SkipSpace(s, 0);
    var hi := SkipSpaceBack(s, lo, |s|);
    assert Trim(s) == s[lo..hi];
    assert AllSpace(s[..lo]);
    assert AllSpace(s[hi..]);
  }

  /** The text `Trim` keeps neither starts nor ends with white space. */
  lemma TrimEnds(s: string)
    ensures Trim(s) == [] || (!IsSpace(Trim(s)[0]) && !IsSpace(Trim(s)[|Trim(s)| - 1]))
  {
    var lo := SkipSpace(s, 0);
    var hi := SkipSpaceBack(s, lo, |s|);
    var r := Trim(s);
    if r != [] {
      assert r[0] == s[lo] && r[|r| - 1] == s[hi - 1];
    }
  }

  /** The characters `Trim` keeps, in place. */
  lemma TrimChars(s: string)
    ensures SkipSpace(s, 0) + |Trim(s)| <= |s|
    ensures forall k :: 0 <= k < |Trim(s)| ==> Trim(s)[k] == s[SkipSpace(s, 0) + k]
  {
  }

  /** Trimming leaves nothing exactly when the string is all white space:
      the emptiness test `!input.trim()` of the send handler. */
  lemma TrimEmptyIffAllSpace(s: string)
    ensures Trim(s) == [] <==> AllSpace(s)
  {
    var lo := SkipSpace(s, 0);
    var hi := SkipSpaceBack(s, lo, |s|);
    if Trim(s) == [] {
      assert hi == lo;
    } else {
      assert s[lo] == Trim(s)[0];
    }
  }

  /** Text that neither starts nor ends with white space is its own trim. */
  lemma TrimKeepsTrimmed(s: string)
    requires s == [] || (!IsSpace(s[0]) && !IsSpace(s[|s| - 1]))
    ensures Trim(s) == s
  {
    assert SkipSpace(s, 0) == 0;
    assert SkipSpaceBack(s, 0, |s|) == |s|;
  }

  /** Trimming twice is trimming once. */
  lemma TrimIdempotent(s: string)
    ensures Trim(Trim(s)) == Trim(s)
  {
    TrimEnds(s);
    TrimKeepsTrimmed(Trim(s));
  }

  /** `x.trim()` ignores white space added around `x`. */
  lemma TrimIgnoresPadding(a: string, t: string, b: string)
    requires AllSpace(a) && AllSpace(b)
    ensures Trim(a + t + b) == Trim(t)
  {
    var u := a + t + b;
    var lt := SkipSpace(t, 0);
    if lt == |t| {
      PaddingKeepsAllSpace(a, t, b);
      TrimEmptyIffAllSpace(u);
      TrimEmptyIffAllSpace(t);
    } else {
      var ht := SkipSpaceBack(t, lt, |t|);
      PaddingShiftsStart(a, t, b);
      PaddingShiftsEnd(a, t, b);
      assert Trim(u) == u[|a| + lt..|a| + ht];
      MiddleSlice(a, t, b, lt, ht);
    }
  }

  /** A slice of the middle part of a concatenation. */
  lemma MiddleSlice(a: string, t: string, b: string, i: nat, j: nat)
    requires i <= j <= |t|
    ensures (a + t + b)[|a| + i..|a| + j] == t[i..j]
  {
  }

  /** White space around white space is white space. */
  lemma PaddingKeepsAllSpace(a: string, t: string, b: string)
    requires AllSpace(a) && AllSpace(b) && SkipSpace(t, 0) == |t|
    ensures AllSpace(a + t + b)
  {
    var u := a + t + b;
    forall k | 0 <= k < |u| ensures IsSpace(u[k]) {
      if k < |a| { assert u[k] == a[k]; }
      else if k < |a| + |t| { assert u[k] == t[k - |a|]; }
      else { assert u[k] == b[k - |a| - |t|]; }
    }
  }

  /** Leading padding moves the first non-space character by its length. */
  lemma PaddingShiftsStart(a: string, t: string, b: string)
    requires AllSpace(a) && SkipSpace(t, 0) < |t|
    ensures SkipSpace(a + t + b, 0) == |a| + SkipSpace(t, 0)
  {
    var u := a + t + b;
    var lt := SkipSpace(t, 0);
    forall k | 0 <= k < |a| + lt ensures IsSpace(u[k]) {
      if k < |a| { assert u[k] == a[k]; } else { assert u[k] == t[k - |a|]; }
    }
    assert u[|a| + lt] == t[lt];
  }

  /** Trailing padding does not move the end of the last non-space run. */
  lemma PaddingShiftsEnd(a: string, t: string, b: string)
    requires AllSpace(b) && SkipSpace(t, 0) < |t|
    ensures var lt := SkipSpace(t, 0);
            SkipSpaceBack(a + t + b, |a| + lt, |a + t + b|) == |a| + SkipSpaceBack(t, lt, |t|)
  {
    var u := a + t + b;
    var lt := SkipSpace(t, 0);
    var ht := SkipSpaceBack(t, lt, |t|);
    assert lt < ht;
    forall k | |a| + ht <= k < |u| ensures IsSpace(u[k]) {
      if k < |a| + |t| { assert u[k] == t[k - |a|]; } else { assert u[k] == b[k - |a| - |t|]; }
    }
    assert u[|a| + ht - 1] == t[ht - 1];
  }

  /** `toLowerCase` on one character, for the ASCII letters. */
  function LowerChar(c: char): (d: char)
    ensures 'A' <= c <= 'Z' ==> d as int == c as int + 32
    ensures !('A' <= c <= 'Z') ==> d == c
  {
    if 'A' <= c <= 'Z' then (c as int + 32) as char else c
  }

  /** `s.toLowerCase()` restricted to the ASCII letters: character by
      character, so the length is kept (full Unicode case mapping can
      lengthen a string; that is not modelled). */
  function ToLower(s: string): (r: string)
    ensures |r| == |s|
    ensures forall k :: 0 <= k < |s| ==> r[k] == LowerChar(s[k])
  {
    if s == [] then [] else [LowerChar(s[0])] + ToLower(s[1..])
  }

  /** Lower-casing is idempotent, so normalised text normalises to itself. */
  lemma ToLowerIdempotent(s: string)
    ensures ToLower(ToLower(s)) == ToLower(s)
  {
    var t := ToLower(s);
    assert forall k :: 0 <= k < |t| ==> ToLower(t)[k] == t[k];
  }

  /** Lower-casing works character by character, so it distributes over concatenation. */
  lemma ToLowerAppend(a: string, b: string)
    ensures ToLower(a + b) == ToLower(a) + ToLower(b)
  {
    assert forall k :: 0 <= k < |a + b| ==> ToLower(a + b)[k] == (ToLower(a) + ToLower(b))[k];
  }

  /** White space has no case. */
  lemma ToLowerKeepsSpace(a: string)
    requires AllSpace(a)
    ensures ToLower(a) == a
  {
    assert forall k :: 0 <= k < |a| ==> ToLower(a)[k] == a[k];
  }

  /** `s.startsWith(p)`. */
  predicate StartsWith(s: string, p: string) {
    |p| <= |s| && s[..|p|] == p
  }

  /** `startsWith` compares character by character from the start. */
  lemma StartsWithPointwise(s: string, p: string)
    ensures StartsWith(s, p) <==> |p| <= |s| && forall k :: 0 <= k < |p| ==> s[k] == p[k]
  {
    if |p| <= |s| && forall k :: 0 <= k < |p| ==> s[k] == p[k] {
      assert s[..|p|] == p;
    }
  }

  /** `s.substring(0, n)` for a non-negative `n`: at most the first `n` characters. */
  function Prefix(s: string, n: nat): (r: string)
    ensures |r| == if |s| < n then |s| else n
    ensures StartsWith(s, r)
  {
    if |s| < n then s else s[..n]
  }
}
