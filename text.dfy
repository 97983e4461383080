/** The parts of Kotlin's string library the app relies on: `isWhitespace`,
    `isBlank`, `isNullOrBlank` and `trim`. */
module KotlinText {
  import opened Wrappers

  /** Kotlin's `Char.isWhitespace()` on the JVM: Java whitespace or a Unicode
      space separator (categories Zs, Zl and Zp). */
  predicate IsWhitespace(c: char) {
    || ('\U{0009}' <= c <= '\U{000D}')
    || ('\U{001C}' <= c <= '\U{0020}')
    || c == '\U{00A0}' || c == '\U{1680}'
    || ('\U{2000}' <= c <= '\U{200A}')
    || c == '\U{2028}' || c == '\U{2029}' || c == '\U{202F}' || c == '\U{205F}' || c == '\U{3000}'
  }

  predicate IsBlank(s: string) {
    forall i :: 0 <= i < |s| ==> IsWhitespace(s[i])
  }

  /** A string with nothing to trim: empty, or non-blank at both ends. */
  predicate IsTrimmed(s: string) {
    s == [] || (!IsWhitespace(s[0]) && !IsWhitespace(s[|s| - 1]))
  }

  /** The first position at or after `from` that is not whitespace. */
  function SkipLeading(s: string, from: nat): (i: nat)
    requires from <= |s|
    requires forall k :: 0 <= k < from ==> IsWhitespace(s[k])
    ensures from <= i <= |s|
    ensures forall k :: 0 <= k < i ==> IsWhitespace(s[k])
    ensures i < |s| ==> !IsWhitespace(s[i])
    decreases |s| - from
  {
    if from == |s| || !IsWhitespace(s[from]) then from else SkipLeading(s, from + 1)
  }

  /** The end of `s[lo..upTo]` once its trailing whitespace is dropped. */
  function SkipTrailing(s: string, lo: nat, upTo: nat): (j: nat)
    requires lo <= upTo <= |s|
    requires forall k :: upTo <= k < |s| ==> IsWhitespace(s[k])
    ensures lo <= j <= upTo
    ensures forall k :: j <= k < |s| ==> IsWhitespace(s[k])
    ensures j > lo ==> !IsWhitespace(s[j - 1])
    decreases upTo
  {
    if upTo == lo || !IsWhitespace(s[upTo - 1]) then upTo else SkipTrailing(s, lo, upTo - 1)
  }

  /** `trim()`: the string with its whitespace at both ends removed. */
  function Trim(s: string): (r: string)
    ensures IsTrimmed(r)
    ensures exists i, j ::
      && 0 <= i <= j <= |s| && r == s[i..j]
      && (forall k :: 0 <= k < i ==> IsWhitespace(s[k]))
      && (forall k :: j <= k < |s| ==> IsWhitespace(s[k]))
  {
    var i := SkipLeading(s, 0);
    var j := SkipTrailing(s, i, |s|);
    assert j > i ==> s[i..j][0] == s[i] && s[i..j][j - i - 1] == s[j - 1];
    s[i..j]
  }

  /** A string with nothing to trim is its own trim. */
  lemma TrimKeepsTrimmed(s: string)
    requires IsTrimmed(s)
    ensures Trim(s) == s
  {
    var i := SkipLeading(s, 0);
    var j := SkipTrailing(s, i, |s|);
    assert i == 0;
    assert j == |s|;
  }

  lemma TrimIdempotent(s: string)
    ensures Trim(Trim(s)) == Trim(s)
  {
    TrimKeepsTrimmed(Trim(s));
  }

  /** The trimmed text is empty exactly when the text was blank. */
  lemma TrimEmptyIffBlank(s: string)
    ensures Trim(s) == [] <==> IsBlank(s)
    ensures IsBlank(Trim(s)) <==> Trim(s) == []
  {
    var i := SkipLeading(s, 0);
    var j := SkipTrailing(s, i, |s|);
    assert Trim(s) == s[i..j];
  }

  /** `isNullOrBlank()` on a `String?`. */
  predicate IsNullOrBlank(s: Option<string>) {
    s.None? || IsBlank(s.value)
  }
}
