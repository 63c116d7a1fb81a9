/**
 * Character-level helpers: the case folding that a JavaScript regular
 * expression with the `i` flag applies (restricted to ASCII letters), the
 * characters that `\s` matches, and case-insensitive substring tests.
 */
module Chars {

  /** Maps an upper-case ASCII letter to lower case; every other character is kept. */
  function Lower(c: char): char {
    if 'A' <= c <= 'Z' then (c as int + 32) as char else c
  }

  /** `a` and `b` are equal once ASCII letters are folded to lower case. */
  predicate EqualsFold(a: string, b: string) {
    |a| == |b| && forall k :: 0 <= k < |a| ==> Lower(a[k]) == Lower(b[k])
  }

  /** `s` ends with `suffix`, ignoring the case of ASCII letters. */
  predicate EndsWithFold(s: string, suffix: string) {
    |suffix| <= |s| && EqualsFold(s[|s| - |suffix|..], suffix)
  }

  /** `w` occurs somewhere in `s`, ignoring the case of ASCII letters. */
  predicate ContainsFold(s: string, w: string) {
    exists i | 0 <= i <= |s| - |w| :: OccursFoldAt(s, w, i)
  }

  /** `w` occurs in `s` at index `i`, ignoring the case of ASCII letters. */
  predicate OccursFoldAt(s: string, w: string, i: int) {
    0 <= i <= |s| - |w| && EqualsFold(s[i..i + |w|], w)
  }

  /** The characters matched by `\s` in a JavaScript regular expression. */
  predicate IsSpace(c: char) {
    || c == ' ' || c == '\t' || c == '\n' || c == '\r'
    || c == '\U{000B}' || c == '\U{000C}' || c == '\U{00A0}' || c == '\U{1680}'
    || ('\U{2000}' <= c <= '\U{200A}')
    || c == '\U{2028}' || c == '\U{2029}' || c == '\U{202F}' || c == '\U{205F}'
    || c == '\U{3000}' || c == '\U{FEFF}'
  }

  predicate AllSpace(s: string) {
    forall k :: 0 <= k < |s| ==> IsSpace(s[k])
  }
}
