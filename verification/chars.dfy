/**
 * Character classes and case mapping as the application uses them.
 * `String.prototype.toLowerCase` / `toUpperCase` are modelled on the ASCII
 * letters only; every other character is left as it is.
 */
module Chars {

  predicate IsUpper(c: char) { 'A' <= c <= 'Z' }

  predicate IsLower(c: char) { 'a' <= c <= 'z' }

  /** The regular-expression class `[a-zA-Z]`. */
  predicate IsAsciiLetter(c: char) { IsUpper(c) || IsLower(c) }

  /**
   * The regular-expression class `\s` of ECMAScript: the WhiteSpace and
   * LineTerminator code points (TAB, LF, VT, FF, CR, SPACE, NBSP, the
   * Unicode space separators, LS, PS and the byte-order mark).
   */
  predicate IsJsWhitespace(c: char) {
    || '\t' <= c <= '\r'
    || c == ' '
    || c == '\U{A0}'
    || c == '\U{1680}'
    || '\U{2000}' <= c <= '\U{200A}'
    || c == '\U{2028}'
    || c == '\U{2029}'
    || c == '\U{202F}'
    || c == '\U{205F}'
    || c == '\U{3000}'
    || c == '\U{FEFF}'
  }

  function ToLowerChar(c: char): (r: char)
    ensures IsUpper(c) ==> IsLower(r)
    ensures !IsUpper(c) ==> r == c
    ensures !IsUpper(r)
  {
    if IsUpper(c) then (c as int - 'A' as int + 'a' as int) as char else c
  }

  function ToUpperChar(c: char): (r: char)
    ensures IsLower(c) ==> IsUpper(r)
    ensures !IsLower(c) ==> r == c
    ensures !IsLower(r)
  {
    if IsLower(c) then (c as int - 'a' as int + 'A' as int) as char else c
  }

  /** Two letters that agree up to case and agree on being upper case are equal. */
  lemma LettersEqual(a: char, b: char)
    requires IsAsciiLetter(a) && IsAsciiLetter(b)
    requires ToLowerChar(a) == ToLowerChar(b)
    requires IsUpper(a) <==> IsUpper(b)
    ensures a == b
  {
  }

  /** `s.toLowerCase()`, on ASCII letters. */
  function Lower(s: string): (r: string)
    ensures |r| == |s|
    ensures forall i :: 0 <= i < |r| ==> !IsUpper(r[i])
  {
    seq(|s|, i requires 0 <= i < |s| => ToLowerChar(s[i]))
  }

  /** `a` and `b` differ at most in the case of their letters. */
  predicate SameIgnoringCase(a: string, b: string) {
    && |a| == |b|
    && forall i :: 0 <= i < |a| ==>
         a[i] == b[i] || (IsAsciiLetter(a[i]) && ToLowerChar(a[i]) == ToLowerChar(b[i]))
  }

  /** Lower-casing identifies exactly the strings that differ only in letter case. */
  lemma LowerEqualIff(a: string, b: string)
    ensures Lower(a) == Lower(b) <==> SameIgnoringCase(a, b)
  {
    if Lower(a) == Lower(b) {
      forall i | 0 <= i < |a|
        ensures a[i] == b[i] || (IsAsciiLetter(a[i]) && ToLowerChar(a[i]) == ToLowerChar(b[i]))
      {
        assert Lower(a)[i] == Lower(b)[i];
      }
    }
    if SameIgnoringCase(a, b) {
      assert forall i :: 0 <= i < |a| ==> Lower(a)[i] == Lower(b)[i];
    }
  }
}
