/** Character classes and scanning over the text of a C string, shared by
    the lexer and the numeric conversions. */
module Chars {

  predicate NulFree(s: string) { forall k :: 0 <= k < |s| ==> s[k] != '\0' }

  /** Text is a C string of bytes: each character stands for one byte, so
      a length in characters is the length strlen and malloc count. */
  predicate Bytes(s: string) { forall k :: 0 <= k < |s| ==> s[k] <= '\U{FF}' }

  /** The character at `k`, or the terminating NUL at and past the end. */
  function At(s: string, k: nat): char
  {
    if k < |s| then s[k] else '\0'
  }

  /** The C-locale classes: ASCII only. */
  predicate IsDigit(c: char) { '0' <= c <= '9' }
  predicate IsAlpha(c: char) { 'a' <= c <= 'z' || 'A' <= c <= 'Z' }
  predicate IsWordChar(c: char) { IsAlpha(c) || IsDigit(c) || c == '_' }
  predicate IsSpace(c: char) { c == ' ' || c == '\t' || c == '\n' || c == '\r' || c == '\U{B}' || c == '\U{C}' }

  predicate AllDigits(w: string) { forall k :: 0 <= k < |w| ==> IsDigit(w[k]) }

  /** The end of the run of digits starting at `i`. */
  function DigitsEnd(s: string, i: nat): (j: nat)
    requires i <= |s|
    ensures i <= j <= |s|
    ensures forall k :: i <= k < j ==> IsDigit(s[k])
    ensures j == |s| || !IsDigit(s[j])
    decreases |s| - i
  {
    if i < |s| && IsDigit(s[i]) then DigitsEnd(s, i + 1) else i
  }

  /** The end of the run of white space starting at `i`. */
  function SpaceEnd(s: string, i: nat): (j: nat)
    requires i <= |s|
    ensures i <= j <= |s|
    ensures forall k :: i <= k < j ==> IsSpace(s[k])
    ensures j == |s| || !IsSpace(s[j])
    decreases |s| - i
  {
    if i < |s| && IsSpace(s[i]) then SpaceEnd(s, i + 1) else i
  }

  lemma SliceJoin(s: string, i: nat, j: nat, k: nat)
    requires i <= j <= k <= |s|
    ensures s[i..j] + s[j..k] == s[i..k]
  {
  }

  /** A slice lying inside a digit run is all digits. */
  lemma DigitSlice(s: string, i: nat, j: nat)
    requires i <= j <= |s| && forall k :: i <= k < j ==> IsDigit(s[k])
    ensures AllDigits(s[i..j])
  {
  }
}
