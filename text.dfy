/**
 * Token normalisation: `String.toLowerCase` (on ASCII letters) and the
 * whole-string test `word.matches("^[a-zA-Z]+$")`.
 */
module Text {

  predicate IsAsciiLetter(c: char) {
    'a' <= c <= 'z' || 'A' <= c <= 'Z'
  }

  predicate IsLowerLetter(c: char) {
    'a' <= c <= 'z'
  }

  /** Lower-cases an ASCII capital; every other character is kept. */
  function ToLower(c: char): (r: char)
    ensures 'A' <= c <= 'Z' ==> r as int == c as int + 32
    ensures IsAsciiLetter(r) <==> IsAsciiLetter(c)
    ensures IsAsciiLetter(c) ==> IsLowerLetter(r)
    ensures !IsAsciiLetter(c) ==> r == c
    ensures IsLowerLetter(c) ==> r == c
  {
    if 'A' <= c <= 'Z' then (c as int + 32) as char else c
  }

  /** The token as `toLowerCase` returns it (ASCII case mapping only). */
  function Lowercase(s: string): (r: string)
    ensures |r| == |s|
    ensures forall i :: 0 <= i < |s| ==> r[i] == ToLower(s[i])
  {
    if s == [] then [] else [ToLower(s[0])] + Lowercase(s[1..])
  }

  /** `^[a-zA-Z]+$`: one or more ASCII letters and nothing else. */
  predicate MatchesLetters(w: string) {
    |w| > 0 && forall i :: 0 <= i < |w| ==> IsAsciiLetter(w[i])
  }

  /** The words that may be stored as keys: non-empty, lower-case ASCII letters only. */
  predicate IsIndexKey(w: string) {
    |w| > 0 && forall i :: 0 <= i < |w| ==> IsLowerLetter(w[i])
  }

  /** A token accepted after lower-casing is a well-formed key, and lower-casing it again changes nothing. */
  lemma AcceptedTokenIsKey(t: string)
    requires MatchesLetters(Lowercase(t))
    ensures IsIndexKey(Lowercase(t))
    ensures Lowercase(Lowercase(t)) == Lowercase(t)
  {
  }

  /** A token containing a character other than an ASCII letter is never accepted. */
  lemma NonLetterRejected(t: string, i: nat)
    requires i < |t| && !IsAsciiLetter(t[i])
    ensures !MatchesLetters(Lowercase(t))
  {
  }

  /** A well-formed key is its own lower-case form and passes the letters-only test. */
  lemma KeyIsLowercase(w: string)
    requires IsIndexKey(w)
    ensures Lowercase(w) == w && MatchesLetters(w)
  {
  }
}
