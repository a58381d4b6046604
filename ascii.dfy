/**
 * Upper-casing as `strings.ToUpper` does it on ASCII text: the letters a-z
 * become A-Z and every other character is kept.
 */
module Ascii {

  predicate IsLower(c: char) {
    'a' <= c <= 'z'
  }

  /** A string with no lower-case ASCII letter in it. */
  predicate NoLower(s: string) {
    forall i :: 0 <= i < |s| ==> !IsLower(s[i])
  }

  function UpperChar(c: char): (u: char)
    ensures !IsLower(u)
  {
    if IsLower(c) then (c as int - 32) as char else c
  }

  /** Two characters that are the same letter up to ASCII case. */
  predicate SameLetter(c: char, d: char) {
    || c == d
    || (IsLower(c) && d as int == c as int - 32)
    || (IsLower(d) && c as int == d as int - 32)
  }

  /** Two strings that are equal once ASCII case is ignored. */
  predicate EqualIgnoringCase(a: string, b: string) {
    |a| == |b| && forall i :: 0 <= i < |a| ==> SameLetter(a[i], b[i])
  }

  /** `strings.ToUpper` restricted to ASCII: position by position, each character upper-cased. */
  function ToUpper(s: string): (r: string)
    ensures |r| == |s|
    ensures forall i :: 0 <= i < |s| ==> r[i] == UpperChar(s[i])
  {
    if s == [] then [] else [UpperChar(s[0])] + ToUpper(s[1..])
  }

  lemma UpperCharAgrees(c: char, d: char)
    ensures UpperChar(c) == UpperChar(d) <==> SameLetter(c, d)
  {
  }

  /** Upper-case text is left as it is. */
  lemma ToUpperFixesUpperCase(s: string)
    requires NoLower(s)
    ensures ToUpper(s) == s
  {
  }

  /** The result of ToUpper has no lower-case letter, so a second application changes nothing. */
  lemma ToUpperIdempotent(s: string)
    ensures NoLower(ToUpper(s))
    ensures ToUpper(ToUpper(s)) == ToUpper(s)
  {
    ToUpperFixesUpperCase(ToUpper(s));
  }

  /** Two strings upper-case to the same text exactly when they are equal ignoring case. */
  lemma ToUpperEqualIff(a: string, b: string)
    ensures ToUpper(a) == ToUpper(b) <==> EqualIgnoringCase(a, b)
  {
    if ToUpper(a) == ToUpper(b) {
      forall i | 0 <= i < |a| ensures SameLetter(a[i], b[i]) {
        assert ToUpper(a)[i] == ToUpper(b)[i];
        UpperCharAgrees(a[i], b[i]);
      }
    }
    if EqualIgnoringCase(a, b) {
      forall i | 0 <= i < |a| ensures ToUpper(a)[i] == ToUpper(b)[i] {
        UpperCharAgrees(a[i], b[i]);
      }
    }
  }
}
