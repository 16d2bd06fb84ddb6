/**
 * String operations the identity check uses: `str::to_lowercase` on the
 * candidate's names and `str::contains` for substring search.
 */
module Text {

  /** Upper-case letters of ASCII and Latin-1 (except the multiplication sign). */
  predicate IsUpperLatin(c: char) {
    ('A' <= c <= 'Z') || ('\U{C0}' <= c <= '\U{DE}' && c != '\U{D7}')
  }

  /** Upper-case Vietnamese letters outside Latin-1; each lower-cases to the next code point. */
  predicate IsUpperVietnamese(c: char) {
    c == '\U{102}' || c == '\U{110}' || c == '\U{128}' || c == '\U{168}'
    || c == '\U{1A0}' || c == '\U{1AF}'
    || ('\U{1EA0}' <= c <= '\U{1EF8}' && (c as int) % 2 == 0)
  }

  /** `char::to_lowercase` on the letters this model knows; every other character maps to itself. */
  function LowerChar(c: char): (r: char)
    ensures r != c <==> IsUpperLatin(c) || IsUpperVietnamese(c)
    ensures !IsUpperLatin(r) && !IsUpperVietnamese(r)
  {
    if IsUpperLatin(c) then (c as int + 32) as char
    else if IsUpperVietnamese(c) then (c as int + 1) as char
    else c
  }

  /** `str::to_lowercase`: character by character. */
  function Lower(s: string): (r: string)
    ensures |r| == |s|
    ensures forall i :: 0 <= i < |s| ==> r[i] == LowerChar(s[i])
  {
    if s == [] then [] else [LowerChar(s[0])] + Lower(s[1..])
  }

  /** A string that lower-casing leaves as it is. */
  predicate IsLower(s: string) {
    forall i :: 0 <= i < |s| ==> LowerChar(s[i]) == s[i]
  }

  predicate IsPrefix(p: string, s: string) {
    |p| <= |s| && s[..|p|] == p
  }

  /** `str::contains`: `needle` occurs somewhere in `hay` (the empty needle occurs everywhere). */
  predicate Contains(hay: string, needle: string) {
    exists i :: 0 <= i <= |hay| && IsPrefix(needle, hay[i..])
  }

  /** Lower-casing a second time changes nothing. */
  lemma LowerIdempotent(s: string)
    ensures Lower(Lower(s)) == Lower(s)
    ensures IsLower(Lower(s))
  {
  }


  /**
   * A lower-cased haystack can only contain a needle that is itself lower-case:
   * a needle with an upper-case letter is never found.
   */
  lemma LowerNeverContainsUpper(hay: string, needle: string)
    requires !IsLower(needle)
    ensures !Contains(Lower(hay), needle)
  {
  }

  /** The empty needle is found in every haystack. */
  lemma ContainsEmpty(hay: string)
    ensures Contains(hay, [])
  {
    assert IsPrefix([], hay[0..]);
  }
}
