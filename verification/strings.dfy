/** String predicates shared by the Python and the TypeScript parts of the model. */
module Strings {

  /** `s.startswith(p)` in Python. */
  predicate HasPrefix(s: string, p: string)
  {
    |p| <= |s| && s[..|p|] == p
  }

  /** `hay.includes(needle)` in JavaScript, `needle in hay` in Python. */
  predicate IsSubstring(needle: string, hay: string)
  {
    exists i | 0 <= i <= |hay| :: OccursAt(needle, hay, i)
  }

  /** `needle` occurs in `hay` starting at index `i`. */
  predicate OccursAt(needle: string, hay: string, i: int)
  {
    0 <= i <= |hay| - |needle| && hay[i..i + |needle|] == needle
  }

  /** The empty string occurs in every string, and a string occurs in itself. */
  lemma SubstringBasics(s: string)
    ensures IsSubstring("", s)
    ensures IsSubstring(s, s)
  {
    assert OccursAt("", s, 0);
    assert OccursAt(s, s, 0);
  }
}
