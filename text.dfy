/**
 * JavaScript's searches for a string pattern, shared by the dashboard and
 * the model viewer: `indexOf` and `includes`.
 */
module Text {
  /** Whether `pat` occurs in `s` starting at position `i`. */
  predicate OccursAt(s: string, pat: string, i: int)
  {
    0 <= i <= |s| - |pat| && s[i..i + |pat|] == pat
  }

  /** The first position from `from` on where `pat` occurs, or -1. */
  function IndexFrom(s: string, pat: string, from: nat): (i: int)
    ensures i == -1 || from <= i <= |s| - |pat|
    ensures i >= 0 ==> OccursAt(s, pat, i)
    ensures forall j :: from <= j && (i == -1 || j < i) ==> !OccursAt(s, pat, j)
    decreases |s| - from
  {
    if from + |pat| > |s| then -1
    else if s[from..from + |pat|] == pat then from
    else IndexFrom(s, pat, from + 1)
  }

  /** `s.indexOf(pat)`: the first position where `pat` occurs, or -1. */
  function IndexOf(s: string, pat: string): (i: int)
  {
    IndexFrom(s, pat, 0)
  }

  /** The first occurrence is the one with none before it. */
  lemma IndexOfIs(s: string, pat: string, i: int)
    requires OccursAt(s, pat, i)
    requires forall j :: 0 <= j < i ==> !OccursAt(s, pat, j)
    ensures IndexOf(s, pat) == i
  {
    var k := IndexOf(s, pat);
    assert k != -1 && !(k < i) && !(i < k);
  }

  /** `s.includes(pat)`: whether `pat` occurs anywhere in `s`, case-sensitively. */
  function Includes(s: string, pat: string): (b: bool)
    ensures b <==> exists i :: OccursAt(s, pat, i)
  {
    IndexOf(s, pat) != -1
  }
}
