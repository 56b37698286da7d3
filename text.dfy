/**
 * The two string operations the bookkeeping rules use: `toLowerCase` for
 * the case-insensitive uniqueness checks and `includes` for grouping
 * account types in the reports.
 */
module Text {

  /** `toLowerCase` on one character, for the ASCII letters. */
  function LowerChar(c: char): char
  {
    if 'A' <= c <= 'Z' then (c as int + 32) as char else c
  }

  function Lower(s: string): (r: string)
    ensures |r| == |s|
  {
    if |s| == 0 then [] else [LowerChar(s[0])] + Lower(s[1..])
  }

  /** Equal once both sides are lower-cased. */
  predicate SameIgnoringCase(a: string, b: string)
  {
    Lower(a) == Lower(b)
  }

  /** `s.includes(p)`: `p` occurs in `s` at some position. */
  predicate Contains(s: string, p: string)
  {
    exists i :: 0 <= i <= |s| - |p| && OccursAt(s, p, i)
  }

  /** `p` is the slice of `s` starting at `i`. */
  predicate OccursAt(s: string, p: string, i: int)
    requires 0 <= i <= |s| - |p|
  {
    s[i..i + |p|] == p
  }

  /** A string that lacks one of the characters of `p` cannot contain `p`. */
  lemma LacksCharNotContains(s: string, p: string, c: char)
    requires c in p && c !in s
    ensures !Contains(s, p)
  {
    var k :| 0 <= k < |p| && p[k] == c;
    forall i | 0 <= i <= |s| - |p|
      ensures !OccursAt(s, p, i)
    {
      assert s[i..i + |p|][k] == s[i + k];
    }
  }

  lemma ContainsItself(p: string)
    ensures Contains(p, p)
  {
    assert OccursAt(p, p, 0);
  }

  /** Lower-casing keeps lengths, so strings of different lengths never collide. */
  lemma DifferentLengthsDiffer(a: string, b: string)
    requires |a| != |b|
    ensures !SameIgnoringCase(a, b)
  {
  }
}
