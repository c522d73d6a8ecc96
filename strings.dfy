/** The two JavaScript string operations the product search relies on. */
module Strings {

  /** ASCII `toLowerCase` of one character. */
  function LowerChar(c: char): char {
    if 'A' <= c <= 'Z' then (c as int - 'A' as int + 'a' as int) as char else c
  }

  /**
   * Lowercasing, restricted to ASCII letters: the length is kept, every
   * capital letter becomes its small letter, everything else is kept, and no
   * capital letter remains.
   */
  function ToLower(s: string): (lowered: string)
    ensures |lowered| == |s|
    ensures forall i :: 0 <= i < |s| && 'A' <= s[i] <= 'Z' ==> lowered[i] as int == s[i] as int + 32
    ensures forall i :: 0 <= i < |s| && !('A' <= s[i] <= 'Z') ==> lowered[i] == s[i]
    ensures forall i :: 0 <= i < |lowered| ==> !('A' <= lowered[i] <= 'Z')
  {
    seq(|s|, i requires 0 <= i < |s| => LowerChar(s[i]))
  }

  /** Lowercasing twice is lowercasing once. */
  lemma ToLowerIdempotent(s: string)
    ensures ToLower(ToLower(s)) == ToLower(s)
  {
  }

  /** `sub` occurs in `s` starting at position `i`. */
  ghost predicate OccursAt(s: string, sub: string, i: int) {
    0 <= i && i + |sub| <= |s| && s[i..i + |sub|] == sub
  }

  lemma OccursShift(s: string, sub: string, i: int)
    requires s != [] && 0 <= i
    ensures OccursAt(s[1..], sub, i) <==> OccursAt(s, sub, i + 1)
  {
    if i + |sub| <= |s| - 1 {
      assert s[1..][i..i + |sub|] == s[i + 1..i + 1 + |sub|];
    }
  }

  lemma IncludesStep(s: string, sub: string)
    requires s != [] && !OccursAt(s, sub, 0)
    ensures (exists i :: OccursAt(s[1..], sub, i)) <==> (exists i :: OccursAt(s, sub, i))
  {
    if i :| OccursAt(s[1..], sub, i) {
      OccursShift(s, sub, i);
    }
    if j :| OccursAt(s, sub, j) {
      OccursShift(s, sub, j - 1);
    }
  }

  /** `s.includes(sub)`: `sub` occurs somewhere in `s` as a contiguous block. */
  function Includes(s: string, sub: string): (found: bool)
    ensures found <==> exists i :: OccursAt(s, sub, i)
    decreases |s|
  {
    if |sub| > |s| then false
    else if s[..|sub|] == sub then
      assert OccursAt(s, sub, 0);
      true
    else
      IncludesStep(s, sub);
      Includes(s[1..], sub)
  }
}
