/** The two string operations the bias rules use: lower-casing and substring search. */
module Text {

  /** Lower-cases one ASCII upper-case letter; every other character is returned as is. */
  function LowerChar(c: char): char {
    if 'A' <= c <= 'Z' then (c as int + 32) as char else c
  }

  /** The string with every letter lower-cased, as Python's `str.lower` does on ASCII text. */
  function Lower(s: string): (r: string)
    ensures |r| == |s|
    ensures forall i :: 0 <= i < |s| ==> r[i] == LowerChar(s[i])
  {
    if s == [] then [] else [LowerChar(s[0])] + Lower(s[1..])
  }

  /** Python's `p in s` on strings: `p` occurs somewhere in `s` as a contiguous block. */
  predicate Contains(s: string, p: string)
    decreases |s|
  {
    |p| <= |s| && (s[..|p|] == p || Contains(s[1..], p))
  }

  /** `p` occurs in `s` starting at index `i`. */
  predicate OccursAt(s: string, p: string, i: int) {
    0 <= i && i + |p| <= |s| && s[i..i + |p|] == p
  }

  /** The recursive search finds `p` exactly when `p` starts at some index of `s`. */
  lemma {:induction false} ContainsAt(s: string, p: string)
    ensures Contains(s, p) <==> exists i :: OccursAt(s, p, i)
    decreases |s|
  {
    if |p| <= |s| && s == [] {
      assert OccursAt(s, p, 0);
    } else if |p| <= |s| {
      ContainsAt(s[1..], p);
      if Contains(s, p) {
        if s[..|p|] == p {
          assert OccursAt(s, p, 0);
        } else {
          var i :| OccursAt(s[1..], p, i);
          assert s[i + 1..i + 1 + |p|] == s[1..][i..i + |p|];
          assert OccursAt(s, p, i + 1);
        }
      }
      if exists i :: OccursAt(s, p, i) {
        var i :| OccursAt(s, p, i);
        if i > 0 {
          var t := s[1..];
          var a, b := s[i..i + |p|], t[i - 1..i - 1 + |p|];
          assert forall k :: 0 <= k < |p| ==> a[k] == b[k];
          assert a == b;
          assert OccursAt(t, p, i - 1);
        }
      }
    }
  }
}
