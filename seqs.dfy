/** Order-preserving selection from a fixed list, and the facts the rules engine needs about it. */
module Seqs {

  /** The elements of `s` for which `keep` holds, in their order in `s`. */
  function Select<T(==,!new)>(s: seq<T>, keep: T -> bool): (r: seq<T>)
    ensures |r| <= |s|
  {
    if s == [] then []
    else (if keep(s[0]) then [s[0]] else []) + Select(s[1..], keep)
  }

  /** What selecting keeps: exactly the elements that satisfy `keep`. */
  lemma {:induction false} SelectMembers<T(!new)>(s: seq<T>, keep: T -> bool)
    ensures forall x :: x in Select(s, keep) <==> x in s && keep(x)
  {
    if s != [] {
      SelectMembers(s[1..], keep);
      assert s == [s[0]] + s[1..];
    }
  }

  /** Selecting from a list is deciding on its first element, then selecting from the rest. */
  lemma SelectCons<T(!new)>(x: T, s: seq<T>, keep: T -> bool)
    ensures Select([x] + s, keep) == (if keep(x) then [x] else []) + Select(s, keep)
  {
    assert ([x] + s)[0] == x && ([x] + s)[1..] == s;
  }

  /** Selecting from two lists one after the other is selecting from their concatenation. */
  lemma {:induction false} SelectAppend<T(!new)>(s: seq<T>, t: seq<T>, keep: T -> bool)
    ensures Select(s + t, keep) == Select(s, keep) + Select(t, keep)
  {
    if s == [] {
      assert s + t == t;
    } else {
      var head := if keep(s[0]) then [s[0]] else [];
      assert (s + t)[0] == s[0];
      assert (s + t)[1..] == s[1..] + t;
      calc {
        Select(s + t, keep);
        head + Select(s[1..] + t, keep);
        { SelectAppend(s[1..], t, keep); }
        head + (Select(s[1..], keep) + Select(t, keep));
        (head + Select(s[1..], keep)) + Select(t, keep);
        Select(s, keep) + Select(t, keep);
      }
    }
  }

  /** Concatenation is associative. */
  lemma AppendAssociative<T>(a: seq<T>, b: seq<T>, c: seq<T>)
    ensures a + (b + c) == (a + b) + c
  {
  }

  /** No element occurs twice. */
  ghost predicate Distinct<T>(s: seq<T>) {
    forall i, j :: 0 <= i < j < |s| ==> s[i] != s[j]
  }

  /** Every element ranks strictly below every later one. */
  ghost predicate Ascending<T>(s: seq<T>, rank: T -> int) {
    forall i, j :: 0 <= i < j < |s| ==> rank(s[i]) < rank(s[j])
  }

  /** Selecting keeps the relative order of what it keeps. */
  lemma {:induction false} SelectAscending<T(!new)>(s: seq<T>, keep: T -> bool, rank: T -> int)
    requires Ascending(s, rank)
    ensures Ascending(Select(s, keep), rank)
  {
    if s != [] {
      var rest := Select(s[1..], keep);
      SelectAscending(s[1..], keep, rank);
      SelectMembers(s[1..], keep);
      forall x | x in rest
        ensures rank(s[0]) < rank(x)
      {
        var k :| 0 <= k < |s[1..]| && s[1..][k] == x;
        assert s[k + 1] == x;
      }
      var r := Select(s, keep);
      assert r == (if keep(s[0]) then [s[0]] else []) + rest;
      forall i, j | 0 <= i < j < |r|
        ensures rank(r[i]) < rank(r[j])
      {
        if keep(s[0]) && i == 0 {
          assert r[j] == rest[j - 1];
          assert r[j] in rest;
        }
      }
    }
  }

  /** Selecting from a list without repeats gives a list without repeats. */
  lemma {:induction false} SelectDistinct<T(!new)>(s: seq<T>, keep: T -> bool)
    requires Distinct(s)
    ensures Distinct(Select(s, keep))
  {
    if s != [] {
      var rest := Select(s[1..], keep);
      SelectDistinct(s[1..], keep);
      SelectMembers(s[1..], keep);
      var r := Select(s, keep);
      assert r == (if keep(s[0]) then [s[0]] else []) + rest;
      forall i, j | 0 <= i < j < |r|
        ensures r[i] != r[j]
      {
        if keep(s[0]) && i == 0 {
          assert r[j] == rest[j - 1];
          assert r[j] in rest;
        }
      }
    }
  }

  /** A list without repeats has exactly as many elements as the set of its elements. */
  lemma {:induction false} DistinctCardinality<T>(s: seq<T>)
    requires Distinct(s)
    ensures |set x | x in s| == |s|
  {
    if s != [] {
      var tail := s[1..];
      assert Distinct(tail) by {
        forall i, j | 0 <= i < j < |tail| ensures tail[i] != tail[j] {
          assert tail[i] == s[i + 1] && tail[j] == s[j + 1];
        }
      }
      DistinctCardinality(tail);
      assert (set x | x in s) == {s[0]} + (set x | x in tail) by {
        assert s == [s[0]] + tail;
      }
    }
  }
}
