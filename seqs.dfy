/** Order-preserving operations on Python lists of string ids. */
module Seqs {

  /** No element occurs twice. */
  predicate Distinct(s: seq<string>)
  {
    forall i, j | 0 <= i < j < |s| :: s[i] != s[j]
  }

  /** The elements of a list, as a set. */
  function Elems(s: seq<string>): set<string>
  {
    set x | x in s
  }

  /** `s` with every element of `gone` dropped, the rest in their order. */
  function Without(s: seq<string>, gone: set<string>): (r: seq<string>)
    ensures |r| <= |s|
  {
    if s == [] then []
    else Without(s[..|s| - 1], gone) + (if s[|s| - 1] in gone then [] else [s[|s| - 1]])
  }

  /** What `Without` keeps. */
  lemma {:induction false} WithoutMembers(s: seq<string>, gone: set<string>)
    ensures forall x :: x in Without(s, gone) <==> x in s && x !in gone
  {
    if s != [] {
      WithoutMembers(s[..|s| - 1], gone);
      assert s == s[..|s| - 1] + [s[|s| - 1]];
    }
  }

  /** The elements of `s` that belong to `keep`, in their order. */
  function Select(s: seq<string>, keep: set<string>): seq<string>
  {
    if s == [] then []
    else Select(s[..|s| - 1], keep) + (if s[|s| - 1] in keep then [s[|s| - 1]] else [])
  }

  /** What `Select` keeps. */
  lemma {:induction false} SelectMembers(s: seq<string>, keep: set<string>)
    ensures forall x :: x in Select(s, keep) <==> x in s && x in keep
  {
    if s != [] {
      SelectMembers(s[..|s| - 1], keep);
      assert s == s[..|s| - 1] + [s[|s| - 1]];
    }
  }

  /** Python's `list.remove(x)`: drops the first occurrence of `x`. */
  function RemoveFirst(s: seq<string>, x: string): (r: seq<string>)
    requires x in s
    ensures |r| == |s| - 1
    ensures multiset(r) == multiset(s) - multiset{x}
  {
    if s[0] == x then
      assert s == [s[0]] + s[1..];
      s[1..]
    else
      assert s == [s[0]] + s[1..];
      [s[0]] + RemoveFirst(s[1..], x)
  }

  /** In a duplicate-free list, removing the first occurrence removes every occurrence. */
  lemma {:induction false} RemoveFirstIsWithout(s: seq<string>, x: string)
    requires x in s && Distinct(s)
    ensures RemoveFirst(s, x) == Without(s, {x})
  {
    assert s == [s[0]] + s[1..];
    WithoutCons(s[0], s[1..], {x});
    if s[0] == x {
      WithoutNothing(s[1..], {x});
    } else {
      RemoveFirstIsWithout(s[1..], x);
    }
  }

  /** Filtering the front element separately. */
  lemma {:induction false} WithoutCons(y: string, s: seq<string>, gone: set<string>)
    ensures Without([y] + s, gone) == (if y in gone then [] else [y]) + Without(s, gone)
    decreases |s|
  {
    var h := if y in gone then [] else [y];
    if s == [] {
      assert [y] + s == [y];
      assert [y][..0] == [];
      assert Without([y], gone) == Without([], gone) + h;
    } else {
      var t := [y] + s;
      var p := s[..|s| - 1];
      var z := s[|s| - 1];
      var tl := if z in gone then [] else [z];
      assert t[..|t| - 1] == [y] + p;
      assert t[|t| - 1] == z;
      assert Without(t, gone) == Without([y] + p, gone) + tl;
      WithoutCons(y, p, gone);
      assert Without(s, gone) == Without(p, gone) + tl;
    }
  }

  /** Dropping elements the list does not hold leaves it as it is. */
  lemma {:induction false} WithoutNothing(s: seq<string>, gone: set<string>)
    requires forall x | x in s :: x !in gone
    ensures Without(s, gone) == s
  {
    if s != [] {
      WithoutNothing(s[..|s| - 1], gone);
      assert s == s[..|s| - 1] + [s[|s| - 1]];
    }
  }

  /** Filtering keeps a list duplicate-free. */
  lemma {:induction false} WithoutDistinct(s: seq<string>, gone: set<string>)
    requires Distinct(s)
    ensures Distinct(Without(s, gone))
  {
    if s != [] {
      var p := s[..|s| - 1];
      assert Distinct(p);
      WithoutDistinct(p, gone);
      WithoutMembers(p, gone);
      assert s[|s| - 1] !in p;
    }
  }

  /** Two filters in a row are one filter by the union. */
  lemma {:induction false} WithoutWithout(s: seq<string>, a: set<string>, b: set<string>)
    ensures Without(Without(s, a), b) == Without(s, a + b)
  {
    if s != [] {
      var p := s[..|s| - 1];
      var x := s[|s| - 1];
      WithoutWithout(p, a, b);
      var w := Without(p, a);
      if x in a {
        assert Without(s, a) == w;
        assert Without(s, a + b) == Without(p, a + b);
      } else {
        assert Without(s, a) == w + [x];
        assert (w + [x])[..|w + [x]| - 1] == w;
        assert Without(w + [x], b) == Without(w, b) + (if x in b then [] else [x]);
        assert Without(s, a + b) == Without(p, a + b) + (if x in b then [] else [x]);
      }
    }
  }

  /** A duplicate-free list has as many elements as its set. */
  lemma {:induction false} DistinctCard(s: seq<string>)
    requires Distinct(s)
    ensures |Elems(s)| == |s|
  {
    if s != [] {
      var p := s[..|s| - 1];
      var x := s[|s| - 1];
      assert Distinct(p);
      DistinctCard(p);
      assert x !in p;
      assert Elems(s) == Elems(p) + {x};
    }
  }

  /** Appending a new element keeps a list duplicate-free. */
  lemma DistinctAppend(s: seq<string>, x: string)
    ensures Distinct(s) && x !in s ==> Distinct(s + [x])
  {
  }

  /** The elements of a longer prefix. */
  lemma ElemsPrefix(s: seq<string>, j: nat)
    requires j < |s|
    ensures Elems(s[..j + 1]) == Elems(s[..j]) + {s[j]}
  {
    assert s[..j + 1] == s[..j] + [s[j]];
  }

  /** Selecting from a longer prefix. */
  lemma SelectPrefix(s: seq<string>, j: nat, keep: set<string>)
    requires j < |s|
    ensures Select(s[..j + 1], keep) == Select(s[..j], keep) + (if s[j] in keep then [s[j]] else [])
  {
    assert s[..j + 1][..j] == s[..j];
  }

  /** Selecting by a set that holds every element keeps the whole list. */
  lemma {:induction false} SelectAll(s: seq<string>, keep: set<string>)
    requires forall x | x in s :: x in keep
    ensures Select(s, keep) == s
  {
    if s != [] {
      SelectAll(s[..|s| - 1], keep);
      assert s == s[..|s| - 1] + [s[|s| - 1]];
    }
  }
}
