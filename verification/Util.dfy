/** Small facts about sequences and finite sets shared by the other modules. */
module Util {

  datatype Option<+T> = None | Some(value: T)

  /** The code as it is, or with its slips in error handling put right. */
  datatype Variant = AsWritten | Repaired

  type byte = x: int | 0 <= x < 256

  ghost predicate NoDup<T>(s: seq<T>) {
    forall i, j :: 0 <= i < j < |s| ==> s[i] != s[j]
  }

  function Elems<T>(s: seq<T>): set<T> {
    set x | x in s
  }

  /** A duplicate-free sequence has as many elements as its set of elements. */
  lemma {:induction false} NoDupSize<T>(s: seq<T>)
    requires NoDup(s)
    ensures |Elems(s)| == |s|
  {
    if s != [] {
      var front, x := s[..|s| - 1], s[|s| - 1];
      NoDupSize(front);
      assert s == front + [x];
      assert Elems(s) == Elems(front) + {x};
    }
  }

  /** The set {0, .., n - 1}. */
  function Below(n: nat): (r: set<int>)
    ensures |r| == n
    ensures forall i :: i in r <==> 0 <= i < n
  {
    if n == 0 then {} else Below(n - 1) + {n - 1}
  }

  lemma SubsetSize<T>(a: set<T>, b: set<T>)
    requires a <= b
    ensures |a| <= |b|
    ensures |a| == |b| ==> a == b
  {
    assert b == a + (b - a);
  }

  /** Pigeonhole: distinct values below n number at most n, and exactly n only when all of them occur. */
  lemma Pigeonhole(s: seq<int>, n: nat)
    requires NoDup(s)
    requires forall i :: 0 <= i < |s| ==> 0 <= s[i] < n
    ensures |s| <= n
    ensures |s| == n ==> Elems(s) == Below(n)
  {
    NoDupSize(s);
    SubsetSize(Elems(s), Below(n));
  }

  /** Two duplicate-free sequences with the same elements have the same length. */
  lemma SameElemsSameSize<T>(s: seq<T>, t: seq<T>)
    requires NoDup(s) && NoDup(t)
    requires forall x :: x in s <==> x in t
    ensures |s| == |t|
  {
    NoDupSize(s);
    NoDupSize(t);
    assert Elems(s) == Elems(t);
  }

  /** A duplicate-free sequence inside another is no longer than it. */
  lemma SubElemsSize<T>(s: seq<T>, t: seq<T>)
    requires NoDup(s) && NoDup(t)
    requires forall x :: x in s ==> x in t
    ensures |s| <= |t|
    ensures |s| == |t| ==> forall x :: x in t ==> x in s
  {
    NoDupSize(s);
    NoDupSize(t);
    SubsetSize(Elems(s), Elems(t));
    if |s| == |t| {
      forall x | x in t ensures x in s {
        assert x in Elems(t);
      }
    }
  }

  /** A set of |a| members of s fills the first |a| places of s iff no non-member comes before a member. */
  lemma PrefixExact<T>(s: seq<T>, a: set<T>)
    requires NoDup(s) && forall x :: x in a ==> x in s
    ensures |a| <= |s|
    ensures (forall x :: x in s[..|a|] <==> x in a)
       <==> (forall i, j :: 0 <= i < j < |s| && s[j] in a ==> s[i] in a)
  {
    NoDupSize(s);
    SubsetSize(a, Elems(s));
    var k := |a|;
    if forall x :: x in s[..k] <==> x in a {
      forall i, j | 0 <= i < j < |s| && s[j] in a ensures s[i] in a {
        assert s[j] in s[..k];
        assert s[i] in s[..k];
      }
    }
    if forall i, j :: 0 <= i < j < |s| && s[j] in a ==> s[i] in a {
      forall x | x in a ensures x in s[..k] {
        var j :| 0 <= j < |s| && s[j] == x;
        NoDupSize(s[..j + 1]);
        SubsetSize(Elems(s[..j + 1]), a);
      }
      NoDupSize(s[..k]);
      SubsetSize(a, Elems(s[..k]));
      assert Elems(s[..k]) == a;
      forall x | x in s[..k] ensures x in a { assert x in Elems(s[..k]); }
    }
  }
}
