/** Facts about sequences used as lists of distinct keys. */
module Seqs {

  /** No element occurs twice (each list element is a distinct dictionary key). */
  predicate NoDups<T(==)>(s: seq<T>)
  {
    forall i, j :: 0 <= i < j < |s| ==> s[i] != s[j]
  }

  /** The set of elements of a list. */
  function Elems<T>(s: seq<T>): set<T>
  {
    set x | x in s
  }

  /** A list has at least as many entries as distinct elements, and exactly as many
      precisely when it has no duplicates. */
  lemma {:induction false} DistinctCard<T>(s: seq<T>)
    ensures |Elems(s)| <= |s|
    ensures NoDups(s) <==> |Elems(s)| == |s|
  {
    if s != [] {
      var init, x := s[..|s| - 1], s[|s| - 1];
      assert s == init + [x];
      DistinctCard(init);
      assert Elems(s) == Elems(init) + {x};
      if x in init {
        assert Elems(s) == Elems(init);
        var k :| 0 <= k < |init| && init[k] == x;
        assert s[k] == s[|s| - 1];
      } else {
        assert NoDups(s) <==> NoDups(init);
      }
    }
  }

  /** The elements at positions lo .. hi-1 of a duplicate-free list are hi - lo distinct values. */
  lemma RangeImageCard<T>(s: seq<T>, lo: nat, hi: nat)
    requires NoDups(s) && lo <= hi <= |s|
    ensures |set j | lo <= j < hi :: s[j]| == hi - lo
  {
    var part := s[lo..hi];
    assert (set j | lo <= j < hi :: s[j]) == Elems(part) by {
      forall x | x in Elems(part) ensures x in (set j | lo <= j < hi :: s[j]) {
        var k :| 0 <= k < |part| && part[k] == x;
        assert s[lo + k] == x;
      }
    }
    assert NoDups(part);
    DistinctCard(part);
  }

  /** A permutation of a duplicate-free list is duplicate-free and has the same elements. */
  lemma PermutationKeepsElems<T>(a: seq<T>, b: seq<T>)
    requires multiset(a) == multiset(b)
    ensures Elems(a) == Elems(b)
    ensures NoDups(a) ==> NoDups(b)
  {
    assert forall x :: x in a <==> x in multiset(a);
    assert forall x :: x in b <==> x in multiset(b);
    assert |a| == |multiset(a)| == |multiset(b)| == |b|;
    DistinctCard(a);
    DistinctCard(b);
  }

  /** A subset has at most as many elements. */
  lemma SubsetCard<T>(a: set<T>, b: set<T>)
    requires a <= b
    ensures |a| <= |b|
  {
    assert b == a + (b - a);
    assert a * (b - a) == {};
  }

  /** A prefix one longer is the shorter prefix and the next entry. */
  lemma PrefixExtend<T>(s: seq<T>, n: nat)
    requires 0 < n <= |s|
    ensures s[..n] == s[..n - 1] + [s[n - 1]]
  {
  }
}
