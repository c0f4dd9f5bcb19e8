/** Small facts about sequences, shared by the component models. */
module Common {

  datatype Option<+T> = None | Some(value: T)

  /** No two positions of `s` hold the same element. */
  ghost predicate NoDup<T>(s: seq<T>) {
    forall i, j :: 0 <= i < j < |s| ==> s[i] != s[j]
  }

  /** The numbers 0, 1, ..., n-1. */
  ghost function Below(n: nat): (s: set<nat>)
    ensures |s| == n
    ensures forall k: nat :: k in s <==> k < n
  {
    if n == 0 then {} else Below(n - 1) + {n - 1}
  }

  ghost function Elements<T>(s: seq<T>): set<T> {
    set x | x in s
  }

  lemma {:induction false} NoDupSize<T>(s: seq<T>)
    requires NoDup(s)
    ensures |Elements(s)| == |s|
  {
    if s == [] {
      assert Elements(s) == {};
    } else {
      var front, last := s[..|s| - 1], s[|s| - 1];
      NoDupSize(front);
      assert s == front + [last];
      assert Elements(s) == Elements(front) + {last};
      assert last !in Elements(front);
    }
  }

  lemma LeastExists(s: set<nat>)
    requires s != {}
    ensures exists k :: k in s && forall j :: j in s ==> k <= j
  {
    var k :| k in s;
    LeastUpTo(s, k);
  }

  lemma {:induction false} LeastUpTo(s: set<nat>, k: nat)
    requires k in s
    ensures exists i :: i in s && forall j :: j in s ==> i <= j
    decreases k
  {
    if j :| j in s && j < k {
      LeastUpTo(s, j);
    }
  }

  lemma SubsetOfSameSize<T>(a: set<T>, b: set<T>)
    requires a <= b && |a| == |b|
    ensures a == b
  {
    assert b == a + (b - a);
    assert |b| == |a| + |b - a|;
  }

  /** n different numbers below n are all the numbers below n. */
  lemma Pigeonhole(s: seq<nat>, n: nat)
    requires NoDup(s) && |s| == n
    requires forall i :: 0 <= i < |s| ==> s[i] < n
    ensures forall k: nat :: k < n ==> k in s
  {
    NoDupSize(s);
    assert Elements(s) <= Below(n);
    SubsetOfSameSize(Elements(s), Below(n));
    forall k: nat | k < n ensures k in s {
      assert k in Below(n);
    }
  }
}
