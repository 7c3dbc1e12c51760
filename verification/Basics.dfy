/** Small shared vocabulary: constants, options, and duplicate-free sequences of ports. */
module Basics {

  const SECOND := 1000000000                 // times are in nanoseconds
  const MAX_PORT_BIND_RETRIES := 3
  const SEND_CHANNEL_BUFFER := 100           // of the server's connections and of the agent alike

  datatype Option<+T> = None | Some(value: T)

  function Min(a: int, b: int): int {
    if a <= b then a else b
  }

  predicate Distinct<T(==)>(q: seq<T>) {
    forall i, j :: 0 <= i < j < |q| ==> q[i] != q[j]
  }

  lemma DistinctAppend<T>(q: seq<T>, x: T)
    requires Distinct(q) && x !in q
    ensures Distinct(q + [x])
  {
  }

  /** The ports lo, lo+1, ..., hi in ascending order. */
  function PortRange(lo: int, hi: int): (q: seq<int>)
    requires lo <= hi + 1
  {
    seq(hi - lo + 1, i requires 0 <= i <= hi - lo => lo + i)
  }

  lemma {:induction false} DistinctCounts<T>(q: seq<T>, x: T)
    requires Distinct(q)
    ensures multiset(q)[x] == if x in q then 1 else 0
  {
    if q != [] {
      assert q == q[..|q| - 1] + [q[|q| - 1]];
      DistinctCounts(q[..|q| - 1], x);
    }
  }

  /** Two duplicate-free sequences with the same elements are permutations of one another. */
  lemma SameElementsPermute<T>(q: seq<T>, r: seq<T>)
    requires Distinct(q) && Distinct(r)
    requires forall x :: x in q <==> x in r
    ensures multiset(q) == multiset(r)
  {
    forall x
      ensures multiset(q)[x] == multiset(r)[x]
    {
      DistinctCounts(q, x);
      DistinctCounts(r, x);
    }
  }

  lemma RangeElements(lo: int, hi: int)
    requires lo <= hi + 1
    ensures Distinct(PortRange(lo, hi))
    ensures forall x :: x in PortRange(lo, hi) <==> lo <= x <= hi
  {
    forall x | lo <= x <= hi
      ensures x in PortRange(lo, hi)
    {
      assert PortRange(lo, hi)[x - lo] == x;
    }
  }

  /** A duplicate-free queue of ports from lo..hi that misses one of them is short of the range. */
  lemma {:induction false} MissingLeavesRoom(q: seq<int>, lo: int, hi: int, missing: int)
    requires Distinct(q)
    requires forall x :: x in q ==> lo <= x <= hi
    requires lo <= missing <= hi && missing !in q
    ensures |q| < hi - lo + 1
  {
    RangeElements(lo, hi);
    SubMultiset(q + [missing], PortRange(lo, hi));
  }

  lemma SubMultiset(q: seq<int>, r: seq<int>)
    requires Distinct(q) && Distinct(r)
    requires forall x :: x in q ==> x in r
    ensures |q| <= |r|
  {
    forall x
      ensures multiset(q)[x] <= multiset(r)[x]
    {
      DistinctCounts(q, x);
      DistinctCounts(r, x);
    }
    assert multiset(q) <= multiset(r);
    assert multiset(r) == multiset(q) + (multiset(r) - multiset(q));
    assert |multiset(q)| == |q| && |multiset(r)| == |r|;
  }
}
