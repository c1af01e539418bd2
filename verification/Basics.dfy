/** Small facts about finite sequences and sets that several modules share. */
module Basics {

  datatype Option<+T> = None | Some(value: T)

  function Max(a: int, b: int): int {
    if a < b then b else a
  }

  predicate Distinct<T(==)>(s: seq<T>) {
    forall i, j :: 0 <= i < j < |s| ==> s[i] != s[j]
  }

  ghost predicate Increasing(s: seq<nat>) {
    forall i, j :: 0 <= i < j < |s| ==> s[i] < s[j]
  }

  /** The only strictly increasing sequence of n naturals below n is 0, 1, .., n-1. */
  lemma {:induction false} IncreasingIsIdentity(s: seq<nat>, k: nat)
    requires Increasing(s) && k < |s|
    requires forall i :: 0 <= i < |s| ==> s[i] < |s|
    ensures s[k] == k
  {
    IncreasingLowerBound(s, k);
    IncreasingUpperBound(s, k);
  }

  lemma {:induction false} IncreasingLowerBound(s: seq<nat>, k: nat)
    requires Increasing(s) && k < |s|
    ensures k <= s[k]
  {
    if k > 0 {
      IncreasingLowerBound(s, k - 1);
    }
  }

  lemma {:induction false} IncreasingUpperBound(s: seq<nat>, k: nat)
    requires Increasing(s) && k < |s|
    requires forall i :: 0 <= i < |s| ==> s[i] < |s|
    ensures s[k] <= k
    decreases |s| - k
  {
    if k + 1 < |s| {
      IncreasingUpperBound(s, k + 1);
    }
  }

  function Elements<T>(s: seq<T>): set<T> {
    set x | x in s
  }

  /** A sequence has at most as many different elements as positions. */
  lemma {:induction false} ElementsAtMost<T>(s: seq<T>)
    ensures |Elements(s)| <= |s|
  {
    if s != [] {
      var front := s[..|s| - 1];
      ElementsAtMost(front);
      assert Elements(s) == Elements(front) + {s[|s| - 1]};
    }
  }

  /** As many different elements as positions: no element occurs twice. */
  lemma {:induction false} FullElementsDistinct<T(!new)>(s: seq<T>)
    requires |Elements(s)| == |s|
    ensures Distinct(s)
  {
    if s != [] {
      var front, last := s[..|s| - 1], s[|s| - 1];
      ElementsAtMost(front);
      assert Elements(s) == Elements(front) + {last};
      FullElementsDistinct(front);
      assert forall i :: 0 <= i < |front| ==> front[i] in Elements(front);
    }
  }

  lemma {:induction false} DistinctElements<T(!new)>(s: seq<T>)
    requires Distinct(s)
    ensures |Elements(s)| == |s|
  {
    if s != [] {
      var front, last := s[..|s| - 1], s[|s| - 1];
      DistinctElements(front);
      assert Elements(s) == Elements(front) + {last};
    }
  }

  lemma {:induction false} SubsetSize<T>(a: set<T>, b: set<T>)
    requires a <= b
    ensures |a| <= |b|
    ensures |a| == |b| ==> a == b
  {
    assert b == a + (b - a);
  }

  function Below(n: nat): (s: set<nat>)
    ensures |s| == n
    ensures forall i: nat :: i in s <==> i < n
  {
    if n == 0 then {} else Below(n - 1) + {n - 1}
  }

  /** n different naturals below n are all the naturals below n. */
  lemma PermutationIsOnto(s: seq<nat>, i: nat)
    requires Distinct(s) && i < |s|
    requires forall k :: 0 <= k < |s| ==> s[k] < |s|
    ensures i in s
  {
    DistinctElements(s);
    SubsetSize(Elements(s), Below(|s|));
    assert i in Below(|s|);
  }
}
