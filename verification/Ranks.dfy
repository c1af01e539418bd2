/**
 Ranks. The average rank of a value and the ordinal rank of a position are defined by
 counting; the rank loops of the scripts, and the two argsort forms, are proved to compute them.
 */
module Ranks {
  import opened Basics
  import opened Vectors

  // ----- Ranks by counting

  /** The positions that hold a smaller value than v, and those that hold v itself. */
  function Smaller(keys: seq<real>, v: real): set<nat> {
    set i | 0 <= i < |keys| && keys[i] < v
  }

  function Equal(keys: seq<real>, v: real): set<nat> {
    set i | 0 <= i < |keys| && keys[i] == v
  }

  /** The 1-based average rank of value v: ties share the mean of the ranks they occupy. */
  function AverageRank(keys: seq<real>, v: real): real {
    |Smaller(keys, v)| as real + (|Equal(keys, v)| as real + 1.0) / 2.0
  }

  function AverageRanks(keys: seq<real>): seq<real> {
    seq(|keys|, i requires 0 <= i < |keys| => AverageRank(keys, keys[i]))
  }

  /** Position i comes before position j in a stable ascending sort. */
  predicate Precedes(keys: seq<real>, i: nat, j: nat)
    requires i < |keys| && j < |keys|
  {
    keys[i] < keys[j] || (keys[i] == keys[j] && i < j)
  }

  function Predecessors(keys: seq<real>, j: nat): set<nat>
    requires j < |keys|
  {
    set i | 0 <= i < |keys| && Precedes(keys, i, j)
  }

  /** The 0-based ordinal rank: smaller values, then equal values further left. */
  function OrdinalRanks(keys: seq<real>): seq<nat> {
    seq(|keys|, j requires 0 <= j < |keys| => |Predecessors(keys, j)|)
  }

  function Negated(keys: seq<real>): seq<real> {
    seq(|keys|, i requires 0 <= i < |keys| => -keys[i])
  }

  // ----- Stable sorting

  /** A stable argsort of the keys: the contract of numpy's stable and merge sorts. */
  ghost predicate IsStableOrder(keys: seq<real>, order: seq<nat>) {
    && |order| == |keys|
    && (forall p :: 0 <= p < |order| ==> order[p] < |keys|)
    && (forall p, q :: 0 <= p < q < |order| ==> Precedes(keys, order[p], order[q]))
  }

  /** Sort the first n positions, by insertion from the right. */
  function Sorted(keys: seq<real>, n: nat): (order: seq<nat>)
    requires n <= |keys|
    ensures |order| == n && (forall p :: 0 <= p < n ==> order[p] < n)
    ensures forall p, q :: 0 <= p < q < n ==> Precedes(keys, order[p], order[q])
  {
    if n == 0 then [] else Insert(keys, Sorted(keys, n - 1), n - 1)
  }

  function Insert(keys: seq<real>, order: seq<nat>, x: nat): (r: seq<nat>)
    requires x < |keys| && forall p :: 0 <= p < |order| ==> order[p] < x
    requires forall p, q :: 0 <= p < q < |order| ==> Precedes(keys, order[p], order[q])
    ensures |r| == |order| + 1 && forall p :: 0 <= p < |r| ==> r[p] == x || r[p] in order
    ensures forall p, q :: 0 <= p < q < |r| ==> Precedes(keys, r[p], r[q])
  {
    if order == [] then [x]
    else if keys[order[|order| - 1]] <= keys[x] then
      assert forall p :: 0 <= p < |order| - 1 ==> Precedes(keys, order[p], order[|order| - 1]);
      order + [x]
    else Insert(keys, order[..|order| - 1], x) + [order[|order| - 1]]
  }

  function Argsort(keys: seq<real>): (order: seq<nat>)
    ensures IsStableOrder(keys, order)
  {
    Sorted(keys, |keys|)
  }

  lemma StableOrderDistinct(keys: seq<real>, order: seq<nat>)
    requires IsStableOrder(keys, order)
    ensures Distinct(order)
  {
  }

  lemma StableOrderOnto(keys: seq<real>, order: seq<nat>, i: nat) returns (p: nat)
    requires IsStableOrder(keys, order) && i < |keys|
    ensures p < |order| && order[p] == i
  {
    PermutationIsOnto(order, i);
    p :| p < |order| && order[p] == i;
  }

  /** The positions filed between a and b. */
  function Window(order: seq<nat>, a: nat, b: nat): set<nat>
    requires a <= b <= |order|
  {
    Elements(order[a..b])
  }

  lemma WindowSize(order: seq<nat>, a: nat, b: nat)
    requires a <= b <= |order| && Distinct(order)
    ensures |Window(order, a, b)| == b - a
  {
    DistinctElements(order[a..b]);
  }

  /** The p-th position of a stable order has exactly p predecessors. */
  lemma OrderPosition(keys: seq<real>, order: seq<nat>, p: nat)
    requires IsStableOrder(keys, order) && p < |order|
    ensures |Predecessors(keys, order[p])| == p
  {
    forall i ensures i in Predecessors(keys, order[p]) <==> i in Window(order, 0, p) {
      if i in Predecessors(keys, order[p]) {
        var q := StableOrderOnto(keys, order, i);
        assert q < p;
        assert order[0..p][q] == i;
      }
    }
    assert Predecessors(keys, order[p]) == Window(order, 0, p);
    WindowSize(order, 0, p);
  }

  /** Any two stable argsorts are equal, so the library's sort is Argsort. */
  lemma StableOrderUnique(keys: seq<real>, order: seq<nat>, other: seq<nat>)
    requires IsStableOrder(keys, order) && IsStableOrder(keys, other)
    ensures order == other
  {
    forall p | 0 <= p < |order| ensures order[p] == other[p] {
      var q := StableOrderOnto(keys, other, order[p]);
      OrderPosition(keys, order, p);
      OrderPosition(keys, other, q);
    }
  }

  // ----- The tie group of the rank loops

  /** order[a..b] is a maximal group of equal values. */
  ghost predicate TieGroup(keys: seq<real>, order: seq<nat>, a: nat, b: nat)
    requires IsStableOrder(keys, order)
  {
    && a < b <= |order|
    && (forall p :: a <= p < b ==> keys[order[p]] == keys[order[a]])
    && (a > 0 ==> keys[order[a - 1]] < keys[order[a]])
    && (b < |order| ==> keys[order[b]] != keys[order[a]])
  }

  lemma TieGroupCounts(keys: seq<real>, order: seq<nat>, a: nat, b: nat)
    requires IsStableOrder(keys, order) && TieGroup(keys, order, a, b)
    ensures var v := keys[order[a]]; |Smaller(keys, v)| == a && |Equal(keys, v)| == b - a
  {
    var v := keys[order[a]];
    forall i ensures i in Smaller(keys, v) <==> i in Window(order, 0, a) {
      if 0 <= i < |keys| && keys[i] < v {
        var p := StableOrderOnto(keys, order, i);
        assert order[0..a][p] == i;
      }
      if i in Window(order, 0, a) {
        var p :| 0 <= p < a && order[0..a][p] == i;
        assert p < a - 1 ==> Precedes(keys, order[p], order[a - 1]);
      }
    }
    forall i ensures i in Equal(keys, v) <==> i in Window(order, a, b) {
      if 0 <= i < |keys| && keys[i] == v {
        var p := StableOrderOnto(keys, order, i);
        assert order[a..b][p - a] == i;
      }
      if i in Window(order, a, b) {
        var p :| 0 <= p < b - a && order[a..b][p] == i;
        assert order[a + p] == i;
      }
    }
    assert Smaller(keys, v) == Window(order, 0, a);
    assert Equal(keys, v) == Window(order, a, b);
    WindowSize(order, 0, a);
    WindowSize(order, a, b);
  }

  /** All members of a tie group share the mean of the 1-based positions a+1 .. b. */
  lemma TieGroupRank(keys: seq<real>, order: seq<nat>, a: nat, b: nat)
    requires IsStableOrder(keys, order) && TieGroup(keys, order, a, b)
    ensures forall p :: a <= p < b ==> AverageRank(keys, keys[order[p]]) == 0.5 * (a + b - 1) as real + 1.0
  {
    hide Smaller, Equal;
    TieGroupCounts(keys, order, a, b);
  }

  /** The first position past the tie group that starts at a. */
  method GroupEnd(keys: seq<real>, order: seq<nat>, a: nat) returns (b: nat)
    requires IsStableOrder(keys, order) && a < |order|
    requires a > 0 ==> keys[order[a - 1]] < keys[order[a]]
    ensures TieGroup(keys, order, a, b)
    ensures b < |order| ==> keys[order[b - 1]] < keys[order[b]]
  {
    b := a + 1;
    while b < |order| && keys[order[b]] == keys[order[a]]
      invariant a < b <= |order|
      invariant forall p :: a <= p < b ==> keys[order[p]] == keys[order[a]]
    {
      b := b + 1;
    }
    assert b < |order| ==> Precedes(keys, order[b - 1], order[b]);
  }

  /** ranks[order[a:b]] = rank */
  method Fill(ranks: array<real>, order: seq<nat>, a: nat, b: nat, rank: real)
    requires a <= b <= |order| && Distinct(order) && forall p :: 0 <= p < |order| ==> order[p] < ranks.Length
    modifies ranks
    ensures forall p :: a <= p < b ==> ranks[order[p]] == rank
    ensures forall p :: 0 <= p < a ==> ranks[order[p]] == old(ranks[order[p]])
  {
    forall p | a <= p < b {
      ranks[order[p]] := rank;
    }
  }

  /** The loop of the first script: 1-based average ranks, ascending. */
  method RankData(values: seq<real>) returns (ranks: array<real>)
    ensures fresh(ranks) && ranks[..] == AverageRanks(values)
  {
    var order := Argsort(values);
    StableOrderDistinct(values, order);
    hide AverageRank, Precedes, TieGroup;
    ranks := new real[|values|];
    var index := 0;
    while index < |values|
      invariant 0 <= index <= |values|
      invariant 0 < index < |values| ==> values[order[index - 1]] < values[order[index]]
      invariant forall p :: 0 <= p < index ==> ranks[order[p]] == AverageRank(values, values[order[p]])
    {
      var end := GroupEnd(values, order, index);
      TieGroupRank(values, order, index, end);
      var rank := 0.5 * (index + end - 1) as real + 1.0;
      Fill(ranks, order, index, end, rank);
      index := end;
    }
    forall i | 0 <= i < |values| ensures ranks[i] == AverageRank(values, values[i]) {
      var p := StableOrderOnto(values, order, i);
    }
  }

  /** The loop of the second script: 0-based average ranks, ascending. */
  method RankDataFromZero(values: seq<real>) returns (ranks: array<real>)
    ensures fresh(ranks) && ranks.Length == |values|
    ensures forall i :: 0 <= i < |values| ==> ranks[i] == AverageRank(values, values[i]) - 1.0
  {
    var order := Argsort(values);
    StableOrderDistinct(values, order);
    hide AverageRank, Precedes, TieGroup;
    ranks := new real[|values|];
    var index := 0;
    while index < |values|
      invariant 0 <= index <= |values|
      invariant 0 < index < |values| ==> values[order[index - 1]] < values[order[index]]
      invariant forall p :: 0 <= p < index ==> ranks[order[p]] == AverageRank(values, values[order[p]]) - 1.0
    {
      var end := GroupEnd(values, order, index);
      TieGroupRank(values, order, index, end);
      var rank := 0.5 * (index + end - 1) as real;
      Fill(ranks, order, index, end, rank);
      index := end;
    }
    forall i | 0 <= i < |values| ensures ranks[i] == AverageRank(values, values[i]) - 1.0 {
      var p := StableOrderOnto(values, order, i);
    }
  }

  /** The loop of the third script: 1-based average ranks, the largest value first. */
  method RankDescending(values: seq<real>) returns (ranks: array<real>)
    ensures fresh(ranks) && ranks.Length == |values|
    ensures forall i :: 0 <= i < |values| ==> ranks[i] == |values| as real + 1.0 - AverageRank(values, values[i])
  {
    var keys := Negated(values);
    var order := Argsort(keys);
    StableOrderDistinct(keys, order);
    hide AverageRank, Precedes, TieGroup;
    ranks := new real[|values|];
    var cursor := 0;
    while cursor < |order|
      invariant 0 <= cursor <= |values|
      invariant 0 < cursor < |values| ==> keys[order[cursor - 1]] < keys[order[cursor]]
      invariant forall p :: 0 <= p < cursor ==> ranks[order[p]] == AverageRank(keys, keys[order[p]])
    {
      var end := GroupEnd(keys, order, cursor);
      TieGroupRank(keys, order, cursor, end);
      var rank := 0.5 * (cursor + 1 + end) as real;
      Fill(ranks, order, cursor, end, rank);
      cursor := end;
    }
    forall i | 0 <= i < |values| ensures ranks[i] == |values| as real + 1.0 - AverageRank(values, values[i]) {
      var p := StableOrderOnto(keys, order, i);
      NegatedRank(values, i);
    }
  }

  lemma NegatedCounts(values: seq<real>, v: real)
    ensures |Smaller(Negated(values), -v)| == |values| - |Smaller(values, v)| - |Equal(values, v)|
    ensures |Equal(Negated(values), -v)| == |Equal(values, v)|
  {
    var keys := Negated(values);
    var low, same, high := Smaller(values, v), Equal(values, v), Smaller(keys, -v);
    assert Equal(keys, -v) == same;
    assert low !! same && (low + same) !! high;
    forall k: nat ensures k in low + same + high <==> k in Below(|values|) {
      if k < |values| {
        assert values[k] < v || values[k] == v || keys[k] < -v;
      }
    }
    assert low + same + high == Below(|values|);
  }

  /** Ranking the negated values turns the ranks upside down. */
  lemma NegatedRank(values: seq<real>, i: nat)
    requires i < |values|
    ensures AverageRank(Negated(values), -values[i]) == |values| as real + 1.0 - AverageRank(values, values[i])
  {
    hide Smaller, Equal, Negated;
    NegatedCounts(values, values[i]);
  }

  /** A larger value ranks higher, by at least one. */
  lemma RankGap(keys: seq<real>, i: nat, j: nat)
    requires i < |keys| && j < |keys| && keys[i] < keys[j]
    ensures AverageRank(keys, keys[i]) + 1.0 <= AverageRank(keys, keys[j])
  {
    var below, same := Smaller(keys, keys[i]), Equal(keys, keys[i]);
    assert below !! same && below + same <= Smaller(keys, keys[j]);
    SubsetSize(below + same, Smaller(keys, keys[j]));
    assert i in same && j in Equal(keys, keys[j]);
    SubsetSize({i}, same);
    SubsetSize({j}, Equal(keys, keys[j]));
  }

  /** Two vectors that are ordered alike, for instance by a strictly increasing map. */
  ghost predicate OrderedAlike(x: seq<real>, y: seq<real>) {
    |x| == |y| && forall i, j :: 0 <= i < |x| && 0 <= j < |x| ==> (x[i] < x[j] <==> y[i] < y[j])
  }

  lemma RanksOfOrder(x: seq<real>, y: seq<real>)
    requires OrderedAlike(x, y)
    ensures AverageRanks(x) == AverageRanks(y)
  {
    forall i | 0 <= i < |x| ensures AverageRank(x, x[i]) == AverageRank(y, y[i]) {
      assert Smaller(x, x[i]) == Smaller(y, y[i]);
      assert Equal(x, x[i]) == Equal(y, y[i]);
    }
  }

  // ----- The sum of the ranks

  /** What one more value x adds to the rank of v. */
  function Win(x: real, v: real): real {
    if x < v then 1.0 else if x == v then 0.5 else 0.0
  }

  lemma CountAppend(keys: seq<real>, x: real, v: real)
    ensures |Smaller(keys + [x], v)| == |Smaller(keys, v)| + if x < v then 1 else 0
    ensures |Equal(keys + [x], v)| == |Equal(keys, v)| + if x == v then 1 else 0
  {
    var n := |keys|;
    assert Smaller(keys + [x], v) - {n} == Smaller(keys, v);
    assert n in Smaller(keys + [x], v) <==> x < v;
    assert Equal(keys + [x], v) - {n} == Equal(keys, v);
    assert n in Equal(keys + [x], v) <==> x == v;
  }

  lemma RankAppend(keys: seq<real>, x: real, v: real)
    ensures AverageRank(keys + [x], v) == AverageRank(keys, v) + Win(x, v)
  {
    hide Smaller, Equal;
    CountAppend(keys, x, v);
  }

  function Wins(x: real, keys: seq<real>): seq<real> {
    seq(|keys|, i requires 0 <= i < |keys| => Win(x, keys[i]))
  }

  function Losses(x: real, keys: seq<real>): seq<real> {
    seq(|keys|, i requires 0 <= i < |keys| => Win(keys[i], x))
  }

  lemma {:induction false} LossesTotal(x: real, keys: seq<real>)
    ensures Total(Losses(x, keys)) == AverageRank(keys, x) - 0.5
  {
    if keys == [] {
      assert Smaller(keys, x) == {} && Equal(keys, x) == {};
    } else {
      var front, last := keys[..|keys| - 1], keys[|keys| - 1];
      LossesTotal(x, front);
      RankAppend(front, last, x);
      assert keys == front + [last];
      assert Losses(x, keys)[..|front|] == Losses(x, front);
    }
  }

  lemma WinsTotal(x: real, keys: seq<real>)
    ensures Total(Wins(x, keys)) == |keys| as real + 0.5 - AverageRank(keys, x)
  {
    var w, l := Wins(x, keys), Losses(x, keys);
    forall i | 0 <= i < |keys| ensures Combine(1.0, w, 1.0, l)[i] == Ones(|keys|)[i] {
    }
    assert Combine(1.0, w, 1.0, l) == Ones(|keys|);
    TotalCombine(1.0, w, 1.0, l);
    TotalOnes(|keys|);
    LossesTotal(x, keys);
  }

  /** Ties or not, the average ranks of n values sum to n(n+1)/2. */
  lemma {:induction false} RankSum(keys: seq<real>)
    ensures Total(AverageRanks(keys)) == |keys| as real * (|keys| as real + 1.0) / 2.0
  {
    hide AverageRank, Total;
    if keys == [] {
      assert AverageRanks(keys) == [];
      EmptyTotal();
    } else {
      var front, x := keys[..|keys| - 1], keys[|keys| - 1];
      assert keys == front + [x];
      RankSum(front);
      var before, won := AverageRanks(front), Wins(x, front);
      forall i | 0 <= i < |front| ensures AverageRanks(keys)[i] == Combine(1.0, before, 1.0, won)[i] {
        RankAppend(front, x, front[i]);
      }
      RankAppend(front, x, x);
      assert AverageRanks(keys) == Combine(1.0, before, 1.0, won) + [AverageRank(keys, x)];
      TotalEnd(Combine(1.0, before, 1.0, won), AverageRank(keys, x));
      TotalCombine(1.0, before, 1.0, won);
      WinsTotal(x, front);
      Triangle(|front| as real);
    }
  }

  lemma EmptyTotal()
    ensures Total([]) == 0.0
  {
  }

  lemma Triangle(n: real)
    ensures n * (n + 1.0) / 2.0 + n + 1.0 == (n + 1.0) * (n + 1.0 + 1.0) / 2.0
  {
  }

  // ----- Permutation ranks

  /** ranks[order] = 0, 1, .., n-1. */
  method ScatterRanks(values: seq<real>) returns (ranks: array<nat>)
    ensures fresh(ranks) && ranks[..] == OrdinalRanks(values)
  {
    var order := Argsort(values);
    StableOrderDistinct(values, order);
    ranks := new nat[|values|];
    forall p | 0 <= p < |order| {
      ranks[order[p]] := p;
    }
    forall i | 0 <= i < |values| ensures ranks[i] == OrdinalRanks(values)[i] {
      var p := StableOrderOnto(values, order, i);
      OrderPosition(values, order, p);
    }
  }

  function AsReals(s: seq<nat>): seq<real> {
    seq(|s|, i requires 0 <= i < |s| => s[i] as real)
  }

  /** argsort(argsort(x)) is the inverse permutation of argsort(x): again the ordinal ranks. */
  lemma ArgsortTwice(values: seq<real>)
    ensures Argsort(AsReals(Argsort(values))) == OrdinalRanks(values)
  {
    var order := Argsort(values);
    var keys := AsReals(order);
    var twice := Argsort(keys);
    StableOrderDistinct(values, order);
    var met := seq(|order|, k requires 0 <= k < |order| => order[twice[k]]);
    forall p, q | 0 <= p < q < |met| ensures met[p] < met[q] {
      assert Precedes(keys, twice[p], twice[q]);
      StableOrderDistinct(keys, twice);
    }
    forall i | 0 <= i < |values| ensures twice[i] == OrdinalRanks(values)[i] {
      IncreasingIsIdentity(met, i);
      OrderPosition(values, order, twice[i]);
    }
  }

  /** The ordinal ranks are the 0-based average ranks exactly when no value is tied. */
  lemma OrdinalVersusAverage(keys: seq<real>)
    ensures (forall i :: 0 <= i < |keys| ==> OrdinalRanks(keys)[i] as real == AverageRank(keys, keys[i]) - 1.0)
            <==> Distinct(keys)
  {
    if Distinct(keys) {
      forall i | 0 <= i < |keys| ensures OrdinalRanks(keys)[i] as real == AverageRank(keys, keys[i]) - 1.0 {
        assert Predecessors(keys, i) == Smaller(keys, keys[i]);
        assert Equal(keys, keys[i]) == {i};
      }
    } else {
      var i, j :| 0 <= i < j < |keys| && keys[i] == keys[j];
      PrecedingOrdinals(keys, i, j);
      hide AverageRank, Predecessors;
      assert AverageRank(keys, keys[i]) == AverageRank(keys, keys[j]);
    }
  }

  /** An earlier position in the stable order has the smaller permutation rank. */
  lemma PrecedingOrdinals(keys: seq<real>, i: nat, j: nat)
    requires i < |keys| && j < |keys| && Precedes(keys, i, j)
    ensures OrdinalRanks(keys)[i] < OrdinalRanks(keys)[j]
  {
    assert Predecessors(keys, i) + {i} <= Predecessors(keys, j);
    SubsetSize(Predecessors(keys, i) + {i}, Predecessors(keys, j));
    assert i !in Predecessors(keys, i);
  }
}
