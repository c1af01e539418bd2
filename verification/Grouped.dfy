/**
 Returns and row links of interleaved records: rows are grouped by mission and episode, each
 group is sorted by its transition index, validated, and walked backwards.
 */
module Grouped {
  import opened Basics
  import opened Ranks
  import Returns

  datatype Key = Key(mission: string, episode: string)
  datatype Record = Record(key: Key, t: int, reward: real, done: bool)

  /** What is computed for one row. */
  datatype Label = Label(ret: real, nextIndex: int, stepsToEnd: int, remaining: int, nextRemaining: int)

  const BUDGET := 45

  predicate Identified(r: Record) {
    r.key.mission != "" && r.key.episode != ""
  }

  /** The rows of an episode, in recorded order. */
  function Rows(records: seq<Record>, n: nat, key: Key): (rows: seq<nat>)
    requires n <= |records|
    ensures Increasing(rows) && forall k :: 0 <= k < |rows| ==> rows[k] < n && records[rows[k]].key == key
  {
    if n == 0 then []
    else Rows(records, n - 1, key) + (if records[n - 1].key == key then [n - 1] else [])
  }

  lemma {:induction false} RowsAll(records: seq<Record>, n: nat, i: nat)
    requires i < n <= |records|
    ensures i in Rows(records, n, records[i].key)
  {
    if i < n - 1 {
      RowsAll(records, n - 1, i);
    }
  }

  function Length(records: seq<Record>, key: Key): nat {
    |Rows(records, |records|, key)|
  }

  /** One contiguous terminal sequence per episode, wherever its rows lie. */
  ghost predicate WellFormed(records: seq<Record>) {
    && (forall i :: 0 <= i < |records| ==> records[i].key.mission != "" && records[i].key.episode != "")
    && (forall i :: 0 <= i < |records| ==> 0 <= records[i].t < Length(records, records[i].key))
    && (forall i, j :: 0 <= i < j < |records| && records[i].key == records[j].key ==> records[i].t != records[j].t)
    && (forall i :: 0 <= i < |records| ==> (records[i].done <==> records[i].t == Length(records, records[i].key) - 1))
  }

  /** The label of row i: its link leads to the row one transition later, and its return is one backup away. */
  ghost predicate Labelled(records: seq<Record>, labels: seq<Label>, scale: real, gamma: real, i: nat)
    requires |labels| == |records| && i < |records|
  {
    var r, l := records[i], labels[i];
    && l.stepsToEnd == Length(records, r.key) - 1 - r.t
    && l.remaining == 45 - r.t && l.nextRemaining == 44 - r.t
    && (if r.done then l.nextIndex == -1 && l.ret == scale * r.reward
        else
          && 0 <= l.nextIndex < |records|
          && records[l.nextIndex].key == r.key && records[l.nextIndex].t == r.t + 1
          && l.ret == scale * r.reward + gamma * labels[l.nextIndex].ret)
  }

  ghost predicate AllLabelled(records: seq<Record>, labels: seq<Label>, scale: real, gamma: real) {
    |labels| == |records| && forall i :: 0 <= i < |records| ==> Labelled(records, labels, scale, gamma, i)
  }

  // ----- One group

  function Times(records: seq<Record>, rows: seq<nat>): seq<real>
    requires forall k :: 0 <= k < |rows| ==> rows[k] < |records|
  {
    seq(|rows|, k requires 0 <= k < |rows| => records[rows[k]].t as real)
  }

  /** sorted(group, key=transition index): stable, and a permutation of the group. */
  function Ordered(records: seq<Record>, rows: seq<nat>): (ordered: seq<nat>)
    requires forall k :: 0 <= k < |rows| ==> rows[k] < |records|
    ensures |ordered| == |rows| && forall p :: 0 <= p < |ordered| ==> ordered[p] in rows
  {
    var order := Argsort(Times(records, rows));
    seq(|rows|, p requires 0 <= p < |rows| => rows[order[p]])
  }

  lemma OrderedOnto(records: seq<Record>, rows: seq<nat>, k: nat)
    requires forall p :: 0 <= p < |rows| ==> rows[p] < |records|
    requires k < |rows|
    ensures rows[k] in Ordered(records, rows)
  {
    var order := Argsort(Times(records, rows));
    var p := StableOrderOnto(Times(records, rows), order, k);
    assert Ordered(records, rows)[p] == rows[k];
  }

  function CountDone(records: seq<Record>, rows: seq<nat>): nat
    requires forall k :: 0 <= k < |rows| ==> rows[k] < |records|
  {
    if rows == [] then 0
    else CountDone(records, rows[..|rows| - 1]) + if records[rows[|rows| - 1]].done then 1 else 0
  }

  /** Transition indices 0, 1, .., and the last row is the only done row. */
  predicate GoodGroup(records: seq<Record>, ordered: seq<nat>)
    requires forall k :: 0 <= k < |ordered| ==> ordered[k] < |records|
  {
    && (forall p :: 0 <= p < |ordered| ==> records[ordered[p]].t == p)
    && CountDone(records, ordered) == 1
    && ordered != [] && records[ordered[|ordered| - 1]].done
  }

  lemma {:induction false} NoneDone(records: seq<Record>, rows: seq<nat>)
    requires forall k :: 0 <= k < |rows| ==> rows[k] < |records|
    ensures CountDone(records, rows) == 0 <==> forall p :: 0 <= p < |rows| ==> !records[rows[p]].done
  {
    if rows != [] {
      NoneDone(records, rows[..|rows| - 1]);
    }
  }

  lemma GoodGroupDone(records: seq<Record>, ordered: seq<nat>)
    requires forall k :: 0 <= k < |ordered| ==> ordered[k] < |records|
    requires ordered != [] && forall p :: 0 <= p < |ordered| ==> records[ordered[p]].t == p
    ensures GoodGroup(records, ordered) <==>
      forall p :: 0 <= p < |ordered| ==> (records[ordered[p]].done <==> p == |ordered| - 1)
  {
    NoneDone(records, ordered[..|ordered| - 1]);
  }

  /** In a well-formed record set the sorted rows of every episode pass the validation. */
  lemma {:induction false} WellFormedGroups(records: seq<Record>, key: Key)
    requires WellFormed(records)
    requires Rows(records, |records|, key) != []
    ensures GoodGroup(records, Ordered(records, Rows(records, |records|, key)))
  {
    hide Ordered, GoodGroup, WellFormed;
    var rows := Rows(records, |records|, key);
    var ordered := Ordered(records, rows);
    OrderedSorted(records, rows);
    forall p | 0 <= p < |ordered|
      ensures 0 <= records[ordered[p]].t < |rows| && (records[ordered[p]].done <==> records[ordered[p]].t == |rows| - 1)
      ensures records[ordered[p]].key == key
    {
      assert ordered[p] in rows;
      WellFormedRow(records, ordered[p]);
    }
    forall p, q | 0 <= p < q < |ordered| ensures records[ordered[p]].t < records[ordered[q]].t {
      WellFormedPair(records, ordered[p], ordered[q]);
    }
    SortedIsPosition(records, ordered);
    GoodGroupDone(records, ordered);
  }

  lemma WellFormedRow(records: seq<Record>, i: nat)
    requires WellFormed(records) && i < |records|
    ensures 0 <= records[i].t < Length(records, records[i].key)
    ensures records[i].done <==> records[i].t == Length(records, records[i].key) - 1
  {
  }

  lemma WellFormedPair(records: seq<Record>, i: nat, j: nat)
    requires WellFormed(records) && i < |records| && j < |records| && i != j && records[i].key == records[j].key
    ensures records[i].t != records[j].t
  {
  }

  lemma SortedIsPosition(records: seq<Record>, ordered: seq<nat>)
    requires forall p :: 0 <= p < |ordered| ==> ordered[p] < |records| && 0 <= records[ordered[p]].t < |ordered|
    requires forall p, q :: 0 <= p < q < |ordered| ==> records[ordered[p]].t < records[ordered[q]].t
    ensures forall p :: 0 <= p < |ordered| ==> records[ordered[p]].t == p
  {
    var ts: seq<nat> := seq(|ordered|, p requires 0 <= p < |ordered| => records[ordered[p]].t);
    forall p | 0 <= p < |ordered| ensures records[ordered[p]].t == p {
      IncreasingIsIdentity(ts, p);
    }
  }

  lemma OrderedSorted(records: seq<Record>, rows: seq<nat>)
    requires Increasing(rows) && forall k :: 0 <= k < |rows| ==> rows[k] < |records|
    ensures var ordered := Ordered(records, rows);
            forall p, q :: 0 <= p < q < |ordered| ==>
              ordered[p] != ordered[q] && records[ordered[p]].t <= records[ordered[q]].t
  {
    var keys := Times(records, rows);
    var order, ordered := Argsort(keys), Ordered(records, rows);
    forall p, q | 0 <= p < q < |ordered|
      ensures ordered[p] != ordered[q] && records[ordered[p]].t <= records[ordered[q]].t
    {
      assert Precedes(keys, order[p], order[q]);
      assert order[p] < order[q] || order[q] < order[p];
    }
  }

  /** Position p of a validated group holds exactly the row with transition index p. */
  lemma {:induction false} GroupRow(records: seq<Record>, key: Key, i: nat)
    requires i < |records| && records[i].key == key
    requires GoodGroup(records, Ordered(records, Rows(records, |records|, key)))
    ensures var ordered := Ordered(records, Rows(records, |records|, key));
            && 0 <= records[i].t < |ordered| == Length(records, key)
            && ordered[records[i].t] == i
            && (records[i].done <==> records[i].t == |ordered| - 1)
  {
    var rows := Rows(records, |records|, key);
    RowsAll(records, |records|, i);
    var k :| 0 <= k < |rows| && rows[k] == i;
    OrderedOnto(records, rows, k);
    GoodGroupDone(records, Ordered(records, rows));
  }

  ghost predicate Groups(records: seq<Record>, keys: seq<Key>) {
    forall i :: 0 <= i < |records| ==> records[i].key in keys
  }

  /** If every group passes the validation, the records are well formed. */
  lemma {:induction false} GroupsWellFormed(records: seq<Record>)
    requires forall i :: 0 <= i < |records| ==> Identified(records[i])
    requires forall i :: 0 <= i < |records| ==> GoodGroup(records, Ordered(records, Rows(records, |records|, records[i].key)))
    ensures WellFormed(records)
  {
    forall i | 0 <= i < |records| {
      GroupRow(records, records[i].key, i);
    }
  }

  // ----- The builder

  /** The group's rows as a list of places in an array of `n` labels. */
  ghost predicate Places(ordered: seq<nat>, n: nat) {
    Distinct(ordered) && forall p :: 0 <= p < |ordered| ==> ordered[p] < n
  }

  ghost predicate Others(n: nat, ordered: seq<nat>, before: seq<Label>, after: seq<Label>) {
    |before| == |after| == n && forall i :: 0 <= i < n && i !in ordered ==> after[i] == before[i]
  }

  /** The reverse recursion over one validated group. */
  method WalkBack(records: seq<Record>, ordered: seq<nat>, scale: real, gamma: real, labels: array<Label>)
    requires labels.Length == |records| && Places(ordered, |records|)
    modifies labels
    ensures Others(|records|, ordered, old(labels[..]), labels[..])
    ensures forall p :: 0 <= p < |ordered| ==> Discounted(records, ordered, labels[..], scale, gamma, p)
  {
    var length, total := |ordered|, 0.0;
    for p := length downto 0
      invariant forall i :: 0 <= i < |records| && i !in ordered ==> labels[i] == old(labels[i])
      invariant total == if p < length then labels[ordered[p]].ret else 0.0
      invariant forall q :: p <= q < length ==> Discounted(records, ordered, labels[..], scale, gamma, q)
    {
      ghost var before := labels[..];
      total := scale * records[ordered[p]].reward + gamma * total;
      labels[ordered[p]] := labels[ordered[p]].(ret := total);
      forall q | p < q < length ensures Discounted(records, ordered, labels[..], scale, gamma, q) {
        assert ordered[q] != ordered[p] && Discounted(records, ordered, before, scale, gamma, q);
      }
    }
  }

  /** The return of the row at place p follows from that of the next place. */
  ghost predicate Discounted(records: seq<Record>, ordered: seq<nat>, labels: seq<Label>, scale: real, gamma: real, p: nat)
    requires p < |ordered| && |labels| == |records| && forall q :: 0 <= q < |ordered| ==> ordered[q] < |records|
  {
    labels[ordered[p]].ret == scale * records[ordered[p]].reward +
      (if p + 1 < |ordered| then gamma * labels[ordered[p + 1]].ret else 0.0)
  }

  /** The forward pass: links and budgets, returns left alone. */
  method WalkForward(records: seq<Record>, ordered: seq<nat>, labels: array<Label>)
    requires labels.Length == |records| && Places(ordered, |records|)
    requires forall p :: 0 <= p < |ordered| ==> records[ordered[p]].t == p
    modifies labels
    ensures Others(|records|, ordered, old(labels[..]), labels[..])
    ensures forall i :: 0 <= i < |records| ==> labels[i].ret == old(labels[i].ret)
    ensures forall p :: 0 <= p < |ordered| ==> Linked(ordered, labels[..], p)
  {
    var length := |ordered|;
    for p := 0 to length
      invariant forall i :: 0 <= i < |records| && i !in ordered ==> labels[i] == old(labels[i])
      invariant forall i :: 0 <= i < |records| ==> labels[i].ret == old(labels[i].ret)
      invariant forall q :: 0 <= q < p ==> Linked(ordered, labels[..], q)
    {
      ghost var before := labels[..];
      var i, t := ordered[p], records[ordered[p]].t;
      labels[i] := Label(labels[i].ret, if p + 1 < length then ordered[p + 1] else -1, length - 1 - t,
                         BUDGET - t, BUDGET - 1 - t);
      forall q | 0 <= q < p ensures Linked(ordered, labels[..], q) {
        assert ordered[q] != i && Linked(ordered, before, q);
      }
    }
  }

  ghost predicate Linked(ordered: seq<nat>, labels: seq<Label>, p: nat)
    requires p < |ordered| && ordered[p] < |labels|
  {
    var l := labels[ordered[p]];
    && l.nextIndex == (if p + 1 < |ordered| then ordered[p + 1] else -1)
    && l.stepsToEnd == |ordered| - 1 - p
    && l.remaining == BUDGET - p && l.nextRemaining == BUDGET - 1 - p
  }

  /** Walk one validated group: returns backwards, links forwards. Other rows keep their labels. */
  method LabelGroup(records: seq<Record>, ordered: seq<nat>, scale: real, gamma: real, labels: array<Label>)
    requires labels.Length == |records| && Places(ordered, |records|)
    requires forall p :: 0 <= p < |ordered| ==> records[ordered[p]].t == p
    modifies labels
    ensures Others(|records|, ordered, old(labels[..]), labels[..])
    ensures Walked(records, ordered, labels[..], scale, gamma)
  {
    hide Linked;
    WalkBack(records, ordered, scale, gamma, labels);
    ghost var back := labels[..];
    WalkForward(records, ordered, labels);
    forall p | 0 <= p < |ordered| ensures Discounted(records, ordered, labels[..], scale, gamma, p) {
      assert Discounted(records, ordered, back, scale, gamma, p);
    }
  }

  /** The distinct keys in order of first appearance. */
  method CollectKeys(records: seq<Record>) returns (keys: Option<seq<Key>>)
    ensures keys.None? <==> exists i :: 0 <= i < |records| && !Identified(records[i])
    ensures keys.Some? ==>
      && Groups(records, keys.value)
      && forall k :: 0 <= k < |keys.value| ==> Rows(records, |records|, keys.value[k]) != []
  {
    hide Rows, Identified;
    var found: seq<Key> := [];
    for i := 0 to |records|
      invariant forall j :: 0 <= j < i ==> Identified(records[j]) && records[j].key in found
      invariant forall k :: 0 <= k < |found| ==> Rows(records, |records|, found[k]) != []
    {
      if !Identified(records[i]) {
        return None;
      }
      if records[i].key !in found {
        RowsAll(records, |records|, i);
        found := found + [records[i].key];
      }
    }
    keys := Some(found);
  }

  /** Labels for all rows, or None (a ValueError) exactly when the records are not well formed. */
  method RecordsReturns(records: seq<Record>, scale: real, gamma: real) returns (labels: Option<seq<Label>>)
    ensures labels.Some? <==> WellFormed(records)
    ensures labels.Some? ==> AllLabelled(records, labels.value, scale, gamma)
  {
    hide GoodGroup, Ordered, Labelled;
    var keys := CollectKeys(records);
    if keys.None? {
      return None;
    }
    var out := new Label[|records|](_ => Label(0.0, -1, 0, 0, 0));
    for k := 0 to |keys.value|
      invariant forall i :: 0 <= i < |records| && records[i].key in keys.value[..k] ==>
        && GoodGroup(records, Ordered(records, Rows(records, |records|, records[i].key)))
        && Labelled(records, out[..], scale, gamma, i)
    {
      var key := keys.value[k];
      var ordered := Ordered(records, Rows(records, |records|, key));
      if !GoodGroup(records, ordered) {
        if WellFormed(records) {
          WellFormedGroups(records, key);
        }
        return None;
      }
      ghost var before := out[..];
      GroupShape(records, key);
      LabelGroup(records, ordered, scale, gamma, out);
      forall i | 0 <= i < |records| && records[i].key in keys.value[..k + 1]
        ensures GoodGroup(records, Ordered(records, Rows(records, |records|, records[i].key)))
        ensures Labelled(records, out[..], scale, gamma, i)
      {
        if records[i].key == key {
          LabelledInGroup(records, key, out[..], scale, gamma, i);
        } else {
          LabelKept(records, key, before, out[..], scale, gamma, i);
        }
      }
    }
    GroupsWellFormed(records);
    labels := Some(out[..]);
  }

  /** A validated group lists different rows of its own episode, in transition order. */
  lemma {:induction false} GroupShape(records: seq<Record>, key: Key)
    requires GoodGroup(records, Ordered(records, Rows(records, |records|, key)))
    ensures var ordered := Ordered(records, Rows(records, |records|, key));
            && Distinct(ordered)
            && forall p :: 0 <= p < |ordered| ==>
                 ordered[p] < |records| && records[ordered[p]].t == p && records[ordered[p]].key == key
  {
    var rows := Rows(records, |records|, key);
    var ordered := Ordered(records, rows);
    OrderedSorted(records, rows);
    forall p | 0 <= p < |ordered| ensures records[ordered[p]].key == key {
      assert ordered[p] in rows;
    }
  }

  /** What LabelGroup leaves for the rows of its group. */
  ghost predicate Walked(records: seq<Record>, ordered: seq<nat>, labels: seq<Label>, scale: real, gamma: real)
    requires |labels| == |records|
    requires forall p :: 0 <= p < |ordered| ==> ordered[p] < |records|
  {
    forall p :: 0 <= p < |ordered| ==>
      Discounted(records, ordered, labels, scale, gamma, p) && Linked(ordered, labels, p)
  }

  lemma {:induction false} LabelledInGroup(records: seq<Record>, key: Key, labels: seq<Label>, scale: real,
      gamma: real, i: nat)
    requires |labels| == |records| && i < |records| && records[i].key == key
    requires GoodGroup(records, Ordered(records, Rows(records, |records|, key)))
    requires Walked(records, Ordered(records, Rows(records, |records|, key)), labels, scale, gamma)
    ensures Labelled(records, labels, scale, gamma, i)
  {
    hide Ordered, GoodGroup;
    GroupRow(records, key, i);
    GroupShape(records, key);
    var ordered, p := Ordered(records, Rows(records, |records|, key)), records[i].t;
    assert ordered[p] == i && Discounted(records, ordered, labels, scale, gamma, p) && Linked(ordered, labels, p);
    if p + 1 < |ordered| {
      assert labels[i].nextIndex == ordered[p + 1];
    }
  }

  lemma LabelKept(records: seq<Record>, key: Key, before: seq<Label>, labels: seq<Label>, scale: real,
      gamma: real, i: nat)
    requires |before| == |labels| == |records| && i < |records| && records[i].key != key
    requires Labelled(records, before, scale, gamma, i)
    requires forall j :: 0 <= j < |records| && records[j].key != key ==> labels[j] == before[j]
    ensures Labelled(records, labels, scale, gamma, i)
  {
  }

  // ----- The links

  /** A row's successor is the only row of its episode with the next transition index. */
  lemma SuccessorUnique(records: seq<Record>, i: nat, j: nat)
    requires WellFormed(records) && i < |records| && j < |records|
    requires records[i].key == records[j].key && records[i].t == records[j].t
    ensures i == j
  {
    if i != j {
      WellFormedPair(records, i, j);
    }
  }

  /** Links are injective on nonterminal rows, -1 exactly on done rows, and carry budgets over. */
  lemma LinksAreChains(records: seq<Record>, labels: seq<Label>, scale: real, gamma: real, i: nat, j: nat)
    requires WellFormed(records) && AllLabelled(records, labels, scale, gamma)
    requires i < |records| && j < |records|
    ensures labels[i].nextIndex == -1 <==> records[i].done
    ensures !records[i].done ==>
      0 <= labels[i].nextIndex < |labels| && labels[labels[i].nextIndex].remaining == labels[i].nextRemaining
    ensures !records[i].done && labels[i].nextIndex == labels[j].nextIndex ==> i == j
  {
    assert Labelled(records, labels, scale, gamma, i) && Labelled(records, labels, scale, gamma, j);
    if !records[i].done {
      assert Labelled(records, labels, scale, gamma, labels[i].nextIndex);
      if labels[i].nextIndex == labels[j].nextIndex {
        SuccessorUnique(records, i, j);
      }
    }
  }

  /** The row reached after k links, or None when the chain ends earlier. */
  function Follow(labels: seq<Label>, i: nat, k: nat): Option<nat>
    decreases k
  {
    if i >= |labels| then None
    else if k == 0 then Some(i)
    else if labels[i].nextIndex < 0 then None
    else Follow(labels, labels[i].nextIndex, k - 1)
  }

  /** Following the links steps_to_recorded_episode_end times reaches the episode's done row, not earlier or later. */
  lemma {:induction false} ChainEnds(records: seq<Record>, labels: seq<Label>, scale: real, gamma: real, i: nat, k: nat)
    requires WellFormed(records) && AllLabelled(records, labels, scale, gamma) && i < |records|
    ensures labels[i].stepsToEnd >= 0
    ensures Follow(labels, i, k).Some? <==> k <= labels[i].stepsToEnd
    ensures k <= labels[i].stepsToEnd ==>
      var e := Follow(labels, i, k).value;
      && e < |records| && records[e].key == records[i].key && records[e].t == records[i].t + k
      && (records[e].done <==> k == labels[i].stepsToEnd)
    decreases k
  {
    hide WellFormed;
    WellFormedRow(records, i);
    assert Labelled(records, labels, scale, gamma, i);
    if k > 0 && !records[i].done {
      var next := labels[i].nextIndex;
      assert Labelled(records, labels, scale, gamma, next);
      ChainEnds(records, labels, scale, gamma, next, k - 1);
    }
  }

  // ----- Interleaving does not matter

  /** `other` holds the same records in another order: its row i is row place[i] of `records`. */
  ghost predicate Rearranged(records: seq<Record>, other: seq<Record>, place: seq<nat>) {
    && |other| == |records| == |place| && Distinct(place)
    && forall i :: 0 <= i < |place| ==> place[i] < |records| && other[i] == records[place[i]]
  }

  lemma PlaceOf(records: seq<Record>, other: seq<Record>, place: seq<nat>, p: nat) returns (i: nat)
    requires Rearranged(records, other, place) && p < |records|
    ensures i < |other| && place[i] == p && other[i] == records[p]
  {
    PermutationIsOnto(place, p);
    i :| 0 <= i < |place| && place[i] == p;
  }

  /** An episode keeps its number of rows. */
  lemma LengthRearranged(records: seq<Record>, other: seq<Record>, place: seq<nat>, key: Key)
    requires Rearranged(records, other, place)
    ensures Length(other, key) == Length(records, key)
  {
    var rows, others := Rows(records, |records|, key), Rows(other, |other|, key);
    var moved := seq(|others|, k requires 0 <= k < |others| => place[others[k]]);
    forall p: nat ensures p in rows <==> p in moved {
      if p in rows {
        var i := PlaceOf(records, other, place, p);
        RowsAll(other, |other|, i);
        var k :| 0 <= k < |others| && others[k] == i;
        assert moved[k] == p;
      }
      if p in moved {
        var k :| 0 <= k < |others| && moved[k] == p;
        RowsAll(records, |records|, p);
      }
    }
    hide Rows;
    assert Elements(rows) == Elements(moved);
    DistinctElements(rows);
    DistinctElements(moved);
  }

  /** Rearranged records are accepted exactly when the original ones are. */
  lemma WellFormedRearranged(records: seq<Record>, other: seq<Record>, place: seq<nat>)
    requires Rearranged(records, other, place)
    ensures WellFormed(records) <==> WellFormed(other)
  {
    forall key ensures Length(other, key) == Length(records, key) {
      LengthRearranged(records, other, place, key);
    }
    hide Length;
    if WellFormed(records) {
      forall i, j | 0 <= i < j < |other| && other[i].key == other[j].key ensures other[i].t != other[j].t {
        WellFormedPair(records, place[i], place[j]);
      }
    }
    if WellFormed(other) {
      forall p | 0 <= p < |records|
        ensures Identified(records[p]) && 0 <= records[p].t < Length(records, records[p].key)
        ensures records[p].done <==> records[p].t == Length(records, records[p].key) - 1
      {
        var i := PlaceOf(records, other, place, p);
      }
      forall p, q | 0 <= p < q < |records| && records[p].key == records[q].key ensures records[p].t != records[q].t {
        var i := PlaceOf(records, other, place, p);
        var j := PlaceOf(records, other, place, q);
        WellFormedPair(other, i, j);
      }
    }
  }

  /** Every row carries its whole label along when the records are rearranged, its link through `place`. */
  lemma {:induction false} LabelsRearrange(records: seq<Record>, labels: seq<Label>, other: seq<Record>,
                                           labels': seq<Label>, place: seq<nat>, scale: real, gamma: real, i: nat)
    requires Rearranged(records, other, place) && i < |place| && WellFormed(records)
    requires AllLabelled(records, labels, scale, gamma) && AllLabelled(other, labels', scale, gamma)
    ensures var l, l' := labels[place[i]], labels'[i];
            && l'.ret == l.ret && l'.stepsToEnd == l.stepsToEnd
            && l'.remaining == l.remaining && l'.nextRemaining == l.nextRemaining
            && if other[i].done then l'.nextIndex == l.nextIndex == -1
               else 0 <= l'.nextIndex < |place| && l.nextIndex == place[l'.nextIndex]
    decreases labels'[i].stepsToEnd
  {
    hide *;
    SameRecord(records, other, place, i);
    LabelOf(records, labels, scale, gamma, place[i]);
    LabelOf(other, labels', scale, gamma, i);
    LengthRearranged(records, other, place, other[i].key);
    if !other[i].done {
      LinkRearranged(records, labels, other, labels', place, scale, gamma, i);
      LabelsRearrange(records, labels, other, labels', place, scale, gamma, labels'[i].nextIndex);
    }
  }

  lemma SameRecord(records: seq<Record>, other: seq<Record>, place: seq<nat>, i: nat)
    requires Rearranged(records, other, place) && i < |place|
    ensures |other| == |records| == |place| && place[i] < |records| && other[i] == records[place[i]]
  {
  }

  lemma LabelOf(records: seq<Record>, labels: seq<Label>, scale: real, gamma: real, i: nat)
    requires AllLabelled(records, labels, scale, gamma) && i < |records|
    ensures |labels| == |records|
    ensures var r, l := records[i], labels[i];
            && l.stepsToEnd == Length(records, r.key) - 1 - r.t
            && l.remaining == 45 - r.t && l.nextRemaining == 44 - r.t
            && (r.done ==> l.nextIndex == -1 && l.ret == scale * r.reward)
            && (!r.done ==> 0 <= l.nextIndex < |records| && l.ret == scale * r.reward + gamma * labels[l.nextIndex].ret)
  {
    assert Labelled(records, labels, scale, gamma, i);
  }

  /** The link of a rearranged row leads to the same record, one row nearer to the end. */
  lemma LinkRearranged(records: seq<Record>, labels: seq<Label>, other: seq<Record>, labels': seq<Label>,
                       place: seq<nat>, scale: real, gamma: real, i: nat)
    requires Rearranged(records, other, place) && i < |place| && WellFormed(records) && !other[i].done
    requires AllLabelled(records, labels, scale, gamma) && AllLabelled(other, labels', scale, gamma)
    ensures var next := labels'[i].nextIndex;
            0 <= next < |place| && labels[place[i]].nextIndex == place[next] &&
            labels'[next].stepsToEnd == labels'[i].stepsToEnd - 1 >= 0
  {
    WellFormedRearranged(records, other, place);
    assert Labelled(records, labels, scale, gamma, place[i]) && Labelled(other, labels', scale, gamma, i);
    var next := labels'[i].nextIndex;
    assert Labelled(other, labels', scale, gamma, next);
    hide WellFormed, Length, AllLabelled;
    WellFormedRow(other, next);
    SuccessorUnique(records, labels[place[i]].nextIndex, place[next]);
  }

  // ----- Agreement with the done-delimited labels

  function Rewards(records: seq<Record>): seq<real> {
    seq(|records|, i requires 0 <= i < |records| => records[i].reward)
  }

  function Dones(records: seq<Record>): seq<bool> {
    seq(|records|, i requires 0 <= i < |records| => records[i].done)
  }

  /** Every nonterminal row is followed by the next row of its episode. */
  ghost predicate Contiguous(records: seq<Record>) {
    forall k :: 0 <= k < |records| && !records[k].done ==>
      k + 1 < |records| && records[k + 1].key == records[k].key && records[k + 1].t == records[k].t + 1
  }

  lemma ContiguousCloses(records: seq<Record>)
    requires records != [] && Contiguous(records)
    ensures Returns.Closed(Rewards(records), Dones(records))
  {
    var n := |records| - 1;
    assert records[n].done;
  }

  lemma {:induction false} LinkedReturns(records: seq<Record>, labels: seq<Label>, scale: real, gamma: real, i: nat)
    requires AllLabelled(records, labels, scale, gamma) && i < |records|
    requires Returns.Closed(Rewards(records), Dones(records))
    requires forall k :: 0 <= k < |records| && !records[k].done ==> labels[k].nextIndex == k + 1
    ensures labels[i].ret == Returns.Return(Rewards(records), Dones(records), scale, gamma, i)
    decreases |records| - i
  {
    assert Labelled(records, labels, scale, gamma, i);
    if !records[i].done {
      LinkedReturns(records, labels, scale, gamma, i + 1);
    }
  }

  /** On well-formed contiguous records both label builders are defined and agree. */
  lemma {:induction false} AgreesWithTrainLabels(records: seq<Record>, labels: seq<Label>, scale: real,
      gamma: real, i: nat)
    requires WellFormed(records) && Contiguous(records) && AllLabelled(records, labels, scale, gamma) && i < |records|
    ensures Returns.Closed(Rewards(records), Dones(records))
    ensures labels[i].ret == Returns.Return(Rewards(records), Dones(records), scale, gamma, i)
  {
    hide WellFormed, Length;
    ContiguousCloses(records);
    forall k | 0 <= k < |records| && !records[k].done ensures labels[k].nextIndex == k + 1 {
      assert Labelled(records, labels, scale, gamma, k);
      SuccessorUnique(records, labels[k].nextIndex, k + 1);
    }
    hide *;
    LinkedReturns(records, labels, scale, gamma, i);
  }
}
