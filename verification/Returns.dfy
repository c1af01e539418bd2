/**
 Episode returns over a replay buffer whose rows are split into episodes by done flags,
 the sequence sidecar of such a buffer, and the one-step and five-step targets built on it.
 */
module Returns {
  import opened Basics
  import opened Reals

  /** A replay of n rows that ends with a terminal row. */
  ghost predicate Closed(reward: seq<real>, done: seq<bool>) {
    |reward| == |done| > 0 && done[|done| - 1]
  }

  // ----- The return of a row

  /** One backward recursion that starts afresh at every done row. */
  function Return(reward: seq<real>, done: seq<bool>, scale: real, gamma: real, i: nat): real
    requires Closed(reward, done) && i < |reward|
    decreases |reward| - i
  {
    scale * reward[i] + (if done[i] then 0.0 else gamma * Return(reward, done, scale, gamma, i + 1))
  }

  /** The done row of the episode that row i belongs to. */
  function EpisodeEnd(done: seq<bool>, i: nat): (e: nat)
    requires i < |done| && done[|done| - 1]
    ensures i <= e < |done| && done[e] && forall k :: i <= k < e ==> !done[k]
    decreases |done| - i
  {
    if done[i] then i else EpisodeEnd(done, i + 1)
  }

  function Power(gamma: real, k: nat): real {
    if k == 0 then 1.0 else gamma * Power(gamma, k - 1)
  }

  /** The sum of gamma^k * scale * r[k], added up from the left. */
  function DiscountedSum(r: seq<real>, scale: real, gamma: real): real {
    if r == [] then 0.0
    else DiscountedSum(r[..|r| - 1], scale, gamma) + Power(gamma, |r| - 1) * (scale * r[|r| - 1])
  }

  lemma Factor(gamma: real, p: real, q: real, x: real, y: real, z: real)
    requires q == gamma * p
    ensures x + gamma * y + q * z == x + gamma * (y + p * z)
  {
    var pz := p * z;
    assert q * z == gamma * pz;
    assert gamma * (y + pz) == gamma * y + gamma * pz;
  }

  /** The last term of the sum. */
  lemma {:induction false} DiscountedSumEnd(r: seq<real>, scale: real, gamma: real)
    requires r != []
    ensures DiscountedSum(r, scale, gamma) ==
            DiscountedSum(r[..|r| - 1], scale, gamma) + Power(gamma, |r| - 1) * (scale * r[|r| - 1])
  {
    hide Power;
  }

  lemma {:induction false} DiscountedSumHead(r: seq<real>, scale: real, gamma: real)
    requires r != []
    ensures DiscountedSum(r, scale, gamma) == scale * r[0] + gamma * DiscountedSum(r[1..], scale, gamma)
  {
    if |r| == 1 {
      assert r[..0] == [] && r[1..] == [];
      DiscountedSumEnd(r, scale, gamma);
    } else {
      var front, n := r[..|r| - 1], |r| - 2;
      InnerSlice(r);
      PowerNext(gamma, n);
      hide *;
      DiscountedSumHead(front, scale, gamma);
      DiscountedSumEnd(r, scale, gamma);
      DiscountedSumEnd(r[1..], scale, gamma);
      Factor(gamma, Power(gamma, n), Power(gamma, n + 1), scale * r[0], DiscountedSum(front[1..], scale, gamma),
             scale * r[|r| - 1]);
    }
  }

  lemma InnerSlice(r: seq<real>)
    requires |r| >= 2
    ensures var n := |r| - 2; r[1..][..n] == r[..n + 1][1..] && r[1..][n] == r[n + 1] && r[..n + 1][0] == r[0]
  {
  }

  lemma PowerNext(gamma: real, n: nat)
    ensures Power(gamma, n + 1) == gamma * Power(gamma, n)
  {
  }

  /** The closed form: the discounted sum of the scaled rewards up to the end of the episode. */
  lemma {:induction false} ReturnClosedForm(reward: seq<real>, done: seq<bool>, scale: real, gamma: real, i: nat)
    requires Closed(reward, done) && i < |reward|
    ensures Return(reward, done, scale, gamma, i) ==
            DiscountedSum(reward[i..EpisodeEnd(done, i) + 1], scale, gamma)
    decreases |reward| - i
  {
    var e := EpisodeEnd(done, i);
    var r := reward[i..e + 1];
    DiscountedSumHead(r, scale, gamma);
    if !done[i] {
      ReturnClosedForm(reward, done, scale, gamma, i + 1);
      assert r[1..] == reward[i + 1..e + 1];
    } else {
      assert r[1..] == [];
    }
  }

  // ----- The label builder

  /** The done rows among the first n, in order. */
  function DoneRows(done: seq<bool>, n: nat): (ends: seq<nat>)
    requires n <= |done|
    ensures forall k :: 0 <= k < |ends| ==> ends[k] < n && done[ends[k]]
    ensures Increasing(ends)
  {
    if n == 0 then [] else DoneRows(done, n - 1) + (if done[n - 1] then [n - 1] else [])
  }

  lemma {:induction false} DoneRowsAll(done: seq<bool>, n: nat, i: nat)
    requires n <= |done| && i < n && done[i]
    ensures i in DoneRows(done, n)
  {
    if i < n - 1 {
      DoneRowsAll(done, n - 1, i);
    }
  }

  /** The first row of the k-th episode. */
  function StartOf(ends: seq<nat>, k: nat): nat
    requires k <= |ends|
  {
    if k == 0 then 0 else ends[k - 1] + 1
  }

  /** The k-th segment runs up to its done row and contains no other. */
  lemma {:induction false} Segment(done: seq<bool>, k: nat, i: nat)
    requires done != [] && done[|done| - 1]
    requires var ends := DoneRows(done, |done|); k < |ends| && StartOf(ends, k) <= i <= ends[k]
    ensures EpisodeEnd(done, i) == DoneRows(done, |done|)[k]
  {
    var ends := DoneRows(done, |done|);
    var e := EpisodeEnd(done, i);
    DoneRowsAll(done, |done|, e);
    var j :| 0 <= j < |ends| && ends[j] == e;
  }

  lemma {:induction false} LastSegment(done: seq<bool>)
    requires done != [] && done[|done| - 1]
    ensures var ends := DoneRows(done, |done|); ends != [] && StartOf(ends, |ends|) == |done|
  {
    var ends := DoneRows(done, |done|);
    DoneRowsAll(done, |done|, |done| - 1);
  }

  /** The segments partition the rows: every row lies in exactly one of them. */
  lemma SegmentsPartition(done: seq<bool>, i: nat) returns (k: nat)
    requires done != [] && done[|done| - 1] && i < |done|
    ensures var ends := DoneRows(done, |done|);
            && k < |ends| && StartOf(ends, k) <= i <= ends[k]
            && forall j :: 0 <= j < |ends| && StartOf(ends, j) <= i <= ends[j] ==> j == k
  {
    var ends := DoneRows(done, |done|);
    DoneRowsAll(done, |done|, EpisodeEnd(done, i));
    k :| 0 <= k < |ends| && ends[k] == EpisodeEnd(done, i);
    assert k > 0 ==> ends[k - 1] < ends[k] && done[ends[k - 1]];
    forall j | 0 <= j < |ends| && StartOf(ends, j) <= i <= ends[j] ensures j == k {
      Segment(done, j, i);
    }
  }

  /** The double loop over segments; None when the replay does not end on a terminal row. */
  method TrainLabels(reward: seq<real>, done: seq<bool>, gamma: real, scale: real) returns (labels: Option<array<real>>)
    requires |reward| == |done|
    ensures labels.Some? <==> Closed(reward, done)
    ensures labels.Some? ==> fresh(labels.value) && labels.value.Length == |reward|
    ensures labels.Some? ==>
      forall i :: 0 <= i < |reward| ==> labels.value[i] == Return(reward, done, scale, gamma, i)
  {
    var n := |reward|;
    if n <= 0 || !done[n - 1] {
      return None;
    }
    var out := new real[n];
    var ends := DoneRows(done, n);
    LastSegment(done);
    for k := 0 to |ends|
      invariant forall i :: 0 <= i < StartOf(ends, k) ==> out[i] == Return(reward, done, scale, gamma, i)
    {
      var start, end := StartOf(ends, k), ends[k];
      assert k > 0 ==> ends[k - 1] < ends[k];
      var total := 0.0;
      for index := end + 1 downto start
        invariant start <= end + 1
        invariant index <= end ==> total == Return(reward, done, scale, gamma, index)
        invariant index == end + 1 ==> total == 0.0
        invariant forall i :: 0 <= i < start || index <= i <= end ==> out[i] == Return(reward, done, scale, gamma, i)
      {
        Segment(done, k, index);
        total := scale * reward[index] + gamma * total;
        out[index] := total;
      }
    }
    labels := Some(out);
  }

  // ----- Value backups

  ghost predicate ValuesFor(reward: seq<real>, done: seq<bool>, v: seq<real>) {
    Closed(reward, done) && |v| == |reward|
  }

  /** One Bellman backup of the bootstrap values, at every row. */
  function Backup(reward: seq<real>, done: seq<bool>, scale: real, gamma: real, v: seq<real>): (r: seq<real>)
    requires ValuesFor(reward, done, v)
    ensures |r| == |v|
  {
    seq(|v|, i requires 0 <= i < |v| => scale * reward[i] + (if done[i] then 0.0 else gamma * v[i + 1]))
  }

  function Iterate(reward: seq<real>, done: seq<bool>, scale: real, gamma: real, v: seq<real>, n: nat): (r: seq<real>)
    requires ValuesFor(reward, done, v)
    ensures |r| == |v|
  {
    if n == 0 then v else Backup(reward, done, scale, gamma, Iterate(reward, done, scale, gamma, v, n - 1))
  }

  /** The rows of the n-step window that starts at i. */
  function WindowLength(done: seq<bool>, i: nat, n: nat): nat
    requires i < |done| && done[|done| - 1]
  {
    var left := EpisodeEnd(done, i) - i + 1;
    if n < left then n else left
  }

  /** The n-step target: discounted rewards of the window, and a bootstrap unless it ends the episode. */
  function NStepTarget(reward: seq<real>, done: seq<bool>, scale: real, gamma: real, v: seq<real>, i: nat, n: nat): real
    requires ValuesFor(reward, done, v) && i < |v|
  {
    var len := WindowLength(done, i, n);
    DiscountedSum(reward[i..i + len], scale, gamma) +
    (if i + n <= EpisodeEnd(done, i) then Power(gamma, n) * v[i + n] else 0.0)
  }

  lemma FactorTail(gamma: real, p: real, q: real, x: real, y: real, u: real)
    requires q == gamma * p
    ensures x + gamma * y + q * u == x + gamma * (y + p * u)
  {
    assert q * u == gamma * (p * u);
  }

  /** The n-step target peels off its first reward. */
  lemma NStepHead(reward: seq<real>, done: seq<bool>, scale: real, gamma: real, v: seq<real>, i: nat, n: nat)
    requires ValuesFor(reward, done, v) && i < |v| && n > 0
    ensures NStepTarget(reward, done, scale, gamma, v, i, n) ==
            scale * reward[i] + (if done[i] then 0.0 else gamma * NStepTarget(reward, done, scale, gamma, v, i + 1, n - 1))
  {
    hide DiscountedSum;
    var r := reward[i..i + WindowLength(done, i, n)];
    DiscountedSumHead(r, scale, gamma);
    if done[i] {
      assert r[1..] == [];
      EmptySum(scale, gamma);
    } else {
      var rest := reward[i + 1..i + 1 + WindowLength(done, i + 1, n - 1)];
      assert r[1..] == rest;
      if i + n <= EpisodeEnd(done, i) {
        FactorTail(gamma, Power(gamma, n - 1), Power(gamma, n), scale * reward[i],
                   DiscountedSum(rest, scale, gamma), v[i + n]);
      }
    }
  }

  lemma {:induction false} EmptySum(scale: real, gamma: real)
    ensures DiscountedSum([], scale, gamma) == 0.0
  {
  }

  lemma NStepZero(reward: seq<real>, done: seq<bool>, scale: real, gamma: real, v: seq<real>, i: nat)
    requires ValuesFor(reward, done, v) && i < |v|
    ensures NStepTarget(reward, done, scale, gamma, v, i, 0) == v[i]
  {
    assert reward[i..i] == [];
  }

  lemma BackupAt(reward: seq<real>, done: seq<bool>, scale: real, gamma: real, v: seq<real>, i: nat)
    requires ValuesFor(reward, done, v) && i < |v|
    ensures Backup(reward, done, scale, gamma, v)[i] ==
            scale * reward[i] + (if done[i] then 0.0 else gamma * v[i + 1])
  {
  }

  /** n composed one-step backups give the n-step target. */
  lemma {:induction false} BackupsCompose(reward: seq<real>, done: seq<bool>, scale: real, gamma: real,
      v: seq<real>, i: nat, n: nat)
    requires ValuesFor(reward, done, v) && i < |v|
    ensures Iterate(reward, done, scale, gamma, v, n)[i] == NStepTarget(reward, done, scale, gamma, v, i, n)
    decreases n
  {
    hide NStepTarget, Backup;
    if n == 0 {
      NStepZero(reward, done, scale, gamma, v, i);
    } else {
      NStepHead(reward, done, scale, gamma, v, i, n);
      BackupAt(reward, done, scale, gamma, Iterate(reward, done, scale, gamma, v, n - 1), i);
      if !done[i] {
        BackupsCompose(reward, done, scale, gamma, v, i + 1, n - 1);
      }
    }
  }

  function ReturnsOf(reward: seq<real>, done: seq<bool>, scale: real, gamma: real): seq<real>
    requires Closed(reward, done)
  {
    seq(|reward|, i requires 0 <= i < |reward| => Return(reward, done, scale, gamma, i))
  }

  /** The returns are the fixed point of the backup. */
  lemma {:induction false} ReturnsAreFixed(reward: seq<real>, done: seq<bool>, scale: real, gamma: real, n: nat)
    requires Closed(reward, done)
    ensures var g := ReturnsOf(reward, done, scale, gamma); Iterate(reward, done, scale, gamma, g, n) == g
  {
    if n > 0 {
      var g := ReturnsOf(reward, done, scale, gamma);
      ReturnsAreFixed(reward, done, scale, gamma, n - 1);
      ReturnsBackUp(reward, done, scale, gamma);
      hide Backup, ReturnsOf;
      assert Iterate(reward, done, scale, gamma, g, n) == Backup(reward, done, scale, gamma, g);
    }
  }

  lemma ReturnsBackUp(reward: seq<real>, done: seq<bool>, scale: real, gamma: real)
    requires Closed(reward, done)
    ensures Backup(reward, done, scale, gamma, ReturnsOf(reward, done, scale, gamma)) == ReturnsOf(reward, done, scale, gamma)
  {
    var g := ReturnsOf(reward, done, scale, gamma);
    hide Backup;
    forall i | 0 <= i < |g| ensures Backup(reward, done, scale, gamma, g)[i] == g[i] {
      BackupAt(reward, done, scale, gamma, g, i);
    }
  }

  /**
   The error of the n-step target: gamma^n times the error of the bootstrap value at the row n
   steps on, and none at all when the window reaches the end of the episode.
   */
  lemma {:induction false} TargetError(reward: seq<real>, done: seq<bool>, scale: real, gamma: real,
      v: seq<real>, i: nat, n: nat)
    requires ValuesFor(reward, done, v) && i < |v|
    ensures NStepTarget(reward, done, scale, gamma, v, i, n) - Return(reward, done, scale, gamma, i) ==
            if i + n <= EpisodeEnd(done, i)
            then Power(gamma, n) * (v[i + n] - Return(reward, done, scale, gamma, i + n))
            else 0.0
  {
    hide Power, DiscountedSum, NStepTarget, EpisodeEnd, Return, Iterate;
    var g := ReturnsOf(reward, done, scale, gamma);
    BackupsCompose(reward, done, scale, gamma, g, i, n);
    ReturnsAreFixed(reward, done, scale, gamma, n);
    TwoTargets(reward, done, scale, gamma, v, g, i, n);
  }

  /** Targets from two sets of bootstrap values differ by the discounted difference of one value at most. */
  lemma {:induction false} TwoTargets(reward: seq<real>, done: seq<bool>, scale: real, gamma: real,
      v: seq<real>, u: seq<real>, i: nat, n: nat)
    requires ValuesFor(reward, done, v) && ValuesFor(reward, done, u) && i < |v|
    ensures NStepTarget(reward, done, scale, gamma, v, i, n) - NStepTarget(reward, done, scale, gamma, u, i, n) ==
            if i + n <= EpisodeEnd(done, i) then Power(gamma, n) * (v[i + n] - u[i + n]) else 0.0
  {
    hide Power, DiscountedSum;
    if i + n <= EpisodeEnd(done, i) {
      Spread(Power(gamma, n), v[i + n], u[i + n]);
    }
  }

  lemma Spread(p: real, a: real, b: real)
    ensures p * (a - b) == p * a - p * b
  {
  }

  lemma {:induction false} PowerRange(gamma: real, n: nat)
    requires 0.0 <= gamma <= 1.0
    ensures 0.0 <= Power(gamma, n) <= 1.0
  {
    if n > 0 {
      PowerRange(gamma, n - 1);
      var p := Power(gamma, n - 1);
      NonNegative(gamma, p, gamma * p);
      NonNegative(1.0 - gamma, p, (1.0 - gamma) * p);
      assert gamma * p + (1.0 - gamma) * p == p;
    }
  }

  lemma ScaleBound(p: real, x: real, bound: real)
    requires 0.0 <= p && Abs(x) <= bound
    ensures Abs(p * x) <= p * bound
  {
    NonNegative(p, bound - x, p * (bound - x));
    NonNegative(p, bound + x, p * (bound + x));
  }

  /** Longer windows contract: an error bound on the values shrinks by gamma^n. */
  lemma {:induction false} TargetContracts(reward: seq<real>, done: seq<bool>, scale: real, gamma: real,
      v: seq<real>, i: nat,
      n: nat, bound: real)
    requires ValuesFor(reward, done, v) && i < |v| && 0.0 <= gamma <= 1.0 && bound >= 0.0
    requires forall k :: 0 <= k < |v| ==> Abs(v[k] - Return(reward, done, scale, gamma, k)) <= bound
    ensures Abs(NStepTarget(reward, done, scale, gamma, v, i, n) - Return(reward, done, scale, gamma, i))
            <= Power(gamma, n) * bound
  {
    hide NStepTarget, Power, Return;
    TargetError(reward, done, scale, gamma, v, i, n);
    PowerRange(gamma, n);
    if i + n <= EpisodeEnd(done, i) {
      ScaleBound(Power(gamma, n), v[i + n] - Return(reward, done, scale, gamma, i + n), bound);
    } else {
      NonNegative(Power(gamma, n), bound, Power(gamma, n) * bound);
    }
  }
}
