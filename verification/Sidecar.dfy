/**
 The sequence sidecar of a replay buffer: task budgets, next-row links and five-row windows,
 and the targets of one training branch that are computed from it.
 */
module Sidecar {
  import opened Basics
  import opened Returns

  const WINDOW: nat := 5

  /** The entries of all tables for one row. */
  datatype Entry = Entry(t: nat, stepsToEnd: nat, nextIndex: int, nstepIndices: seq<int>, nstepLength: nat,
                         nstepTerminal: bool, bootstrapIndex: int, remaining: int, nextRemaining: int)
  type Tables = seq<Entry>

  /** The first row of the episode that row i belongs to. */
  function EpisodeStart(done: seq<bool>, i: nat): (s: nat)
    requires i < |done|
    ensures s <= i && (forall k :: s <= k < i ==> !done[k]) && (s > 0 ==> done[s - 1])
  {
    if i == 0 || done[i - 1] then i else EpisodeStart(done, i - 1)
  }

  /** What the tables hold for row i. */
  ghost predicate Describes(done: seq<bool>, horizon: int, e: Entry, i: nat)
    requires i < |done| && done[|done| - 1]
  {
    && e.t == i - EpisodeStart(done, i)
    && e.stepsToEnd == EpisodeEnd(done, i) - i
    && e.nextIndex == (if done[i] then -1 else i + 1)
    && |e.nstepIndices| == 5
    && (forall k :: 0 <= k < 5 ==> e.nstepIndices[k] == if k < WindowLength(done, i, 5) then i + k else -1)
    && e.nstepLength == WindowLength(done, i, 5)
    && (e.nstepTerminal <==> EpisodeEnd(done, i) < i + 5)
    && e.bootstrapIndex == (if e.nstepTerminal then -1 else i + 5)
    && e.remaining == horizon - e.t
    && e.nextRemaining == horizon - e.t - 1
  }

  ghost predicate Describe(done: seq<bool>, horizon: int, s: Tables)
    requires done != [] && done[|done| - 1]
  {
    |s| == |done| && forall i :: 0 <= i < |done| ==> Describes(done, horizon, s[i], i)
  }

  /** The end points of every nonterminal row are those of the next row. */
  ghost predicate Continuous(done: seq<bool>, joined: seq<bool>)
    requires |joined| == |done|
  {
    forall i :: 0 <= i < |done| - 1 && !done[i] ==> joined[i]
  }

  /** No episode is longer than its step budget. */
  ghost predicate WithinBudget(done: seq<bool>, horizon: int) {
    forall i :: 0 <= i < |done| ==> i - EpisodeStart(done, i) < horizon
  }

  function EpisodeLengths(done: seq<bool>): seq<int> {
    var ends := DoneRows(done, |done|);
    seq(|ends|, k requires 0 <= k < |ends| => ends[k] - StartOf(ends, k) + 1)
  }

  /** Each episode length is the number of rows that end with its done row. */
  lemma {:induction false} EpisodeLengthsCount(done: seq<bool>, k: nat)
    requires done != [] && done[|done| - 1] && k < |DoneRows(done, |done|)|
    ensures |EpisodeLengths(done)| == |DoneRows(done, |done|)|
    ensures EpisodeLengths(done)[k] == |RowsEndingAt(done, DoneRows(done, |done|)[k])|
  {
    var ends := DoneRows(done, |done|);
    var start, end := StartOf(ends, k), ends[k];
    Ascending(ends, k);
    forall i: nat ensures i in RowsEndingAt(done, end) <==> i in Below(end + 1) - Below(start) {
      if i < |done| {
        var j := SegmentsPartition(done, i);
        Segment(done, j, i);
        if start <= i <= end {
          Segment(done, k, i);
        }
      }
    }
    assert RowsEndingAt(done, end) == Below(end + 1) - Below(start);
    assert Below(start) <= Below(end + 1);
    SubsetSize(Below(start), Below(end + 1));
    assert Below(end + 1) == Below(start) + (Below(end + 1) - Below(start));
  }

  function RowsEndingAt(done: seq<bool>, end: nat): set<nat>
    requires done != [] && done[|done| - 1]
  {
    set i | 0 <= i < |done| && EpisodeEnd(done, i) == end
  }

  /** The entries of one row; the window stops at the done row or after five rows. */
  method EntryFor(done: seq<bool>, horizon: int, i: nat, t: nat, end: nat) returns (e: Entry)
    requires i < |done| && done[|done| - 1] && end == EpisodeEnd(done, i) && t == i - EpisodeStart(done, i)
    ensures Describes(done, horizon, e, i)
  {
    var indices: seq<int> := seq(WINDOW, _ => -1);
    var length, terminal, cursor: nat, offset := 0, false, i, 0;
    while offset < WINDOW && cursor <= end && !terminal
      invariant 0 <= offset <= WINDOW && |indices| == WINDOW && length == offset
      invariant if terminal then cursor == end && length == end - i + 1 else cursor == i + offset <= end + 1
      invariant !terminal ==> cursor <= end
      invariant forall k :: 0 <= k < WINDOW ==> indices[k] == if k < length then i + k else -1
    {
      indices := indices[offset := cursor];
      length := length + 1;
      if done[cursor] {
        terminal := true;
      } else {
        cursor := cursor + 1;
      }
      offset := offset + 1;
    }
    e := Entry(t, end - i, if done[i] then -1 else i + 1, indices, length, terminal,
               if terminal then -1 else cursor, horizon - t, horizon - t - 1);
  }

  /** t and end are the position of row i in its episode and the done row of that episode. */
  ghost predicate Located(done: seq<bool>, i: nat, t: nat, end: nat)
    requires i < |done| && done[|done| - 1]
  {
    t == i - EpisodeStart(done, i) && end == EpisodeEnd(done, i)
  }

  lemma {:induction false} LocatedBy(done: seq<bool>, k: nat, i: nat)
    requires done != [] && done[|done| - 1]
    requires var ends := DoneRows(done, |done|); k < |ends| && StartOf(ends, k) <= i <= ends[k]
    ensures Located(done, i, i - StartOf(DoneRows(done, |done|), k), DoneRows(done, |done|)[k])
  {
    Segment(done, k, i);
    SegmentStart(done, k, i);
  }

  lemma Ascending(ends: seq<nat>, k: nat)
    requires k < |ends| && Increasing(ends)
    ensures StartOf(ends, k) <= ends[k]
  {
  }

  /** Position and end of every row, segment by segment. */
  method FillEpisodes(done: seq<bool>) returns (t: array<nat>, last: array<nat>)
    requires done != [] && done[|done| - 1]
    ensures fresh(t) && fresh(last) && t.Length == last.Length == |done|
    ensures forall i :: 0 <= i < |done| ==> Located(done, i, t[i], last[i])
  {
    var n := |done|;
    var ends := DoneRows(done, n);
    LastSegment(done);
    t, last := new nat[n], new nat[n];
    hide DoneRows, Located, Increasing;
    for k := 0 to |ends|
      invariant forall i :: 0 <= i < StartOf(ends, k) ==> Located(done, i, t[i], last[i])
    {
      var start, end := StartOf(ends, k), ends[k];
      Ascending(ends, k);
      for i := start to end + 1
        invariant forall j :: 0 <= j < i ==> Located(done, j, t[j], last[j])
      {
        LocatedBy(done, k, i);
        t[i], last[i] := i - start, end;
      }
    }
  }

  method CheckContinuity(done: seq<bool>, joined: seq<bool>) returns (ok: bool)
    requires |joined| == |done| > 0
    ensures ok <==> Continuous(done, joined)
  {
    for i := 0 to |done| - 1
      invariant forall j :: 0 <= j < i && !done[j] ==> joined[j]
    {
      if !done[i] && !joined[i] {
        return false;
      }
    }
    ok := true;
  }

  /** Reconstruct and validate the episodes; None stands for a ValueError. */
  method BuildSequenceSidecar(done: seq<bool>, joined: seq<bool>, horizon: int, lengths: Option<seq<int>>)
    returns (s: Option<Tables>)
    requires |joined| == |done|
    ensures s.Some? <==>
      && done != [] && horizon > 0 && done[|done| - 1]
      && Continuous(done, joined) && WithinBudget(done, horizon)
      && (lengths.Some? ==> lengths.value == EpisodeLengths(done))
    ensures s.Some? ==> Describe(done, horizon, s.value)
  {
    hide Describes, Continuous;
    var n := |done|;
    if n <= 0 || horizon <= 0 || !done[n - 1] {
      return None;
    }
    var t, last := FillEpisodes(done);
    var ok := CheckContinuity(done, joined);
    if !ok || (lengths.Some? && lengths.value != EpisodeLengths(done)) {
      return None;
    }
    s := FillTables(done, horizon, t[..], last[..]);
  }

  /** The row tables, one row after the other; None when an episode outlasts the budget. */
  method FillTables(done: seq<bool>, horizon: int, t: seq<nat>, last: seq<nat>) returns (s: Option<Tables>)
    requires done != [] && done[|done| - 1] && |t| == |last| == |done|
    requires forall i :: 0 <= i < |done| ==> t[i] == i - EpisodeStart(done, i) && last[i] == EpisodeEnd(done, i)
    ensures s.Some? <==> WithinBudget(done, horizon)
    ensures s.Some? ==> Describe(done, horizon, s.value)
  {
    hide Describes, EpisodeStart, EpisodeEnd;
    var out: Tables := [];
    for i := 0 to |done|
      invariant |out| == i && forall j :: 0 <= j < i ==> Describes(done, horizon, out[j], j) && t[j] < horizon
    {
      if t[i] >= horizon {
        return None;
      }
      var e := EntryFor(done, horizon, i, t[i], last[i]);
      out := out + [e];
    }
    s := Some(out);
  }

  lemma {:induction false} SegmentStart(done: seq<bool>, k: nat, i: nat)
    requires done != [] && done[|done| - 1]
    requires var ends := DoneRows(done, |done|); k < |ends| && StartOf(ends, k) <= i <= ends[k]
    ensures EpisodeStart(done, i) == StartOf(DoneRows(done, |done|), k)
  {
    var start := StartOf(DoneRows(done, |done|), k);
    if i > start {
      Segment(done, k, i - 1);
      SegmentStart(done, k, i - 1);
    }
  }

  // ----- The targets of a training branch

  /**
   The target of every start row: one step, or the five-row window whatever other n_step is asked
   for. Values stand for the masked expected target value of each row's state and budget.
   */
  method TargetForStarts(nStep: int, reward: seq<real>, done: seq<bool>, horizon: int, s: Tables, scale: real, gamma: real,
                         values: seq<real>, starts: seq<nat>) returns (target: array<real>)
    requires ValuesFor(reward, done, values) && Describe(done, horizon, s)
    requires forall j :: 0 <= j < |starts| ==> starts[j] < |reward|
    ensures fresh(target) && target.Length == |starts|
    ensures forall j :: 0 <= j < |starts| ==>
      target[j] == NStepTarget(reward, done, scale, gamma, values, starts[j], if nStep == 1 then 1 else 5)
  {
    hide NStepTarget, Describe;
    if nStep == 1 {
      target := OneStepTargets(reward, done, horizon, s, scale, gamma, values, starts);
    } else {
      target := new real[|starts|](_ => 0.0);
      AddRewards(reward, done, horizon, s, scale, gamma, starts, target);
      AddBootstraps(reward, done, horizon, s, scale, gamma, values, starts, target);
    }
  }

  method OneStepTargets(reward: seq<real>, done: seq<bool>, horizon: int, s: Tables, scale: real, gamma: real,
                        values: seq<real>, starts: seq<nat>) returns (target: array<real>)
    requires ValuesFor(reward, done, values) && Describe(done, horizon, s)
    requires forall j :: 0 <= j < |starts| ==> starts[j] < |reward|
    ensures fresh(target) && target.Length == |starts|
    ensures forall j :: 0 <= j < |starts| ==> target[j] == NStepTarget(reward, done, scale, gamma, values, starts[j], 1)
  {
    hide NStepTarget, EpisodeStart, EpisodeEnd;
    target := new real[|starts|];
    for j := 0 to |starts|
      invariant forall k :: 0 <= k < j ==> target[k] == NStepTarget(reward, done, scale, gamma, values, starts[k], 1)
    {
      var i := starts[j];
      NStepHead(reward, done, scale, gamma, values, i, 1);
      target[j] := reward[i] * scale;
      if !done[i] {
        NStepZero(reward, done, scale, gamma, values, i + 1);
        target[j] := target[j] + gamma * values[s[i].nextIndex];
      }
    }
  }

  /** Accumulate the window's rewards, offset by offset. */
  method AddRewards(reward: seq<real>, done: seq<bool>, horizon: int, s: Tables, scale: real, gamma: real,
                    starts: seq<nat>, target: array<real>)
    requires Closed(reward, done) && Describe(done, horizon, s)
    requires target.Length == |starts| && forall j :: 0 <= j < |starts| ==> starts[j] < |reward| && target[j] == 0.0
    modifies target
    ensures forall j :: 0 <= j < |starts| ==> target[j] == Partial(reward, done, scale, gamma, starts[j], WINDOW)
  {
    hide Describes, Partial, EpisodeEnd, Power;
    forall j | 0 <= j < |starts| ensures Partial(reward, done, scale, gamma, starts[j], 0) == 0.0 {
      PartialZero(reward, done, scale, gamma, starts[j]);
    }
    for offset := 0 to WINDOW
      invariant forall k :: 0 <= k < |starts| ==> target[k] == Partial(reward, done, scale, gamma, starts[k], offset)
    {
      for j := 0 to |starts|
        invariant forall k :: 0 <= k < j ==> target[k] == Partial(reward, done, scale, gamma, starts[k], offset + 1)
        invariant forall k :: j <= k < |starts| ==> target[k] == Partial(reward, done, scale, gamma, starts[k], offset)
      {
        var i := starts[j];
        WindowTables(done, horizon, s, i, offset);
        PartialNext(reward, done, scale, gamma, i, offset);
        if offset < s[i].nstepLength {
          target[j] := target[j] + Power(gamma, offset) * (scale * reward[s[i].nstepIndices[offset]]);
        }
      }
    }
  }

  lemma {:induction false} WindowTables(done: seq<bool>, horizon: int, s: Tables, i: nat, k: nat)
    requires done != [] && done[|done| - 1] && Describe(done, horizon, s) && i < |done| && k < WINDOW
    ensures |s[i].nstepIndices| == WINDOW
    ensures k < s[i].nstepLength <==> i + k <= EpisodeEnd(done, i)
    ensures k < s[i].nstepLength ==> s[i].nstepIndices[k] == i + k < |done|
  {
    assert Describes(done, horizon, s[i], i);
  }

  /** Bootstrap the windows that do not reach the end of their episode. */
  method AddBootstraps(reward: seq<real>, done: seq<bool>, horizon: int, s: Tables, scale: real, gamma: real,
                       values: seq<real>, starts: seq<nat>, target: array<real>)
    requires ValuesFor(reward, done, values) && Describe(done, horizon, s)
    requires target.Length == |starts| && forall j :: 0 <= j < |starts| ==>
      starts[j] < |reward| && target[j] == Partial(reward, done, scale, gamma, starts[j], WINDOW)
    modifies target
    ensures forall j :: 0 <= j < |starts| ==>
      target[j] == NStepTarget(reward, done, scale, gamma, values, starts[j], WINDOW)
  {
    hide EpisodeStart, EpisodeEnd, Power, DiscountedSum;
    for j := 0 to |starts|
      invariant forall k :: 0 <= k < j ==> target[k] == NStepTarget(reward, done, scale, gamma, values, starts[k], WINDOW)
      invariant forall k :: j <= k < |starts| ==> target[k] == Partial(reward, done, scale, gamma, starts[k], WINDOW)
    {
      var i := starts[j];
      assert Describes(done, horizon, s[i], i);
      if !s[i].nstepTerminal {
        target[j] := target[j] + Power(gamma, WINDOW) * values[s[i].bootstrapIndex];
      }
    }
  }

  /** The rewards of the first m rows of a window. */
  function Partial(reward: seq<real>, done: seq<bool>, scale: real, gamma: real, i: nat, m: nat): real
    requires Closed(reward, done) && i < |reward|
  {
    DiscountedSum(reward[i..i + WindowLength(done, i, m)], scale, gamma)
  }

  lemma PartialZero(reward: seq<real>, done: seq<bool>, scale: real, gamma: real, i: nat)
    requires Closed(reward, done) && i < |reward|
    ensures Partial(reward, done, scale, gamma, i, 0) == 0.0
  {
    assert reward[i..i] == [];
  }

  lemma PartialNext(reward: seq<real>, done: seq<bool>, scale: real, gamma: real, i: nat, m: nat)
    requires Closed(reward, done) && i < |reward|
    ensures Partial(reward, done, scale, gamma, i, m + 1) ==
            Partial(reward, done, scale, gamma, i, m) +
            (if i + m <= EpisodeEnd(done, i) then Power(gamma, m) * (scale * reward[i + m]) else 0.0)
  {
    if i + m <= EpisodeEnd(done, i) {
      assert reward[i..i + m + 1][..m] == reward[i..i + m];
    }
  }

  /** The budget seen after row i is the budget that row i's successor sees before acting. */
  lemma BudgetsLink(done: seq<bool>, horizon: int, s: Tables, i: nat)
    requires done != [] && done[|done| - 1] && Describe(done, horizon, s) && i < |done| && !done[i]
    ensures s[i].nextIndex == i + 1 < |done|
    ensures s[s[i].nextIndex].remaining == s[i].nextRemaining
    ensures s[i].stepsToEnd == s[s[i].nextIndex].stepsToEnd + 1
  {
  }
}
