/**
 Whole runs of the collector: what the ledger says in every reachable state, and why
 the final gate certifies that every single target was accepted.
 */
module CollectorRuns {
  import opened Basics
  import opened CollectorSpec
  import opened CollectorSafety
  import opened CollectorPlan

  // ----- Reading the ledger

  function Completed(branches: seq<Branch>): seq<Branch> {
    if branches == [] then [] else
    var last := branches[|branches| - 1];
    Completed(branches[..|branches| - 1]) + (if last.status.Completed? then [last] else [])
  }

  function Failures(branches: seq<Branch>): multiset<Failure> {
    if branches == [] then multiset{} else
    var front, last := Failures(branches[..|branches| - 1]), branches[|branches| - 1];
    if last.status.Failed? then front + multiset{last.status.failure} else front
  }

  function Skips(states: seq<StateRecord>): multiset<Failure> {
    if states == [] then multiset{} else
    var front, last := Skips(states[..|states| - 1]), states[|states| - 1];
    if last.status.Skipped? then front + multiset{last.status.failure} else front
  }

  lemma {:induction false} BranchEnd(branches: seq<Branch>, b: Branch)
    ensures Completed(branches + [b]) == Completed(branches) + (if b.status.Completed? then [b] else [])
    ensures Failures(branches + [b]) ==
            if b.status.Failed? then Failures(branches) + multiset{b.status.failure} else Failures(branches)
  {
    assert (branches + [b])[..|branches|] == branches;
  }

  lemma {:induction false} StateEnd(states: seq<StateRecord>, r: StateRecord)
    ensures Skips(states + [r]) ==
            if r.status.Skipped? then Skips(states) + multiset{r.status.failure} else Skips(states)
  {
    assert (states + [r])[..|states|] == states;
  }

  // ----- The invariant

  /** The step budget was never exceeded, and no illegal command was ever sent. */
  ghost predicate Safe(cfg: Config, l: Ledger) {
    StepCount(l.log) <= Max(0, cfg.maxEnvSteps) && Legal(l.log)
  }

  ghost predicate Tallied(failures: map<Failure, nat>, skips: multiset<Failure>, fails: multiset<Failure>) {
    forall f :: Tally(failures, f) == skips[f] + fails[f]
  }

  /** The counters agree with the records they count. */
  ghost predicate Books(cfg: Config, l: Ledger) {
    && |l.branches| == l.episodes <= Max(0, cfg.maxEpisodes)
    && |l.rows| <= Max(0, cfg.maxTransitions)
    && |Failures(l.branches)| == |l.branches| - |l.rows|
    && Tallied(l.failures, Skips(l.states), Failures(l.branches))
    && Tally(l.failures, NoLegalCandidates) == 0
    && Tally(l.failures, Runtime) == if l.runtimeFailure then 1 else 0
  }

  ghost predicate SamePlace(a: Branch, b: Branch) {
    a.stateIndex == b.stateIndex && a.planned.action == b.planned.action
  }

  /** Every branch belongs to a state record; no state tries an action twice. */
  ghost predicate Filed(l: Ledger) {
    && (forall k :: 0 <= k < |l.states| ==> l.states[k].index == k)
    && (forall i :: 0 <= i < |l.branches| ==>
          && l.branches[i].stateIndex < |l.states|
          && l.states[l.branches[i].stateIndex].stateId == Some(l.branches[i].stateId))
    && (forall i, j :: 0 <= i < j < |l.branches| ==> !SamePlace(l.branches[i], l.branches[j]))
  }

  /** The rows are those of the completed branches, in order, and their actions are legal. */
  ghost predicate Matched(l: Ledger) {
    && |Completed(l.branches)| == |l.rows|
    && (forall i :: 0 <= i < |l.rows| ==>
          && l.rows[i].stateId == Completed(l.branches)[i].stateId
          && l.rows[i].planned == Completed(l.branches)[i].planned
          && l.rows[i].planned.action >= 0
          && MaskAt(l.rows[i].mask, l.rows[i].planned.action) == Some(true))
  }

  ghost predicate Linked(l: Ledger) {
    Filed(l) && Matched(l)
  }

  ghost predicate HasRow(branches: seq<Branch>, k: nat) {
    exists i :: 0 <= i < |Completed(branches)| && Completed(branches)[i].stateIndex == k
  }

  /** A visited state is called accepted exactly when it has a row. */
  ghost predicate Settled(l: Ledger) {
    forall k :: 0 <= k < |l.states| ==>
      l.states[k].status != Collecting && (l.states[k].status == Accepted <==> HasRow(l.branches, k))
  }

  ghost predicate Sound(cfg: Config, l: Ledger) {
    Safe(cfg, l) && Books(cfg, l) && Linked(l)
  }

  // ----- Every step keeps it

  lemma {:induction false} CompletedFrom(branches: seq<Branch>, i: nat)
    requires i < |Completed(branches)|
    ensures Completed(branches)[i] in branches
  {
    var front := branches[..|branches| - 1];
    if i < |Completed(front)| {
      CompletedFrom(front, i);
    }
  }

  lemma BumpTally(failures: map<Failure, nat>, f: Failure, g: Failure)
    ensures Tally(Bump(failures, f), g) == Tally(failures, g) + if f == g then 1 else 0
  {
  }

  /** One failure more, in the tally and in the multiset it agrees with. */
  lemma BumpTallied(failures: map<Failure, nat>, skips: multiset<Failure>, fails: multiset<Failure>, f: Failure)
    requires Tallied(failures, skips, fails)
    ensures Tallied(Bump(failures, f), skips, fails + multiset{f}) && Tallied(Bump(failures, f), skips + multiset{f}, fails)
    ensures |fails + multiset{f}| == |fails| + 1
  {
    forall g ensures Tally(Bump(failures, f), g) == skips[g] + (fails + multiset{f})[g] == (skips + multiset{f})[g] + fails[g] {
      BumpTally(failures, f, g);
    }
  }

  /** The open state the candidates of which are being tried. */
  ghost predicate Open(l: Ledger, index: nat, id: int) {
    |l.states| == index + 1 && l.states[index].stateId == Some(id)
  }

  ghost predicate Unused(branches: seq<Branch>, index: nat, plan: seq<Planned>) {
    forall i :: 0 <= i < |branches| && branches[i].stateIndex == index ==>
      branches[i].planned.action !in Actions(plan)
  }

  /** The planned actions are different action numbers. */
  ghost predicate Fresh(plan: seq<Planned>) {
    Distinct(Actions(plan)) && forall i :: 0 <= i < |plan| ==> plan[i].action >= 0
  }

  /** What TrialSafe promises about a trial, as far as bookkeeping needs it. */
  ghost predicate Consistent(id: int, planned: Planned, t: Trial) {
    && (t.row.Some? <==> t.walk.fate == Going)
    && t.walk.fate != Blocked(Runtime) && t.walk.fate != Blocked(NoLegalCandidates)
    && (t.row.Some? ==>
          && t.row.value.stateId == id && t.row.value.planned == planned
          && MaskAt(t.row.value.mask, planned.action) == Some(true))
  }

  lemma BookBooks(cfg: Config, l: Ledger, index: nat, id: int, planned: Planned, t: Trial)
    requires Books(cfg, l) && !l.runtimeFailure && !LimitReached(cfg, l) && Consistent(id, planned, t)
    ensures Books(cfg, Book(l, index, id, planned, t))
  {
    var l1 := Book(l, index, id, planned, t);
    BookFields(l, index, id, planned, t);
    hide Book, MaskAt, Completed, Failures, Skips, Tallied, Tally, Bump;
    var b := l1.branches[|l.branches|];
    BranchEnd(l.branches, b);
    if b.status.Failed? {
      BumpTallied(l.failures, Skips(l.states), Failures(l.branches), b.status.failure);
      BumpTally(l.failures, b.status.failure, NoLegalCandidates);
      BumpTally(l.failures, b.status.failure, Runtime);
    }
  }

  /** What booking a trial does to the counters. */
  lemma BookFields(l: Ledger, index: nat, id: int, planned: Planned, t: Trial)
    requires !l.runtimeFailure && Consistent(id, planned, t)
    ensures var l1 := Book(l, index, id, planned, t);
            && l1.states == l.states && l1.episodes == l.episodes + 1
            && |l1.branches| == |l.branches| + 1
            && var b := l1.branches[|l.branches|];
               && l1.branches == l.branches + [b]
               && (b.status.Completed? ==>
                     |l1.rows| == |l.rows| + 1 && l1.failures == l.failures && !l1.runtimeFailure)
               && (b.status.Failed? ==>
                     && l1.rows == l.rows && l1.failures == Bump(l.failures, b.status.failure)
                     && (l1.runtimeFailure <==> b.status.failure == Runtime)
                     && b.status.failure != NoLegalCandidates)
  {
    hide Bump, MaskAt, TerminalReason;
  }

  lemma BookMatched(l: Ledger, index: nat, id: int, planned: Planned, t: Trial)
    requires Matched(l) && Consistent(id, planned, t) && planned.action >= 0
    ensures Matched(Book(l, index, id, planned, t))
  {
    hide MaskAt;
    var l1 := Book(l, index, id, planned, t);
    BranchEnd(l.branches, l1.branches[|l.branches|]);
  }

  lemma BookFiled(l: Ledger, index: nat, id: int, planned: Planned, t: Trial)
    requires Filed(l) && Open(l, index, id) && Unused(l.branches, index, [planned])
    ensures Filed(Book(l, index, id, planned, t))
  {
    var b := Book(l, index, id, planned, t).branches[|l.branches|];
    forall i | 0 <= i < |l.branches| ensures !SamePlace(l.branches[i], b) {
      assert planned.action == Actions([planned])[0];
    }
  }

  /** Trying the planned candidates extends the records of the open state and no others. */
  ghost predicate Extends(l: Ledger, l1: Ledger, index: nat) {
    && l1.states == l.states
    && l.branches <= l1.branches
    && forall i :: |l.branches| <= i < |l1.branches| ==> l1.branches[i].stateIndex == index
  }

  lemma {:induction false} TryPlannedSound(w: World, cfg: Config, l: Ledger, index: nat, dim: nat,
                                           target: Target, id: int, plan: seq<Planned>)
    requires Sound(cfg, l) && l.used == StepCount(l.log) && !l.runtimeFailure
    requires Open(l, index, id) && Unused(l.branches, index, plan) && Fresh(plan)
    ensures var l1 := TryPlanned(w, cfg, l, index, dim, target, id, plan);
            Sound(cfg, l1) && Extends(l, l1, index) && (!l1.runtimeFailure ==> l1.used == StepCount(l1.log))
    decreases |plan|
  {
    hide TryCandidate, Books, Filed, Matched, Legal, Branches, StatesShown, TickActions, TotalReward, OneEnd, Ended;
    hide TerminalReason, Episode, StepCount;
    if plan != [] && !LimitReached(cfg, l) {
      var t := TryCandidate(w, cfg, dim, l.log, l.used, target, id, plan[0]);
      TrialSafe(w, cfg, dim, l.log, l.used, target, id, plan[0]);
      var l1 := Book(l, index, id, plan[0], t);
      assert Actions(plan)[0] == plan[0].action;
      forall i | 0 <= i < |l.branches| && l.branches[i].stateIndex == index
        ensures l.branches[i].planned.action !in Actions([plan[0]])
      {
        assert Actions([plan[0]])[0] in Actions(plan);
      }
      BookBooks(cfg, l, index, id, plan[0], t);
      BookMatched(l, index, id, plan[0], t);
      BookFiled(l, index, id, plan[0], t);
      if !l1.runtimeFailure {
        UnusedNext(l.branches, index, plan, l1.branches[|l.branches|]);
        TryPlannedSound(w, cfg, l1, index, dim, target, id, plan[1..]);
      }
    }
  }

  lemma UnusedNext(branches: seq<Branch>, index: nat, plan: seq<Planned>, b: Branch)
    requires plan != [] && Unused(branches, index, plan) && Fresh(plan) && b.planned == plan[0]
    ensures Unused(branches + [b], index, plan[1..]) && Fresh(plan[1..])
  {
    var rest := Actions(plan[1..]);
    assert rest == Actions(plan)[1..];
    assert Actions(plan)[0] == plan[0].action;
    assert forall a :: a in rest ==> a in Actions(plan);
  }

  // ----- Opening, closing and skipping a state

  lemma {:induction false} ExtendedRows(branches: seq<Branch>, more: seq<Branch>, index: nat)
    requires branches <= more
    requires forall i :: 0 <= i < |branches| ==> branches[i].stateIndex < index
    requires forall i :: |branches| <= i < |more| ==> more[i].stateIndex == index
    ensures Completed(branches) <= Completed(more)
    ensures forall i :: |Completed(branches)| <= i < |Completed(more)| ==> Completed(more)[i].stateIndex == index
    decreases |more|
  {
    if branches == more {
    } else {
      var init, last := more[..|more| - 1], more[|more| - 1];
      assert more == init + [last];
      ExtendedRows(branches, init, index);
      BranchEnd(init, last);
    }
  }

  /** New branches of state `index` leave the rows of the earlier states as they were. */
  lemma {:induction false} RowsOfStates(branches: seq<Branch>, more: seq<Branch>, index: nat)
    requires branches <= more
    requires forall i :: 0 <= i < |branches| ==> branches[i].stateIndex < index
    requires forall i :: |branches| <= i < |more| ==> more[i].stateIndex == index
    ensures HasRow(more, index) <==> |Completed(more)| > |Completed(branches)|
    ensures forall k :: 0 <= k < index ==> (HasRow(more, k) <==> HasRow(branches, k))
  {
    hide Completed;
    ExtendedRows(branches, more, index);
    var before, after := Completed(branches), Completed(more);
    forall i | 0 <= i < |before| ensures before[i].stateIndex < index {
      CompletedFrom(branches, i);
    }
    assert forall i :: 0 <= i < |before| ==> after[i] == before[i];
    if |after| > |before| {
      assert after[|before|].stateIndex == index;
    }
    forall k | 0 <= k < index ensures HasRow(more, k) <==> HasRow(branches, k) {
      if i :| 0 <= i < |before| && before[i].stateIndex == k {
        assert after[i].stateIndex == k;
      }
    }
  }

  /** Closing the open state settles it and leaves the earlier states as they were. */
  lemma CloseSettled(l: Ledger, l1: Ledger, index: nat, id: int, plan: seq<Planned>)
    requires Linked(l) && Settled(l) && |l.states| == index
    requires Linked(l1) && l1.states == l.states + [StateRecord(index, Collecting, Some(id), plan)]
    requires l.branches <= l1.branches
    requires forall i :: |l.branches| <= i < |l1.branches| ==> l1.branches[i].stateIndex == index
    ensures Settled(Close(l1, |l.rows|))
  {
    hide HasRow;
    RowsOfStates(l.branches, l1.branches, index);
  }

  lemma CloseSound(cfg: Config, l: Ledger, rowStart: nat)
    requires Sound(cfg, l) && l.states != [] && l.states[|l.states| - 1].status == Collecting
    ensures Sound(cfg, Close(l, rowStart))
  {
    var l1 := Close(l, rowStart);
    assert l1.states[..|l.states| - 1] == l.states[..|l.states| - 1];
    assert Skips(l1.states) == Skips(l.states);
  }

  lemma SkipBooks(cfg: Config, l: Ledger, f: Failure)
    requires Books(cfg, l) && f != NoLegalCandidates && f != Runtime
    ensures Books(cfg, Skip(l, |l.states|, f))
  {
    var r := StateRecord(|l.states|, Skipped(f), None, []);
    StateEnd(l.states, r);
    forall g ensures Tally(Skip(l, |l.states|, f).failures, g) == Skips(l.states + [r])[g] + Failures(l.branches)[g] {
      BumpTally(l.failures, f, g);
    }
    BumpTally(l.failures, f, NoLegalCandidates);
    BumpTally(l.failures, f, Runtime);
  }

  lemma SkipSettled(l: Ledger, f: Failure)
    requires Linked(l) && Settled(l)
    ensures Linked(Skip(l, |l.states|, f)) && Settled(Skip(l, |l.states|, f))
  {
    forall i | 0 <= i < |Completed(l.branches)| ensures Completed(l.branches)[i].stateIndex < |l.states| {
      CompletedFrom(l.branches, i);
    }
  }

  lemma OpenSound(cfg: Config, l: Ledger, id: int, plan: seq<Planned>)
    requires Sound(cfg, l)
    ensures var l1 := l.(states := l.states + [StateRecord(|l.states|, Collecting, Some(id), plan)]);
            Sound(cfg, l1) && Open(l1, |l.states|, id) && Unused(l1.branches, |l.states|, plan)
  {
    StateEnd(l.states, StateRecord(|l.states|, Collecting, Some(id), plan));
  }

  lemma ScreenAdmits(w: World, cfg: Config, index: nat, target: Target, p: Walk)
    ensures match Screen(w, cfg, index, target, p)
            case Abort => true
            case Reject(f) => p.fate != Raised && (p.fate == Blocked(f) || f in {PositionMismatch, BcActionMismatch})
            case Admit(plan) => plan != [] && GoodPlan(p.view.mask, plan) && p.fate == Going
  {
    var bc := BcAction(w, p.obs, p.view.mask, p.prev);
    var teacher := w.teacher(target.mission, p.obs, p.view.mask, p.prev);
    if bc.Some? && teacher.Some? {
      var near := w.neighbours(bc.value, p.view.mask);
      if near.Some? {
        PlanMeetsQuota(w, cfg, index, p.view.mask, bc.value, teacher.value, near.value);
      }
    }
  }

  /** One pass of the outer loop. */
  lemma VisitSound(w: World, cfg: Config, l: Ledger, target: Target)
    requires Sound(cfg, l) && Settled(l) && l.used == StepCount(l.log) && !l.runtimeFailure
    ensures var r := Visit(w, cfg, l, |l.states|, target);
            && Sound(cfg, r.ledger) && Settled(r.ledger)
            && |r.ledger.states| == |l.states| + (if r.Aborted? then 0 else 1)
            && (r.Finished? && !r.ledger.runtimeFailure ==> r.ledger.used == StepCount(r.ledger.log))
  {
    hide Replay, Screen, Books, Linked, Legal, TryPlanned;
    var index := |l.states|;
    ReplaySafe(w, cfg.maxEnvSteps, l.log, l.used, target);
    var p := Replay(w, cfg.maxEnvSteps, l.log, l.used, target);
    ScreenAdmits(w, cfg, index, target, p);
    var l1 := l.(log := p.log, used := p.used);
    LinkedIgnoresLog(cfg, l, p.log, p.used);
    match Screen(w, cfg, index, target, p)
    case Abort => LinkedIgnoresLog(cfg, l, p.log, l.used);
    case Reject(f) =>
      SkipBooks(cfg, l1, f);
      SkipSettled(l1, f);
    case Admit(plan) =>
      var id := w.hash(p.obs, p.view.mask, p.prev);
      OpenSound(cfg, l1, id, plan);
      var l2 := l1.(states := l1.states + [StateRecord(index, Collecting, Some(id), plan)]);
      TryPlannedSound(w, cfg, l2, index, |p.view.mask|, target, id, plan);
      var l3 := TryPlanned(w, cfg, l2, index, |p.view.mask|, target, id, plan);
      CloseSettled(l1, l3, index, id, plan);
      CloseSound(cfg, l3, |l.rows|);
  }

  lemma LinkedIgnoresLog(cfg: Config, l: Ledger, log: Log, used: int)
    requires Books(cfg, l) && Linked(l) && Settled(l)
    ensures var l1 := l.(log := log, used := used); Books(cfg, l1) && Linked(l1) && Settled(l1)
  {
  }

  lemma {:induction false} CollectSound(w: World, cfg: Config, l: Ledger, targets: seq<Target>)
    requires Sound(cfg, l) && Settled(l) && l.used == StepCount(l.log) && !l.runtimeFailure
    requires |l.states| <= |targets|
    ensures var r := Collect(w, cfg, l, targets, |l.states|);
            && Sound(cfg, r.ledger) && Settled(r.ledger)
            && |r.ledger.states| <= |targets|
            && (r.Finished? && !r.ledger.runtimeFailure ==> r.ledger.used == StepCount(r.ledger.log))
    decreases |targets| - |l.states|
  {
    hide Visit, Books, Linked, Legal, Settled;
    if |l.states| < |targets| && !LimitReached(cfg, l) {
      VisitSound(w, cfg, l, targets[|l.states|]);
      var r := Visit(w, cfg, l, |l.states|, targets[|l.states|]);
      if r.Finished? && !r.ledger.runtimeFailure {
        CollectSound(w, cfg, r.ledger, targets);
      }
    }
  }

  /** Every run, however it ends. */
  lemma {:induction false} EveryRun(w: World, cfg: Config, targets: seq<Target>)
    ensures var r := Collect(w, cfg, Empty(), targets, 0);
            && Sound(cfg, r.ledger) && Settled(r.ledger)
            && |r.ledger.states| <= |targets|
            && (r.Finished? && !r.ledger.runtimeFailure ==> r.ledger.used == StepCount(r.ledger.log))
  {
    CollectSound(w, cfg, Empty(), targets);
  }

  // ----- The final gate

  function AcceptedIds(states: seq<StateRecord>): seq<int> {
    if states == [] then [] else
    var last := states[|states| - 1];
    AcceptedIds(states[..|states| - 1]) +
    (if last.status == Accepted && last.stateId.Some? then [last.stateId.value] else [])
  }

  lemma {:induction false} AcceptedCount(states: seq<StateRecord>)
    ensures |AcceptedIds(states)| <= |states|
    ensures |AcceptedIds(states)| == |states| ==>
      forall k :: 0 <= k < |states| ==> states[k].status == Accepted && states[k].stateId == Some(AcceptedIds(states)[k])
  {
    if states != [] {
      AcceptedCount(states[..|states| - 1]);
    }
  }

  lemma {:induction false} AcceptedMember(states: seq<StateRecord>, k: nat)
    requires k < |states| && states[k].status == Accepted && states[k].stateId.Some?
    ensures states[k].stateId.value in AcceptedIds(states)
  {
    if k < |states| - 1 {
      AcceptedMember(states[..|states| - 1], k);
    }
  }

  lemma RowsAreAccepted(l: Ledger)
    requires Linked(l) && Settled(l)
    ensures Elements(StateIds(l.rows)) <= Elements(AcceptedIds(l.states))
  {
    forall x | x in StateIds(l.rows) ensures x in AcceptedIds(l.states) {
      var i :| 0 <= i < |l.rows| && StateIds(l.rows)[i] == x;
      var b := Completed(l.branches)[i];
      CompletedFrom(l.branches, i);
      assert HasRow(l.branches, b.stateIndex);
      AcceptedMember(l.states, b.stateIndex);
    }
  }

  lemma AcceptedHaveRows(l: Ledger)
    requires Linked(l) && Settled(l)
    requires forall k :: 0 <= k < |l.states| ==> l.states[k].status == Accepted && l.states[k].stateId.Some?
    ensures forall k :: 0 <= k < |l.states| ==> l.states[k].stateId.value in StateIds(l.rows)
  {
    forall k | 0 <= k < |l.states| ensures l.states[k].stateId.value in StateIds(l.rows) {
      assert HasRow(l.branches, k);
      var i :| 0 <= i < |Completed(l.branches)| && Completed(l.branches)[i].stateIndex == k;
      CompletedFrom(l.branches, i);
      assert StateIds(l.rows)[i] == l.states[k].stateId.value;
    }
  }

  /** Every target was visited and accepted, and no two targets share a state id. */
  ghost predicate Complete(l: Ledger, n: nat) {
    && |l.states| == n
    && (forall k :: 0 <= k < n ==> l.states[k].index == k && l.states[k].status == Accepted && l.states[k].stateId.Some?)
    && (forall j, k :: 0 <= j < k < n ==> l.states[j].stateId != l.states[k].stateId)
  }

  lemma CountsAreComplete(l: Ledger, n: nat)
    requires Linked(l) && Settled(l) && |l.states| <= n
    ensures |Elements(StateIds(l.rows))| >= n <==> Complete(l, n)
  {
    hide Linked, Settled, AcceptedIds, StateIds, Elements, Distinct;
    var ids := AcceptedIds(l.states);
    if |Elements(StateIds(l.rows))| >= n {
      RowsAreAccepted(l);
      SubsetSize(Elements(StateIds(l.rows)), Elements(ids));
      ElementsAtMost(ids);
      AcceptedCount(l.states);
      FullElementsDistinct(ids);
      assert |ids| == n == |l.states|;
      StatesFiled(l);
      DistinctIds(l, ids);
    }
    if Complete(l, n) {
      AcceptedHaveRows(l);
      DistinctRows(l);
    }
  }

  lemma StatesFiled(l: Ledger)
    requires Linked(l)
    ensures forall k :: 0 <= k < |l.states| ==> l.states[k].index == k
  {
  }

  lemma DistinctIds(l: Ledger, ids: seq<int>)
    requires Distinct(ids) && |ids| == |l.states|
    requires forall k :: 0 <= k < |l.states| ==> l.states[k].stateId == Some(ids[k])
    ensures forall j, k :: 0 <= j < k < |l.states| ==> l.states[j].stateId != l.states[k].stateId
  {
  }

  /** Different state ids that all occur among the rows are at least as many there. */
  lemma DistinctRows(l: Ledger)
    requires forall k :: 0 <= k < |l.states| ==> l.states[k].stateId.Some? && l.states[k].stateId.value in StateIds(l.rows)
    requires forall j, k :: 0 <= j < k < |l.states| ==> l.states[j].stateId != l.states[k].stateId
    ensures |Elements(StateIds(l.rows))| >= |l.states|
  {
    var all := seq(|l.states|, k requires 0 <= k < |l.states| => l.states[k].stateId.value);
    DistinctElements(all);
    SubsetSize(Elements(all), Elements(StateIds(l.rows)));
  }

  /**
   PASS is a completeness certificate. With max_states targets, a finished run passes
   exactly when no exception interrupted a branch, every target was visited and accepted,
   the targets' state ids are pairwise different, and there are enough rows.
   */
  lemma {:induction false} PassCertificate(w: World, cfg: Config, targets: seq<Target>)
    requires |targets| == cfg.maxStates
    ensures var r := Collect(w, cfg, Empty(), targets, 0);
            Passes(cfg, r.ledger) <==>
              && !r.ledger.runtimeFailure && Complete(r.ledger, |targets|)
              && |r.ledger.rows| >= cfg.minTransitions
  {
    EveryRun(w, cfg, targets);
    CountsAreComplete(Collect(w, cfg, Empty(), targets, 0).ledger, |targets|);
  }

  lemma {:induction false} CompletedPlaces(branches: seq<Branch>)
    requires forall i, j :: 0 <= i < j < |branches| ==> !SamePlace(branches[i], branches[j])
    ensures var c := Completed(branches); forall i, j :: 0 <= i < j < |c| ==> !SamePlace(c[i], c[j])
  {
    if branches != [] {
      var front := branches[..|branches| - 1];
      CompletedPlaces(front);
      forall i | 0 <= i < |Completed(front)| ensures !SamePlace(Completed(front)[i], branches[|front|]) {
        CompletedFrom(front, i);
        var k :| 0 <= k < |front| && front[k] == Completed(front)[i];
        assert front[k] == branches[k];
      }
    }
  }

  lemma PassRowsDistinct(l: Ledger)
    requires Linked(l)
    requires forall j, k :: 0 <= j < k < |l.states| ==> l.states[j].stateId != l.states[k].stateId
    ensures forall i, j :: 0 <= i < j < |l.rows| ==>
      l.rows[i].stateId != l.rows[j].stateId || l.rows[i].planned.action != l.rows[j].planned.action
  {
    var c := Completed(l.branches);
    CompletedPlaces(l.branches);
    forall i, j | 0 <= i < j < |l.rows| && l.rows[i].stateId == l.rows[j].stateId
      ensures l.rows[i].planned.action != l.rows[j].planned.action
    {
      CompletedFrom(l.branches, i);
      CompletedFrom(l.branches, j);
      assert c[i].stateId == c[j].stateId;
      assert l.states[c[i].stateIndex].stateId == l.states[c[j].stateIndex].stateId;
      assert c[i].stateIndex == c[j].stateIndex;
      assert !SamePlace(c[i], c[j]);
    }
  }
}
