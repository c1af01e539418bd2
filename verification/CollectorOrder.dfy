/** The order of a collection: every planned candidate in turn, and every target in turn, until a limit or an exception. */
module CollectorOrder {
  import opened Basics
  import opened CollectorSpec
  import opened CollectorSafety
  import opened CollectorPlan
  import opened CollectorRuns

  /** The candidates that were tried for state k, in order. */
  function Tried(branches: seq<Branch>, k: nat): seq<Planned> {
    if branches == [] then [] else
    var last := branches[|branches| - 1];
    Tried(branches[..|branches| - 1], k) + (if last.stateIndex == k then [last.planned] else [])
  }

  /** Nothing stops the collection yet. */
  predicate GoesOn(cfg: Config, l: Ledger) {
    !l.runtimeFailure && !LimitReached(cfg, l)
  }

  /** Every state tries its planned candidates from the first one on; only the last state may have stopped early. */
  ghost predicate InTurn(cfg: Config, l: Ledger) {
    forall k :: 0 <= k < |l.states| ==>
      && Tried(l.branches, k) <= l.states[k].planned
      && (k < |l.states| - 1 || GoesOn(cfg, l) ==> Tried(l.branches, k) == l.states[k].planned)
  }

  /** Every branch belongs to a state that was opened before. */
  ghost predicate Placed(l: Ledger) {
    forall i :: 0 <= i < |l.branches| ==> l.branches[i].stateIndex < |l.states|
  }

  lemma {:induction false} TriedEnd(branches: seq<Branch>, b: Branch, k: nat)
    ensures Tried(branches + [b], k) == Tried(branches, k) + (if b.stateIndex == k then [b.planned] else [])
  {
    assert (branches + [b])[..|branches|] == branches;
  }

  lemma {:induction false} NoneTried(branches: seq<Branch>, k: nat)
    requires forall i :: 0 <= i < |branches| ==> branches[i].stateIndex < k
    ensures Tried(branches, k) == []
  {
    if branches != [] {
      NoneTried(branches[..|branches| - 1], k);
    }
  }

  lemma BookBranch(l: Ledger, index: nat, id: int, planned: Planned, t: Trial)
    ensures var l1 := Book(l, index, id, planned, t);
            && l1.states == l.states && |l1.branches| == |l.branches| + 1
            && l1.branches == l.branches + [l1.branches[|l.branches|]]
            && l1.branches[|l.branches|].stateIndex == index && l1.branches[|l.branches|].planned == planned
  {
  }

  /** Trying a plan adds its candidates in order, all of them unless something stops the collection. */
  lemma {:induction false} TryPlannedInTurn(w: World, cfg: Config, l: Ledger, index: nat, dim: nat, target: Target,
                                            id: int, plan: seq<Planned>, done: seq<Planned>)
    requires Tried(l.branches, index) == done && !l.runtimeFailure && Placed(l) && index < |l.states|
    ensures var l1 := TryPlanned(w, cfg, l, index, dim, target, id, plan);
            && Tried(l1.branches, index) <= done + plan && l1.states == l.states && Placed(l1)
            && (GoesOn(cfg, l1) ==> Tried(l1.branches, index) == done + plan)
            && forall k: nat :: k != index ==> Tried(l1.branches, k) == Tried(l.branches, k)
    decreases |plan|
  {
    hide TryCandidate, Tried;
    if plan != [] && !LimitReached(cfg, l) {
      var t := TryCandidate(w, cfg, dim, l.log, l.used, target, id, plan[0]);
      BookBranch(l, index, id, plan[0], t);
      var l1 := Book(l, index, id, plan[0], t);
      forall k: nat ensures Tried(l1.branches, k) == Tried(l.branches, k) + (if k == index then [plan[0]] else []) {
        TriedEnd(l.branches, l1.branches[|l.branches|], k);
      }
      assert done + plan == done + [plan[0]] + plan[1..];
      if !l1.runtimeFailure {
        TryPlannedInTurn(w, cfg, l1, index, dim, target, id, plan[1..], done + [plan[0]]);
      }
    }
  }

  /** One state more, opened with a plan that was tried as far as nothing stopped it. */
  lemma StateInTurn(cfg: Config, l: Ledger, l1: Ledger, rec: StateRecord)
    requires InTurn(cfg, l) && Placed(l) && GoesOn(cfg, l)
    requires |l1.states| == |l.states| + 1 && l1.states[|l.states|].planned == rec.planned
    requires forall k :: 0 <= k < |l.states| ==> l1.states[k] == l.states[k] && Tried(l1.branches, k) == Tried(l.branches, k)
    requires Tried(l1.branches, |l.states|) <= rec.planned
    requires GoesOn(cfg, l1) ==> Tried(l1.branches, |l.states|) == rec.planned
    ensures InTurn(cfg, l1)
  {
    hide Tried;
  }

  lemma SkipInTurn(cfg: Config, l: Ledger, l1: Ledger, f: Failure)
    requires InTurn(cfg, l) && Placed(l) && GoesOn(cfg, l)
    requires l1.branches == l.branches && l1.states == l.states + [StateRecord(|l.states|, Skipped(f), None, [])]
    ensures InTurn(cfg, l1) && Placed(l1)
  {
    NoneTried(l.branches, |l.states|);
    StateInTurn(cfg, l, l1, StateRecord(|l.states|, Skipped(f), None, []));
  }

  lemma AttemptInTurn(w: World, cfg: Config, l: Ledger, l1: Ledger, dim: nat, target: Target, id: int,
                      plan: seq<Planned>, rowStart: nat)
    requires InTurn(cfg, l) && Placed(l) && GoesOn(cfg, l)
    requires l1.branches == l.branches && l1.states == l.states && !l1.runtimeFailure
    ensures var l3 := Close(Attempt(w, cfg, l1, |l.states|, dim, target, id, plan), rowStart);
            InTurn(cfg, l3) && Placed(l3)
  {
    NoneTried(l.branches, |l.states|);
    hide Tried, TryPlanned, InTurn;
    var rec := StateRecord(|l.states|, Collecting, Some(id), plan);
    var l2 := l1.(states := l1.states + [rec]);
    TryPlannedInTurn(w, cfg, l2, |l.states|, dim, target, id, plan, []);
    assert [] + plan == plan;
    StateInTurn(cfg, l, Close(Attempt(w, cfg, l1, |l.states|, dim, target, id, plan), rowStart), rec);
  }

  lemma VisitInTurn(w: World, cfg: Config, l: Ledger, target: Target)
    requires InTurn(cfg, l) && Placed(l) && GoesOn(cfg, l)
    ensures var r := Visit(w, cfg, l, |l.states|, target);
            && InTurn(cfg, r.ledger) && Placed(r.ledger)
            && (r.Aborted? ==> GoesOn(cfg, r.ledger) && |r.ledger.states| == |l.states|)
  {
    var index := |l.states|;
    var p := Replay(w, cfg.maxEnvSteps, l.log, l.used, target);
    ScreenAdmits(w, cfg, index, target, p);
    hide Replay, Screen, Attempt, GoodPlan;
    match Screen(w, cfg, index, target, p)
    case Abort =>
    case Reject(f) =>
      SkipInTurn(cfg, l, Skip(l.(log := p.log).(used := p.used), index, f), f);
    case Admit(plan) =>
      hide InTurn, Placed;
      AttemptInTurn(w, cfg, l, l.(log := p.log).(used := p.used), |p.view.mask|, target,
                    w.hash(p.obs, p.view.mask, p.prev), plan, |l.rows|);
  }

  lemma {:induction false} CollectInTurn(w: World, cfg: Config, l: Ledger, targets: seq<Target>)
    requires InTurn(cfg, l) && Placed(l) && !l.runtimeFailure
    requires Sound(cfg, l) && Settled(l) && l.used == StepCount(l.log) && |l.states| <= |targets|
    ensures var r := Collect(w, cfg, l, targets, |l.states|);
            InTurn(cfg, r.ledger) && (r.Finished? <==> |r.ledger.states| == |targets| || !GoesOn(cfg, r.ledger))
    decreases |targets| - |l.states|
  {
    hide Visit, InTurn, Placed, Sound, Settled;
    if |l.states| < |targets| && !LimitReached(cfg, l) {
      VisitInTurn(w, cfg, l, targets[|l.states|]);
      VisitSound(w, cfg, l, targets[|l.states|]);
      var r := Visit(w, cfg, l, |l.states|, targets[|l.states|]);
      if r.Finished? && !r.ledger.runtimeFailure {
        CollectInTurn(w, cfg, r.ledger, targets);
      }
    }
  }

  /**
   In every run each state tries its planned candidates in order, all of them unless it is the last state of
   a run that a limit or an exception stopped. The loop ends normally exactly when every target has its record,
   or a limit or an interrupted branch stopped it.
   */
  lemma {:induction false} EveryCandidateInTurn(w: World, cfg: Config, targets: seq<Target>)
    ensures var r := Collect(w, cfg, Empty(), targets, 0);
            InTurn(cfg, r.ledger) && (r.Finished? <==> |r.ledger.states| == |targets| || !GoesOn(cfg, r.ledger))
  {
    hide Collect;
    CollectInTurn(w, cfg, Empty(), targets);
  }

  // ----- When an exception leaves the loop

  /**
   A visit is aborted exactly by an exception in its replay, by the policy, or, once the policy has repeated the
   recorded action near the recorded position, by the teacher or the neighbourhood.
   */
  lemma AbortsExactly(w: World, cfg: Config, l: Ledger, index: nat, target: Target)
    ensures var p := Replay(w, cfg.maxEnvSteps, l.log, l.used, target);
            var error := w.positionError(p.obs, target.recordedPosition);
            var bc := w.policy(p.obs, p.view.mask, p.prev);
            Visit(w, cfg, l, index, target).Aborted? <==>
              || p.fate == Raised
              || (p.fate == Going && (error.None? || error.value <= cfg.maxPositionError) &&
                    if MaskAt(p.view.mask, bc) != Some(true) then true
                    else
                      && bc == target.recordedAction
                      && (w.teacher(target.mission, p.obs, p.view.mask, p.prev).None? || w.neighbours(bc, p.view.mask).None?))
  {
    hide Replay, TryPlanned, Plan;
  }
}
