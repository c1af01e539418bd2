/**
 Which states are skipped and which are opened: for every state record of a run, the verdict that the
 simulator's log up to the end of the state's first replay calls for.
 */
module CollectorGates {
  import opened Basics
  import opened CollectorSpec
  import opened CollectorSafety
  import opened CollectorPlan
  import opened CollectorEvidence
  import opened CollectorRuns

  // ----- Where a replay ends

  /** How far the replay of `all` came, as the log shows it, for every way it can end without an exception. */
  ghost predicate Halted(t: Walk, all: seq<int>) {
    var ticks := Episode(t.log);
    && TickActions(ticks) <= all && OneEnd(ticks)
    && (t.fate == Going ==> |ticks| == |all| && !Ended(ticks))
    && (t.fate == Blocked(PrefixTerminated) ==> Ended(ticks))
    && (t.fate == Blocked(PrefixActionInvalid) ==>
          && !Ended(ticks) && |ticks| < |all|
          && Seen(t.log).Some? && MaskAt(Seen(t.log).value.view.mask, all[|ticks|]) == Some(false))
    && (t.fate.Blocked? ==> t.fate.failure == PrefixTerminated || t.fate.failure == PrefixActionInvalid)
  }

  lemma PrefixStepHalts(w: World, budget: int, s: Walk, done: seq<int>, a: int, rest: seq<int>)
    requires Traced(s) && SeesPlainly(s) && s.fate == Going && !s.done && TickActions(Episode(s.log)) == done
    ensures var t := PrefixStep(w, budget, s, a);
            && (t.fate.Blocked? ==> Halted(t, done + [a] + rest) && Mission(t.log) == Mission(s.log))
  {
    hide Seen, Mission, TotalReward, MaskAt;
    var (log, reply) := AskStep(w, s.log, s.obs, s.view, a);
    LogEnd(s.log, StepEvent(s.obs, s.view, a, reply));
    if reply.Some? {
      TickEnd(Episode(s.log), Tick(s.obs, s.view, a, reply.value));
    }
    assert (done + [a] + rest)[|done|] == a;
    hide Episode;
  }

  lemma {:induction false} PrefixHalts(w: World, budget: int, s: Walk, done: seq<int>, actions: seq<int>)
    requires Metered(budget, s) && Traced(s) && SeesPlainly(s) && s.fate == Going && !s.done
    requires TickActions(Episode(s.log)) == done
    ensures var t := Prefix(w, budget, s, actions);
            t.fate != Raised ==> Halted(t, done + actions) && Mission(t.log) == Mission(s.log)
    decreases |actions|
  {
    hide PrefixStep, Metered, SeesPlainly, Episode, TickActions, Mission, Seen, OneEnd, Ended, TotalReward, Chained;
    if actions == [] {
      assert done + actions == done;
      TickCount(Episode(s.log));
    } else {
      var s1, a := PrefixStep(w, budget, s, actions[0]), actions[0];
      PrefixStepSafe(w, budget, s, a);
      PrefixStepHalts(w, budget, s, done, a, actions[1..]);
      assert done + [a] + actions[1..] == done + actions;
      if s1.fate == Going {
        PrefixHalts(w, budget, s1, done + [a], actions[1..]);
      }
    }
  }

  lemma {:induction false} ReplayHalts(w: World, budget: int, log: Log, used: int, target: Target)
    requires StepCount(log) <= Max(0, budget) && used == StepCount(log) && Legal(log)
    ensures var p := Replay(w, budget, log, used, target);
            p.fate != Raised ==> Halted(p, target.prefixActions) && Mission(p.log) == Some(target.mission)
  {
    var s := Start(w, log, used, target.mission);
    assert s.fate != Going ==> s.fate == Raised && Prefix(w, budget, s, target.prefixActions) == s;
    hide Prefix, Halted, Legal, Seen, Mission;
    StartSafe(w, budget, log, used, target.mission);
    if s.fate == Going {
      assert TickActions(Episode(s.log)) == [];
      PrefixHalts(w, budget, s, [], target.prefixActions);
      assert [] + target.prefixActions == target.prefixActions;
    }
  }

  // ----- The verdict

  /** The replayed state is too far from the recorded position. */
  predicate Far(w: World, cfg: Config, target: Target, obs: Obs) {
    var error := w.positionError(obs, target.recordedPosition);
    error.Some? && error.value > cfg.maxPositionError
  }

  /** The policy chooses the recorded action there. */
  predicate Agrees(w: World, target: Target, obs: Obs, mask: Mask, prev: int) {
    w.policy(obs, mask, prev) == target.recordedAction && MaskAt(mask, target.recordedAction) == Some(true)
  }

  /**
   The record of a state, by what the log shows of its replay: a terminal prefix step; an action that is not
   allowed where the replay stands; and for a replay that ran through, first the position, then the action of the policy.
   */
  ghost predicate Judged(w: World, cfg: Config, target: Target, log: Log, rec: StateRecord) {
    var ticks := Episode(log);
    var n := |target.prefixActions|;
    && Mission(log) == Some(target.mission) && TickActions(ticks) <= target.prefixActions && OneEnd(ticks)
    && (rec.status == Skipped(PrefixTerminated) <==> Ended(ticks))
    && (rec.status == Skipped(PrefixActionInvalid) <==> !Ended(ticks) && |ticks| < n)
    && (!Ended(ticks) ==> Seen(log).Some?)
    && (!Ended(ticks) && |ticks| < n ==>
          MaskAt(Seen(log).value.view.mask, target.prefixActions[|ticks|]) == Some(false))
    && var through := !Ended(ticks) && |ticks| == n;
       && (rec.status == Skipped(PositionMismatch) <==> through && Far(w, cfg, target, Seen(log).value.obs))
       && (rec.status == Skipped(BcActionMismatch) <==>
             through && !Far(w, cfg, target, Seen(log).value.obs) && !AgreesAt(w, target, log, ticks))
       && (rec.stateId.Some? <==>
             through && !Far(w, cfg, target, Seen(log).value.obs) && AgreesAt(w, target, log, ticks))
       && (rec.stateId.Some? ==>
             && rec.stateId.value == w.hash(Seen(log).value.obs, Seen(log).value.view.mask, Previous(ticks, |ticks|))
             && PlannedFor(w, cfg, target, Seen(log).value.obs, Seen(log).value.view.mask, Previous(ticks, |ticks|), rec.planned)
             && DrawnBehind(w, cfg.seed + rec.index * 7919, Seen(log).value.view.mask, rec.planned, Named(rec.planned)))
  }

  /**
   The candidates of an opened state: the recorded action, the teacher's for this state and the recorded
   action's neighbours, as far as they are allowed, and up to the quota other allowed actions.
   */
  ghost predicate PlannedFor(w: World, cfg: Config, target: Target, obs: Obs, mask: Mask, prev: int, plan: seq<Planned>) {
    var teacher, near := w.teacher(target.mission, obs, mask, prev), w.neighbours(target.recordedAction, mask);
    && teacher.Some? && near.Some?
    && GoodPlan(mask, plan) && [Planned(BC, target.recordedAction)] <= plan
    && (forall a :: Sourced(mask, target.recordedAction, teacher.value, near.value, plan, a))
    && |plan| == if Named(plan) + cfg.randomCount < |Allowed(mask, |mask|)| then Named(plan) + cfg.randomCount
                 else |Allowed(mask, |mask|)|
  }

  /** Under which source an action is planned, if it is. */
  ghost predicate Sourced(mask: Mask, bc: int, teacher: Option<int>, near: seq<int>, plan: seq<Planned>, a: int) {
    && (Planned(BC, a) in plan <==> IsAllowed(mask, a) && a == bc)
    && (Planned(TEACHER, a) in plan <==> IsAllowed(mask, a) && teacher == Some(a) && a != bc)
    && (Planned(NEIGHBOR, a) in plan <==> IsAllowed(mask, a) && a in near && a != bc && teacher != Some(a))
    && (Planned(RANDOM, a) in plan ==> IsAllowed(mask, a) && a != bc && teacher != Some(a) && a !in near)
  }

  /** How many candidates were not drawn at random. */
  function Named(plan: seq<Planned>): nat {
    if plan == [] then 0
    else Named(plan[..|plan| - 1]) + if plan[|plan| - 1].source == RANDOM then 0 else 1
  }

  ghost predicate AgreesAt(w: World, target: Target, log: Log, ticks: seq<Tick>)
    requires Seen(log).Some?
  {
    Agrees(w, target, Seen(log).value.obs, Seen(log).value.view.mask, Previous(ticks, |ticks|))
  }

  lemma {:induction false} ReplayCurrent(w: World, budget: int, log: Log, used: int, target: Target)
    requires StepCount(log) <= Max(0, budget) && used == StepCount(log) && Legal(log)
    ensures var p := Replay(w, budget, log, used, target);
            p.fate == Going ==> Seen(p.log) == Some(Sight(p.obs, p.view)) && p.prev == Previous(Episode(p.log), |Episode(p.log)|)
  {
    hide Replay, Seen, Legal;
    ReplaySafe(w, budget, log, used, target);
  }

  lemma {:induction false} AdmitPlanned(w: World, cfg: Config, target: Target, index: nat, p: Walk, plan: seq<Planned>)
    requires Screen(w, cfg, index, target, p) == Admit(plan)
    ensures PlannedFor(w, cfg, target, p.obs, p.view.mask, p.prev, plan)
    ensures DrawnBehind(w, cfg.seed + index * 7919, p.view.mask, plan, Named(plan))
  {
    var bc, mask := target.recordedAction, p.view.mask;
    var teacher, near := w.teacher(target.mission, p.obs, mask, p.prev), w.neighbours(bc, mask);
    assert BcAction(w, p.obs, mask, p.prev) == Some(bc) && 0 <= bc < |mask| && mask[bc];
    assert teacher.Some? && near.Some? && plan == Plan(w, cfg, index, mask, bc, teacher.value, near.value);
    hide Screen, BcAction, Plan, Chosen, GoodPlan, Allowed, Named;
    PlanMeetsQuota(w, cfg, index, mask, bc, teacher.value, near.value);
    NamedChosen(w, cfg, index, mask, bc, teacher.value, near.value);
    PlanDrawn(w, cfg, index, mask, bc, teacher.value, near.value);
    forall a ensures Sourced(mask, bc, teacher.value, near.value, plan, a) {
      PlanSources(w, cfg, index, mask, bc, teacher.value, near.value, a);
    }
  }

  /** The candidates that are not random are those chosen before the draws. */
  lemma NamedChosen(w: World, cfg: Config, index: nat, mask: Mask, bc: int, teacher: Option<int>, near: seq<int>)
    ensures Named(Plan(w, cfg, index, mask, bc, teacher, near)) == |Chosen(mask, bc, teacher, near)|
  {
    var chosen := Chosen(mask, bc, teacher, near);
    var drawn := Draw(w, cfg.seed + index * 7919, cfg.randomCount, Available(mask, chosen, |mask|));
    assert Plan(w, cfg, index, mask, bc, teacher, near) == AddAll(mask, chosen, RANDOM, drawn);
    hide Chosen, AddAll, Draw, Available, Named;
    forall p | p in chosen ensures p.source != RANDOM {
      ChosenSources(mask, bc, teacher, near, p.action);
    }
    NoRandom(chosen);
    DrawsNotNamed(mask, chosen, drawn);
  }

  lemma {:induction false} NoRandom(plan: seq<Planned>)
    requires forall p :: p in plan ==> p.source != RANDOM
    ensures Named(plan) == |plan|
  {
    if plan != [] {
      NoRandom(plan[..|plan| - 1]);
    }
  }

  lemma {:induction false} DrawsNotNamed(mask: Mask, plan: seq<Planned>, drawn: seq<int>)
    ensures Named(AddAll(mask, plan, RANDOM, drawn)) == Named(plan)
    decreases |drawn|
  {
    if drawn != [] {
      var next := Add(mask, plan, RANDOM, drawn[0]);
      DrawsNotNamed(mask, next, drawn[1..]);
      assert next != plan ==> next[..|plan|] == plan;
    }
  }

  lemma SkipJudged(w: World, cfg: Config, target: Target, index: nat, p: Walk, f: Failure)
    requires p.fate != Raised ==> Halted(p, target.prefixActions) && Mission(p.log) == Some(target.mission)
    requires p.fate == Going ==>
      Seen(p.log) == Some(Sight(p.obs, p.view)) && p.prev == Previous(Episode(p.log), |Episode(p.log)|)
    requires Screen(w, cfg, index, target, p) == Reject(f)
    ensures Judged(w, cfg, target, p.log, StateRecord(index, Skipped(f), None, []))
  {
    hide Seen, Mission, Episode, OneEnd, Ended, Plan;
    TickCount(Episode(p.log));
    hide TickActions;
  }

  lemma AdmitJudged(w: World, cfg: Config, target: Target, index: nat, p: Walk, plan: seq<Planned>, id: int)
    requires p.fate != Raised ==> Halted(p, target.prefixActions) && Mission(p.log) == Some(target.mission)
    requires p.fate == Going ==>
      Seen(p.log) == Some(Sight(p.obs, p.view)) && p.prev == Previous(Episode(p.log), |Episode(p.log)|)
    requires Screen(w, cfg, index, target, p) == Admit(plan) && id == w.hash(p.obs, p.view.mask, p.prev)
    ensures Judged(w, cfg, target, p.log, StateRecord(index, Collecting, Some(id), plan))
  {
    AdmitPlanned(w, cfg, target, index, p, plan);
    assert p.fate == Going && !Far(w, cfg, target, p.obs) && Agrees(w, target, p.obs, p.view.mask, p.prev);
    hide Seen, Mission, Episode, OneEnd, Ended, Plan, PlannedFor, DrawnBehind, Named, Screen;
    TickCount(Episode(p.log));
    hide TickActions;
  }

  // ----- Whole runs

  /** marks[k] is where the first replay of state k ended. */
  ghost predicate JudgedAt(w: World, cfg: Config, targets: seq<Target>, l: Ledger, marks: seq<nat>) {
    && |marks| == |l.states| <= |targets| && Increasing(marks)
    && forall k :: 0 <= k < |marks| ==> marks[k] <= |l.log| && Judged(w, cfg, targets[k], l.log[..marks[k]], l.states[k])
  }

  ghost predicate AllJudged(w: World, cfg: Config, targets: seq<Target>, l: Ledger) {
    exists marks :: JudgedAt(w, cfg, targets, l, marks)
  }

  /** Later events, and accepting or giving up an open state, leave the verdicts as they are. */
  lemma JudgedLater(w: World, cfg: Config, targets: seq<Target>, l: Ledger, l1: Ledger, marks: seq<nat>)
    requires JudgedAt(w, cfg, targets, l, marks) && l.log <= l1.log && |l1.states| == |l.states|
    requires forall k :: 0 <= k < |l.states| ==> SameVerdict(l.states[k], l1.states[k])
    ensures JudgedAt(w, cfg, targets, l1, marks)
  {
    forall k | 0 <= k < |marks| ensures Judged(w, cfg, targets[k], l1.log[..marks[k]], l1.states[k]) {
      assert l1.log[..marks[k]] == l.log[..marks[k]];
      VerdictKept(w, cfg, targets[k], l.log[..marks[k]], l.states[k], l1.states[k]);
    }
  }

  ghost predicate SameVerdict(a: StateRecord, b: StateRecord) {
    a.index == b.index && a.stateId == b.stateId && a.planned == b.planned &&
    (a.status == b.status || (!a.status.Skipped? && !b.status.Skipped?))
  }

  lemma VerdictKept(w: World, cfg: Config, target: Target, log: Log, a: StateRecord, b: StateRecord)
    requires Judged(w, cfg, target, log, a) && SameVerdict(a, b)
    ensures Judged(w, cfg, target, log, b)
  {
    hide Seen, Mission, Episode, OneEnd, Ended, TickActions, Far, AgreesAt, PlannedFor, DrawnBehind, Named;
  }

  lemma JudgedNext(w: World, cfg: Config, targets: seq<Target>, l: Ledger, l1: Ledger, marks: seq<nat>,
      rec: StateRecord)
    requires JudgedAt(w, cfg, targets, l, marks) && |l.states| < |targets|
    requires l.log <= l1.log && |l.log| < |l1.log| && l1.states == l.states + [rec]
    requires Judged(w, cfg, targets[|l.states|], l1.log, rec)
    ensures JudgedAt(w, cfg, targets, l1, marks + [|l1.log|])
  {
    hide Judged;
    var more := marks + [|l1.log|];
    forall k | 0 <= k < |more| ensures more[k] <= |l1.log| && Judged(w, cfg, targets[k], l1.log[..more[k]], l1.states[k]) {
      if k < |marks| {
        assert l1.log[..marks[k]] == l.log[..marks[k]];
      } else {
        assert l1.log[..|l1.log|] == l1.log;
      }
    }
  }

  lemma ReplayLonger(w: World, budget: int, log: Log, used: int, target: Target)
    ensures var p := Replay(w, budget, log, used, target); log <= p.log && |log| < |p.log|
  {
    PrefixGrows(w, budget, Start(w, log, used, target.mission), target.prefixActions);
  }

  lemma {:induction false} TryPlannedLater(w: World, cfg: Config, l: Ledger, index: nat, dim: nat, target: Target,
                                           id: int, plan: seq<Planned>)
    ensures var l1 := TryPlanned(w, cfg, l, index, dim, target, id, plan); l.log <= l1.log && l1.states == l.states
    decreases |plan|
  {
    hide TryCandidate;
    if plan != [] && !LimitReached(cfg, l) {
      var t := TryCandidate(w, cfg, dim, l.log, l.used, target, id, plan[0]);
      TrialGrows(w, cfg, dim, l.log, l.used, target, id, plan[0]);
      var l1 := Book(l, index, id, plan[0], t);
      if !l1.runtimeFailure {
        TryPlannedLater(w, cfg, l1, index, dim, target, id, plan[1..]);
      }
    }
  }

  lemma AttemptJudged(w: World, cfg: Config, targets: seq<Target>, l: Ledger, l1: Ledger, marks: seq<nat>,
                      dim: nat, id: int, plan: seq<Planned>, rowStart: nat)
    requires JudgedAt(w, cfg, targets, l, marks) && |l.states| < |targets|
    requires l.log <= l1.log && |l.log| < |l1.log| && l1.states == l.states
    requires Judged(w, cfg, targets[|l.states|], l1.log, StateRecord(|l.states|, Collecting, Some(id), plan))
    ensures AllJudged(w, cfg, targets,
                      Close(Attempt(w, cfg, l1, |l.states|, dim, targets[|l.states|], id, plan), rowStart))
  {
    hide Judged, JudgedAt, TryPlanned;
    var rec := StateRecord(|l.states|, Collecting, Some(id), plan);
    var l2 := l1.(states := l1.states + [rec]);
    JudgedNext(w, cfg, targets, l, l2, marks, rec);
    TryPlannedLater(w, cfg, l2, |l.states|, dim, targets[|l.states|], id, plan);
    var l3 := Attempt(w, cfg, l1, |l.states|, dim, targets[|l.states|], id, plan);
    JudgedLater(w, cfg, targets, l2, Close(l3, rowStart), marks + [|l1.log|]);
  }

  lemma VisitJudged(w: World, cfg: Config, targets: seq<Target>, l: Ledger, marks: seq<nat>)
    requires JudgedAt(w, cfg, targets, l, marks) && |l.states| < |targets|
    requires StepCount(l.log) <= Max(0, cfg.maxEnvSteps) && l.used == StepCount(l.log) && Legal(l.log)
    ensures AllJudged(w, cfg, targets, Visit(w, cfg, l, |l.states|, targets[|l.states|]).ledger)
  {
    hide Replay, Screen, Attempt, JudgedAt, Judged, Halted, Seen, Mission, Legal, StepCount, Episode, GoodPlan;
    var index, target := |l.states|, targets[|l.states|];
    var p := Replay(w, cfg.maxEnvSteps, l.log, l.used, target);
    ReplayHalts(w, cfg.maxEnvSteps, l.log, l.used, target);
    ReplayCurrent(w, cfg.maxEnvSteps, l.log, l.used, target);
    ReplayLonger(w, cfg.maxEnvSteps, l.log, l.used, target);
    ScreenAdmits(w, cfg, index, target, p);
    match Screen(w, cfg, index, target, p)
    case Abort =>
      JudgedLater(w, cfg, targets, l, l.(log := p.log), marks);
    case Reject(f) =>
      SkipJudged(w, cfg, target, index, p, f);
      var l2 := Skip(l.(log := p.log).(used := p.used), index, f);
      JudgedNext(w, cfg, targets, l, l2, marks, StateRecord(index, Skipped(f), None, []));
    case Admit(plan) =>
      var id := w.hash(p.obs, p.view.mask, p.prev);
      AdmitJudged(w, cfg, target, index, p, plan, id);
      AttemptJudged(w, cfg, targets, l, l.(log := p.log).(used := p.used), marks, |p.view.mask|, id, plan, |l.rows|);
  }

  lemma {:induction false} CollectJudged(w: World, cfg: Config, targets: seq<Target>, l: Ledger, marks: seq<nat>)
    requires JudgedAt(w, cfg, targets, l, marks)
    requires Sound(cfg, l) && Settled(l) && l.used == StepCount(l.log) && !l.runtimeFailure
    ensures AllJudged(w, cfg, targets, Collect(w, cfg, l, targets, |l.states|).ledger)
    decreases |targets| - |l.states|
  {
    hide Visit, Books, Linked, Legal, Settled, JudgedAt;
    JudgedStates(w, cfg, targets, l, marks);
    if |l.states| < |targets| && !LimitReached(cfg, l) {
      VisitSound(w, cfg, l, targets[|l.states|]);
      VisitJudged(w, cfg, targets, l, marks);
      var r := Visit(w, cfg, l, |l.states|, targets[|l.states|]);
      if r.Finished? && !r.ledger.runtimeFailure {
        var more :| JudgedAt(w, cfg, targets, r.ledger, more);
        CollectJudged(w, cfg, targets, r.ledger, more);
      }
    }
  }

  lemma JudgedStates(w: World, cfg: Config, targets: seq<Target>, l: Ledger, marks: seq<nat>)
    requires JudgedAt(w, cfg, targets, l, marks)
    ensures |l.states| <= |targets|
  {
  }

  /** In every run, every state record is the verdict that the log up to the end of its replay calls for. */
  lemma {:induction false} StatesWereJudged(w: World, cfg: Config, targets: seq<Target>)
    ensures AllJudged(w, cfg, targets, Collect(w, cfg, Empty(), targets, 0).ledger)
  {
    assert JudgedAt(w, cfg, targets, Empty(), []);
    hide Collect, JudgedAt;
    CollectJudged(w, cfg, targets, Empty(), []);
  }

  // ----- The states of the rows

  ghost predicate Identifies(w: World) {
    forall o, m, p, o', m', p' :: w.hash(o, m, p) == w.hash(o', m', p') ==> o == o' && m == m' && p == p'
  }

  /**
   Where hashes identify states, every collected row left from an observation within the position limit of
   the recorded state, where the policy chooses the recorded action.
   */
  lemma {:induction false} RowsPassedTheGates(w: World, cfg: Config, targets: seq<Target>, i: nat)
    requires Identifies(w) && i < |Collect(w, cfg, Empty(), targets, 0).ledger.rows|
    ensures var l := Collect(w, cfg, Empty(), targets, 0).ledger;
            exists k :: 0 <= k < |targets| && k < |l.states| && l.states[k].stateId == Some(l.rows[i].stateId) &&
                        Passed(w, cfg, targets[k], l.rows[i])
  {
    var l := Collect(w, cfg, Empty(), targets, 0).ledger;
    EveryRun(w, cfg, targets);
    StatesWereJudged(w, cfg, targets);
    BranchesWereExecuted(w, cfg, targets);
    hide Collect, Judged, RowBacked, Books, Safe, Settled;
    var marks :| JudgedAt(w, cfg, targets, l, marks);
    var k := RowState(l, i);
    HashedState(w, cfg, targets, l.log, l.rows[i]);
    RowPassed(w, cfg, targets[k], l.log[..marks[k]], l.states[k], l.rows[i]);
  }

  ghost predicate Passed(w: World, cfg: Config, target: Target, r: Row) {
    !Far(w, cfg, target, r.obs) &&
    exists prev :: w.hash(r.obs, r.mask, prev) == r.stateId && Agrees(w, target, r.obs, r.mask, prev)
  }

  lemma RowState(l: Ledger, i: nat) returns (k: nat)
    requires Linked(l) && i < |l.rows|
    ensures k < |l.states| && l.states[k].stateId == Some(l.rows[i].stateId)
  {
    CompletedFrom(l.branches, i);
    k := CollectorRuns.Completed(l.branches)[i].stateIndex;
  }

  lemma HashedState(w: World, cfg: Config, targets: seq<Target>, log: Log, r: Row)
    requires RowBacked(w, cfg, targets, log, r)
    ensures exists prev :: w.hash(r.obs, r.mask, prev) == r.stateId
  {
    hide Brings, IsStep, Episode, Chained, FollowsPolicy;
    var k: nat, i: nat, dim: nat :| RowShownAt(w, cfg, targets, log, k, i, dim, r);
    var ticks, n := Episode(log[..k]), |targets[i].prefixActions|;
    assert w.hash(r.obs, r.mask, Previous(ticks, n)) == r.stateId;
  }

  lemma RowPassed(w: World, cfg: Config, target: Target, log: Log, rec: StateRecord, r: Row)
    requires Identifies(w) && Judged(w, cfg, target, log, rec) && rec.stateId == Some(r.stateId)
    requires exists prev :: w.hash(r.obs, r.mask, prev) == r.stateId
    ensures Passed(w, cfg, target, r)
  {
    hide Seen, Mission, Episode, OneEnd, Ended, TickActions, Far, Agrees;
    var prev :| w.hash(r.obs, r.mask, prev) == r.stateId;
    assert Agrees(w, target, r.obs, r.mask, prev);
  }
}
