/**
 Runs against a deterministic simulator: one whose replies depend only on the calls
 made since the last reset.
 */
module CollectorDeterminism {
  import opened Basics
  import opened CollectorSpec
  import opened CollectorSafety
  import opened CollectorPlan
  import opened CollectorRuns

  /** The log from the last reset on. */
  function Recent(log: Log): Log {
    if log == [] then [] else
    var last := log[|log| - 1];
    (if last.ResetEvent? then [] else Recent(log[..|log| - 1])) + [last]
  }

  ghost predicate Deterministic(w: World) {
    && (forall log, log', m :: w.reset(log, m) == w.reset(log', m))
    && (forall log, log', o :: Recent(log) == Recent(log') ==> w.mask(log, o) == w.mask(log', o))
    && (forall log, log', o, v, a :: Recent(log) == Recent(log') ==> w.step(log, o, v, a) == w.step(log', o, v, a))
  }

  lemma {:induction false} SameReplies(w: World, log: Log, log': Log, o: Obs, v: View, a: int)
    requires Deterministic(w) && Recent(log) == Recent(log')
    ensures w.mask(log, o) == w.mask(log', o)
    ensures w.step(log, o, v, a) == w.step(log', o, v, a)
  {
  }

  lemma RecentEnd(log: Log, e: Event)
    ensures Recent(log + [e]) == (if e.ResetEvent? then [] else Recent(log)) + [e]
  {
    assert (log + [e])[..|log|] == log;
  }

  /** Two walks that only differ in their history before the last reset and in the steps spent. */
  ghost predicate Twin(s: Walk, t: Walk) {
    Recent(s.log) == Recent(t.log) && t == s.(log := t.log, used := t.used)
  }

  lemma StepTwin(w: World, s: Walk, t: Walk, a: int)
    requires Deterministic(w) && Twin(s, t) && w.step(s.log, s.obs, s.view, a).Some?
    ensures AskStep(w, t.log, t.obs, t.view, a).1 == AskStep(w, s.log, s.obs, s.view, a).1
    ensures var reply := w.step(s.log, s.obs, s.view, a).value;
            Twin(Advance(s, AskStep(w, s.log, s.obs, s.view, a).0, a, reply),
                 Advance(t, AskStep(w, t.log, t.obs, t.view, a).0, a, reply))
  {
    var reply := w.step(s.log, s.obs, s.view, a);
    SameReplies(w, s.log, t.log, s.obs, s.view, a);
    RecentEnd(s.log, StepEvent(s.obs, s.view, a, reply));
    RecentEnd(t.log, StepEvent(s.obs, s.view, a, reply));
  }

  lemma MaskTwin(w: World, s: Walk, t: Walk, obs: Obs)
    requires Deterministic(w) && Twin(s, t)
    ensures AskMask(w, t.log, obs).1 == AskMask(w, s.log, obs).1
    ensures Twin(s.(log := AskMask(w, s.log, obs).0), t.(log := AskMask(w, t.log, obs).0))
  {
    var view := w.mask(s.log, obs);
    SameReplies(w, s.log, t.log, obs, s.view, 0);
    RecentEnd(s.log, MaskEvent(obs, view));
    RecentEnd(t.log, MaskEvent(obs, view));
  }

  lemma StartTwin(w: World, log: Log, used: int, log': Log, used': int, mission: int)
    requires Deterministic(w)
    ensures Twin(Start(w, log, used, mission), Start(w, log', used', mission))
    ensures Start(w, log', used', mission).used == used'
  {
    var obs := w.reset(log, mission);
    assert obs == w.reset(log', mission);
    var e := ResetEvent(mission, obs);
    RecentEnd(log, e);
    RecentEnd(log', e);
    if obs.Some? {
      var s := Walk(log + [e], used, Raised, Obs(0, OtherShape), View([], 0), -1, 0.0, 0, false, "");
      MaskTwin(w, s, s.(log := log' + [e], used := used'), obs.value);
    }
  }

  lemma PrefixStepTwin(w: World, budget: int, s: Walk, t: Walk, a: int)
    requires Deterministic(w) && Twin(s, t) && s.fate == Going
    requires PrefixStep(w, budget, s, a).fate == Going
    ensures var t1 := PrefixStep(w, budget, t, a);
            if t.used < budget then Twin(PrefixStep(w, budget, s, a), t1) && t1.used == t.used + 1
            else t1.fate == Raised
  {
    hide Deterministic, Recent, MaskAt;
    if t.used < budget {
      StepTwin(w, s, t, a);
      var (log, reply) := AskStep(w, s.log, s.obs, s.view, a);
      var s1 := Advance(s, log, a, reply.value);
      var t1 := Advance(t, AskStep(w, t.log, t.obs, t.view, a).0, a, reply.value);
      MaskTwin(w, s1, t1, reply.value.obs);
    }
  }

  /** A prefix that could be replayed once can be replayed again, if the budget allows. */
  lemma {:induction false} PrefixTwin(w: World, budget: int, s: Walk, t: Walk, actions: seq<int>)
    requires Deterministic(w) && Twin(s, t) && s.fate == Going
    requires Prefix(w, budget, s, actions).fate == Going
    ensures var t1 := Prefix(w, budget, t, actions);
            if actions == [] || t.used + |actions| <= budget then
              Twin(Prefix(w, budget, s, actions), t1) && t1.used == t.used + |actions|
            else t1.fate == Raised
    decreases |actions|
  {
    hide PrefixStep, Deterministic;
    if actions != [] {
      PrefixStepTwin(w, budget, s, t, actions[0]);
      if t.used < budget {
        PrefixTwin(w, budget, PrefixStep(w, budget, s, actions[0]), PrefixStep(w, budget, t, actions[0]), actions[1..]);
      }
    }
  }

  /**
   After a successful replay of a state, no candidate branch of a legal action reports a prefix
   failure, a hash mismatch or an invalid candidate: it is accepted, or an exception ends it.
   */
  lemma BranchReproducesState(w: World, cfg: Config, target: Target, log: Log, used: int,
                              log': Log, used': int, planned: Planned)
    requires Deterministic(w)
    requires var p := Replay(w, cfg.maxEnvSteps, log, used, target);
             p.fate == Going && MaskAt(p.view.mask, planned.action) == Some(true)
    ensures var p := Replay(w, cfg.maxEnvSteps, log, used, target);
            var t := TryCandidate(w, cfg, |p.view.mask|, log', used', target, w.hash(p.obs, p.view.mask, p.prev), planned);
            !t.walk.fate.Blocked? && (t.row.Some? ==> t.row.value.mask == p.view.mask)
    ensures var p := Replay(w, cfg.maxEnvSteps, log, used, target);
            var t := TryCandidate(w, cfg, |p.view.mask|, log', used', target, w.hash(p.obs, p.view.mask, p.prev), planned);
            target.prefixActions != [] && used' + |target.prefixActions| > cfg.maxEnvSteps ==> t.walk.fate == Raised
  {
    hide Deterministic, Start, Prefix, CandidateStep, Follow;
    var s, s' := Start(w, log, used, target.mission), Start(w, log', used', target.mission);
    StartTwin(w, log, used, log', used', target.mission);
    PrefixGoing(w, cfg.maxEnvSteps, s, target.prefixActions);
    PrefixTwin(w, cfg.maxEnvSteps, s, s', target.prefixActions);
    var p := Replay(w, cfg.maxEnvSteps, log', used', target);
    if p.fate == Going {
      var c := CandidateStep(w, cfg.maxEnvSteps, |p.view.mask|, p, planned.action);
      CandidateNotBlocked(w, cfg.maxEnvSteps, |p.view.mask|, p, planned.action);
      FollowNotBlocked(w, cfg.maxEnvSteps, cfg.maxSteps, |p.view.mask|, c);
    }
  }

  lemma {:induction false} PrefixGoing(w: World, budget: int, s: Walk, actions: seq<int>)
    requires Prefix(w, budget, s, actions).fate == Going
    ensures s.fate == Going
  {
  }

  lemma CandidateNotBlocked(w: World, budget: int, dim: nat, s: Walk, a: int)
    requires s.fate == Going
    ensures !CandidateStep(w, budget, dim, s, a).fate.Blocked?
  {
  }

  lemma {:induction false} FollowNotBlocked(w: World, budget: int, maxSteps: int, dim: nat, s: Walk)
    requires !s.fate.Blocked?
    ensures !Follow(w, budget, maxSteps, dim, s).fate.Blocked?
    decreases if Stopped(maxSteps, s) then 0 else maxSteps - s.steps
  {
    if !Stopped(maxSteps, s) {
      FollowNotBlocked(w, budget, maxSteps, dim, FollowStep(w, budget, dim, s));
    }
  }

  // ----- Whole runs

  ghost predicate OnlyExceptions(branches: seq<Branch>) {
    forall i :: 0 <= i < |branches| && branches[i].status.Failed? ==> branches[i].status.failure == Runtime
  }

  lemma {:induction false} TryPlannedClean(w: World, cfg: Config, l: Ledger, index: nat, target: Target,
                                           log: Log, used: int, plan: seq<Planned>)
    requires Deterministic(w) && OnlyExceptions(l.branches)
    requires var p := Replay(w, cfg.maxEnvSteps, log, used, target);
             p.fate == Going && GoodPlan(p.view.mask, plan)
    ensures var p := Replay(w, cfg.maxEnvSteps, log, used, target);
            OnlyExceptions(TryPlanned(w, cfg, l, index, |p.view.mask|, target,
                                      w.hash(p.obs, p.view.mask, p.prev), plan).branches)
    decreases |plan|
  {
    hide Deterministic, Replay, TryCandidate;
    var p := Replay(w, cfg.maxEnvSteps, log, used, target);
    var id := w.hash(p.obs, p.view.mask, p.prev);
    if plan != [] && !LimitReached(cfg, l) {
      var t := TryCandidate(w, cfg, |p.view.mask|, l.log, l.used, target, id, plan[0]);
      BranchReproducesState(w, cfg, target, log, used, l.log, l.used, plan[0]);
      var l1 := Book(l, index, id, plan[0], t);
      if !l1.runtimeFailure {
        assert Actions(plan[1..]) == Actions(plan)[1..];
        TryPlannedClean(w, cfg, l1, index, target, log, used, plan[1..]);
      }
    }
  }

  lemma VisitClean(w: World, cfg: Config, l: Ledger, index: nat, target: Target)
    requires Deterministic(w) && OnlyExceptions(l.branches)
    ensures OnlyExceptions(Visit(w, cfg, l, index, target).ledger.branches)
  {
    hide Deterministic, Replay, Screen, TryPlanned;
    var p := Replay(w, cfg.maxEnvSteps, l.log, l.used, target);
    ScreenAdmits(w, cfg, index, target, p);
    match Screen(w, cfg, index, target, p)
    case Abort =>
    case Reject(f) =>
    case Admit(plan) =>
      var id := w.hash(p.obs, p.view.mask, p.prev);
      var l2 := l.(log := p.log, used := p.used,
                   states := l.states + [StateRecord(index, Collecting, Some(id), plan)]);
      TryPlannedClean(w, cfg, l2, index, target, l.log, l.used, plan);
  }

  lemma {:induction false} CollectClean(w: World, cfg: Config, l: Ledger, targets: seq<Target>, index: nat)
    requires Deterministic(w) && OnlyExceptions(l.branches)
    ensures OnlyExceptions(Collect(w, cfg, l, targets, index).ledger.branches)
    decreases |targets| - index
  {
    hide Deterministic, Visit;
    if index < |targets| && !LimitReached(cfg, l) {
      VisitClean(w, cfg, l, index, targets[index]);
      var r := Visit(w, cfg, l, index, targets[index]);
      if r.Finished? && !r.ledger.runtimeFailure {
        CollectClean(w, cfg, r.ledger, targets, index + 1);
      }
    }
  }

  lemma {:induction false} CleanFailures(branches: seq<Branch>, f: Failure)
    requires OnlyExceptions(branches) && f != Runtime
    ensures Failures(branches)[f] == 0
  {
    if branches != [] {
      CleanFailures(branches[..|branches| - 1], f);
    }
  }

  lemma {:induction false} CleanCount(branches: seq<Branch>)
    requires OnlyExceptions(branches)
    ensures |Failures(branches)| == Failures(branches)[Runtime]
  {
    if branches != [] {
      CleanCount(branches[..|branches| - 1]);
    }
  }

  // ----- Why a state is skipped

  /** The failures found before any candidate is tried. */
  predicate IsGate(f: Failure) {
    f == PrefixActionInvalid || f == PrefixTerminated || f == PositionMismatch || f == BcActionMismatch
  }

  ghost predicate GateSkips(states: seq<StateRecord>) {
    forall k :: 0 <= k < |states| && states[k].status.Skipped? ==> IsGate(states[k].status.failure)
  }

  lemma {:induction false} PrefixGates(w: World, budget: int, s: Walk, actions: seq<int>)
    requires s.fate.Blocked? ==> IsGate(s.fate.failure)
    ensures var t := Prefix(w, budget, s, actions); t.fate.Blocked? ==> IsGate(t.fate.failure)
    decreases |actions|
  {
    if actions != [] && s.fate == Going {
      PrefixGates(w, budget, PrefixStep(w, budget, s, actions[0]), actions[1..]);
    }
  }

  lemma {:induction false} TryPlannedStates(w: World, cfg: Config, l: Ledger, index: nat, dim: nat, target: Target,
                                            id: int, plan: seq<Planned>)
    ensures TryPlanned(w, cfg, l, index, dim, target, id, plan).states == l.states
    decreases |plan|
  {
    hide TryCandidate;
    if plan != [] && !LimitReached(cfg, l) {
      var t := TryCandidate(w, cfg, dim, l.log, l.used, target, id, plan[0]);
      var l1 := Book(l, index, id, plan[0], t);
      if !l1.runtimeFailure {
        TryPlannedStates(w, cfg, l1, index, dim, target, id, plan[1..]);
      }
    }
  }

  lemma VisitGates(w: World, cfg: Config, l: Ledger, index: nat, target: Target)
    requires GateSkips(l.states)
    ensures GateSkips(Visit(w, cfg, l, index, target).ledger.states)
  {
    PrefixGates(w, cfg.maxEnvSteps, Start(w, l.log, l.used, target.mission), target.prefixActions);
    var p := Replay(w, cfg.maxEnvSteps, l.log, l.used, target);
    ScreenAdmits(w, cfg, index, target, p);
    hide Prefix, Start, Replay, Screen, TryPlanned;
    match Screen(w, cfg, index, target, p)
    case Abort =>
    case Reject(f) => assert IsGate(f);
    case Admit(plan) =>
      var l2 := l.(log := p.log, used := p.used,
                   states := l.states + [StateRecord(index, Collecting, Some(w.hash(p.obs, p.view.mask, p.prev)), plan)]);
      TryPlannedStates(w, cfg, l2, index, |p.view.mask|, target, w.hash(p.obs, p.view.mask, p.prev), plan);
  }

  lemma {:induction false} CollectGates(w: World, cfg: Config, l: Ledger, targets: seq<Target>, index: nat)
    requires GateSkips(l.states)
    ensures GateSkips(Collect(w, cfg, l, targets, index).ledger.states)
    decreases |targets| - index
  {
    hide Visit, GateSkips;
    if index < |targets| && !LimitReached(cfg, l) {
      VisitGates(w, cfg, l, index, targets[index]);
      var r := Visit(w, cfg, l, index, targets[index]);
      if r.Finished? && !r.ledger.runtimeFailure {
        CollectGates(w, cfg, r.ledger, targets, index + 1);
      }
    }
  }

  lemma {:induction false} GatesOnly(states: seq<StateRecord>, f: Failure)
    requires GateSkips(states) && !IsGate(f)
    ensures Skips(states)[f] == 0
  {
    if states != [] {
      GatesOnly(states[..|states| - 1], f);
    }
  }

  /**
   A run against a deterministic simulator loses no branch: every branch becomes a row, except
   the one that an exception may interrupt at the very end, and no hash mismatch or invalid
   candidate is ever tallied.
   */
  lemma {:induction false} DeterministicRun(w: World, cfg: Config, targets: seq<Target>)
    requires Deterministic(w)
    ensures var l := Collect(w, cfg, Empty(), targets, 0).ledger;
            && |l.rows| >= |l.branches| - (if l.runtimeFailure then 1 else 0)
            && Tally(l.failures, StateHashMismatch) == 0 && Tally(l.failures, CandidateActionInvalid) == 0
  {
    hide Deterministic, Collect;
    EveryRun(w, cfg, targets);
    CollectClean(w, cfg, Empty(), targets, 0);
    var l := Collect(w, cfg, Empty(), targets, 0).ledger;
    CleanCount(l.branches);
    CleanFailures(l.branches, StateHashMismatch);
    CleanFailures(l.branches, CandidateActionInvalid);
    CollectGates(w, cfg, Empty(), targets, 0);
    GatesOnly(l.states, StateHashMismatch);
    GatesOnly(l.states, CandidateActionInvalid);
    assert Tally(l.failures, Runtime) == Skips(l.states)[Runtime] + Failures(l.branches)[Runtime];
  }

  // ----- The policy's own action as candidate

  /** Two branches report the same: they agree on everything but the view left over at the end. */
  predicate SameOutcome(s: Walk, t: Walk) {
    s.(view := t.view) == t
  }

  /**
   The candidate branch of the policy's own action parts from following the policy: the prefix
   alone has used up the steps of the branch; or the next mask is misshaped, and the query for it is
   an extra call at a terminal step, or fails unnoticed at the last step, or brings other
   information that a further step then sends.
   */
  predicate Parts(w: World, budget: int, maxSteps: int, dim: nat, p: Walk, a: int) {
    p.steps >= maxSteps || MaskParts(w, budget, maxSteps, dim, p, a)
  }

  predicate MaskParts(w: World, budget: int, maxSteps: int, dim: nat, p: Walk, a: int) {
    var (log, reply) := AskStep(w, p.log, p.obs, p.view, a);
    && p.used < budget && reply.Some? && !WellShaped(reply.value.obs, dim)
    && var asked := w.mask(log, reply.value.obs);
       if reply.value.done then true
       else if asked.None? then p.steps + 1 >= maxSteps
       else
         && asked.value.info != reply.value.nextInfo
         && p.steps + 1 < maxSteps && p.used + 1 < budget
         && BcAction(w, reply.value.obs, asked.value.mask, a).Some?
  }

  /** A branch whose candidate is the policy's own action is the branch of simply following the policy, except in these cases. */
  lemma {:induction false} PolicyBranch(w: World, cfg: Config, dim: nat, log: Log, used: int, target: Target,
      id: int, planned: Planned)
    requires var p := Replay(w, cfg.maxEnvSteps, log, used, target);
             && p.fate == Going && w.hash(p.obs, p.view.mask, p.prev) == id
             && BcAction(w, p.obs, p.view.mask, p.prev) == Some(planned.action)
    ensures var p := Replay(w, cfg.maxEnvSteps, log, used, target);
            SameOutcome(TryCandidate(w, cfg, dim, log, used, target, id, planned).walk,
                        Follow(w, cfg.maxEnvSteps, cfg.maxSteps, dim, p)) <==>
              !Parts(w, cfg.maxEnvSteps, cfg.maxSteps, dim, p, planned.action)
  {
    ReplayNotDone(w, cfg.maxEnvSteps, log, used, target);
    hide Replay;
    var p := Replay(w, cfg.maxEnvSteps, log, used, target);
    var c := CandidateStep(w, cfg.maxEnvSteps, dim, p, planned.action);
    CandidateVersusPolicy(w, cfg.maxEnvSteps, cfg.maxSteps, dim, p, planned.action);
    CandidateNotBlocked(w, cfg.maxEnvSteps, dim, p, planned.action);
    hide CandidateStep, Follow, Parts;
    if c.fate == Raised {
      FollowRaised(w, cfg.maxEnvSteps, cfg.maxSteps, dim, c);
    }
  }

  lemma {:induction false} PrefixNotDone(w: World, budget: int, s: Walk, actions: seq<int>)
    requires !s.done
    ensures Prefix(w, budget, s, actions).fate == Going ==> !Prefix(w, budget, s, actions).done
    decreases |actions|
  {
    if actions != [] && s.fate == Going {
      var s1 := PrefixStep(w, budget, s, actions[0]);
      if s1.fate == Going {
        PrefixNotDone(w, budget, s1, actions[1..]);
      }
    }
  }

  lemma ReplayNotDone(w: World, budget: int, log: Log, used: int, target: Target)
    ensures Replay(w, budget, log, used, target).fate == Going ==> !Replay(w, budget, log, used, target).done
  {
    PrefixNotDone(w, budget, Start(w, log, used, target.mission), target.prefixActions);
  }

  lemma {:induction false} FollowRaised(w: World, budget: int, maxSteps: int, dim: nat, s: Walk)
    requires s.fate == Raised
    ensures Follow(w, budget, maxSteps, dim, s) == s
  {
  }

  lemma {:induction false} CandidateVersusPolicy(w: World, budget: int, maxSteps: int, dim: nat, p: Walk, a: int)
    requires p.fate == Going && !p.done && BcAction(w, p.obs, p.view.mask, p.prev) == Some(a)
    ensures SameOutcome(Follow(w, budget, maxSteps, dim, CandidateStep(w, budget, dim, p, a)),
                        Follow(w, budget, maxSteps, dim, p)) <==>
              !Parts(w, budget, maxSteps, dim, p, a)
  {
    var (log, reply) := AskStep(w, p.log, p.obs, p.view, a);
    var c, f := CandidateStep(w, budget, dim, p, a), FollowStep(w, budget, dim, p);
    if p.steps >= maxSteps {
      assert Follow(w, budget, maxSteps, dim, p) == p && Follow(w, budget, maxSteps, dim, c) == c;
      return;
    }
    assert Follow(w, budget, maxSteps, dim, p) == Follow(w, budget, maxSteps, dim, f);
    if p.used < budget && reply.Some? && !WellShaped(reply.value.obs, dim) && !reply.value.done {
      var asked := w.mask(log, reply.value.obs);
      if asked.Some? && asked.value.info != reply.value.nextInfo {
        OtherInformation(w, budget, maxSteps, dim, c, f);
      }
    }
  }

  /** Two walks that differ in the information they would send show it as soon as a step is sent. */
  lemma {:induction false} OtherInformation(w: World, budget: int, maxSteps: int, dim: nat, c: Walk, f: Walk)
    requires c.fate == Going && !c.done && f == c.(view := f.view) && f.view.mask == c.view.mask && f.view.info != c.view.info
    ensures SameOutcome(Follow(w, budget, maxSteps, dim, c), Follow(w, budget, maxSteps, dim, f)) <==>
              !(c.steps < maxSteps && c.used < budget && BcAction(w, c.obs, c.view.mask, c.prev).Some?)
  {
    if c.steps < maxSteps && c.used < budget && BcAction(w, c.obs, c.view.mask, c.prev).Some? {
      var c1, f1 := FollowStep(w, budget, dim, c), FollowStep(w, budget, dim, f);
      FollowGrows(w, budget, maxSteps, dim, c1);
      FollowGrows(w, budget, maxSteps, dim, f1);
      StepIsLogged(w, budget, dim, c);
      StepIsLogged(w, budget, dim, f);
      hide FollowStep, BcAction;
      assert Follow(w, budget, maxSteps, dim, c) == Follow(w, budget, maxSteps, dim, c1);
      assert Follow(w, budget, maxSteps, dim, f) == Follow(w, budget, maxSteps, dim, f1);
      hide Follow;
    }
  }

  lemma StepIsLogged(w: World, budget: int, dim: nat, s: Walk)
    requires s.used < budget && BcAction(w, s.obs, s.view.mask, s.prev).Some?
    ensures var log := FollowStep(w, budget, dim, s).log;
            |log| > |s.log| && log[|s.log|].StepEvent? && log[|s.log|].shown == s.view
  {
  }

  /** A simulator whose first step ends the episode and returns an observation without a mask vector. */
  function Maskless(): World {
    World((_, _) => Some(Obs(0, Vector([true]))), (_, _) => Some(View([true], 0)),
          (_, _, _, _) => Some(StepReply(Obs(0, OtherShape), 0.0, true, 0, "")),
          (_, _, _) => 0, (_, _, _) => 0, (_, _, _, _) => Some(None), (_, _) => Some([]), (_, _) => [], (_, _) => None)
  }

  /** There the candidate branch of the policy's own action asks for one mask more than following the policy does. */
  lemma MasklessParts()
    ensures var w, cfg, target := Maskless(), Config(1, 1, 1, 1, 10, 5, 0, 0, 0.0), Target(0, 0, 0, 0, 0, []);
            var p := Replay(w, cfg.maxEnvSteps, [], 0, target);
            !SameOutcome(TryCandidate(w, cfg, 1, [], 0, target, 0, Planned(BC, 0)).walk,
                         Follow(w, cfg.maxEnvSteps, cfg.maxSteps, 1, p))
  {
    var w, cfg, target := Maskless(), Config(1, 1, 1, 1, 10, 5, 0, 0, 0.0), Target(0, 0, 0, 0, 0, []);
    var p := Replay(w, cfg.maxEnvSteps, [], 0, target);
    assert p == Start(w, [], 0, 0);
    assert Parts(w, cfg.maxEnvSteps, cfg.maxSteps, 1, p, 0);
    PolicyBranch(w, cfg, 1, [], 0, target, 0, Planned(BC, 0));
  }
}
