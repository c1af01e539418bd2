/** Every completed branch on record, and every collected row, is an episode that the simulator's log really shows. */
module CollectorEvidence {
  import opened Basics
  import opened CollectorSpec
  import opened CollectorSafety

  /** An episode of the log and a branch record agree. */
  ghost predicate Shows(w: World, cfg: Config, target: Target, ticks: seq<Tick>, b: Branch)
    requires b.status.Completed?
  {
    && b.status.ret == TotalReward(ticks)
    && b.status.steps == |ticks|
    && target.prefixActions + [b.planned.action] <= TickActions(ticks)
    && Branches(w, ticks, |target.prefixActions|, b.stateId)
    && OneEnd(ticks)
    && ticks != []
    && (!Ended(ticks) ==> b.status.reason == "timeout" && |ticks| >= cfg.maxSteps)
    && (Ended(ticks) ==>
          var reason := ticks[|ticks| - 1].reply.reason;
          if reason == "" || reason == "unknown" then b.status.reason == "terminal" else b.status.reason == reason)
  }

  ghost predicate ShownAt(w: World, cfg: Config, target: Target, log: Log, k: nat, b: Branch)
    requires b.status.Completed? && k <= |log|
  {
    Shows(w, cfg, target, Episode(log[..k]), b)
  }

  ghost predicate Backed(w: World, cfg: Config, targets: seq<Target>, log: Log, b: Branch) {
    b.status.Completed? ==>
      && b.stateIndex < |targets|
      && exists k: nat :: k <= |log| && ShownAt(w, cfg, targets[b.stateIndex], log, k, b)
  }

  ghost predicate RowShownAt(w: World, cfg: Config, targets: seq<Target>, log: Log, k: nat, i: nat, dim: nat, r: Row) {
    k <= |log| && i < |targets| && RowShown(w, cfg, dim, targets[i], log[..k], r)
  }

  /** Some stretch of the log shows the row, as a branch of some target. */
  ghost predicate RowBacked(w: World, cfg: Config, targets: seq<Target>, log: Log, r: Row) {
    exists k: nat, i: nat, dim: nat :: RowShownAt(w, cfg, targets, log, k, i, dim, r)
  }

  ghost predicate AllBacked(w: World, cfg: Config, targets: seq<Target>, l: Ledger) {
    && (forall i :: 0 <= i < |l.branches| ==> Backed(w, cfg, targets, l.log, l.branches[i]))
    && (forall i :: 0 <= i < |l.rows| ==> RowBacked(w, cfg, targets, l.log, l.rows[i]))
  }

  lemma BackedLater(w: World, cfg: Config, targets: seq<Target>, log: Log, later: Log, b: Branch)
    requires Backed(w, cfg, targets, log, b) && log <= later
    ensures Backed(w, cfg, targets, later, b)
  {
    if b.status.Completed? {
      var k: nat :| k <= |log| && ShownAt(w, cfg, targets[b.stateIndex], log, k, b);
      assert log[..k] == later[..k];
      assert ShownAt(w, cfg, targets[b.stateIndex], later, k, b);
    }
  }

  lemma RowBackedLater(w: World, cfg: Config, targets: seq<Target>, log: Log, later: Log, r: Row)
    requires RowBacked(w, cfg, targets, log, r) && log <= later
    ensures RowBacked(w, cfg, targets, later, r)
  {
    hide RowShown;
    var k: nat, i: nat, dim: nat :| RowShownAt(w, cfg, targets, log, k, i, dim, r);
    assert log[..k] == later[..k];
    assert RowShownAt(w, cfg, targets, later, k, i, dim, r);
  }

  // ----- Every step keeps the evidence

  lemma BookBacked(w: World, cfg: Config, targets: seq<Target>, l: Ledger, index: nat, dim: nat, id: int,
                   planned: Planned)
    requires index < |targets| && AllBacked(w, cfg, targets, l)
    requires StepCount(l.log) <= Max(0, cfg.maxEnvSteps) && l.used == StepCount(l.log) && Legal(l.log)
    ensures var t := TryCandidate(w, cfg, dim, l.log, l.used, targets[index], id, planned);
            AllBacked(w, cfg, targets, Book(l, index, id, planned, t))
  {
    hide TryCandidate, Legal, TotalReward, OneEnd, Branches, StatesShown, Backed, RowBacked;
    TrialSafe(w, cfg, dim, l.log, l.used, targets[index], id, planned);
    TrialGrows(w, cfg, dim, l.log, l.used, targets[index], id, planned);
    var t := TryCandidate(w, cfg, dim, l.log, l.used, targets[index], id, planned);
    var l1 := Book(l, index, id, planned, t);
    forall i | 0 <= i < |l1.branches| ensures Backed(w, cfg, targets, l1.log, l1.branches[i]) {
      if i < |l.branches| {
        BackedLater(w, cfg, targets, l.log, l1.log, l.branches[i]);
      } else {
        NewBacked(w, cfg, targets, l1.log, index, dim, id, planned, t, l1.branches[i]);
      }
    }
    forall i | 0 <= i < |l1.rows| ensures RowBacked(w, cfg, targets, l1.log, l1.rows[i]) {
      if i < |l.rows| {
        RowBackedLater(w, cfg, targets, l.log, l1.log, l.rows[i]);
      } else {
        NewRowBacked(w, cfg, targets, l1.log, index, dim, l1.rows[i]);
      }
    }
  }

  lemma NewBacked(w: World, cfg: Config, targets: seq<Target>, log: Log, index: nat, dim: nat, id: int,
                  planned: Planned, t: Trial, b: Branch)
    requires index < |targets| && log == t.walk.log && b.stateIndex == index && b.stateId == id && b.planned == planned
    requires b.status.Completed? ==>
      && t.row.Some? && Attested(w, cfg, dim, targets[index], id, planned, t)
      && b.status == Completed(t.walk.ret, t.walk.steps, TerminalReason(t.walk.done, t.walk.reason))
    ensures Backed(w, cfg, targets, log, b)
  {
    hide Branches, StatesShown, TotalReward, OneEnd;
    if b.status.Completed? {
      assert log[..|log|] == log;
      assert ShownAt(w, cfg, targets[index], log, |log|, b);
    }
  }

  lemma NewRowBacked(w: World, cfg: Config, targets: seq<Target>, log: Log, index: nat, dim: nat, r: Row)
    requires index < |targets| && RowShown(w, cfg, dim, targets[index], log, r)
    ensures RowBacked(w, cfg, targets, log, r)
  {
    hide RowShown;
    assert log[..|log|] == log;
    assert RowShownAt(w, cfg, targets, log, |log|, index, dim, r);
  }

  ghost predicate Metred(cfg: Config, l: Ledger) {
    StepCount(l.log) <= Max(0, cfg.maxEnvSteps) && Legal(l.log) && (!l.runtimeFailure ==> l.used == StepCount(l.log))
  }

  lemma {:induction false} TryPlannedBacked(w: World, cfg: Config, targets: seq<Target>, l: Ledger, index: nat,
                                            dim: nat, id: int, plan: seq<Planned>)
    requires index < |targets| && AllBacked(w, cfg, targets, l) && Metred(cfg, l) && !l.runtimeFailure
    ensures var l1 := TryPlanned(w, cfg, l, index, dim, targets[index], id, plan);
            AllBacked(w, cfg, targets, l1) && Metred(cfg, l1)
    decreases |plan|
  {
    hide TryCandidate, Legal, AllBacked;
    if plan != [] && !LimitReached(cfg, l) {
      var t := TryCandidate(w, cfg, dim, l.log, l.used, targets[index], id, plan[0]);
      TrialSafe(w, cfg, dim, l.log, l.used, targets[index], id, plan[0]);
      BookBacked(w, cfg, targets, l, index, dim, id, plan[0]);
      var l1 := Book(l, index, id, plan[0], t);
      if !l1.runtimeFailure {
        TryPlannedBacked(w, cfg, targets, l1, index, dim, id, plan[1..]);
      }
    }
  }

  lemma AllBackedLater(w: World, cfg: Config, targets: seq<Target>, l: Ledger, l1: Ledger)
    requires AllBacked(w, cfg, targets, l) && l1.branches == l.branches && l1.rows == l.rows && l.log <= l1.log
    ensures AllBacked(w, cfg, targets, l1)
  {
    hide Backed, RowBacked;
    forall i | 0 <= i < |l.branches| ensures Backed(w, cfg, targets, l1.log, l1.branches[i]) {
      BackedLater(w, cfg, targets, l.log, l1.log, l.branches[i]);
    }
    forall i | 0 <= i < |l.rows| ensures RowBacked(w, cfg, targets, l1.log, l1.rows[i]) {
      RowBackedLater(w, cfg, targets, l.log, l1.log, l.rows[i]);
    }
  }

  lemma VisitBacked(w: World, cfg: Config, targets: seq<Target>, l: Ledger, index: nat)
    requires index < |targets| && AllBacked(w, cfg, targets, l) && Metred(cfg, l) && !l.runtimeFailure
    ensures var r := Visit(w, cfg, l, index, targets[index]);
            AllBacked(w, cfg, targets, r.ledger) && (r.Finished? ==> Metred(cfg, r.ledger))
  {
    hide Replay, Screen, AllBacked, Legal, TryPlanned;
    var target := targets[index];
    ReplaySafe(w, cfg.maxEnvSteps, l.log, l.used, target);
    ReplayGrows(w, cfg.maxEnvSteps, l.log, l.used, target);
    var p := Replay(w, cfg.maxEnvSteps, l.log, l.used, target);
    ScreenStarts(w, cfg, index, target, p);
    var l1 := l.(log := p.log, used := p.used);
    AllBackedLater(w, cfg, targets, l, l1);
    AllBackedLater(w, cfg, targets, l, l.(log := p.log));
    match Screen(w, cfg, index, target, p)
    case Abort =>
    case Reject(f) => AllBackedLater(w, cfg, targets, l1, Skip(l1, index, f));
    case Admit(plan) =>
      if plan == [] {
        AllBackedLater(w, cfg, targets, l1, l1.(failures := Bump(l1.failures, NoLegalCandidates)));
      } else {
        var id := w.hash(p.obs, p.view.mask, p.prev);
        var l2 := l1.(states := l1.states + [StateRecord(index, Collecting, Some(id), plan)]);
        AllBackedLater(w, cfg, targets, l1, l2);
        TryPlannedBacked(w, cfg, targets, l2, index, |p.view.mask|, id, plan);
        var l3 := TryPlanned(w, cfg, l2, index, |p.view.mask|, target, id, plan);
        AllBackedLater(w, cfg, targets, l3, Close(l3, |l.rows|));
      }
  }

  lemma ScreenStarts(w: World, cfg: Config, index: nat, target: Target, p: Walk)
    ensures !Screen(w, cfg, index, target, p).Abort? ==> p.fate != Raised
  {
  }

  lemma {:induction false} CollectBacked(w: World, cfg: Config, targets: seq<Target>, l: Ledger, index: nat)
    requires AllBacked(w, cfg, targets, l) && Metred(cfg, l) && !l.runtimeFailure
    ensures AllBacked(w, cfg, targets, Collect(w, cfg, l, targets, index).ledger)
    decreases |targets| - index
  {
    hide Visit, AllBacked, Legal;
    if index < |targets| && !LimitReached(cfg, l) {
      VisitBacked(w, cfg, targets, l, index);
      var r := Visit(w, cfg, l, index, targets[index]);
      if r.Finished? && !r.ledger.runtimeFailure {
        CollectBacked(w, cfg, targets, r.ledger, index + 1);
      }
    }
  }

  /**
   In every run, each completed branch was really executed: some stretch of the simulator's log
   replays the recorded prefix to the state of the recorded hash, takes the candidate action there,
   follows the frozen policy from then on, and has exactly the reported return and number of steps;
   it stopped at a terminal step or after max_steps as a timeout. And each row is shown by such a stretch.
   */
  lemma {:induction false} BranchesWereExecuted(w: World, cfg: Config, targets: seq<Target>)
    ensures AllBacked(w, cfg, targets, Collect(w, cfg, Empty(), targets, 0).ledger)
  {
    CollectBacked(w, cfg, targets, Empty(), 0);
  }

  // ----- The next observation of a row

  /**
   The row names its next state by the candidate's own step, but stores with it the observation that the
   last step of the branch brought. Both are of one step exactly when the candidate ended the branch:
   it was terminal or used up the steps. Otherwise the stored observation is that of a later step.
   */
  lemma {:induction false} NextObservation(w: World, cfg: Config, dim: nat, target: Target, log: Log, r: Row)
    requires RowShown(w, cfg, dim, target, log, r)
    ensures var ticks, n := Episode(log), |target.prefixActions|;
            && n < |ticks| && r.nextObs == ticks[|ticks| - 1].reply.obs
            && r.nextStateId == w.hash(ticks[n].reply.obs, r.nextMask, ticks[n].action)
            && (|ticks| - 1 == n <==> r.done || n + 1 >= cfg.maxSteps)
            && (r.done || n + 1 >= cfg.maxSteps ==>
                  r.nextStateId == w.hash(r.nextObs, r.nextMask, r.planned.action))
  {
    hide Branches, Brings, IsStep;
    var n := |target.prefixActions|;
    assert (target.prefixActions + [r.planned.action])[n] == TickActions(Episode(log))[n];
  }

  /** A simulator that counts its steps and ends at the second one; the hash of a state is its count. */
  function Counter(): World {
    World((_, _) => Some(Obs(0, Vector([true]))), (_, _) => Some(View([true], 0)),
          (_, o: Obs, _, _) => Some(StepReply(Obs(o.content + 1, Vector([true])), 0.0, o.content >= 1, 0, "")),
          (o: Obs, _, _) => o.content, (_, _, _) => 0, (_, _, _, _) => Some(None), (_, _) => Some([]), (_, _) => [],
          (_, _) => None)
  }

  const AT_ONE: Obs := Obs(1, Vector([true]))
  const AT_TWO: Obs := Obs(2, Vector([true]))

  lemma CounterReplays()
    ensures var p := Replay(Counter(), 10, [], 0, Target(0, 0, 0, 0, 0, []));
            && p.fate == Going && p.obs == Obs(0, Vector([true])) && p.view == View([true], 0) && p.prev == -1
            && p.steps == 0 && p.used == 0
  {
    assert Replay(Counter(), 10, [], 0, Target(0, 0, 0, 0, 0, [])) == Start(Counter(), [], 0, 0);
  }

  lemma CounterSteps(p: Walk)
    requires p.fate == Going && p.obs == Obs(0, Vector([true])) && p.view == View([true], 0) && p.prev == -1
    requires p.steps == 0 && p.used == 0
    ensures var c := CandidateStep(Counter(), 10, 1, p, 0);
            && c.fate == Going && c.obs == AT_ONE && !c.done && c.view == View([true], 0) && c.prev == 0
            && c.steps == 1 && c.used == 1
  {
  }

  lemma {:induction false} CounterFollows(c: Walk)
    requires c.fate == Going && c.obs == AT_ONE && !c.done && c.view == View([true], 0) && c.prev == 0
    requires c.steps == 1 && c.used == 1
    ensures var e := Follow(Counter(), 10, 5, 1, c); e.fate == Going && e.obs == AT_TWO
  {
    var f := FollowStep(Counter(), 10, 1, c);
    assert f.fate == Going && f.done && f.obs == AT_TWO;
    assert Follow(Counter(), 10, 5, 1, f) == f;
  }

  /** There the row of the first state names state 1 as the next one and stores the observation of state 2. */
  lemma LaterObservationStored()
    ensures var w, cfg, target := Counter(), Config(1, 1, 1, 1, 10, 5, 0, 0, 0.0), Target(0, 0, 0, 0, 0, []);
            var t := TryCandidate(w, cfg, 1, [], 0, target, 0, Planned(BC, 0));
            && t.row.Some? && !t.row.value.done
            && t.row.value.nextStateId == 1 && t.row.value.nextObs == AT_TWO
            && t.row.value.nextStateId != w.hash(t.row.value.nextObs, t.row.value.nextMask, 0)
  {
    hide Replay, CandidateStep, Follow;
    var p := Replay(Counter(), 10, [], 0, Target(0, 0, 0, 0, 0, []));
    CounterReplays();
    CounterSteps(p);
    CounterFollows(CandidateStep(Counter(), 10, 1, p, 0));
  }

  // ----- Which masks are queried

  /**
   From position `from` on, a mask is queried after a step only when the observation of that step brought
   no mask vector, or, where a width is asked for, one of another width.
   */
  ghost predicate Needed(log: Log, from: nat, dim: Option<nat>) {
    forall i: nat :: from <= i < |log| && i > 0 && log[i].MaskEvent? && log[i - 1].StepEvent? ==>
      Lacking(log[i - 1], dim)
  }

  predicate Lacking(e: Event, dim: Option<nat>)
    requires e.StepEvent?
  {
    e.reply.Some? &&
    var raw := e.reply.value.obs.rawMask;
    raw.OtherShape? || (dim.Some? && |raw.bits| != dim.value)
  }

  lemma NeededJoin(a: Log, b: Log, from: nat, dim: Option<nat>)
    requires a <= b && from <= |a| && Needed(a, from, dim) && Needed(b, |a|, dim)
    ensures Needed(b, from, dim)
  {
  }

  lemma {:induction false} PrefixAsks(w: World, budget: int, s: Walk, actions: seq<int>)
    ensures Needed(Prefix(w, budget, s, actions).log, |s.log|, None)
    decreases |actions|
  {
    if actions != [] && s.fate == Going {
      var s1 := PrefixStep(w, budget, s, actions[0]);
      PrefixAsks(w, budget, s1, actions[1..]);
      PrefixGrows(w, budget, s1, actions[1..]);
      assert s.log <= s1.log && Needed(s1.log, |s.log|, None);
      hide PrefixStep;
      NeededJoin(s1.log, Prefix(w, budget, s, actions).log, |s.log|, None);
    }
  }

  lemma {:induction false} FollowAsks(w: World, budget: int, maxSteps: int, dim: nat, s: Walk)
    ensures Needed(Follow(w, budget, maxSteps, dim, s).log, |s.log|, Some(dim))
    decreases if Stopped(maxSteps, s) then 0 else maxSteps - s.steps
  {
    if !Stopped(maxSteps, s) {
      var t := FollowStep(w, budget, dim, s);
      FollowAsks(w, budget, maxSteps, dim, t);
      FollowGrows(w, budget, maxSteps, dim, t);
      assert s.log <= t.log && Needed(t.log, |s.log|, Some(dim));
      hide FollowStep, BcAction;
      NeededJoin(t.log, Follow(w, budget, maxSteps, dim, s).log, |s.log|, Some(dim));
    }
  }

  lemma ReplayAsks(w: World, budget: int, log: Log, used: int, target: Target)
    ensures var p := Replay(w, budget, log, used, target); log < p.log && Needed(p.log, |log| + 1, None)
  {
    var s := Start(w, log, used, target.mission);
    assert log < s.log && Needed(s.log, |log| + 1, None);
    hide Start, Needed;
    PrefixAsks(w, budget, s, target.prefixActions);
    PrefixGrows(w, budget, s, target.prefixActions);
    NeededJoin(s.log, Replay(w, budget, log, used, target).log, |log| + 1, None);
  }

  lemma CandidateAsks(w: World, budget: int, dim: nat, p: Walk, a: int)
    ensures var c := CandidateStep(w, budget, dim, p, a); p.log <= c.log && Needed(c.log, |p.log|, Some(dim))
  {
  }

  /** The branch is the replay alone, the candidate step too, or all of it. */
  lemma {:induction false} TrialWalks(w: World, cfg: Config, dim: nat, log: Log, used: int, target: Target,
      id: int, planned: Planned)
    ensures var p := Replay(w, cfg.maxEnvSteps, log, used, target);
            var c := CandidateStep(w, cfg.maxEnvSteps, dim, p, planned.action);
            var t := TryCandidate(w, cfg, dim, log, used, target, id, planned).walk;
            t.log in {p.log, c.log, Follow(w, cfg.maxEnvSteps, cfg.maxSteps, dim, c).log}
  {
    hide Replay, CandidateStep, Follow;
  }

  /** A replay takes any mask vector as it comes; candidate and continuation want one of the state's width. */
  lemma TrialAsks(w: World, cfg: Config, dim: nat, log: Log, used: int, target: Target, id: int, planned: Planned)
    ensures var t := TryCandidate(w, cfg, dim, log, used, target, id, planned).walk;
            exists k :: |log| < k <= |t.log| && Needed(t.log[..k], |log| + 1, None) && Needed(t.log, k, Some(dim))
  {
    hide TryCandidate, Replay, CandidateStep, Follow;
    var p := Replay(w, cfg.maxEnvSteps, log, used, target);
    var c := CandidateStep(w, cfg.maxEnvSteps, dim, p, planned.action);
    var e := Follow(w, cfg.maxEnvSteps, cfg.maxSteps, dim, c);
    var t := TryCandidate(w, cfg, dim, log, used, target, id, planned).walk;
    TrialWalks(w, cfg, dim, log, used, target, id, planned);
    ReplayAsks(w, cfg.maxEnvSteps, log, used, target);
    CandidateAsks(w, cfg.maxEnvSteps, dim, p, planned.action);
    FollowAsks(w, cfg.maxEnvSteps, cfg.maxSteps, dim, c);
    FollowGrows(w, cfg.maxEnvSteps, cfg.maxSteps, dim, c);
    NeededJoin(c.log, e.log, |p.log|, Some(dim));
    assert Needed(p.log, |p.log|, Some(dim));
    hide Needed;
    assert t.log[..|p.log|] == p.log;
  }
}
