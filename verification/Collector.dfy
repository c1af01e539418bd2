/**
 The collector itself: a simulator that is driven step by step, and the loops that replay
 prefixes, try candidates and keep the books. Every method is tied to its function in
 CollectorSpec, and through it to the theorems about runs.
 */
module Collector {
  import opened Basics
  import opened CollectorSpec
  import opened CollectorSafety
  import opened CollectorRuns
  import opened CollectorTargets

  /** The environment: its replies may depend on everything that was ever asked of it. */
  class Simulator {
    const world: World
    var log: Log

    constructor (world: World)
      ensures this.world == world && log == []
    {
      this.world := world;
      log := [];
    }

    method Reset(mission: int) returns (obs: Option<Obs>)
      modifies this
      ensures (log, obs) == AskReset(world, old(log), mission)
    {
      obs := world.reset(log, mission);
      log := log + [ResetEvent(mission, obs)];
    }

    method GetMask(obs: Obs) returns (view: Option<View>)
      modifies this
      ensures (log, view) == AskMask(world, old(log), obs)
    {
      view := world.mask(log, obs);
      log := log + [MaskEvent(obs, view)];
    }

    method Step(obs: Obs, view: View, action: int) returns (reply: Option<StepReply>)
      modifies this
      ensures (log, reply) == AskStep(world, old(log), obs, view, action)
    {
      reply := world.step(log, obs, view, action);
      log := log + [StepEvent(obs, view, action, reply)];
    }
  }

  /** Reset the environment and command the recorded prefix, one action after the other. */
  method ReplayPrefix(env: Simulator, budget: int, envSteps: int, target: Target) returns (s: Walk)
    modifies env
    ensures s == Replay(env.world, budget, old(env.log), envSteps, target) && env.log == s.log
  {
    var w := env.world;
    var used, prev, ret, steps, reason := envSteps, -1, 0.0, 0, "";
    var start := env.Reset(target.mission);
    if start.None? {
      return Walk(env.log, used, Raised, Obs(0, OtherShape), View([], 0), prev, ret, steps, false, reason);
    }
    var obs := start.value;
    var mask := env.GetMask(obs);
    if mask.None? {
      return Walk(env.log, used, Raised, Obs(0, OtherShape), View([], 0), prev, ret, steps, false, reason);
    }
    var view := mask.value;
    var i := 0;
    while i < |target.prefixActions|
      invariant 0 <= i <= |target.prefixActions|
      invariant Prefix(w, budget, Walk(env.log, used, Going, obs, view, prev, ret, steps, false, reason),
                       target.prefixActions[i..]) == Replay(w, budget, old(env.log), envSteps, target)
    {
      var action := target.prefixActions[i];
      assert target.prefixActions[i..][1..] == target.prefixActions[i + 1..];
      s := Walk(env.log, used, Raised, obs, view, prev, ret, steps, false, reason);
      if used >= budget {
        return;
      }
      var allowed := MaskAt(view.mask, action);
      if allowed.None? {
        return;
      }
      if !allowed.value {
        return s.(fate := Blocked(PrefixActionInvalid));
      }
      var reply := env.Step(obs, view, action);
      if reply.None? {
        return s.(log := env.log);
      }
      used, ret, steps := used + 1, ret + reply.value.reward, steps + 1;
      obs, prev, reason := reply.value.obs, action, reply.value.reason;
      if reply.value.done {
        return Walk(env.log, used, Blocked(PrefixTerminated), obs, view, prev, ret, steps, true, reason);
      }
      if obs.rawMask.Vector? {
        view := View(obs.rawMask.bits, reply.value.nextInfo);
      } else {
        var next := env.GetMask(obs);
        if next.None? {
          return Walk(env.log, used, Raised, obs, view, prev, ret, steps, false, reason);
        }
        view := next.value;
      }
      i := i + 1;
    }
    s := Walk(env.log, used, Going, obs, view, prev, ret, steps, false, reason);
  }

  /** Step the candidate action of a replayed state. */
  method StepCandidate(env: Simulator, budget: int, dim: nat, p: Walk, action: int) returns (c: Walk)
    requires env.log == p.log && p.fate == Going
    modifies env
    ensures c == CandidateStep(env.world, budget, dim, p, action) && env.log == c.log
  {
    if p.used >= budget {
      return p.(fate := Raised);
    }
    var reply := env.Step(p.obs, p.view, action);
    if reply.None? {
      return p.(log := env.log, fate := Raised);
    }
    c := Advance(p, env.log, action, reply.value);
    var raw := reply.value.obs.rawMask;
    if raw.Vector? && |raw.bits| == dim {
      c := c.(view := View(raw.bits, reply.value.nextInfo));
    } else {
      var asked := env.GetMask(reply.value.obs);
      var mask := if asked.Some? then asked.value.mask else NoActions(dim);
      c := c.(log := env.log, view := View(mask, reply.value.nextInfo));
    }
  }

  /** Let the frozen policy finish the branch. */
  method FollowPolicy(env: Simulator, budget: int, maxSteps: int, dim: nat, c: Walk) returns (s: Walk)
    requires env.log == c.log && c.fate == Going
    modifies env
    ensures s == Follow(env.world, budget, maxSteps, dim, c) && env.log == s.log
  {
    var w := env.world;
    s := c;
    while !s.done && s.steps < maxSteps
      invariant env.log == s.log && s.fate == Going
      invariant Follow(w, budget, maxSteps, dim, s) == Follow(w, budget, maxSteps, dim, c)
      decreases maxSteps - s.steps
    {
      ghost var s0 := s;
      if s.used >= budget {
        return s.(fate := Raised);
      }
      var action := BcAction(w, s.obs, s.view.mask, s.prev);
      if action.None? {
        return s.(fate := Raised);
      }
      var reply := env.Step(s.obs, s.view, action.value);
      if reply.None? {
        return s.(log := env.log, fate := Raised);
      }
      s := Advance(s, env.log, action.value, reply.value);
      if !s.done {
        var raw := s.obs.rawMask;
        if raw.Vector? && |raw.bits| == dim {
          s := s.(view := View(raw.bits, reply.value.nextInfo));
        } else {
          var asked := env.GetMask(s.obs);
          if asked.None? {
            return s.(log := env.log, fate := Raised);
          }
          s := s.(log := env.log, view := asked.value);
        }
      }
      assert s == FollowStep(w, budget, dim, s0);
    }
  }

  method CandidateTransition(env: Simulator, cfg: Config, dim: nat, envSteps: int, target: Target,
                             expected: int, planned: Planned) returns (t: Trial)
    modifies env
    ensures t == TryCandidate(env.world, cfg, dim, old(env.log), envSteps, target, expected, planned)
    ensures env.log == t.walk.log
  {
    hide Replay, CandidateStep, Follow;
    var w := env.world;
    var p := ReplayPrefix(env, cfg.maxEnvSteps, envSteps, target);
    if p.fate != Going {
      return Trial(p, None);
    }
    if w.hash(p.obs, p.view.mask, p.prev) != expected {
      return Trial(p.(fate := Blocked(StateHashMismatch)), None);
    }
    var allowed := MaskAt(p.view.mask, planned.action);
    if allowed.None? {
      return Trial(p.(fate := Raised), None);
    }
    if !allowed.value {
      return Trial(p.(fate := Blocked(CandidateActionInvalid)), None);
    }
    var c := StepCandidate(env, cfg.maxEnvSteps, dim, p, planned.action);
    if c.fate == Raised {
      return Trial(c, None);
    }
    CandidateGoing(w, cfg.maxEnvSteps, dim, p, planned.action);
    var e := FollowPolicy(env, cfg.maxEnvSteps, cfg.maxSteps, dim, c);
    if e.fate == Raised {
      return Trial(e, None);
    }
    t := Trial(e, Some(Row(expected, target.mission, target.episode, target.step, planned, p.view.mask,
                           c.ret - p.ret, p.obs, w.hash(c.obs, c.view.mask, c.prev), e.obs, c.view.mask, c.done)));
  }

  lemma CandidateGoing(w: World, budget: int, dim: nat, p: Walk, a: int)
    requires p.fate == Going
    ensures !CandidateStep(w, budget, dim, p, a).fate.Blocked?
  {
  }

  /** The mutable state of a collection. */
  class Collection {
    const cfg: Config
    const env: Simulator
    var rows: seq<Row>
    var branchRecords: seq<Branch>
    var stateRecords: seq<StateRecord>
    var envStepsUsed: int
    var episodeCount: int
    var stateFailures: map<Failure, nat>
    var runtimeFailure: bool

    ghost function Contents(): Ledger
      reads this, env
    {
      Ledger(env.log, rows, branchRecords, stateRecords, envStepsUsed, episodeCount, stateFailures, runtimeFailure)
    }

    constructor (cfg: Config, env: Simulator)
      requires env.log == []
      ensures this.cfg == cfg && this.env == env && Contents() == Empty()
    {
      this.cfg := cfg;
      this.env := env;
      rows, branchRecords, stateRecords := [], [], [];
      envStepsUsed, episodeCount := 0, 0;
      stateFailures, runtimeFailure := map[], false;
    }

    method TryAll(index: nat, dim: nat, target: Target, id: int, plan: seq<Planned>)
      requires !runtimeFailure
      modifies this, env
      ensures Contents() == TryPlanned(env.world, cfg, old(Contents()), index, dim, target, id, plan)
    {
      hide TryCandidate;
      var i := 0;
      assert plan[0..] == plan;
      while i < |plan| && |rows| < cfg.maxTransitions && episodeCount < cfg.maxEpisodes && !runtimeFailure
        invariant 0 <= i <= |plan|
        invariant (if runtimeFailure then Contents()
                   else TryPlanned(env.world, cfg, Contents(), index, dim, target, id, plan[i..])) ==
                  TryPlanned(env.world, cfg, old(Contents()), index, dim, target, id, plan)
      {
        ghost var l := Contents();
        assert plan[i..][1..] == plan[i + 1..];
        episodeCount := episodeCount + 1;
        var t := CandidateTransition(env, cfg, dim, envStepsUsed, target, id, plan[i]);
        if t.row.Some? {
          envStepsUsed := t.walk.used;
          rows := rows + [t.row.value];
          branchRecords := branchRecords + [Branch(index, id, plan[i],
            Completed(t.walk.ret, t.walk.steps, TerminalReason(t.walk.done, t.walk.reason)))];
        } else if t.walk.fate.Blocked? {
          envStepsUsed := t.walk.used;
          branchRecords := branchRecords + [Branch(index, id, plan[i], Failed(t.walk.fate.failure))];
          stateFailures := Bump(stateFailures, t.walk.fate.failure);
        } else {
          runtimeFailure := true;
          branchRecords := branchRecords + [Branch(index, id, plan[i], Failed(Runtime))];
          stateFailures := Bump(stateFailures, Runtime);
        }
        assert Contents() == Book(l, index, id, plan[i], t);
        i := i + 1;
      }
    }

    method VisitTarget(index: nat, target: Target) returns (ok: bool)
      requires !runtimeFailure
      modifies this, env
      ensures (if ok then Finished(Contents()) else Aborted(Contents())) ==
              Visit(env.world, cfg, old(Contents()), index, target)
    {
      hide Replay, Plan, TryPlanned;
      var w := env.world;
      var p := ReplayPrefix(env, cfg.maxEnvSteps, envStepsUsed, target);
      if p.fate == Raised {
        return false;
      }
      var gate := Screen(w, cfg, index, target, p);
      match gate {
        case Abort =>
          return false;
        case Reject(f) =>
          envStepsUsed := p.used;
          stateFailures := Bump(stateFailures, f);
          stateRecords := stateRecords + [StateRecord(index, Skipped(f), None, [])];
        case Admit(plan) =>
          envStepsUsed := p.used;
          if plan == [] {
            stateFailures := Bump(stateFailures, NoLegalCandidates);
          } else {
            var id := w.hash(p.obs, p.view.mask, p.prev);
            stateRecords := stateRecords + [StateRecord(index, Collecting, Some(id), plan)];
            var rowStart := |rows|;
            TryAll(index, |p.view.mask|, target, id, plan);
            if stateRecords != [] {
              var last := stateRecords[|stateRecords| - 1];
              var status := if |rows| > rowStart then Accepted else NoAcceptedCandidates;
              stateRecords := stateRecords[|stateRecords| - 1 := last.(status := status)];
            }
          }
      }
      ok := true;
    }

    /** The whole collection. `ok` is false when an exception leaves the loop. */
    method Run(targets: seq<Target>) returns (ok: bool)
      requires Contents() == Empty()
      modifies this, env
      ensures (if ok then Finished(Contents()) else Aborted(Contents())) ==
              Collect(env.world, cfg, Empty(), targets, 0)
      ensures Sound(cfg, Contents()) && Settled(Contents())
    {
      hide Visit, Sound, Settled;
      var index := 0;
      while index < |targets| && |rows| < cfg.maxTransitions && episodeCount < cfg.maxEpisodes && !runtimeFailure
        invariant 0 <= index <= |targets|
        invariant (if runtimeFailure then Finished(Contents())
                   else Collect(env.world, cfg, Contents(), targets, index)) ==
                  Collect(env.world, cfg, Empty(), targets, 0)
      {
        ok := VisitTarget(index, targets[index]);
        if !ok {
          EveryRun(env.world, cfg, targets);
          return;
        }
        index := index + 1;
      }
      EveryRun(env.world, cfg, targets);
      ok := true;
    }

    /** The status of the run: PASS or FAIL. */
    method Status() returns (pass: bool)
      ensures pass == Passes(cfg, Contents())
    {
      var ids := {};
      for i := 0 to |rows|
        invariant ids == Elements(StateIds(rows)[..i])
      {
        ids := ids + {rows[i].stateId};
        assert StateIds(rows)[..i + 1] == StateIds(rows)[..i] + [rows[i].stateId];
      }
      assert StateIds(rows)[..|rows|] == StateIds(rows);
      pass := !runtimeFailure && |ids| >= cfg.maxStates && |rows| >= cfg.minTransitions;
    }
  }

  predicate ValidArguments(cfg: Config) {
    cfg.maxStates > 0 && cfg.minTransitions > 0 && cfg.maxTransitions >= cfg.minTransitions
  }

  /**
   The whole script up to its gate; None when an exception ends it. It passes exactly when the first
   max_states failed states were all accepted, under different hashes, with enough rows and no
   interrupted branch.
   */
  method CollectAndJudge(env: Simulator, cfg: Config, failed: seq<FailedEpisode>) returns (pass: Option<bool>)
    requires env.log == []
    modifies env
    ensures |AllTargets(failed)| == StepsBefore(failed, |failed|) && InOrder(failed, AllTargets(failed))
    ensures cfg.maxStates <= 0 || cfg.minTransitions <= 0 || cfg.maxTransitions < cfg.minTransitions ==> pass == None
    ensures StepsBefore(failed, |failed|) < cfg.maxStates ==> pass == None
    ensures cfg.maxStates > 0 && cfg.minTransitions > 0 && cfg.maxTransitions >= cfg.minTransitions &&
            StepsBefore(failed, |failed|) >= cfg.maxStates ==>
      var r := Collect(env.world, cfg, Empty(), AllTargets(failed)[..cfg.maxStates], 0);
      && env.log == r.ledger.log
      && (pass.Some? <==> r.Finished?)
      && (pass.Some? ==>
            (pass.value <==>
              && !r.ledger.runtimeFailure && Complete(r.ledger, cfg.maxStates)
              && |r.ledger.rows| >= cfg.minTransitions))
  {
    hide Collect, Sound, Settled, Passes, Complete;
    TargetsInOrder(failed);
    if !ValidArguments(cfg) {
      return None;
    }
    var targets := LoadFailedTargets(failed, cfg.maxStates);
    if targets.None? {
      return None;
    }
    var collection := new Collection(cfg, env);
    var finished := collection.Run(targets.value);
    PassCertificate(env.world, cfg, targets.value);
    if !finished {
      return None;
    }
    var status := collection.Status();
    pass := Some(status);
  }
}
