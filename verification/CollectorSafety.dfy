/**
 Safety of every run of the collector, against every simulator: the step budget,
 the legality of every command, and the agreement of the reported returns and
 step counts with the simulator's own log.
 */
module CollectorSafety {
  import opened Basics
  import opened CollectorSpec

  // ----- Reading the simulator's log

  /** How many environment steps were attempted, failed ones included. */
  function StepCount(log: Log): nat {
    if log == [] then 0
    else StepCount(log[..|log| - 1]) + (if log[|log| - 1].StepEvent? then 1 else 0)
  }

  /** A successful step: the observation and view it was sent with, and the reply. */
  datatype Tick = Tick(before: Obs, shown: View, action: int, reply: StepReply)

  /** The successful steps since the last reset. */
  function Episode(log: Log): seq<Tick> {
    if log == [] then [] else
    match log[|log| - 1]
    case ResetEvent(_, _) => []
    case MaskEvent(_, _) => Episode(log[..|log| - 1])
    case StepEvent(obs, view, a, reply) =>
      Episode(log[..|log| - 1]) + (if reply.None? then [] else [Tick(obs, view, a, reply.value)])
  }

  function TotalReward(ticks: seq<Tick>): real {
    if ticks == [] then 0.0 else TotalReward(ticks[..|ticks| - 1]) + ticks[|ticks| - 1].reply.reward
  }

  function TickActions(ticks: seq<Tick>): seq<int> {
    seq(|ticks|, i requires 0 <= i < |ticks| => ticks[i].action)
  }

  /** An observation and the view that belongs to it. */
  datatype Sight = Sight(obs: Obs, view: View)

  /** The observation that an event brought. */
  function Brought(e: Event): Option<Obs> {
    match e
    case ResetEvent(_, start) => start
    case StepEvent(_, _, _, reply) => if reply.None? then None else Some(reply.value.obs)
    case MaskEvent(_, _) => None
  }

  /**
   What the simulator last reported: the mask vector of the last observation with the information of
   its step, or the answer to the mask query that follows the last observation.
   */
  function Seen(log: Log): Option<Sight> {
    if log == [] then None else
    match log[|log| - 1]
    case ResetEvent(_, _) => None
    case StepEvent(_, _, _, reply) =>
      if reply.None? || reply.value.obs.rawMask.OtherShape? then None
      else Some(Sight(reply.value.obs, View(reply.value.obs.rawMask.bits, reply.value.nextInfo)))
    case MaskEvent(asked, view) =>
      if |log| < 2 || Brought(log[|log| - 2]) != Some(asked) || view.None? then None
      else Some(Sight(asked, view.value))
  }

  /** After a candidate step the answer goes with the information of the step, and a failure counts as no actions. */
  ghost predicate SeenAfterCandidate(log: Log, obs: Obs, view: View) {
    && |log| >= 2 && log[|log| - 1].MaskEvent? && log[|log| - 2].StepEvent? && Brought(log[|log| - 2]) == Some(obs)
    && log[|log| - 1].asked == obs
    && view.info == log[|log| - 2].reply.value.nextInfo
    && view.mask == if log[|log| - 1].view.Some? then log[|log| - 1].view.value.mask else NoActions(|view.mask|)
  }

  ghost predicate Offers(log: Log, obs: Obs, view: View) {
    Seen(log) == Some(Sight(obs, view)) || SeenAfterCandidate(log, obs, view)
  }

  /** Every step ever sent was sent with what the simulator had last reported, and allowed by that mask. */
  ghost predicate Legal(log: Log) {
    forall i :: 0 <= i < |log| && log[i].StepEvent? ==>
      Offers(log[..i], log[i].before, log[i].shown) && MaskAt(log[i].shown.mask, log[i].action) == Some(true)
  }

  /** The mission of the last reset. */
  function Mission(log: Log): Option<int> {
    if log == [] then None
    else if log[|log| - 1].ResetEvent? then Some(log[|log| - 1].mission)
    else Mission(log[..|log| - 1])
  }

  /** Only the last step of an episode may be terminal. */
  ghost predicate OneEnd(ticks: seq<Tick>) {
    forall i :: 0 <= i < |ticks| - 1 ==> !ticks[i].reply.done
  }

  predicate Ended(ticks: seq<Tick>) {
    ticks != [] && ticks[|ticks| - 1].reply.done
  }

  /** The previous action at step i of an episode, as the policy and the hash see it. */
  function Previous(ticks: seq<Tick>, i: nat): int
    requires i <= |ticks|
  {
    if i == 0 then -1 else ticks[i - 1].action
  }

  /** Every step is sent with the observation that the step before it brought. */
  ghost predicate Chained(ticks: seq<Tick>) {
    forall i :: 0 < i < |ticks| ==> ticks[i].before == ticks[i - 1].reply.obs
  }

  /** Every step after step n is the frozen policy's own action for what was observed then. */
  ghost predicate FollowsPolicy(w: World, ticks: seq<Tick>, n: nat) {
    forall i :: n < i < |ticks| ==>
      BcAction(w, ticks[i].before, ticks[i].shown.mask, Previous(ticks, i)) == Some(ticks[i].action)
  }

  lemma LegalEnd(log: Log, e: Event)
    requires Legal(log)
    requires e.StepEvent? ==> Offers(log, e.before, e.shown) && MaskAt(e.shown.mask, e.action) == Some(true)
    ensures Legal(log + [e])
  {
    hide Offers, MaskAt;
    var more := log + [e];
    forall i | 0 <= i < |more| && more[i].StepEvent?
      ensures Offers(more[..i], more[i].before, more[i].shown) && MaskAt(more[i].shown.mask, more[i].action) == Some(true)
    {
      assert more[..i] == log[..i] && (i < |log| ==> more[i] == log[i]);
      assert log[..|log|] == log;
    }
  }

  lemma {:induction false} LogEnd(log: Log, e: Event)
    ensures StepCount(log + [e]) == StepCount(log) + (if e.StepEvent? then 1 else 0)
    ensures Mission(log + [e]) == if e.ResetEvent? then Some(e.mission) else Mission(log)
    ensures e.ResetEvent? ==> Episode(log + [e]) == []
    ensures e.MaskEvent? ==> Episode(log + [e]) == Episode(log)
    ensures e.StepEvent? && e.reply.None? ==> Episode(log + [e]) == Episode(log)
    ensures e.StepEvent? && e.reply.Some? ==>
      Episode(log + [e]) == Episode(log) + [Tick(e.before, e.shown, e.action, e.reply.value)]
  {
    assert (log + [e])[..|log|] == log;
  }

  lemma {:induction false} TickEnd(ticks: seq<Tick>, t: Tick)
    ensures TotalReward(ticks + [t]) == TotalReward(ticks) + t.reply.reward
    ensures TickActions(ticks + [t]) == TickActions(ticks) + [t.action]
    ensures OneEnd(ticks) && !Ended(ticks) ==> OneEnd(ticks + [t])
    ensures Ended(ticks + [t]) == t.reply.done
  {
    assert (ticks + [t])[..|ticks|] == ticks;
  }

  lemma ChainEnd(ticks: seq<Tick>, t: Tick)
    requires Chained(ticks) && (ticks != [] ==> t.before == ticks[|ticks| - 1].reply.obs)
    ensures Chained(ticks + [t])
  {
  }

  lemma PolicyEnd(w: World, ticks: seq<Tick>, t: Tick, n: nat)
    requires FollowsPolicy(w, ticks, n)
    requires BcAction(w, t.before, t.shown.mask, Previous(ticks, |ticks|)) == Some(t.action)
    ensures FollowsPolicy(w, ticks + [t], n)
  {
    hide BcAction;
    var next := ticks + [t];
    forall i | n < i < |next|
      ensures BcAction(w, next[i].before, next[i].shown.mask, Previous(next, i)) == Some(next[i].action)
    {
      assert next[i - 1] == ticks[i - 1];
    }
  }

  // ----- The invariant of one episode

  /** The counter is exact until an exception loses it; the budget holds in any case. */
  ghost predicate Metered(budget: int, s: Walk) {
    && StepCount(s.log) <= Max(0, budget)
    && (s.fate != Raised ==> s.used == StepCount(s.log))
    && Legal(s.log)
    && s.fate != Blocked(Runtime) && s.fate != Blocked(NoLegalCandidates)
  }

  /** The running totals are those of the simulator's log. */
  ghost predicate Traced(s: Walk) {
    s.fate == Going ==>
      && s.ret == TotalReward(Episode(s.log))
      && s.steps == |Episode(s.log)|
      && OneEnd(Episode(s.log))
      && s.done == Ended(Episode(s.log))
      && Current(s, Episode(s.log))
  }

  /** The observation and the previous action are those of the last step. */
  ghost predicate Current(s: Walk, ticks: seq<Tick>) {
    && s.prev == Previous(ticks, |ticks|) && Chained(ticks)
    && (ticks != [] ==> s.obs == ticks[|ticks| - 1].reply.obs && s.reason == ticks[|ticks| - 1].reply.reason)
  }

  /** Before a step the walk knows what the simulator last reported. */
  ghost predicate Sees(s: Walk) {
    s.fate == Going && !s.done ==> Offers(s.log, s.obs, s.view)
  }

  /** A replayed state is exactly what the simulator last reported. */
  ghost predicate SeesPlainly(s: Walk) {
    s.fate == Going ==> Seen(s.log) == Some(Sight(s.obs, s.view))
  }

  lemma SeenVector(log: Log, e: Event)
    requires e.StepEvent? && e.reply.Some? && e.reply.value.obs.rawMask.Vector?
    ensures Seen(log + [e]) ==
            Some(Sight(e.reply.value.obs, View(e.reply.value.obs.rawMask.bits, e.reply.value.nextInfo)))
  {
  }

  lemma SeenAnswer(log: Log, e: Event, asked: Obs, view: Option<View>)
    requires Brought(e) == Some(asked)
    ensures view.Some? ==> Seen(log + [e] + [MaskEvent(asked, view)]) == Some(Sight(asked, view.value))
  {
    var more := log + [e] + [MaskEvent(asked, view)];
    assert more[|more| - 2] == e;
  }

  lemma SeenCandidate(log: Log, e: Event, asked: Obs, view: Option<View>, dim: nat)
    requires e.StepEvent? && Brought(e) == Some(asked)
    ensures SeenAfterCandidate(log + [e] + [MaskEvent(asked, view)], asked,
                               View(if view.Some? then view.value.mask else NoActions(dim), e.reply.value.nextInfo))
  {
    var more := log + [e] + [MaskEvent(asked, view)];
    assert more[|more| - 2] == e && more[|more| - 1] == MaskEvent(asked, view);
  }

  /** One step command, sent within the budget and legally. */
  lemma StepLogged(w: World, budget: int, s: Walk, a: int)
    requires Metered(budget, s) && Traced(s) && s.fate == Going && !s.done
    requires s.used < budget && MaskAt(s.view.mask, a) == Some(true) && Sees(s)
    ensures var (log, reply) := AskStep(w, s.log, s.obs, s.view, a);
            reply.None? ==> Metered(budget, s.(log := log, fate := Raised))
    ensures var (log, reply) := AskStep(w, s.log, s.obs, s.view, a);
            reply.Some? ==>
              var t := Advance(s, log, a, reply.value);
              && Metered(budget, t) && Traced(t) && Mission(t.log) == Mission(s.log)
              && Episode(t.log) == Episode(s.log) + [Tick(s.obs, s.view, a, reply.value)]
              && TickActions(Episode(t.log)) == TickActions(Episode(s.log)) + [a]
  {
    var (log, reply) := AskStep(w, s.log, s.obs, s.view, a);
    var e := StepEvent(s.obs, s.view, a, reply);
    LogEnd(s.log, e);
    LegalEnd(s.log, e);
    if reply.Some? {
      TickEnd(Episode(s.log), Tick(s.obs, s.view, a, reply.value));
      ChainEnd(Episode(s.log), Tick(s.obs, s.view, a, reply.value));
    }
  }

  lemma MaskLogged(w: World, budget: int, s: Walk, obs: Obs)
    requires Metered(budget, s) && Traced(s)
    ensures var t := s.(log := AskMask(w, s.log, obs).0);
            Metered(budget, t) && Traced(t) && Episode(t.log) == Episode(s.log) && Mission(t.log) == Mission(s.log)
  {
    var e := MaskEvent(obs, w.mask(s.log, obs));
    LogEnd(s.log, e);
    LegalEnd(s.log, e);
  }

  lemma {:induction false} StartSafe(w: World, budget: int, log: Log, used: int, mission: int)
    requires StepCount(log) <= Max(0, budget) && used == StepCount(log) && Legal(log)
    ensures Metered(budget, Start(w, log, used, mission)) && Traced(Start(w, log, used, mission))
    ensures !Start(w, log, used, mission).done && Start(w, log, used, mission).steps == 0
    ensures var s := Start(w, log, used, mission); SeesPlainly(s) && (s.fate == Going ==> Mission(s.log) == Some(mission))
  {
    hide Legal, StepCount, Episode, Max, Seen, Mission;
    var obs := w.reset(log, mission);
    var e := ResetEvent(mission, obs);
    LogEnd(log, e);
    LegalEnd(log, e);
    if obs.Some? {
      var s := Walk(log + [e], used, Going, obs.value, View([], 0), -1, 0.0, 0, false, "");
      assert Episode(s.log) == [];
      MaskLogged(w, budget, s, obs.value);
      SeenAnswer(log, e, obs.value, w.mask(s.log, obs.value));
    }
  }

  lemma PrefixStepSafe(w: World, budget: int, s: Walk, a: int)
    requires Metered(budget, s) && Traced(s) && SeesPlainly(s) && s.fate == Going && !s.done
    ensures var t := PrefixStep(w, budget, s, a);
            Metered(budget, t) && Traced(t) && SeesPlainly(t) && (t.fate == Going ==> !t.done && t.steps == s.steps + 1)
    ensures var t := PrefixStep(w, budget, s, a);
            t.fate == Going ==>
              TickActions(Episode(t.log)) == TickActions(Episode(s.log)) + [a] && Mission(t.log) == Mission(s.log)
  {
    hide Legal, StepCount, Episode, TotalReward, TickActions, OneEnd, Ended, Max, Mission, Seen;
    if s.used < budget && MaskAt(s.view.mask, a) == Some(true) {
      StepLogged(w, budget, s, a);
      var (log, reply) := AskStep(w, s.log, s.obs, s.view, a);
      if reply.Some? {
        MaskLogged(w, budget, Advance(s, log, a, reply.value), reply.value.obs);
        if reply.value.obs.rawMask.Vector? {
          SeenVector(s.log, StepEvent(s.obs, s.view, a, reply));
        }
        SeenAnswer(s.log, StepEvent(s.obs, s.view, a, reply), reply.value.obs, w.mask(log, reply.value.obs));
      }
    }
  }

  lemma {:induction false} PrefixSafe(w: World, budget: int, s: Walk, actions: seq<int>)
    requires Metered(budget, s) && Traced(s) && SeesPlainly(s) && !s.done
    ensures var t := Prefix(w, budget, s, actions);
            Metered(budget, t) && Traced(t) && SeesPlainly(t) && (t.fate == Going ==> !t.done)
    ensures var t := Prefix(w, budget, s, actions);
            t.fate == Going ==>
              TickActions(Episode(t.log)) == TickActions(Episode(s.log)) + actions && Mission(t.log) == Mission(s.log)
    decreases |actions|
  {
    hide SeesPlainly, Mission, PrefixStep, Episode, Metered, Current, OneEnd, Ended, TotalReward;
    if actions != [] && s.fate == Going {
      var s1 := PrefixStep(w, budget, s, actions[0]);
      PrefixStepSafe(w, budget, s, actions[0]);
      if s1.fate == Going {
        PrefixSafe(w, budget, s1, actions[1..]);
        assert [actions[0]] + actions[1..] == actions;
      }
    }
  }

  /** A replayed prefix commanded exactly the recorded actions and met no terminal step. */
  lemma {:induction false} ReplaySafe(w: World, budget: int, log: Log, used: int, target: Target)
    requires StepCount(log) <= Max(0, budget) && used == StepCount(log) && Legal(log)
    ensures var p := Replay(w, budget, log, used, target);
            Metered(budget, p) && Traced(p) && SeesPlainly(p) && (p.fate == Going ==> !p.done)
    ensures var p := Replay(w, budget, log, used, target);
            p.fate == Going ==>
              TickActions(Episode(p.log)) == target.prefixActions && Mission(p.log) == Some(target.mission)
  {
    StartSafe(w, budget, log, used, target.mission);
    var s := Start(w, log, used, target.mission);
    PrefixSafe(w, budget, s, target.prefixActions);
    assert s.fate == Going ==> TickActions(Episode(s.log)) == [];
  }

  lemma CandidateStepSafe(w: World, budget: int, dim: nat, s: Walk, a: int)
    requires Metered(budget, s) && Traced(s) && Sees(s) && s.fate == Going && !s.done
    requires MaskAt(s.view.mask, a) == Some(true)
    ensures var c := CandidateStep(w, budget, dim, s, a); Metered(budget, c) && Traced(c) && Sees(c) && !c.fate.Blocked?
    ensures var c := CandidateStep(w, budget, dim, s, a);
            c.fate == Going ==>
              var reply := w.step(s.log, s.obs, s.view, a);
              && reply.Some? && Episode(c.log) == Episode(s.log) + [Tick(s.obs, s.view, a, reply.value)]
              && TickActions(Episode(c.log)) == TickActions(Episode(s.log)) + [a]
              && c.steps == s.steps + 1 && c.ret - s.ret == reply.value.reward && Mission(c.log) == Mission(s.log)
  {
    hide Legal, StepCount, Episode, TotalReward, TickActions, OneEnd, Ended, Max, Mission, Seen, SeenAfterCandidate;
    if s.used < budget {
      StepLogged(w, budget, s, a);
      var (log, reply) := AskStep(w, s.log, s.obs, s.view, a);
      if reply.Some? {
        MaskLogged(w, budget, Advance(s, log, a, reply.value), reply.value.obs);
        if reply.value.obs.rawMask.Vector? {
          SeenVector(s.log, StepEvent(s.obs, s.view, a, reply));
        }
        SeenCandidate(s.log, StepEvent(s.obs, s.view, a, reply), reply.value.obs, w.mask(log, reply.value.obs), dim);
      }
    }
  }

  lemma FollowStepSafe(w: World, budget: int, dim: nat, s: Walk)
    requires Metered(budget, s) && Traced(s) && Sees(s) && s.fate == Going && !s.done
    ensures var t := FollowStep(w, budget, dim, s); Metered(budget, t) && Traced(t) && Sees(t) && !t.fate.Blocked?
    ensures var t := FollowStep(w, budget, dim, s);
            t.fate == Going ==>
              Episode(s.log) <= Episode(t.log) && Mission(t.log) == Mission(s.log) &&
              forall n: nat :: FollowsPolicy(w, Episode(s.log), n) ==> FollowsPolicy(w, Episode(t.log), n)
  {
    hide Legal, StepCount, Episode, TotalReward, TickActions, OneEnd, Ended, Max, Chained, FollowsPolicy, Mission;
    hide Seen, SeenAfterCandidate;
    var a := BcAction(w, s.obs, s.view.mask, s.prev);
    if s.used < budget && a.Some? {
      StepLogged(w, budget, s, a.value);
      var (log, reply) := AskStep(w, s.log, s.obs, s.view, a.value);
      if reply.Some? {
        forall n: nat | FollowsPolicy(w, Episode(s.log), n)
          ensures FollowsPolicy(w, Episode(s.log) + [Tick(s.obs, s.view, a.value, reply.value)], n)
        {
          PolicyEnd(w, Episode(s.log), Tick(s.obs, s.view, a.value, reply.value), n);
        }
        MaskLogged(w, budget, Advance(s, log, a.value, reply.value), reply.value.obs);
        if reply.value.obs.rawMask.Vector? {
          SeenVector(s.log, StepEvent(s.obs, s.view, a.value, reply));
        }
        SeenAnswer(s.log, StepEvent(s.obs, s.view, a.value, reply), reply.value.obs, w.mask(log, reply.value.obs));
      }
    }
  }

  lemma {:induction false} FollowSafe(w: World, budget: int, maxSteps: int, dim: nat, s: Walk)
    requires Metered(budget, s) && Traced(s) && Sees(s) && !s.fate.Blocked?
    ensures var e := Follow(w, budget, maxSteps, dim, s);
            Metered(budget, e) && Traced(e) && Stopped(maxSteps, e) && !e.fate.Blocked?
    ensures var e := Follow(w, budget, maxSteps, dim, s);
            e.fate == Going ==>
              && Episode(s.log) <= Episode(e.log) && e.steps <= Max(maxSteps, s.steps) && Mission(e.log) == Mission(s.log)
              && forall n: nat :: FollowsPolicy(w, Episode(s.log), n) ==> FollowsPolicy(w, Episode(e.log), n)
    decreases if Stopped(maxSteps, s) then 0 else maxSteps - s.steps
  {
    hide FollowStep, FollowsPolicy, Sees, Mission;
    if !Stopped(maxSteps, s) {
      var t := FollowStep(w, budget, dim, s);
      FollowStepSafe(w, budget, dim, s);
      FollowSafe(w, budget, maxSteps, dim, t);
    }
  }

  // ----- The log only grows

  lemma {:induction false} PrefixGrows(w: World, budget: int, s: Walk, actions: seq<int>)
    ensures s.log <= Prefix(w, budget, s, actions).log
    decreases |actions|
  {
    if actions != [] && s.fate == Going {
      PrefixGrows(w, budget, PrefixStep(w, budget, s, actions[0]), actions[1..]);
    }
  }

  lemma ReplayGrows(w: World, budget: int, log: Log, used: int, target: Target)
    ensures log <= Replay(w, budget, log, used, target).log
  {
    PrefixGrows(w, budget, Start(w, log, used, target.mission), target.prefixActions);
  }

  lemma {:induction false} FollowGrows(w: World, budget: int, maxSteps: int, dim: nat, s: Walk)
    ensures s.log <= Follow(w, budget, maxSteps, dim, s).log
    decreases if Stopped(maxSteps, s) then 0 else maxSteps - s.steps
  {
    if !Stopped(maxSteps, s) {
      FollowGrows(w, budget, maxSteps, dim, FollowStep(w, budget, dim, s));
    }
  }

  lemma TrialGrows(w: World, cfg: Config, dim: nat, log: Log, used: int, target: Target, id: int, planned: Planned)
    ensures log <= TryCandidate(w, cfg, dim, log, used, target, id, planned).walk.log
  {
    ReplayGrows(w, cfg.maxEnvSteps, log, used, target);
    var p := Replay(w, cfg.maxEnvSteps, log, used, target);
    var c := CandidateStep(w, cfg.maxEnvSteps, dim, p, planned.action);
    assert p.log <= c.log;
    FollowGrows(w, cfg.maxEnvSteps, cfg.maxSteps, dim, c);
  }

  // ----- What an accepted branch attests

  /** Step n is sent in the state of the given hash, and from then on the frozen policy decides. */
  ghost predicate Branches(w: World, ticks: seq<Tick>, n: nat, id: int) {
    && n < |ticks| && Chained(ticks)
    && w.hash(ticks[n].before, ticks[n].shown.mask, Previous(ticks, n)) == id
    && FollowsPolicy(w, ticks, n)
  }

  predicate WellShaped(o: Obs, dim: nat) {
    o.rawMask.Vector? && |o.rawMask.bits| == dim
  }

  /** The step at position k of the log brought the mask: with its observation, or as the answer to the query after it. */
  ghost predicate Brings(log: Log, k: nat, dim: nat, mask: Mask)
    requires k < |log| && log[k].StepEvent? && log[k].reply.Some?
  {
    var obs := log[k].reply.value.obs;
    if WellShaped(obs, dim) then mask == obs.rawMask.bits
    else
      && k + 1 < |log| && log[k + 1].MaskEvent? && log[k + 1].asked == obs
      && mask == if log[k + 1].view.Some? then log[k + 1].view.value.mask else NoActions(dim)
  }

  /** Position k of the log is step n of its last episode. */
  ghost predicate IsStep(log: Log, ticks: seq<Tick>, k: nat, n: nat) {
    && k < |log| && n < |ticks|
    && log[k] == StepEvent(ticks[n].before, ticks[n].shown, ticks[n].action, Some(ticks[n].reply))
    && Episode(log[..k + 1]) == ticks[..n + 1]
  }

  /**
   The row's states: step n left from the first; the id and the mask of the next one are those of its
   reply, but the observation stored with them is the one that the last step of the branch brought.
   */
  ghost predicate StatesShown(w: World, dim: nat, log: Log, ticks: seq<Tick>, n: nat, r: Row) {
    && n < |ticks|
    && r.obs == ticks[n].before && r.mask == ticks[n].shown.mask
    && (exists k: nat :: IsStep(log, ticks, k, n) && Brings(log, k, dim, r.nextMask))
    && r.nextStateId == w.hash(ticks[n].reply.obs, r.nextMask, ticks[n].action)
    && r.nextObs == ticks[|ticks| - 1].reply.obs
  }

  /** A row and the last episode of a log agree. */
  ghost predicate RowShown(w: World, cfg: Config, dim: nat, target: Target, log: Log, r: Row) {
    var ticks := Episode(log);
    var n := |target.prefixActions|;
    && Mission(log) == Some(target.mission)
    && r.mission == target.mission && r.episode == target.episode && r.step == target.step
    && target.prefixActions + [r.planned.action] <= TickActions(ticks)
    && Branches(w, ticks, n, r.stateId)
    && MaskAt(r.mask, r.planned.action) == Some(true)
    && StatesShown(w, dim, log, ticks, n, r)
    && r.reward == ticks[n].reply.reward
    && r.done == ticks[n].reply.done
    && (|ticks| == n + 1 <==> r.done || n + 1 >= cfg.maxSteps)
  }

  /** What an accepted branch claims about itself is what the simulator's log shows. */
  ghost predicate Attested(w: World, cfg: Config, dim: nat, target: Target, id: int, planned: Planned, t: Trial)
    requires t.row.Some?
  {
    var ticks := Episode(t.walk.log);
    && t.walk.ret == TotalReward(ticks)
    && t.walk.steps == |ticks|
    && OneEnd(ticks)
    && t.walk.done == Ended(ticks)
    && ticks != [] && t.walk.reason == ticks[|ticks| - 1].reply.reason
    && (t.walk.done || t.walk.steps >= cfg.maxSteps)
    && t.walk.steps <= Max(cfg.maxSteps, |target.prefixActions| + 1)
    && t.row.value.stateId == id && t.row.value.planned == planned
    && RowShown(w, cfg, dim, target, t.walk.log, t.row.value)
  }

  lemma BranchesHere(w: World, s: Walk, start: seq<Tick>, ticks: seq<Tick>, id: int)
    requires Current(s, start) && Chained(ticks) && start <= ticks && |ticks| == |start| + 1
    requires ticks[|start|].before == s.obs && ticks[|start|].shown == s.view
    requires w.hash(s.obs, s.view.mask, s.prev) == id
    ensures Branches(w, ticks, |start|, id)
  {
  }

  lemma BranchesLater(w: World, ticks: seq<Tick>, more: seq<Tick>, n: nat, id: int)
    requires Branches(w, ticks, n, id) && ticks <= more && Chained(more)
    requires FollowsPolicy(w, ticks, n) ==> FollowsPolicy(w, more, n)
    ensures Branches(w, more, n, id)
  {
    hide FollowsPolicy;
    assert more[n] == ticks[n] && (n > 0 ==> more[n - 1] == ticks[n - 1]);
  }

  /** The candidate step in the log of the branch. */
  lemma CandidateShown(w: World, budget: int, dim: nat, p: Walk, a: int, log: Log)
    requires var c := CandidateStep(w, budget, dim, p, a); c.fate == Going && c.log <= log
    requires p.fate == Going
    ensures var c := CandidateStep(w, budget, dim, p, a);
            && |p.log| < |log| && log[|p.log|].StepEvent? && log[|p.log|].reply.Some?
            && log[|p.log|] == StepEvent(p.obs, p.view, a, w.step(p.log, p.obs, p.view, a))
            && log[..|p.log| + 1] == p.log + [log[|p.log|]]
            && Brings(log, |p.log|, dim, c.view.mask)
            && c.obs == log[|p.log|].reply.value.obs && c.prev == a && c.done == log[|p.log|].reply.value.done
  {
    var c, e := CandidateStep(w, budget, dim, p, a), StepEvent(p.obs, p.view, a, w.step(p.log, p.obs, p.view, a));
    assert p.log + [e] <= c.log;
    assert c.log[|p.log|] == e && log[|p.log|] == e;
    assert log[..|p.log| + 1] == c.log[..|p.log| + 1];
    assert |c.log| > |p.log| + 1 ==> log[|p.log| + 1] == c.log[|p.log| + 1];
  }

  /** A continuation that is not stopped at once, and raises nothing, takes at least one step. */
  lemma {:induction false} FollowMoves(w: World, budget: int, maxSteps: int, dim: nat, s: Walk)
    requires Metered(budget, s) && Traced(s) && Sees(s) && s.fate == Going
    ensures var e := Follow(w, budget, maxSteps, dim, s);
            e.fate == Going ==> (e.steps == s.steps <==> s.done || s.steps >= maxSteps)
    ensures var e := Follow(w, budget, maxSteps, dim, s);
            e.fate == Going && s.steps > 0 ==> Episode(e.log) != [] && e.obs == Episode(e.log)[|Episode(e.log)| - 1].reply.obs
  {
    hide FollowStep, FollowsPolicy, Chained, Episode, TotalReward, OneEnd, Ended, Legal, StepCount, Max, Sees;
    FollowSafe(w, budget, maxSteps, dim, s);
    if !Stopped(maxSteps, s) {
      var t := FollowStep(w, budget, dim, s);
      FollowStepSafe(w, budget, dim, s);
      FollowSafe(w, budget, maxSteps, dim, t);
    }
  }

  lemma TickPrefix(ticks: seq<Tick>, more: seq<Tick>)
    requires ticks <= more
    ensures TickActions(ticks) <= TickActions(more)
  {
  }

  lemma TickCount(ticks: seq<Tick>)
    ensures |TickActions(ticks)| == |ticks|
  {
  }

  lemma TracedSteps(s: Walk)
    requires Traced(s) && s.fate == Going
    ensures s.steps == |Episode(s.log)|
  {
  }

  lemma {:induction false} TrialStates(w: World, cfg: Config, dim: nat, p: Walk, a: int, r: Row)
    requires var budget := cfg.maxEnvSteps;
             var c := CandidateStep(w, budget, dim, p, a);
             var e := Follow(w, budget, cfg.maxSteps, dim, c);
             && Metered(budget, p) && Traced(p) && Sees(p) && p.fate == Going && !p.done && MaskAt(p.view.mask, a) == Some(true)
             && c.fate == Going && e.fate == Going
             && r.obs == p.obs && r.mask == p.view.mask && r.nextMask == c.view.mask
             && r.nextStateId == w.hash(c.obs, c.view.mask, c.prev) && r.nextObs == e.obs
    ensures var c := CandidateStep(w, cfg.maxEnvSteps, dim, p, a);
            var e := Follow(w, cfg.maxEnvSteps, cfg.maxSteps, dim, c);
            && StatesShown(w, dim, e.log, Episode(e.log), p.steps, r)
            && (e.steps == p.steps + 1 <==> c.done || p.steps + 1 >= cfg.maxSteps)
  {
    hide *;
    var c := CandidateStep(w, cfg.maxEnvSteps, dim, p, a);
    var e := Follow(w, cfg.maxEnvSteps, cfg.maxSteps, dim, c);
    CandidateStepSafe(w, cfg.maxEnvSteps, dim, p, a);
    FollowSafe(w, cfg.maxEnvSteps, cfg.maxSteps, dim, c);
    FollowMoves(w, cfg.maxEnvSteps, cfg.maxSteps, dim, c);
    FollowGrows(w, cfg.maxEnvSteps, cfg.maxSteps, dim, c);
    CandidateShown(w, cfg.maxEnvSteps, dim, p, a, e.log);
    LogEnd(p.log, e.log[|p.log|]);
    TracedSteps(p);
    StatesFrom(w, dim, e.log, Episode(p.log), Episode(e.log), |p.log|, r);
  }

  lemma StatesFrom(w: World, dim: nat, log: Log, before: seq<Tick>, ticks: seq<Tick>, k: nat, r: Row)
    requires k < |log| && log[k].StepEvent? && log[k].reply.Some?
    requires Episode(log[..k + 1]) == before + [Tick(log[k].before, log[k].shown, log[k].action, log[k].reply.value)] <= ticks
    requires r.obs == log[k].before && r.mask == log[k].shown.mask && Brings(log, k, dim, r.nextMask)
    requires r.nextStateId == w.hash(log[k].reply.value.obs, r.nextMask, log[k].action)
    requires r.nextObs == ticks[|ticks| - 1].reply.obs
    ensures StatesShown(w, dim, log, ticks, |before|, r)
  {
    hide Episode, Brings;
    assert IsStep(log, ticks, k, |before|);
  }

  lemma {:induction false} TrialSafe(w: World, cfg: Config, dim: nat, log: Log, used: int, target: Target,
      id: int, planned: Planned)
    requires StepCount(log) <= Max(0, cfg.maxEnvSteps) && used == StepCount(log) && Legal(log)
    ensures var t := TryCandidate(w, cfg, dim, log, used, target, id, planned);
            Metered(cfg.maxEnvSteps, t.walk) && (t.row.Some? <==> t.walk.fate == Going)
    ensures var t := TryCandidate(w, cfg, dim, log, used, target, id, planned);
            t.row.Some? ==> Attested(w, cfg, dim, target, id, planned, t)
  {
    hide Replay, CandidateStep, Follow, Legal, StepCount, Episode, TotalReward, TickActions, OneEnd;
    hide Branches, Chained, FollowsPolicy, StatesShown, Seen, SeenAfterCandidate, Mission;
    ReplaySafe(w, cfg.maxEnvSteps, log, used, target);
    var p := Replay(w, cfg.maxEnvSteps, log, used, target);
    if p.fate == Going && w.hash(p.obs, p.view.mask, p.prev) == id &&
       MaskAt(p.view.mask, planned.action) == Some(true) {
      CandidateStepSafe(w, cfg.maxEnvSteps, dim, p, planned.action);
      var c := CandidateStep(w, cfg.maxEnvSteps, dim, p, planned.action);
      if c.fate == Going {
        FollowSafe(w, cfg.maxEnvSteps, cfg.maxSteps, dim, c);
        var e := Follow(w, cfg.maxEnvSteps, cfg.maxSteps, dim, c);
        if e.fate == Going {
          TickPrefix(Episode(c.log), Episode(e.log));
          TickCount(Episode(p.log));
          BranchesHere(w, p, Episode(p.log), Episode(c.log), id);
          BranchesLater(w, Episode(c.log), Episode(e.log), |target.prefixActions|, id);
          TrialStates(w, cfg, dim, p, planned.action,
                      TryCandidate(w, cfg, dim, log, used, target, id, planned).row.value);
        }
      }
    }
  }
}
