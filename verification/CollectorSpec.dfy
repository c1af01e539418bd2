/**
 What one run of the multi-action collector does, as functions on values.

 The simulator, the frozen policy and the hash are fields of a World. Each reply
 of the simulator may depend on the whole log of calls made so far, so a World
 ranges over every simulator: stateful, random or failing. A reply None stands
 for a raised exception.
 */
module CollectorSpec {
  import opened Basics

  type Mask = seq<bool>

  /** obs["action_mask"]: a one-dimensional array, or anything else. */
  datatype RawMask = Vector(bits: Mask) | OtherShape
  datatype Obs = Obs(content: int, rawMask: RawMask)
  /** A mask together with the information object that belongs to it. */
  datatype View = View(mask: Mask, info: int)
  datatype StepReply = StepReply(obs: Obs, reward: real, done: bool, nextInfo: int, reason: string)

  datatype Event =
    | ResetEvent(mission: int, start: Option<Obs>)
    | MaskEvent(asked: Obs, view: Option<View>)
    | StepEvent(before: Obs, shown: View, action: int, reply: Option<StepReply>)
  type Log = seq<Event>

  datatype Target = Target(mission: int, episode: int, step: int, recordedAction: int,
                           recordedPosition: int, prefixActions: seq<int>)

  datatype World = World(
    reset: (Log, int) -> Option<Obs>,
    mask: (Log, Obs) -> Option<View>,
    step: (Log, Obs, View, int) -> Option<StepReply>,
    hash: (Obs, Mask, int) -> int,
    policy: (Obs, Mask, int) -> nat,
    teacher: (int, Obs, Mask, int) -> Option<Option<int>>,
    neighbours: (int, Mask) -> Option<seq<int>>,
    shuffle: (int, nat) -> seq<nat>,
    positionError: (Obs, int) -> Option<real>)

  datatype Config = Config(maxStates: int, minTransitions: int, maxTransitions: int, maxEpisodes: int,
                           maxEnvSteps: int, maxSteps: int, randomCount: nat, seed: int,
                           maxPositionError: real)

  datatype Failure =
    | PrefixActionInvalid | PrefixTerminated | PositionMismatch | BcActionMismatch
    | NoLegalCandidates | StateHashMismatch | CandidateActionInvalid | Runtime

  // ----- Talking to the simulator

  function AskReset(w: World, log: Log, mission: int): (Log, Option<Obs>) {
    var reply := w.reset(log, mission);
    (log + [ResetEvent(mission, reply)], reply)
  }

  function AskMask(w: World, log: Log, obs: Obs): (Log, Option<View>) {
    var reply := w.mask(log, obs);
    (log + [MaskEvent(obs, reply)], reply)
  }

  function AskStep(w: World, log: Log, obs: Obs, view: View, action: int): (Log, Option<StepReply>) {
    var reply := w.step(log, obs, view, action);
    (log + [StepEvent(obs, view, action, reply)], reply)
  }

  /** mask[action] with Python's indexing: a negative index counts from the end. */
  function MaskAt(mask: Mask, action: int): Option<bool> {
    if 0 <= action < |mask| then Some(mask[action])
    else if -|mask| <= action < 0 then Some(mask[|mask| + action])
    else None
  }

  /** The greedy policy action; it raises when that action is not allowed by the mask. */
  function BcAction(w: World, obs: Obs, mask: Mask, prev: int): Option<int> {
    var action := w.policy(obs, mask, prev);
    if action < |mask| && mask[action] then Some(action) else None
  }

  // ----- Walking through one episode

  datatype Fate = Going | Raised | Blocked(failure: Failure)

  /** The local variables of one episode. `used` is the step counter handed around by the code. */
  datatype Walk = Walk(log: Log, used: int, fate: Fate, obs: Obs, view: View, prev: int,
                       ret: real, steps: nat, done: bool, reason: string)

  function Start(w: World, log: Log, used: int, mission: int): Walk {
    var blank := Walk(log, used, Raised, Obs(0, OtherShape), View([], 0), -1, 0.0, 0, false, "");
    var (log1, obs) := AskReset(w, log, mission);
    if obs.None? then blank.(log := log1) else
    var (log2, view) := AskMask(w, log1, obs.value);
    if view.None? then blank.(log := log2)
    else blank.(log := log2, fate := Going, obs := obs.value, view := view.value)
  }

  /** The local variables right after a successful step. */
  function Advance(s: Walk, log: Log, action: int, r: StepReply): Walk {
    s.(log := log, used := s.used + 1, ret := s.ret + r.reward, steps := s.steps + 1,
       obs := r.obs, prev := action, done := r.done, reason := r.reason)
  }

  function PrefixStep(w: World, budget: int, s: Walk, action: int): Walk {
    if s.used >= budget then s.(fate := Raised) else
    match MaskAt(s.view.mask, action)
    case None => s.(fate := Raised)
    case Some(false) => s.(fate := Blocked(PrefixActionInvalid))
    case Some(true) =>
      var (log1, reply) := AskStep(w, s.log, s.obs, s.view, action);
      if reply.None? then s.(log := log1, fate := Raised) else
      var r := reply.value;
      var s1 := Advance(s, log1, action, r);
      if r.done then s1.(fate := Blocked(PrefixTerminated)) else
      match r.obs.rawMask
      case Vector(bits) => s1.(view := View(bits, r.nextInfo))
      case OtherShape =>
        var (log2, view) := AskMask(w, log1, r.obs);
        if view.None? then s1.(log := log2, fate := Raised) else s1.(log := log2, view := view.value)
  }

  function Prefix(w: World, budget: int, s: Walk, actions: seq<int>): Walk
    decreases |actions|
  {
    if actions == [] || s.fate != Going then s
    else Prefix(w, budget, PrefixStep(w, budget, s, actions[0]), actions[1..])
  }

  function Replay(w: World, budget: int, log: Log, used: int, target: Target): Walk {
    Prefix(w, budget, Start(w, log, used, target.mission), target.prefixActions)
  }

  function NoActions(dim: nat): Mask {
    seq(dim, _ => false)
  }

  /** The candidate action itself. A failing mask query is swallowed here, unlike below. */
  function CandidateStep(w: World, budget: int, dim: nat, s: Walk, action: int): Walk {
    if s.used >= budget then s.(fate := Raised) else
    var (log1, reply) := AskStep(w, s.log, s.obs, s.view, action);
    if reply.None? then s.(log := log1, fate := Raised) else
    var r := reply.value;
    var s1 := Advance(s, log1, action, r);
    if r.obs.rawMask.Vector? && |r.obs.rawMask.bits| == dim then
      s1.(view := View(r.obs.rawMask.bits, r.nextInfo))
    else
      var (log2, view) := AskMask(w, log1, r.obs);
      s1.(log := log2, view := View(if view.Some? then view.value.mask else NoActions(dim), r.nextInfo))
  }

  function FollowStep(w: World, budget: int, dim: nat, s: Walk): (t: Walk)
    ensures t.fate == Raised || t.steps == s.steps + 1
  {
    if s.used >= budget then s.(fate := Raised) else
    var action := BcAction(w, s.obs, s.view.mask, s.prev);
    if action.None? then s.(fate := Raised) else
    var (log1, reply) := AskStep(w, s.log, s.obs, s.view, action.value);
    if reply.None? then s.(log := log1, fate := Raised) else
    var r := reply.value;
    var s1 := Advance(s, log1, action.value, r);
    if r.done then s1
    else if r.obs.rawMask.Vector? && |r.obs.rawMask.bits| == dim then
      s1.(view := View(r.obs.rawMask.bits, r.nextInfo))
    else
      var (log2, view) := AskMask(w, log1, r.obs);
      if view.None? then s1.(log := log2, fate := Raised) else s1.(log := log2, view := view.value)
  }

  predicate Stopped(maxSteps: int, s: Walk) {
    s.fate == Raised || s.done || s.steps >= maxSteps
  }

  /** The rest of the branch follows the frozen policy until done or out of steps. */
  function Follow(w: World, budget: int, maxSteps: int, dim: nat, s: Walk): Walk
    decreases if Stopped(maxSteps, s) then 0 else maxSteps - s.steps
  {
    if Stopped(maxSteps, s) then s
    else Follow(w, budget, maxSteps, dim, FollowStep(w, budget, dim, s))
  }

  // ----- One candidate branch

  datatype Source = BC | TEACHER | NEIGHBOR | RANDOM
  datatype Planned = Planned(source: Source, action: int)

  /** `obs` and `nextObs` are the observations that the state vectors are made of. */
  datatype Row = Row(stateId: int, mission: int, episode: int, step: int, planned: Planned, mask: Mask, reward: real,
                     obs: Obs, nextStateId: int, nextObs: Obs, nextMask: Mask, done: bool)

  datatype BranchStatus =
    | Completed(ret: real, steps: nat, reason: string)
    | Failed(failure: Failure)
  datatype Branch = Branch(stateIndex: nat, stateId: int, planned: Planned, status: BranchStatus)

  function TerminalReason(done: bool, reason: string): string {
    if !done then "timeout" else if reason == "" || reason == "unknown" then "terminal" else reason
  }

  /** How one candidate branch ended; `row` is what it adds to the data set, if anything. */
  datatype Trial = Trial(walk: Walk, row: Option<Row>)

  function TryCandidate(w: World, cfg: Config, dim: nat, log: Log, used: int, target: Target,
                        expected: int, planned: Planned): Trial
  {
    var p := Replay(w, cfg.maxEnvSteps, log, used, target);
    if p.fate != Going then Trial(p, None) else
    if w.hash(p.obs, p.view.mask, p.prev) != expected then
      Trial(p.(fate := Blocked(StateHashMismatch)), None)
    else
    match MaskAt(p.view.mask, planned.action)
    case None => Trial(p.(fate := Raised), None)
    case Some(false) => Trial(p.(fate := Blocked(CandidateActionInvalid)), None)
    case Some(true) =>
      var c := CandidateStep(w, cfg.maxEnvSteps, dim, p, planned.action);
      if c.fate == Raised then Trial(c, None) else
      var e := Follow(w, cfg.maxEnvSteps, cfg.maxSteps, dim, c);
      if e.fate == Raised then Trial(e, None) else
      Trial(e, Some(Row(expected, target.mission, target.episode, target.step, planned, p.view.mask,
                        c.ret - p.ret, p.obs, w.hash(c.obs, c.view.mask, c.prev), e.obs, c.view.mask, c.done)))
  }

  // ----- Planning the candidates of one state

  function Actions(plan: seq<Planned>): seq<int> {
    seq(|plan|, i requires 0 <= i < |plan| => plan[i].action)
  }

  function Add(mask: Mask, plan: seq<Planned>, source: Source, action: int): seq<Planned> {
    if action < 0 || action >= |mask| || !mask[action] || action in Actions(plan) then plan
    else plan + [Planned(source, action)]
  }

  function AddAll(mask: Mask, plan: seq<Planned>, source: Source, actions: seq<int>): seq<Planned>
    decreases |actions|
  {
    if actions == [] then plan
    else AddAll(mask, Add(mask, plan, source, actions[0]), source, actions[1..])
  }

  /** The allowed actions below n that are not yet planned, in ascending order. */
  function Available(mask: Mask, plan: seq<Planned>, n: nat): seq<int>
    requires n <= |mask|
  {
    if n == 0 then []
    else Available(mask, plan, n - 1) + (if mask[n - 1] && n - 1 !in Actions(plan) then [n - 1] else [])
  }

  /** rng.permutation(n): whatever the generator draws, it is a permutation of the positions below n. */
  function DrawOrder(w: World, seed: int, n: nat): (order: seq<nat>)
    ensures |order| == n && Distinct(order) && forall i :: 0 <= i < n ==> order[i] < n
  {
    var drawn := w.shuffle(seed, n);
    if |drawn| == n && Distinct(drawn) && (forall i :: 0 <= i < n ==> drawn[i] < n) then drawn
    else seq(n, i => i)
  }

  function Draw(w: World, seed: int, count: nat, available: seq<int>): seq<int> {
    var order := DrawOrder(w, seed, |available|);
    var taken := order[..if count < |order| then count else |order|];
    seq(|taken|, i requires 0 <= i < |taken| => available[taken[i]])
  }

  /** The plan before the random draws. */
  function Chosen(mask: Mask, bc: int, teacher: Option<int>, near: seq<int>): seq<Planned> {
    var plan := Add(mask, [], BC, bc);
    var plan := if teacher.Some? then Add(mask, plan, TEACHER, teacher.value) else plan;
    AddAll(mask, plan, NEIGHBOR, near)
  }

  function Plan(w: World, cfg: Config, index: nat, mask: Mask, bc: int, teacher: Option<int>,
                near: seq<int>): seq<Planned>
  {
    var plan := Chosen(mask, bc, teacher, near);
    AddAll(mask, plan, RANDOM,
           Draw(w, cfg.seed + index * 7919, cfg.randomCount, Available(mask, plan, |mask|)))
  }

  // ----- The collection loop

  datatype StateStatus = Skipped(failure: Failure) | Collecting | Accepted | NoAcceptedCandidates
  datatype StateRecord = StateRecord(index: nat, status: StateStatus, stateId: Option<int>, planned: seq<Planned>)

  datatype Ledger = Ledger(log: Log, rows: seq<Row>, branches: seq<Branch>, states: seq<StateRecord>,
                           used: int, episodes: int, failures: map<Failure, nat>, runtimeFailure: bool)

  function Tally(failures: map<Failure, nat>, f: Failure): nat {
    if f in failures then failures[f] else 0
  }

  function Bump(failures: map<Failure, nat>, f: Failure): map<Failure, nat> {
    failures[f := Tally(failures, f) + 1]
  }

  predicate LimitReached(cfg: Config, l: Ledger) {
    |l.rows| >= cfg.maxTransitions || l.episodes >= cfg.maxEpisodes
  }

  /** Book one trial. A raised exception loses the local step counter, as the code does. */
  function Book(l: Ledger, index: nat, id: int, planned: Planned, t: Trial): Ledger {
    var failure := if t.walk.fate.Blocked? then t.walk.fate.failure else Runtime;
    if t.row.Some? then
      l.(log := t.walk.log, used := t.walk.used, episodes := l.episodes + 1, rows := l.rows + [t.row.value],
         branches := l.branches + [Branch(index, id, planned, Completed(t.walk.ret, t.walk.steps,
                                          TerminalReason(t.walk.done, t.walk.reason)))])
    else
      l.(log := t.walk.log, used := if t.walk.fate.Blocked? then t.walk.used else l.used,
         episodes := l.episodes + 1,
         branches := l.branches + [Branch(index, id, planned, Failed(failure))],
         failures := Bump(l.failures, failure),
         runtimeFailure := !t.walk.fate.Blocked?)
  }

  function TryPlanned(w: World, cfg: Config, l: Ledger, index: nat, dim: nat, target: Target, id: int,
                      plan: seq<Planned>): Ledger
    decreases |plan|
  {
    if plan == [] || LimitReached(cfg, l) then l else
    var t := TryCandidate(w, cfg, dim, l.log, l.used, target, id, plan[0]);
    var l1 := Book(l, index, id, plan[0], t);
    if l1.runtimeFailure then l1 else TryPlanned(w, cfg, l1, index, dim, target, id, plan[1..])
  }

  function Skip(l: Ledger, index: nat, f: Failure): Ledger {
    l.(states := l.states + [StateRecord(index, Skipped(f), None, [])], failures := Bump(l.failures, f))
  }

  /** What the gate before planning decides about a replayed state. */
  datatype Screening = Abort | Reject(failure: Failure) | Admit(plan: seq<Planned>)

  function Screen(w: World, cfg: Config, index: nat, target: Target, p: Walk): Screening {
    if p.fate == Raised then Abort else
    if p.fate.Blocked? then Reject(p.fate.failure) else
    var error := w.positionError(p.obs, target.recordedPosition);
    if error.Some? && error.value > cfg.maxPositionError then Reject(PositionMismatch) else
    var bc := BcAction(w, p.obs, p.view.mask, p.prev);
    if bc.None? then Abort else
    if bc.value != target.recordedAction then Reject(BcActionMismatch) else
    var teacher := w.teacher(target.mission, p.obs, p.view.mask, p.prev);
    if teacher.None? then Abort else
    var near := w.neighbours(bc.value, p.view.mask);
    if near.None? then Abort else
    Admit(Plan(w, cfg, index, p.view.mask, bc.value, teacher.value, near.value))
  }

  datatype Run = Aborted(ledger: Ledger) | Finished(ledger: Ledger)

  function Visit(w: World, cfg: Config, l: Ledger, index: nat, target: Target): Run {
    var p := Replay(w, cfg.maxEnvSteps, l.log, l.used, target);
    var l1 := l.(log := p.log);
    match Screen(w, cfg, index, target, p)
    case Abort => Aborted(l1)
    case Reject(f) => Finished(Skip(l1.(used := p.used), index, f))
    case Admit(plan) =>
      var l2 := l1.(used := p.used);
      if plan == [] then Finished(l2.(failures := Bump(l2.failures, NoLegalCandidates))) else
      var id := w.hash(p.obs, p.view.mask, p.prev);
      Finished(Close(Attempt(w, cfg, l2, index, |p.view.mask|, target, id, plan), |l.rows|))
  }

  /** Open a state record and run its candidates. */
  function Attempt(w: World, cfg: Config, l: Ledger, index: nat, dim: nat, target: Target, id: int,
                   plan: seq<Planned>): Ledger
  {
    TryPlanned(w, cfg, l.(states := l.states + [StateRecord(index, Collecting, Some(id), plan)]),
               index, dim, target, id, plan)
  }

  /** Settle the status of the last state record. */
  function Close(l: Ledger, rowStart: nat): Ledger {
    if l.states == [] then l else
    var last := l.states[|l.states| - 1];
    var status := if |l.rows| > rowStart then Accepted else NoAcceptedCandidates;
    l.(states := l.states[|l.states| - 1 := last.(status := status)])
  }

  function Collect(w: World, cfg: Config, l: Ledger, targets: seq<Target>, index: nat): Run
    decreases |targets| - index
  {
    if index >= |targets| || LimitReached(cfg, l) then Finished(l) else
    var r := Visit(w, cfg, l, index, targets[index]);
    if r.Aborted? || r.ledger.runtimeFailure then r
    else Collect(w, cfg, r.ledger, targets, index + 1)
  }

  function Empty(): Ledger {
    Ledger([], [], [], [], 0, 0, map[], false)
  }

  function StateIds(rows: seq<Row>): seq<int> {
    seq(|rows|, i requires 0 <= i < |rows| => rows[i].stateId)
  }

  /** The final gate: how many different states were accepted, and enough transitions. */
  predicate Passes(cfg: Config, l: Ledger) {
    !l.runtimeFailure && |Elements(StateIds(l.rows))| >= cfg.maxStates && |l.rows| >= cfg.minTransitions
  }
}
