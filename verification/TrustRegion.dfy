/**
 The two transactional actor updates of the learner, the metrics that are journalled with them,
 and what follows for the scripts that replay a trainer's journal with one or the other.
 */
module TrustRegion {
  import opened Basics
  import opened Reals
  import opened Replay
  import opened Capture
  import opened CaptureLaws
  import JournalFile

  const FACTORS: seq<real> := [1.0, 0.5, 0.25, 0.125, 0.0625, 0.03125, 0.015625]

  // ----- Metrics

  /** A metric either transaction may report, one of the trust region only, or a residual statistic. */
  datatype Key = Shared(name: string) | Backtracking(name: string) | Residual(name: string)

  /** A flag counts as the number 0 or 1, as it does for the comparison. */
  datatype Value = Number(x: real) | Text(text: string)

  type Metrics = map<Key, Value>

  const ACCEPTED := Shared("accepted")
  const ENABLED := Backtracking("trust_region_enabled")
  const ARCHITECTURE := Residual("architecture")

  datatype Tolerance = Tolerance(relative: real, absolute: real)

  predicate IsClose(t: Tolerance, expected: real, actual: real) {
    Abs(expected - actual) <= t.absolute + t.relative * Abs(actual)
  }

  /** The keys that the comparison reports: missing ones, and numbers that are not close. */
  function Mismatches(t: Tolerance, expected: Metrics, actual: Metrics): set<Key> {
    set k | k in expected &&
            (k !in actual || (expected[k].Number? && actual[k].Number? && !IsClose(t, expected[k].x, actual[k].x)))
  }

  predicate Valid(t: Tolerance) {
    t.relative >= 0.0 && t.absolute >= 0.0
  }

  // ----- The learner

  datatype Counts = Counts(criticUpdates: nat, proposals: nat, rejections: nat, updates: nat, recoveries: nat)

  /** The networks and optimizers, and the counters that the fingerprint covers too. */
  datatype Agent<P> = Agent(parts: P, counts: Counts)

  /**
   The numerical parts, uninterpreted. `step` is the optimizer step with the gradient of a batch at
   a fraction of the learning rate; `finite` says that loss and gradient are; the two gates look at
   the KL to the reference and at the entropy, over the batch or over the frozen sentinel states.
   */
  datatype Learner<!P> = Learner(
    critic: (P, seq<int>) -> Option<(P, Metrics)>,
    finite: (P, seq<int>) -> bool,
    step: (P, seq<int>, real) -> P,
    batchKl: (P, seq<int>) -> real,
    batchThin: (P, seq<int>) -> bool,
    sentinelKl: P -> real,
    sentinelThin: P -> bool,
    hardStop: real,
    architecture: string,
    plainReported: (Agent<P>, seq<int>) -> Metrics,
    trustReported: (Agent<P>, seq<int>) -> Metrics,
    residual: (P, seq<int>) -> Option<Metrics>)

  function CriticUpdate<P>(l: Learner<P>, a: Agent<P>, batch: seq<int>): Option<(Agent<P>, Metrics)> {
    var done := l.critic(a.parts, batch);
    if done.None? then None
    else Some((Agent(done.value.0, a.counts.(criticUpdates := a.counts.criticUpdates + 1)), done.value.1))
  }

  function Proposed(c: Counts): Counts {
    c.(proposals := c.proposals + 1)
  }

  function RejectedAgent<P>(a: Agent<P>): Agent<P> {
    a.(counts := Proposed(a.counts).(rejections := a.counts.rejections + 1))
  }

  function AcceptedAgent<P>(a: Agent<P>, parts: P, factor: real): Agent<P> {
    Agent(parts, Proposed(a.counts).(updates := a.counts.updates + 1,
                                     recoveries := a.counts.recoveries + if factor != 1.0 then 1 else 0))
  }

  /** The decision of a transaction: the accepted factor, or none. The outer None is a raised exception. */
  type Decision = Option<Option<real>>

  /** Without trust region: gate on the batch before and after one full step. */
  function PlainDecision<P>(l: Learner<P>, parts: P, batch: seq<int>): Decision {
    if !l.finite(parts, batch) then None
    else if l.batchKl(parts, batch) >= l.hardStop then Some(None)
    else
      var b := l.step(parts, batch, 1.0);
      if l.batchKl(b, batch) >= l.hardStop || l.batchThin(b, batch) then Some(None) else Some(Some(1.0))
  }

  predicate SafeFactor<P>(l: Learner<P>, parts: P, batch: seq<int>, k: nat)
    requires k < |FACTORS|
  {
    var b := l.step(parts, batch, FACTORS[k]);
    l.sentinelKl(b) < l.hardStop && !l.sentinelThin(b)
  }

  lemma FirstSafeFrom<P>(l: Learner<P>, parts: P, batch: seq<int>, k: nat)
    requires k <= |FACTORS|
    ensures FirstSafe(l, parts, batch, k) ==
            if k == |FACTORS| || SafeFactor(l, parts, batch, k) then k else FirstSafe(l, parts, batch, k + 1)
  {
  }

  lemma SafeMeans<P>(l: Learner<P>, parts: P, batch: seq<int>, k: nat)
    requires k < |FACTORS|
    ensures SafeFactor(l, parts, batch, k) <==>
            l.sentinelKl(l.step(parts, batch, FACTORS[k])) < l.hardStop && !l.sentinelThin(l.step(parts, batch, FACTORS[k]))
  {
  }

  /** The first safe factor from k on, or their number. */
  function FirstSafe<P>(l: Learner<P>, parts: P, batch: seq<int>, k: nat): (n: nat)
    requires k <= |FACTORS|
    ensures k <= n <= |FACTORS| && (n < |FACTORS| ==> SafeFactor(l, parts, batch, n))
    ensures forall j :: k <= j < n ==> !SafeFactor(l, parts, batch, j)
    decreases |FACTORS| - k
  {
    if k == |FACTORS| || SafeFactor(l, parts, batch, k) then k else FirstSafe(l, parts, batch, k + 1)
  }

  /** With trust region: gate on the sentinel before, and after each step from the same start, at falling rates. */
  function TrustDecision<P>(l: Learner<P>, parts: P, batch: seq<int>): Decision {
    if l.sentinelKl(parts) >= l.hardStop then Some(None)
    else if !l.finite(parts, batch) then None
    else
      var k := FirstSafe(l, parts, batch, 0);
      if k == |FACTORS| then Some(None) else Some(Some(FACTORS[k]))
  }

  function Committed<P>(l: Learner<P>, a: Agent<P>, batch: seq<int>, factor: Option<real>): Agent<P> {
    if factor.None? then RejectedAgent(a) else AcceptedAgent(a, l.step(a.parts, batch, factor.value), factor.value)
  }

  function Flag(b: bool): Value {
    Number(if b then 1.0 else 0.0)
  }

  /** Neither trust-region keys nor residual statistics. */
  function PlainMetrics<P>(l: Learner<P>, a: Agent<P>, batch: seq<int>, accepted: bool): Metrics {
    (map k | k in l.plainReported(a, batch) && k.Shared? :: l.plainReported(a, batch)[k])[ACCEPTED := Flag(accepted)]
  }

  function TrustMetrics<P>(l: Learner<P>, a: Agent<P>, batch: seq<int>, accepted: bool): Metrics {
    l.trustReported(a, batch)[ACCEPTED := Flag(accepted)][ENABLED := Flag(true)]
  }

  function PlainUpdate<P>(l: Learner<P>, a: Agent<P>, batch: seq<int>): Option<(Agent<P>, Metrics)> {
    var d := PlainDecision(l, a.parts, batch);
    if d.None? then None else Some((Committed(l, a, batch, d.value), PlainMetrics(l, a, batch, d.value.Some?)))
  }

  function ResidualOnly(m: Metrics): Metrics {
    map k | k in m && k.Residual? :: m[k]
  }

  /** The trust-region update, and the residual statistics of the resulting actor added to its metrics. */
  function TrustUpdate<P>(l: Learner<P>, a: Agent<P>, batch: seq<int>): Option<(Agent<P>, Metrics)> {
    var d := TrustDecision(l, a.parts, batch);
    if d.None? then None else
    var after := Committed(l, a, batch, d.value);
    var residual := l.residual(after.parts, batch);
    if residual.None? then None
    else
      Some((after, TrustMetrics(l, a, batch, d.value.Some?) +
                   ResidualOnly(residual.value)[ARCHITECTURE := Text(l.architecture)]))
  }

  // ----- What the decisions mean

  /** The learning-rate factor after k halvings. */
  function Halved(k: nat): real {
    if k == 0 then 1.0 else Halved(k - 1) / 2.0
  }

  /** The sentinel states allow the parts that a step at the k-th factor leads to. */
  predicate Safe<P>(l: Learner<P>, parts: P, batch: seq<int>, k: nat) {
    var b := l.step(parts, batch, Halved(k));
    l.sentinelKl(b) < l.hardStop && !l.sentinelThin(b)
  }

  /** Accepted at the k-th of the seven factors: all larger ones lead to unsafe parts. */
  ghost predicate AcceptedAt<P>(l: Learner<P>, parts: P, batch: seq<int>, k: nat) {
    && k < 7 && Safe(l, parts, batch, k)
    && forall j: nat :: j < k ==> !Safe(l, parts, batch, j)
  }

  lemma SevenFactors()
    ensures |FACTORS| == 7 && forall k: nat :: k < 7 ==> FACTORS[k] == Halved(k)
  {
    assert Halved(0) == 1.0 && Halved(1) == 0.5 && Halved(2) == 0.25;
    assert Halved(3) == 0.125 && Halved(4) == 0.0625;
    assert Halved(5) == 0.03125 && Halved(6) == 0.015625;
  }

  /** The decision of the trust region: an exception, no safe factor, or the largest safe one. */
  lemma TrustMeans<P>(l: Learner<P>, parts: P, batch: seq<int>)
    ensures var d := TrustDecision(l, parts, batch);
            && (d.None? <==> l.sentinelKl(parts) < l.hardStop && !l.finite(parts, batch))
            && (d == Some(None) <==>
                  || l.sentinelKl(parts) >= l.hardStop
                  || (l.finite(parts, batch) && forall k: nat :: k < 7 ==> !Safe(l, parts, batch, k)))
            && (d.Some? && d.value.Some? ==>
                  exists k: nat :: AcceptedAt(l, parts, batch, k) && d.value.value == Halved(k))
  {
    SevenFactors();
    if l.sentinelKl(parts) < l.hardStop && l.finite(parts, batch) {
      var n := FirstSafe(l, parts, batch, 0);
      forall k: nat | k < 7 ensures SafeFactor(l, parts, batch, k) <==> Safe(l, parts, batch, k) {
      }
      hide FirstSafe, SafeFactor, Halved, Safe;
      forall k: nat | k < n ensures !Safe(l, parts, batch, k) {
        assert !SafeFactor(l, parts, batch, k);
      }
      if n < 7 {
        assert SafeFactor(l, parts, batch, n);
        assert AcceptedAt(l, parts, batch, n);
      }
    }
  }

  // ----- The transactions on a learner that is changed in place

  class LearnerCell<P> {
    const l: Learner<P>
    var parts: P
    var counts: Counts

    constructor (l: Learner<P>, a: Agent<P>)
      ensures this.l == l && Contents() == a
    {
      this.l := l;
      parts, counts := a.parts, a.counts;
    }

    ghost function Contents(): Agent<P>
      reads this
    {
      Agent(parts, counts)
    }

    /** One critic update; only its own counter moves. */
    method UpdateCritic(batch: seq<int>) returns (metrics: Option<Metrics>)
      modifies this
      ensures var u := CriticUpdate(l, old(Contents()), batch);
              && (metrics.Some? <==> u.Some?)
              && (u.Some? ==> metrics.value == u.value.1 && Contents() == u.value.0)
      ensures var done := l.critic(old(parts), batch);
              && (metrics.Some? <==> done.Some?)
              && parts == (if done.Some? then done.value.0 else old(parts))
              && (done.Some? ==> metrics.value == done.value.1)
              && counts.criticUpdates == old(counts.criticUpdates) + if done.Some? then 1 else 0
      ensures counts == old(counts).(criticUpdates := counts.criticUpdates)
    {
      var done := l.critic(parts, batch);
      if done.None? {
        return None;
      }
      parts := done.value.0;
      counts := counts.(criticUpdates := counts.criticUpdates + 1);
      metrics := Some(done.value.1);
    }

    /** One proposal without trust region; a rejected one leaves networks and optimizers as they were. */
    method UpdateActor(batch: seq<int>) returns (decision: Decision)
      modifies this
      ensures decision == PlainDecision(l, old(parts), batch)
      ensures decision.Some? ==> Contents() == Committed(l, old(Contents()), batch, decision.value)
      ensures decision.None? <==> !l.finite(old(parts), batch)
      ensures decision.Some? ==> decision.value.None? || decision.value == Some(1.0)
      ensures decision.Some? ==>
        (decision.value.Some? <==>
          var b := l.step(old(parts), batch, 1.0);
          && l.batchKl(old(parts), batch) < l.hardStop
          && l.batchKl(b, batch) < l.hardStop && !l.batchThin(b, batch))
      ensures decision == Some(Some(1.0)) ==> parts == l.step(old(parts), batch, 1.0)
      ensures decision != Some(Some(1.0)) ==> parts == old(parts)
      ensures counts.proposals == old(counts.proposals) + 1
      ensures counts.updates == old(counts.updates) + if decision.Some? && decision.value.Some? then 1 else 0
      ensures counts.rejections == old(counts.rejections) + if decision == Some(None) then 1 else 0
      ensures counts.criticUpdates == old(counts.criticUpdates) && counts.recoveries == old(counts.recoveries)
    {
      var before := parts;
      counts := counts.(proposals := counts.proposals + 1);
      if !l.finite(parts, batch) {
        return None;
      }
      if l.batchKl(parts, batch) >= l.hardStop {
        counts := counts.(rejections := counts.rejections + 1);
        return Some(None);
      }
      parts := l.step(parts, batch, 1.0);
      if l.batchKl(parts, batch) >= l.hardStop || l.batchThin(parts, batch) {
        parts := before;
        counts := counts.(rejections := counts.rejections + 1);
        return Some(None);
      }
      counts := counts.(updates := counts.updates + 1);
      decision := Some(Some(1.0));
    }

    /** One proposal with backtracking: every factor starts from the restored state. */
    method UpdateActorTrust(batch: seq<int>) returns (decision: Decision)
      modifies this
      ensures decision == TrustDecision(l, old(parts), batch)
      ensures decision.Some? ==> Contents() == Committed(l, old(Contents()), batch, decision.value)
      ensures decision.None? <==> l.sentinelKl(old(parts)) < l.hardStop && !l.finite(old(parts), batch)
      ensures decision == Some(None) <==>
        || l.sentinelKl(old(parts)) >= l.hardStop
        || (l.finite(old(parts), batch) && forall k: nat :: k < 7 ==> !Safe(l, old(parts), batch, k))
      ensures decision.Some? && decision.value.Some? ==>
        && parts == l.step(old(parts), batch, decision.value.value)
        && exists k: nat :: AcceptedAt(l, old(parts), batch, k) && decision.value.value == Halved(k)
      ensures !(decision.Some? && decision.value.Some?) ==> parts == old(parts)
      ensures counts.proposals == old(counts.proposals) + 1
      ensures counts.updates == old(counts.updates) + if decision.Some? && decision.value.Some? then 1 else 0
      ensures counts.rejections == old(counts.rejections) + if decision == Some(None) then 1 else 0
      ensures counts.recoveries ==
              old(counts.recoveries) + if decision.Some? && decision.value.Some? && decision.value != Some(1.0) then 1 else 0
      ensures counts.criticUpdates == old(counts.criticUpdates)
    {
      TrustMeans(l, parts, batch);
      var before := parts;
      counts := counts.(proposals := counts.proposals + 1);
      if l.sentinelKl(parts) >= l.hardStop {
        counts := counts.(rejections := counts.rejections + 1);
        return Some(None);
      }
      if !l.finite(parts, batch) {
        return None;
      }
      hide SafeFactor, FirstSafe;
      for k := 0 to |FACTORS|
        invariant FirstSafe(l, before, batch, k) == FirstSafe(l, before, batch, 0)
        invariant counts == Proposed(old(counts))
      {
        FirstSafeFrom(l, before, batch, k);
        SafeMeans(l, before, batch, k);
        parts := before;
        parts := l.step(parts, batch, FACTORS[k]);
        if l.sentinelKl(parts) < l.hardStop && !l.sentinelThin(parts) {
          counts := counts.(updates := counts.updates + 1);
          if FACTORS[k] != 1.0 {
            counts := counts.(recoveries := counts.recoveries + 1);
          }
          return Some(Some(FACTORS[k]));
        }
      }
      FirstSafeFrom(l, before, batch, |FACTORS|);
      parts := before;
      counts := counts.(rejections := counts.rejections + 1);
      decision := Some(None);
    }
  }

  /** The two transactions leave the same agent exactly when both reject, or both accept the full step. */
  lemma SameAgentExactly<P>(l: Learner<P>, a: Agent<P>, batch: seq<int>)
    requires PlainUpdate(l, a, batch).Some? && TrustUpdate(l, a, batch).Some?
    ensures PlainUpdate(l, a, batch).value.0 == TrustUpdate(l, a, batch).value.0 <==>
            PlainDecision(l, a.parts, batch) == TrustDecision(l, a.parts, batch)
  {
  }

  // ----- The trainer and the scripts that replay its journal

  /** A learner with the sampler, buffer and fingerprints that all programs share. */
  datatype Setting<!P, !G, !H> = Setting(
    learner: Learner<P>,
    draw: (G, int, nat) -> Option<(seq<int>, G)>,
    readable: seq<int> -> bool,
    fingerprint: Agent<P> -> H)

  predicate Accepts(m: Metrics) {
    ACCEPTED in m && m[ACCEPTED] == Flag(true)
  }

  function Trainer<P, G, H>(e: Setting<P, G, H>): Machine<Agent<P>, G, H, Metrics> {
    Machine(e.draw, e.readable,
            (a, critic, batch) => if critic then CriticUpdate(e.learner, a, batch) else TrustUpdate(e.learner, a, batch),
            m => Accepts(m), (_, _) => true, e.fingerprint)
  }

  /** The replay scripts that propose without trust region and add no residual statistics. */
  function PlainReplay<P, G, H>(e: Setting<P, G, H>, t: Tolerance): Machine<Agent<P>, G, H, Metrics> {
    Machine(e.draw, e.readable,
            (a, critic, batch) => if critic then CriticUpdate(e.learner, a, batch) else PlainUpdate(e.learner, a, batch),
            m => Accepts(m), (x, y) => Mismatches(t, x, y) == {}, e.fingerprint)
  }

  /** The audit's proposal: the trainer's, with the configured architecture written over the reported one. */
  function AuditUpdate<P>(l: Learner<P>, a: Agent<P>, batch: seq<int>, architecture: string): Option<(Agent<P>, Metrics)> {
    var u := TrustUpdate(l, a, batch);
    if u.None? then None else Some((u.value.0, u.value.1[ARCHITECTURE := Text(architecture)]))
  }

  function AuditReplay<P, G, H>(e: Setting<P, G, H>, t: Tolerance, architecture: string): Machine<Agent<P>, G, H, Metrics> {
    Machine(e.draw, e.readable,
            (a, critic, batch) => if critic then CriticUpdate(e.learner, a, batch)
                                  else AuditUpdate(e.learner, a, batch, architecture),
            m => Accepts(m), (x, y) => Mismatches(t, x, y) == {}, e.fingerprint)
  }

  // ----- What the comparison means

  /** Every journalled key is reported again, and where both values are numbers they are within the tolerance. */
  ghost predicate Within(t: Tolerance, expected: Metrics, actual: Metrics) {
    forall k :: k in expected ==>
      && k in actual
      && (expected[k].Number? && actual[k].Number? ==>
            var bound := t.absolute + t.relative * (if actual[k].x < 0.0 then -actual[k].x else actual[k].x);
            -bound <= expected[k].x - actual[k].x <= bound)
  }

  /** The metrics flag of one replayed record, with or without trust region. */
  lemma ComparisonMeans<P, G, H>(e: Setting<P, G, H>, t: Tolerance, architecture: string, expected: Metrics,
      actual: Metrics)
    ensures PlainReplay(e, t).close(expected, actual) <==> Within(t, expected, actual)
    ensures AuditReplay(e, t, architecture).close(expected, actual) <==> Within(t, expected, actual)
  {
    WithinMeans(t, expected, actual);
    hide Mismatches, Within;
  }

  lemma WithinMeans(t: Tolerance, expected: Metrics, actual: Metrics)
    ensures Mismatches(t, expected, actual) == {} <==> Within(t, expected, actual)
  {
    if Mismatches(t, expected, actual) == {} {
      forall k | k in expected
        ensures k in actual && (expected[k].Number? && actual[k].Number? ==> IsClose(t, expected[k].x, actual[k].x))
      {
        assert k !in Mismatches(t, expected, actual);
      }
    }
  }

  /** In an exact replay all metrics of every record are within the tolerance of the journalled ones. */
  lemma ExactIsWithin<P, G, H>(e: Setting<P, G, H>, t: Tolerance, architecture: string, audit: bool,
      s: State<Agent<P>, G>, journal: seq<Record<H, Metrics>>, i: nat)
    requires var m := if audit then AuditReplay(e, t, architecture) else PlainReplay(e, t);
             ReplaysExactly(m, s, journal) && i < |journal|
    ensures var m := if audit then AuditReplay(e, t, architecture) else PlainReplay(e, t);
            var done := m.update(ReplayAll(m, s, journal).value.states[i].agent, journal[i].kind == Critic, journal[i].indices);
            done.Some? && Within(t, journal[i].metrics, done.value.1)
  {
    var m := if audit then AuditReplay(e, t, architecture) else PlainReplay(e, t);
    RowsAgainstStates(m, s, journal, i);
    var states := ReplayAll(m, s, journal).value.states;
    var done := m.update(states[i].agent, journal[i].kind == Critic, journal[i].indices);
    hide ReplayAll, AuditReplay, PlainReplay, Within;
    ComparisonMeans(e, t, architecture, journal[i].metrics, done.value.1);
  }

  lemma CloseToItself(t: Tolerance, x: real)
    requires Valid(t)
    ensures IsClose(t, x, x)
  {
    assert t.relative * Abs(x) >= 0.0;
  }

  lemma MatchesItself(t: Tolerance, m: Metrics)
    requires Valid(t)
    ensures Mismatches(t, m, m) == {}
  {
    forall k | k in m && m[k].Number? ensures IsClose(t, m[k].x, m[k].x) {
      CloseToItself(t, m[k].x);
    }
  }

  /** Another text in place of a text is no mismatch. */
  lemma MatchesWithText(t: Tolerance, m: Metrics, key: Key, text: string)
    requires Valid(t) && key in m && m[key].Text?
    ensures Mismatches(t, m, m[key := Text(text)]) == {}
  {
    MatchesItself(t, m);
    assert forall k :: k in m ==> k !in Mismatches(t, m, m);
  }

  lemma ArchitectureIsText<P>(l: Learner<P>, a: Agent<P>, batch: seq<int>)
    requires TrustUpdate(l, a, batch).Some?
    ensures var m := TrustUpdate(l, a, batch).value.1; ARCHITECTURE in m && m[ARCHITECTURE].Text?
  {
  }

  /** A trained journal calls a proposal accepted exactly when the transaction accepted it. */
  lemma {:induction false} TrainedKinds<P(!new), G(!new), H>(e: Setting<P, G, H>, start: Counters,
      s: State<Agent<P>, G>,
      works: seq<Work>, i: nat)
    requires DrawsCount(e.draw) && Train(Trainer(e), start, s, works).Some? && i < |works| && !works[i].critic
    ensures var h := Train(Trainer(e), start, s, works).value;
            var d := TrustDecision(e.learner, h.states[i].agent.parts, h.journal[i].indices);
            && d.Some? && (h.journal[i].kind == Actor <==> d.value.Some?)
            && (h.journal[i].kind == ActorRejected <==> d.value.None?)
  {
    var h := Train(Trainer(e), start, s, works).value;
    TrainedStep(Trainer(e), start, s, works, i);
    hide Train, TrustDecision;
    AcceptedFlag(e.learner, h.states[i].agent, h.journal[i].indices);
  }

  lemma AcceptedFlag<P>(l: Learner<P>, a: Agent<P>, batch: seq<int>)
    requires TrustUpdate(l, a, batch).Some?
    ensures var d, m := TrustDecision(l, a.parts, batch), TrustUpdate(l, a, batch).value.1;
            && d.Some? && (Accepts(m) <==> d.value.Some?)
            && ACCEPTED in m && m[ACCEPTED] == Number(if d.value.Some? then 1.0 else 0.0)
            && ENABLED in m && m[ENABLED] == Number(1.0)
  {
    hide TrustDecision, Committed;
  }

  lemma PlainFlag<P>(l: Learner<P>, a: Agent<P>, batch: seq<int>)
    requires PlainUpdate(l, a, batch).Some?
    ensures var d, m := PlainDecision(l, a.parts, batch), PlainUpdate(l, a, batch).value.1;
            && d.Some? && ACCEPTED in m && m[ACCEPTED] == Number(if d.value.Some? then 1.0 else 0.0)
            && forall k :: k in m ==> k.Shared?
  {
    hide PlainDecision, Committed;
  }

  /** The audit repeats every update of the trainer. */
  lemma AuditRepeats<P, G, H>(e: Setting<P, G, H>, t: Tolerance, architecture: string, a: Agent<P>, critic: bool,
      batch: seq<int>)
    requires Valid(t) && Trainer(e).update(a, critic, batch).Some?
    ensures Repeats(Trainer(e), AuditReplay(e, t, architecture), a, critic, batch)
  {
    hide TrustUpdate, CriticUpdate, Mismatches;
    var m := Trainer(e).update(a, critic, batch).value.1;
    if critic {
      MatchesItself(t, m);
    } else {
      assert AuditReplay(e, t, architecture).update(a, false, batch) == AuditUpdate(e.learner, a, batch, architecture);
      ArchitectureIsText(e.learner, a, batch);
      MatchesWithText(t, m, ARCHITECTURE, architecture);
    }
  }

  /** Completeness of the audit: whatever the trainer journals from its checkpoint, the audit replays exactly. */
  lemma {:induction false} AuditReplaysExactly<P(!new), G(!new), H>(e: Setting<P, G, H>, t: Tolerance,
      architecture: string,
      start: Counters, s: State<Agent<P>, G>, works: seq<Work>)
    requires Valid(t) && DrawsCount(e.draw) && Train(Trainer(e), start, s, works).Some?
    ensures var h := Train(Trainer(e), start, s, works).value;
            && AllRepeat(Trainer(e), AuditReplay(e, t, architecture), h, works)
            && ReplaysExactly(AuditReplay(e, t, architecture), s, h.journal)
            && ReplayAll(AuditReplay(e, t, architecture), s, h.journal).value.states == h.states
  {
    var h := Train(Trainer(e), start, s, works).value;
    forall i | 0 <= i < |works|
      ensures Repeats(Trainer(e), AuditReplay(e, t, architecture), h.states[i].agent, works[i].critic, h.journal[i].indices)
    {
      TrainedStep(Trainer(e), start, s, works, i);
      hide *;
      AuditRepeats(e, t, architecture, h.states[i].agent, works[i].critic, h.journal[i].indices);
    }
    hide Train, Repeats;
    RepeatedReplaysExactly(Trainer(e), AuditReplay(e, t, architecture), start, s, works);
  }

  /** So does a journal of the trainer that was cut at any byte, as far as it was completely written. */
  lemma {:induction false} CutAuditReplaysExactly<P(!new), G(!new), H(!new)>(e: Setting<P, G, H>, t: Tolerance,
      architecture: string,
      start: Counters, s: State<Agent<P>, G>, works: seq<Work>, codec: JournalFile.Codec<Record<H, Metrics>>, k: nat)
    requires Valid(t) && DrawsCount(e.draw) && Train(Trainer(e), start, s, works).Some?
    requires var journal := Train(Trainer(e), start, s, works).value.journal;
             && (forall i :: 0 <= i < |works| ==> JournalFile.Encodes(codec, journal[i]))
             && k <= |JournalFile.Encoded(codec, journal)|
    ensures var journal := Train(Trainer(e), start, s, works).value.journal;
            var read := JournalFile.Parsed(codec, JournalFile.Lines(JournalFile.Encoded(codec, journal)[..k]));
            && read == journal[..JournalFile.Committed(codec, journal, k)]
            && ReplaysExactly(AuditReplay(e, t, architecture), s, read)
  {
    AuditReplaysExactly(e, t, architecture, start, s, works);
    hide Train, ReplayAll, AllRepeat, ReplaysExactly;
    CutJournalReplaysExactly(Trainer(e), AuditReplay(e, t, architecture), start, s, works, codec, k);
  }

  // ----- Replaying without trust region

  /** A journalled proposal carries a key that the plain proposal never reports. */
  lemma ProposalMismatches<P, G, H>(e: Setting<P, G, H>, t: Tolerance, a: Agent<P>, b: Agent<P>, batch: seq<int>)
    requires TrustUpdate(e.learner, a, batch).Some? && PlainUpdate(e.learner, b, batch).Some?
    ensures ENABLED in Mismatches(t, TrustUpdate(e.learner, a, batch).value.1, PlainUpdate(e.learner, b, batch).value.1)
  {
  }

  /** In a plain replay of a trained journal, no proposal's row is exact. */
  lemma {:induction false} ProposalNotExact<P(!new), G(!new), H>(e: Setting<P, G, H>, t: Tolerance, start: Counters,
      s: State<Agent<P>, G>, works: seq<Work>, i: nat)
    requires DrawsCount(e.draw) && Train(Trainer(e), start, s, works).Some? && i < |works| && !works[i].critic
    requires ReplayAll(PlainReplay(e, t), s, Train(Trainer(e), start, s, works).value.journal).Some?
    ensures !Exact(ReplayAll(PlainReplay(e, t), s, Train(Trainer(e), start, s, works).value.journal).value.rows[i])
  {
    var h := Train(Trainer(e), start, s, works).value;
    var run := ReplayAll(PlainReplay(e, t), s, h.journal).value;
    TrainedStep(Trainer(e), start, s, works, i);
    RowsAgainstStates(PlainReplay(e, t), s, h.journal, i);
    hide Train, ReplayAll, TrustUpdate, PlainUpdate, Mismatches;
    ProposalMismatches(e, t, h.states[i].agent, run.states[i].agent, h.journal[i].indices);
  }

  lemma CriticRepeats<P, G, H>(e: Setting<P, G, H>, t: Tolerance, a: Agent<P>, batch: seq<int>)
    requires Valid(t) && CriticUpdate(e.learner, a, batch).Some?
    ensures Repeats(Trainer(e), PlainReplay(e, t), a, true, batch)
  {
    MatchesItself(t, CriticUpdate(e.learner, a, batch).value.1);
  }

  /** Replayed without trust region, a trained journal is exact if and only if it holds no actor proposal. */
  lemma {:induction false} PlainReplaysExactly<P(!new), G(!new), H>(e: Setting<P, G, H>, t: Tolerance, start: Counters,
      s: State<Agent<P>, G>, works: seq<Work>)
    requires Valid(t) && DrawsCount(e.draw) && Train(Trainer(e), start, s, works).Some?
    ensures ReplaysExactly(PlainReplay(e, t), s, Train(Trainer(e), start, s, works).value.journal) <==>
            forall i :: 0 <= i < |works| ==> works[i].critic
  {
    var h := Train(Trainer(e), start, s, works).value;
    hide Train, ReplayAll;
    if forall i :: 0 <= i < |works| ==> works[i].critic {
      forall i | 0 <= i < |works|
        ensures Repeats(Trainer(e), PlainReplay(e, t), h.states[i].agent, works[i].critic, h.journal[i].indices)
      {
        TrainedStep(Trainer(e), start, s, works, i);
        CriticRepeats(e, t, h.states[i].agent, h.journal[i].indices);
      }
      hide Repeats;
      RepeatedReplaysExactly(Trainer(e), PlainReplay(e, t), start, s, works);
    } else if ReplayAll(PlainReplay(e, t), s, h.journal).Some? {
      var i :| 0 <= i < |works| && !works[i].critic;
      ProposalNotExact(e, t, start, s, works, i);
    }
  }

  /** Where it fails, the divergence it reports is the first proposal, whether or not the agents ever differ. */
  lemma {:induction false} PlainDivergence<P(!new), G(!new), H>(e: Setting<P, G, H>, t: Tolerance, start: Counters,
      s: State<Agent<P>, G>, works: seq<Work>, first: nat)
    requires Valid(t) && DrawsCount(e.draw) && Train(Trainer(e), start, s, works).Some?
    requires first < |works| && !works[first].critic && forall i :: 0 <= i < first ==> works[i].critic
    requires ReplayAll(PlainReplay(e, t), s, Train(Trainer(e), start, s, works).value.journal).Some?
    ensures FirstInexact(ReplayAll(PlainReplay(e, t), s, Train(Trainer(e), start, s, works).value.journal).value.rows, first)
  {
    var h := Train(Trainer(e), start, s, works).value;
    var run := ReplayAll(PlainReplay(e, t), s, h.journal).value;
    hide *;
    ProposalNotExact(e, t, start, s, works, first);
    TrainedPrefix(Trainer(e), start, s, works, first);
    PlainReplaysExactly(e, t, start, s, works[..first]);
    ReplayPrefix(PlainReplay(e, t), s, h.journal, first);
    FirstInexactAt(PlainReplay(e, t), s, h.journal, first);
  }

  lemma {:induction false} FirstInexactAt<A, G, H, M>(r: Machine<A, G, H, M>, s: State<A, G>,
      journal: seq<Record<H, M>>, d: nat)
    requires d < |journal| && ReplayAll(r, s, journal).Some? && !Exact(ReplayAll(r, s, journal).value.rows[d])
    requires ReplaysExactly(r, s, journal[..d])
    requires ReplayAll(r, s, journal[..d]).value.rows == ReplayAll(r, s, journal).value.rows[..d]
    ensures FirstInexact(ReplayAll(r, s, journal).value.rows, d)
  {
    hide ReplayAll, Exact;
    var rows := ReplayAll(r, s, journal).value.rows;
    assert forall i :: 0 <= i < d ==> rows[i] == rows[..d][i];
  }

  /** The plain replay is still in the trainer's states exactly when every proposal so far was decided alike. */
  lemma {:induction false} PlainStates<P(!new), G(!new), H>(e: Setting<P, G, H>, t: Tolerance, start: Counters,
      s: State<Agent<P>, G>, works: seq<Work>, k: nat)
    requires DrawsCount(e.draw) && Train(Trainer(e), start, s, works).Some? && k <= |works|
    requires ReplayAll(PlainReplay(e, t), s, Train(Trainer(e), start, s, works).value.journal).Some?
    ensures var h := Train(Trainer(e), start, s, works).value;
            ReplayAll(PlainReplay(e, t), s, h.journal).value.states[..k + 1] == h.states[..k + 1] <==>
            forall i :: 0 <= i < k ==> DecidedAlike(e.learner, h, i)
  {
    var h := Train(Trainer(e), start, s, works).value;
    TrainedStates(Trainer(e), PlainReplay(e, t), start, s, works, k);
    hide ReplayAll, DecidedAlike, RepeatsAgent;
    forall i | 0 <= i < k
      ensures RepeatsAgent(Trainer(e), PlainReplay(e, t), h.states[i].agent, h.journal[i].kind == Critic,
                           h.journal[i].indices) <==>
              DecidedAlike(e.learner, h, i)
    {
      TrainedStep(Trainer(e), start, s, works, i);
      hide Train;
      RepeatsWhenAlike(e, t, h, i);
    }
  }

  /** Update i is a critic update, or both transactions reject its batch or both accept it at the full rate. */
  ghost predicate DecidedAlike<P, G, H>(l: Learner<P>, h: History<Agent<P>, G, H, Metrics>, i: nat)
    requires i < |h.journal| && i < |h.states|
  {
    var parts, batch := h.states[i].agent.parts, h.journal[i].indices;
    h.journal[i].kind == Critic || PlainDecision(l, parts, batch) == TrustDecision(l, parts, batch)
  }

  lemma RepeatsWhenAlike<P, G, H>(e: Setting<P, G, H>, t: Tolerance, h: History<Agent<P>, G, H, Metrics>, i: nat)
    requires i < |h.journal| < |h.states|
    requires Trainer(e).update(h.states[i].agent, h.journal[i].kind == Critic, h.journal[i].indices).Some?
    ensures RepeatsAgent(Trainer(e), PlainReplay(e, t), h.states[i].agent, h.journal[i].kind == Critic,
                         h.journal[i].indices) <==>
            DecidedAlike(e.learner, h, i)
  {
    var a, batch := h.states[i].agent, h.journal[i].indices;
    if h.journal[i].kind != Critic {
      assert Trainer(e).update(a, false, batch) == TrustUpdate(e.learner, a, batch);
      assert PlainReplay(e, t).update(a, false, batch) == PlainUpdate(e.learner, a, batch);
      assert TrustDecision(e.learner, a.parts, batch).Some?;
      if PlainUpdate(e.learner, a, batch).Some? {
        SameAgentExactly(e.learner, a, batch);
      }
    } else {
      assert PlainReplay(e, t).update(a, true, batch) == Trainer(e).update(a, true, batch);
    }
  }

  // ----- Journals of one and of two proposals

  /** A learner whose state is one number that a step raises by its factor; the sentinel allows it up to a limit. */
  function Climber(limit: real): Learner<real> {
    Learner((p, _) => Some((p, map[])), (_, _) => true, (p, _, f) => p + f, (_, _) => 0.0, (_, _) => false,
            p => if p > limit then 1.0 else 0.0, _ => false, 1.0, "direct",
            (_, _) => map[], (_, _) => map[], (_, _) => Some(map[]))
  }

  function Zeros(n: nat): (z: seq<int>)
    ensures |z| == n
  {
    if n == 0 then [] else Zeros(n - 1) + [0]
  }

  function Climb(limit: real): Setting<real, nat, Agent<real>> {
    Setting(Climber(limit), (g, _, count) => Some((Zeros(count), g + 1)), _ => true, a => a)
  }

  const START: State<Agent<real>, nat> := State(Agent(0.0, Counts(0, 0, 0, 0, 0)), 0)

  /** The rate at which the climber's proposal from p is accepted. */
  function Rate(limit: real, p: real): real {
    if p + 1.0 <= limit then 1.0 else if p + 0.5 <= limit then 0.5 else 0.25
  }

  lemma ClimberDecides(limit: real, p: real, batch: seq<int>)
    requires p + 0.25 <= limit
    ensures PlainDecision(Climber(limit), p, batch) == Some(Some(1.0))
    ensures TrustDecision(Climber(limit), p, batch) == Some(Some(Rate(limit, p)))
  {
    var l := Climber(limit);
    assert SafeFactor(l, p, batch, 0) <==> p + 1.0 <= limit;
    assert SafeFactor(l, p, batch, 1) <==> p + 0.5 <= limit;
    assert SafeFactor(l, p, batch, 2);
    hide SafeFactor;
    assert FirstSafe(l, p, batch, 0) == if p + 1.0 <= limit then 0 else if p + 0.5 <= limit then 1 else 2;
  }

  /** The agent after a proposal at factor f from p, and the n-th of its kind. */
  function Climbed(p: real, n: nat, recoveries: nat): Agent<real> {
    Agent(p, Counts(0, n, 0, n, recoveries))
  }

  /** One update of the trainer. */
  lemma ClimberUpdates(limit: real, p: real, n: nat, recoveries: nat)
    requires p + 0.25 <= limit
    ensures var f := Rate(limit, p);
            var u := Trainer(Climb(limit)).update(Climbed(p, n, recoveries), false, [0]);
            && u.Some? && u.value.0 == Climbed(p + f, n + 1, recoveries + if f == 1.0 then 0 else 1) && Accepts(u.value.1)
  {
    var e, a := Climb(limit), Climbed(p, n, recoveries);
    ClimberDecides(limit, p, [0]);
    hide PlainDecision, TrustDecision;
    assert Trainer(e).update(a, false, [0]) == TrustUpdate(e.learner, a, [0]);
  }

  lemma ClimberReplays(limit: real, t: Tolerance, p: real, n: nat)
    ensures var u := PlainReplay(Climb(limit), t).update(Climbed(p, n, 0), false, [0]);
            u.Some? && u.value.0 == Climbed(p + 1.0, n + 1, 0)
  {
    var e, a := Climb(limit), Climbed(p, n, 0);
    assert PlainReplay(e, t).update(a, false, [0]) == PlainUpdate(e.learner, a, [0]);
  }

  const CLIMB := Work(false, 1, 1)

  /** The climber's run of n accepted proposals so far, at p for the trainer. */
  ghost predicate Climbs(limit: real, t: Tolerance, n: nat, p: real, recoveries: nat) {
    var works := seq(n, _ => CLIMB);
    var h := Train(Trainer(Climb(limit)), Counters(0, 0), START, works);
    && h.Some? && h.value.states[n] == State(Climbed(p, n, recoveries), n) && !Stopped(h.value.journal)
    && Tally(works, false) == n
    && var run := ReplayAll(PlainReplay(Climb(limit), t), START, h.value.journal);
       run.Some? && run.value.states[n] == State(Climbed(n as real, n, 0), n)
  }

  lemma ClimbsFrom(limit: real, t: Tolerance)
    ensures Climbs(limit, t, 0, 0.0, 0)
  {
    assert seq(0, _ => CLIMB) == [];
  }

  /** One proposal more for the trainer. */
  lemma ClimberTrains(limit: real, t: Tolerance, n: nat, p: real, recoveries: nat)
    requires Climbs(limit, t, n, p, recoveries) && p + 0.25 <= limit
    ensures var works := seq(n + 1, _ => CLIMB);
            var front := Train(Trainer(Climb(limit)), Counters(0, 0), START, seq(n, _ => CLIMB)).value;
            var h := Train(Trainer(Climb(limit)), Counters(0, 0), START, works);
            && h.Some? && h.value.journal[..n] == front.journal && h.value.states[..n + 1] == front.states
            && h.value.journal[n].kind == Actor && h.value.journal[n].updateIndex == n + 1
            && h.value.journal[n].indices == [0] && h.value.journal[n].size == 1
            && Tally(works, false) == n + 1
            && var f := Rate(limit, p);
               h.value.states[n + 1] == State(Climbed(p + f, n + 1, recoveries + if f == 1.0 then 0 else 1), n + 1)
  {
    var e, works := Climb(limit), seq(n + 1, _ => CLIMB);
    assert works[..n] == seq(n, _ => CLIMB);
    assert Zeros(1) == [0];
    ClimberUpdates(limit, p, n, recoveries);
    assert Tally(works, false) == n + 1;
    hide ReplayAll, ReplayOne, TrustUpdate, PlainUpdate, Mismatches, Climbed, Rate, Train, Accepts;
    TrainNext(Trainer(e), Counters(0, 0), START, works);
  }

  /** One proposal more, for the trainer from p and for the plain replay from n. */
  lemma ClimbsOn(limit: real, t: Tolerance, n: nat, p: real, recoveries: nat)
    requires Climbs(limit, t, n, p, recoveries) && p + 0.25 <= limit
    ensures Climbs(limit, t, n + 1, p + Rate(limit, p), recoveries + if Rate(limit, p) == 1.0 then 0 else 1)
    ensures var front := Train(Trainer(Climb(limit)), Counters(0, 0), START, seq(n, _ => CLIMB)).value;
            var h := Train(Trainer(Climb(limit)), Counters(0, 0), START, seq(n + 1, _ => CLIMB)).value;
            && h.journal[..n] == front.journal && h.states[..n + 1] == front.states
            && h.journal[n].kind == Actor && h.journal[n].updateIndex == n + 1
  {
    ClimberTrains(limit, t, n, p, recoveries);
    var h := Train(Trainer(Climb(limit)), Counters(0, 0), START, seq(n + 1, _ => CLIMB)).value;
    hide Tally, Climbed, Rate, Train, ReplayAll, Trainer, PlainReplay, Climb;
    ClimberReplaysOn(limit, t, n, h.journal);
  }

  /** One proposal more for the plain replay. */
  lemma {:induction false} ClimberReplaysOn(limit: real, t: Tolerance, n: nat, journal: seq<Record<Agent<real>,
      Metrics>>)
    requires |journal| == n + 1 && journal[n].indices == [0] && journal[n].kind == Actor
    requires var run := ReplayAll(PlainReplay(Climb(limit), t), START, journal[..n]);
             run.Some? && run.value.states[n] == State(Climbed(n as real, n, 0), n)
    ensures var run := ReplayAll(PlainReplay(Climb(limit), t), START, journal);
            run.Some? && run.value.states[n + 1] == State(Climbed((n + 1) as real, n + 1, 0), n + 1)
  {
    hide *;
    assert journal[..n + 1] == journal;
    ReplayNext(PlainReplay(Climb(limit), t), START, journal, n);
    ClimberReplaysOne(limit, t, n, journal[n]);
  }

  lemma ClimberReplaysOne(limit: real, t: Tolerance, n: nat, rec: Record<Agent<real>, Metrics>)
    requires rec.indices == [0] && rec.kind == Actor
    ensures var one := ReplayOne(PlainReplay(Climb(limit), t), State(Climbed(n as real, n, 0), n), rec);
            one.Some? && one.value.1 == State(Climbed((n + 1) as real, n + 1, 0), n + 1)
  {
    ClimberReplays(limit, t, n as real, n);
    assert Zeros(1) == [0];
    hide PlainUpdate, Mismatches;
  }

  /** One proposal, accepted at the full rate: the plain replay reaches the very same agents, and yet it fails. */
  lemma OneProposalFails(t: Tolerance)
    requires Valid(t)
    ensures var e, works := Climb(10.0), seq(1, _ => CLIMB);
            var h := Train(Trainer(e), Counters(0, 0), START, works);
            && h.Some?
            && var run := ReplayAll(PlainReplay(e, t), START, h.value.journal);
               && run.Some? && run.value.states[1] == h.value.states[1]
               && !ReplaysExactly(PlainReplay(e, t), START, h.value.journal)
  {
    ClimbsFrom(10.0, t);
    ClimbsOn(10.0, t, 0, 0.0, 0);
    hide Train, ReplayAll, ReplaysExactly;
    PlainReplaysExactly(Climb(10.0), t, Counters(0, 0), START, seq(1, _ => CLIMB));
  }

  /**
   Two proposals, the first accepted at half the rate: the payload that the plain capture keeps for
   the second is not the agent the trainer had.
   */
  lemma HalfRatePayload(t: Tolerance)
    ensures var e, works := Climb(0.75), seq(2, _ => CLIMB);
            var h := Train(Trainer(e), Counters(0, 0), START, works);
            && h.Some?
            && var many := Many(PlainReplay(e, t), START, h.value.journal, {2});
               many.Ok? && 2 in many.value && many.value[2].payload != h.value.states[1].agent
  {
    ClimbsFrom(0.75, t);
    ClimbsOn(0.75, t, 0, 0.0, 0);
    ClimbsOn(0.75, t, 1, 0.5, 1);
    var e, works := Climb(0.75), seq(2, _ => CLIMB);
    var h := Train(Trainer(e), Counters(0, 0), START, works).value;
    var front := Train(Trainer(e), Counters(0, 0), START, seq(1, _ => CLIMB)).value;
    assert h.journal[..1] == front.journal && h.states[1] == front.states[1];
    hide Train, ReplayAll, Many;
    ReplayPrefix(PlainReplay(e, t), START, h.journal, 1);
    assert forall g, size, count :: e.draw(g, size, count).Some? ==> |e.draw(g, size, count).value.0| == count;
    TrainedCapture(Trainer(e), PlainReplay(e, t), Counters(0, 0), START, works, {2}, 1);
  }
}
