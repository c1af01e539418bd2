/** What the two captures have in common, and where they differ. */
module CaptureLaws {
  import opened Basics
  import opened Replay
  import opened Capture

  ghost predicate AllBatches(rows: seq<Row>) {
    forall i :: 0 <= i < |rows| ==> rows[i].batch
  }

  /** The captures replay what the audit replays: they go on exactly as long as every batch matches. */
  lemma {:induction false} BeforeIsReplay<A, G, H, M>(m: Machine<A, G, H, M>, s: State<A, G>,
      journal: seq<Record<H, M>>)
    ensures var run := ReplayAll(m, s, journal);
            && (Before(m, s, journal).Ok? <==> run.Some? && AllBatches(run.value.rows))
            && (Before(m, s, journal).Ok? ==> Before(m, s, journal).value == run.value.states[|journal|])
  {
    if journal != [] {
      var n := |journal| - 1;
      var front, run := ReplayAll(m, s, journal[..n]), ReplayAll(m, s, journal);
      BeforeIsReplay(m, s, journal[..n]);
      if front.Some? && run.Some? {
        assert run.value.rows[..n] == front.value.rows;
        assert run.value.rows == front.value.rows + [run.value.rows[n]];
      }
      hide AllBatches;
      AllBatchesNext(front, run, n);
    }
  }

  lemma AllBatchesNext<A, G>(front: Option<Run<A, G>>, run: Option<Run<A, G>>, n: nat)
    requires front.Some? && run.Some? ==>
      |front.value.rows| == n && |run.value.rows| == n + 1 && run.value.rows[..n] == front.value.rows
    ensures front.Some? && run.Some? ==>
              (AllBatches(run.value.rows) <==> AllBatches(front.value.rows) && run.value.rows[n].batch)
  {
    if front.Some? && run.Some? {
      assert forall i :: 0 <= i < n ==> run.value.rows[i] == front.value.rows[i];
    }
  }

  /** The sampler draws the recorded batch again. */
  predicate DrawsAgain<A, G, H, M>(m: Machine<A, G, H, M>, g: G, rec: Record<H, M>) {
    var d := m.draw(g, rec.size, |rec.indices|);
    d.Some? && d.value.0 == rec.indices
  }

  /** A capture is the agent of the exact replay after precisely the records before the target's first record. */
  lemma {:induction false} CaptureIsReplayedState<A, G, H, M>(m: Machine<A, G, H, M>, s: State<A, G>,
      journal: seq<Record<H, M>>,
      target: int, c: Captured<A>)
    ensures var first := First(journal, target);
            One(m, s, journal, target) == Ok(c) <==>
              && first < |journal|
              && var run := ReplayAll(m, s, journal[..first]);
                 && run.Some? && AllBatches(run.value.rows)
                 && DrawsAgain(m, run.value.states[first].rng, journal[first]) && m.readable(journal[first].indices)
                 && c == Captured(run.value.states[first].agent, journal[first].indices)
  {
    hide AllBatches, Before, ReplayAll;
    var first := First(journal, target);
    if first < |journal| {
      BeforeIsReplay(m, s, journal[..first]);
    }
  }

  /** How one record fails: sampled differently, or an exception in sampling, reading or updating. */
  lemma StepFails<A, G, H, M>(m: Machine<A, G, H, M>, now: State<A, G>, rec: Record<H, M>)
    ensures var d := m.draw(now.rng, rec.size, |rec.indices|);
            && (Step(m, now, rec) == Failed(Diverged) <==> d.Some? && d.value.0 != rec.indices)
            && (Step(m, now, rec) == Failed(Raised) <==>
                  if d.None? then true
                  else
                    && d.value.0 == rec.indices
                    && (!m.readable(rec.indices) || m.update(now.agent, rec.kind == Critic, rec.indices).None?))
  {
  }

  /**
   A journal is abandoned as diverged exactly when some record, reached with every earlier batch
   intact, was sampled differently.
   */
  lemma {:induction false} DivergedExactly<A, G, H, M>(m: Machine<A, G, H, M>, s: State<A, G>,
      journal: seq<Record<H, M>>, k: nat)
    requires k <= |journal|
    ensures Before(m, s, journal[..k]) == Failed(Diverged) <==> exists i :: 0 <= i < k && DivergesAt(m, s, journal, i)
  {
    if k > 0 {
      DivergedExactly(m, s, journal, k - 1);
      BeforeNext(m, s, journal, k - 1);
      hide Before, Step, Sample;
      if Before(m, s, journal[..k - 1]).Ok? {
        StepFails(m, Before(m, s, journal[..k - 1]).value, journal[k - 1]);
      }
      assert DivergesAt(m, s, journal, k - 1) <==>
        Before(m, s, journal[..k - 1]).Ok? && Before(m, s, journal[..k]) == Failed(Diverged);
    }
  }

  ghost predicate DivergesAt<A, G, H, M>(m: Machine<A, G, H, M>, s: State<A, G>, journal: seq<Record<H, M>>, i: nat)
    requires i < |journal|
  {
    && Before(m, s, journal[..i]).Ok?
    && var d := m.draw(Before(m, s, journal[..i]).value.rng, journal[i].size, |journal[i].indices|);
       d.Some? && d.value.0 != journal[i].indices
  }

  /**
   It is abandoned with an exception exactly when some record, reached with every earlier batch intact, cannot be
   sampled, or is sampled alike and then cannot be read or updated from.
   */
  lemma {:induction false} RaisedExactly<A, G, H, M>(m: Machine<A, G, H, M>, s: State<A, G>,
      journal: seq<Record<H, M>>, k: nat)
    requires k <= |journal|
    ensures Before(m, s, journal[..k]) == Failed(Raised) <==> exists i :: 0 <= i < k && RaisesAt(m, s, journal, i)
  {
    if k > 0 {
      RaisedExactly(m, s, journal, k - 1);
      BeforeNext(m, s, journal, k - 1);
      hide Before, Step, Sample;
      if Before(m, s, journal[..k - 1]).Ok? {
        StepFails(m, Before(m, s, journal[..k - 1]).value, journal[k - 1]);
      }
      assert RaisesAt(m, s, journal, k - 1) <==>
        Before(m, s, journal[..k - 1]).Ok? && Before(m, s, journal[..k]) == Failed(Raised);
    }
  }

  ghost predicate RaisesAt<A, G, H, M>(m: Machine<A, G, H, M>, s: State<A, G>, journal: seq<Record<H, M>>, i: nat)
    requires i < |journal|
  {
    && Before(m, s, journal[..i]).Ok?
    && var now, rec := Before(m, s, journal[..i]).value, journal[i];
       var d := m.draw(now.rng, rec.size, |rec.indices|);
       if d.None? then true
       else
         && d.value.0 == rec.indices
         && (!m.readable(rec.indices) || m.update(now.agent, rec.kind == Critic, rec.indices).None?)
  }

  // ----- One target against many

  ghost predicate DistinctActors<H, M>(journal: seq<Record<H, M>>) {
    forall i, j :: 0 <= i < j < |journal| && journal[i].kind == Actor && journal[j].kind == Actor ==>
      journal[i].updateIndex != journal[j].updateIndex
  }

  /** With distinct actor indices, a completed joint capture holds for each target what its own capture finds. */
  lemma ManyAgreesWithOne<A, G, H, M>(m: Machine<A, G, H, M>, s: State<A, G>, journal: seq<Record<H, M>>,
      targets: set<int>, t: int)
    requires DistinctActors(journal) && Many(m, s, journal, targets).Ok? && t in targets
    ensures var result := Many(m, s, journal, targets).value;
            One(m, s, journal, t) == if t in result then Ok(result[t]) else Failed(Missing)
  {
    BeforeReaches(m, s, journal);
    hide Before, At;
    var first, last := First(journal, t), Last(journal, t);
    assert first < |journal| <==> last < |journal|;
    assert first == last || (first == |journal| && last == |journal|);
  }

  /** The joint capture fails as a whole; each single capture then either was done before that record or fails the same way. */
  lemma FailuresAgree<A, G, H, M>(m: Machine<A, G, H, M>, s: State<A, G>, journal: seq<Record<H, M>>,
      targets: set<int>, t: int)
    ensures var one, many := One(m, s, journal, t), Many(m, s, journal, targets);
            && (many.Failed? ==> one.Ok? || one == Failed(many.why))
            && (one.Failed? && one.why != Missing ==> many == Failed(one.why))
            && (one.Failed? && one.why == Missing ==> many.Ok? && t !in many.value)
  {
    var first := First(journal, t);
    if first < |journal| && At(m, s, journal, first).Failed? {
      BeforeNext(m, s, journal, first);
      FailureStays(m, s, journal, first + 1, |journal|);
      assert journal[..|journal|] == journal;
    }
    hide Before, At, Last;
    if first == |journal| {
      assert Last(journal, t) == |journal|;
    }
  }

  // ----- Duplicate indices

  /** A learner that only counts: the sampler repeats the journal, the agent is the number of updates. */
  ghost function Counting<H, M>(journal: seq<Record<H, M>>): Machine<nat, nat, H, M>
    requires journal != []
  {
    Machine((g, _, _) => if 0 <= g < |journal| then Some((journal[g].indices, g + 1)) else None,
            _ => true,
            (a, _, _) => Some((a + 1, journal[0].metrics)),
            _ => true, (_, _) => true, _ => journal[0].before)
  }

  lemma {:induction false} CountingReaches<H, M>(journal: seq<Record<H, M>>, i: nat)
    requires journal != [] && i <= |journal|
    ensures Before(Counting(journal), State(0, 0), journal[..i]) == Ok(State(i, i))
  {
    if i > 0 {
      CountingReaches(journal, i - 1);
      BeforeNext(Counting(journal), State(0, 0), journal, i - 1);
    }
  }

  ghost predicate SameCapture<A, G, H, M>(m: Machine<A, G, H, M>, s: State<A, G>, journal: seq<Record<H, M>>, t: int) {
    var many := Many(m, s, journal, {t});
    many.Ok? && t in many.value ==> One(m, s, journal, t) == Ok(many.value[t])
  }

  /** Two actor records of one index are enough for some learner to be captured in two different states. */
  lemma DuplicatesDisagree<H, M>(journal: seq<Record<H, M>>, i: nat, j: nat, t: int)
    requires i < j < |journal| && IsTarget(journal[i], t) && IsTarget(journal[j], t)
    ensures !SameCapture(Counting(journal), State(0, 0), journal, t)
  {
    var m, s := Counting(journal), State(0, 0);
    assert journal[..|journal|] == journal;
    CountingReaches(journal, |journal|);
    BeforeReaches(m, s, journal);
    CountingReaches(journal, First(journal, t));
    CountingReaches(journal, Last(journal, t));
    hide Before, First, Last;
    assert First(journal, t) <= i < j <= Last(journal, t) < |journal|;
  }

  /** Hence distinctness of a target's records is exactly what agreement needs. */
  lemma AgreementExactly<H, M>(journal: seq<Record<H, M>>, t: int)
    ensures (forall i, j :: 0 <= i < j < |journal| ==> !(IsTarget(journal[i], t) && IsTarget(journal[j], t))) <==>
            (forall m: Machine<nat, nat, H, M>, s: State<nat, nat> :: SameCapture(m, s, journal, t))
  {
    if i, j :| 0 <= i < j < |journal| && IsTarget(journal[i], t) && IsTarget(journal[j], t) {
      DuplicatesDisagree(journal, i, j, t);
    } else {
      forall m: Machine<nat, nat, H, M>, s: State<nat, nat> ensures SameCapture(m, s, journal, t) {
        if Many(m, s, journal, {t}).Ok? {
          BeforeReaches(m, s, journal);
          assert First(journal, t) == Last(journal, t);
        }
      }
    }
  }

  // ----- Journals of the trainer

  lemma {:induction false} ProposalsGrow<H, M>(journal: seq<Record<H, M>>, i: nat, j: nat)
    requires i <= j <= |journal|
    ensures Proposals(journal[..i]) <= Proposals(journal[..j])
    ensures i < j && IsProposal(journal[j - 1]) ==> Proposals(journal[..i]) < Proposals(journal[..j])
    decreases j
  {
    if i < j {
      ProposalsGrow(journal, i, j - 1);
      assert journal[..j][..j - 1] == journal[..j - 1];
    }
  }

  lemma NumberedDistinct<H, M>(journal: seq<Record<H, M>>, base: nat)
    requires Numbered(journal, base)
    ensures DistinctActors(journal)
  {
    forall i, j | 0 <= i < j < |journal| && journal[i].kind == Actor && journal[j].kind == Actor
      ensures journal[i].updateIndex != journal[j].updateIndex
    {
      assert NumberedAt(journal, base, i) && NumberedAt(journal, base, j);
      ProposalsGrow(journal, i + 1, j + 1);
    }
  }

  /** In a journal that replays whole, a target's payload is the replayed agent before the target's last record. */
  lemma {:induction false} JointCapture<A, G, H, M>(m: Machine<A, G, H, M>, s: State<A, G>, journal: seq<Record<H, M>>,
      targets: set<int>, t: int)
    requires Before(m, s, journal).Ok? && t in targets && Last(journal, t) < |journal| && ReplayAll(m, s, journal).Some?
    ensures var i, many := Last(journal, t), Many(m, s, journal, targets);
            && many.Ok? && t in many.value
            && many.value[t] == Captured(ReplayAll(m, s, journal).value.states[i].agent, journal[i].indices)
  {
    var i := Last(journal, t);
    BeforeReaches(m, s, journal);
    hide ReplayAll;
    BeforeIsReplay(m, s, journal[..i]);
    ReplayPrefix(m, s, journal, i);
    hide Before, Sample, Last;
  }

  /** A trained history beside the run of its replay, record by record. */
  ghost predicate Beside<A, G, H, M>(t: Machine<A, G, H, M>, r: Machine<A, G, H, M>, h: History<A, G, H, M>,
      run: Run<A, G>, n: nat)
  {
    && |h.journal| == |run.rows| == n && |h.states| == |run.states| == n + 1 && h.states[0] == run.states[0]
    && r.draw == t.draw
    && forall i :: 0 <= i < n ==> BesideAt(t, r, h, run, i)
  }

  ghost predicate BesideAt<A, G, H, M>(t: Machine<A, G, H, M>, r: Machine<A, G, H, M>, h: History<A, G, H, M>,
      run: Run<A, G>, i: nat)
    requires i < |h.journal| && i < |run.rows| && i + 1 < |h.states| && i + 1 < |run.states|
  {
    var rec, now, next := h.journal[i], h.states[i], h.states[i + 1];
    && t.draw(now.rng, rec.size, |rec.indices|) == Some((rec.indices, next.rng))
    && t.update(now.agent, rec.kind == Critic, rec.indices) == Some((next.agent, rec.metrics))
    && ReplayOne(r, run.states[i], rec) == Some((run.rows[i], run.states[i + 1]))
  }

  lemma {:induction false} TrainedBeside<A, G(!new), H, M>(t: Machine<A, G, H, M>, r: Machine<A, G, H, M>,
      start: Counters, s: State<A, G>, works: seq<Work>)
    requires SameSampling(t, r) && Train(t, start, s, works).Some?
    requires ReplayAll(r, s, Train(t, start, s, works).value.journal).Some?
    ensures var h := Train(t, start, s, works).value; Beside(t, r, h, ReplayAll(r, s, h.journal).value, |works|)
  {
    var h := Train(t, start, s, works).value;
    var run := ReplayAll(r, s, h.journal).value;
    if works == [] {
      assert h.states == [s];
    } else {
      TrainedStep(t, start, s, works, 0);
    }
    hide Train, ReplayAll, ReplayOne;
    forall i | 0 <= i < |works| ensures BesideAt(t, r, h, run, i) {
      TrainedStep(t, start, s, works, i);
      RowsAgainstStates(r, s, h.journal, i);
    }
  }

  /** The sampler of a replayed trained journal never diverges, whatever the updates do. */
  lemma {:induction false} BesideBatches<A, G, H, M>(t: Machine<A, G, H, M>, r: Machine<A, G, H, M>,
      h: History<A, G, H, M>, run: Run<A, G>, n: nat, k: nat)
    requires Beside(t, r, h, run, n) && k <= n
    ensures run.states[k].rng == h.states[k].rng && forall i :: 0 <= i < k ==> run.rows[i].batch
  {
    if k > 0 {
      BesideBatches(t, r, h, run, n, k - 1);
      assert BesideAt(t, r, h, run, k - 1);
    }
  }

  lemma {:induction false} TrainedBefore<A, G(!new), H, M>(t: Machine<A, G, H, M>, r: Machine<A, G, H, M>,
      start: Counters, s: State<A, G>, works: seq<Work>)
    requires SameSampling(t, r) && Train(t, start, s, works).Some?
    ensures var journal := Train(t, start, s, works).value.journal;
            Before(r, s, journal).Ok? <==> ReplayAll(r, s, journal).Some?
  {
    var journal := Train(t, start, s, works).value.journal;
    BeforeIsReplay(r, s, journal);
    if ReplayAll(r, s, journal).Some? {
      TrainedBeside(t, r, start, s, works);
      hide Beside;
      BesideBatches(t, r, Train(t, start, s, works).value, ReplayAll(r, s, journal).value, |works|, |works|);
    }
  }

  /**
   Every accepted update of a trained journal can be captured, alone and jointly, unless an update
   of the replay raises. The payload is the replayed agent before that update.
   */
  lemma {:induction false} TrainedCapture<A, G(!new), H, M>(t: Machine<A, G, H, M>, r: Machine<A, G, H, M>,
      start: Counters, s: State<A, G>, works: seq<Work>, targets: set<int>, i: nat)
    requires SameSampling(t, r) && Train(t, start, s, works).Some? && i < |works|
    requires ReplayAll(r, s, Train(t, start, s, works).value.journal).Some?
    requires var rec := Train(t, start, s, works).value.journal[i]; rec.kind == Actor && rec.updateIndex in targets
    ensures var journal := Train(t, start, s, works).value.journal;
            var many, rec := Many(r, s, journal, targets), journal[i];
            && many.Ok? && rec.updateIndex in many.value
            && many.value[rec.updateIndex] == Captured(ReplayAll(r, s, journal).value.states[i].agent, rec.indices)
            && One(r, s, journal, rec.updateIndex) == Ok(many.value[rec.updateIndex])
  {
    var journal := Train(t, start, s, works).value.journal;
    var target := journal[i].updateIndex;
    TrainedBefore(t, r, start, s, works);
    TrainedNumbered(t, start, s, works);
    NumberedDistinct(journal, start.proposals);
    hide *;
    LastOf(journal, i, target);
    JointCapture(r, s, journal, targets, target);
    ManyAgreesWithOne(r, s, journal, targets, target);
  }

  /** Every update before k ended in the trainer's agent. */
  ghost predicate RepeatsAgents<A, G, H, M>(t: Machine<A, G, H, M>, r: Machine<A, G, H, M>, h: History<A, G, H, M>, k: nat)
    requires k <= |h.journal| < |h.states|
  {
    forall i :: 0 <= i < k ==> RepeatsAgent(t, r, h.states[i].agent, h.journal[i].kind == Critic, h.journal[i].indices)
  }

  lemma {:induction false} BesideStates<A, G, H, M>(t: Machine<A, G, H, M>, r: Machine<A, G, H, M>,
      h: History<A, G, H, M>, run: Run<A, G>, n: nat, k: nat)
    requires Beside(t, r, h, run, n) && k <= n
    ensures run.states[..k + 1] == h.states[..k + 1] <==> RepeatsAgents(t, r, h, k)
  {
    if k == 0 {
      assert run.states[..1] == [run.states[0]] && h.states[..1] == [h.states[0]];
    } else {
      BesideStates(t, r, h, run, n, k - 1);
      BesideBatches(t, r, h, run, n, k);
      assert BesideAt(t, r, h, run, k - 1);
      hide Beside;
      StatesGrow(run.states, h.states, k);
    }
  }

  /** The replayed states up to k are the trainer's exactly when every update before k ended in the trainer's agent. */
  lemma {:induction false} TrainedStates<A, G(!new), H, M>(t: Machine<A, G, H, M>, r: Machine<A, G, H, M>,
      start: Counters, s: State<A, G>, works: seq<Work>, k: nat)
    requires SameSampling(t, r) && Train(t, start, s, works).Some? && k <= |works|
    requires ReplayAll(r, s, Train(t, start, s, works).value.journal).Some?
    ensures var h := Train(t, start, s, works).value;
            ReplayAll(r, s, h.journal).value.states[..k + 1] == h.states[..k + 1] <==> RepeatsAgents(t, r, h, k)
  {
    TrainedBeside(t, r, start, s, works);
    hide *;
    var h := Train(t, start, s, works).value;
    BesideStates(t, r, h, ReplayAll(r, s, h.journal).value, |works|, k);
  }

  lemma StatesGrow<S>(a: seq<S>, b: seq<S>, k: nat)
    requires 0 < k < |a| == |b|
    ensures a[..k + 1] == b[..k + 1] <==> a[..k] == b[..k] && a[k] == b[k]
    ensures a[..k] == b[..k] ==> a[k - 1] == b[k - 1]
  {
    assert a[..k + 1] == a[..k] + [a[k]] && b[..k + 1] == b[..k] + [b[k]];
    assert a[k - 1] == a[..k][k - 1] && b[k - 1] == b[..k][k - 1];
  }

  lemma {:induction false} LastOf<H, M>(journal: seq<Record<H, M>>, i: nat, t: int)
    requires DistinctActors(journal) && i < |journal| && journal[i].kind == Actor && journal[i].updateIndex == t
    ensures Last(journal, t) == i
  {
    hide Last;
  }
}
