/**
 Exact replay of an update journal: a restored agent and sampler are driven by the recorded
 updates and compared with what the journal says.
 */
module Replay {
  import opened Basics
  import JournalFile

  /** update_kind. Anything but a critic update is replayed as a transactional actor update. */
  datatype Kind = Critic | Actor | ActorRejected | Other

  datatype Record<!H, !M> = Record(indices: seq<int>, size: int, kind: Kind, updateIndex: int,
                                   before: H, after: H, metrics: M)

  /**
   One program's view of a learner, as functions of its whole state: A is everything an update
   reads or writes, G the sampler's generator, M the metrics and H the fingerprints. None is a
   raised exception; `readable` says that the replay buffer holds every sampled row. The trainer
   and the scripts that replay its journal are different machines.
   */
  datatype Machine<!A, !G, !H, !M> = Machine(
    draw: (G, int, nat) -> Option<(seq<int>, G)>,
    readable: seq<int> -> bool,
    update: (A, bool, seq<int>) -> Option<(A, M)>,
    accepted: M -> bool,
    close: (M, M) -> bool,
    fingerprint: A -> H)

  datatype State<!A, !G> = State(agent: A, rng: G)

  /** One row of the comparison. */
  datatype Row = Row(batch: bool, before: bool, after: bool, metrics: bool)

  predicate Exact(r: Row) {
    r.batch && r.before && r.after && r.metrics
  }

  /** Sample, compare, update from the recorded indices, compare again. */
  function ReplayOne<A, G, H(==), M>(m: Machine<A, G, H, M>, s: State<A, G>, rec: Record<H, M>): Option<(Row, State<A, G>)> {
    var drawn := m.draw(s.rng, rec.size, |rec.indices|);
    if drawn.None? || !m.readable(rec.indices) then None else
    var done := m.update(s.agent, rec.kind == Critic, rec.indices);
    if done.None? then None else
    var row := Row(drawn.value.0 == rec.indices, m.fingerprint(s.agent) == rec.before,
                   m.fingerprint(done.value.0) == rec.after, m.close(rec.metrics, done.value.1));
    Some((row, State(done.value.0, drawn.value.1)))
  }

  /** All comparison rows and the states before, between and after the updates. */
  datatype Run<!A, !G> = Run(rows: seq<Row>, states: seq<State<A, G>>)

  function ReplayAll<A, G, H(==), M>(m: Machine<A, G, H, M>, s: State<A, G>, journal: seq<Record<H,
      M>>): (r: Option<Run<A, G>>)
    ensures r.Some? ==> |r.value.rows| == |journal| && |r.value.states| == |journal| + 1 && r.value.states[0] == s
  {
    if journal == [] then Some(Run([], [s])) else
    var before := ReplayAll(m, s, journal[..|journal| - 1]);
    if before.None? then None else
    var last := ReplayOne(m, before.value.states[|journal| - 1], journal[|journal| - 1]);
    if last.None? then None
    else Some(Run(before.value.rows + [last.value.0], before.value.states + [last.value.1]))
  }

  // ----- The script

  datatype Verdict<!H, !M> = Verdict(exact: bool, firstDivergence: Option<nat>, rows: seq<Row>)

  /** The restored agent and sampler, mutated by every replayed record. */
  class Session<A, G, H(==), M> {
    const m: Machine<A, G, H, M>
    var agent: A
    var rng: G

    constructor (m: Machine<A, G, H, M>, checkpoint: State<A, G>)
      ensures this.m == m && Contents() == checkpoint
    {
      this.m := m;
      agent, rng := checkpoint.agent, checkpoint.rng;
    }

    ghost function Contents(): State<A, G>
      reads this
    {
      State(agent, rng)
    }

    /** randint: draws and moves the generator on, unless it raises. */
    method Draw(size: int, count: nat) returns (indices: Option<seq<int>>)
      modifies this
      ensures agent == old(agent)
      ensures var d := m.draw(old(rng), size, count);
              if d.None? then indices == None && rng == old(rng)
              else indices == Some(d.value.0) && rng == d.value.1
    {
      var d := m.draw(rng, size, count);
      if d.None? {
        return None;
      }
      rng := d.value.1;
      indices := Some(d.value.0);
    }

    method Update(critic: bool, indices: seq<int>) returns (metrics: Option<M>)
      modifies this
      ensures rng == old(rng)
      ensures var u := m.update(old(agent), critic, indices);
              if u.None? then metrics == None && agent == old(agent)
              else metrics == Some(u.value.1) && agent == u.value.0
    {
      var u := m.update(agent, critic, indices);
      if u.None? {
        return None;
      }
      agent := u.value.0;
      metrics := Some(u.value.1);
    }

    /** Replay one record and compare it. */
    method ReplayRecord(rec: Record<H, M>) returns (row: Option<Row>)
      modifies this
      ensures row.None? <==> ReplayOne(m, old(Contents()), rec).None?
      ensures row.Some? ==> ReplayOne(m, old(Contents()), rec) == Some((row.value, Contents()))
      ensures var drawn := m.draw(old(rng), rec.size, |rec.indices|);
              var done := m.update(old(agent), rec.kind == Critic, rec.indices);
              && (row.Some? <==> drawn.Some? && m.readable(rec.indices) && done.Some?)
              && (row.Some? ==>
                    && (row.value.batch <==> drawn.value.0 == rec.indices)
                    && (row.value.before <==> m.fingerprint(old(agent)) == rec.before)
                    && (row.value.after <==> m.fingerprint(agent) == rec.after)
                    && (row.value.metrics <==> m.close(rec.metrics, done.value.1))
                    && agent == done.value.0 && rng == drawn.value.1)
    {
      var expected := Draw(rec.size, |rec.indices|);
      if expected.None? {
        return None;
      }
      var batchMatch := expected.value == rec.indices;
      if !m.readable(rec.indices) {
        return None;
      }
      var beforeMatch := m.fingerprint(agent) == rec.before;
      var metrics := Update(rec.kind == Critic, rec.indices);
      if metrics.None? {
        return None;
      }
      var afterMatch := m.fingerprint(agent) == rec.after;
      row := Some(Row(batchMatch, beforeMatch, afterMatch, m.close(rec.metrics, metrics.value)));
    }

    /** The replay loop. None when an exception leaves it. */
    method Replay(journal: seq<Record<H, M>>) returns (v: Option<Verdict<H, M>>)
      modifies this
      ensures v.Some? <==> ReplayAll(m, old(Contents()), journal).Some?
      ensures v.Some? ==>
        var run := ReplayAll(m, old(Contents()), journal).value;
        && v.value.rows == run.rows && Contents() == run.states[|journal|]
        && (v.value.exact <==> forall i :: 0 <= i < |journal| ==> Exact(run.rows[i]))
        && (v.value.firstDivergence.None? <==> v.value.exact)
        && (v.value.firstDivergence.Some? ==> FirstInexact(run.rows, v.value.firstDivergence.value))
    {
      hide ReplayOne, ReplayAll, AllExact, FirstInexact;
      var rows: seq<Row>, first: Option<nat>, exact := [], None, true;
      ghost var start := Contents();
      ReplayNone(m, start);
      NoRows();
      assert journal[..0] == [];
      for i := 0 to |journal|
        invariant ReplayAll(m, start, journal[..i]).Some? && |rows| == i
        invariant rows == ReplayAll(m, start, journal[..i]).value.rows
        invariant Contents() == ReplayAll(m, start, journal[..i]).value.states[i]
        invariant exact <==> AllExact(rows)
        invariant if first.None? then exact else FirstInexact(rows, first.value)
      {
        ReplayNext(m, start, journal, i);
        var row := ReplayRecord(journal[i]);
        if row.None? {
          ReplayFails(m, start, journal, i + 1);
          return None;
        }
        RowAppended(rows, row.value, first);
        rows := rows + [row.value];
        if !row.value.batch {
          exact := false;
        }
        if !(row.value.batch && row.value.before && row.value.after && row.value.metrics) {
          exact := false;
          if first.None? {
            first := Some(i);
          }
        }
      }
      assert journal[..|journal|] == journal;
      ExactOrNot(rows, first);
      v := Some(Verdict(exact, first, rows));
    }
  }

  ghost predicate AllExact(rows: seq<Row>) {
    forall i :: 0 <= i < |rows| ==> Exact(rows[i])
  }

  lemma NoRows()
    ensures AllExact([])
  {
  }

  /** One row more leaves the first divergence where it is, or is the first one itself. */
  lemma RowAppended(rows: seq<Row>, row: Row, first: Option<nat>)
    ensures AllExact(rows + [row]) <==> AllExact(rows) && Exact(row)
    ensures first.Some? && FirstInexact(rows, first.value) ==> FirstInexact(rows + [row], first.value) && !AllExact(rows)
    ensures AllExact(rows) && !Exact(row) ==> FirstInexact(rows + [row], |rows|)
  {
    assert forall i :: 0 <= i < |rows| ==> (rows + [row])[i] == rows[i];
    assert (rows + [row])[|rows|] == row;
  }

  lemma ExactOrNot(rows: seq<Row>, first: Option<nat>)
    ensures AllExact(rows) <==> forall i :: 0 <= i < |rows| ==> Exact(rows[i])
    ensures first.Some? && FirstInexact(rows, first.value) ==> !AllExact(rows)
  {
  }

  /** d is the earliest row that does not match. */
  ghost predicate FirstInexact(rows: seq<Row>, d: nat) {
    d < |rows| && !Exact(rows[d]) && forall i :: 0 <= i < d ==> Exact(rows[i])
  }

  lemma {:induction false} ReplayNone<A, G, H, M>(m: Machine<A, G, H, M>, s: State<A, G>)
    ensures ReplayAll(m, s, []) == Some(Run([], [s]))
  {
  }

  /** One more record extends the run by one row and one state. */
  lemma {:induction false} ReplayNext<A, G, H, M>(m: Machine<A, G, H, M>, s: State<A, G>,
      journal: seq<Record<H, M>>, i: nat)
    requires i < |journal| && ReplayAll(m, s, journal[..i]).Some?
    ensures var run := ReplayAll(m, s, journal[..i]).value;
            var one := ReplayOne(m, run.states[i], journal[i]);
            ReplayAll(m, s, journal[..i + 1]) ==
              (if one.None? then None else Some(Run(run.rows + [one.value.0], run.states + [one.value.1])))
  {
    assert journal[..i + 1][..i] == journal[..i];
  }

  lemma {:induction false} ReplayFails<A, G, H, M>(m: Machine<A, G, H, M>, s: State<A, G>,
      journal: seq<Record<H, M>>, k: nat)
    requires k <= |journal| && ReplayAll(m, s, journal[..k]).None?
    ensures ReplayAll(m, s, journal).None?
    decreases |journal|
  {
    if k < |journal| {
      assert journal[..|journal| - 1][..k] == journal[..k];
      ReplayFails(m, s, journal[..|journal| - 1], k);
    } else {
      assert journal[..k] == journal;
    }
  }

  // ----- The trainer that wrote the journal

  /** An update the trainer decides on: critic or actor proposal, replay size and batch size. */
  datatype Work = Work(critic: bool, size: int, count: nat)

  /** The checkpoint's counters of critic updates and of actor proposals. */
  datatype Counters = Counters(critics: nat, proposals: nat)

  /** How many of the updates are critic updates, or actor proposals. */
  function Tally(works: seq<Work>, critic: bool): nat {
    if works == [] then 0
    else Tally(works[..|works| - 1], critic) + (if works[|works| - 1].critic == critic then 1 else 0)
  }

  function UpdateIndex(start: Counters, works: seq<Work>, critic: bool): nat {
    (if critic then start.critics else start.proposals) + Tally(works, critic)
  }

  datatype History<!A, !G, !H, !M> = History(journal: seq<Record<H, M>>, states: seq<State<A, G>>)

  /**
   Train from a checkpoint and journal every update with fingerprints and metrics. A rejected
   proposal is journalled and then stops the run.
   */
  function Train<A, G, H, M>(m: Machine<A, G, H, M>, start: Counters, s: State<A, G>,
      works: seq<Work>): (h: Option<History<A, G, H, M>>)
    ensures h.Some? ==> |h.value.journal| == |works| && |h.value.states| == |works| + 1
  {
    if works == [] then Some(History([], [s])) else
    var before := Train(m, start, s, works[..|works| - 1]);
    if before.None? || Stopped(before.value.journal) then None else
    var w, now := works[|works| - 1], before.value.states[|works| - 1];
    var drawn := m.draw(now.rng, w.size, w.count);
    if drawn.None? || !m.readable(drawn.value.0) then None else
    var done := m.update(now.agent, w.critic, drawn.value.0);
    if done.None? then None else
    var kind := if w.critic then Critic else if m.accepted(done.value.1) then Actor else ActorRejected;
    var rec := Record(drawn.value.0, w.size, kind, UpdateIndex(start, works, w.critic), m.fingerprint(now.agent),
                      m.fingerprint(done.value.0), done.value.1);
    Some(History(before.value.journal + [rec], before.value.states + [State(done.value.0, drawn.value.1)]))
  }

  /** The run ended with a rejected proposal. */
  predicate Stopped<H, M>(journal: seq<Record<H, M>>) {
    journal != [] && journal[|journal| - 1].kind == ActorRejected
  }

  ghost predicate Injective<A(!new), H>(f: A -> H) {
    forall x, y :: f(x) == f(y) ==> x == y
  }

  /** Drawing `count` indices yields that many. */
  ghost predicate DrawsCount<G(!new)>(draw: (G, int, nat) -> Option<(seq<int>, G)>) {
    forall g, size, count :: draw(g, size, count).Some? ==> |draw(g, size, count).value.0| == count
  }

  /** A trainer t and a replayer r that share sampler, buffer and fingerprints, but not necessarily updates. */
  ghost predicate SameSampling<A, G(!new), H, M>(t: Machine<A, G, H, M>, r: Machine<A, G, H, M>) {
    r.draw == t.draw && r.readable == t.readable && r.fingerprint == t.fingerprint && DrawsCount(t.draw)
  }

  /** What the journal says about update i, and what the trainer did there. */
  lemma {:induction false} TrainedStep<A, G(!new), H, M>(t: Machine<A, G, H, M>, start: Counters, s: State<A, G>,
      works: seq<Work>, i: nat)
    requires DrawsCount(t.draw) && Train(t, start, s, works).Some? && i < |works|
    ensures var h, w := Train(t, start, s, works).value, works[i];
            var rec, now, next := h.journal[i], h.states[i], h.states[i + 1];
            && h.states[0] == s
            && t.draw(now.rng, rec.size, |rec.indices|) == Some((rec.indices, next.rng)) && t.readable(rec.indices)
            && t.update(now.agent, w.critic, rec.indices) == Some((next.agent, rec.metrics))
            && (rec.kind == Critic <==> w.critic) && (IsProposal(rec) <==> !w.critic)
            && (rec.kind == Actor <==> !w.critic && t.accepted(rec.metrics))
            && rec.size == w.size && |rec.indices| == w.count
            && rec.before == t.fingerprint(now.agent) && rec.after == t.fingerprint(next.agent)
  {
    var n := |works| - 1;
    if i < n {
      TrainedStep(t, start, s, works[..n], i);
    } else {
      var front := Train(t, start, s, works[..n]).value;
      if n > 0 {
        TrainedStep(t, start, s, works[..n], 0);
      }
      DrawLength(t, front.states[n].rng, works[n].size, works[n].count);
    }
  }

  lemma DrawLength<A, G(!new), H, M>(t: Machine<A, G, H, M>, g: G, size: int, count: nat)
    requires DrawsCount(t.draw) && t.draw(g, size, count).Some?
    ensures |t.draw(g, size, count).value.0| == count
  {
  }

  lemma {:induction false} TrainedFront<A, G, H, M>(t: Machine<A, G, H, M>, start: Counters, s: State<A, G>,
      works: seq<Work>)
    requires works != [] && Train(t, start, s, works).Some?
    ensures var n := |works| - 1;
            var front, h := Train(t, start, s, works[..n]), Train(t, start, s, works).value;
            front.Some? && h.journal[..n] == front.value.journal && h.states[..n + 1] == front.value.states
  {
  }

  /** What a further update adds to a run. */
  lemma {:induction false} TrainNext<A, G, H, M>(t: Machine<A, G, H, M>, start: Counters, s: State<A, G>,
      works: seq<Work>)
    requires works != [] && Train(t, start, s, works[..|works| - 1]).Some?
    requires !Stopped(Train(t, start, s, works[..|works| - 1]).value.journal)
    requires var n, w := |works| - 1, works[|works| - 1];
             var now := Train(t, start, s, works[..n]).value.states[n];
             var drawn := t.draw(now.rng, w.size, w.count);
             drawn.Some? && t.readable(drawn.value.0) && t.update(now.agent, w.critic, drawn.value.0).Some?
    ensures var n, w := |works| - 1, works[|works| - 1];
            var front, h := Train(t, start, s, works[..n]).value, Train(t, start, s, works);
            var now := front.states[n];
            var drawn := t.draw(now.rng, w.size, w.count).value;
            var done := t.update(now.agent, w.critic, drawn.0).value;
            && h.Some? && h.value.states == front.states + [State(done.0, drawn.1)]
            && |h.value.journal| == n + 1 && h.value.journal[..n] == front.journal
            && var rec := h.value.journal[n];
               && rec.indices == drawn.0 && rec.size == w.size && rec.updateIndex == UpdateIndex(start, works, w.critic)
               && rec.kind == if w.critic then Critic else if t.accepted(done.1) then Actor else ActorRejected
  {
  }

  lemma TakeTake<T>(a: seq<T>, n: nat, k: nat)
    requires k <= n <= |a|
    ensures a[..n][..k] == a[..k]
  {
  }

  /** The first k updates of a run are a run. */
  lemma {:induction false} TrainedPrefix<A, G, H, M>(t: Machine<A, G, H, M>, start: Counters, s: State<A, G>,
      works: seq<Work>, k: nat)
    requires Train(t, start, s, works).Some? && k <= |works|
    ensures var front, h := Train(t, start, s, works[..k]), Train(t, start, s, works).value;
            front.Some? && front.value.journal == h.journal[..k] && front.value.states == h.states[..k + 1]
    decreases |works|
  {
    if k == |works| {
      assert works[..k] == works;
    } else {
      var n := |works| - 1;
      TrainedFront(t, start, s, works);
      hide *;
      TrainedPrefix(t, start, s, works[..n], k);
      var h := Train(t, start, s, works).value;
      TakeTake(works, n, k);
      TakeTake(h.journal, n, k);
      TakeTake(h.states, n + 1, k + 1);
    }
  }

  /** The replayer's update ends in the trainer's agent. */
  ghost predicate RepeatsAgent<A, G, H, M>(t: Machine<A, G, H, M>, r: Machine<A, G, H, M>, a: A, critic: bool,
      indices: seq<int>)
  {
    var there, here := t.update(a, critic, indices), r.update(a, critic, indices);
    there.Some? && here.Some? && here.value.0 == there.value.0
  }

  /** The replayer's update ends in the trainer's agent and its metrics agree with the journalled ones. */
  ghost predicate Repeats<A, G, H, M>(t: Machine<A, G, H, M>, r: Machine<A, G, H, M>, a: A, critic: bool,
      indices: seq<int>)
  {
    && RepeatsAgent(t, r, a, critic, indices)
    && r.close(t.update(a, critic, indices).value.1, r.update(a, critic, indices).value.1)
  }

  ghost predicate AllRepeat<A, G, H, M>(t: Machine<A, G, H, M>, r: Machine<A, G, H, M>, h: History<A, G, H, M>,
      works: seq<Work>)
    requires |h.journal| == |works| && |h.states| == |works| + 1
  {
    forall i :: 0 <= i < |works| ==> Repeats(t, r, h.states[i].agent, works[i].critic, h.journal[i].indices)
  }

  ghost predicate ReplaysExactly<A, G, H, M>(r: Machine<A, G, H, M>, s: State<A, G>, journal: seq<Record<H, M>>) {
    var run := ReplayAll(r, s, journal);
    run.Some? && forall i :: 0 <= i < |journal| ==> Exact(run.value.rows[i])
  }

  lemma FrontRepeats<A, G, H, M>(t: Machine<A, G, H, M>, r: Machine<A, G, H, M>, h: History<A, G, H, M>,
      front: History<A, G, H, M>, works: seq<Work>)
    requires works != [] && |h.journal| == |works| && |h.states| == |works| + 1
    requires h.journal[..|works| - 1] == front.journal && h.states[..|works|] == front.states
    ensures var n := |works| - 1;
            AllRepeat(t, r, h, works) <==>
              AllRepeat(t, r, front, works[..n]) && Repeats(t, r, h.states[n].agent, works[n].critic, h.journal[n].indices)
  {
    hide Repeats;
    var n := |works| - 1;
    assert forall i :: 0 <= i < n ==> h.states[i] == front.states[i] && h.journal[i] == front.journal[i];
    if AllRepeat(t, r, front, works[..n]) && Repeats(t, r, h.states[n].agent, works[n].critic, h.journal[n].indices) {
      forall i | 0 <= i < n ensures Repeats(t, r, h.states[i].agent, works[i].critic, h.journal[i].indices) {
        assert Repeats(t, r, front.states[i].agent, works[..n][i].critic, front.journal[i].indices);
      }
    }
  }

  /** A replayer that repeats every update replays a trained journal exactly, through the very same states. */
  lemma {:induction false} RepeatedReplaysExactly<A, G(!new), H, M>(t: Machine<A, G, H, M>, r: Machine<A, G, H, M>,
      start: Counters, s: State<A, G>, works: seq<Work>)
    requires SameSampling(t, r) && Train(t, start, s, works).Some? && AllRepeat(t, r, Train(t, start, s, works).value, works)
    ensures var h := Train(t, start, s, works).value;
            ReplaysExactly(r, s, h.journal) && ReplayAll(r, s, h.journal).value.states == h.states
  {
    if works == [] {
      assert Train(t, start, s, works).value.journal == [];
    } else {
      var n := |works| - 1;
      var h, front := Train(t, start, s, works).value, Train(t, start, s, works[..n]).value;
      TrainedFront(t, start, s, works);
      TrainedStep(t, start, s, works, n);
      FrontRepeats(t, r, h, front, works);
      hide Train, AllRepeat;
      RepeatedReplaysExactly(t, r, start, s, works[..n]);
      hide ReplayAll;
      OneMoreExact(r, s, h.journal);
    }
  }

  /** An exact record behind an exact replay. */
  lemma {:induction false} OneMoreExact<A, G, H, M>(r: Machine<A, G, H, M>, s: State<A, G>, journal: seq<Record<H, M>>)
    requires journal != [] && ReplaysExactly(r, s, journal[..|journal| - 1])
    requires var n := |journal| - 1;
             var one := ReplayOne(r, ReplayAll(r, s, journal[..n]).value.states[n], journal[n]);
             one.Some? && Exact(one.value.0)
    ensures var n := |journal| - 1;
            && ReplaysExactly(r, s, journal)
            && ReplayAll(r, s, journal).value.states ==
               ReplayAll(r, s, journal[..n]).value.states
               + [ReplayOne(r, ReplayAll(r, s, journal[..n]).value.states[n], journal[n]).value.1]
  {
    hide ReplayOne, Exact;
  }

  /**
   When fingerprints identify agents, a trained journal replays exactly if and only if the
   replayer repeats every single update: its agent, and its metrics up to the tolerance.
   */
  lemma {:induction false} TrainedReplaysExactly<A(!new), G(!new), H, M>(t: Machine<A, G, H, M>, r: Machine<A, G, H, M>,
      start: Counters, s: State<A, G>, works: seq<Work>)
    requires SameSampling(t, r) && Injective(t.fingerprint) && Train(t, start, s, works).Some?
    ensures var h := Train(t, start, s, works).value;
            ReplaysExactly(r, s, h.journal) <==> AllRepeat(t, r, h, works)
  {
    var h := Train(t, start, s, works).value;
    if ReplaysExactly(r, s, h.journal) && works != [] {
      var n := |works| - 1;
      var front := Train(t, start, s, works[..n]).value;
      TrainedFront(t, start, s, works);
      TrainedStep(t, start, s, works, n);
      ExactFront(r, s, h.journal);
      TrainedReplaysExactly(t, r, start, s, works[..n]);
      RepeatedReplaysExactly(t, r, start, s, works[..n]);
      FrontRepeats(t, r, h, front, works);
      hide Train, ReplayAll, AllRepeat;
      assert Repeats(t, r, h.states[n].agent, works[n].critic, h.journal[n].indices);
    }
    if AllRepeat(t, r, h, works) {
      RepeatedReplaysExactly(t, r, start, s, works);
    }
  }

  /** An exact replay is exact on all but the last record, and on the last one. */
  lemma {:induction false} ExactFront<A, G, H, M>(r: Machine<A, G, H, M>, s: State<A, G>, journal: seq<Record<H, M>>)
    requires journal != [] && ReplaysExactly(r, s, journal)
    ensures var n := |journal| - 1;
            && ReplaysExactly(r, s, journal[..n])
            && var one := ReplayOne(r, ReplayAll(r, s, journal[..n]).value.states[n], journal[n]);
               one.Some? && Exact(one.value.0)
  {
    var n := |journal| - 1;
    var front, run := ReplayAll(r, s, journal[..n]), ReplayAll(r, s, journal).value;
    assert run.rows[..n] == front.value.rows;
    forall i | 0 <= i < n ensures Exact(front.value.rows[i]) {
      assert front.value.rows[i] == run.rows[i];
    }
    assert Exact(run.rows[n]);
  }

  predicate IsProposal<H, M>(rec: Record<H, M>) {
    rec.kind == Actor || rec.kind == ActorRejected
  }

  function Proposals<H, M>(journal: seq<Record<H, M>>): nat {
    if journal == [] then 0
    else Proposals(journal[..|journal| - 1]) + (if IsProposal(journal[|journal| - 1]) then 1 else 0)
  }

  /** Accepted and rejected proposals share one consecutive numbering that starts after `base`. */
  ghost predicate Numbered<H, M>(journal: seq<Record<H, M>>, base: nat) {
    forall i :: 0 <= i < |journal| ==> NumberedAt(journal, base, i)
  }

  ghost predicate NumberedAt<H, M>(journal: seq<Record<H, M>>, base: nat, i: nat)
    requires i < |journal|
  {
    IsProposal(journal[i]) ==> journal[i].updateIndex == base + Proposals(journal[..i + 1])
  }

  lemma {:induction false} TrainExtends<A, G, H, M>(m: Machine<A, G, H, M>, start: Counters, s: State<A, G>,
      works: seq<Work>)
    requires works != [] && Train(m, start, s, works).Some?
    ensures var n := |works| - 1;
            var before, journal := Train(m, start, s, works[..n]), Train(m, start, s, works).value.journal;
            && before.Some? && !Stopped(before.value.journal) && journal[..n] == before.value.journal
            && (IsProposal(journal[n]) <==> !works[n].critic)
            && journal[n].updateIndex == UpdateIndex(start, works, works[n].critic)
  {
  }

  lemma NumberedStays<H, M>(front: seq<Record<H, M>>, journal: seq<Record<H, M>>, base: nat, i: nat)
    requires i < |front| && front <= journal && NumberedAt(front, base, i)
    ensures NumberedAt(journal, base, i)
  {
    assert journal[..i + 1] == front[..i + 1];
  }

  lemma {:induction false} NumberedNext<H, M>(front: seq<Record<H, M>>, journal: seq<Record<H, M>>, base: nat)
    requires |journal| == |front| + 1 && front <= journal && Numbered(front, base)
    requires IsProposal(journal[|front|]) ==> journal[|front|].updateIndex == base + Proposals(journal)
    ensures Numbered(journal, base)
  {
    assert journal[..|front| + 1] == journal;
    hide IsProposal, Proposals;
    assert NumberedAt(journal, base, |front|);
    hide NumberedAt;
    forall i | 0 <= i < |front| ensures NumberedAt(journal, base, i) {
      NumberedStays(front, journal, base, i);
    }
  }

  /** The trainer numbers its proposals consecutively, and only its last record can be a rejection. */
  lemma {:induction false} TrainedNumbered<A, G, H, M>(m: Machine<A, G, H, M>, start: Counters, s: State<A, G>,
      works: seq<Work>)
    requires Train(m, start, s, works).Some?
    ensures var journal := Train(m, start, s, works).value.journal;
            && Numbered(journal, start.proposals)
            && Proposals(journal) == Tally(works, false)
            && forall i :: 0 <= i < |journal| - 1 ==> journal[i].kind != ActorRejected
  {
    if works != [] {
      var n := |works| - 1;
      TrainedNumbered(m, start, s, works[..n]);
      TrainExtends(m, start, s, works);
      hide Train, Numbered;
      var journal := Train(m, start, s, works).value.journal;
      NumberedNext(journal[..n], journal, start.proposals);
      assert forall i :: 0 <= i < n - 1 ==> journal[i] == journal[..n][i];
      assert n > 0 ==> journal[n - 1] == journal[..n][n - 1];
    }
  }

  /** Replaying a prefix gives the prefix of the run. */
  lemma {:induction false} ReplayPrefix<A, G, H, M>(m: Machine<A, G, H, M>, s: State<A, G>,
      journal: seq<Record<H, M>>, k: nat)
    requires k <= |journal| && ReplayAll(m, s, journal).Some?
    ensures var r := ReplayAll(m, s, journal[..k]);
            && r.Some? && r.value.rows == ReplayAll(m, s, journal).value.rows[..k]
            && r.value.states == ReplayAll(m, s, journal).value.states[..k + 1]
    decreases |journal|
  {
    if k == |journal| {
      assert journal[..k] == journal;
    } else {
      ReplayPrefix(m, s, journal[..|journal| - 1], k);
      assert journal[..|journal| - 1][..k] == journal[..k];
    }
  }

  /**
   A trained journal cut at any byte reads back as the records that were completely written. These
   replay exactly, for a replayer that repeats every update.
   */
  lemma {:induction false} CutJournalReplaysExactly<A(!new), G(!new), H(!new), M(!new)>(
      t: Machine<A, G, H, M>, r: Machine<A, G, H, M>, start: Counters, s: State<A, G>, works: seq<Work>,
      codec: JournalFile.Codec<Record<H, M>>, k: nat)
    requires SameSampling(t, r) && Train(t, start, s, works).Some? && AllRepeat(t, r, Train(t, start, s, works).value, works)
    requires forall i :: 0 <= i < |works| ==> JournalFile.Encodes(codec, Train(t, start, s, works).value.journal[i])
    requires k <= |JournalFile.Encoded(codec, Train(t, start, s, works).value.journal)|
    ensures var journal := Train(t, start, s, works).value.journal;
            var read := JournalFile.Parsed(codec, JournalFile.Lines(JournalFile.Encoded(codec, journal)[..k]));
            read == journal[..JournalFile.Committed(codec, journal, k)] && ReplaysExactly(r, s, read)
  {
    var journal := Train(t, start, s, works).value.journal;
    RepeatedReplaysExactly(t, r, start, s, works);
    JournalFile.CutReadsPrefix(codec, journal, k);
    hide Train, ReplayAll, SameSampling, AllRepeat;
    ReplayPrefix(r, s, journal, JournalFile.Committed(codec, journal, k));
  }

  /** The recorded fingerprints are those of the agents a, one before and one after each record. */
  ghost predicate Witnesses<A, G, H, M>(m: Machine<A, G, H, M>, journal: seq<Record<H, M>>, a: seq<A>) {
    && |a| == |journal| + 1
    && forall i :: 0 <= i < |journal| ==>
         journal[i].before == m.fingerprint(a[i]) && journal[i].after == m.fingerprint(a[i + 1])
  }

  lemma {:induction false} RowsAgainstStates<A, G, H, M>(m: Machine<A, G, H, M>, s: State<A, G>,
      journal: seq<Record<H, M>>, i: nat)
    requires ReplayAll(m, s, journal).Some? && i < |journal|
    ensures var r := ReplayAll(m, s, journal).value;
            ReplayOne(m, r.states[i], journal[i]) == Some((r.rows[i], r.states[i + 1]))
    decreases |journal|
  {
    if i < |journal| - 1 {
      RowsAgainstStates(m, s, journal[..|journal| - 1], i);
    }
  }

  /**
   Soundness: when the replay is exact and fingerprints identify agents, the agents behind the
   journal are exactly the replayed ones, and the recorded batches are the sampler's own draws.
   */
  lemma {:induction false} ExactMeansSameRun<A(!new), G, H, M>(m: Machine<A, G, H, M>, s: State<A, G>,
      journal: seq<Record<H, M>>, a: seq<A>)
    requires Injective(m.fingerprint) && ReplayAll(m, s, journal).Some? && journal != []
    requires forall i :: 0 <= i < |journal| ==> Exact(ReplayAll(m, s, journal).value.rows[i])
    requires Witnesses(m, journal, a)
    ensures var states := ReplayAll(m, s, journal).value.states;
            && (forall i :: 0 <= i < |a| ==> a[i] == states[i].agent)
            && (forall i :: 0 <= i < |journal| ==>
                  m.draw(states[i].rng, journal[i].size, |journal[i].indices|) == Some((journal[i].indices, states[i + 1].rng)))
  {
    forall i | 0 <= i < |a| ensures a[i] == ReplayAll(m, s, journal).value.states[i].agent {
      ExactAt(m, s, journal, a, if i < |journal| then i else i - 1);
    }
    forall i | 0 <= i < |journal|
      ensures m.draw(ReplayAll(m, s, journal).value.states[i].rng, journal[i].size, |journal[i].indices|) ==
              Some((journal[i].indices, ReplayAll(m, s, journal).value.states[i + 1].rng))
    {
      ExactAt(m, s, journal, a, i);
    }
  }

  lemma {:induction false} ExactAt<A(!new), G, H, M>(m: Machine<A, G, H, M>, s: State<A, G>,
      journal: seq<Record<H, M>>, a: seq<A>, i: nat)
    requires Injective(m.fingerprint) && ReplayAll(m, s, journal).Some? && i < |journal|
    requires Exact(ReplayAll(m, s, journal).value.rows[i]) && Witnesses(m, journal, a)
    ensures var states := ReplayAll(m, s, journal).value.states;
            && a[i] == states[i].agent && a[i + 1] == states[i + 1].agent
            && m.draw(states[i].rng, journal[i].size, |journal[i].indices|) == Some((journal[i].indices, states[i + 1].rng))
  {
    RowsAgainstStates(m, s, journal, i);
  }
}
