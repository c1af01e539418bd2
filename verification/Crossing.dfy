/**
 The replayed KL trajectory over accepted actor updates, the crossing noticed while replaying,
 the crossing found afterwards by scanning, and the payload captured for it.
 */
module Crossing {
  import opened Basics
  import opened Replay
  import opened Capture
  import opened CaptureLaws

  const LIMIT := 1.0

  /** One trajectory row: accepted-update step, the journal record behind it, and the probe KL. */
  datatype Point = Point(step: nat, record: Option<nat>, kl: real)

  /** The context kept of the first upward crossing seen while replaying. */
  datatype Candidate<!A> = Candidate(step: nat, record: nat, before: A, klBefore: real, klAfter: real)

  datatype Comparison = Comparison(batch: bool, before: bool, after: bool)

  datatype Audit<!A> =
    | Report(comparison: seq<Comparison>, trajectory: seq<Point>, candidate: Option<Candidate<A>>, accepted: nat)
    | NoProposal
    | Aborted

  function Accepted<H, M>(journal: seq<Record<H, M>>): nat {
    if journal == [] then 0
    else Accepted(journal[..|journal| - 1]) + (if journal[|journal| - 1].kind == Actor then 1 else 0)
  }

  /**
   The trajectory of the first n records, given the replayed states: the KL before the first
   proposal, then the KL after each accepted one.
   */
  ghost function Trajectory<A, G, H, M>(kl: A -> real, states: seq<State<A, G>>, journal: seq<Record<H, M>>,
      n: nat): seq<Point>
    requires n <= |journal| && n < |states|
  {
    if n == 0 then [] else
    var front, rec := Trajectory(kl, states, journal, n - 1), journal[n - 1];
    var started := if front == [] && IsProposal(rec) then [Point(0, None, kl(states[n - 1].agent))] else front;
    if rec.kind == Actor then started + [Point(|started|, Some(n - 1), kl(states[n].agent))] else started
  }

  predicate Upward(t: seq<Point>, k: nat) {
    0 < k < |t| && t[k - 1].kl < LIMIT <= t[k].kl
  }

  /** The candidate is the first upward crossing, with the agent just before its update. */
  ghost predicate IsCandidate<A, G>(c: Option<Candidate<A>>, t: seq<Point>, states: seq<State<A, G>>) {
    if c.None? then forall k :: !Upward(t, k)
    else
      var k := c.value.step;
      && Upward(t, k) && (forall j :: 0 <= j < k ==> !Upward(t, j))
      && t[k].record == Some(c.value.record) && c.value.record < |states|
      && c.value.before == states[c.value.record].agent
      && c.value.klBefore == t[k - 1].kl && c.value.klAfter == t[k].kl
  }

  ghost predicate Compares(comparison: seq<Comparison>, rows: seq<Row>) {
    && |comparison| == |rows|
    && forall i :: 0 <= i < |rows| ==>
         comparison[i].batch == rows[i].batch && comparison[i].before == rows[i].before && comparison[i].after == rows[i].after
  }

  function Compared(r: Row): Comparison {
    Comparison(r.batch, r.before, r.after)
  }

  /** What the trajectory is: one row more than accepted updates, numbered from 0, each from its own record. */
  ghost predicate Shape<A, G, H, M>(kl: A -> real, states: seq<State<A, G>>, journal: seq<Record<H, M>>, n: nat,
      t: seq<Point>)
    requires n <= |journal| && n < |states|
  {
    && (t == [] <==> forall i :: 0 <= i < n ==> !IsProposal(journal[i]))
    && (t == [] ==> Accepted(journal[..n]) == 0)
    && (t != [] ==>
          && |t| == Accepted(journal[..n]) + 1
          && t[0].step == 0 && t[0].record == None && Opens(kl, states, journal, n, t[0].kl))
    && forall k :: 0 < k < |t| ==> t[k].step == k && Follows(kl, states, journal, n, k, t[k])
  }

  /** The value before the first proposal. */
  ghost predicate Opens<A, G, H, M>(kl: A -> real, states: seq<State<A, G>>, journal: seq<Record<H, M>>, n: nat, value: real)
    requires n <= |journal| && n < |states|
  {
    exists i :: 0 <= i < n && IsProposal(journal[i]) && (forall j :: 0 <= j < i ==> !IsProposal(journal[j])) &&
                value == kl(states[i].agent)
  }

  /** p describes the k-th accepted record. */
  ghost predicate Follows<A, G, H, M>(kl: A -> real, states: seq<State<A, G>>, journal: seq<Record<H, M>>,
      n: nat, k: nat, p: Point)
    requires n <= |journal| && n < |states|
  {
    && p.record.Some? && p.record.value < n
    && journal[p.record.value].kind == Actor
    && Accepted(journal[..p.record.value + 1]) == k
    && p.kl == kl(states[p.record.value + 1].agent)
  }

  lemma {:induction false} TrajectoryShape<A, G, H, M>(kl: A -> real, states: seq<State<A, G>>,
      journal: seq<Record<H, M>>, n: nat)
    requires n <= |journal| && n < |states|
    ensures Shape(kl, states, journal, n, Trajectory(kl, states, journal, n))
  {
    TrajectorySize(kl, states, journal, n);
    hide Trajectory, Accepted, Opens, Follows, IsProposal;
    var t := Trajectory(kl, states, journal, n);
    if t != [] {
      TrajectoryStart(kl, states, journal, n);
    }
    forall k | 0 < k < |t| ensures t[k].step == k && Follows(kl, states, journal, n, k, t[k]) {
      TrajectoryRow(kl, states, journal, n, k);
    }
  }

  lemma {:induction false} TrajectorySize<A, G, H, M>(kl: A -> real, states: seq<State<A, G>>,
      journal: seq<Record<H, M>>, n: nat)
    requires n <= |journal| && n < |states|
    ensures var t := Trajectory(kl, states, journal, n);
            && (t == [] <==> forall i :: 0 <= i < n ==> !IsProposal(journal[i]))
            && Accepted(journal[..n]) == if t == [] then 0 else |t| - 1
  {
    if n > 0 {
      TrajectorySize(kl, states, journal, n - 1);
      AcceptedNext(journal, n - 1);
      hide Accepted;
    }
  }

  lemma {:induction false} TrajectoryStart<A, G, H, M>(kl: A -> real, states: seq<State<A, G>>,
      journal: seq<Record<H, M>>, n: nat)
    requires n <= |journal| && n < |states| && Trajectory(kl, states, journal, n) != []
    ensures var p := Trajectory(kl, states, journal, n)[0]; p.step == 0 && p.record == None && Opens(kl, states, journal, n, p.kl)
  {
    TrajectorySize(kl, states, journal, n - 1);
    OpensNext(kl, states, journal, n);
    if Trajectory(kl, states, journal, n - 1) != [] {
      TrajectoryStart(kl, states, journal, n - 1);
    }
    hide Opens, Accepted;
  }

  lemma {:induction false} TrajectoryRow<A, G, H, M>(kl: A -> real, states: seq<State<A, G>>,
      journal: seq<Record<H, M>>, n: nat, k: nat)
    requires n <= |journal| && n < |states| && 0 < k < |Trajectory(kl, states, journal, n)|
    ensures var p := Trajectory(kl, states, journal, n)[k]; p.step == k && Follows(kl, states, journal, n, k, p)
  {
    TrajectorySize(kl, states, journal, n);
    FollowsNext(kl, states, journal, n);
    if k < |Trajectory(kl, states, journal, n - 1)| {
      TrajectoryRow(kl, states, journal, n - 1, k);
    }
    hide Follows, Accepted;
  }

  lemma FollowsNext<A, G, H, M>(kl: A -> real, states: seq<State<A, G>>, journal: seq<Record<H, M>>, n: nat)
    requires 0 < n <= |journal| && n < |states|
    ensures forall k: nat, p :: Follows(kl, states, journal, n - 1, k, p) ==> Follows(kl, states, journal, n, k, p)
    ensures journal[n - 1].kind == Actor ==>
      var k := Accepted(journal[..n]); Follows(kl, states, journal, n, k, Point(k, Some(n - 1), kl(states[n].agent)))
  {
  }

  lemma AcceptedNext<H, M>(journal: seq<Record<H, M>>, i: nat)
    requires i < |journal|
    ensures Accepted(journal[..i + 1]) == Accepted(journal[..i]) + if journal[i].kind == Actor then 1 else 0
  {
    assert journal[..i + 1][..i] == journal[..i];
  }

  lemma OpensNext<A, G, H, M>(kl: A -> real, states: seq<State<A, G>>, journal: seq<Record<H, M>>, n: nat)
    requires 0 < n <= |journal| && n < |states|
    ensures forall v :: Opens(kl, states, journal, n - 1, v) ==> Opens(kl, states, journal, n, v)
    ensures IsProposal(journal[n - 1]) && (forall i :: 0 <= i < n - 1 ==> !IsProposal(journal[i])) ==>
              Opens(kl, states, journal, n, kl(states[n - 1].agent))
  {
  }

  /** Later states do not change an earlier trajectory. */
  lemma {:induction false} TrajectoryStays<A, G, H, M>(kl: A -> real, a: seq<State<A, G>>, b: seq<State<A, G>>,
      journal: seq<Record<H, M>>, n: nat)
    requires n <= |journal| && n < |a| <= |b| && a == b[..|a|]
    ensures Trajectory(kl, a, journal, n) == Trajectory(kl, b, journal, n)
  {
    if n > 0 {
      TrajectoryStays(kl, a, b, journal, n - 1);
      assert a[n - 1] == b[n - 1] && a[n] == b[n];
    }
  }

  lemma ComparesNext(comparison: seq<Comparison>, rows: seq<Row>, row: Row)
    requires Compares(comparison, rows)
    ensures Compares(comparison + [Compared(row)], rows + [row])
  {
  }

  lemma CandidateKeeps<A, G>(c: Option<Candidate<A>>, t: seq<Point>, states: seq<State<A, G>>, more: seq<State<A, G>>)
    requires IsCandidate(c, t, states) && |states| <= |more| && states == more[..|states|]
    ensures IsCandidate(c, t, more)
  {
  }

  /** A trajectory row without predecessor, or not rising across the limit, leaves the candidate as it is. */
  lemma CandidateStays<A, G>(c: Option<Candidate<A>>, t: seq<Point>, states: seq<State<A, G>>, p: Point)
    requires IsCandidate(c, t, states)
    requires c.Some? || t == [] || !(t[|t| - 1].kl < LIMIT <= p.kl)
    ensures IsCandidate(c, t + [p], states)
  {
    var next := t + [p];
    assert forall k :: 0 <= k < |t| ==> next[k] == t[k];
    assert forall k :: 0 <= k < |t| ==> (Upward(next, k) <==> Upward(t, k));
    assert forall k: nat :: Upward(next, k) ==> k <= |t|;
    assert c.None? ==> !Upward(next, |t|);
  }

  /** An accepted row becomes the candidate when it is the first to rise across the limit. */
  lemma CandidateNext<A, G>(c: Option<Candidate<A>>, t: seq<Point>, states: seq<State<A, G>>, i: nat, p: Point)
    requires IsCandidate(c, t, states) && i < |states| && t != [] && p.step == |t| && p.record == Some(i)
    ensures var last := t[|t| - 1].kl;
            IsCandidate(if last < LIMIT && p.kl >= LIMIT && c.None?
                        then Some(Candidate(p.step, i, states[i].agent, last, p.kl)) else c,
                        t + [p], states)
  {
    var next := t + [p];
    if t[|t| - 1].kl < LIMIT <= p.kl && c.None? {
      assert forall k :: 0 <= k < |t| ==> next[k] == t[k];
      assert forall k :: 0 <= k < |t| ==> (Upward(next, k) <==> Upward(t, k));
      assert Upward(next, |t|);
    } else {
      CandidateStays(c, t, states, p);
    }
  }

  // ----- The two scripts

  method ReplayAudit<A, G, H, M>(session: Session<A, G, H, M>, kl: A -> real, journal: seq<Record<H, M>>)
    returns (r: Audit<A>)
    modifies session
    ensures r == Aborted <==> ReplayAll(session.m, old(session.Contents()), journal).None?
    ensures r == NoProposal ==> forall i :: 0 <= i < |journal| ==> !IsProposal(journal[i])
    ensures r.Report? ==>
      var run := ReplayAll(session.m, old(session.Contents()), journal).value;
      && (exists i :: 0 <= i < |journal| && IsProposal(journal[i]))
      && Compares(r.comparison, run.rows)
      && r.trajectory == Trajectory(kl, run.states, journal, |journal|)
      && r.accepted == Accepted(journal)
      && IsCandidate(r.candidate, r.trajectory, run.states)
  {
    hide ReplayOne, ReplayAll, IsCandidate, Compares, Compared, Upward, Shape, Trajectory, Accepted;
    var comparison: seq<Comparison>, trajectory: seq<Point> := [], [];
    var candidate: Option<Candidate<A>>, previous: Option<real>, accepted := None, None, 0;
    ghost var m, start, states := session.m, session.Contents(), [session.Contents()];
    AuditStarts(m, start, kl, journal);
    for i := 0 to |journal|
      invariant ReplayAll(m, start, journal[..i]).Some? && states == ReplayAll(m, start, journal[..i]).value.states
      invariant session.Contents() == states[i]
      invariant Compares(comparison, ReplayAll(m, start, journal[..i]).value.rows)
      invariant trajectory == Trajectory(kl, states, journal, i)
      invariant accepted == if trajectory == [] then 0 else |trajectory| - 1
      invariant IsCandidate(candidate, trajectory, states)
      invariant previous == if trajectory == [] then None else Some(trajectory[|trajectory| - 1].kl)
    {
      ReplayNext(m, start, journal, i);
      var rec, agentBefore := journal[i], session.agent;
      if IsProposal(rec) && previous.None? {
        previous := Some(kl(agentBefore));
        CandidateStays(candidate, trajectory, states, Point(0, None, previous.value));
        trajectory := trajectory + [Point(0, None, previous.value)];
      }
      var row := session.ReplayRecord(rec);
      if row.None? {
        ReplayFails(m, start, journal, i + 1);
        return Aborted;
      }
      ghost var more, rows := states + [session.Contents()], ReplayAll(m, start, journal[..i]).value.rows;
      CandidateKeeps(candidate, trajectory, states, more);
      TrajectoryStays(kl, states, more, journal, i);
      TrajectoryNext(kl, more, journal, i);
      ComparesNext(comparison, rows, row.value);
      states := more;
      comparison := comparison + [Compared(row.value)];
      if rec.kind == Actor {
        accepted := accepted + 1;
        var value := kl(session.agent);
        CandidateNext(candidate, trajectory, states, i, Point(accepted, Some(i), value));
        if previous.value < LIMIT && value >= LIMIT && candidate.None? {
          candidate := Some(Candidate(accepted, i, agentBefore, previous.value, value));
        }
        trajectory := trajectory + [Point(accepted, Some(i), value)];
        previous := Some(value);
      }
    }
    assert journal[..|journal|] == journal;
    AuditEnds(kl, states, journal);
    r := if previous.None? then NoProposal else Report(comparison, trajectory, candidate, accepted);
  }

  lemma {:induction false} AuditStarts<A, G, H, M>(m: Machine<A, G, H, M>, s: State<A, G>, kl: A -> real,
      journal: seq<Record<H, M>>)
    ensures ReplayAll(m, s, journal[..0]) == Some(Run([], [s])) && Compares([], [])
    ensures Trajectory(kl, [s], journal, 0) == []
    ensures IsCandidate<A, G>(None, [], [s])
  {
  }

  lemma TrajectoryNext<A, G, H, M>(kl: A -> real, states: seq<State<A, G>>, journal: seq<Record<H, M>>, i: nat)
    requires i < |journal| && i + 1 < |states|
    ensures var front := Trajectory(kl, states, journal, i);
            var started := if front == [] && IsProposal(journal[i]) then [Point(0, None, kl(states[i].agent))] else front;
            Trajectory(kl, states, journal, i + 1) ==
              if journal[i].kind == Actor then started + [Point(|started|, Some(i), kl(states[i + 1].agent))] else started
  {
  }

  lemma {:induction false} AuditEnds<A, G, H, M>(kl: A -> real, states: seq<State<A, G>>, journal: seq<Record<H, M>>)
    requires |journal| < |states|
    ensures var t := Trajectory(kl, states, journal, |journal|);
            && (t == [] <==> forall i :: 0 <= i < |journal| ==> !IsProposal(journal[i]))
            && Accepted(journal) == if t == [] then 0 else |t| - 1
  {
    assert journal[..|journal|] == journal;
    TrajectoryShape(kl, states, journal, |journal|);
  }

  datatype Scan =
    | NoTrajectory
    | PreExisting(after: real)
    | Found(step: nat, before: real, after: real, record: Option<nat>)
    | NoCrossing

  /** What a scan must report: an empty trajectory, a start at the limit, the first rise, or none. */
  ghost predicate Scans(t: seq<Point>, r: Scan) {
    if t == [] then r == NoTrajectory
    else if t[0].kl >= LIMIT then r == PreExisting(t[0].kl)
    else if r.Found? then exists k: nat :: FirstUpward(t, k) && r == Found(t[k].step, t[k - 1].kl, t[k].kl, t[k].record)
    else r == NoCrossing && forall k: nat :: !Upward(t, k)
  }

  /** Scan a finished trajectory for its first crossing. */
  method FirstCrossing(t: seq<Point>) returns (r: Scan)
    ensures Scans(t, r)
  {
    if t == [] {
      return NoTrajectory;
    }
    var previous := t[0].kl;
    if previous >= LIMIT {
      return PreExisting(previous);
    }
    for k := 1 to |t|
      invariant previous == t[k - 1].kl
      invariant forall j :: 0 <= j < k ==> !Upward(t, j)
    {
      var current := t[k].kl;
      if previous < LIMIT <= current {
        assert FirstUpward(t, k);
        return Found(t[k].step, previous, current, t[k].record);
      }
      previous := current;
    }
    r := NoCrossing;
  }

  ghost predicate FirstUpward(t: seq<Point>, k: nat) {
    Upward(t, k) && forall j :: 0 <= j < k ==> !Upward(t, j)
  }

  // ----- Replay and scan

  /** Starting below the limit, some step up to k rises across it as soon as row k has reached it. */
  lemma {:induction false} RisesBefore(t: seq<Point>, k: nat) returns (j: nat)
    requires k < |t| && t[0].kl < LIMIT <= t[k].kl
    ensures j <= k && Upward(t, j)
  {
    if t[k - 1].kl < LIMIT {
      j := k;
    } else {
      j := RisesBefore(t, k - 1);
    }
  }

  /** From below the limit, the first rise is the first row at or above it, and there is none iff all rows stay below. */
  lemma FirstRiseIsFirstHigh(t: seq<Point>)
    requires t != [] && t[0].kl < LIMIT
    ensures forall k: nat :: FirstUpward(t, k) <==> k < |t| && t[k].kl >= LIMIT && forall j :: 0 <= j < k ==> t[j].kl < LIMIT
    ensures (forall k: nat :: !Upward(t, k)) <==> forall k :: 0 <= k < |t| ==> t[k].kl < LIMIT
  {
    forall k: nat | k < |t| && t[k].kl >= LIMIT ensures exists j: nat :: j <= k && Upward(t, j) {
      var j := RisesBefore(t, k);
    }
  }

  /** Replay and scan name the same step, record and values, or both none. */
  predicate Agree<A>(c: Option<Candidate<A>>, r: Scan) {
    if c.None? then !r.Found?
    else r == Found(c.value.step, c.value.klBefore, c.value.klAfter, Some(c.value.record))
  }

  /** They agree exactly unless the trajectory begins at or above the limit and later rises across it again. */
  lemma CandidateAgreesWithScan<A, G>(t: seq<Point>, states: seq<State<A, G>>, c: Option<Candidate<A>>, r: Scan)
    requires IsCandidate(c, t, states) && Scans(t, r)
    requires forall k :: 0 <= k < |t| ==> t[k].step == k
    ensures Agree(c, r) <==> !(t != [] && t[0].kl >= LIMIT && exists k :: Upward(t, k))
  {
    if c.Some? {
      var k := c.value.step;
      assert FirstUpward(t, k);
      hide Upward;
      assert forall j: nat :: FirstUpward(t, j) ==> j == k;
    }
  }

  /** The trajectory the replay reports has the scan's step numbers, and its candidate is that accepted update. */
  lemma {:induction false} CandidateIsAccepted<A, G, H, M>(kl: A -> real, states: seq<State<A, G>>,
      journal: seq<Record<H, M>>, c: Candidate<A>)
    requires |journal| < |states|
    requires IsCandidate(Some(c), Trajectory(kl, states, journal, |journal|), states)
    ensures var t := Trajectory(kl, states, journal, |journal|); forall k :: 0 <= k < |t| ==> t[k].step == k
    ensures c.record < |journal| && journal[c.record].kind == Actor && Accepted(journal[..c.record + 1]) == c.step
    ensures c.before == states[c.record].agent && c.klAfter == kl(states[c.record + 1].agent)
  {
    TrajectoryShape(kl, states, journal, |journal|);
    hide Trajectory, Accepted;
    var t := Trajectory(kl, states, journal, |journal|);
    assert Follows(kl, states, journal, |journal|, c.step, t[c.step]);
  }

  // ----- The payload of a crossing

  /** Proposals are the accepted and the rejected ones. */
  function Rejected<H, M>(journal: seq<Record<H, M>>): nat {
    if journal == [] then 0
    else Rejected(journal[..|journal| - 1]) + (if journal[|journal| - 1].kind == ActorRejected then 1 else 0)
  }

  lemma {:induction false} ProposalsSplit<H, M>(journal: seq<Record<H, M>>)
    ensures Proposals(journal) == Accepted(journal) + Rejected(journal)
  {
    if journal != [] {
      ProposalsSplit(journal[..|journal| - 1]);
    }
  }

  /**
   The scripts name an accepted update by its accepted step but capture payloads by proposal index. The
   payload captured for the step of accepted record i is that of the record itself exactly when no
   proposal was made before the journal and none was rejected before the record.
   */
  lemma {:induction false} StepPayload<A, G, H, M>(m: Machine<A, G, H, M>, s: State<A, G>,
      journal: seq<Record<H, M>>, base: nat, i: nat, targets: set<int>)
    requires Before(m, s, journal).Ok? && Numbered(journal, base) && ReplayAll(m, s, journal).Some?
    requires i < |journal| && journal[i].kind == Actor && Accepted(journal[..i + 1]) in targets
    ensures var k := Accepted(journal[..i + 1]);
            && journal[i].updateIndex == base + k + Rejected(journal[..i])
            && (Last(journal, k) == i <==> base == 0 && Rejected(journal[..i]) == 0)
            && (base == 0 && Rejected(journal[..i]) == 0 ==>
                  var many := Many(m, s, journal, targets);
                  && many.Ok? && k in many.value
                  && many.value[k] == Captured(ReplayAll(m, s, journal).value.states[i].agent, journal[i].indices))
  {
    ProposalsSplit(journal[..i + 1]);
    assert journal[..i + 1][..i] == journal[..i];
    NumberedDistinct(journal, base);
    assert NumberedAt(journal, base, i);
    hide *;
    var k := Accepted(journal[..i + 1]);
    assert journal[i].updateIndex == base + k + Rejected(journal[..i]);
    if base == 0 && Rejected(journal[..i]) == 0 {
      LastOf(journal, i, k);
      JointCapture(m, s, journal, targets, k);
    } else {
      LastIs(journal, k);
    }
  }

  /** So for the crossing: the payload under its step has its indices and the agent just before it. */
  lemma {:induction false} CrossingPayload<A, G, H, M>(m: Machine<A, G, H, M>, s: State<A, G>, kl: A -> real,
      journal: seq<Record<H, M>>, base: nat, c: Candidate<A>, targets: set<int>)
    requires Before(m, s, journal).Ok? && Numbered(journal, base) && c.step in targets
    requires ReplayAll(m, s, journal).Some?
    requires var states := ReplayAll(m, s, journal).value.states;
             IsCandidate(Some(c), Trajectory(kl, states, journal, |journal|), states)
    ensures c.record < |journal| && journal[c.record].kind == Actor
    ensures journal[c.record].updateIndex == base + c.step + Rejected(journal[..c.record])
    ensures Last(journal, c.step) == c.record <==> base == 0 && Rejected(journal[..c.record]) == 0
    ensures base == 0 && Rejected(journal[..c.record]) == 0 ==>
              var many := Many(m, s, journal, targets);
              many.Ok? && c.step in many.value && many.value[c.step] == Captured(c.before, journal[c.record].indices)
  {
    CandidateIsAccepted(kl, ReplayAll(m, s, journal).value.states, journal, c);
    hide *;
    StepPayload(m, s, journal, base, c.record, targets);
  }

  // ----- The window of the last accepted updates

  /** The positions of the accepted records. */
  function AcceptedRecords<H, M>(journal: seq<Record<H, M>>): (r: seq<nat>)
    ensures |r| == Accepted(journal)
  {
    if journal == [] then []
    else AcceptedRecords(journal[..|journal| - 1]) + (if journal[|journal| - 1].kind == Actor then [|journal| - 1] else [])
  }

  lemma {:induction false} AcceptedRecordAt<H, M>(journal: seq<Record<H, M>>, k: nat)
    requires 0 < k <= Accepted(journal)
    ensures var i := AcceptedRecords(journal)[k - 1];
            i < |journal| && journal[i].kind == Actor && Accepted(journal[..i + 1]) == k
  {
    var front := journal[..|journal| - 1];
    if k <= Accepted(front) {
      AcceptedRecordAt(front, k);
      assert front[..AcceptedRecords(front)[k - 1] + 1] == journal[..AcceptedRecords(front)[k - 1] + 1];
    } else {
      assert journal[..|journal|] == journal;
    }
  }

  /** The first of the last hundred accepted steps. */
  function WindowStart(accepted: nat): nat {
    Max(1, accepted - 99)
  }

  /**
   The window of the last hundred accepted updates, from the payload captured under its first step: it starts
   at the agent that the replay had there under the same condition, and holds all later accepted records.
   */
  lemma {:induction false} WindowPayload<A, G, H, M>(m: Machine<A, G, H, M>, s: State<A, G>,
      journal: seq<Record<H, M>>, base: nat, targets: set<int>)
    requires Before(m, s, journal).Ok? && Numbered(journal, base) && ReplayAll(m, s, journal).Some?
    requires Accepted(journal) > 0 && WindowStart(Accepted(journal)) in targets
    ensures var start := WindowStart(Accepted(journal));
            var window := AcceptedRecords(journal)[start - 1..];
            && |window| == (if Accepted(journal) < 100 then Accepted(journal) else 100)
            && var i := window[0];
               && i < |journal|
               && (Last(journal, start) == i <==> base == 0 && Rejected(journal[..i]) == 0)
               && (base == 0 && Rejected(journal[..i]) == 0 ==>
                     var many := Many(m, s, journal, targets);
                     && many.Ok? && start in many.value
                     && many.value[start] == Captured(ReplayAll(m, s, journal).value.states[i].agent, journal[i].indices))
  {
    var start := WindowStart(Accepted(journal));
    var i := AcceptedRecords(journal)[start - 1];
    assert 0 < start <= Accepted(journal);
    hide ReplayAll, Before, Numbered, Many, Last, Rejected, Accepted, AcceptedRecords;
    AcceptedRecordAt(journal, start);
    StepPayload(m, s, journal, base, i, targets);
  }

  lemma {:induction false} LastIs<H, M>(journal: seq<Record<H, M>>, t: int)
    ensures var i := Last(journal, t); i < |journal| ==> journal[i].updateIndex == t
  {
  }

  /**
   Replaying the journal of a run that the trainer started from scratch, the crossing can always be
   captured under its step, although replay and trainer may reach different agents.
   */
  lemma {:induction false} TrainedCrossing<A, G(!new), H, M>(t: Machine<A, G, H, M>, r: Machine<A, G, H, M>,
      critics: nat,
      s: State<A, G>, works: seq<Work>, kl: A -> real, c: Candidate<A>, targets: set<int>)
    requires SameSampling(t, r) && Train(t, Counters(critics, 0), s, works).Some? && c.step in targets
    requires ReplayAll(r, s, Train(t, Counters(critics, 0), s, works).value.journal).Some?
    requires var journal := Train(t, Counters(critics, 0), s, works).value.journal;
             var states := ReplayAll(r, s, journal).value.states;
             IsCandidate(Some(c), Trajectory(kl, states, journal, |works|), states)
    ensures var journal := Train(t, Counters(critics, 0), s, works).value.journal;
            var many := Many(r, s, journal, targets);
            many.Ok? && c.step in many.value && c.record < |journal| &&
            many.value[c.step] == Captured(c.before, journal[c.record].indices)
  {
    var start := Counters(critics, 0);
    var journal := Train(t, start, s, works).value.journal;
    TrainedBefore(t, r, start, s, works);
    TrainedNumbered(t, start, s, works);
    CandidateIsAccepted(kl, ReplayAll(r, s, journal).value.states, journal, c);
    hide *;
    NoneRejected(journal, c.record);
    CrossingPayload(r, s, kl, journal, 0, c, targets);
  }

  lemma {:induction false} NoneRejected<H, M>(journal: seq<Record<H, M>>, n: nat)
    requires n <= |journal| && forall i :: 0 <= i < n ==> journal[i].kind != ActorRejected
    ensures Rejected(journal[..n]) == 0
  {
    if n > 0 {
      NoneRejected(journal, n - 1);
      assert journal[..n][..n - 1] == journal[..n - 1];
    }
  }

  // ----- Where replay, scan and payload part

  function Dip(updates: nat): real {
    if updates == 1 then 0.999 else 1.0
  }

  /**
   Two accepted updates, the first of which brings a high KL down and the second up again: the replay
   keeps the rise, the scan of the same trajectory reports the start.
   */
  lemma RecrossingDisagrees<H, M>(h: H, x: M)
    ensures var journal := [Record([0], 1, Actor, 1, h, h, x), Record([0], 1, Actor, 2, h, h, x)];
            var run := ReplayAll(Counting(journal), State(0, 0), journal);
            && run.Some?
            && var t := Trajectory(Dip, run.value.states, journal, 2);
               var c, r := Some(Candidate(2, 1, 1, 0.999, 1.0)), PreExisting(1.0);
               IsCandidate(c, t, run.value.states) && Scans(t, r) && !Agree(c, r)
  {
    var journal := [Record([0], 1, Actor, 1, h, h, x), Record([0], 1, Actor, 2, h, h, x)];
    CountedStates(journal);
    var states := ReplayAll(Counting(journal), State(0, 0), journal).value.states;
    hide ReplayAll;
    TwoAccepted(journal, Dip, states);
  }

  lemma {:induction false} TwoAccepted<H, M>(journal: seq<Record<H, M>>, kl: nat -> real, states: seq<State<nat, nat>>)
    requires |journal| == 2 && |states| == 3 && journal[0].kind == journal[1].kind == Actor
    requires kl(states[0].agent) == 1.0 && kl(states[1].agent) == 0.999 && kl(states[2].agent) == 1.0 && states[1].agent == 1
    ensures var t := Trajectory(kl, states, journal, 2);
            IsCandidate(Some(Candidate(2, 1, 1, 0.999, 1.0)), t, states) && Scans(t, PreExisting(1.0))
  {
    assert Trajectory(kl, states, journal, 0) == [];
    assert Trajectory(kl, states, journal, 1) == [Point(0, None, 1.0), Point(1, Some(0), 0.999)];
    var t := Trajectory(kl, states, journal, 2);
    assert t == [Point(0, None, 1.0), Point(1, Some(0), 0.999), Point(2, Some(1), 1.0)];
    hide Trajectory;
    assert Upward(t, 2) && !Upward(t, 1) && !Upward(t, 0);
  }

  /** Replaying its own journal, the counting learner is at i before record i. */
  lemma {:induction false} CountedStates<H, M>(journal: seq<Record<H, M>>)
    requires journal != []
    ensures var run := ReplayAll(Counting(journal), State(0, 0), journal);
            run.Some? && forall i: nat :: i <= |journal| ==> run.value.states[i].agent == i
  {
    var m, s := Counting(journal), State(0, 0);
    CountingReaches(journal, |journal|);
    assert journal[..|journal|] == journal;
    BeforeIsReplay(m, s, journal);
    var states := ReplayAll(m, s, journal).value.states;
    forall i: nat | i <= |journal| ensures states[i].agent == i {
      CountingReaches(journal, i);
      BeforeIsReplay(m, s, journal[..i]);
      ReplayPrefix(m, s, journal, i);
    }
  }

  function LateRise(updates: nat): real {
    if updates >= 2 then 1.0 else 0.0
  }

  /** A rejected proposal before the crossing: the capture for the crossing's step finds nothing. */
  lemma RejectionHidesCrossing<H, M>(h: H, x: M)
    ensures var journal := [Record([0], 1, ActorRejected, 1, h, h, x), Record([0], 1, Actor, 2, h, h, x)];
            var m, s := Counting(journal), State(0, 0);
            var run := ReplayAll(m, s, journal);
            && Numbered(journal, 0) && run.Some?
            && IsCandidate(Some(Candidate(1, 1, 1, 0.0, 1.0)),
                           Trajectory(LateRise, run.value.states, journal, 2), run.value.states)
            && var many := Many(m, s, journal, {1}); many.Ok? && 1 !in many.value
  {
    var journal := [Record([0], 1, ActorRejected, 1, h, h, x), Record([0], 1, Actor, 2, h, h, x)];
    var m, s := Counting(journal), State(0, 0);
    CountingReaches(journal, 2);
    assert journal[..2] == journal;
    CountedStates(journal);
    var states := ReplayAll(m, s, journal).value.states;
    hide ReplayAll, Before, Many, Numbered;
    TwoProposals(journal, LateRise, states);
    NoTarget(m, s, journal);
  }

  lemma {:induction false} TwoProposals<H, M>(journal: seq<Record<H, M>>, kl: nat -> real, states: seq<State<nat, nat>>)
    requires |journal| == 2 && |states| == 3 && journal[0].kind == ActorRejected && journal[1].kind == Actor
    requires journal[0].updateIndex == 1 && journal[1].updateIndex == 2
    requires kl(states[0].agent) == 0.0 && kl(states[2].agent) == 1.0 && states[1].agent == 1
    ensures Numbered(journal, 0)
    ensures IsCandidate(Some(Candidate(1, 1, 1, 0.0, 1.0)), Trajectory(kl, states, journal, 2), states)
  {
    assert journal[..1][..0] == [] && journal[..2][..1] == journal[..1];
    assert Proposals(journal[..1][..0]) == 0;
    assert Proposals(journal[..1]) == 1;
    assert Proposals(journal[..2]) == 2;
    assert NumberedAt(journal, 0, 0) && NumberedAt(journal, 0, 1);
    assert Trajectory(kl, states, journal, 0) == [];
    var first := Point(0, None, 0.0);
    assert Trajectory(kl, states, journal, 1) == [first];
    var t := Trajectory(kl, states, journal, 2);
    assert t == [first] + [Point(1, Some(1), 1.0)];
    assert Upward(t, 1) && !Upward(t, 0);
  }

  lemma {:induction false} NoTarget<H, M>(m: Machine<nat, nat, H, M>, s: State<nat, nat>, journal: seq<Record<H, M>>)
    requires |journal| == 2 && journal[0].kind == ActorRejected && journal[1].updateIndex == 2 && Before(m, s, journal).Ok?
    ensures var many := Many(m, s, journal, {1}); many.Ok? && 1 !in many.value
  {
    hide Before, Last;
  }
}
