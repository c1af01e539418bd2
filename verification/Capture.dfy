/**
 Capturing the learner's state just before chosen actor updates: one target per replay, or many
 targets in a single replay of the whole journal.
 */
module Capture {
  import opened Basics
  import opened Replay

  datatype Failure = Diverged | Raised | Missing

  datatype Outcome<+T> = Ok(value: T) | Failed(why: Failure)

  datatype Captured<!A> = Captured(payload: A, indices: seq<int>)

  predicate IsTarget<H, M>(rec: Record<H, M>, target: int) {
    rec.kind == Actor && rec.updateIndex == target
  }

  /** Sampling for one record: the draw must repeat the recorded batch and the buffer must hold it. */
  function Sample<A, G, H, M>(m: Machine<A, G, H, M>, g: G, rec: Record<H, M>): (r: Outcome<G>)
    ensures r.Failed? ==> r.why != Missing
  {
    var d := m.draw(g, rec.size, |rec.indices|);
    if d.None? then Failed(Raised)
    else if d.value.0 != rec.indices then Failed(Diverged)
    else if !m.readable(rec.indices) then Failed(Raised)
    else Ok(d.value.1)
  }

  /** Sample, then update. */
  function Step<A, G, H, M>(m: Machine<A, G, H, M>, now: State<A, G>, rec: Record<H, M>): (r: Outcome<State<A, G>>)
    ensures r.Failed? ==> r.why != Missing
  {
    match Sample(m, now.rng, rec)
    case Failed(why) => Failed(why)
    case Ok(rng) =>
      var done := m.update(now.agent, rec.kind == Critic, rec.indices);
      if done.None? then Failed(Raised) else Ok(State(done.value.0, rng))
  }

  /** Replaying a whole journal, stopping at the first batch that differs from the recorded one. */
  function Before<A, G, H, M>(m: Machine<A, G, H, M>, s: State<A, G>, journal: seq<Record<H, M>>): (r: Outcome<State<A, G>>)
    ensures r.Failed? ==> r.why != Missing
  {
    if journal == [] then Ok(s) else
    match Before(m, s, journal[..|journal| - 1])
    case Failed(why) => Failed(why)
    case Ok(now) => Step(m, now, journal[|journal| - 1])
  }

  lemma {:induction false} BeforeNext<A, G, H, M>(m: Machine<A, G, H, M>, s: State<A, G>,
      journal: seq<Record<H, M>>, i: nat)
    requires i < |journal|
    ensures Before(m, s, journal[..i + 1]) ==
            match Before(m, s, journal[..i])
            case Failed(why) => Failed(why)
            case Ok(now) => Step(m, now, journal[i])
  {
    assert journal[..i + 1][..i] == journal[..i];
  }

  /** A failure in a prefix is the failure of every longer journal. */
  lemma {:induction false} FailureStays<A, G, H, M>(m: Machine<A, G, H, M>, s: State<A, G>,
      journal: seq<Record<H, M>>, k: nat, n: nat)
    requires k <= n <= |journal| && Before(m, s, journal[..k]).Failed?
    ensures Before(m, s, journal[..n]) == Before(m, s, journal[..k])
    decreases n
  {
    if k < n {
      BeforeNext(m, s, journal, n - 1);
      FailureStays(m, s, journal, k, n - 1);
    }
  }

  /** What a capture at record i yields: the agent after exactly the records before it. */
  function At<A, G, H, M>(m: Machine<A, G, H, M>, s: State<A, G>, journal: seq<Record<H, M>>,
      i: nat): (r: Outcome<Captured<A>>)
    requires i < |journal|
    ensures r.Failed? ==> r.why != Missing
  {
    match Before(m, s, journal[..i])
    case Failed(why) => Failed(why)
    case Ok(now) =>
      match Sample(m, now.rng, journal[i])
      case Failed(why) => Failed(why)
      case Ok(_) => Ok(Captured(now.agent, journal[i].indices))
  }

  /** A journal that replays whole can be captured at each of its records. */
  lemma {:induction false} BeforeReaches<A, G, H, M>(m: Machine<A, G, H, M>, s: State<A, G>, journal: seq<Record<H, M>>)
    requires Before(m, s, journal).Ok?
    ensures forall i :: 0 <= i < |journal| ==> Before(m, s, journal[..i]).Ok? && At(m, s, journal, i).Ok?
  {
    forall i | 0 <= i < |journal| ensures Before(m, s, journal[..i]).Ok? && At(m, s, journal, i).Ok? {
      assert journal[..|journal|] == journal;
      if Before(m, s, journal[..i + 1]).Failed? {
        FailureStays(m, s, journal, i + 1, |journal|);
      }
      BeforeNext(m, s, journal, i);
    }
  }

  /** The first record of the target, or the journal's length. */
  function First<H, M>(journal: seq<Record<H, M>>, target: int): (i: nat)
    ensures i <= |journal| && (i < |journal| ==> IsTarget(journal[i], target))
    ensures forall k :: 0 <= k < i ==> !IsTarget(journal[k], target)
  {
    if journal == [] || IsTarget(journal[0], target) then 0 else 1 + First(journal[1..], target)
  }

  /** The last record of the target, or the journal's length. */
  function Last<H, M>(journal: seq<Record<H, M>>, target: int): (i: nat)
    ensures i <= |journal| && (i < |journal| ==> IsTarget(journal[i], target))
    ensures forall k :: 0 <= k < |journal| && (i < k || i == |journal|) ==> !IsTarget(journal[k], target)
  {
    if journal == [] then 0
    else if IsTarget(journal[|journal| - 1], target) then |journal| - 1
    else
      var n := |journal| - 1;
      var i := Last(journal[..n], target);
      if i < n then i else n + 1
  }

  /** One target: what the prefix before its first record gives. */
  function One<A, G, H, M>(m: Machine<A, G, H, M>, s: State<A, G>, journal: seq<Record<H, M>>,
      target: int): Outcome<Captured<A>> {
    var i := First(journal, target);
    if i < |journal| then At(m, s, journal, i)
    else match Before(m, s, journal)
      case Failed(why) => Failed(why)
      case Ok(_) => Failed(Missing)
  }

  /** Many targets: all or nothing, and the last record of a target wins. */
  function Many<A, G, H, M>(m: Machine<A, G, H, M>, s: State<A, G>, journal: seq<Record<H, M>>,
      targets: set<int>): Outcome<map<int, Captured<A>>> {
    match Before(m, s, journal)
    case Failed(why) => Failed(why)
    case Ok(_) =>
      BeforeReaches(m, s, journal);
      Ok(map t | t in targets && Last(journal, t) < |journal| :: At(m, s, journal, Last(journal, t)).value)
  }

  // ----- The two scripts

  /** Sample and fetch the batch of one record; the agent does not move. */
  method Fetch<A, G, H, M>(session: Session<A, G, H, M>, rec: Record<H, M>) returns (why: Option<Failure>)
    modifies session
    ensures session.agent == old(session.agent)
    ensures match Sample(session.m, old(session.rng), rec)
            case Failed(w) => why == Some(w)
            case Ok(rng) => why == None && session.rng == rng
  {
    var expected := session.Draw(rec.size, |rec.indices|);
    if expected.None? {
      return Some(Raised);
    }
    if expected.value != rec.indices {
      return Some(Diverged);
    }
    why := if session.m.readable(rec.indices) then None else Some(Raised);
  }

  lemma {:induction false} NothingReplayed<A, G, H, M>(m: Machine<A, G, H, M>, s: State<A, G>,
      journal: seq<Record<H, M>>)
    ensures Before(m, s, journal[..0]) == Ok(s)
  {
  }

  lemma {:induction false} OneFails<A, G, H, M>(m: Machine<A, G, H, M>, s: State<A, G>, journal: seq<Record<H,
      M>>, target: int,
      i: nat, why: Failure)
    requires i < |journal| && i <= First(journal, target) && Before(m, s, journal[..i]).Ok?
    requires var now := Before(m, s, journal[..i]).value;
             || Sample(m, now.rng, journal[i]) == Failed(why)
             || (i < First(journal, target) && Step(m, now, journal[i]) == Failed(why))
    ensures One(m, s, journal, target) == Failed(why)
  {
    BeforeNext(m, s, journal, i);
    var first := First(journal, target);
    if i < first {
      FailureStays(m, s, journal, i + 1, first);
      assert journal[..|journal|] == journal;
    }
  }

  lemma {:induction false} OneFinds<A, G, H, M>(m: Machine<A, G, H, M>, s: State<A, G>, journal: seq<Record<H,
      M>>, target: int, i: nat)
    requires i < |journal| && i <= First(journal, target) && IsTarget(journal[i], target)
    requires Before(m, s, journal[..i]).Ok? && Sample(m, Before(m, s, journal[..i]).value.rng, journal[i]).Ok?
    ensures One(m, s, journal, target) == Ok(Captured(Before(m, s, journal[..i]).value.agent, journal[i].indices))
  {
  }

  lemma {:induction false} OneMisses<A, G, H, M>(m: Machine<A, G, H, M>, s: State<A, G>, journal: seq<Record<H,
      M>>, target: int)
    requires |journal| <= First(journal, target) && Before(m, s, journal[..|journal|]).Ok?
    ensures One(m, s, journal, target) == Failed(Missing)
  {
    assert journal[..|journal|] == journal;
  }

  method CapturePayload<A, G, H, M>(session: Session<A, G, H, M>, journal: seq<Record<H, M>>, target: int)
    returns (r: Outcome<Captured<A>>)
    modifies session
    ensures r == One(session.m, old(session.Contents()), journal, target)
  {
    ghost var m, start := session.m, session.Contents();
    NothingReplayed(m, start, journal);
    hide Before, Sample, First, One, At;
    for i := 0 to |journal|
      invariant i <= First(journal, target)
      invariant Before(m, start, journal[..i]) == Ok(session.Contents())
    {
      BeforeNext(m, start, journal, i);
      var why := Fetch(session, journal[i]);
      if why.Some? {
        OneFails(m, start, journal, target, i, why.value);
        return Failed(why.value);
      }
      if IsTarget(journal[i], target) {
        OneFinds(m, start, journal, target, i);
        return Ok(Captured(session.agent, journal[i].indices));
      }
      var metrics := session.Update(journal[i].kind == Critic, journal[i].indices);
      if metrics.None? {
        OneFails(m, start, journal, target, i, Raised);
        return Failed(Raised);
      }
    }
    OneMisses(m, start, journal, target);
    r := Failed(Missing);
  }

  method CapturePayloads<A, G, H, M>(session: Session<A, G, H, M>, journal: seq<Record<H, M>>, targets: set<int>)
    returns (r: Outcome<map<int, Captured<A>>>)
    modifies session
    ensures r == Many(session.m, old(session.Contents()), journal, targets)
  {
    ghost var m, start := session.m, session.Contents();
    NothingReplayed(m, start, journal);
    hide Before, Sample, Last, Many;
    var result: map<int, Captured<A>> := map[];
    for i := 0 to |journal|
      invariant Before(m, start, journal[..i]) == Ok(session.Contents())
      invariant CapturedUpTo(m, start, journal, targets, i, result)
    {
      BeforeNext(m, start, journal, i);
      var why := Fetch(session, journal[i]);
      if why.Some? {
        ManyFails(m, start, journal, targets, i);
        return Failed(why.value);
      }
      CapturesNext(m, start, journal, targets, i, result);
      if journal[i].kind == Actor {
        var step := journal[i].updateIndex;
        if step in targets {
          result := result[step := Captured(session.agent, journal[i].indices)];
        }
      }
      var metrics := session.Update(journal[i].kind == Critic, journal[i].indices);
      if metrics.None? {
        ManyFails(m, start, journal, targets, i);
        return Failed(Raised);
      }
    }
    ManyIs(m, start, journal, targets, result);
    r := Ok(result);
  }

  /** The captures made while replaying the first n records. */
  ghost predicate CapturedUpTo<A, G, H, M>(m: Machine<A, G, H, M>, s: State<A, G>, journal: seq<Record<H, M>>,
                                           targets: set<int>, n: nat, result: map<int, Captured<A>>)
    requires n <= |journal|
  {
    && (forall t :: t in result <==> t in targets && Last(journal[..n], t) < n)
    && forall t :: t in result ==> Ok(result[t]) == At(m, s, journal, Last(journal[..n], t))
  }

  lemma {:induction false} CapturesNext<A, G, H, M>(m: Machine<A, G, H, M>, s: State<A, G>, journal: seq<Record<H, M>>,
                                 targets: set<int>, i: nat, result: map<int, Captured<A>>)
    requires i < |journal| && CapturedUpTo(m, s, journal, targets, i, result)
    requires Before(m, s, journal[..i]).Ok? && Sample(m, Before(m, s, journal[..i]).value.rng, journal[i]).Ok?
    ensures var rec, now := journal[i], Before(m, s, journal[..i]).value;
            CapturedUpTo(m, s, journal, targets, i + 1,
              if rec.kind == Actor && rec.updateIndex in targets
              then result[rec.updateIndex := Captured(now.agent, rec.indices)] else result)
  {
    var rec, now := journal[i], Before(m, s, journal[..i]).value;
    assert At(m, s, journal, i) == Ok(Captured(now.agent, rec.indices));
    hide Before, Sample, At, Last;
    forall t ensures Last(journal[..i + 1], t) ==
                     if IsTarget(rec, t) then i
                     else if Last(journal[..i], t) < i then Last(journal[..i], t) else i + 1
    {
      LastNext(journal, t, i);
    }
  }

  lemma {:induction false} LastNext<H, M>(journal: seq<Record<H, M>>, target: int, i: nat)
    requires i < |journal|
    ensures Last(journal[..i + 1], target) ==
            if IsTarget(journal[i], target) then i
            else if Last(journal[..i], target) < i then Last(journal[..i], target) else i + 1
  {
    assert journal[..i + 1][..i] == journal[..i];
  }

  lemma {:induction false} ManyFails<A, G, H, M>(m: Machine<A, G, H, M>, s: State<A, G>, journal: seq<Record<H,
      M>>, targets: set<int>, i: nat)
    requires i < |journal| && Before(m, s, journal[..i]).Ok? && Step(m, Before(m, s, journal[..i]).value, journal[i]).Failed?
    ensures Many(m, s, journal, targets) == Failed(Step(m, Before(m, s, journal[..i]).value, journal[i]).why)
  {
    BeforeNext(m, s, journal, i);
    FailureStays(m, s, journal, i + 1, |journal|);
    assert journal[..|journal|] == journal;
  }

  lemma {:induction false} ManyIs<A, G, H, M>(m: Machine<A, G, H, M>, s: State<A, G>, journal: seq<Record<H, M>>,
      targets: set<int>, result: map<int, Captured<A>>)
    requires Before(m, s, journal[..|journal|]).Ok? && CapturedUpTo(m, s, journal, targets, |journal|, result)
    ensures Many(m, s, journal, targets) == Ok(result)
  {
    assert journal[..|journal|] == journal;
    BeforeReaches(m, s, journal);
    hide Before, At, Last;
    var all := Many(m, s, journal, targets).value;
    assert forall t :: t in all ==> t in result && Ok(all[t]) == Ok(result[t]);
    assert forall t :: t in result ==> t in all;
    assert all == result;
  }
}
