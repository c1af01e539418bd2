/** The states that the collector revisits: the steps of the failed episodes, from the failure backwards. */
module CollectorTargets {
  import opened Basics
  import opened CollectorSpec

  datatype RecordedStep = RecordedStep(step: int, action: int, position: int)
  /** A failed episode of the policy, its steps in order. */
  datatype FailedEpisode = FailedEpisode(mission: int, episode: int, steps: seq<RecordedStep>)

  function ActionsOf(steps: seq<RecordedStep>): seq<int> {
    seq(|steps|, i requires 0 <= i < |steps| => steps[i].action)
  }

  function TargetAt(e: FailedEpisode, i: nat): Target
    requires i < |e.steps|
  {
    Target(e.mission, e.episode, e.steps[i].step, e.steps[i].action, e.steps[i].position, ActionsOf(e.steps[..i]))
  }

  /** The states of one episode below step n, the one nearest to the failure first. */
  function EpisodeTargets(e: FailedEpisode, n: nat): seq<Target>
    requires n <= |e.steps|
  {
    if n == 0 then [] else [TargetAt(e, n - 1)] + EpisodeTargets(e, n - 1)
  }

  function AllTargets(failed: seq<FailedEpisode>): seq<Target> {
    if failed == [] then []
    else AllTargets(failed[..|failed| - 1]) + EpisodeTargets(failed[|failed| - 1], |failed[|failed| - 1].steps|)
  }

  lemma {:induction false} AllTargetsPrefix(failed: seq<FailedEpisode>, k: nat)
    requires k <= |failed|
    ensures AllTargets(failed[..k]) <= AllTargets(failed)
    decreases |failed|
  {
    if k < |failed| {
      AllTargetsPrefix(failed[..|failed| - 1], k);
      assert failed[..|failed| - 1][..k] == failed[..k];
    } else {
      assert failed[..k] == failed;
    }
  }

  /** How many steps the first j failed episodes have. */
  function StepsBefore(failed: seq<FailedEpisode>, j: nat): nat
    requires j <= |failed|
  {
    if j == 0 then 0 else StepsBefore(failed, j - 1) + |failed[j - 1].steps|
  }

  /** The target is step i of the episode: recorded there, and reached by the actions of the steps before it. */
  ghost predicate IsStepOf(t: Target, e: FailedEpisode, i: nat) {
    && i < |e.steps|
    && t.mission == e.mission && t.episode == e.episode && t.step == e.steps[i].step
    && t.recordedAction == e.steps[i].action && t.recordedPosition == e.steps[i].position
    && |t.prefixActions| == i && forall m :: 0 <= m < i ==> t.prefixActions[m] == e.steps[m].action
  }

  /** Where step i of episode j stands among the targets: after all earlier episodes and the later steps of its own. */
  function Place(failed: seq<FailedEpisode>, j: nat, i: nat): int
    requires j < |failed|
  {
    StepsBefore(failed, j) + |failed[j].steps| - 1 - i
  }

  /** The targets are steps of the failed episodes in order, each episode from its last step back to its first. */
  ghost predicate InOrder(failed: seq<FailedEpisode>, targets: seq<Target>) {
    forall k: nat :: k < |targets| ==> Placed(failed, targets, k)
  }

  ghost predicate Placed(failed: seq<FailedEpisode>, targets: seq<Target>, k: nat) {
    exists j: nat, i: nat :: PlacedAt(failed, targets, k, j, i)
  }

  ghost predicate PlacedAt(failed: seq<FailedEpisode>, targets: seq<Target>, k: nat, j: nat, i: nat) {
    k < |targets| && j < |failed| && IsStepOf(targets[k], failed[j], i) && k == Place(failed, j, i)
  }

  lemma {:induction false} EpisodeInOrder(e: FailedEpisode, n: nat, p: nat)
    requires n <= |e.steps| && p < n
    ensures |EpisodeTargets(e, n)| == n && IsStepOf(EpisodeTargets(e, n)[p], e, n - 1 - p)
  {
    EpisodeLength(e, n);
    if p > 0 {
      EpisodeInOrder(e, n - 1, p - 1);
    }
  }

  lemma {:induction false} EpisodeLength(e: FailedEpisode, n: nat)
    requires n <= |e.steps|
    ensures |EpisodeTargets(e, n)| == n
  {
    if n > 0 {
      EpisodeLength(e, n - 1);
    }
  }

  lemma {:induction false} StepsBeforePrefix(failed: seq<FailedEpisode>, more: seq<FailedEpisode>, j: nat)
    requires failed <= more && j <= |failed|
    ensures StepsBefore(failed, j) == StepsBefore(more, j)
  {
    if j > 0 {
      StepsBeforePrefix(failed, more, j - 1);
    }
  }

  /** All states of the failed episodes: how many there are, and which one stands where. */
  lemma {:induction false} TargetsInOrder(failed: seq<FailedEpisode>)
    ensures |AllTargets(failed)| == StepsBefore(failed, |failed|) && InOrder(failed, AllTargets(failed))
  {
    if failed != [] {
      var front, e := failed[..|failed| - 1], failed[|failed| - 1];
      var a, b := AllTargets(front), EpisodeTargets(e, |e.steps|);
      TargetsInOrder(front);
      StepsBeforePrefix(front, failed, |front|);
      EpisodeLength(e, |e.steps|);
      hide EpisodeTargets, IsStepOf;
      forall k: nat | k < |a + b| ensures Placed(failed, a + b, k) {
        if k < |a| {
          assert Placed(front, a, k);
          var j: nat, i: nat :| PlacedAt(front, a, k, j, i);
          StepsBeforePrefix(front, failed, j);
          assert PlacedAt(failed, a + b, k, j, i);
        } else {
          EpisodeInOrder(e, |e.steps|, k - |a|);
          assert PlacedAt(failed, a + b, k, |front|, |e.steps| - 1 - (k - |a|));
        }
      }
    }
  }

  /** The first `limit` states of the failed episodes, or None (an error) when there are too few. */
  method LoadFailedTargets(failed: seq<FailedEpisode>, limit: nat) returns (targets: Option<seq<Target>>)
    requires limit > 0
    ensures targets == if |AllTargets(failed)| >= limit then Some(AllTargets(failed)[..limit]) else None
    ensures targets.None? <==> StepsBefore(failed, |failed|) < limit
    ensures targets.Some? ==> |targets.value| == limit && InOrder(failed, targets.value)
  {
    TargetsInOrder(failed);
    var chosen: seq<Target> := [];
    assert failed[..0] == [];
    for k := 0 to |failed|
      invariant chosen == AllTargets(failed[..k]) && |chosen| < limit
    {
      var e := failed[k];
      assert failed[..k + 1][..k] == failed[..k];
      AllTargetsPrefix(failed, k + 1);
      for i := |e.steps| downto 0
        invariant chosen + EpisodeTargets(e, i) == AllTargets(failed[..k + 1]) && |chosen| < limit
      {
        assert chosen + EpisodeTargets(e, i + 1) == chosen + [TargetAt(e, i)] + EpisodeTargets(e, i);
        chosen := chosen + [TargetAt(e, i)];
        if |chosen| >= limit {
          assert chosen == AllTargets(failed)[..limit];
          FirstInOrder(failed, AllTargets(failed), limit);
          return Some(chosen);
        }
      }
    }
    assert failed[..|failed|] == failed;
    targets := None;
  }

  lemma FirstInOrder(failed: seq<FailedEpisode>, targets: seq<Target>, limit: nat)
    requires InOrder(failed, targets) && limit <= |targets|
    ensures InOrder(failed, targets[..limit])
  {
    forall k: nat | k < limit ensures Placed(failed, targets[..limit], k) {
      assert Placed(failed, targets, k);
      var j: nat, i: nat :| PlacedAt(failed, targets, k, j, i);
      assert PlacedAt(failed, targets[..limit], k, j, i);
    }
  }
}
