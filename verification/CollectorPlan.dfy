/** The action planner: what it plans is legal, free of repetitions and meets its quota. */
module CollectorPlan {
  import opened Basics
  import opened CollectorSpec

  ghost predicate GoodPlan(mask: Mask, plan: seq<Planned>) {
    && Distinct(Actions(plan))
    && forall i :: 0 <= i < |plan| ==> 0 <= plan[i].action < |mask| && mask[plan[i].action]
  }

  lemma AddGood(mask: Mask, plan: seq<Planned>, source: Source, a: int)
    requires GoodPlan(mask, plan)
    ensures GoodPlan(mask, Add(mask, plan, source, a)) && plan <= Add(mask, plan, source, a)
  {
    var r := Add(mask, plan, source, a);
    if r != plan {
      assert Actions(r) == Actions(plan) + [a];
    }
  }

  lemma {:induction false} AddAllGood(mask: Mask, plan: seq<Planned>, source: Source, actions: seq<int>)
    requires GoodPlan(mask, plan)
    ensures GoodPlan(mask, AddAll(mask, plan, source, actions)) && plan <= AddAll(mask, plan, source, actions)
    decreases |actions|
  {
    if actions != [] {
      AddGood(mask, plan, source, actions[0]);
      AddAllGood(mask, Add(mask, plan, source, actions[0]), source, actions[1..]);
    }
  }

  lemma AddFresh(mask: Mask, plan: seq<Planned>, source: Source, a: int)
    requires 0 <= a < |mask| && mask[a] && a !in Actions(plan)
    ensures Add(mask, plan, source, a) == plan + [Planned(source, a)]
    ensures Actions(Add(mask, plan, source, a)) == Actions(plan) + [a]
  {
  }

  /** The actions, all from one source. */
  function Tagged(source: Source, actions: seq<int>): (plan: seq<Planned>)
    ensures |plan| == |actions|
  {
    seq(|actions|, i requires 0 <= i < |actions| => Planned(source, actions[i]))
  }

  lemma TaggedNext(source: Source, actions: seq<int>)
    requires actions != []
    ensures Tagged(source, actions) == [Planned(source, actions[0])] + Tagged(source, actions[1..])
  {
  }

  lemma RestFresh(actions: seq<int>)
    requires actions != [] && Distinct(actions)
    ensures Distinct(actions[1..]) && actions[0] in actions
    ensures forall a :: a in actions[1..] ==> a in actions && a != actions[0]
  {
    forall a | a in actions[1..] ensures a in actions && a != actions[0] {
      var i :| 0 <= i < |actions| - 1 && actions[1..][i] == a;
      assert actions[i + 1] == a;
    }
  }

  /** Fresh legal actions are all planned, in the order given. */
  lemma {:induction false} AddAllFresh(mask: Mask, plan: seq<Planned>, source: Source, actions: seq<int>)
    requires Distinct(actions)
    requires forall a :: a in actions ==> 0 <= a < |mask| && mask[a] && a !in Actions(plan)
    ensures AddAll(mask, plan, source, actions) == plan + Tagged(source, actions)
    decreases |actions|
  {
    if actions != [] {
      var next := Add(mask, plan, source, actions[0]);
      assert AddAll(mask, plan, source, actions) == AddAll(mask, next, source, actions[1..]);
      RestFresh(actions);
      hide *;
      AddFresh(mask, plan, source, actions[0]);
      assert forall a :: a in actions[1..] ==> 0 <= a < |mask| && mask[a] && a !in Actions(plan) + [actions[0]];
      AddAllFresh(mask, next, source, actions[1..]);
      TaggedNext(source, actions);
      assert plan + [Planned(source, actions[0])] + Tagged(source, actions[1..]) == plan + Tagged(source, actions);
    } else {
      assert plan + Tagged(source, actions) == plan;
    }
  }

  function Allowed(mask: Mask, n: nat): set<int>
    requires n <= |mask|
  {
    if n == 0 then {} else Allowed(mask, n - 1) + (if mask[n - 1] then {n - 1} else {})
  }

  lemma {:induction false} AllowedMeans(mask: Mask, n: nat, a: int)
    requires n <= |mask|
    ensures a in Allowed(mask, n) <==> 0 <= a < n && mask[a]
  {
    if n > 0 {
      AllowedMeans(mask, n - 1, a);
    }
  }

  ghost predicate Ascending(s: seq<int>) {
    forall i, j :: 0 <= i < j < |s| ==> s[i] < s[j]
  }

  lemma {:induction false} AvailableMeans(mask: Mask, plan: seq<Planned>, n: nat)
    requires n <= |mask|
    ensures Ascending(Available(mask, plan, n))
    ensures forall a :: a in Available(mask, plan, n) <==> 0 <= a < n && mask[a] && a !in Actions(plan)
  {
    if n > 0 {
      AvailableMeans(mask, plan, n - 1);
      var front := Available(mask, plan, n - 1);
      assert forall i :: 0 <= i < |front| ==> front[i] in front;
    }
  }

  lemma {:induction false} AvailableCount(mask: Mask, plan: seq<Planned>)
    requires GoodPlan(mask, plan)
    ensures |Available(mask, plan, |mask|)| == |Allowed(mask, |mask|)| - |plan|
  {
    var open, all, taken := Available(mask, plan, |mask|), Allowed(mask, |mask|), Actions(plan);
    AvailableMeans(mask, plan, |mask|);
    assert Distinct(open);
    PlanActions(mask, plan);
    hide *;
    DistinctElements(open);
    DistinctElements(taken);
    forall a ensures a in all <==> a in Elements(open) || a in Elements(taken) {
      AllowedMeans(mask, |mask|, a);
      ElementsMean(open, a);
      ElementsMean(taken, a);
    }
    forall a | a in Elements(open) ensures a !in Elements(taken) {
      ElementsMean(open, a);
      ElementsMean(taken, a);
    }
    assert all == Elements(open) + Elements(taken);
    assert Elements(open) !! Elements(taken);
  }

  lemma ElementsMean(s: seq<int>, a: int)
    ensures a in Elements(s) <==> a in s
  {
  }

  lemma PlanActions(mask: Mask, plan: seq<Planned>)
    requires GoodPlan(mask, plan)
    ensures Distinct(Actions(plan)) && |Actions(plan)| == |plan|
    ensures forall a :: a in Actions(plan) ==> 0 <= a < |mask| && mask[a]
  {
    forall a | a in Actions(plan) ensures 0 <= a < |mask| && mask[a] {
      var i :| 0 <= i < |plan| && Actions(plan)[i] == a;
      assert plan[i].action == a;
    }
  }

  lemma DrawDistinct(w: World, seed: int, count: nat, available: seq<int>)
    requires Distinct(available)
    ensures var d := Draw(w, seed, count, available);
            && Distinct(d) && |d| == (if count < |available| then count else |available|)
            && forall a :: a in d ==> a in available
  {
  }

  lemma ChosenGood(mask: Mask, bc: int, teacher: Option<int>, near: seq<int>)
    ensures var plan := Chosen(mask, bc, teacher, near);
            && GoodPlan(mask, plan)
            && (0 <= bc < |mask| && mask[bc] ==> [Planned(BC, bc)] <= plan)
  {
    var first := Add(mask, [], BC, bc);
    AddGood(mask, [], BC, bc);
    var second := if teacher.Some? then Add(mask, first, TEACHER, teacher.value) else first;
    if teacher.Some? {
      AddGood(mask, first, TEACHER, teacher.value);
    }
    AddAllGood(mask, second, NEIGHBOR, near);
  }

  /**
   Every planned action is allowed and planned once, the policy's own action comes first,
   and the random draws fill the plan up to its quota or to all allowed actions.
   */
  lemma {:induction false} PlanMeetsQuota(w: World, cfg: Config, index: nat, mask: Mask, bc: int,
      teacher: Option<int>, near: seq<int>)
    ensures var plan := Plan(w, cfg, index, mask, bc, teacher, near);
            && GoodPlan(mask, plan)
            && (0 <= bc < |mask| && mask[bc] ==> [Planned(BC, bc)] <= plan)
    ensures var k, all := |Chosen(mask, bc, teacher, near)|, |Allowed(mask, |mask|)|;
            |Plan(w, cfg, index, mask, bc, teacher, near)| ==
              if k + cfg.randomCount < all then k + cfg.randomCount else all
  {
    var chosen := Chosen(mask, bc, teacher, near);
    var open := Available(mask, chosen, |mask|);
    var drawn := Draw(w, cfg.seed + index * 7919, cfg.randomCount, open);
    assert Plan(w, cfg, index, mask, bc, teacher, near) == AddAll(mask, chosen, RANDOM, drawn);
    AvailableMeans(mask, chosen, |mask|);
    assert Distinct(open);
    hide *;
    ChosenGood(mask, bc, teacher, near);
    AddAllGood(mask, chosen, RANDOM, drawn);
    AvailableCount(mask, chosen);
    DrawDistinct(w, cfg.seed + index * 7919, cfg.randomCount, open);
    AddAllFresh(mask, chosen, RANDOM, drawn);
    ActionCount(chosen);
    ActionCount(AddAll(mask, chosen, RANDOM, drawn));
  }

  lemma ActionCount(plan: seq<Planned>)
    ensures |Actions(plan)| == |plan|
  {
  }

  // ----- The sources

  predicate IsAllowed(mask: Mask, a: int) {
    0 <= a < |mask| && mask[a]
  }

  lemma AddSources(mask: Mask, plan: seq<Planned>, source: Source, a: int, p: Planned)
    ensures p in Add(mask, plan, source, a) <==>
              p in plan || (p == Planned(source, a) && IsAllowed(mask, a) && a !in Actions(plan))
  {
    if p in Add(mask, plan, source, a) && p !in plan {
      assert p == Planned(source, a);
    }
  }

  lemma {:induction false} AddAllSources(mask: Mask, plan: seq<Planned>, source: Source, actions: seq<int>, p: Planned)
    ensures p in AddAll(mask, plan, source, actions) <==>
              p in plan || (p.source == source && p.action in actions && IsAllowed(mask, p.action) && p.action !in Actions(plan))
    decreases |actions|
  {
    if actions != [] {
      var next := Add(mask, plan, source, actions[0]);
      AddAllSources(mask, next, source, actions[1..], p);
      AddSources(mask, plan, source, actions[0], p);
      AddActions(mask, plan, source, actions[0]);
      assert p.action in actions <==> p.action == actions[0] || p.action in actions[1..];
      hide *;
    }
  }

  lemma AddActions(mask: Mask, plan: seq<Planned>, source: Source, a: int)
    ensures forall b :: b in Actions(Add(mask, plan, source, a)) <==>
              b in Actions(plan) || (b == a && IsAllowed(mask, a))
  {
    var next := Add(mask, plan, source, a);
    if next != plan {
      assert Actions(next) == Actions(plan) + [a];
    }
  }

  lemma {:induction false} AddAllActions(mask: Mask, plan: seq<Planned>, source: Source, actions: seq<int>, a: int)
    ensures a in Actions(AddAll(mask, plan, source, actions)) <==>
              a in Actions(plan) || (a in actions && IsAllowed(mask, a))
    decreases |actions|
  {
    if actions != [] {
      var next := Add(mask, plan, source, actions[0]);
      AddAllActions(mask, next, source, actions[1..], a);
      AddActions(mask, plan, source, actions[0]);
      assert a in actions <==> a == actions[0] || a in actions[1..];
      hide *;
    }
  }

  /** Before the random draws: which action is planned, and under which source. */
  lemma ChosenSources(mask: Mask, bc: int, teacher: Option<int>, near: seq<int>, a: int)
    ensures var plan := Chosen(mask, bc, teacher, near);
            && (Planned(BC, a) in plan <==> IsAllowed(mask, a) && a == bc)
            && (Planned(TEACHER, a) in plan <==> IsAllowed(mask, a) && teacher == Some(a) && a != bc)
            && (Planned(NEIGHBOR, a) in plan <==> IsAllowed(mask, a) && a in near && a != bc && teacher != Some(a))
            && Planned(RANDOM, a) !in plan
            && (a in Actions(plan) <==> IsAllowed(mask, a) && (a == bc || teacher == Some(a) || a in near))
  {
    var first := Add(mask, [], BC, bc);
    var second := if teacher.Some? then Add(mask, first, TEACHER, teacher.value) else first;
    assert Chosen(mask, bc, teacher, near) == AddAll(mask, second, NEIGHBOR, near);
    assert Actions([]) == [];
    hide Add, AddAll, Actions, IsAllowed;
    AddActions(mask, [], BC, bc);
    if teacher.Some? {
      AddActions(mask, first, TEACHER, teacher.value);
    }
    AddAllActions(mask, second, NEIGHBOR, near, a);
    forall source ensures Planned(source, a) in first <==> source == BC && IsAllowed(mask, a) && a == bc {
      AddSources(mask, [], BC, bc, Planned(source, a));
    }
    forall source
      ensures Planned(source, a) in second <==>
                Planned(source, a) in first ||
                (source == TEACHER && teacher == Some(a) && IsAllowed(mask, a) && a !in Actions(first))
    {
      if teacher.Some? {
        AddSources(mask, first, TEACHER, teacher.value, Planned(source, a));
      }
    }
    AddAllSources(mask, second, NEIGHBOR, near, Planned(BC, a));
    AddAllSources(mask, second, NEIGHBOR, near, Planned(TEACHER, a));
    AddAllSources(mask, second, NEIGHBOR, near, Planned(NEIGHBOR, a));
    AddAllSources(mask, second, NEIGHBOR, near, Planned(RANDOM, a));
  }

  /** Every allowed action of policy, teacher and neighbours is planned, under the first source that names it. */
  lemma PlanSources(w: World, cfg: Config, index: nat, mask: Mask, bc: int, teacher: Option<int>,
      near: seq<int>, a: int)
    ensures var plan := Plan(w, cfg, index, mask, bc, teacher, near);
            && (Planned(BC, a) in plan <==> IsAllowed(mask, a) && a == bc)
            && (Planned(TEACHER, a) in plan <==> IsAllowed(mask, a) && teacher == Some(a) && a != bc)
            && (Planned(NEIGHBOR, a) in plan <==> IsAllowed(mask, a) && a in near && a != bc && teacher != Some(a))
            && (Planned(RANDOM, a) in plan ==> IsAllowed(mask, a) && a != bc && teacher != Some(a) && a !in near)
  {
    var chosen := Chosen(mask, bc, teacher, near);
    var drawn := Draw(w, cfg.seed + index * 7919, cfg.randomCount, Available(mask, chosen, |mask|));
    assert Plan(w, cfg, index, mask, bc, teacher, near) == AddAll(mask, chosen, RANDOM, drawn);
    hide Chosen, AddAll, Draw, Available, Actions, IsAllowed;
    ChosenSources(mask, bc, teacher, near, a);
    AddAllSources(mask, chosen, RANDOM, drawn, Planned(BC, a));
    AddAllSources(mask, chosen, RANDOM, drawn, Planned(TEACHER, a));
    AddAllSources(mask, chosen, RANDOM, drawn, Planned(NEIGHBOR, a));
    AddAllSources(mask, chosen, RANDOM, drawn, Planned(RANDOM, a));
  }

  /**
   Behind its first m candidates the plan holds other allowed actions: those that the generator, seeded for
   this state, shuffles to the front of the ascending rest.
   */
  ghost predicate Drawn(w: World, seed: int, mask: Mask, plan: seq<Planned>, m: nat, open: seq<int>) {
    && m <= |plan| <= m + |open| && Ascending(open)
    && (forall a :: a in open <==> IsAllowed(mask, a) && a !in Actions(plan[..m]))
    && forall j :: m <= j < |plan| ==> plan[j] == Planned(RANDOM, open[DrawOrder(w, seed, |open|)[j - m]])
  }

  ghost predicate DrawnBehind(w: World, seed: int, mask: Mask, plan: seq<Planned>, m: nat) {
    exists open :: Drawn(w, seed, mask, plan, m, open)
  }

  lemma DrawShape(w: World, seed: int, count: nat, open: seq<int>)
    ensures var d, order := Draw(w, seed, count, open), DrawOrder(w, seed, |open|);
            |d| <= |open| && forall i :: 0 <= i < |d| ==> d[i] == open[order[i]]
  {
    hide DrawOrder;
  }

  lemma PlanDrawn(w: World, cfg: Config, index: nat, mask: Mask, bc: int, teacher: Option<int>, near: seq<int>)
    ensures var chosen := Chosen(mask, bc, teacher, near);
            DrawnBehind(w, cfg.seed + index * 7919, mask, Plan(w, cfg, index, mask, bc, teacher, near), |chosen|)
  {
    var chosen := Chosen(mask, bc, teacher, near);
    var open := Available(mask, chosen, |mask|);
    var seed := cfg.seed + index * 7919;
    var drawn := Draw(w, seed, cfg.randomCount, open);
    assert Plan(w, cfg, index, mask, bc, teacher, near) == AddAll(mask, chosen, RANDOM, drawn);
    OpenActions(mask, chosen);
    hide *;
    DrawDistinct(w, seed, cfg.randomCount, open);
    DrawShape(w, seed, cfg.randomCount, open);
    AddAllFresh(mask, chosen, RANDOM, drawn);
    DrawnFrom(w, seed, mask, chosen, drawn, open);
  }

  lemma {:induction false} OpenActions(mask: Mask, chosen: seq<Planned>)
    ensures var open := Available(mask, chosen, |mask|);
            Ascending(open) && Distinct(open) && forall a :: a in open <==> IsAllowed(mask, a) && a !in Actions(chosen)
  {
    AvailableMeans(mask, chosen, |mask|);
    hide Available, Actions;
  }

  lemma DrawnFrom(w: World, seed: int, mask: Mask, chosen: seq<Planned>, drawn: seq<int>, open: seq<int>)
    requires Ascending(open) && forall a :: a in open <==> IsAllowed(mask, a) && a !in Actions(chosen)
    requires |drawn| <= |open| && forall i :: 0 <= i < |drawn| ==> drawn[i] == open[DrawOrder(w, seed, |open|)[i]]
    ensures DrawnBehind(w, seed, mask, chosen + Tagged(RANDOM, drawn), |chosen|)
  {
    hide DrawOrder, IsAllowed, Actions;
    var plan := chosen + Tagged(RANDOM, drawn);
    assert plan[..|chosen|] == chosen;
    assert Drawn(w, seed, mask, plan, |chosen|, open);
  }
}
