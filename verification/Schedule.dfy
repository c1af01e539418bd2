/** The update schedule of critic and actor, as the degradation audit replays it. */
module Schedule {
  import opened Basics

  datatype Config = Config(learningStarts: int, actorLearningStarts: int, burnin: int, interval: int, rate: real)
  datatype Counters = Counters(critic: int, step: int, actor: int)

  /** The cumulative number of critic updates due at a replay total; None for invalid inputs. */
  function CriticTarget(cfg: Config, total: int): Option<int> {
    if total < 0 || cfg.learningStarts < 0 || cfg.rate <= 0.0 then None
    else if total <= cfg.learningStarts then Some(0)
    else Some(((total - cfg.learningStarts + 1) as real * cfg.rate).Floor)
  }

  /** May the next update change the actor? None for invalid inputs. */
  function ActorDue(cfg: Config, total: int, step: int): Option<bool> {
    if cfg.actorLearningStarts < 0 || cfg.burnin < 0 || cfg.interval <= 0 then None
    else Some(total >= cfg.actorLearningStarts && step >= cfg.burnin && (step - cfg.burnin + 1) % cfg.interval == 0)
  }

  ghost predicate Valid(cfg: Config) {
    && cfg.learningStarts >= 0 && cfg.rate > 0.0
    && cfg.actorLearningStarts >= 0 && cfg.burnin >= 0 && cfg.interval > 0
  }

  /** Exactly the valid configurations have a target and an actor gate, at every replay total that is not negative. */
  lemma ValidExactly(cfg: Config, total: int, step: int)
    ensures CriticTarget(cfg, total).Some? && ActorDue(cfg, total, step).Some? <==> Valid(cfg) && total >= 0
  {
  }

  // ----- The loops

  /** The inner loop: critic updates until the target is met. */
  function CatchUp(cfg: Config, total: int, target: int, s: Counters): Option<Counters>
    decreases target - s.critic
  {
    if s.critic >= target then Some(s) else
    var due := ActorDue(cfg, total, s.step);
    if due.None? then None
    else CatchUp(cfg, total, target, Counters(s.critic + 1, s.step + 1, s.actor + if due.value then 1 else 0))
  }

  /** The outer loop: one replay total after the other, from + 1 up to `upto`. */
  function Advance(cfg: Config, s: Counters, from: int, upto: int): Option<Counters>
    decreases upto - from
  {
    if from >= upto then Some(s) else
    var before := Advance(cfg, s, from, upto - 1);
    if before.None? then None else
    var target := CriticTarget(cfg, upto);
    if target.None? then None else CatchUp(cfg, upto, target.value, before.value)
  }

  /** floor(max(0, size - learning_starts + 1) * rate): the updates done before the audited phase. */
  function CalibrationUpdates(cfg: Config, size: int): int {
    var n := size - cfg.learningStarts + 1;
    ((if n > 0 then n else 0) as real * cfg.rate).Floor
  }

  method ScheduleAudit(cfg: Config, size: int, from: int, upto: int) returns (s: Option<Counters>)
    ensures s == Advance(cfg, Counters(CalibrationUpdates(cfg, size), CalibrationUpdates(cfg, size), 0), from, upto)
  {
    var calibration := CalibrationUpdates(cfg, size);
    var critic, step, actor := calibration, calibration, 0;
    ghost var start := Counters(calibration, calibration, 0);
    var total := from;
    while total < upto
      invariant from <= total && (total <= upto || total == from)
      invariant Advance(cfg, start, from, total) == Some(Counters(critic, step, actor))
      decreases upto - total
    {
      total := total + 1;
      var target := CriticTarget(cfg, total);
      if target.None? {
        AdvanceFails(cfg, start, from, total, upto);
        return None;
      }
      ghost var entry := Counters(critic, step, actor);
      while critic < target.value
        invariant CatchUp(cfg, total, target.value, Counters(critic, step, actor)) ==
                  CatchUp(cfg, total, target.value, entry)
      {
        var due := ActorDue(cfg, total, step);
        if due.None? {
          AdvanceFails(cfg, start, from, total, upto);
          return None;
        }
        if due.value {
          actor := actor + 1;
        }
        critic, step := critic + 1, step + 1;
      }
    }
    s := Some(Counters(critic, step, actor));
  }

  lemma {:induction false} AdvanceFails(cfg: Config, s: Counters, from: int, mid: int, upto: int)
    requires mid <= upto && Advance(cfg, s, from, mid).None?
    ensures Advance(cfg, s, from, upto).None?
    decreases upto - mid
  {
    if mid < upto {
      AdvanceFails(cfg, s, from, mid, upto - 1);
    }
  }

  /** Stopping at any replay total and resuming gives the same counters as one straight run. */
  lemma {:induction false} ResumeIsStraight(cfg: Config, s: Counters, from: int, mid: int, upto: int)
    requires from <= mid <= upto
    ensures var half := Advance(cfg, s, from, mid);
            Advance(cfg, s, from, upto) == (if half.None? then None else Advance(cfg, half.value, mid, upto))
    decreases upto - mid
  {
    if mid < upto {
      ResumeIsStraight(cfg, s, from, mid, upto - 1);
    }
  }

  // ----- The target function

  function Target(cfg: Config, total: int): int
    requires Valid(cfg) && total >= 0
  {
    CriticTarget(cfg, total).value
  }

  lemma Scale(a: int, b: int, rate: real)
    requires a <= b && rate > 0.0
    ensures a as real * rate <= b as real * rate
  {
  }

  lemma FloorGrows(a: real, b: real)
    requires a <= b
    ensures a.Floor <= b.Floor
  {
  }

  lemma TargetGrows(cfg: Config, a: int, b: int)
    requires Valid(cfg) && 0 <= a <= b
    ensures 0 <= Target(cfg, a) <= Target(cfg, b)
  {
    if b > cfg.learningStarts {
      var n := b - cfg.learningStarts + 1;
      Scale(0, n, cfg.rate);
      FloorGrows(0.0, n as real * cfg.rate);
      if a > cfg.learningStarts {
        var k := a - cfg.learningStarts + 1;
        Scale(0, k, cfg.rate);
        FloorGrows(0.0, k as real * cfg.rate);
        Scale(k, n, cfg.rate);
        FloorGrows(k as real * cfg.rate, n as real * cfg.rate);
      }
    }
  }

  // ----- Closed forms

  /** How many of the update steps below n are actor steps of the interval pattern. */
  function Pattern(cfg: Config, n: int): int
    requires Valid(cfg)
  {
    if n <= cfg.burnin then 0 else (n - cfg.burnin) / cfg.interval
  }

  lemma DivisionStep(n: int, k: int)
    requires n >= 0 && k > 0
    ensures (n + 1) / k == n / k + if (n + 1) % k == 0 then 1 else 0
  {
    var q, r := n / k, n % k;
    assert n == q * k + r;
    if r + 1 == k {
      assert n + 1 == (q + 1) * k;
      QuotientUnique(n + 1, k, q + 1, 0);
    } else {
      QuotientUnique(n + 1, k, q, r + 1);
    }
  }

  lemma Scaled(a: int, b: int, k: int)
    requires a >= b && k > 0
    ensures a * k >= b * k
  {
  }

  lemma QuotientUnique(n: int, k: int, q: int, r: int)
    requires k > 0 && n == q * k + r && 0 <= r < k
    ensures n / k == q && n % k == r
  {
    var d := n / k - q;
    assert n == (n / k) * k + n % k;
    assert d * k == r - n % k;
    if d >= 1 {
      Scaled(d, 1, k);
    } else if d <= -1 {
      Scaled(-1, d, k);
    }
  }

  lemma PatternStep(cfg: Config, total: int, n: int)
    requires Valid(cfg) && total >= cfg.actorLearningStarts
    ensures Pattern(cfg, n + 1) == Pattern(cfg, n) + if ActorDue(cfg, total, n).value then 1 else 0
  {
    if n >= cfg.burnin {
      DivisionStep(n - cfg.burnin, cfg.interval);
      assert 0 / cfg.interval == 0;
    }
  }

  lemma {:induction false} CatchUpCounts(cfg: Config, total: int, target: int, s: Counters)
    requires Valid(cfg)
    ensures var critic := Max(s.critic, target);
            var step := s.step + (critic - s.critic);
            CatchUp(cfg, total, target, s) ==
              Some(Counters(critic, step, s.actor + if total < cfg.actorLearningStarts then 0
                                                    else Pattern(cfg, step) - Pattern(cfg, s.step)))
    decreases target - s.critic
  {
    hide Pattern;
    if s.critic < target {
      var due := ActorDue(cfg, total, s.step);
      CatchUpCounts(cfg, total, target, Counters(s.critic + 1, s.step + 1, s.actor + if due.value then 1 else 0));
      if total >= cfg.actorLearningStarts {
        PatternStep(cfg, total, s.step);
      }
    }
  }

  /** The critic counter when replay total `upto` has been served. */
  function CriticAt(cfg: Config, critic: int, from: int, upto: int): int
    requires Valid(cfg) && 0 <= from
  {
    if upto <= from then critic else Max(critic, Target(cfg, upto))
  }

  /** The last total, up to `upto`, at which no actor call is allowed yet. */
  function GateTotal(cfg: Config, upto: int): int {
    if cfg.actorLearningStarts <= upto then cfg.actorLearningStarts - 1 else upto
  }

  /**
   The whole schedule in closed form. The critic counter ends at the larger of its start and the
   target of the last total, the learner step moves along with it, and the actor calls are the
   pattern steps made after the total actor_learning_starts - 1 was served.
   */
  lemma {:induction false} ScheduleClosedForm(cfg: Config, s: Counters, from: int, upto: int)
    requires Valid(cfg) && 0 <= from <= upto
    ensures var end := s.step + CriticAt(cfg, s.critic, from, upto) - s.critic;
            var gate := s.step + CriticAt(cfg, s.critic, from, GateTotal(cfg, upto)) - s.critic;
            var actor := s.actor + Pattern(cfg, end) - Pattern(cfg, gate);
            Advance(cfg, s, from, upto) == Some(Counters(CriticAt(cfg, s.critic, from, upto), end, actor))
    decreases upto - from
  {
    if from < upto {
      ScheduleClosedForm(cfg, s, from, upto - 1);
      var before := Advance(cfg, s, from, upto - 1).value;
      CatchUpCounts(cfg, upto, Target(cfg, upto), before);
      TargetGrows(cfg, upto - 1, upto);
      if cfg.actorLearningStarts - 1 > from && cfg.actorLearningStarts <= upto {
        TargetGrows(cfg, cfg.actorLearningStarts - 1, upto);
      }
    }
  }

  lemma {:induction false} PatternBounded(cfg: Config, a: int, b: int)
    requires Valid(cfg) && a <= b
    ensures 0 <= Pattern(cfg, b) - Pattern(cfg, a) <= b - a
    decreases b - a
  {
    if a < b {
      PatternBounded(cfg, a, b - 1);
      PatternStep(cfg, cfg.actorLearningStarts, b - 1);
    }
  }

  /** What the audit reports, for every valid configuration. */
  lemma {:induction false} AuditReport(cfg: Config, size: int, from: int, upto: int)
    requires Valid(cfg) && 0 <= from <= upto
    ensures var c := CalibrationUpdates(cfg, size);
            var s := Advance(cfg, Counters(c, c, 0), from, upto);
            && s.Some?
            && s.value.critic == (if from < upto then Max(c, Target(cfg, upto)) else c)
            && s.value.step == s.value.critic
            && 0 <= s.value.actor <= s.value.critic - c
  {
    var c := CalibrationUpdates(cfg, size);
    ScheduleClosedForm(cfg, Counters(c, c, 0), from, upto);
    var last := GateTotal(cfg, upto);
    var gate := CriticAt(cfg, c, from, last);
    if from < last {
      TargetGrows(cfg, last, upto);
    }
    PatternBounded(cfg, gate, CriticAt(cfg, c, from, upto));
  }

  // ----- The first transition that may schedule an actor update

  /** Actor calls made while k transitions are added to a replay of total `start`. */
  function ActorCalls(cfg: Config, critic: int, step: int, start: int, k: nat): int
    requires Valid(cfg) && start >= 0
  {
    ScheduleClosedForm(cfg, Counters(critic, step, 0), start, start + k);
    Advance(cfg, Counters(critic, step, 0), start, start + k).value.actor
  }

  function Ceiling(x: real): int {
    -((-x).Floor)
  }

  /** The bound up to which the search goes. */
  function SearchLimit(cfg: Config, critic: int, start: int): int
    requires cfg.rate > 0.0
  {
    var requiredUpdates := Max(critic + 1, cfg.burnin + cfg.interval);
    var requiredTotal := cfg.learningStarts - 1 + Ceiling(requiredUpdates as real / cfg.rate);
    Max(1, Max(cfg.actorLearningStarts - start, requiredTotal - start)) + cfg.interval + 8
  }

  ghost predicate ValidSearch(cfg: Config, critic: int, step: int, start: int) {
    Valid(cfg) && critic >= 0 && step >= 0 && start >= 0 && cfg.actorLearningStarts >= cfg.learningStarts
  }

  /** Between the gate and the search limit the learner step passes a step of the interval pattern. */
  ghost predicate Finds(cfg: Config, critic: int, step: int, start: int)
    requires ValidSearch(cfg, critic, step, start)
  {
    var last := start + SearchLimit(cfg, critic, start);
    Pattern(cfg, step + CriticAt(cfg, critic, start, GateTotal(cfg, last)) - critic) <
    Pattern(cfg, step + CriticAt(cfg, critic, start, last) - critic)
  }

  /** Simulate the schedule until an actor update is due; None is the error of a fruitless search. */
  method FirstActorTransition(cfg: Config, critic0: int, step0: int, start: int) returns (k: Option<nat>)
    ensures !ValidSearch(cfg, critic0, step0, start) ==> k == None
    ensures ValidSearch(cfg, critic0, step0, start) && k.Some? ==>
      && 1 <= k.value <= SearchLimit(cfg, critic0, start)
      && ActorCalls(cfg, critic0, step0, start, k.value) > 0
      && ActorCalls(cfg, critic0, step0, start, k.value - 1) == 0
    ensures ValidSearch(cfg, critic0, step0, start) ==>
      SearchLimit(cfg, critic0, start) >= 0 && (k.Some? <==> Finds(cfg, critic0, step0, start))
  {
    if start < 0 || critic0 < 0 || step0 < 0 || cfg.learningStarts < 0 || cfg.actorLearningStarts < 0
       || cfg.burnin < 0 || cfg.interval <= 0 || cfg.actorLearningStarts < cfg.learningStarts || cfg.rate <= 0.0
    {
      return None;
    }
    var limit := SearchLimit(cfg, critic0, start);
    var critic, step := critic0, step0;
    ActorCallsClosedForm(cfg, critic0, step0, start, limit);
    hide Pattern, CriticAt, GateTotal;
    ghost var s0 := Counters(critic0, step0, 0);
    for online := 1 to limit + 1
      invariant Advance(cfg, s0, start, start + online - 1) == Some(Counters(critic, step, 0))
    {
      var total := start + online;
      var target := CriticTarget(cfg, total).value;
      ghost var entry := Counters(critic, step, 0);
      while critic < target
        invariant CatchUp(cfg, total, target, Counters(critic, step, 0)) == CatchUp(cfg, total, target, entry)
      {
        if ActorDue(cfg, total, step).value {
          CatchUpKeepsCalls(cfg, total, target, Counters(critic + 1, step + 1, 1));
          assert start + online - 1 == start + (online - 1);
          ActorCallsGrow(cfg, critic0, step0, start, online, limit);
          return Some(online);
        }
        critic, step := critic + 1, step + 1;
      }
    }
    k := None;
  }

  lemma {:induction false} CatchUpKeepsCalls(cfg: Config, total: int, target: int, s: Counters)
    requires Valid(cfg)
    ensures CatchUp(cfg, total, target, s).Some? && CatchUp(cfg, total, target, s).value.actor >= s.actor
  {
    CatchUpCounts(cfg, total, target, s);
    PatternBounded(cfg, s.step, s.step + (Max(s.critic, target) - s.critic));
  }

  lemma ActorCallsClosedForm(cfg: Config, critic: int, step: int, start: int, k: nat)
    requires Valid(cfg) && start >= 0
    ensures ActorCalls(cfg, critic, step, start, k) ==
            Pattern(cfg, step + CriticAt(cfg, critic, start, start + k) - critic) -
            Pattern(cfg, step + CriticAt(cfg, critic, start, GateTotal(cfg, start + k)) - critic)
  {
    ScheduleClosedForm(cfg, Counters(critic, step, 0), start, start + k);
  }

  lemma ActorCallsGrow(cfg: Config, critic: int, step: int, start: int, j: nat, k: nat)
    requires Valid(cfg) && start >= 0 && j <= k
    ensures 0 <= ActorCalls(cfg, critic, step, start, j) <= ActorCalls(cfg, critic, step, start, k)
  {
    var s := Counters(critic, step, 0);
    ScheduleClosedForm(cfg, s, start, start + j);
    CallsNeverShrink(cfg, s, start, start + j);
    ResumeIsStraight(cfg, s, start, start + j, start + k);
    CallsNeverShrink(cfg, Advance(cfg, s, start, start + j).value, start + j, start + k);
  }

  lemma {:induction false} CallsNeverShrink(cfg: Config, s: Counters, from: int, upto: int)
    requires Valid(cfg) && 0 <= from <= upto
    ensures Advance(cfg, s, from, upto).Some? && Advance(cfg, s, from, upto).value.actor >= s.actor
  {
    hide Advance, Pattern;
    ScheduleClosedForm(cfg, s, from, upto);
    var last := GateTotal(cfg, upto);
    if from < last {
      TargetGrows(cfg, last, upto);
    }
    PatternBounded(cfg, s.step + CriticAt(cfg, s.critic, from, last) - s.critic,
                   s.step + CriticAt(cfg, s.critic, from, upto) - s.critic);
  }

  lemma TargetReaches(cfg: Config, needed: int, total: int)
    requires Valid(cfg) && total > cfg.learningStarts
    requires total - cfg.learningStarts + 1 >= Ceiling(needed as real / cfg.rate)
    ensures total >= 0 && Target(cfg, total) >= needed
  {
    var n := total - cfg.learningStarts + 1;
    CeilingCovers(needed, cfg.rate, n);
    FloorGap(needed as real, n as real * cfg.rate, 0);
  }

  /** The schedule always reaches an actor call in the end, so every failed search gave up too early. */
  lemma ScheduleReachesActor(cfg: Config, critic: int, step: int, start: int) returns (k: nat)
    requires ValidSearch(cfg, critic, step, start)
    ensures ActorCalls(cfg, critic, step, start, k) > 0
  {
    hide ActorCalls, Pattern, Ceiling, CriticTarget;
    var gate := step + CriticAt(cfg, critic, start, cfg.actorLearningStarts - 1) - critic;
    var needed := Max(gate, cfg.burnin) + cfg.interval + critic;
    k := cfg.actorLearningStarts + cfg.learningStarts + Max(Ceiling(needed as real / cfg.rate), 0) + 1;
    TargetReaches(cfg, needed, start + k);
    ActorCallsClosedForm(cfg, critic, step, start, k);
    PatternAhead(cfg, gate, step + CriticAt(cfg, critic, start, start + k) - critic);
  }

  /**
   The search bound is not as generous as it claims: with a tenth of an update per transition and an
   actor call every tenth update, the search gives up although the schedule does reach a call.
   */
  lemma SearchGivesUpTooEarly() returns (cfg: Config, critic: int, start: int, limit: nat, later: nat)
    ensures cfg == Config(0, 0, 0, 10, 0.1) && critic == 1001 && start == 10009 && limit == 28 && later == 90
    ensures ValidSearch(cfg, critic, critic, start) && limit == SearchLimit(cfg, critic, start)
    ensures ActorCalls(cfg, critic, critic, start, limit) == 0
    ensures ActorCalls(cfg, critic, critic, start, later) == 1
  {
    hide Advance, ActorCalls;
    cfg, critic, start, limit, later := Config(0, 0, 0, 10, 0.1), 1001, 10009, 28, 90;
    var updates := 1002.0 / cfg.rate;
    assert updates * 0.1 == 1002.0;
    assert updates == 10020.0;
    ActorCallsClosedForm(cfg, critic, critic, start, limit);
    ActorCallsClosedForm(cfg, critic, critic, start, later);
    assert Target(cfg, start + limit) == 1003 && Target(cfg, start + later) == 1010;
  }

  lemma PatternAhead(cfg: Config, a: int, b: int)
    requires Valid(cfg) && b >= Max(a, cfg.burnin) + cfg.interval
    ensures Pattern(cfg, b) > Pattern(cfg, a)
  {
    var m := Max(a, cfg.burnin);
    PatternBounded(cfg, a, m);
    PatternBounded(cfg, m + cfg.interval, b);
    var n, k := m - cfg.burnin, cfg.interval;
    assert n == (n / k) * k + n % k;
    QuotientUnique(n + k, k, n / k + 1, n % k);
    assert 0 / k == 0;
  }

  lemma FloorGap(x: real, y: real, k: int)
    requires x + k as real <= y
    ensures x.Floor + k <= y.Floor
  {
  }

  lemma CeilingCovers(r: int, rate: real, t: int)
    requires rate > 0.0 && t >= Ceiling(r as real / rate)
    ensures t as real * rate >= r as real
  {
    var q := r as real / rate;
    assert t as real >= q;
    assert q * rate == r as real;
    assert (t as real - q) * rate >= 0.0;
  }

  /** t more transitions raise the target by at least k updates when t * rate >= k. */
  /**
   The calibration's count is the critic target at its replay size, except at a size of exactly the learning
   starts, where the target is still zero, with at least one update per transition.
   */
  lemma CalibrationIsTarget(cfg: Config, size: int)
    requires Valid(cfg) && size >= 0
    ensures CalibrationUpdates(cfg, size) == Target(cfg, size) <==> size != cfg.learningStarts || cfg.rate < 1.0
  {
    var n := size - cfg.learningStarts + 1;
    if n <= 0 {
      assert 0.0 * cfg.rate == 0.0;
    } else if n == 1 {
      assert 1.0 * cfg.rate == cfg.rate;
    }
  }

  lemma TargetGap(cfg: Config, a: int, b: int, t: int, k: int)
    requires Valid(cfg) && 0 <= a && b >= a + t && t > 0 && b > cfg.learningStarts
    requires t as real * cfg.rate >= k as real
    ensures Target(cfg, b) >= Target(cfg, a) + (if a > cfg.learningStarts then k else 0)
  {
    TargetGrows(cfg, a, b);
    if a > cfg.learningStarts {
      var x, y := a - cfg.learningStarts + 1, b - cfg.learningStarts + 1;
      Scale(x + t, y, cfg.rate);
      assert (x + t) as real * cfg.rate == x as real * cfg.rate + t as real * cfg.rate;
      FloorGap(x as real * cfg.rate, y as real * cfg.rate, k);
    }
  }

  /** The target at the search limit covers the required updates and a whole interval more. */
  lemma LimitTarget(cfg: Config, critic: int, start: int)
    requires ValidSearch(cfg, critic, critic, start)
    requires (cfg.interval + 8) as real * cfg.rate >= cfg.interval as real
    ensures var last := start + SearchLimit(cfg, critic, start);
            && last > cfg.learningStarts && last >= cfg.actorLearningStarts + cfg.interval + 8
            && Target(cfg, last) >= Max(critic + 1, cfg.burnin + cfg.interval) + cfg.interval
  {
    hide Ceiling;
    var required, extra := Max(critic + 1, cfg.burnin + cfg.interval), cfg.interval + 8;
    var last := start + SearchLimit(cfg, critic, start);
    var n := last - cfg.learningStarts + 1;
    CeilingPositive(required, cfg.rate);
    CeilingCovers(required, cfg.rate, n - extra);
    FloorPart(n, extra, cfg.rate, required, cfg.interval);
  }

  lemma CeilingPositive(r: int, rate: real)
    requires r > 0 && rate > 0.0
    ensures Ceiling(r as real / rate) > 0
  {
    assert r as real / rate > 0.0;
  }

  lemma FloorPart(n: int, extra: int, rate: real, r: int, k: int)
    requires (n - extra) as real * rate >= r as real && extra as real * rate >= k as real
    ensures (n as real * rate).Floor >= r + k
  {
    assert n as real * rate == (n - extra) as real * rate + extra as real * rate;
    FloorGap(r as real, n as real * rate, k);
  }

  /**
   The search succeeds whenever interval + 8 transitions bring at least `interval` updates, in
   particular at one update per transition or more, and the learner step has passed the burn-in by
   the time the critic count reaches the required updates. It always has when the step is not behind.
   */
  lemma SearchSucceeds(cfg: Config, critic: int, step: int, start: int)
    requires ValidSearch(cfg, critic, step, start)
    requires (cfg.interval + 8) as real * cfg.rate >= cfg.interval as real
    requires step + Max(critic + 1, cfg.burnin + cfg.interval) - critic >= cfg.burnin
    ensures SearchLimit(cfg, critic, start) >= 0
    ensures ActorCalls(cfg, critic, step, start, SearchLimit(cfg, critic, start)) > 0
  {
    var limit := SearchLimit(cfg, critic, start);
    var last := start + limit;
    LimitTarget(cfg, critic, start);
    ActorCallsClosedForm(cfg, critic, step, start, limit);
    var gate := CriticAt(cfg, critic, start, GateTotal(cfg, last));
    if cfg.actorLearningStarts - 1 > start {
      TargetGap(cfg, cfg.actorLearningStarts - 1, last, cfg.interval + 8, cfg.interval);
    }
    hide ActorCalls, Pattern;
    PatternAhead(cfg, step + gate - critic, step + CriticAt(cfg, critic, start, last) - critic);
  }

  /** With the learner step behind the critic count the search can fail even at one update per transition. */
  lemma SearchFailsBehind() returns (cfg: Config)
    ensures cfg == Config(0, 0, 100, 1, 1.0) && ValidSearch(cfg, 1000, 0, 999)
    ensures ActorCalls(cfg, 1000, 0, 999, SearchLimit(cfg, 1000, 999)) == 0
  {
    cfg := Config(0, 0, 100, 1, 1.0);
    assert Ceiling(1001.0 / 1.0) == 1001;
    assert SearchLimit(cfg, 1000, 999) == 10;
    ActorCallsClosedForm(cfg, 1000, 0, 999, 10);
    assert Target(cfg, 1009) == 1010;
  }
}
