/** What the artifact writer demands of the collected rows, and which passing runs meet it. */
module CollectorWriter {
  import opened Basics
  import opened CollectorSpec
  import opened CollectorSafety
  import opened CollectorRuns

  /** The writer accepts one row. */
  predicate Accepts(row: Row) {
    && row.step >= 0
    && 0 <= row.planned.action < |row.mask| && row.mask[row.planned.action]
    && |row.nextMask| == |row.mask|
  }

  ghost predicate UniquePairs(rows: seq<Row>) {
    forall i, j :: 0 <= i < j < |rows| ==>
      rows[i].stateId != rows[j].stateId || rows[i].planned.action != rows[j].planned.action
  }

  /** The writer accepts the rows: some rows, each acceptable, no state/action pair twice, one action dimension. */
  ghost predicate Writable(rows: seq<Row>) {
    && rows != []
    && (forall i :: 0 <= i < |rows| ==> Accepts(rows[i]))
    && UniquePairs(rows)
    && forall i :: 0 <= i < |rows| ==> |rows[i].mask| == |rows[0].mask|
  }

  /** A row of action dimension d, recorded at a step that is not negative. */
  predicate Sized(d: nat, row: Row) {
    row.step >= 0 && |row.mask| == |row.nextMask| == d
  }

  /** The rows of a passing run are acceptable exactly when they have one action dimension and no negative step. */
  lemma {:induction false} PassIsWritable(w: World, cfg: Config, targets: seq<Target>)
    requires |targets| == cfg.maxStates
    requires Passes(cfg, Collect(w, cfg, Empty(), targets, 0).ledger)
    ensures var rows := Collect(w, cfg, Empty(), targets, 0).ledger.rows;
            && UniquePairs(rows)
            && (forall i :: 0 <= i < |rows| ==>
                  0 <= rows[i].planned.action < |rows[i].mask| && rows[i].mask[rows[i].planned.action])
            && (cfg.minTransitions > 0 ==> rows != [])
            && (Writable(rows) <==> rows != [] && forall i :: 0 <= i < |rows| ==> Sized(|rows[0].mask|, rows[i]))
  {
    hide Collect, Legal, Books, Filed, Settled, Elements, StateIds;
    EveryRun(w, cfg, targets);
    PassCertificate(w, cfg, targets);
    PassRowsDistinct(Collect(w, cfg, Empty(), targets, 0).ledger);
  }

  // ----- Simulators of one action dimension

  /** All masks the simulator ever hands out have width d. */
  ghost predicate Uniform(w: World, d: nat) {
    && (forall log, o :: w.mask(log, o).Some? ==> |w.mask(log, o).value.mask| == d)
    && (forall log, o, v, a :: w.step(log, o, v, a).Some? && w.step(log, o, v, a).value.obs.rawMask.Vector? ==>
          |w.step(log, o, v, a).value.obs.rawMask.bits| == d)
  }

  ghost predicate AllSized(d: nat, rows: seq<Row>) {
    forall i :: 0 <= i < |rows| ==> Sized(d, rows[i])
  }

  lemma {:induction false} PrefixSized(w: World, d: nat, budget: int, s: Walk, actions: seq<int>)
    requires Uniform(w, d) && (s.fate == Going ==> |s.view.mask| == d)
    ensures var t := Prefix(w, budget, s, actions); t.fate == Going ==> |t.view.mask| == d
    decreases |actions|
  {
    if actions != [] && s.fate == Going {
      PrefixSized(w, d, budget, PrefixStep(w, budget, s, actions[0]), actions[1..]);
    }
  }

  lemma ReplaySized(w: World, d: nat, budget: int, log: Log, used: int, target: Target)
    requires Uniform(w, d)
    ensures var p := Replay(w, budget, log, used, target); p.fate == Going ==> |p.view.mask| == d
  {
    PrefixSized(w, d, budget, Start(w, log, used, target.mission), target.prefixActions);
  }

  lemma TrialSized(w: World, d: nat, cfg: Config, log: Log, used: int, target: Target, id: int, planned: Planned)
    requires Uniform(w, d) && target.step >= 0
    ensures var t := TryCandidate(w, cfg, d, log, used, target, id, planned); t.row.Some? ==> Sized(d, t.row.value)
  {
    ReplaySized(w, d, cfg.maxEnvSteps, log, used, target);
    hide Replay, Follow;
  }

  lemma {:induction false} TryPlannedSized(w: World, d: nat, cfg: Config, l: Ledger, index: nat, target: Target,
                                           id: int, plan: seq<Planned>)
    requires Uniform(w, d) && target.step >= 0 && AllSized(d, l.rows)
    ensures AllSized(d, TryPlanned(w, cfg, l, index, d, target, id, plan).rows)
    decreases |plan|
  {
    hide TryCandidate, Uniform, Sized;
    if plan != [] && !LimitReached(cfg, l) {
      var t := TryCandidate(w, cfg, d, l.log, l.used, target, id, plan[0]);
      TrialSized(w, d, cfg, l.log, l.used, target, id, plan[0]);
      var l1 := Book(l, index, id, plan[0], t);
      if !l1.runtimeFailure {
        TryPlannedSized(w, d, cfg, l1, index, target, id, plan[1..]);
      }
    }
  }

  lemma VisitSized(w: World, d: nat, cfg: Config, l: Ledger, index: nat, target: Target)
    requires Uniform(w, d) && target.step >= 0 && AllSized(d, l.rows)
    ensures AllSized(d, Visit(w, cfg, l, index, target).ledger.rows)
  {
    var p := Replay(w, cfg.maxEnvSteps, l.log, l.used, target);
    ReplaySized(w, d, cfg.maxEnvSteps, l.log, l.used, target);
    ScreenAdmits(w, cfg, index, target, p);
    hide Uniform, AllSized, Replay, Screen, TryPlanned;
    match Screen(w, cfg, index, target, p)
    case Abort =>
    case Reject(f) =>
    case Admit(plan) =>
      var id := w.hash(p.obs, p.view.mask, p.prev);
      var l2 := l.(log := p.log, used := p.used,
                   states := l.states + [StateRecord(index, Collecting, Some(id), plan)]);
      TryPlannedSized(w, d, cfg, l2, index, target, id, plan);
  }

  lemma {:induction false} CollectSized(w: World, d: nat, cfg: Config, l: Ledger, targets: seq<Target>, index: nat)
    requires Uniform(w, d) && AllSized(d, l.rows)
    requires forall k :: 0 <= k < |targets| ==> targets[k].step >= 0
    ensures AllSized(d, Collect(w, cfg, l, targets, index).ledger.rows)
    decreases |targets| - index
  {
    hide Uniform, AllSized, Visit;
    if index < |targets| && !LimitReached(cfg, l) {
      VisitSized(w, d, cfg, l, index, targets[index]);
      var r := Visit(w, cfg, l, index, targets[index]);
      if r.Finished? && !r.ledger.runtimeFailure {
        CollectSized(w, d, cfg, r.ledger, targets, index + 1);
      }
    }
  }

  /** Against a simulator of one action dimension the writer accepts the rows of every passing run. */
  lemma {:induction false} UniformPassIsWritable(w: World, d: nat, cfg: Config, targets: seq<Target>)
    requires |targets| == cfg.maxStates && cfg.minTransitions > 0
    requires Uniform(w, d) && forall k :: 0 <= k < |targets| ==> targets[k].step >= 0
    requires Passes(cfg, Collect(w, cfg, Empty(), targets, 0).ledger)
    ensures Writable(Collect(w, cfg, Empty(), targets, 0).ledger.rows)
  {
    CollectSized(w, d, cfg, Empty(), targets, 0);
    PassIsWritable(w, cfg, targets);
    hide Uniform, Collect, Passes, Writable;
  }

  // ----- A passing run that the writer refuses

  /** A simulator whose step ends the episode and whose mask query is wider from then on. */
  function Widening(): World {
    World((_, _) => Some(Obs(0, OtherShape)),
          (_, o: Obs) => Some(View(if o.content == 0 then [true] else [true, true], 0)),
          (_, _, _, _) => Some(StepReply(Obs(1, OtherShape), 0.0, true, 0, "")),
          (_, _, _) => 0, (_, _, _) => 0, (_, _, _, _) => Some(None), (_, _) => Some([]), (_, _) => [], (_, _) => None)
  }

  const ONE := Config(1, 1, 1, 1, 10, 5, 0, 0, 0.0)
  const FIRST := Target(0, 0, 0, 0, 0, [])
  const WIDENED := Row(0, 0, 0, 0, Planned(BC, 0), [true], 0.0, Obs(0, OtherShape), 0, Obs(1, OtherShape),
                       [true, true], true)

  /** Its one candidate branch: the row has another width after the step than before. */
  lemma WideningTrial(log: Log)
    ensures var p := Replay(Widening(), 10, log, 0, FIRST);
            p.fate == Going && p.view == View([true], 0) && p.used == 0
    ensures var t := TryCandidate(Widening(), ONE, 1, log, 0, FIRST, 0, Planned(BC, 0));
            t.row == Some(WIDENED)
  {
    var w := Widening();
    var p := Replay(w, 10, log, 0, FIRST);
    assert p == Start(w, log, 0, 0);
    var c := CandidateStep(w, 10, 1, p, 0);
    assert c.fate == Going && c.done && c.view.mask == [true, true];
    assert Follow(w, 10, 5, 1, c) == c;
  }

  lemma WideningPlan()
    ensures Plan(Widening(), ONE, 0, [true], 0, None, []) == [Planned(BC, 0)]
  {
    assert Actions([]) == [];
    assert Chosen([true], 0, None, []) == [Planned(BC, 0)];
    assert Draw(Widening(), 0, 0, Available([true], [Planned(BC, 0)], 1)) == [];
  }

  lemma WideningScreen(p: Walk)
    requires p.fate == Going && p.view == View([true], 0)
    ensures Screen(Widening(), ONE, 0, FIRST, p) == Admit([Planned(BC, 0)])
  {
    WideningPlan();
    hide Plan;
  }

  lemma {:induction false} WideningTries(l: Ledger)
    requires l.rows == [] && l.episodes == 0 && l.used == 0 && !l.runtimeFailure
    ensures var l1 := TryPlanned(Widening(), ONE, l, 0, 1, FIRST, 0, [Planned(BC, 0)]);
            l1.rows == [WIDENED] && !l1.runtimeFailure
  {
    WideningTrial(l.log);
    hide TryCandidate;
    var t := TryCandidate(Widening(), ONE, 1, l.log, 0, FIRST, 0, Planned(BC, 0));
    var l1 := Book(l, 0, 0, Planned(BC, 0), t);
    assert [Planned(BC, 0)][1..] == [];
    assert TryPlanned(Widening(), ONE, l1, 0, 1, FIRST, 0, []) == l1;
  }

  lemma WideningVisit()
    ensures var r := Visit(Widening(), ONE, Empty(), 0, FIRST);
            r.Finished? && r.ledger.rows == [WIDENED] && !r.ledger.runtimeFailure
  {
    hide Replay, TryPlanned, TryCandidate, Plan, Start, Screen;
    var p := Replay(Widening(), 10, [], 0, FIRST);
    WideningTrial([]);
    WideningScreen(p);
    assert Widening().hash(p.obs, p.view.mask, p.prev) == 0 && |p.view.mask| == 1;
    var l := Empty().(log := p.log).(used := p.used);
    WideningTries(l.(states := l.states + [StateRecord(0, Collecting, Some(0), [Planned(BC, 0)])]));
  }

  /** The gate reports PASS for the one collected row, and the writer refuses it. */
  lemma PassRefused()
    ensures var l := Collect(Widening(), ONE, Empty(), [FIRST], 0).ledger; Passes(ONE, l) && !Writable(l.rows)
  {
    WideningVisit();
    hide Visit;
    var l := Visit(Widening(), ONE, Empty(), 0, FIRST).ledger;
    assert Collect(Widening(), ONE, Empty(), [FIRST], 0).ledger == l;
    hide Collect;
    assert StateIds(l.rows) == [0];
    assert Elements([0]) == {0};
    assert !Accepts(l.rows[0]);
  }
}
