# Models and proofs for the planning and training audit scripts

This project models the algorithmic cores of the repository's collection, audit and evaluation
scripts and proves what they are for. Loops that change things step by step are methods with
invariants over arrays, sequences and small classes; each is proved against a specification
function or an outright property, and the theorems about whole runs are lemmas on those functions.

- **Bounded multi-action collector** (`CollectorSpec`, `CollectorSafety`, `CollectorPlan`,
  `CollectorRuns`, `CollectorEvidence`, `CollectorGates`, `CollectorOrder`, `CollectorDeterminism`, `CollectorWriter`,
  `CollectorTargets`, `Collector`). The simulator is a
  class whose replies may depend on the whole log of calls made so far, so the theorems range over
  every simulator: stateful, random or failing. The log is the account of real steps.
- **Tied ranks and correlation** (`Ranks`, `Correlation`, `AffineFit`, with `Vectors`, `Reals`). A
  coefficient is kept as numerator and squared denominator, so no square root is needed.
- **Returns, links and n-step targets** (`Returns`, `Grouped`, `Sidecar`).
- **Exact journal replay** (`JournalFile`, `Replay`, `Capture`, `CaptureLaws`, `Crossing`,
  `TrustRegion`). The sampler and the fingerprints are uninterpreted functions of the whole state;
  the trainer that writes a journal and the scripts that replay it are separate machines over
  them. `TrustRegion` fills in their updates: the actor transaction with backtracking that the
  trainer and one audit use, the one without that the other scripts use, and the metrics of each.
- **Exact statistics and schedules** (`McNemar`, `Wilson`, `Schedule`).

Environment replies, hashes, the frozen policy, neighbour lists, teacher matches, the position
error, random draws, learner updates, fingerprints and the probe KL are parameters. Raised
exceptions are `None` or an error constructor. What remains as a precondition is what every caller
establishes: arrays filled side by side have equal lengths, a limit is positive, a simulator is fresh,
a sidecar is the one that was built. Numbers are mathematical integers and reals.

Where the code does less than its text says, the code is modelled and the exact condition proved:

- The planner never returns an empty plan for a state that passed the earlier gates, so the
  `no_legal_candidates` branch of the collector is dead (`CollectorRuns.EveryRun`).
- A collected row names its next state by the candidate's own step, but its next state vector and depth
  are taken from the observation the branch ended with. Both are of one step exactly when the candidate
  ended the branch; otherwise the stored observation belongs to a later state
  (`CollectorEvidence.NextObservation`, with `CollectorEvidence.LaterObservationStored` for a case).
- A run that passes the gate can still be refused by the artifact writer: exactly when its rows do not
  have one action dimension, before and after the step, or carry a negative step number
  (`CollectorWriter.PassIsWritable`, with `CollectorWriter.PassRefused` for a case). Against a simulator of one
  action dimension every passing run is accepted (`CollectorWriter.UniformPassIsWritable`).
- The replay script and the first-crossing audit propose without the trainer's trust region and
  without its residual statistics, and a missing metric counts as a mismatch. So the replay script
  fails every trained journal with an actor proposal, at its first proposal, even where the agents
  are the same (`TrustRegion.PlainReplaysExactly`, `TrustRegion.PlainDivergence`,
  `TrustRegion.OneProposalFails`); the agents stay the same exactly as long as both transactions
  decide alike (`TrustRegion.PlainStates`, with `TrustRegion.HalfRatePayload` for a captured payload
  that the trainer never had). The entropy-floor audit repeats both and replays every
  trained journal exactly (`TrustRegion.AuditReplaysExactly`).
- A candidate that is the policy's own action is the same branch as following the policy, except
  when the recorded prefix already has max_steps actions, or for a misshaped next mask: the
  candidate step asks for it even at a terminal step, swallows a failing query and keeps the
  information of the step reply (`CollectorDeterminism.PolicyBranch`, with
  `CollectorDeterminism.MasklessParts` for a case).
- A journal that is reopened after a torn write is appended to behind the torn bytes, which costs the
  first new record unless the glued line happens to decode to it (`JournalFile.ResumeIsLossless`,
  with `JournalFile.TornJournalLosesRecord` for a case).
- The bound of the first-actor search is called generous, but the search gives up too early for some
  valid schedules; the schedule always does reach an actor call
  (`Schedule.SearchGivesUpTooEarly`, `Schedule.SearchFailsBehind`, `Schedule.ScheduleReachesActor`,
  and `Schedule.FirstActorTransition` for the exact condition).
- The 1e-12 guard of one correlation never changes a coefficient of ranks, but does change
  one of raw values with a tiny spread (`Correlation.GuardNeverFires`, `Correlation.GuardOnRawValues`,
  with `Correlation.GuardHidesSmallSpread` for a case).
- Two audits report the correlation of permutation ranks as Spearman's. For one side it is Spearman's
  coefficient against every tie-free other side exactly when that side has no ties either, or is
  constant and both are undefined (`Correlation.OrdinalSpearman`, with `Correlation.TieChangesSpearman`
  for a case).
- R squared of the affine fit is the squared correlation exactly when x varies more than the guard, and y
  does too or lies on the line, or when x does not and x and y do not vary together
  (`AffineFit.RSquaredIsCorrelation`).
- Below the variance guard the affine fit returns the flat line through the mean, which is a
  least-squares line exactly when x and y do not vary together (`AffineFit.FitLineIsOptimal`, with
  `AffineFit.GuardMissesSlope` for a case).
- The crossing kept while replaying and the crossing found by scanning differ exactly when the trajectory
  starts at or above 1.0 and later rises across it again (`Crossing.CandidateAgreesWithScan`, with
  `Crossing.RecrossingDisagrees` for a case).
- A crossing, and the window of the last hundred accepted updates, are named by accepted-update counts,
  but payloads are captured by proposal index. For every accepted update both name the same record
  exactly when no proposal precedes the journal and none was rejected before the update
  (`Crossing.StepPayload`, `Crossing.CrossingPayload`, `Crossing.WindowPayload`, with
  `Crossing.RejectionHidesCrossing` for a case); the trainer's stop at the first rejection makes this hold for a run started from scratch
  (`Crossing.TrainedCrossing`).
- The calibration count of the schedule audit is one or more, where the critic target is still zero, at a replay
  size of exactly the learning starts with a rate of one or more (`Schedule.CalibrationIsTarget`).
- Capturing one target stops at its first record, capturing many keeps the last one; they agree for
  every learner exactly when the target's index is not repeated (`CaptureLaws.AgreementExactly`).

## Model

| member | source | states |
|---|---|---|
| `CollectorRuns.EveryRun` | scripts/collect_multi_action_replay.py:669-801 | in every run, however it ends, against every simulator: attempted steps never exceed max_env_steps and every command is sent with the observation, mask and information that the simulator last reported, and allowed by that mask; branches = episode count <= max_episodes; rows <= max_transitions; each failure tally equals the skips plus the failed branches of that kind, and all failed branches together are branches minus rows; the no-legal-candidates tally is always zero; branches belong to their state records and no state tries an action twice; a state is accepted exactly when it has a row; reported steps are real steps unless an exception lost the counter |
| `CollectorRuns.PassCertificate` | scripts/collect_multi_action_replay.py:815-823 | with max_states targets, PASS holds exactly when no exception interrupted a branch, every target was visited and accepted, the targets' state hashes are pairwise different, and there are enough rows |
| `CollectorRuns.CountsAreComplete` | scripts/collect_multi_action_replay.py:815-821 | the pigeonhole behind it: n distinct accepted state ids among at most n visited states means all n are accepted with different ids, and conversely |
| `CollectorWriter.PassIsWritable` | python/planning/diagnostics/multi_action_replay.py:111-201 | the rows of a passing run have unique state/action pairs and allowed, non-negative actions; the artifact writer accepts them exactly when no step number is negative and all masks, before and after the step, have one width |
| `CollectorWriter.UniformPassIsWritable` | python/planning/diagnostics/multi_action_replay.py:111-201 | the writer accepts every passing run against a simulator whose masks all have one width, for recorded steps that are not negative |
| `CollectorWriter.PassRefused` | scripts/collect_multi_action_replay.py:815-848 | a simulator for which the gate reports PASS and the writer refuses the row |
| `CollectorRuns.TryPlannedSound` | scripts/collect_multi_action_replay.py:745-790 | trying the planned candidates keeps the books, extends only the open state's branches, and keeps the step counter exact unless an exception ends it |
| `CollectorRuns.VisitSound` | scripts/collect_multi_action_replay.py:675-801 | one pass of the outer loop keeps the whole invariant and adds exactly one state record unless it aborts the run |
| `CollectorEvidence.BranchesWereExecuted` | scripts/collect_multi_action_replay.py:469-555 | every completed branch is a stretch of the simulator's log that replays the recorded prefix to the state of the recorded hash, takes the candidate action there, sends every later step with the frozen policy's own action for what it observed, and has exactly the reported return and step count; it ended at a terminal step with the reported reason, or as a timeout after max_steps; every collected row is shown by such a stretch, with the fields listed under `CollectorSafety.TrialSafe` |
| `CollectorEvidence.NextObservation` | scripts/collect_multi_action_replay.py:480-579 | the next state id and mask of a row are those of the candidate's step, the next observation is that of the branch's last step; both are one step exactly when the candidate was terminal or used up the steps, and then the id is the hash of what is stored |
| `CollectorEvidence.LaterObservationStored` | scripts/collect_multi_action_replay.py:505-579 | a simulator of two steps for which the row's next state id and next observation are of different states |
| `CollectorSafety.ReplaySafe` | scripts/collect_multi_action_replay.py:399-438 | a replayed prefix reset to the target's mission, commanded exactly the recorded actions, met no terminal step, stayed in budget and sent only allowed commands; the replayed state is exactly what the simulator last reported: the last observation with its own mask vector, or the answer to the query after it |
| `CollectorSafety.FollowSafe` | scripts/collect_multi_action_replay.py:501-534 | the policy continuation extends the episode by the policy's own actions, stays in budget and stops when done, out of steps, or by an exception |
| `CollectorSafety.TrialSafe` | scripts/collect_multi_action_replay.py:441-584 | an accepted branch attests prefix + candidate + continuation: the log shows the recorded prefix, the candidate action in the state of the expected hash and mask, and then only the policy's own actions, each step with the observation the previous one brought; return, step count, and the row's reward, done flag, observation, next state id and next mask are those of the log at the candidate's step, its next observation is that of the last step; a rejected one has no row |
| `CollectorEvidence.TrialAsks` | scripts/collect_multi_action_replay.py:421-533 | a replay queries a mask only when an observation brings no mask vector; candidate and continuation also when it has another width |
| `CollectorGates.StatesWereJudged` | scripts/collect_multi_action_replay.py:675-743 | in every run there are increasing log positions, one per state record, where the state's replay ended, such that the record is what the log calls for: skipped for a terminal step, or a forbidden prefix action, exactly when the replay stopped there; skipped for its position exactly when it ran through and the position error exceeds the limit; skipped for the policy exactly when the position passes and the policy's action is not the recorded one; opened with the state's hash exactly when both pass, with the candidates of policy, teacher and neighbours under their sources and the seeded draws behind them |
| `CollectorGates.RowsPassedTheGates` | scripts/collect_multi_action_replay.py:690-702 | where hashes identify states, every collected row left from an observation within the position limit, where the policy chooses the recorded action |
| `CollectorOrder.EveryCandidateInTurn` | scripts/collect_multi_action_replay.py:675-801 | in every run each state tries its planned candidates in order, all of them unless it is the last state of a run that a limit or an exception stopped; the loop ends normally exactly when every target has its record, or a limit or an interrupted branch stopped it |
| `CollectorOrder.AbortsExactly` | scripts/collect_multi_action_replay.py:678-717 | an exception leaves the loop exactly when the replay raises, the policy does, or teacher or neighbourhood do once both gates have passed |
| `CollectorDeterminism.BranchReproducesState` | scripts/collect_multi_action_replay.py:463-478 | with a deterministic simulator, after one successful replay no candidate branch of an allowed action reports a prefix failure, hash mismatch or invalid candidate; too little budget for the prefix raises |
| `CollectorDeterminism.DeterministicRun` | scripts/collect_multi_action_replay.py:675-790 | in such a run every branch becomes a row except one that an exception may interrupt at the end, and the tallies of hash mismatches and invalid candidates are zero |
| `CollectorDeterminism.PolicyBranch` | scripts/collect_multi_action_replay.py:478-540 | the branch whose candidate is the policy's own action reports exactly what following the policy from the replayed state gives, unless the prefix already has max_steps actions, or the next mask is misshaped and the query for it is an extra call at a terminal step, fails unnoticed at the last step, or brings other information that a further step sends |
| `CollectorDeterminism.MasklessParts` | scripts/collect_multi_action_replay.py:485-490 | a simulator for which the two branches differ |
| `CollectorDeterminism.OtherInformation` | scripts/collect_multi_action_replay.py:498-534 | two walks that differ only in mask information end alike exactly when no further step is sent |
| `CollectorPlan.PlanMeetsQuota` | python/planning/diagnostics/multi_action_replay.py:380-404 | planned actions are allowed and distinct, the policy's action comes first, and random draws fill the plan to exactly its quota or to all allowed actions |
| `CollectorPlan.PlanSources` | python/planning/diagnostics/multi_action_replay.py:380-404 | the allowed actions of policy, teacher and neighbours are planned, each under the first of these sources that names it, and only other allowed actions as random ones |
| `CollectorPlan.PlanDrawn` | python/planning/diagnostics/multi_action_replay.py:380-404 | the random candidates are those that the generator, seeded for the state, shuffles to the front of the ascending rest |
| `Collector.Simulator.Step` | scripts/collect_multi_action_replay.py:300-321 | one call to the environment: any reply, or an exception, appended to the log of attempted steps |
| `Collector.ReplayPrefix` | scripts/collect_multi_action_replay.py:399-438 | the stepping loop computes the specified replay and leaves its log in the simulator |
| `Collector.StepCandidate` | scripts/collect_multi_action_replay.py:477-500 | the candidate step with its budget check and its swallowed mask query |
| `Collector.FollowPolicy` | scripts/collect_multi_action_replay.py:501-534 | the continuation loop computes the specified continuation, terminating by max_steps - episode_steps |
| `Collector.CandidateTransition` | scripts/collect_multi_action_replay.py:441-584 | one branch: replay, hash check, candidate step, continuation, row |
| `Collector.Collection.TryAll` | scripts/collect_multi_action_replay.py:745-790 | the inner loop with its limit checks, lost counter and runtime flag |
| `Collector.Collection.VisitTarget` | scripts/collect_multi_action_replay.py:675-799 | the body of the outer loop; false when an exception escapes it |
| `Collector.Collection.Run` | scripts/collect_multi_action_replay.py:669-801 | the whole collection is the specified run and satisfies the run invariant |
| `Collector.Collection.Status` | scripts/collect_multi_action_replay.py:815-823 | PASS or FAIL from the distinct state ids and row count |
| `CollectorTargets.LoadFailedTargets` | scripts/collect_multi_action_replay.py:109-157 | an error exactly when the failed episodes have fewer steps than `limit`; otherwise target k is the step that stands at place k, all earlier episodes first and each episode from its last step back: its mission, episode, step, recorded action and position, and as prefix exactly the actions of the steps before it |
| `CollectorTargets.TargetsInOrder` | scripts/collect_multi_action_replay.py:117-157 | the same for the list of all states, of which the loop takes the first ones |
| `Collector.CollectAndJudge` | scripts/collect_multi_action_replay.py:610-823 | the whole script up to its gate: it passes exactly when the first max_states failed states were all accepted under different hashes, with enough rows and no interrupted branch; it reports nothing for invalid arguments, too few states, or an escaping exception |
| `Ranks.RankData` | scripts/diagnose_critic_negative_rho.py:123-135 | the tie loop fills in (#smaller) + (#equal + 1)/2 for every value |
| `Ranks.RankDataFromZero` | scripts/diagnose_critic_td_horizon_factorial.py:493-503 | the 0-based loop fills in the same rank minus one |
| `Ranks.RankDescending` | scripts/diagnose_awac10k_targeted_trace.py:73-85 | the descending loop fills in n + 1 minus the same rank |
| `Ranks.GroupEnd` | scripts/diagnose_critic_negative_rho.py:130-132 | the inner loop finds the end of the maximal group of equal values |
| `Ranks.TieGroupCounts` | scripts/diagnose_critic_negative_rho.py:129-134 | a maximal group of equal sorted values [a, b) has exactly a smaller values and b - a equal ones |
| `Ranks.StableOrderUnique` | scripts/diagnose_critic_negative_rho.py:125 | any two stable argsorts are equal, so the sort is determined by its contract |
| `Ranks.RankGap` | scripts/diagnose_critic_negative_rho.py:123-135 | a larger value ranks higher by at least one |
| `Ranks.RanksOfOrder` | scripts/diagnose_critic_negative_rho.py:123-135 | values that are ordered alike have the same ranks |
| `Ranks.RankSum` | scripts/diagnose_critic_negative_rho.py:123-135 | ties or not, the ranks sum to n(n+1)/2 |
| `Ranks.NegatedRank` | scripts/diagnose_awac10k_targeted_trace.py:73-85 | ranking negated values turns the ranks upside down |
| `Ranks.ScatterRanks` | scripts/audit_sac_first_kl_crossing.py:300-305 | the scatter form computes #smaller + #equal-with-smaller-index |
| `Ranks.ArgsortTwice` | scripts/audit_sac_entropy_floor_v6.py:308-309 | argsort of argsort gives the same ranks |
| `Ranks.OrdinalVersusAverage` | scripts/audit_sac_entropy_floor_v6.py:308-309 | permutation ranks are the 0-based average ranks exactly when no value is tied |
| `Correlation.SubtractMean` | scripts/diagnose_critic_negative_rho.py:149-150 | subtracting the mean in place leaves the centred vector |
| `Correlation.SpearmanFirst` | scripts/diagnose_critic_negative_rho.py:138-154 | the in-place implementation computes Spearman's coefficient of average ranks |
| `Correlation.SpearmanSecond` | scripts/diagnose_critic_td_horizon_factorial.py:490-508 | so does the 0-based one |
| `Correlation.SpearmanThird` | scripts/diagnose_awac10k_targeted_trace.py:88-104 | so does the descending one with its guard |
| `Correlation.SpearmanDefined` | scripts/diagnose_critic_negative_rho.py:143-153 | undefined exactly for different lengths, fewer than two values, or a constant side |
| `Correlation.RankSpread` | scripts/diagnose_awac10k_targeted_trace.py:93-99 | centred ranks of a non-constant vector have a sum of squares of at least one half |
| `Correlation.GuardNeverFires` | scripts/diagnose_awac10k_targeted_trace.py:95-99 | the guard never changes the coefficient of ranks |
| `Correlation.GuardOnRawValues` | scripts/diagnose_awac10k_targeted_trace.py:88-100 | guarded and plain Pearson differ exactly on positive spreads up to the guard |
| `Correlation.GuardHidesSmallSpread` | scripts/diagnose_awac10k_targeted_trace.py:95-99 | two values a millionth apart, for which only the plain coefficient is defined |
| `Correlation.SpearmanBounded` | scripts/diagnose_critic_negative_rho.py:151-154 | the squared numerator never exceeds the squared denominator |
| `Correlation.SpearmanSymmetric` | scripts/diagnose_critic_negative_rho.py:138-154 | exchanging the sides changes nothing |
| `Correlation.SpearmanMonotone` | scripts/diagnose_critic_negative_rho.py:138-154 | strictly increasing maps of either side change nothing |
| `Correlation.SpearmanPerfect` | scripts/diagnose_critic_negative_rho.py:138-154 | sides that are ordered alike and not constant have coefficient exactly 1 |
| `Correlation.SpearmanAntitone` | scripts/diagnose_critic_negative_rho.py:138-154 | negating one side negates the coefficient |
| `Correlation.OrdinalSpearman` | scripts/audit_sac_first_kl_crossing.py:300-316 | the permutation-rank correlation of x is Spearman's coefficient against every tie-free side of the same length exactly when x has no ties or is constant |
| `Correlation.OrdinalDefined` | scripts/audit_sac_first_kl_crossing.py:308-316 | the permutation-rank correlation is undefined exactly for different lengths, fewer than two values, or a constant side |
| `Correlation.TieChangesSpearman` | scripts/audit_sac_entropy_floor_v6.py:297-311 | three values with one tie, for which the permutation ranks give 1 and Spearman's coefficient is below it |
| `AffineFit.FitLineIsFitted` | scripts/diagnose_awac10k_targeted_trace.py:112-121 | above the variance guard the returned slope and intercept are the fitted ones, to which the next two rows apply |
| `AffineFit.NormalEquations` | scripts/diagnose_awac10k_targeted_trace.py:115-118 | the residuals of the fitted line sum to zero and are orthogonal to x |
| `AffineFit.LeastSquares` | scripts/diagnose_awac10k_targeted_trace.py:115-118 | no line has a smaller squared error |
| `AffineFit.FitLineIsOptimal` | scripts/diagnose_awac10k_targeted_trace.py:110-121 | on every branch, the returned line is a least-squares line exactly when the variance guard passes or x and y do not vary together |
| `AffineFit.TwoPoints` | scripts/diagnose_awac10k_targeted_trace.py:110-121 | through two points the line is the secant, unless the square of their x distance is at most 2e-12: then it is flat |
| `AffineFit.GuardMissesSlope` | scripts/diagnose_awac10k_targeted_trace.py:112-114 | two points a millionth apart, for which another line has a smaller squared error than the returned one |
| `AffineFit.RSquaredRange` | scripts/diagnose_awac10k_targeted_trace.py:110-121 | R squared lies in [0, 1] on every branch |
| `AffineFit.RSquaredIsCorrelation` | scripts/diagnose_awac10k_targeted_trace.py:110-121 | where the correlation is defined, R squared is its square exactly when the variance guard passes and y varies more than its guard or lies on the line, or when the variance guard does not pass and x and y do not vary together |
| `Returns.TrainLabels` | scripts/diagnose_critic_td_horizon_factorial.py:217-233 | the double loop over segments labels every row with the recursive return, and fails exactly when the rows do not end with a done row |
| `Returns.ReturnClosedForm` | scripts/diagnose_critic_negative_rho.py:286-290 | the return is the sum of gamma^k * scale * r up to the episode's done row |
| `Returns.SegmentsPartition` | scripts/diagnose_critic_negative_rho.py:284-286 | every row lies in exactly one done-delimited segment |
| `Returns.NStepHead` | scripts/diagnose_critic_td_horizon_factorial.py:406-424 | an n-step target is one reward plus the discounted (n-1)-step target of the next row |
| `Returns.BackupsCompose` | scripts/diagnose_critic_td_horizon_factorial.py:387-424 | n composed one-step backups give the n-step target |
| `Returns.ReturnsAreFixed` | scripts/diagnose_critic_td_horizon_factorial.py:694 | the true returns are a fixed point of the backup |
| `Returns.TargetError` | scripts/diagnose_critic_td_horizon_factorial.py:387-424 | the target's error is gamma^n times the bootstrap value's error n rows on, and zero when the window reaches the terminal row |
| `Returns.TargetContracts` | scripts/diagnose_critic_td_horizon_factorial.py:387-424 | hence it is at most gamma^n times the largest value error |
| `Sidecar.BuildSequenceSidecar` | python/planning/awac/td_horizon_diagnostic.py:65-171 | succeeds exactly for closed, continuous episodes within the budget (and matching given lengths), and then every table entry is the declared window, link, flag and budget |
| `Sidecar.EpisodeLengthsCount` | python/planning/awac/td_horizon_diagnostic.py:65-171 | each episode length is the number of rows that end with its done row |
| `Sidecar.EntryFor` | python/planning/awac/td_horizon_diagnostic.py:125-148 | the window loop lists min(5, rows to the end) rows, is terminal iff it contains the done row, and otherwise bootstraps five rows on |
| `Sidecar.FillEpisodes` | python/planning/awac/td_horizon_diagnostic.py:76-111 | segment by segment, every row gets its position in its episode and its done row |
| `Sidecar.CheckContinuity` | python/planning/awac/td_horizon_diagnostic.py:93-104 | accepts exactly when the end points of every nonterminal row are those of the next row |
| `Sidecar.OneStepTargets` | scripts/diagnose_critic_td_horizon_factorial.py:389-404 | the one-step branch gives the 1-step target of every start row |
| `Sidecar.AddRewards` | scripts/diagnose_critic_td_horizon_factorial.py:411-414 | the offset loop accumulates exactly the discounted rewards of every window |
| `Sidecar.AddBootstraps` | scripts/diagnose_critic_td_horizon_factorial.py:415-423 | the bootstrap is added exactly to the rows whose window does not end the episode |
| `Sidecar.TargetForStarts` | scripts/diagnose_critic_td_horizon_factorial.py:387-424 | the accumulated one-step and five-step targets are the n-step targets of the start rows |
| `Sidecar.BudgetsLink` | python/planning/awac/td_horizon_diagnostic.py:113-171 | the linked row has the announced remaining budget and is one step nearer to the end |
| `Grouped.WalkBack` | scripts/diagnose_critic_td_horizon_factorial.py:196-199 | the reverse loop gives each row of a group its reward plus the discounted return of the next one and leaves other rows alone |
| `Grouped.WalkForward` | scripts/diagnose_critic_td_horizon_factorial.py:200-212 | the forward loop sets links, distances and budgets of a group and leaves returns and other rows alone |
| `Grouped.RecordsReturns` | scripts/diagnose_critic_td_horizon_factorial.py:168-214 | labels exist exactly when every episode's rows, wherever they lie, are one contiguous terminal sequence; then each row has its return, link, distance and budgets |
| `Grouped.LinksAreChains` | scripts/diagnose_critic_td_horizon_factorial.py:185-212 | next_index is -1 exactly on done rows, injective elsewhere, and meets the announced budget |
| `Grouped.ChainEnds` | scripts/diagnose_critic_td_horizon_factorial.py:206-212 | following the links as often as announced, and no more often, reaches the episode's own done row |
| `Grouped.WellFormedRearranged` | scripts/diagnose_critic_negative_rho.py:193-223 | a permutation of the rows is accepted exactly when the rows are |
| `Grouped.LabelsRearrange` | scripts/diagnose_critic_td_horizon_factorial.py:189-212 | any permutation of the rows carries the whole label of every row along: return, distance and budgets unchanged, the link through the permutation |
| `Grouped.AgreesWithTrainLabels` | scripts/diagnose_critic_negative_rho.py:224-235 | on well-formed rows where every nonterminal row is followed by the next one of its episode, the done-delimited builder accepts and the grouped returns are the same |
| `JournalFile.Records` | scripts/audit_sac_entropy_floor_v6.py:97-111 | the reader keeps the decodable complete lines, in order |
| `JournalFile.CutReadsPrefix` | scripts/audit_sac_entropy_floor_v6.py:97-111 | a journal cut at any byte reads back as exactly its completely written records |
| `JournalFile.ResumedReads` | python/planning/sac/diagnostics.py:148-176 | appending behind a torn tail glues the tail to the first new line; the records before the tail and the later new ones are read as written |
| `JournalFile.ResumeIsLossless` | python/planning/sac/diagnostics.py:148-176 | a resumed journal keeps every appended record exactly when there were no torn bytes or the glued line decodes to the first new record |
| `JournalFile.TornJournalLosesRecord` | python/planning/sac/diagnostics.py:148-176 | a journal torn after its first byte, which loses the first record appended to it |
| `Replay.Session.ReplayRecord` | scripts/replay_discrete_sac.py:349-378 | sample, compare, update from the recorded indices, compare again |
| `Replay.Session.Replay` | scripts/replay_discrete_sac.py:349-415 | the verdict is exact iff all rows match, and otherwise the reported divergence is the earliest row that does not |
| `Replay.TrainedReplaysExactly` | scripts/replay_discrete_sac.py:349-425 | for any trainer and any replayer that share sampler, buffer and identifying fingerprints, a trained journal replays exactly if and only if the replayer repeats every update: its agent, and its metrics up to the tolerance |
| `Replay.RepeatedReplaysExactly` | scripts/replay_discrete_sac.py:349-406 | a replayer that repeats every update replays the journal exactly through the trainer's own states, whatever the fingerprints |
| `Replay.TrainedStep` | python/planning/sac/runtime.py:482-543 | a journal record holds the sampler's draw, the fingerprints around the update and its metrics |
| `Replay.TrainedNumbered` | python/planning/sac/runtime.py:512-552 | proposals are numbered consecutively and only the last record can be a rejection |
| `Replay.ExactMeansSameRun` | scripts/replay_discrete_sac.py:356-406 | when the replay is exact and fingerprints identify agents, the agents behind the journal are exactly the replayed ones and the batches are the sampler's own draws |
| `Replay.ReplayPrefix` | scripts/replay_discrete_sac.py:349-406 | replaying a prefix gives the prefix of the run |
| `Replay.CutJournalReplaysExactly` | scripts/audit_sac_entropy_floor_v6.py:97-111 | a trained journal cut at any byte still replays exactly, for a replayer that repeats every update |
| `Capture.CapturePayload` | scripts/audit_sac_first_kl_crossing.py:515-533 | the single-target loop returns the capture at the target's first record, or the failure met before it |
| `Capture.CapturePayloads` | scripts/audit_sac_first_kl_crossing.py:837-864 | the joint loop returns all targets' captures at their last records, or the first failure of the whole journal |
| `CaptureLaws.BeforeIsReplay` | scripts/audit_sac_first_kl_crossing.py:839-863 | the captures go on exactly as long as every batch of the audit replay matches, through the same states |
| `CaptureLaws.CaptureIsReplayedState` | scripts/audit_sac_first_kl_crossing.py:515-526 | a capture is the agent after exactly the journal prefix before the target, and succeeds exactly when every batch up to the target is drawn again and the target's can be read |
| `CaptureLaws.DivergedExactly` | scripts/audit_sac_first_kl_crossing.py:845-846 | a journal is abandoned as diverged exactly when some record, reached with all earlier batches intact, is sampled differently |
| `CaptureLaws.RaisedExactly` | scripts/audit_sac_first_kl_crossing.py:839-863 | an exception abandons it exactly when some record, reached with all earlier batches intact, cannot be sampled, or is sampled alike and cannot be read or updated from |
| `CaptureLaws.ManyAgreesWithOne` | scripts/audit_sac_first_kl_crossing.py:839-864 | with distinct actor indices the joint capture holds for each target what its own capture finds, and lacks exactly the targets that are not found |
| `CaptureLaws.FailuresAgree` | scripts/audit_sac_first_kl_crossing.py:515-533 | a failure of either capture is the same failure of the other, unless the single target was reached before it |
| `CaptureLaws.AgreementExactly` | scripts/audit_sac_first_kl_crossing.py:847-856 | the two captures agree for every learner exactly when the target occurs at most once |
| `CaptureLaws.JointCapture` | scripts/audit_sac_first_kl_crossing.py:837-864 | in a journal that replays whole, a target's joint payload is the replayed agent before the target's last record |
| `CaptureLaws.TrainedCapture` | scripts/audit_sac_first_kl_crossing.py:839-864 | every accepted update of a trained journal can be captured, alone and jointly, unless an update of the replay raises; the payload is the replayed agent before it |
| `CaptureLaws.TrainedStates` | scripts/audit_sac_first_kl_crossing.py:839-863 | the replayed agents up to a record are the trainer's exactly when every update before it ended in the trainer's agent |
| `CaptureLaws.TrainedBefore` | scripts/audit_sac_first_kl_crossing.py:839-846 | the sampler never diverges on a trained journal, whatever the updates do |
| `Crossing.ReplayAudit` | scripts/audit_sac_first_kl_crossing.py:648-814 | the replay reports the comparison, the trajectory, the accepted count and the first upward crossing with the agent just before it; it fails exactly on a raised exception or without proposals |
| `Crossing.TrajectoryShape` | scripts/audit_sac_first_kl_crossing.py:672-753 | the trajectory has one row more than accepted updates: the KL before the first proposal, then the KL after the k-th accepted record, numbered k |
| `Crossing.FirstCrossing` | scripts/audit_sac_first_kl_crossing.py:867-895 | reports an empty trajectory, a start at the limit, the first rise across 1.0, or none |
| `Crossing.FirstRiseIsFirstHigh` | scripts/audit_sac_first_kl_crossing.py:870-889 | from below the limit the first rise is the first row at or above it, and there is none iff all rows stay below |
| `Crossing.CandidateAgreesWithScan` | scripts/audit_sac_first_kl_crossing.py:774-793 | replay and scan name the same step, record and values exactly unless the start is at the limit and a later rise exists |
| `Crossing.StepPayload` | scripts/audit_sac_first_kl_crossing.py:837-864 | for every accepted record, the payload captured under its accepted step is that of the record itself, with the agent before it, exactly when no proposal precedes the journal and none was rejected before it |
| `Crossing.CrossingPayload` | scripts/audit_sac_first_kl_crossing.py:1144-1167 | the payload captured under a crossing's step is that of the crossing itself exactly when no proposal precedes the journal and none was rejected before it |
| `Crossing.WindowPayload` | scripts/audit_sac_first_kl_crossing.py:1155-1292 | so for the first step of the window of the last hundred accepted updates, whose schedule holds all accepted records from there on |
| `Crossing.RecrossingDisagrees` | scripts/audit_sac_first_kl_crossing.py:867-888 | a replayed journal of two accepted updates whose trajectory starts high, falls and rises again, for which replay and scan disagree |
| `Crossing.RejectionHidesCrossing` | scripts/audit_sac_first_kl_crossing.py:1144-1167 | a journal with a rejected proposal before its crossing, for which the capture lacks the crossing's step |
| `Crossing.TrainedCrossing` | scripts/audit_sac_first_kl_crossing.py:1144-1195 | for the journal of a run that the trainer started from scratch, a crossing met while replaying can always be captured under its step, although the replay's updates may differ from the trainer's |
| `TrustRegion.LearnerCell.UpdateActor` | python/planning/sac/network.py:1020-1181 | one proposal without trust region: an exception exactly when loss or gradient is not finite; accepted exactly when the batch KL before and after the full step is below the hard stop and the stepped parts keep the entropy floor; otherwise rejected with networks and optimizers as before; all five counters |
| `TrustRegion.LearnerCell.UpdateActorTrust` | python/planning/sac/network.py:555-716 | one proposal with backtracking: rejected exactly when the sentinel KL is at the hard stop or none of the seven halved factors is safe; an exception exactly when the sentinel passes and loss or gradient is not finite; otherwise accepted at the largest safe factor, each tried from the restored state; all five counters |
| `TrustRegion.LearnerCell.UpdateCritic` | python/planning/sac/network.py:846-930 | one critic update replaces the parts and moves only its own counter |
| `TrustRegion.TrainedKinds` | python/planning/sac/runtime.py:512-552 | a trained journal calls a proposal accepted exactly when the transaction accepted it |
| `TrustRegion.ComparisonMeans` | scripts/replay_discrete_sac.py:87-96 | the metrics flag of a record holds exactly when every journalled key is reported again and every pair of numbers differs by at most the absolute plus the relative tolerance of the replayed one |
| `TrustRegion.ExactIsWithin` | scripts/replay_discrete_sac.py:377-405 | in an exact replay, with or without trust region, this is so for every record |
| `TrustRegion.SameAgentExactly` | python/planning/sac/network.py:995-1181 | the two transactions leave the same agent, counters included, exactly when both reject or both accept the full step |
| `TrustRegion.AuditReplaysExactly` | scripts/audit_sac_entropy_floor_v6.py:982-1142 | the entropy-floor audit repeats every update and every journalled metric, so it replays every trained journal exactly through the trainer's states |
| `TrustRegion.CutAuditReplaysExactly` | scripts/audit_sac_entropy_floor_v6.py:97-111 | so it does with a trained journal cut at any byte, as far as it was completely written |
| `TrustRegion.ProposalMismatches` | scripts/replay_discrete_sac.py:87-96 | a journalled proposal has a metric that the proposal without trust region never reports, which counts as a mismatch |
| `TrustRegion.PlainReplaysExactly` | scripts/replay_discrete_sac.py:349-425 | the replay script passes a trained journal if and only if the journal holds no actor proposal |
| `TrustRegion.PlainDivergence` | scripts/replay_discrete_sac.py:397-405 | otherwise the divergence it reports is the first proposal |
| `TrustRegion.PlainStates` | scripts/audit_sac_first_kl_crossing.py:839-863 | a replay without trust region is in the trainer's states exactly as long as both transactions decided every proposal alike |
| `TrustRegion.OneProposalFails` | scripts/replay_discrete_sac.py:349-425 | a journal of one proposal that replays through the trainer's agents and fails |
| `TrustRegion.HalfRatePayload` | scripts/audit_sac_first_kl_crossing.py:839-864 | a journal of two proposals for which the captured payload is not the trainer's agent |
| `McNemar.PValueIsTwoSidedTail` | scripts/aggregate_bc_scale_evaluation.py:244-252 | p is the probability that a fair binomial splits at least as unevenly |
| `McNemar.PValueOne` | scripts/aggregate_bc_scale_evaluation.py:244-252 | p is 1 exactly when the counts differ by at most one |
| `McNemar.ClampMatters` | scripts/aggregate_bc_scale_evaluation.py:249-252 | the doubled tail exceeds 1 exactly for equal counts |
| `McNemar.PValueStrict` | scripts/aggregate_bc_scale_evaluation.py:244-252 | for a fixed total p falls strictly as the gap grows beyond one |
| `McNemar.PValueSymmetric` | scripts/aggregate_bc_scale_evaluation.py:244-252 | exchanging the counts changes nothing |
| `McNemar.CombFactorial` | scripts/aggregate_bc_scale_evaluation.py:249-251 | the recursive binomial coefficient is n!/(k!(n-k)!) |
| `McNemar.BothFormsAgree` | scripts/compare_paired_policy_evaluations.py:113-118 | the two scripts compute the same p |
| `McNemar.CountCells` | scripts/compare_paired_policy_evaluations.py:210-244 | the loop counts the four cells |
| `McNemar.CellMarginals` | scripts/compare_paired_policy_evaluations.py:213-244 | the cells partition the pairs and recovered - regressed is the difference in successes |
| `McNemar.CloseCountsAreInsignificant` | scripts/compare_paired_policy_evaluations.py:113-118 | p is 1 exactly when the success totals differ by at most one |
| `Wilson.IntervalIsScoreTest` | scripts/aggregate_bc_scale_evaluation.py:233-241 | both endpoints solve the score equation, the interval is exactly where the score test does not reject, and 0 <= low <= p <= high <= 1, so the clamps do nothing |
| `Wilson.IntervalReflects` | scripts/aggregate_bc_scale_evaluation.py:233-241 | exchanging successes and failures reflects the interval about one half |
| `Wilson.IntervalGrows` | scripts/aggregate_bc_scale_evaluation.py:233-241 | both endpoints grow strictly with the successes |
| `Wilson.RadicandPositive` | scripts/aggregate_bc_scale_evaluation.py:240 | the square root is always taken of a positive number |
| `Wilson.ZeroSuccesses` | scripts/aggregate_bc_scale_evaluation.py:233-241 | without a success the interval runs from 0 to z^2/(n + z^2), with an explicit root |
| `Wilson.ChiSquareQuantile` | scripts/aggregate_bc_scale_evaluation.py:236 | z squared is 3.841458820694, the 95% quantile of chi-square with one degree of freedom |
| `Wilson.NoneOfTen` | scripts/aggregate_bc_scale_evaluation.py:233-241 | ten failures in ten trials bound the success rate by 27.8% |
| `Schedule.ScheduleAudit` | scripts/diagnose_awac10k_degradation.py:459-480 | the nested loop computes the specified counters |
| `Schedule.CalibrationIsTarget` | scripts/diagnose_awac10k_degradation.py:459-462 | the calibration count is the critic target at its replay size except at a size of exactly the learning starts with a rate of one or more |
| `Schedule.ScheduleClosedForm` | scripts/diagnose_awac10k_degradation.py:464-480 | the whole schedule in closed form: critic count, learner step and actor calls |
| `Schedule.ResumeIsStraight` | scripts/diagnose_awac10k_degradation.py:464-480 | stopping at any replay total and resuming gives the counters of one straight run |
| `Schedule.AuditReport` | scripts/diagnose_awac10k_degradation.py:459-497 | the audit ends at max(calibration updates, target(end)) critic updates, the step equals the count, and actor calls never exceed the new updates |
| `Schedule.TargetGrows` | python/planning/awac/optimization.py:83-90 | the update target never decreases |
| `Schedule.FirstActorTransition` | python/planning/awac/optimization.py:113-171 | the search returns the first transition with an actor call; for valid inputs it fails exactly when the learner step passes no step of the interval pattern between the gate and the search bound, a condition in closed form |
| `Schedule.ActorCallsClosedForm` | python/planning/awac/optimization.py:150-167 | the calls up to any transition as a difference of two interval counts, which decides when the search fails |
| `Schedule.ScheduleReachesActor` | python/planning/awac/optimization.py:150-171 | every valid schedule reaches an actor call eventually |
| `Schedule.SearchGivesUpTooEarly` | python/planning/awac/optimization.py:132-146 | a concrete valid schedule for which the bound is too small |
| `Schedule.SearchSucceeds` | python/planning/awac/optimization.py:132-146 | the search succeeds whenever interval + 8 transitions bring at least `interval` updates and the learner step has passed the burn-in by the time the critic count reaches the required updates, which it always has when the step is not behind the critic count |
| `Schedule.SearchFailsBehind` | python/planning/awac/optimization.py:132-146 | a schedule with the step behind the count for which the search fails at one update per transition |

## Left out

- IEEE rounding, NaN and infinities, integer widths: numbers are exact, and the finiteness checks of the scripts do not appear.
- Square roots: a correlation is its numerator and squared denominator, the Wilson root is any non-negative number whose square is the radicand.
- The library's sorts: a stable argsort is given by its contract, which determines it uniquely.
- Neural updates, the frozen policy, masks from geometry, SHA digests, the RNG and the probe statistics are uninterpreted; that a recorded hash identifies a state is not assumed anywhere.
- Reading the CSV files of failed episodes: `Collector.LoadFailedTargets` takes the failed episodes already sorted, with their steps in order.
- Teacher entries and their position tolerance: the match is an uninterpreted function that may raise.
- Starting and stopping the environment, the printed progress, files, manifests and reports of all scripts.
- The success, collision and dead-end flags of a branch record; only the terminal reason is modelled.
- A negative random count or a mask that the planner cannot convert.
- Replay.Session.Replay: the replayable RNG fingerprints and the batch digest, which the script reports but leaves out of its verdict, and the payload kept at the first rejected proposal.
- JournalFile.Records: the two readers that open the journal as text with universal newlines, and JSON lines that are not objects.
- Replay.TrainedStep: metric checks that stop the trainer between an update and its journal record, or after an accepted one; such a run is a shorter run here.
- TrustRegion.AuditReplaysExactly: the audit's optional limit on proposals and the batch digest in its verdict; freezing the sentinel states, which trainer and audit both hold.
- TrustRegion.LearnerCell.UpdateActorTrust: losses, gradients and gates are uninterpreted, the optimizer-step counter is one with the update counter, the count of non-finite losses and the RNG hooks do not appear.
- TrustRegion.ProposalMismatches: the order in which mismatching keys are listed; nested metric values are texts, which are never compared.
- Crossing.ReplayAudit: the spike-state trajectory and the last rejected proposal, and the RNG fingerprints; positions in the journal stand for its sequence numbers.
- Grouped.RecordsReturns: the terminal-reason checks and the quantile report of one of the two record builders, and the columns episode_index, T and the budget fraction.
- Sidecar.BuildSequenceSidecar: array dtypes and missing arrays; whether the endpoints of adjacent rows agree is an input.
- Correlation.OrdinalCorrelation: one of the two scripts first cuts the longer side and drops pairs that are not finite.
- CollectorWriter.Writable: texts that must not be empty, state vectors and depth images and their shapes, finiteness, and the metadata of the artifact; row ids are hashes of state, action and source, unique with their pairs.
- Conclusion classifiers, gradient and counterfactual probes, bootstrap intervals: no loop invariant of interest beyond the parts above.
