# Strategic planning agents, modelled in Dafny

This project models the decision-making core of a suite of planning agents.
There are four of them:

- **Scenario simulator** (`scenario.dfy`, `resolver.dfy`, `sampler.dfy`, `aggregator.dfy`). It orders a plan's actions by their dependencies. It runs Monte Carlo samples or three deterministic paths (optimistic, realistic, pessimistic) through them. A sample collects second-order effects (side-effect generators and a budget-pressure effect for expensive actions), and each path gets an outcome, a probability, a risk score and a value. The paths are then aggregated into a scenario result with a recommended path.
- **Constraint gate** (`constraints.dfy`). It validates a plan against time, budget, permission and regulatory constraints. A plan is valid exactly when no violation is BLOCKING.
- **Approval router** (`approvals.dfy`). A decision is either auto-approved by a rule, or routed to the best-scoring eligible approvers plus an escalation contact. Its final status follows the approvers' answers, and the history of answers feeds back into approver scores.
- **Tool health tracker** (`tools.dfy`). It keeps a metric log per tool, pruned to a retention window. A threshold classifier sets the tool's health. Drift is detected by comparing the last fifth of the log with the first fifth. Recommendations are derived from health and drift.

How the model represents the source:

- **Money, probabilities and rates** are `real`. Time is `int` seconds.
- **Randomness** is an explicit draw function `Draws = (nat, nat) -> real`: stream `i`, draw `k`. Monte Carlo sample `i` reads stream `i`; the three deterministic paths read streams 0, 1 and 2.
- **The clock and the current hour** are parameters.
- **User-supplied callables** are closed datatypes, each with a variant that raises. These are the side-effect generators, constraint validators, and auto-approval and escalation rules.
- **Objects whose fields are updated in place** are classes with `modifies` clauses: the simulator's history, the constraint list, the approver, decision and history stores, and the tool registry. The records they store (decisions, tools) are values that the methods replace.

## Model

| member | source | states |
|---|---|---|
| Scenario.DepsMetGrows | strategic_scenario_simulator.py:135-138 | dependencies that are met stay met as more actions execute |
| Scenario.PendingNames | strategic_scenario_simulator.py:264 | the affected list names exactly the actions not yet executed |
| Scenario.SimulateSecondOrderEffects | strategic_scenario_simulator.py:238-267 | the loop yields the effect cascade specified by `SecondOrderEffects`: every generator's returned effect in order, then the budget-pressure effect |
| Scenario.EffectCount | strategic_scenario_simulator.py:248-254 | the cascade holds one effect per generator that returned one; raising or empty generators add nothing and do not abort |
| Scenario.HighCostCascade | strategic_scenario_simulator.py:258-265 | an executed action costing more than 10000 ends its cascade with a budget-pressure effect of probability 0.8 and impact -0.3; with distinct action names its affected list excludes the action itself |
| Scenario.CascadeBounded | strategic_scenario_simulator.py:247-265 | when generators give probabilities in [0,1], every effect of the cascade has one |
| Scenario.Classify | strategic_scenario_simulator.py:300-307 | SUCCESS iff ratio ≥ 0.9, PARTIAL_SUCCESS iff 0.6 ≤ ratio < 0.9, FAILURE iff 0.3 ≤ ratio < 0.6, CATASTROPHIC iff ratio < 0.3 |
| Scenario.ClassifyMonotone | strategic_scenario_simulator.py:300-307 | a higher completion ratio never gives a worse outcome |
| Scenario.OutcomeMonotone | strategic_scenario_simulator.py:298-307 | executing more actions of the same plan never gives a worse outcome |
| Scenario.OutcomeExtremes | strategic_scenario_simulator.py:298-307 | an empty plan is CATASTROPHIC (the ratio divides by max(n,1)); executing every action is SUCCESS |
| Scenario.CalculatePathProbability | strategic_scenario_simulator.py:309-318 | the loop computes the path probability: 0 for no executed action, else the product of their success probabilities |
| Scenario.ProbabilityProductBounded | strategic_scenario_simulator.py:314-316 | a product of probabilities in [0,1] stays in [0,1] |
| Scenario.PathProbabilityBounded | strategic_scenario_simulator.py:309-318 | the path probability lies in [0,1] when every action's probability does |
| Scenario.HarmfulWeightNonNegative | strategic_scenario_simulator.py:329-333 | the summed weight of harmful effects is never negative |
| Scenario.RiskScore | strategic_scenario_simulator.py:320-338 | no effects give risk 0; the score never exceeds 1 |
| Scenario.CalculateRiskScore | strategic_scenario_simulator.py:320-338 | the loop computes `RiskScore`: the harmful weight times (1 + cost/100000), capped at 1 |
| Scenario.RiskScoreBounded | strategic_scenario_simulator.py:320-338 | with bounded effect probabilities and a non-negative cost the risk lies in [0,1] |
| Scenario.PathValueOrdersOutcomes | strategic_scenario_simulator.py:392-405 | at equal cost, a better outcome always has a strictly higher value |
| Resolver.Split | strategic_scenario_simulator.py:277-280 | a round splits the remaining actions into the ready ones (every dependency placed) and the blocked ones (some dependency unplaced), as many in total as remain |
| Resolver.SplitIsPermutation | strategic_scenario_simulator.py:277-280 | the ready and blocked parts together hold exactly the remaining actions, with multiplicity |
| Resolver.SplitRound | strategic_scenario_simulator.py:277-280 | the loop over the remaining actions computes the round's split |
| Resolver.OrderStep | strategic_scenario_simulator.py:275-288 | one round emits its ready actions (all remaining ones on the fallback) ahead of the order of the rest, and strictly fewer actions remain |
| Resolver.TopologicalSort | strategic_scenario_simulator.py:269-290 | the loop computes `TopologicalOrder`, a permutation of its input |
| Resolver.TopologicalOrderIsPermutation | strategic_scenario_simulator.py:269-290 | the order contains every action exactly as often as the input |
| Resolver.OrderFromIsPermutation | strategic_scenario_simulator.py:275-288 | each round passes on every remaining action exactly once |
| Resolver.StuckRound | strategic_scenario_simulator.py:282-284 | when a round finds no ready action, none of the remaining actions has its dependencies met |
| Resolver.OrderShape | strategic_scenario_simulator.py:275-288 | the order is a prefix in which every action follows its dependencies, then a stuck remainder none of whose actions has its dependencies met by that prefix |
| Resolver.ReadyExists | strategic_scenario_simulator.py:277-284 | with every dependency naming a listed action and no cycle, every round has a ready action |
| Resolver.OrderFromResolved | strategic_scenario_simulator.py:275-288 | under the same conditions the fallback is never taken |
| Resolver.DependenciesPrecede | strategic_scenario_simulator.py:269-290 | for an acyclic plan whose dependencies name listed actions, every action comes after all of its dependencies |
| Resolver.RemoveFirst | strategic_scenario_simulator.py:288 | removing a present action shortens the list by one; removing an absent one leaves the list unchanged |
| Resolver.RemoveWhileIterating | strategic_scenario_simulator.py:287-288 | removing from the list being iterated never grows it, and shrinks it when the iteration starts inside it |
| Resolver.CycleAliasedRemoval | strategic_scenario_simulator.py:284-288 | as written, removing the aliased list while iterating it removes the first of two actions and skips the second |
| Resolver.CycleDuplicatesAsWritten | strategic_scenario_simulator.py:282-288 | as written, two actions depending on each other come out as A, B, B: not a permutation |
| Resolver.CycleOnceCorrected | strategic_scenario_simulator.py:282-288 | with the fallback corrected the same input comes out as A, B |
| Sampler.RunMonteCarloSimulation | strategic_scenario_simulator.py:119-171 | the loop computes `MonteCarloPath`: the sample, its sums, outcome, probability and risk |
| Sampler.SampleStep | strategic_scenario_simulator.py:133-155 | an action is executed iff its dependencies are executed and its draw is below its success probability; otherwise the executed list is unchanged |
| Sampler.SampleSubsequence | strategic_scenario_simulator.py:133-147 | the executed actions are a subsequence of the sorted order |
| Sampler.SampleRespectsDependencies | strategic_scenario_simulator.py:135-141 | every executed action follows all of its dependencies |
| Sampler.MonteCarloExecutedShape | strategic_scenario_simulator.py:131-171 | for distinct actions, `actions_taken` is a duplicate-free subsequence of the sorted order in which dependencies come first |
| Sampler.OrderKeepsDistinct | strategic_scenario_simulator.py:269-290 | sorting distinct actions keeps them distinct |
| Sampler.EffectsGrow | strategic_scenario_simulator.py:152-155 | the effect list is only ever extended |
| Sampler.HighCostLeavesPressure | strategic_scenario_simulator.py:146-155 | every executed action costing more than 10000 leaves its budget-pressure effect in the sample |
| Sampler.SampleWellFormed | strategic_scenario_simulator.py:146-155 | a sample of well-formed actions executes well-formed actions and yields bounded effects |
| Sampler.MonteCarloBounds | strategic_scenario_simulator.py:157-170 | for well-formed actions a sample's probability and risk lie in [0,1] and its cost is not negative |
| Sampler.MonteCarloEmpty | strategic_scenario_simulator.py:125-171 | an empty plan gives an empty CATASTROPHIC path with probability 0 and risk 0 |
| Sampler.CertainPlanSucceeds | strategic_scenario_simulator.py:133-171 | an acyclic, closed plan of certain actions executes in full: SUCCESS with probability 1 |
| Sampler.CreateDeterministicPath | strategic_scenario_simulator.py:207-236 | the loop computes `DeterministicPath`: every action drawn against the rate, probability rate^k, no effects, risk 1 - rate |
| Sampler.ExploreAllPaths | strategic_scenario_simulator.py:173-205 | the three paths computed are `DeterministicPaths` |
| Sampler.DeterministicSubsequence | strategic_scenario_simulator.py:218-222 | a deterministic path executes a subsequence of the sorted order |
| Sampler.PowerBounded | strategic_scenario_simulator.py:225 | rate^k stays in [0,1] for a rate in [0,1] |
| Sampler.DeterministicPathsShape | strategic_scenario_simulator.py:179-236 | exactly three paths, optimistic, realistic and pessimistic in that order, with risks 0, 0.2 and 0.5, no effects, probabilities in [0,1], each a subsequence of the sorted order |
| Sampler.OptimisticExecutesAll | strategic_scenario_simulator.py:181-187 | the optimistic path executes every action with probability 1, is SUCCESS for a non-empty plan and executes at least as many actions as the other two |
| Aggregator.BestIndex | strategic_scenario_simulator.py:412-421 | the index of a path with the highest score, the earliest among equals |
| Aggregator.SelectRecommendedPath | strategic_scenario_simulator.py:407-421 | the loops compute `Recommended`: none without paths, else the earliest best-scoring path |
| Aggregator.RecommendedIsBest | strategic_scenario_simulator.py:407-421 | a path is recommended iff there are paths; it is one of them and no path scores higher |
| Aggregator.FirstOfEqualScores | strategic_scenario_simulator.py:420-421 | when every path scores the same (zero) the first path is recommended, as the stable sort puts it first |
| Aggregator.AnalyzeSimulationResults | strategic_scenario_simulator.py:340-390 | the loop computes `Analysis` |
| Aggregator.AnalysisOfNothing | strategic_scenario_simulator.py:346-355 | no paths give all-zero metrics and no recommended path |
| Aggregator.SuccessCountBounds | strategic_scenario_simulator.py:358 | the successful paths number at most n; all of them iff every path succeeded, none iff none did |
| Aggregator.SuccessRateBounds | strategic_scenario_simulator.py:358-359 | the success rate lies in [0,1]; it is 1 iff every path is SUCCESS or PARTIAL_SUCCESS and 0 iff none is |
| Aggregator.TotalCostBounds | strategic_scenario_simulator.py:361 | the total cost lies between n copies of the least and n copies of the greatest path cost |
| Aggregator.AverageCostBetween | strategic_scenario_simulator.py:361 | the average cost lies between the least and the greatest path cost |
| Aggregator.RiskAdjustmentBounded | strategic_scenario_simulator.py:375 | for a risk and a tolerance in [0,1] the adjustment factor lies in [0,1] |
| Aggregator.FullToleranceIgnoresRisk | strategic_scenario_simulator.py:365-376 | at tolerance 1 the risk-adjusted value equals the expected value |
| Aggregator.RiskNeverAddsValue | strategic_scenario_simulator.py:365-376 | for non-negative weighted values, the risk adjustment never raises the value |
| Aggregator.MonteCarloPaths | strategic_scenario_simulator.py:104-108 | n samples, the i-th drawn from stream i |
| Aggregator.StrategicScenarioSimulator.constructor | strategic_scenario_simulator.py:82-84 | the tolerance is kept and the history starts empty |
| Aggregator.StrategicScenarioSimulator.SimulateScenario | strategic_scenario_simulator.py:86-117 | the result is the analysis of the sampled or deterministic paths, appended to the history |
| Aggregator.EmptyScenarioMonteCarlo | strategic_scenario_simulator.py:102-117 | an empty plan sampled n > 0 times gives n empty CATASTROPHIC paths, success rate 0, and the first path recommended |
| Aggregator.ScenarioPathCount | strategic_scenario_simulator.py:102-111 | Monte Carlo yields one path per simulation and no recommendation for n ≤ 0; deterministic mode yields three paths |
| Constraints.ValidateTime | constraint_reasoning_agent.py:150-161 | raises iff the maximum is present but `None`; otherwise fails iff the duration exceeds the maximum (365 days when missing) or a deadline is set and now + duration passes it |
| Constraints.ValidateBudget | constraint_reasoning_agent.py:164-171 | raises iff the budget is present but `None`; otherwise fails iff a budget is set and the cost exceeds it; a missing budget means no limit |
| Constraints.Missing | constraint_reasoning_agent.py:176-178 | the set difference of required and granted names |
| Constraints.ValidatePermissions | constraint_reasoning_agent.py:174-184 | raises iff the permission list is present but `None`; otherwise fails iff some required permission is not available (none when missing), reporting the missing set |
| Constraints.ValidateRegulations | constraint_reasoning_agent.py:187-197 | raises iff the domain list is present but `None`; otherwise fails iff some regulatory domain is not approved (none when missing), reporting the unapproved set |
| Constraints.RunValidator | constraint_reasoning_agent.py:83-84 | the validator raises iff it is the raising variant, the constraint has no metadata, or the key it reads is present but `None` |
| Constraints.ViolationOf | constraint_reasoning_agent.py:83-103 | a violation exactly when the validator fails or raises; a failure keeps the constraint's severity and gets the type's fix; a raise is BLOCKING with no fix |
| Constraints.WithoutMembers | constraint_reasoning_agent.py:73 | removal keeps exactly the constraints of another name |
| Constraints.ConstraintReasoningAgent.constructor | constraint_reasoning_agent.py:63-65 | no constraints and no history |
| Constraints.ConstraintReasoningAgent.AddConstraint | constraint_reasoning_agent.py:67-69 | appends the constraint |
| Constraints.ConstraintReasoningAgent.RemoveConstraint | constraint_reasoning_agent.py:71-73 | removes every constraint with that name, keeping the rest in order |
| Constraints.ConstraintReasoningAgent.ValidatePlan | constraint_reasoning_agent.py:75-109 | returns the violations in constraint order, appends the non-raising ones to the history, and is valid iff none is BLOCKING |
| Constraints.CollectBlocking | constraint_reasoning_agent.py:105 | the loop collects the BLOCKING violations, in order |
| Constraints.BlockingOfEmpty | constraint_reasoning_agent.py:105-107 | the blocking list is empty iff no violation is BLOCKING |
| Constraints.RecordedAreReportedFailures | constraint_reasoning_agent.py:86-103 | the history gains exactly the returned violations that did not come from a raise, in order |
| Constraints.AtMostOnePerConstraint | constraint_reasoning_agent.py:80-103 | at most one violation per constraint, each about a constraint of the list |
| Constraints.RaisingBlocks | constraint_reasoning_agent.py:96-107 | a single raising validator makes the plan invalid whatever its constraint's severity |
| Constraints.NullKeyBlocks | constraint_reasoning_agent.py:83-107 | a key the validator reads that is present but `None` raises, and the plan is then invalid whatever the constraint's severity |
| Constraints.AdvisoryNeverBlocks | constraint_reasoning_agent.py:86-107 | when no constraint is BLOCKING and no validator raises, the plan is valid |
| Constraints.WithoutAbsentName | constraint_reasoning_agent.py:71-73 | removing a name nobody has changes nothing |
| Constraints.WithoutChangesIffNamed | constraint_reasoning_agent.py:71-73 | removal changes the list iff some constraint has the name; removing twice is removing once |
| Constraints.WithoutNotLonger | constraint_reasoning_agent.py:71-73 | removal never lengthens the list, and shortens it iff the name is present |
| Constraints.LargerBudgetStillPasses | constraint_reasoning_agent.py:164-171 | a plan within budget stays within a larger budget |
| Constraints.MorePermissionsStillPass | constraint_reasoning_agent.py:174-184 | granting more permissions never makes a passing plan fail |
| Constraints.ShorterPlanStillOnTime | constraint_reasoning_agent.py:150-161 | a plan on time stays on time when it gets shorter |
| Approvals.AutoApproves | human_in_loop_agent.py:139-147 | true iff some rule returns true; raising rules are skipped |
| Approvals.FirstEscalation | human_in_loop_agent.py:224-233 | the email of the first rule returning a non-empty email; raising and falsy rules are skipped; none iff no rule escalates |
| Approvals.DecisionStatus | human_in_loop_agent.py:351-361 | APPROVED iff all approved (also with nobody assigned); REJECTED iff not all approved and one rejected; ESCALATED iff not all approved, none rejected and none pending; PENDING iff none rejected and one pending |
| Approvals.RejectionStands | human_in_loop_agent.py:351-361 | once one approver rejects, another's answer cannot change the REJECTED status |
| Approvals.LastApprovalCompletes | human_in_loop_agent.py:353-354 | the last outstanding approval makes the decision APPROVED |
| Approvals.RelevantHistory | human_in_loop_agent.py:201-204 | exactly the answers of that approver on decisions of that type |
| Approvals.AnswersOf | human_in_loop_agent.py:279-282 | exactly the answers of that approver |
| Approvals.TimeScore | human_in_loop_agent.py:219 | the speed part of the score is never negative and at most 5 for a non-negative mean response time |
| Approvals.HistoricalPerformanceScore | human_in_loop_agent.py:195-222 | 0 without relevant history; never negative |
| Approvals.HistoricalScoreBounded | human_in_loop_agent.py:210-222 | with non-negative response times the score is at most 7 (speed at most 5 plus a moderate approval rate 2) |
| Approvals.PreferredDetailLevel | human_in_loop_agent.py:277-297 | 1 without history; otherwise 2 iff the view rate is above 0.7, 1 iff it is in (0.3, 0.7], 0 iff it is at most 0.3 |
| Approvals.Candidates | human_in_loop_agent.py:157-183 | exactly the registered approvers with expertise in the type and authority (default 0) for the impact, each with its score |
| Approvals.InsertByScore | human_in_loop_agent.py:186 | inserting a candidate adds exactly that candidate |
| Approvals.InsertKeepsSorted | human_in_loop_agent.py:186 | insertion keeps the list in descending score order |
| Approvals.SortByScore | human_in_loop_agent.py:186 | sorting is a permutation of the candidates |
| Approvals.SortIsSorted | human_in_loop_agent.py:186 | the sorted candidates are in descending score order |
| Approvals.SelectionIsTopK | human_in_loop_agent.py:149-193 | exactly min(1, number eligible) approvers for CRITICAL and min(2, number eligible) otherwise, each registered and eligible, best first, none iff nobody is eligible; every eligible approver left out scores no higher than any selected one |
| Approvals.SelectedCount | human_in_loop_agent.py:187-193 | the selection holds min(1, n) approvers for CRITICAL and min(2, n) otherwise, n being the number of eligible candidates |
| Approvals.MarkPending | human_in_loop_agent.py:121-122 | every selected approver is PENDING and every other entry is unchanged |
| Approvals.MarkAll | human_in_loop_agent.py:121-122 | the loop marks the selected approvers as `MarkPending` does |
| Approvals.AutoApprovalShortCircuits | human_in_loop_agent.py:110-114 | an auto-approved decision is flagged AUTO_APPROVED and its approver list and approvals are left as they came |
| Approvals.ManualRoutingAssigns | human_in_loop_agent.py:116-130 | otherwise the selected approvers' emails head the list, at most one more is added, every listed approver is PENDING, and the final status and flag are untouched |
| Approvals.EscalationAppendsContact | human_in_loop_agent.py:124-128 | the escalation email is appended and set to PENDING |
| Approvals.Registered | human_in_loop_agent.py:91-93 | the registered approver is present and every other entry is an old one; approvers of other emails are kept; a known email keeps the length (its entry is replaced) and a new email is appended at the end |
| Approvals.HumanInLoopAgent.constructor | human_in_loop_agent.py:84-89 | every store starts empty |
| Approvals.HumanInLoopAgent.RegisterApprover | human_in_loop_agent.py:91-93 | the approvers become `Registered(old, approver)`; nothing else changes |
| Approvals.HumanInLoopAgent.AddAutoApprovalRule | human_in_loop_agent.py:95-97 | appends the rule |
| Approvals.HumanInLoopAgent.AddEscalationRule | human_in_loop_agent.py:99-101 | appends the rule |
| Approvals.HumanInLoopAgent.CanAutoApprove | human_in_loop_agent.py:139-147 | the loop computes `AutoApproves` |
| Approvals.HumanInLoopAgent.CheckEscalation | human_in_loop_agent.py:224-233 | the loop computes `FirstEscalation` |
| Approvals.HumanInLoopAgent.ScoreEligible | human_in_loop_agent.py:157-183 | the loop over the approvers computes `Candidates` |
| Approvals.TopApprovers | human_in_loop_agent.py:190-193 | exactly the approvers of the first k candidates, in order |
| Approvals.TakeTop | human_in_loop_agent.py:188-193 | the loop takes the first k candidates' approvers, as `TopApprovers` does |
| Approvals.HumanInLoopAgent.Route | human_in_loop_agent.py:111-125 | auto-approval, approver selection, PENDING marks and escalation compute `Routed` |
| Approvals.HumanInLoopAgent.SelectApprovers | human_in_loop_agent.py:149-193 | the loops compute `SelectedApprovers` |
| Approvals.HumanInLoopAgent.RequestApproval | human_in_loop_agent.py:103-130 | stores and returns the routed decision under its id; a new id is added at the end of the order |
| Approvals.HumanInLoopAgent.RecordApproval | human_in_loop_agent.py:314-349 | an unknown id or unassigned approver is an error that changes nothing; otherwise only that approver's status changes, one history entry is appended and the final status is recomputed |
| Approvals.HumanInLoopAgent.PendingDecisions | human_in_loop_agent.py:363-369 | exactly the stored decisions in which the approver is PENDING |
| ToolHealth.Prune | tool_reliability_agent.py:136-139 | exactly the metrics at or after the cutoff, never more than before |
| ToolHealth.PruneAppend | tool_reliability_agent.py:139 | pruning distributes over concatenation, so the kept metrics keep their order |
| ToolHealth.PruneTwice | tool_reliability_agent.py:138-149 | pruning at a cutoff and then at a later one is pruning at the later one |
| ToolHealth.ClassifiedWhenRecent | tool_reliability_agent.py:141-169 | a log pruned at a cutoff at least an hour back, with something in the last hour, is classified by the last hour's failure rate and mean response time |
| ToolHealth.PruneKeepsFresh | tool_reliability_agent.py:136-139 | a log inside the window is kept whole |
| ToolHealth.FailureRate | tool_reliability_agent.py:155 | the error rate lies in [0,1] |
| ToolHealth.Classify | tool_reliability_agent.py:161-169 | CRITICAL iff the error rate exceeds 3× the tolerance, FAILING iff it is in (2×, 3×], DEGRADED iff it is at most 2× and exceeds 1× or the mean response exceeds twice the expected, else HEALTHY |
| ToolHealth.ClassifyMonotone | tool_reliability_agent.py:161-169 | a higher error rate never gives a healthier status |
| ToolHealth.NextHealth | tool_reliability_agent.py:141-169 | HEALTHY for an empty log, unchanged with nothing in the last hour, else the last hour's classification |
| ToolHealth.CheckForDrift | tool_reliability_agent.py:171-214 | no drift below 100 metrics; windows of equal size ≥ 20 at both ends; a detection is a PERFORMANCE or ERROR_RATE drift stamped now with severity at most 1 |
| ToolHealth.DriftReported | tool_reliability_agent.py:186-212 | a response-time rise beyond the threshold over a non-zero baseline is always reported as a PERFORMANCE drift with severity min(rise / baseline, 1); failing that, an error-rate rise beyond the threshold is reported as an ERROR_RATE drift with severity min(rise / max(baseline, 0.01), 1); nothing is reported iff neither measure rises beyond the threshold |
| ToolHealth.DriftDetectionShape | tool_reliability_agent.py:186-212 | a reported drift carries its kind's baseline and current values, the current one beyond the threshold, and its kind's advice; an error-rate drift implies the response time did not rise beyond it |
| ToolHealth.DriftZeroBaseline | tool_reliability_agent.py:186-192 | the division error arises exactly for a zero response baseline with a positive current mean |
| ToolHealth.DriftSeverityBounded | tool_reliability_agent.py:186-203 | with a non-negative threshold the severity lies in (0,1] (for response time when its baseline is positive) |
| ToolHealth.LogMetric | tool_reliability_agent.py:113-128 | the field updates append the metric, set the check time, prune to the retention window and reclassify, which is `AfterMetric` |
| ToolHealth.RecordedMetricIsNewest | tool_reliability_agent.py:113-125 | the log becomes the retained old metrics followed by the new one, the check time is now, and the detections and name are kept |
| ToolHealth.HealthReflectsLastHour | tool_reliability_agent.py:128-169 | after a metric is recorded (retention at least an hour) the status is the classification of the last hour, which includes the new metric |
| ToolHealth.StatusAdvice | tool_reliability_agent.py:342-353 | a status line iff the tool is not HEALTHY |
| ToolHealth.RecentDrifts | tool_reliability_agent.py:356 | the last min(3, n) detections |
| ToolHealth.DriftAdvice | tool_reliability_agent.py:357-360 | one line per detection |
| ToolHealth.RecommendationsCounted | tool_reliability_agent.py:339-362 | one line per unhealthy tool plus one per each of its last three drifts, and no other line |
| ToolHealth.QuietToolAddsNothing | tool_reliability_agent.py:341-360 | a healthy tool without detections adds no line |
| ToolHealth.Forget | tool_reliability_agent.py:96-97 | the registration order without that name |
| ToolHealth.ForgetKeepsDistinct | tool_reliability_agent.py:96-97 | removing a name keeps the order free of duplicates |
| ToolHealth.ToolReliabilityAgent.constructor | tool_reliability_agent.py:80-88 | the retention and threshold are kept; no tools |
| ToolHealth.ToolReliabilityAgent.RegisterTool | tool_reliability_agent.py:90-92 | stores the tool under its name; a new name goes to the end of the order |
| ToolHealth.ToolReliabilityAgent.UnregisterTool | tool_reliability_agent.py:94-97 | removes the name if present and changes nothing otherwise |
| ToolHealth.ToolReliabilityAgent.RecordMetric | tool_reliability_agent.py:99-134 | an unregistered tool is an error that changes nothing; otherwise the tool is replaced by its logged, pruned, reclassified version plus any detected drift; a zero baseline raises after the log and health were updated |
| ToolHealth.ToolReliabilityAgent.GetRecommendations | tool_reliability_agent.py:337-362 | the loop computes `Recommendations` |
| ToolHealth.AdviceFor | tool_reliability_agent.py:342-360 | one tool's status line and drift lines, as `ToolAdvice` |

## Findings

| source | as written | input that shows it | evidently intended | confidence | as-written member | corrected member |
|---|---|---|---|---|---|---|
| strategic_scenario_simulator.py:282-288 | when no action is ready, `ready` is the same list object as `remaining`; removing its elements while iterating over it skips every second one, and the skipped actions are emitted again in a later round | actions A (depends on B) and B (depends on A) sort to A, B, B | append the stuck remainder once and end with each action exactly once | not executed | Resolver.CycleDuplicatesAsWritten | Resolver.TopologicalOrderIsPermutation |

The corrected order, `Resolver.TopologicalOrder`, is what every other member of the model uses.

## Behaviour of the code worth knowing

- **Empty plan under Monte Carlo.** A Monte Carlo run over no actions returns n empty CATASTROPHIC paths, and the first of them is recommended (`Aggregator.EmptyScenarioMonteCarlo`).
- **Unresolved dependencies.** Actions stuck behind a cycle or a dependency name that no action carries are appended to the order without any flag or error.
- **Auto-approval.** An auto-approved decision keeps whatever `required_approvers` and `approvals` it arrived with (`Approvals.AutoApprovalShortCircuits`).
- **Drift severity.** A zero response-time baseline with a positive current mean divides by zero. `record_metric` raises that error after it has already stored the updated log and health (`ToolHealth.ToolReliabilityAgent.RecordMetric`).
- **Metadata set to `None`.** A validator that reads a key present with the value `None` raises, so the constraint yields a BLOCKING violation whatever its severity (`Constraints.NullKeyBlocks`). Only a missing key gets the default.

## Left out

- Random draws are a parameter (`Draws`). Their distribution and seeding are not modelled.
- The clock (`datetime.now()`) and the current hour are parameters. `record_metric` reads the clock several times; the model uses one `now` for all of them.
- Floating point is modelled as `real`. There is no rounding, and "no budget" stands for `float('inf')`.
- `timedelta` is whole seconds. The average duration is kept as a `real` number of seconds, without sub-second rounding.
- Report rendering and printing are not modelled: `get_simulation_report`, `get_violation_report`, `get_analytics_report`, `get_system_health_report`, `get_tool_status`, `get_decision_status`, `_prepare_context_for_approver`, `_notify_approver`, `_trigger_alert` and `add_alert_callback`.
- `learn_and_improve` is not modelled. It only builds insight strings.
- `Constraints.ViolationOf`: the fix suggestion's `None` branch for an unknown constraint type cannot occur, because the constraint types are a closed datatype.
- Message texts of the constraint validators are modelled by the values they format, not their wording. The same holds for drift descriptions.
- Python callables are a closed set of variants, each with a raising variant: side-effect generators, validators, and auto-approval and escalation rules. Alert callbacks are not modelled.
- Aliasing of mutable objects is not modelled. Decisions and tools are values replaced in their store, so a caller's reference to the same object does not see later updates. A history entry keeps the decision's type rather than a reference to the decision.
- `Sampler.MonteCarloPath`, `Sampler.DeterministicPaths`, `Sampler.OptimisticExecutesAll` and `Sampler.DeterministicPathsShape` run over the corrected order, so they differ from the code on plans where the code's sort emits an action twice (two or more actions stuck behind a cycle or a missing dependency). For [A needs B, B needs A] the code's optimistic path executes A, B, B with cost cA + 2·cB, and its realistic path can reach probability 0.8³; the model executes A, B with cost cA + cB and probability at most 0.8². The budget-pressure effect of an expensive action also lists the repeated action twice among the affected ones in the code, once in the model.
- `Aggregator.BestIndex`: the recommended path is specified as the first path with the highest score. This is the element a stable descending sort puts first; the sort of the whole list itself is not modelled.
- `Approvals.SortByScore`: stability of the descending sort (equal scores keep registration order) is built into the definition but not stated as a lemma.
- Fields that no modelled operation reads are dropped: an approver's average response time, a decision's free-form context, a tool metric's data sample, and a plan's metadata.
