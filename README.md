# founderOS idea pipeline and founder summaries, modelled in Dafny

founderOS runs a solo founder's idea pipeline and operating summaries for
one tenant at a time. This project models its core in Dafny and proves
properties of the model:

- **Idea selection.** Each idea passes through hard filters (market, regulation, agent fit,
  founder fit), gets keyword scores and a drafted transformation
  statement, and is moved to KILLED, SCORING or EXPERIMENTING, subject to a
  cap on experimenting ideas. Manual state changes and experiment logging
  are also covered, as is the refresh flow that re-evaluates every idea of
  a tenant.
- **Problem mapping and signal ingestion.** Scraped signals are stored once each.
  They are grouped into problem buckets and turned into at most five
  candidate ideas, each citing the signals it came from.
- **Experiment loop.** Each experimenting idea without experiments gets
  designed experiments (SIGNAL, WORKFLOW, AGENT_OWNERSHIP). Completed
  experiments are interpreted, and the results decide whether the idea is
  VALIDATED, KILLED or still EXPERIMENTING.
- **Archetypes.** The archetype scorer reads five axis heuristics from the
  framework. The demand test simulates an outreach sample, stores a
  verdict and re-scores the instance.
- **Operations summaries.** Metrics aggregation builds a snapshot of MRR
  and churn. The founder summary agent raises alerts and recommends
  capped actions, and the weekly flow drafts a summary, requests approval
  and approves it.
- **Form actions and scripts.** The settings and ideas pages read their
  forms with JavaScript's `Number`, `||` and list splitting. The two QStash
  scripts build the discover endpoint and the weekly schedule.

The database is one object, `Store.Db`. It has one sequence field per
table, the two intent tables as maps keyed by tenant, an append-only event
log and an id counter. Flows that write are methods on it, with
field-level `modifies` clauses. Their pure parts are functions, and the
properties are proved as lemmas about those functions.

Each module follows one source file: `IdeaScoring`, `IdeaSelection`,
`ProblemMapper`, `SignalIngestion`, `ExperimentDesigner`,
`ExperimentInterpreter`, `ExperimentLoop`, `MetricsAggregation`,
`FounderSummaryAgent`, `WeeklyFounderSummary`, `ArchetypeScorer`,
`ArchetypeDemandTest`, `SettingsActions`, `IdeaActions`, `Destination`,
`ScheduleIdeasDiscover` and `TestIdeasTrigger`. The shared modules are:

- `Config`: the intent defaults and the archetype framework.
- `Records`: the rows.
- `Store`: the database.
- `Ordering`: `where` / `orderBy desc` / `take`.
- `Text`: lower-casing, `includes`, `trim`, `split`.
- `Forms`: `FormData` and `Number`.
- `Wrappers`: `Option` and `Result`.

## Model

| member | source | states |
|---|---|---|
| Config.GetIdeaFilters | src/l3/ideasIntent.ts:13-33 | every tenant gets the default filters: ARPU floor 50, three excluded domains, three founder strengths, seven agent-fit keywords, minimum score 9, no cap |
| Config.GetBusinessIntent | src/l3/businessIntent.ts:19-36 | every tenant gets the default intent (target MRR 20000, churn 5%, churn alert 8%, runway alert 6 months, concise tone, 4 actions), which meets the schema's 1..10 bound on actions |
| Config.DefaultFrameworkValid | src/l3/archetypeFramework.ts:3-9 | every heuristic of every ICP option of the default framework is an integer in 1..3, as its schema demands |
| Store.FindIdea | src/l2/ideas/ideaSelection.ts:15-17 | `findFirst` by id and tenant: the first matching idea, and none iff no idea matches both |
| Store.FindSummary | src/l2/ops/weeklyFounderSummary.ts:97-102 | the summary with the id, and none iff no summary has it |
| Store.FindArchetype | src/l1/ideas/archetypeScorer.ts:39-41 | `findFirst` by id and tenant: a matching instance, and none iff no instance matches both |
| Text.Lower | src/l1/ideas/ideaScoring.ts:36 | `toLowerCase` keeps the length and lowers each character on its own |
| Text.Trim | src/app/founder/ideas/actions.ts:14-16 | `trim` removes only leading and trailing white space: the result sits in the text with nothing but white space before and after it (TrimmedAt), has no white space at either end, and is empty exactly when the text is all white space |
| IdeaScoring.ComputeScore | src/l1/ideas/ideaScoring.ts:101-108 | the score is in 1..3; it is 1 exactly when no keyword occurs and 3 exactly when at least three occur |
| IdeaScoring.AgentLeverage | src/l1/ideas/ideaScoring.ts:64-69 | the number of agent-fit keywords found, capped at 3; 0 exactly when none is found, and never more than the number of keywords |
| IdeaScoring.RunHardFilters | src/l1/ideas/ideaScoring.ts:31-48 | market passes iff the ARPU (0 when unset) reaches the floor; regulation passes iff the idea is not flagged and its lower-cased text contains no excluded domain; agent fit iff not manual-heavy; founder fit iff the signal is set |
| IdeaScoring.ScoreIdea | src/l1/ideas/ideaScoring.ts:50-99 | pain, data surface and repeatability are in 1..3, agent leverage in 0..3, and the total is their sum, in 3..12 |
| IdeaScoring.ScoringDependsOnlyOnInputs | src/l1/ideas/ideaScoring.ts:31-99 | ideas with the same title, description, ARPU and flags get the same filters and scores, whatever their state, scores or transformation |
| IdeaScoring.TotalThreeIffNoKeyword | src/l1/ideas/ideaScoring.ts:50-108 | the total is 3, the lowest, exactly when the idea's text names no pain, agent-fit, data-surface or repeatability keyword |
| IdeaScoring.LowestTotalIsThree | src/l1/ideas/ideaScoring.ts:50-99 | the lower bound 3 is reached: it exhibits one idea (title "x", empty description, every agent-fit keyword longer than two characters) that totals 3 |
| IdeaScoring.StricterFiltersPassFewer | src/l1/ideas/ideaScoring.ts:38-46 | a higher ARPU floor with a superset of excluded domains lets through no idea that the looser filters refuse |
| IdeaScoring.DraftParts | src/l1/ideas/ideaScoring.ts:19-26 | the inputs are "<ICP> operations" for a non-empty ICP, else "customer workflows"; the capability is "specialized agents" iff the lower-cased title contains "agent"; the outcome is the description up to its first '.' |
| IdeaScoring.DraftTransformationStatement | src/l1/ideas/ideaScoring.ts:19-29 | the statement starts "We take " and ends " for the target buyer." |
| IdeaSelection.CountExperimenting | src/l2/ideas/ideaSelection.ts:45-50 | the count of the tenant's EXPERIMENTING ideas is at most the number of ideas |
| IdeaSelection.CountAfterUpdate | src/l2/ideas/ideaSelection.ts:45-50 | replacing one idea changes the count only by that idea's own contribution |
| IdeaSelection.DecideState | src/l2/ideas/ideaSelection.ts:37-64 | KILLED iff a hard filter fails; EXPERIMENTING iff all pass, the total reaches the minimum and the cap is absent or not yet reached; SCORING otherwise |
| IdeaSelection.Evaluate | src/l2/ideas/ideaSelection.ts:20-74 | the updated row keeps id, tenant, inputs, ICP and signals; an existing transformation is kept and a missing one is drafted; the state is KILLED, SCORING or EXPERIMENTING |
| IdeaSelection.KilledIffSomeFilterFails | src/l2/ideas/ideaSelection.ts:28-35 | the idea is KILLED iff a filter fails, and then keeps its stored scores, 1/1/1/1/4 where unset |
| IdeaSelection.PassedIdeaState | src/l2/ideas/ideaSelection.ts:37-61 | with all filters passed the total is recomputed and the idea goes to EXPERIMENTING iff the total reaches the minimum and the cap allows it, else to SCORING |
| IdeaSelection.ReevaluationIdempotentWithoutCap | src/l2/ideas/ideaSelection.ts:20-74 | without a cap, evaluating an evaluated idea again changes nothing |
| IdeaSelection.ReevaluationIdempotentAtSameCount | src/l2/ideas/ideaSelection.ts:20-74 | with a cap, evaluating again at the same EXPERIMENTING count changes nothing |
| IdeaSelection.CapPreserved | src/l2/ideas/ideaSelection.ts:43-55 | as written, too, a count within the cap before an evaluation stays within it afterwards: the defect is the oscillation, not an overrun |
| IdeaSelection.CapRecountOscillates | src/l2/ideas/ideaSelection.ts:44-55 | as written (the count includes the idea itself): an idea that fills the cap's last place is demoted to SCORING on the next evaluation and promoted again on the one after |
| IdeaSelection.EvaluateExcludingSelf | src/l2/ideas/ideaSelection.ts:44-55 | the corrected evaluation, which counts only the tenant's other EXPERIMENTING ideas, still yields KILLED, SCORING or EXPERIMENTING |
| IdeaSelection.ExcludingSelfIdempotent | src/l2/ideas/ideaSelection.ts:44-55 | with the corrected count, re-evaluation is idempotent under a cap and the cap still holds afterwards |
| IdeaSelection.ExcludingSelfAgreesOtherwise | src/l2/ideas/ideaSelection.ts:44-55 | for an idea not yet EXPERIMENTING the corrected and the as-written evaluations agree |
| IdeaSelection.EvaluateIdea | src/l2/ideas/ideaSelection.ts:10-89 | an unknown idea gives "Idea not found" and writes nothing; otherwise the row becomes the evaluated idea under the tenant's filters or the given ones, with the cap checked against the tenant's other EXPERIMENTING ideas (the corrected count), and one IDEA_SCORED event is appended |
| IdeaSelection.UpdateIdeaState | src/l2/ideas/ideaSelection.ts:91-109 | an unknown idea fails and writes nothing; otherwise only the state changes and one IDEA_STATE_CHANGED event is appended |
| IdeaSelection.LogIdeaExperiment | src/l2/ideas/ideaSelection.ts:111-140 | one experiment row under a fresh id, with result PENDING unless one is given, and one IDEA_EXPERIMENT_LOGGED event naming it |
| IdeaSelection.RefreshedUpTo | src/l2/ideas/ideaSelection.ts:156-165 | the rows as the sequential refresh holds them on reaching a given row: same length, and that row and every later one not yet touched |
| IdeaSelection.RefreshFromShape | src/l2/ideas/ideaSelection.ts:156-165 | the refresh leaves the rows before the current position alone, replaces every later row of the tenant by its evaluation under the count of the tenant's other EXPERIMENTING ideas in RefreshedUpTo's rows for that row (the store as the earlier evaluations left it), and leaves other tenants' rows unchanged |
| IdeaSelection.RefreshEvaluatesEachRow | src/l2/ideas/ideaSelection.ts:10-89 | after the refresh, each of the tenant's ideas is KILLED exactly when a hard filter fails; a passing idea carries its recomputed total; the transformation is kept, or drafted when unset; without a cap the row is the idea's evaluation whatever the other rows |
| IdeaSelection.CountIrrelevantWithoutCap | src/l2/ideas/ideaSelection.ts:44-64 | without a cap, the EXPERIMENTING count does not affect the evaluation |
| IdeaSelection.RefreshKeepsCap | src/l2/ideas/ideaSelection.ts:156-165 | with the corrected count, a cap that holds before the refresh holds after it |
| IdeaSelection.RunIdeasRefreshFlow | src/l2/ideas/ideaSelection.ts:142-179 | FLOW_STARTED, then one IDEA_SCORED per idea of the tenant in list order, then FLOW_COMPLETED carrying the results; the rows are those of the refresh, and the answer, the same results, holds one (id, state) pair per idea of the tenant |
| ProblemMapper.Build | src/l1/ideas/problemMapper.ts:22-78 | a candidate carries its template's texts and the bucket's ids in order; its ARPU is the floor or the template's minimum, whichever is larger (the floor itself for support-compressor) |
| ProblemMapper.FirstMatchFromIsFirst | src/l1/ideas/problemMapper.ts:94-97 | the template found is the first whose keywords occur in the lower-cased content; no match means no template has one |
| ProblemMapper.BucketMembers | src/l1/ideas/problemMapper.ts:93-102 | a bucket holds exactly the signals whose first matching template is its own |
| ProblemMapper.EmittedTemplatesAscending | src/l1/ideas/problemMapper.ts:106-112 | the candidates come from strictly increasing templates, so they are in template order and at most one per template |
| ProblemMapper.EmittedTemplatesCover | src/l1/ideas/problemMapper.ts:106-112 | every non-empty bucket yields a candidate |
| ProblemMapper.AtMostFiveCandidates | src/l1/ideas/problemMapper.ts:18-80 | there are never more than five candidates, one per template |
| ProblemMapper.NoSignalsNoCandidates | src/l1/ideas/problemMapper.ts:104-114 | no signals give no candidates |
| ProblemMapper.CandidatesMeetArpuFloor | src/l1/ideas/problemMapper.ts:28-76 | every candidate's ARPU estimate is at least the configured floor |
| ProblemMapper.CandidateIdsFromInput | src/l1/ideas/problemMapper.ts:93-112 | every id a candidate cites belongs to an input signal that matched a template |
| ProblemMapper.MatchedSignalCited | src/l1/ideas/problemMapper.ts:93-112 | every signal that matches a template is cited by some candidate |
| ProblemMapper.CandidatesDisjoint | src/l1/ideas/problemMapper.ts:93-112 | with distinct input ids, no two candidates cite the same signal |
| ProblemMapper.UnmatchedSignalsDropped | src/l1/ideas/problemMapper.ts:99-101 | with distinct input ids, a signal that matches no template is cited by no candidate |
| ProblemMapper.InvoiceBeatsCrm | src/l1/ideas/problemMapper.ts:18-46 | template order decides: content mentioning "invoice" goes to inbox-spend even when it also mentions "crm" |
| ProblemMapper.FillBuckets | src/l1/ideas/problemMapper.ts:87-102 | the first loop leaves every template's bucket holding the signals whose first match it is, in input order |
| ProblemMapper.EmitCandidates | src/l1/ideas/problemMapper.ts:104-114 | the second loop yields one candidate per non-empty bucket, in template order |
| ProblemMapper.RunProblemMapper | src/l1/ideas/problemMapper.ts:82-115 | the mapper's answer is the candidate list the lemmas above describe |
| SignalIngestion.SeedsOrSample | src/l1/ideas/signalIngestion.ts:43-47 | without seeds the five sample feeds are used, otherwise the given seeds |
| SignalIngestion.HasSignal | src/l1/ideas/signalIngestion.ts:51-58 | the lookup finds a row iff the tenant already stores a signal with that content |
| SignalIngestion.AcceptedFresh | src/l1/ideas/signalIngestion.ts:50-67 | no stored content is stored again, and no content is stored twice from one batch |
| SignalIngestion.AcceptedCovers | src/l1/ideas/signalIngestion.ts:50-67 | after a run, every seed's content is stored for the tenant, either from before or by this run |
| SignalIngestion.AcceptedFromSeeds | src/l1/ideas/signalIngestion.ts:50-67 | the stored seeds are seeds of the batch in batch order, so there are at most as many as seeds |
| SignalIngestion.AllKnownNothingAccepted | src/l1/ideas/signalIngestion.ts:50-58 | a batch whose contents are all stored already stores nothing |
| SignalIngestion.KnownAfterInsert | src/l1/ideas/signalIngestion.ts:60-66 | the inserted rows add exactly their contents to what the tenant stores |
| SignalIngestion.IngestTwiceStoresNothing | src/l1/ideas/signalIngestion.ts:43-83 | running the same seeds a second time stores nothing: the ingestion is idempotent |
| SignalIngestion.IngestSeed | src/l1/ideas/signalIngestion.ts:50-78 | one turn of the loop: a stored content is skipped; otherwise one row and one IDEA_SIGNAL_INGESTED event are appended |
| SignalIngestion.RunSignalIngestion | src/l1/ideas/signalIngestion.ts:43-83 | the answer is exactly the new rows, under consecutive fresh ids; existing rows are kept; one event per new row is appended |
| ExperimentDesigner.SignalDesign | src/l1/ideas/experimentDesigner.ts:17-27 | the SIGNAL design's text names the idea's title and its ICP, "target ICP" when unset |
| ExperimentDesigner.DesignOf | src/l1/ideas/experimentDesigner.ts:18-62 | the design built for each experiment type has that type |
| ExperimentDesigner.DesignKindsCases | src/l1/ideas/experimentDesigner.ts:29-63 | SIGNAL always comes first; WORKFLOW is designed iff the description mentions agent, automate, monitor or parse, or leverage is at least 2; AGENT_OWNERSHIP iff leverage is at least 2 and the total at least 9 (unset scores read as 0) |
| ExperimentDesigner.DesignsFollowKinds | src/l1/ideas/experimentDesigner.ts:14-66 | there is one design per chosen type, each of its own type, in the same order |
| ExperimentDesigner.SignalDesignFirst | src/l1/ideas/experimentDesigner.ts:17-27 | the first design is the SIGNAL test |
| ExperimentDesigner.AgentOwnershipImpliesWorkflow | src/l1/ideas/experimentDesigner.ts:36-51 | AGENT_OWNERSHIP is only designed together with WORKFLOW |
| ExperimentDesigner.DesignsOrdered | src/l1/ideas/experimentDesigner.ts:14-66 | the designs come in the order SIGNAL, WORKFLOW, AGENT_OWNERSHIP, each type at most once |
| ExperimentDesigner.TitleDoesNotSelect | src/l1/ideas/experimentDesigner.ts:30-51 | the title does not choose the designs: ideas with the same description and scores get designs of the same types |
| ExperimentInterpreter.InterpretExistingResult | src/l1/ideas/experimentInterpreter.ts:28-83 | a stored PASSED or FAILED is kept, at HIGH confidence iff the description has strong-signal (PASSED) or clear-failure (FAILED) wording, else MEDIUM; any other stored value reads as INCONCLUSIVE at MEDIUM |
| ExperimentInterpreter.AnalyzeSignal | src/l1/ideas/experimentInterpreter.ts:92-122 | any negative keyword fails at MEDIUM; positive keywords without negatives pass at MEDIUM; otherwise the table decides nothing |
| ExperimentInterpreter.AnalyzeWorkflow | src/l1/ideas/experimentInterpreter.ts:125-156 | any issue keyword fails at MEDIUM; value keywords without issues pass at HIGH; otherwise the table decides nothing |
| ExperimentInterpreter.AnalyzeAgentOwnership | src/l1/ideas/experimentInterpreter.ts:159-190 | any issue keyword gives INCONCLUSIVE at MEDIUM; success keywords without issues pass at HIGH; otherwise the table decides nothing |
| ExperimentInterpreter.AnalyzeExperimentDescription | src/l1/ideas/experimentInterpreter.ts:85-199 | the table of the experiment's type over the lower-cased description; INCONCLUSIVE at LOW confidence iff that table decides nothing |
| ExperimentInterpreter.RunExperimentInterpreter | src/l1/ideas/experimentInterpreter.ts:15-26 | a set, non-empty, non-PENDING result is interpreted as stored; anything else is analysed from the description |
| ExperimentInterpreter.StoredResultIsVerdict | src/l1/ideas/experimentInterpreter.ts:19-83 | a stored PASSED, FAILED or INCONCLUSIVE result is the verdict; any other stored value gives INCONCLUSIVE at MEDIUM |
| ExperimentInterpreter.NoHighConfidenceDisagreement | src/l1/ideas/experimentInterpreter.ts:19-83 | for a completed experiment, an interpretation that differs from the stored result never carries HIGH confidence |
| ExperimentInterpreter.LowOnlyWhenUndetermined | src/l1/ideas/experimentInterpreter.ts:192-198 | LOW confidence arises iff the experiment is pending and its table decides nothing, and then the verdict is INCONCLUSIVE |
| ExperimentInterpreter.NoResponseFailsSignal | src/l1/ideas/experimentInterpreter.ts:93-121 | for a pending SIGNAL test, "no response" fails it, although it also contains the positive keyword "response" |
| ExperimentLoop.ExperimentsOfMembers | src/l2/ideas/experimentLoop.ts:33-41 | the experiments loaded with an idea are exactly the stored experiments that name it |
| ExperimentLoop.CompletedMembers | src/l2/ideas/experimentLoop.ts:84-86 | the completed experiments are exactly those whose result is set, non-empty and not PENDING |
| ExperimentLoop.Raise | src/l2/ideas/experimentLoop.ts:100-107 | one tracking step never lowers the confidence, reaches the new one, and keeps one of the two |
| ExperimentLoop.HighestConfidenceIsMax | src/l2/ideas/experimentLoop.ts:92-107 | the tracked confidence is the largest confidence among the interpretations, LOW when none |
| ExperimentLoop.NextState | src/l2/ideas/experimentLoop.ts:128-140 | without completed experiments the state stays; otherwise it stays or becomes KILLED or VALIDATED |
| ExperimentLoop.NextStateCases | src/l2/ideas/experimentLoop.ts:120-140 | KILLED iff some verdict is FAILED and some interpretation (not necessarily the failed one) is HIGH; VALIDATED iff not killed, every verdict PASSED, at least two completed and one of them AGENT_OWNERSHIP |
| ExperimentLoop.ThreePassedWithAgentOwnershipValidate | src/l2/ideas/experimentLoop.ts:133-140 | three stored PASSED results, one on an AGENT_OWNERSHIP test, validate the idea |
| ExperimentLoop.OverwriteNeverFires | src/l2/ideas/experimentLoop.ts:109-118 | with the flow's interpreter the overwrite of a stored result is dead: the experiments are unchanged |
| ExperimentLoop.NoCompletedKeepsState | src/l2/ideas/experimentLoop.ts:47-89 | experiments designed in this pass are PENDING, so an idea without completed experiments keeps its state and only designed events are logged |
| ExperimentLoop.LoopTouchesOnlySelected | src/l2/ideas/experimentLoop.ts:33-45 | only the tenant's EXPERIMENTING ideas change, only in their state, and only to KILLED or VALIDATED |
| ExperimentLoop.LoopExperimentsFresh | src/l2/ideas/experimentLoop.ts:45-77 | the experiments the pass creates are the tenant's, PENDING, under consecutive fresh ids |
| ExperimentLoop.InterpretCompleted | src/l2/ideas/experimentLoop.ts:88-140 | the loop over the completed experiments computes the new state the specification gives, and writes no experiment |
| ExperimentLoop.DesignOne | src/l2/ideas/experimentLoop.ts:51-69 | one PENDING experiment row under the fresh id and its IDEA_EXPERIMENT_DESIGNED event |
| ExperimentLoop.DesignExperiments | src/l2/ideas/experimentLoop.ts:47-77 | one PENDING experiment row and one designed event per design, in design order |
| ExperimentLoop.RulesKeepStoredResults | src/l2/ideas/experimentLoop.ts:109-118 | the flow's interpreter never contradicts a stored result at HIGH confidence |
| ExperimentLoop.CompletedHaveResults | src/l2/ideas/experimentLoop.ts:84-86 | every completed experiment has a result |
| ExperimentLoop.UpdateFromResults | src/l2/ideas/experimentLoop.ts:79-165 | the idea takes the state its completed experiments call for; an IDEA_STATE_CHANGED event and action exist iff the state changed |
| ExperimentLoop.ProcessIdea | src/l2/ideas/experimentLoop.ts:45-166 | one turn of the loop writes exactly what the step specification gives |
| ExperimentLoop.LoopIdeas | src/l2/ideas/experimentLoop.ts:43-166 | the pass writes the states, experiments, events and actions of the specification, over the ideas and experiments as loaded |
| ExperimentLoop.RunExperimentLoopWith | src/l2/ideas/experimentLoop.ts:18-180 | the flow logs FLOW_STARTED, makes the pass, logs FLOW_COMPLETED carrying the pass's actions, which are also the answer, for any designer and any interpreter that keeps stored results |
| ExperimentLoop.RunExperimentLoop | src/l2/ideas/experimentLoop.ts:18-180 | the same with the flow's own designer and interpreter |
| MetricsAggregation.OfTenant | src/l1/ops/metricsAggregation.ts:13-15 | the tenant's subscriptions are a sub-list of the table, never longer |
| MetricsAggregation.OfTenantExact | src/l1/ops/metricsAggregation.ts:13-15 | exactly the tenant's subscriptions are read |
| MetricsAggregation.TotalAppend | src/l1/ops/metricsAggregation.ts:17-41 | the sums and the count over two lists joined are the sums and counts of the parts |
| MetricsAggregation.TotalRemove | src/l1/ops/metricsAggregation.ts:17-41 | dropping one row takes away exactly its own contribution |
| MetricsAggregation.TotalPermutation | src/l1/ops/metricsAggregation.ts:21-39 | the MRR sums do not depend on the order in which the subscriptions are read |
| MetricsAggregation.CountPermutation | src/l1/ops/metricsAggregation.ts:41 | nor does the active-customer count |
| MetricsAggregation.TotalBounds | src/l1/ops/metricsAggregation.ts:21-39 | with non-negative amounts, MRR, new MRR and churned MRR each lie between 0 and the sum of all amounts |
| MetricsAggregation.NoActiveNoMrr | src/l1/ops/metricsAggregation.ts:17-21 | no active customer means zero MRR |
| MetricsAggregation.WindowInclusive | src/l1/ops/metricsAggregation.ts:23-38 | a start or a cancellation counts iff it falls in the thirty days up to the period end, both ends included, whatever the status |
| MetricsAggregation.RunMetricsAggregation | src/l1/ops/metricsAggregation.ts:9-65 | one snapshot row under a fresh id with the tenant's sums and a null runway, `periodEnd` defaulting to now, and one METRICS_SNAPSHOT_CREATED event naming it |
| FounderSummaryAgent.ChurnRate | src/l1/ops/founderSummary.ts:33-36 | churned MRR divided by MRR, and 0 when MRR is 0 |
| FounderSummaryAgent.AlertsRaised | src/l1/ops/founderSummary.ts:47-57 | the churn alert iff the churn rate exceeds its threshold; the runway alert iff threshold and runway are both set and non-zero and the runway is below it; churn first |
| FounderSummaryAgent.RecommendationLinesShape | src/l1/ops/founderSummary.ts:59-72 | the "no pending recommendations" line alone, or the count line followed by bullets for the first three recommendations in order |
| FounderSummaryAgent.ArchetypeLinesShape | src/l1/ops/founderSummary.ts:74-92 | no lines without archetypes; otherwise a header and bullets for the first three, with name, score and verdict label |
| FounderSummaryAgent.GtmEvents | src/l1/ops/founderSummary.ts:150-151 | the GTM events are a sub-list of the recent events |
| FounderSummaryAgent.GtmEventsExact | src/l1/ops/founderSummary.ts:150-151 | exactly the events whose type starts with GTM_ are kept |
| FounderSummaryAgent.FollowUpsShape | src/l1/ops/founderSummary.ts:150-155 | at most two follow-ups, one for each of the first GTM events, naming its lower-cased type |
| FounderSummaryAgent.FirstOfKind | src/l1/ops/founderSummary.ts:158-161 | the position found is inside the list |
| FounderSummaryAgent.FirstOfKindIsFirst | src/l1/ops/founderSummary.ts:158-161 | `find` answers the first recommendation of the type, and nothing iff there is none |
| FounderSummaryAgent.TopIndex | src/l1/ops/founderSummary.ts:176-178 | the top archetype's position is inside the list |
| FounderSummaryAgent.TopIndexIsFirstBest | src/l1/ops/founderSummary.ts:176-178 | the top archetype has a set score of at least 10, none scores higher, and earlier qualifying ones score strictly lower (the stable sort keeps the first of equals); none iff none qualifies |
| FounderSummaryAgent.ArchetypeAction | src/l1/ops/founderSummary.ts:180-194 | no action without a top archetype; one action for it unless its verdict is FAIL |
| FounderSummaryAgent.FirstActions | src/l1/ops/founderSummary.ts:142-148 | the churn review is pushed iff an alert was raised, and then last of the first pushes |
| FounderSummaryAgent.LaterActionsKinds | src/l1/ops/founderSummary.ts:150-194 | the later pushes never hold the churn review or the fallback |
| FounderSummaryAgent.Cap | src/l1/ops/founderSummary.ts:200 | `slice(0, n)`: the first n actions, or all of them when there are fewer |
| FounderSummaryAgent.CapMember | src/l1/ops/founderSummary.ts:200 | the cut keeps only actions of the list |
| FounderSummaryAgent.BuildRecommendedActions | src/l1/ops/founderSummary.ts:132-201 | never more actions than `maxActions` |
| FounderSummaryAgent.FallbackExactlyWhenEmpty | src/l1/ops/founderSummary.ts:196-200 | "stay the course" appears iff no other action was produced, and then alone |
| FounderSummaryAgent.ReviewChurnIffAlerts | src/l1/ops/founderSummary.ts:142-148 | with room for two actions, "review churned accounts" is recommended iff an alert was raised |
| FounderSummaryAgent.FailedArchetypeNoAction | src/l1/ops/founderSummary.ts:180-194 | a FAIL verdict on the top archetype yields no archetype action |
| FounderSummaryAgent.SummaryRow | src/l1/ops/founderSummary.ts:111-120 | the row is a DRAFT for the snapshot's id and period end, with at most `maxActions` actions |
| FounderSummaryAgent.RunFounderSummary | src/l1/ops/founderSummary.ts:25-130 | the summary row is appended under a fresh id and one FOUNDERSUMMARY_GENERATED event names it |
| WeeklyFounderSummary.TopArchetypes | src/l2/ops/weeklyFounderSummary.ts:46-60 | at most five archetype rows are read |
| WeeklyFounderSummary.TopArchetypesProperties | src/l2/ops/weeklyFounderSummary.ts:46-60 | each row shows the selected columns of one of the tenant's instances; the instances come by total score, then by last update, highest first; no left-out instance of the tenant ranks above a shown one; all are shown when the tenant has at most five |
| WeeklyFounderSummary.RecentEventsProperties | src/l2/ops/weeklyFounderSummary.ts:25-34 | the recent events are the tenant's, of the last seven days, newest first, at most 20 |
| WeeklyFounderSummary.PendingRecommendationsProperties | src/l2/ops/weeklyFounderSummary.ts:36-44 | the recommendations read are the tenant's PENDING_REVIEW ones, newest first, at most 5 |
| WeeklyFounderSummary.SetSummaryState | src/l2/ops/weeklyFounderSummary.ts:71-76 | the summary with the id takes the new state and nothing else changes; an unknown id is an error with no write |
| WeeklyFounderSummary.StartWeekly | src/l2/ops/weeklyFounderSummary.ts:11-23 | FLOW_STARTED is logged, then a snapshot of the tenant's subscriptions at the current time is stored with its event |
| WeeklyFounderSummary.GenerateWeekly | src/l2/ops/weeklyFounderSummary.ts:11-69 | the DRAFT summary is built from the new snapshot and the three reads, which already see the flow's first two events |
| WeeklyFounderSummary.RequestApproval | src/l2/ops/weeklyFounderSummary.ts:71-91 | the new summary moves to PENDING_APPROVAL, then APPROVAL_REQUESTED and FLOW_COMPLETED are logged |
| WeeklyFounderSummary.RunWeeklyFounderSummaryFlow | src/l2/ops/weeklyFounderSummary.ts:7-94 | one snapshot and one summary in PENDING_APPROVAL are added, under consecutive fresh ids, with the five events in order; the answer is the summary's id |
| WeeklyFounderSummary.WeeklyNoRunwayAlert | src/l2/ops/weeklyFounderSummary.ts:21-23 | the snapshot the flow builds has no runway, so its summary never raises the runway alert |
| WeeklyFounderSummary.ApproveFounderSummary | src/l2/ops/weeklyFounderSummary.ts:96-117 | the summary becomes PUBLISHED from any state and for any tenant, then APPROVED and PUBLISHED are logged; an unknown id is an error with no write |
| Ordering.FilterExact | src/l2/ops/weeklyFounderSummary.ts:25-31 | `where` keeps exactly the rows the condition selects, each as often as in the table |
| Ordering.InsertSorted | src/l2/ops/weeklyFounderSummary.ts:32 | inserting a row into a list sorted highest first keeps it sorted |
| Ordering.SortDescSorted | src/l2/ops/weeklyFounderSummary.ts:46-51 | `orderBy ... desc` gives a permutation of its input sorted highest first, lexicographically over two keys |
| Ordering.QueryProperties | src/l2/ops/weeklyFounderSummary.ts:25-60 | a query answers at most `take` selected rows, highest first, no unanswered selected row ranks above an answered one, and all selected rows are answered when they fit |
| Ordering.QueryLeftOut | src/l2/ops/weeklyFounderSummary.ts:46-60 | a selected row the query leaves out ranks no higher than any answered row, and none is left out when the selected rows fit within `take` |
| Forms.Get | src/app/founder/settings/actions.ts:21 | `formData.get` answers an entry iff the form has the name |
| Forms.StringOf | src/app/founder/ideas/actions.ts:14-16 | a missing entry reads as empty text, a text entry as itself |
| Forms.ParseUnsigned | src/app/founder/settings/actions.ts:13-14 | an unsigned decimal literal has at least one character and a non-negative value |
| Forms.ParseDecimal | src/app/founder/settings/actions.ts:13-14 | a literal that starts with a digit is read as an unsigned one |
| Forms.StringToNumber | src/app/founder/settings/actions.ts:13-14 | `Number(s)` of a blank string is 0 |
| Forms.ToNumber | src/app/founder/ideas/actions.ts:17 | `Number(null)` is 0 and `Number` of a file is NaN |
| Forms.NumberOr | src/app/founder/settings/actions.ts:13-31 | `Number(x)`, or else the default d: a truthy number is the result, a falsy one (0, NaN) gives d; so the result is never 0 when d is not |
| Forms.NumberOrNull | src/app/founder/ideas/actions.ts:17 | `Number(x)`, or else null, is null iff the number is 0 or NaN, and otherwise that number |
| Forms.NumberOrFallsBack | src/app/founder/settings/actions.ts:13-20 | a missing, blank, zero or non-numeric entry, or a file, gives the default |
| Forms.DigitsValueOfNat | src/app/founder/settings/actions.ts:29-31 | the decimal digits of a whole number read back as that number |
| Forms.NumberOfNatText | src/app/founder/settings/actions.ts:29-31 | a whole number typed into a form field is read as itself |
| SettingsActions.SplitItems | src/app/founder/settings/actions.ts:62-63 | splitting at commas and line breaks gives at least one part, none holding a comma or a line feed |
| SettingsActions.CleanList | src/app/founder/settings/actions.ts:62-65 | every item left after trimming and dropping empty ones is non-empty, has no white space at either end and holds no separator |
| SettingsActions.ParseListInput | src/app/founder/settings/actions.ts:58-67 | the fallback for a non-text entry or for text holding no item; otherwise the clean items |
| SettingsActions.SplitJoin | src/app/founder/settings/actions.ts:62-63 | splitting clean items joined by ",", "\n" or "\r\n" gives the items back |
| SettingsActions.ParseListRoundTrip | src/app/founder/settings/actions.ts:58-67 | a list saved with one item per line or comma-separated reads back as the same list |
| SettingsActions.AlertRunwayIsNumberOrNull | src/app/founder/settings/actions.ts:21-25 | the runway alert is null iff the entry is missing, blank, zero or not a number, and otherwise that number; the explicit empty-entry test changes nothing |
| SettingsActions.ToneField | src/app/founder/settings/actions.ts:26-28 | the tone is the entry's text, "concise" when missing; a file fails the upsert |
| SettingsActions.BusinessIntentFromForm | src/app/founder/settings/actions.ts:12-31 | the numeric fields are never 0 (each falls back to its default), the runway is null or non-zero, and only a file tone fails |
| SettingsActions.IdeaIntentFromForm | src/app/founder/settings/actions.ts:69-86 | the floor and minimum score are never 0 and the three lists are never empty |
| SettingsActions.EmptyFormsStoreDefaults | src/app/founder/settings/actions.ts:12-86 | an empty submission stores the defaults, except that the runway alert is cleared instead of reset to 6 months |
| SettingsActions.UpdateBusinessIntentAction | src/app/founder/settings/actions.ts:33-52 | the demo tenant's business-intent row becomes the form's row; other tenants' rows are kept |
| SettingsActions.UpdateIdeaIntentAction | src/app/founder/settings/actions.ts:88-105 | the demo tenant's idea-intent row becomes the form's row; other tenants' rows are kept |
| IdeaActions.ReadIdeaForm | src/app/founder/ideas/actions.ts:14-20 | title, description and ICP are the trimmed entries, so none starts or ends with white space; the ARPU estimate is null iff its number is 0 or NaN; each flag is set iff its entry is exactly "on" |
| IdeaActions.NewIdeaRow | src/app/founder/ideas/actions.ts:26-37 | a blank ICP is stored as null, another as its trimmed text; the row carries the form's title, description and ARPU under the demo tenant; the filters and scores are unset |
| IdeaActions.CreateIdeaRow | src/app/founder/ideas/actions.ts:13-37 | applied to the read form, an error iff the trimmed title or description is empty; otherwise a demo-tenant row with that title and description |
| IdeaActions.BlankFieldsStoredNull | src/app/founder/ideas/actions.ts:16-17 | a blank ICP entry and a missing, zero or non-numeric ARPU entry are stored as null |
| IdeaActions.StoreIdea | src/app/founder/ideas/actions.ts:22-37 | nothing is written on an error; otherwise the row is appended under a fresh id |
| IdeaActions.CreateIdeaAction | src/app/founder/ideas/actions.ts:13-40 | the form's idea is appended under a fresh id, or nothing is written when validation fails |
| IdeaActions.ParseResult | src/app/founder/ideas/actions.ts:62-66 | a text that names no result is kept as it is |
| IdeaActions.ResultTextRoundTrip | src/app/founder/ideas/actions.ts:62-66 | a stored result's name reads back as the same result |
| IdeaActions.ParseKind | src/app/founder/ideas/actions.ts:57-60 | each of SIGNAL, WORKFLOW and AGENT_OWNERSHIP is named by exactly its own text |
| IdeaActions.ResultField | src/app/founder/ideas/actions.ts:62-66 | the result is PENDING when the entry is missing or empty |
| IdeaActions.ReadExperimentForm | src/app/founder/ideas/actions.ts:55-68 | an empty trimmed description is refused; otherwise the request carries the trimmed description, the type named and the result field |
| IdeaActions.LogRequest | src/app/founder/ideas/actions.ts:68-76 | nothing is written on an error; otherwise one experiment row under a fresh id and one IDEA_EXPERIMENT_LOGGED event |
| IdeaActions.LogExperimentAction | src/app/founder/ideas/actions.ts:55-79 | the form's experiment is logged for the idea, or nothing is written when validation fails |
| ArchetypeScorer.FindPattern | src/l1/ideas/archetypeScorer.ts:47-49 | the first pattern with the instance's key, and none iff no pattern has it |
| ArchetypeScorer.FindIcpOption | src/l1/ideas/archetypeScorer.ts:55-56 | an option with the instance's ICP key, and none iff no option has it (a null key matches none) |
| ArchetypeScorer.ChooseIcp | src/l1/ideas/archetypeScorer.ts:55-57 | the option with the instance's key when there is one, else the first option, and none iff the pattern has no options |
| ArchetypeScorer.ScoreAxes | src/l1/ideas/archetypeScorer.ts:47-79 | no axes iff the pattern is unknown; all ones when the pattern has no ICP option |
| ArchetypeScorer.ScoreBounds | src/l1/ideas/archetypeScorer.ts:73-86 | with heuristics in 1..3 each axis is in 1..3 and the total in 5..15 |
| ArchetypeScorer.DefaultFrameworkScoreBounds | src/l3/archetypeFramework.ts:3-161 | the default framework's heuristics keep every total in 5..15 |
| ArchetypeScorer.RunArchetypeScorer | src/l1/ideas/archetypeScorer.ts:34-120 | null and no write for an unknown instance or pattern; otherwise one score row under a fresh id and the instance updated with the same axes, total and time |
| ArchetypeScorer.InstanceMatchesScoreRow | src/l1/ideas/archetypeScorer.ts:102-113 | the instance carries exactly the axes and total of its score row |
| ArchetypeDemandTest.Round | src/l2/ideas/archetypeDemandTest.ts:33-37 | `Math.round` lies within one half of its argument, halves rounding up |
| ArchetypeDemandTest.OutreachCount | src/l2/ideas/archetypeDemandTest.ts:29-32 | at least 10 and at least five per source signal, and one of the two |
| ArchetypeDemandTest.PositiveResponses | src/l2/ideas/archetypeDemandTest.ts:33 | between 0 and the outreach |
| ArchetypeDemandTest.MeetingsBooked | src/l2/ideas/archetypeDemandTest.ts:34 | between 0 and the positive responses |
| ArchetypeDemandTest.WillingnessSignals | src/l2/ideas/archetypeDemandTest.ts:35-38 | between the meetings and the positive responses |
| ArchetypeDemandTest.VerdictOf | src/l2/ideas/archetypeDemandTest.ts:42-43 | PASS iff the win rate is at least 0.2, FAIL iff at most 0.05, INCONCLUSIVE iff strictly between |
| ArchetypeDemandTest.FiguresFor | src/l2/ideas/archetypeDemandTest.ts:29-43 | the verdict is the one the win rate calls for |
| ArchetypeDemandTest.FunnelNarrows | src/l2/ideas/archetypeDemandTest.ts:29-40 | meetings ≤ willingness ≤ positive ≤ outreach, outreach at least 10, and the win rate is positive over outreach |
| ArchetypeDemandTest.SmallSamples | src/l2/ideas/archetypeDemandTest.ts:33 | samples of 10, 15, 20 and 25 contacts get exactly one positive response in five |
| ArchetypeDemandTest.LargeSample | src/l2/ideas/archetypeDemandTest.ts:29-43 | from six source signals on the win rate lies strictly between 0.05 and 0.2 |
| ArchetypeDemandTest.VerdictBySignalCount | src/l2/ideas/archetypeDemandTest.ts:29-43 | the verdict is PASS for at most five source signals and INCONCLUSIVE for more |
| ArchetypeDemandTest.NeverFails | src/l2/ideas/archetypeDemandTest.ts:42-60 | the FAIL verdict and its notes are never produced |
| ArchetypeDemandTest.TestRow | src/l2/ideas/archetypeDemandTest.ts:45-62 | the test row is COMPLETED, carries the computed verdict and the notes that go with it |
| ArchetypeDemandTest.MarkAndRescore | src/l2/ideas/archetypeDemandTest.ts:64-75 | the instance records the test's verdict and time, then is rescored with the given framework (the flow passes the default one) |
| ArchetypeDemandTest.StoreTest | src/l2/ideas/archetypeDemandTest.ts:19-63 | FLOW_STARTED is logged, then the test row computed from the signal count is stored under a fresh id |
| ArchetypeDemandTest.TestInstance | src/l2/ideas/archetypeDemandTest.ts:19-89 | for a found instance, with any framework: FLOW_STARTED, the test row, the instance marked and rescored, FLOW_COMPLETED, and nothing else |
| ArchetypeDemandTest.RunArchetypeDemandTest | src/l2/ideas/archetypeDemandTest.ts:5-92 | an unknown instance is an error with no write; otherwise FLOW_STARTED, the test row under a fresh id, the instance marked and rescored, FLOW_COMPLETED |
| ArchetypeDemandTest.InstanceMatchesTest | src/l2/ideas/archetypeDemandTest.ts:64-75 | under any framework, the instance carries the test's verdict and time, and the total of the new score row |
| Destination.Normalize | scripts/scheduleIdeasDiscover.ts:49-51 | the base less at most one trailing slash |
| Destination.BuildDefaultDestination | scripts/scheduleIdeasDiscover.ts:46-54 | null iff the base is missing or empty; otherwise the base, less one trailing slash, followed by the discover route |
| Destination.TrailingSlashIgnored | scripts/scheduleIdeasDiscover.ts:49-53 | a base with or without its trailing slash gives the same destination |
| Destination.OnlyOneSlashStripped | scripts/testIdeasTrigger.ts:42-46 | a base ending in two slashes keeps one of them |
| Destination.SlashOnlyBase | scripts/testIdeasTrigger.ts:39-46 | a base of "/" gives the bare route, not an error |
| Destination.DistinctBasesDistinctDestinations | scripts/scheduleIdeasDiscover.ts:46-54 | different bases without trailing slashes give different destinations |
| Destination.ResolveDestination | scripts/scheduleIdeasDiscover.ts:14-22 | a set non-empty endpoint wins; without one the base decides; an empty or missing destination is the error |
| Destination.EmptyEndpointHidesBase | scripts/testIdeasTrigger.ts:11-19 | an empty endpoint variable is not replaced by the base URL, so the script fails although the base is set |
| ScheduleIdeasDiscover.PlanSchedule | scripts/scheduleIdeasDiscover.ts:7-39 | a missing token fails first, then a missing destination; the schedule has 3 retries, the backoff expression, the given id and cron when set and the default ones when unset |
| ScheduleIdeasDiscover.DefaultSchedule | scripts/scheduleIdeasDiscover.ts:4-39 | with only a token and a base URL the schedule calls the base's discover route every Monday at 09:00 |
| TestIdeasTrigger.PlanTrigger | scripts/testIdeasTrigger.ts:4-32 | a missing token is the error; the message is a manual test stamped with the given time |
| TestIdeasTrigger.TriggerMatchesSchedule | scripts/testIdeasTrigger.ts:11-32 | the test message goes exactly where the schedule calls, and the two scripts fail on the same environments |

## Left out

- User interface pages and components, the HTTP route handlers and `revalidatePath`: they render or route and decide nothing the model states.
- The QStash client calls, `console` output, `process.exit` and the QSTASH_URL client setting in both scripts: network and process I/O. The scripts are modelled up to the schedule or message they would send.
- `Date.now()` and `new Date()`: every method that writes a timestamp takes it as the parameter `now`. Flow instance ids built from the clock are not modelled, so events carry no flow instance id.
- Text formatting: `toLocaleString`, `toFixed`, `toDateString`, the emoji verdict labels and the narrative's line texts. The narrative is kept as structured lines (`SummaryNarrative`), not joined text, and actions are values, not sentences.
- The scorer's explanation texts (src/l1/ideas/archetypeScorer.ts:61-71): free text with no effect on any score.
- Concurrency: the count-then-update of the experimenting cap (src/l2/ideas/ideaSelection.ts:44-55) is racy across requests. Every flow is modelled as running alone.
- The event logger, the seed data, the loading and reporting scripts, the test runner, the scraping and LLM clients, and `discoverAndCompress`: they are not part of this model. The event log is an append-only sequence.
- Database ids are natural numbers from one counter shared by all tables, not strings. Foreign keys are not checked: logging an experiment for an unknown idea id appends the row.
- `getIdeaFilters` and `getBusinessIntent` return bare objects in the source, while their callers destructure a configuration and a version. The model gives every tenant the defaults under the version "default". The stored intent rows written by the settings actions are kept in `Store.Db` but not read back, as in the source.
- Floating point: ratios and amounts are exact reals and `Math.round` is floor(x + 0.5). For the demand test's 10, 15, 20 and 25 contacts the exact answers are also the IEEE answers (25 * 0.18 is exactly 4.5 in IEEE arithmetic, which rounds to 5, so the verdict is PASS in both).
- ArchetypeDemandTest.MeetingsBooked: books one meeting more than the source at some sizes, because IEEE `p * 0.35` lands a hair below the half. The first such input is 100 source signals (500 contacts, 90 positive responses): IEEE gives 31.499999999999996 and the source books 31, the model 32. It differs again at 170, 330 and 350 positive responses and beyond. Positive responses and the verdict, which depend only on `contacts * 0.18`, do not differ at these sizes.
- MetricsAggregation.WindowInclusive: the calendar step `setDate(getDate() - 30)` is taken as exactly thirty days of milliseconds. A daylight-saving change inside the window moves the real start by an hour.
- WeeklyFounderSummary.TopArchetypes: an unscored instance is ranked below every scored one. Where the database places nulls in a descending order depends on the database (PostgreSQL puts them first).
- Forms.StringToNumber: only decimal literals with an optional sign and point are read. Exponents, hexadecimal, binary, octal, "Infinity" and the numeric separators JavaScript's `Number` also accepts read as NaN here.
- Text.Lower: lower-cases ASCII letters only.
- Text.Trim: removes the ASCII white space, the no-break space and the byte-order mark, not every Unicode space character.
- IdeaActions.ReadExperimentForm: a type outside SIGNAL, WORKFLOW and AGENT_OWNERSHIP is refused with an error. The source casts the text without checking and leaves the database to reject it.
- IdeaActions.LogExperimentAction: the idea id is a parameter. The source reads it with `String(formData.get('ideaId'))`, which gives "null" for a missing entry.
- IdeaActions.NewIdeaRow: a created idea's state is taken to be PENDING_REVIEW, the column default. The schema is not part of this model.
- The actions `evaluateIdeaAction`, `updateIdeaStateAction`, `runArchetypeDemandTestAction`, `pauseArchetypeAction` and `killArchetypeAction` (src/app/founder/ideas/actions.ts:42-106) only forward to flows that are modelled, or set one column.
- IdeaSelection.UpdateIdeaState: the new state is one of the idea states. The source accepts any string and leaves the database to reject the others.
- FounderSummaryAgent.BuildRecommendedActions: `maxActions` is a natural number. A negative value, which `slice` would count from the end, cannot be configured through the defaults.
- FounderSummaryAgent.ArchetypeAction: the verdict is one of PASS, FAIL and INCONCLUSIVE or null. An empty verdict text, which the source also treats as untested, cannot arise from the demand test.
- The experiment loop's overwrite of a disagreeing HIGH-confidence result is modelled (`ExperimentLoop.ApplyInterpretation`) but proved dead for the flow's own interpreter (`ExperimentLoop.OverwriteNeverFires`). The loop is proved only for interpreters with that property.

## Findings

| source | as written | input that shows it | evidently intended | confidence | as-written member | corrected member |
|---|---|---|---|---|---|---|
| src/l2/ideas/ideaSelection.ts:44-55 | the cap counts every EXPERIMENTING idea of the tenant, including the idea being evaluated | cap 1, one idea that passes every filter and meets the minimum score, starting in SCORING: evaluation 1 gives EXPERIMENTING, evaluation 2 gives SCORING (it counts itself), evaluation 3 gives EXPERIMENTING | the idea's own row is not counted against the cap, so re-evaluating with unchanged inputs changes nothing | not executed | IdeaSelection.CapRecountOscillates | IdeaSelection.ExcludingSelfIdempotent |

`IdeaSelection.EvaluateIdea` and the refresh flow use the corrected count. With the default configuration there is no cap, so both counts give the same result. The cap's as-written count is kept in `IdeaSelection.Evaluate` over the full count, which `IdeaSelection.CapRecountOscillates` uses.
