/** The persisted entities of the idea pipeline and the operations side,
    as plain records.  Row ids are natural numbers handed out by the store. */
module Records {
  import opened Wrappers
  import opened Config

  type Id = nat

  datatype IdeaState = PendingReview | Backlog | Scoring | Experimenting | Validated | Killed

  datatype ExperimentType = SignalTest | WorkflowTest | AgentOwnershipTest

  /** A stored experiment result.  The experiment form stores any non-empty
      text unchecked; a text that names none of the four results is kept as
      `Unrecognized`. */
  datatype ExperimentResult = Pending | Passed | Failed | Inconclusive | Unrecognized(raw: string)

  datatype Confidence = Low | Medium | High

  datatype Idea = Idea(
    id: Id,
    tenantId: string,
    title: string,
    description: string,
    icpDescription: Option<string>,
    arpuEstimate: Option<real>,
    regulatedConcern: bool,
    manualWorkHeavy: bool,
    founderFitSignal: bool,
    passesMarket: Option<bool>,
    passesRegulation: Option<bool>,
    passesAgentFit: Option<bool>,
    passesFounderFit: Option<bool>,
    painFrequencyScore: Option<int>,
    agentLeverageScore: Option<int>,
    dataSurfaceScore: Option<int>,
    repeatabilityScore: Option<int>,
    totalScore: Option<int>,
    state: IdeaState,
    sourceSignalIds: seq<Id>,
    transformation: Option<string>)

  /** The four hard filters of an idea (src/l1/ideas/ideaScoring.ts). */
  datatype HardFilterResult = HardFilterResult(
    passesMarket: bool, passesRegulation: bool, passesAgentFit: bool, passesFounderFit: bool)

  /** The four sub-scores of an idea and their total. */
  datatype IdeaScores = IdeaScores(
    painFrequencyScore: int, agentLeverageScore: int, dataSurfaceScore: int,
    repeatabilityScore: int, totalScore: int)

  datatype Experiment = Experiment(
    id: Id, tenantId: string, ideaId: Id, kind: ExperimentType, description: string,
    result: Option<ExperimentResult>)

  datatype Signal = Signal(id: Id, tenantId: string, source: string, content: string)

  datatype Subscription = Subscription(
    tenantId: string, status: string, mrr: int, startedAt: int, cancelledAt: Option<int>)

  datatype MetricsSnapshot = MetricsSnapshot(
    id: Id, tenantId: string, periodEnd: int, mrr: int, newMrr: int, churnedMrr: int,
    activeCustomers: nat, runwayMonths: Option<real>)

  datatype SummaryState = Draft | PendingApproval | Published

  datatype Alert = ChurnAboveGuardrail | RunwayBelowThreshold

  /** One line of the recommendations part of a summary narrative. */
  datatype RecommendationLine =
    | NoPendingRecommendations
    | PendingRecommendations(count: nat)
    | RecommendationBullet(vendorName: string, kind: string, potentialSavingsCents: Option<int>)

  /** How a demand-test verdict is shown next to an archetype. */
  datatype VerdictLabel = PassLabel | FailLabel | InconclusiveLabel | NotTestedLabel

  /** One line of the archetypes part of a summary narrative. */
  datatype ArchetypeLine =
    | ArchetypesHeader
    | ArchetypeBullet(name: string, totalScore: Option<int>, verdict: VerdictLabel)

  /** The narrative of a founder summary, kept as its parts; the period and
      metric lines are number and date formatting of the snapshot. */
  datatype SummaryNarrative = SummaryNarrative(
    churnRate: real, alerts: seq<Alert>, recommendationLines: seq<RecommendationLine>,
    archetypeLines: seq<ArchetypeLine>)

  /** A recommended action of a founder summary, before it is worded. */
  datatype Action =
    | IncreaseTopOfFunnel
    | ReviewChurnedAccounts
    | FollowUp(eventKind: string)
    | ReviewSpend(vendorName: string)
    | DecideBeforeRenewal(vendorName: string, periodEnd: int)
    | DoubleDown(name: string)
    | RunDemandTest(name: string, totalScore: Option<int>)
    | RefineTargeting(name: string)
    | StayTheCourse

  datatype FounderSummary = FounderSummary(
    id: Id, tenantId: string, snapshotId: Id, periodEnd: int,
    narrative: SummaryNarrative, recommendedActions: seq<Action>, state: SummaryState)

  datatype ProductRecommendation = ProductRecommendation(
    id: Id, tenantId: string, vendorName: string, kind: string, status: string,
    potentialSavingsCents: Option<int>, createdAt: int, periodEnd: int)

  datatype DemandVerdict = Pass | Fail | InconclusiveVerdict

  datatype ArchetypeInstance = ArchetypeInstance(
    id: Id, tenantId: string, name: string, patternKey: string, icpKey: Option<string>,
    dataSurfaces: seq<string>, summary: Option<string>, sourceSignalIds: seq<Id>,
    scores: Option<ArchetypeAxes>, totalScore: Option<int>, scoreUpdatedAt: Option<int>,
    lastDemandTestVerdict: Option<DemandVerdict>, lastDemandTestAt: Option<int>, updatedAt: int)

  /** The five archetype axis scores. */
  datatype ArchetypeAxes = ArchetypeAxes(
    monetization: int, dataSurface: int, agentLeverage: int, reachability: int, osFit: int)

  datatype ArchetypeScore = ArchetypeScore(
    id: Id, tenantId: string, instanceId: Id, axes: ArchetypeAxes, totalScore: int)

  datatype DemandTest = DemandTest(
    id: Id, tenantId: string, instanceId: Id, status: string, outreachCount: int,
    positiveResponses: int, meetingsBooked: int, willingnessSignals: int,
    verdict: DemandVerdict, notes: string, createdAt: int)

  /** One entry of the experiment loop's answer: an experiment designed for
      an idea, or an idea's state changed. */
  datatype LoopAction = DesignedExperiment(ideaId: Id, experimentId: Id) | StateUpdated(ideaId: Id, newState: IdeaState)

  /** What an audit event records beyond its type. */
  datatype Payload =
    | NoPayload
    | FlowPayload(flow: string, version: string)
    | RefreshCompletedPayload(flow: string, version: string, results: seq<(Id, IdeaState)>)
    | LoopCompletedPayload(flow: string, version: string, actions: seq<LoopAction>)
    | ScoredPayload(hardFilters: HardFilterResult, scores: IdeaScores, state: IdeaState, version: string)
    | StateChangedPayload(state: IdeaState)
    | ExperimentResultsPayload(state: IdeaState, experimentCount: nat)
    | ExperimentLoggedPayload(experimentId: Id, kind: ExperimentType, result: ExperimentResult)
    | ExperimentDesignedPayload(experimentId: Id, kind: ExperimentType)
    | SummaryPayload(summaryId: Id)
    | SnapshotPayload(snapshotId: Id)
    | VersionPayload(version: string)
    | SignalIngestedPayload(sourceId: string, sourceLabel: string)
    | DemandTestStartedPayload(instanceId: Id)
    | DemandTestCompletedPayload(instanceId: Id, verdict: DemandVerdict, outreachCount: int,
                                 positiveResponses: int, meetingsBooked: int)

  /** The stored settings rows written by the settings form; nothing in the
      pipeline reads them back (the configuration getters answer the built-in
      defaults). */
  datatype BusinessIntentRow = BusinessIntentRow(
    targetMrr: real, acceptableChurnRate: real, alertChurnRate: real,
    alertRunwayMonths: Option<real>, summaryTone: string, summaryMaxActions: real)

  datatype IdeaIntentRow = IdeaIntentRow(
    arpuFloor: real, excludedDomains: seq<string>, founderStrengths: seq<string>,
    agentFitKeywords: seq<string>, minScoreForExperiment: real)

  /** A row of the append-only audit log. */
  datatype Event = Event(
    tenantId: string, kind: string, entityId: Option<Id>, createdAt: int, payload: Payload)
}
