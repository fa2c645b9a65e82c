/** Tenant configuration: the idea filters (src/l3/ideasIntent.ts), the
    business intent (src/l3/businessIntent.ts) and the archetype framework
    (src/l3/archetypeFramework.ts), with their built-in defaults. */
module Config {
  import opened Wrappers

  /** The idea filters.  `maxExperimentingIdeas` is read by the state
      decision although the schema does not declare it; absent by default. */
  datatype IdeaFilters = IdeaFilters(
    arpuFloor: real,
    excludedDomains: seq<string>,
    founderStrengths: seq<string>,
    agentFitKeywords: seq<string>,
    minScoreForExperiment: real,
    maxExperimentingIdeas: Option<int>)

  /** A configuration together with the version label recorded in events. */
  datatype IdeaFiltersResponse = IdeaFiltersResponse(filters: IdeaFilters, version: string)

  const DefaultIdeaFilters := IdeaFilters(
    50.0,
    ["medical", "securities", "gambling"],
    ["gtm", "ops", "partnerships"],
    ["inbox", "email", "crm", "ticket", "document", "schedule", "summary"],
    9.0,
    None)

  /** What `getIdeaFilters` answers for every tenant. */
  function GetIdeaFilters(tenantId: string): (r: IdeaFiltersResponse)
    ensures r.filters == DefaultIdeaFilters
  {
    IdeaFiltersResponse(DefaultIdeaFilters, "default")
  }

  datatype Tone = Concise | Narrative

  /** The business intent; `maxActions` is an integer in 1..10 by its schema. */
  datatype BusinessIntent = BusinessIntent(
    targetMrr: real,
    acceptableChurnRate: real,
    alertChurnRate: real,
    alertRunwayMonths: Option<real>,
    tone: Tone,
    maxActions: nat)

  predicate ValidIntent(intent: BusinessIntent) {
    1 <= intent.maxActions <= 10
  }

  datatype BusinessIntentResponse = BusinessIntentResponse(intent: BusinessIntent, version: string)

  const DefaultBusinessIntent := BusinessIntent(20000.0, 0.05, 0.08, Some(6.0), Concise, 4)

  function GetBusinessIntent(tenantId: string): (r: BusinessIntentResponse)
    ensures r.intent == DefaultBusinessIntent && ValidIntent(r.intent)
  {
    BusinessIntentResponse(DefaultBusinessIntent, "default")
  }

  /** The five archetype axes, each an integer in 1..3 by the schema. */
  datatype Heuristics = Heuristics(
    monetization: int, dataSurface: int, agentLeverage: int, reachability: int, osFit: int)

  predicate ValidHeuristics(h: Heuristics) {
    1 <= h.monetization <= 3 && 1 <= h.dataSurface <= 3 && 1 <= h.agentLeverage <= 3
    && 1 <= h.reachability <= 3 && 1 <= h.osFit <= 3
  }

  /** `label` is a Dafny keyword, so the source's labels are called `name` here. */
  datatype ArchetypeIcp = ArchetypeIcp(key: string, name: string, icpDescription: string, heuristics: Heuristics)

  datatype ArchetypePattern = ArchetypePattern(
    key: string, name: string, description: string, transformationTemplate: string,
    dataSurfaces: seq<string>, icpOptions: seq<ArchetypeIcp>)

  datatype ArchetypeFramework = ArchetypeFramework(patterns: seq<ArchetypePattern>)

  predicate ValidPattern(p: ArchetypePattern) {
    forall o :: 0 <= o < |p.icpOptions| ==> ValidHeuristics(p.icpOptions[o].heuristics)
  }

  /** Every heuristic of every option of the framework is within the schema's bounds. */
  predicate ValidFramework(f: ArchetypeFramework) {
    forall p :: 0 <= p < |f.patterns| ==> ValidPattern(f.patterns[p])
  }

  const CashflowGuardian := ArchetypePattern(
    "cashflow_guardian", "Cashflow Guardian",
    "Connect to Stripe/bank/inbox to surface weekly spend, renewals, and pricing moves.",
    "We connect to {dataSurfaces}, monitor every transaction for {icp}, and deliver a weekly cashflow decision pack that protects runway and finds savings.",
    ["stripe", "bank", "gmail", "accounting"],
    [ArchetypeIcp("solo_saas", "Solo / 2-person SaaS", "Bootstrapped SaaS founders doing $10k-$50k MRR.", Heuristics(3, 3, 3, 2, 3)),
     ArchetypeIcp("agencies", "Lean Agencies", "Productized service & agency operators <20 headcount.", Heuristics(2, 2, 3, 2, 3)),
     ArchetypeIcp("creators", "High-ticket creators / course builders", "Creators with recurring course/cohort revenue that need FP&A help.", Heuristics(2, 2, 2, 2, 2))])

  const RevOpsSignalWatch := ArchetypePattern(
    "revops_signal_watch", "RevOps Signal Watch",
    "Tap CRM + inbox to keep pipeline healthy, flag risks, and draft follow-ups.",
    "We watch {dataSurfaces} for {icp} and deliver a weekly revenue actions brief that keeps the pipeline clean and moving.",
    ["hubspot", "salesforce", "gmail"],
    [ArchetypeIcp("seed_ae_teams", "Seed/Series A AE teams", "B2B SaaS teams with <10 AEs and no RevOps headcount.", Heuristics(3, 2, 2, 2, 3)),
     ArchetypeIcp("cs_ops", "Customer success / CS Ops", "Post-sales orgs that need ticket / renewal intelligence.", Heuristics(2, 2, 2, 2, 2))])

  const OpsControlPanel := ArchetypePattern(
    "ops_control_panel", "Ops Control Panel",
    "Aggregate Notion/Sheets/Project tools into a weekly decision cockpit for operators.",
    "We connect to {dataSurfaces} and compile a founder/ops control panel that highlights blockers and next bets for {icp}.",
    ["notion", "linear", "slack"],
    [ArchetypeIcp("agency_leads", "Agency leads", "Agencies juggling retainers and delivery teams in Notion/Sheets.", Heuristics(2, 2, 2, 2, 2)),
     ArchetypeIcp("ops_heads", "Ops leaders", "Fractional COOs that manage multiple clients.", Heuristics(3, 1, 2, 1, 2))])

  const DefaultFramework := ArchetypeFramework([CashflowGuardian, RevOpsSignalWatch, OpsControlPanel])

  lemma DefaultFrameworkValid()
    ensures ValidFramework(DefaultFramework)
  {
    PatternsValid();
  }

  lemma PatternsValid()
    ensures ValidPattern(CashflowGuardian) && ValidPattern(RevOpsSignalWatch) && ValidPattern(OpsControlPanel)
  {
    CashflowGuardianValid();
  }

  lemma CashflowGuardianValid()
    ensures ValidPattern(CashflowGuardian)
  {
  }
}
