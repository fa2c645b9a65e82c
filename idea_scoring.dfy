/** Hard filters, sub-scores and the drafted transformation statement of an
    idea (src/l1/ideas/ideaScoring.ts): pure functions of the idea record and
    the filter configuration. */
module IdeaScoring {
  import opened Wrappers
  import opened Text
  import opened Config
  import opened Records

  /** The text both the filters and the scores read: lowercased title, a
      space, and the description. */
  function IdeaText(idea: Idea): string {
    Lower(idea.title + " " + idea.description)
  }

  const PainFrequencyKeywords: seq<string> := ["recurring", "weekly", "daily", "pain", "always"]
  const DataSurfaceKeywords: seq<string> := ["email", "inbox", "crm", "ticket", "doc"]
  const RepeatabilityKeywords: seq<string> := ["workflow", "process", "monitor", "review"]

  /** `computeScore`: 3 for three or more keyword hits, 2 for one or two, 1 for none. */
  function ComputeScore(text: string, keywords: seq<string>): (r: int)
    ensures 1 <= r <= 3
    ensures r == 1 <==> !AnyHit(text, keywords)
    ensures r == 3 <==> CountHits(text, keywords) >= 3
  {
    CountHitsZero(text, keywords);
    var hits := CountHits(text, keywords);
    if hits >= 3 then 3 else if hits >= 1 then 2 else 1
  }

  /** The agent-leverage score: the number of configured agent-fit keywords
      found, capped at 3; it is 0 when none is found. */
  function AgentLeverage(text: string, keywords: seq<string>): (r: int)
    ensures 0 <= r <= 3 && r <= |keywords|
    ensures r == 0 <==> !AnyHit(text, keywords)
    ensures r <= CountHits(text, keywords) && (r < 3 ==> r == CountHits(text, keywords))
  {
    CountHitsZero(text, keywords);
    var hits := CountHits(text, keywords);
    if hits < 3 then hits else 3
  }

  /** `runHardFilters`. */
  function RunHardFilters(idea: Idea, filters: IdeaFilters): (h: HardFilterResult)
    ensures h.passesMarket <==> idea.arpuEstimate.GetOr(0.0) >= filters.arpuFloor
    ensures h.passesRegulation <==>
      !idea.regulatedConcern
      && forall j :: 0 <= j < |filters.excludedDomains| ==> !Contains(IdeaText(idea), filters.excludedDomains[j])
    ensures h.passesAgentFit <==> !idea.manualWorkHeavy
    ensures h.passesFounderFit <==> idea.founderFitSignal
  {
    var arpu := idea.arpuEstimate.GetOr(0.0);
    var excludedHit := AnyHit(IdeaText(idea), filters.excludedDomains);
    HardFilterResult(arpu >= filters.arpuFloor, !idea.regulatedConcern && !excludedHit,
                     !idea.manualWorkHeavy, idea.founderFitSignal)
  }

  predicate PassesAll(h: HardFilterResult) {
    h.passesMarket && h.passesRegulation && h.passesAgentFit && h.passesFounderFit
  }

  /** `scoreIdea`: each of pain, data surface and repeatability lies in 1..3,
      agent leverage in 0..3, and the total is their sum, so it lies in 3..12. */
  function ScoreIdea(idea: Idea, filters: IdeaFilters): (s: IdeaScores)
    ensures 1 <= s.painFrequencyScore <= 3 && 0 <= s.agentLeverageScore <= 3
    ensures 1 <= s.dataSurfaceScore <= 3 && 1 <= s.repeatabilityScore <= 3
    ensures s.totalScore == s.painFrequencyScore + s.agentLeverageScore + s.dataSurfaceScore + s.repeatabilityScore
    ensures 3 <= s.totalScore <= 12
    ensures s.agentLeverageScore == AgentLeverage(IdeaText(idea), filters.agentFitKeywords)
  {
    var text := IdeaText(idea);
    var pain := ComputeScore(text, PainFrequencyKeywords);
    var leverage := AgentLeverage(text, filters.agentFitKeywords);
    var data := ComputeScore(text, DataSurfaceKeywords);
    var repeat := ComputeScore(text, RepeatabilityKeywords);
    IdeaScores(pain, leverage, data, repeat, pain + leverage + data + repeat)
  }

  /** The inputs that filters and scores read: neither the stored results
      nor the state nor the transformation of the idea. */
  predicate SameScoringInputs(a: Idea, b: Idea) {
    a.title == b.title && a.description == b.description && a.arpuEstimate == b.arpuEstimate
    && a.regulatedConcern == b.regulatedConcern && a.manualWorkHeavy == b.manualWorkHeavy
    && a.founderFitSignal == b.founderFitSignal
  }

  /** Filters and scores are a function of the scoring inputs and the
      configuration alone, so re-running them gives the same answer. */
  lemma ScoringDependsOnlyOnInputs(a: Idea, b: Idea, filters: IdeaFilters)
    requires SameScoringInputs(a, b)
    ensures RunHardFilters(a, filters) == RunHardFilters(b, filters)
    ensures ScoreIdea(a, filters) == ScoreIdea(b, filters)
  {
    assert IdeaText(a) == IdeaText(b);
  }

  /** The total is the lowest possible, 3, exactly when the idea's text
      names no keyword of any of the four lists. */
  lemma TotalThreeIffNoKeyword(idea: Idea, filters: IdeaFilters)
    ensures var text := IdeaText(idea);
      ScoreIdea(idea, filters).totalScore == 3
      <==> !AnyHit(text, PainFrequencyKeywords) && !AnyHit(text, filters.agentFitKeywords)
           && !AnyHit(text, DataSurfaceKeywords) && !AnyHit(text, RepeatabilityKeywords)
  {
    var text := IdeaText(idea);
    var s := ScoreIdea(idea, filters);
    assert s.painFrequencyScore == ComputeScore(text, PainFrequencyKeywords);
    assert s.dataSurfaceScore == ComputeScore(text, DataSurfaceKeywords);
    assert s.repeatabilityScore == ComputeScore(text, RepeatabilityKeywords);
  }

  /** The bound 3 is reached: one idea whose text names no keyword. */
  lemma LowestTotalIsThree(idea: Idea, filters: IdeaFilters)
    requires idea.title == "x" && idea.description == ""
    requires forall j :: 0 <= j < |filters.agentFitKeywords| ==> |filters.agentFitKeywords[j]| > 2
    ensures ScoreIdea(idea, filters).totalScore == 3
  {
    var text := IdeaText(idea);
    assert |text| == 2;
    NoHitWhenKeywordsLonger(text, filters.agentFitKeywords);
    NoHitWhenKeywordsLonger(text, PainFrequencyKeywords);
    NoHitWhenKeywordsLonger(text, DataSurfaceKeywords);
    NoHitWhenKeywordsLonger(text, RepeatabilityKeywords);
    TotalThreeIffNoKeyword(idea, filters);
  }

  lemma NoHitWhenKeywordsLonger(text: string, keywords: seq<string>)
    requires forall j :: 0 <= j < |keywords| ==> |keywords[j]| > |text|
    ensures !AnyHit(text, keywords)
  {
  }

  /** A stricter configuration (higher ARPU floor, more excluded domains)
      lets no more ideas through the hard filters. */
  lemma StricterFiltersPassFewer(idea: Idea, loose: IdeaFilters, strict: IdeaFilters)
    requires strict.arpuFloor >= loose.arpuFloor
    requires forall j :: 0 <= j < |loose.excludedDomains| ==> loose.excludedDomains[j] in strict.excludedDomains
    ensures PassesAll(RunHardFilters(idea, strict)) ==> PassesAll(RunHardFilters(idea, loose))
  {
    if PassesAll(RunHardFilters(idea, strict)) {
      forall j | 0 <= j < |loose.excludedDomains|
        ensures !Contains(IdeaText(idea), loose.excludedDomains[j])
      {
        var d := loose.excludedDomains[j];
        var m :| 0 <= m < |strict.excludedDomains| && strict.excludedDomains[m] == d;
      }
    }
  }

  /** The three parts the transformation statement is assembled from. */
  datatype TransformationParts = TransformationParts(inputs: string, capabilities: string, outcomes: string)

  const SpecializedAgents := "specialized agents"
  const GenericAgents := "agents that parse emails, docs, and events"

  /** The parts of `draftTransformationStatement`.  The outcome is the first
      part of the description split on '.', which always exists, so the
      title fallback of the source never applies. */
  function DraftParts(idea: Idea): (p: TransformationParts)
    ensures (idea.icpDescription.Some? && idea.icpDescription.value != "") ==>
              p.inputs == idea.icpDescription.value + " operations"
    ensures !(idea.icpDescription.Some? && idea.icpDescription.value != "") ==> p.inputs == "customer workflows"
    ensures p.capabilities == SpecializedAgents <==> Contains(Lower(idea.title), "agent")
    ensures p.capabilities == SpecializedAgents || p.capabilities == GenericAgents
    ensures p.outcomes <= idea.description && '.' !in p.outcomes
    ensures '.' !in idea.description ==> p.outcomes == idea.description
    ensures '.' in idea.description ==> idea.description[|p.outcomes|] == '.'
  {
    var inputs := if idea.icpDescription.Some? && idea.icpDescription.value != ""
                  then idea.icpDescription.value + " operations" else "customer workflows";
    var capabilities := if Contains(Lower(idea.title), "agent") then SpecializedAgents else GenericAgents;
    SplitOnFirst(idea.description, '.');
    var outcomes := SplitOn(idea.description, '.')[0];
    TransformationParts(inputs, capabilities, outcomes)
  }

  function RenderTransformation(p: TransformationParts): string {
    "We take " + p.inputs + ", apply " + p.capabilities + ", and deliver " + p.outcomes + " for the target buyer."
  }

  /** `draftTransformationStatement`. */
  function DraftTransformationStatement(idea: Idea): (s: string)
    ensures StartsWith(s, "We take ") && EndsWith(s, " for the target buyer.")
  {
    RenderTransformation(DraftParts(idea))
  }
}
