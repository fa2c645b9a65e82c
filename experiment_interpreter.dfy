/** The experiment interpreter (src/l1/ideas/experimentInterpreter.ts): a
    stored result is explained, a pending experiment is judged from keywords
    in its lowercased description, with type-specific tables. */
module ExperimentInterpreter {
  import opened Wrappers
  import opened Text
  import opened Records

  /** A verdict (one of PASSED, FAILED, INCONCLUSIVE) with its confidence. */
  datatype Interpretation = Interpretation(
    verdict: ExperimentResult, confidence: Confidence, reasoning: string, nextSteps: seq<string>)

  predicate IsVerdict(r: ExperimentResult) {
    r == Passed || r == Failed || r == Inconclusive
  }

  /** `experiment.result && experiment.result !== 'PENDING'`: a set, non-empty,
      non-PENDING result. */
  predicate HasResult(e: Experiment) {
    e.result.Some? && e.result.value != Pending && e.result.value != Unrecognized("")
  }

  const StrongSignals: seq<string> := ["strong", "exceeded", "multiple", "high response"]
  const ClearFailure: seq<string> := ["no response", "low interest", "not a fit", "rejected"]
  const SignalPositive: seq<string> := ["response", "interest", "signup", "inquiry"]
  const SignalNegative: seq<string> := ["no response", "low", "rejected", "not interested"]
  const WorkflowValue: seq<string> := ["saved", "reduced", "improved", "valuable", "works"]
  const WorkflowIssues: seq<string> := ["difficult", "too complex", "not worth", "manual"]
  const AutomationSuccess: seq<string> := ["automated", "70%", "error rate", "quality", "accurate"]
  const AutomationIssues: seq<string> := ["too many errors", "low quality", "not reliable", "manual"]

  /** `interpretExistingResult`: PASSED and FAILED are kept with a confidence
      from the wording; every other stored value reads as INCONCLUSIVE. */
  function InterpretExistingResult(e: Experiment, ideaTitle: string): (v: Interpretation)
    ensures IsVerdict(v.verdict) && v.confidence != Low
    ensures v.verdict == Passed <==> e.result == Some(Passed)
    ensures v.verdict == Failed <==> e.result == Some(Failed)
    ensures e.result == Some(Passed) ==> (v.confidence == High <==> AnyHit(Lower(e.description), StrongSignals))
    ensures e.result == Some(Failed) ==> (v.confidence == High <==> AnyHit(Lower(e.description), ClearFailure))
    ensures v.verdict == Inconclusive ==> v.confidence == Medium
  {
    var description := Lower(e.description);
    if e.result == Some(Passed) then
      if AnyHit(description, StrongSignals) then PassedStrong else PassedWeak
    else if e.result == Some(Failed) then
      if AnyHit(description, ClearFailure) then FailedClear else FailedUnclear
    else StoredUnclear
  }

  const PassedStrong: Interpretation := Interpretation(Passed, High,
    "Experiment passed. Strong positive signals observed.",
    ["Move to next experiment type", "Consider moving idea to VALIDATED state"])
  const PassedWeak: Interpretation := Interpretation(Passed, Medium,
    "Experiment passed. Positive results, but consider running additional tests.",
    ["Run additional validation", "Gather more data points"])
  const FailedSteps: seq<string> :=
    ["Consider pivoting the idea", "Or move idea to KILLED state", "Document learnings for future ideas"]
  const FailedClear: Interpretation := Interpretation(Failed, High,
    "Experiment failed. Clear negative signals.", FailedSteps)
  const FailedUnclear: Interpretation := Interpretation(Failed, Medium,
    "Experiment failed. Results suggest idea may not be viable.", FailedSteps)
  const StoredUnclear: Interpretation := Interpretation(Inconclusive, Medium,
    "Results are unclear. Need more data or a different test approach.",
    ["Run experiment again with clearer success criteria", "Try a different experiment type",
     "Gather more qualitative feedback"])

  const Undetermined: Interpretation := Interpretation(Inconclusive, Low,
    "Unable to determine verdict from description. Need more specific results.",
    ["Update experiment with specific metrics", "Run additional tests"])

  /** Whether the keyword table of the experiment's type decides a verdict. */
  predicate TableDecides(kind: ExperimentType, description: string) {
    match kind
    case SignalTest => AnyHit(description, SignalPositive) || AnyHit(description, SignalNegative)
    case WorkflowTest => AnyHit(description, WorkflowValue) || AnyHit(description, WorkflowIssues)
    case AgentOwnershipTest => AnyHit(description, AutomationSuccess) || AnyHit(description, AutomationIssues)
  }

  /** The SIGNAL table: positives without negatives pass at MEDIUM, any
      negative fails at MEDIUM. */
  function AnalyzeSignal(description: string): (v: Interpretation)
    ensures IsVerdict(v.verdict)
    ensures v.confidence == Low <==> !TableDecides(SignalTest, description)
    ensures v.confidence == Low ==> v == Undetermined
    ensures AnyHit(description, SignalNegative) ==> v.verdict == Failed && v.confidence == Medium
    ensures AnyHit(description, SignalPositive) && !AnyHit(description, SignalNegative) ==>
      v.verdict == Passed && v.confidence == Medium
  {
    var positive := AnyHit(description, SignalPositive);
    var negative := AnyHit(description, SignalNegative);
    if positive && !negative then SignalPassed
    else if negative then SignalFailed
    else Undetermined
  }

  const SignalPassed: Interpretation := Interpretation(Passed, Medium,
    "Positive signals detected. Consider running workflow test next.",
    ["Proceed to WORKFLOW test", "Document specific pain points mentioned"])
  const SignalFailed: Interpretation := Interpretation(Failed, Medium,
    "Negative signals detected. Idea may not resonate with target ICP.",
    ["Consider pivoting", "Or test with different ICP segment"])

  /** The WORKFLOW table: value without issues passes at HIGH, any issue
      fails at MEDIUM. */
  function AnalyzeWorkflow(description: string): (v: Interpretation)
    ensures IsVerdict(v.verdict)
    ensures v.confidence == Low <==> !TableDecides(WorkflowTest, description)
    ensures v.confidence == Low ==> v == Undetermined
    ensures AnyHit(description, WorkflowIssues) ==> v.verdict == Failed && v.confidence == Medium
    ensures AnyHit(description, WorkflowValue) && !AnyHit(description, WorkflowIssues) ==>
      v.verdict == Passed && v.confidence == High
  {
    var value := AnyHit(description, WorkflowValue);
    var issues := AnyHit(description, WorkflowIssues);
    if value && !issues then WorkflowPassed
    else if issues then WorkflowFailed
    else Undetermined
  }

  const WorkflowPassed: Interpretation := Interpretation(Passed, High,
    "Workflow delivers measurable value. Ready for agent automation test.",
    ["Proceed to AGENT_OWNERSHIP test", "Document workflow steps"])
  const WorkflowFailed: Interpretation := Interpretation(Failed, Medium,
    "Workflow has issues that prevent value delivery.",
    ["Simplify workflow", "Or pivot idea"])

  /** The AGENT_OWNERSHIP table: success without issues passes at HIGH, any
      issue is INCONCLUSIVE at MEDIUM. */
  function AnalyzeAgentOwnership(description: string): (v: Interpretation)
    ensures IsVerdict(v.verdict)
    ensures v.confidence == Low <==> !TableDecides(AgentOwnershipTest, description)
    ensures v.confidence == Low ==> v == Undetermined
    ensures AnyHit(description, AutomationIssues) ==> v.verdict == Inconclusive && v.confidence == Medium
    ensures AnyHit(description, AutomationSuccess) && !AnyHit(description, AutomationIssues) ==>
      v.verdict == Passed && v.confidence == High
  {
    var success := AnyHit(description, AutomationSuccess);
    var issues := AnyHit(description, AutomationIssues);
    if success && !issues then AutomationPassed
    else if issues then AutomationRefine
    else Undetermined
  }

  const AutomationPassed: Interpretation := Interpretation(Passed, High,
    "Agent automation successful. Idea is validated and ready to build.",
    ["Move idea to VALIDATED state", "Begin product development"])
  const AutomationRefine: Interpretation := Interpretation(Inconclusive, Medium,
    "Automation has quality issues. May need refinement or different approach.",
    ["Refine automation approach", "Consider hybrid human-agent workflow"])

  /** `analyzeExperimentDescription`: the table of the experiment's type over
      the lowercased description; INCONCLUSIVE with LOW confidence when it
      decides nothing. */
  function AnalyzeExperimentDescription(e: Experiment, ideaTitle: string): (v: Interpretation)
    ensures IsVerdict(v.verdict)
    ensures v.confidence == Low <==> !TableDecides(e.kind, Lower(e.description))
    ensures v.confidence == Low ==> v == Undetermined
  {
    var description := Lower(e.description);
    match e.kind
    case SignalTest => AnalyzeSignal(description)
    case WorkflowTest => AnalyzeWorkflow(description)
    case AgentOwnershipTest => AnalyzeAgentOwnership(description)
  }

  /** `runExperimentInterpreterAgent`. */
  function RunExperimentInterpreter(e: Experiment, ideaTitle: string): (v: Interpretation)
    ensures IsVerdict(v.verdict)
    ensures HasResult(e) ==> v == InterpretExistingResult(e, ideaTitle)
    ensures !HasResult(e) ==> v == AnalyzeExperimentDescription(e, ideaTitle)
  {
    if HasResult(e) then InterpretExistingResult(e, ideaTitle) else AnalyzeExperimentDescription(e, ideaTitle)
  }

  /** A stored PASSED, FAILED or INCONCLUSIVE result is the verdict; any
      other stored value reads as INCONCLUSIVE at MEDIUM confidence. */
  lemma StoredResultIsVerdict(e: Experiment, ideaTitle: string)
    requires HasResult(e)
    ensures IsVerdict(e.result.value) ==> RunExperimentInterpreter(e, ideaTitle).verdict == e.result.value
    ensures !IsVerdict(e.result.value) ==>
      RunExperimentInterpreter(e, ideaTitle).verdict == Inconclusive
      && RunExperimentInterpreter(e, ideaTitle).confidence == Medium
  {
  }

  /** For a completed experiment the interpretation never both differs from
      the stored result and carries HIGH confidence. */
  lemma NoHighConfidenceDisagreement(e: Experiment, ideaTitle: string)
    requires HasResult(e)
    ensures var v := RunExperimentInterpreter(e, ideaTitle);
      !(Some(v.verdict) != e.result && v.confidence == High)
  {
  }

  /** LOW confidence arises only from the default case: a pending experiment
      whose table decides nothing. */
  lemma LowOnlyWhenUndetermined(e: Experiment, ideaTitle: string)
    ensures RunExperimentInterpreter(e, ideaTitle).confidence == Low <==>
      !HasResult(e) && !TableDecides(e.kind, Lower(e.description))
    ensures RunExperimentInterpreter(e, ideaTitle).confidence == Low ==>
      RunExperimentInterpreter(e, ideaTitle).verdict == Inconclusive
  {
  }

  /** For a pending SIGNAL test a negative keyword wins over positive ones:
      "no response" makes it FAILED although "response" alone would pass it. */
  lemma {:induction false} NoResponseFailsSignal(e: Experiment, ideaTitle: string)
    requires e.kind == SignalTest && e.result == Some(Pending)
    requires Contains(Lower(e.description), "no response")
    ensures RunExperimentInterpreter(e, ideaTitle).verdict == Failed
    ensures AnyHit(Lower(e.description), SignalPositive)
  {
    var d := Lower(e.description);
    assert SignalNegative[0] == "no response";
    var i :| 0 <= i <= |d| && OccursAt(d, "no response", i);
    assert OccursAt(d, "response", i + 3);
    ContainsAt(d, "response", i + 3);
    assert SignalPositive[0] == "response";
  }
}
