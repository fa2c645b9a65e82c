/** The experiment designer (src/l1/ideas/experimentDesigner.ts): a SIGNAL
    test always, a WORKFLOW test for ideas with agent-fit wording or
    leverage, an AGENT_OWNERSHIP test for high-leverage, high-scoring ideas. */
module ExperimentDesigner {
  import opened Wrappers
  import opened Text
  import opened Records

  datatype ExperimentDesign = ExperimentDesign(kind: ExperimentType, description: string, suggestedSteps: seq<string>)

  const WorkflowKeywords: seq<string> := ["agent", "automate", "monitor", "parse"]

  function SignalDescription(idea: Idea): string {
    "Create a simple landing page or LinkedIn post describing \"" + idea.title
    + "\" and measure response rate. Target: " + idea.icpDescription.GetOr("target ICP")
    + ". Look for \"that's me\" responses, not just polite interest."
  }

  function SignalDesign(idea: Idea): (d: ExperimentDesign)
    ensures d.kind == SignalTest
    ensures Contains(d.description, idea.title) && Contains(d.description, idea.icpDescription.GetOr("target ICP"))
  {
    var pre := "Create a simple landing page or LinkedIn post describing \"";
    var mid := "\" and measure response rate. Target: ";
    var d := SignalDescription(idea);
    assert OccursAt(d, idea.title, |pre|);
    assert OccursAt(d, idea.icpDescription.GetOr("target ICP"), |pre| + |idea.title| + |mid|);
    ContainsAt(d, idea.title, |pre|);
    ContainsAt(d, idea.icpDescription.GetOr("target ICP"), |pre| + |idea.title| + |mid|);
    ExperimentDesign(SignalTest, d, SignalSteps)
  }

  const SignalSteps: seq<string> := [
    "Draft a 2-3 sentence value proposition",
    "Post on LinkedIn or create a simple landing page",
    "Track responses over 1-2 weeks",
    "Measure: % of responses that show genuine pain vs polite interest"]

  function WorkflowDesignFor(idea: Idea): ExperimentDesign {
    ExperimentDesign(WorkflowTest,
      "Manually or semi-automate the core workflow for 5-10 real users. Confirm the end-to-end transformation \""
      + idea.description + "\" delivers measurable value.",
      WorkflowSteps)
  }

  const WorkflowSteps: seq<string> := [
    "Identify 5-10 target users matching ICP",
    "Manually execute the core workflow for each",
    "Measure time saved, errors reduced, or value created",
    "Collect feedback on what worked vs what didn't",
    "Estimate: Can this scale with agents handling 70%+ of the work?"]

  const AgentOwnershipDesign: ExperimentDesign := ExperimentDesign(AgentOwnershipTest,
    "Gradually move steps from human \U{2192} agent. Start with 1-2 steps, measure quality and error rates. "
    + "Aim for ~70% of recurring work handled by agents with acceptable quality.",
    ["Identify the 3-5 core steps in the workflow",
     "Start with automating 1-2 simplest steps",
     "Measure: accuracy, time saved, error rate",
     "Gradually expand agent ownership",
     "Target: 70%+ of recurring work automated with <5% error rate"])

  /** The WORKFLOW condition: agent-fit wording in the description (never
      the title) or leverage of at least 2, null read as 0. */
  predicate WantsWorkflow(idea: Idea) {
    AnyHit(Lower(idea.description), WorkflowKeywords) || idea.agentLeverageScore.GetOr(0) >= 2
  }

  /** The AGENT_OWNERSHIP condition, nulls read as 0. */
  predicate WantsAgentOwnership(idea: Idea) {
    idea.agentLeverageScore.GetOr(0) >= 2 && idea.totalScore.GetOr(0) >= 9
  }

  function Rank(k: ExperimentType): nat {
    match k
    case SignalTest => 0
    case WorkflowTest => 1
    case AgentOwnershipTest => 2
  }

  /** The design pushed for each experiment type. */
  function DesignOf(kind: ExperimentType, idea: Idea): (d: ExperimentDesign)
    ensures d.kind == kind
  {
    match kind
    case SignalTest => SignalDesign(idea)
    case WorkflowTest => WorkflowDesignFor(idea)
    case AgentOwnershipTest => AgentOwnershipDesign
  }

  /** The types of the designs, in push order. */
  function DesignKinds(idea: Idea): seq<ExperimentType> {
    [SignalTest] + (if WantsWorkflow(idea) then [WorkflowTest] else [])
    + (if WantsAgentOwnership(idea) then [AgentOwnershipTest] else [])
  }

  /** SIGNAL always comes first; WORKFLOW and AGENT_OWNERSHIP are designed
      exactly when their conditions hold. */
  lemma DesignKindsCases(idea: Idea)
    ensures var ks := DesignKinds(idea);
      1 <= |ks| <= 3 && ks[0] == SignalTest
      && (WorkflowTest in ks <==> WantsWorkflow(idea))
      && (AgentOwnershipTest in ks <==> WantsAgentOwnership(idea))
  {
  }

  /** `runExperimentDesignerAgent`: one design per type, SIGNAL first. */
  function Designs(idea: Idea): seq<ExperimentDesign> {
    var ks := DesignKinds(idea);
    seq(|ks|, i requires 0 <= i < |ks| => DesignOf(ks[i], idea))
  }

  /** The designs follow their types: SIGNAL first, one design per type, each
      of its own type. */
  lemma DesignsFollowKinds(idea: Idea)
    ensures var ds := Designs(idea); var ks := DesignKinds(idea);
      |ds| == |ks| && forall i :: 0 <= i < |ds| ==> ds[i].kind == ks[i]
  {
  }

  /** The first design is the SIGNAL test, which names the idea's title and
      its ICP. */
  lemma SignalDesignFirst(idea: Idea)
    ensures |Designs(idea)| > 0 && Designs(idea)[0] == SignalDesign(idea)
  {
    var ks := DesignKinds(idea);
    assert ks[0] == SignalTest;
    assert Designs(idea)[0] == DesignOf(ks[0], idea);
  }

  /** AGENT_OWNERSHIP is only designed together with WORKFLOW. */
  lemma AgentOwnershipImpliesWorkflow(idea: Idea)
    ensures AgentOwnershipTest in DesignKinds(idea) ==> WorkflowTest in DesignKinds(idea)
  {
    DesignKindsCases(idea);
  }

  /** The designs come in the order SIGNAL, WORKFLOW, AGENT_OWNERSHIP, each
      type at most once. */
  lemma {:induction false} DesignsOrdered(idea: Idea)
    ensures var ks := DesignKinds(idea);
      forall i, j :: 0 <= i < j < |ks| ==> Rank(ks[i]) < Rank(ks[j])
  {
    var ks := DesignKinds(idea);
    if WantsAgentOwnership(idea) {
      assert ks == [SignalTest, WorkflowTest, AgentOwnershipTest];
    } else if WantsWorkflow(idea) {
      assert ks == [SignalTest, WorkflowTest];
    } else {
      assert ks == [SignalTest];
    }
  }

  /** The title enters only the SIGNAL text: two ideas with the same
      description and scores get designs of the same types. */
  lemma TitleDoesNotSelect(a: Idea, b: Idea)
    requires a.description == b.description && a.agentLeverageScore == b.agentLeverageScore
    requires a.totalScore == b.totalScore
    ensures DesignKinds(a) == DesignKinds(b)
  {
  }
}
