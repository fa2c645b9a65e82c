/** The experiment loop (src/l2/ideas/experimentLoop.ts): for every
    EXPERIMENTING idea of the tenant, design experiments when it has none, and
    move it to KILLED or VALIDATED from the interpretations of its completed
    experiments. */
module ExperimentLoop {
  import opened Wrappers
  import opened Config
  import opened Records
  import opened Store
  import opened ExperimentDesigner
  import opened ExperimentInterpreter

  /** The idea's experiments as loaded with it, in store order. */
  function ExperimentsOf(exps: seq<Experiment>, ideaId: Id): seq<Experiment> {
    if exps == [] then []
    else (if exps[0].ideaId == ideaId then [exps[0]] else []) + ExperimentsOf(exps[1..], ideaId)
  }

  /** They are exactly the loaded experiments that name the idea. */
  lemma {:induction false} ExperimentsOfMembers(exps: seq<Experiment>, ideaId: Id)
    ensures forall e :: e in ExperimentsOf(exps, ideaId) <==> e in exps && e.ideaId == ideaId
  {
    if exps != [] {
      ExperimentsOfMembers(exps[1..], ideaId);
      assert exps == [exps[0]] + exps[1..];
    }
  }

  /** The completed experiments: result set, non-empty and not PENDING. */
  function Completed(exps: seq<Experiment>): seq<Experiment> {
    if exps == [] then []
    else (if HasResult(exps[0]) then [exps[0]] else []) + Completed(exps[1..])
  }

  /** They are exactly the experiments with a result. */
  lemma {:induction false} CompletedMembers(exps: seq<Experiment>)
    ensures forall e :: e in Completed(exps) <==> e in exps && HasResult(e)
  {
    if exps != [] {
      CompletedMembers(exps[1..]);
      assert exps == [exps[0]] + exps[1..];
    }
  }

  /** The two agents the loop calls.  Its specification takes them as
      parameters, and the flow runs with `Rules`. */
  datatype Agents = Agents(design: Idea -> seq<ExperimentDesign>, interpret: (Experiment, string) -> Interpretation)

  const Rules: Agents := Agents(Designs, RunExperimentInterpreter)

  function Interpretations(completed: seq<Experiment>, ideaTitle: string, agents: Agents): seq<Interpretation> {
    seq(|completed|, i requires 0 <= i < |completed| => agents.interpret(completed[i], ideaTitle))
  }

  function ConfidenceRank(c: Confidence): nat {
    match c
    case Low => 0
    case Medium => 1
    case High => 2
  }

  /** The tracking step: HIGH always wins, MEDIUM replaces only LOW. */
  function Raise(acc: Confidence, c: Confidence): (r: Confidence)
    ensures ConfidenceRank(r) >= ConfidenceRank(acc) && ConfidenceRank(r) >= ConfidenceRank(c)
    ensures r == acc || r == c
  {
    if c == High || (c == Medium && acc == Low) then c else acc
  }

  /** `highestConfidence` after the interpretations `vs`, starting from LOW:
      the largest confidence among them, never lowered. */
  function HighestConfidence(vs: seq<Interpretation>): Confidence {
    if vs == [] then Low
    else Raise(HighestConfidence(vs[..|vs| - 1]), vs[|vs| - 1].confidence)
  }

  lemma {:induction false} HighestConfidenceIsMax(vs: seq<Interpretation>)
    ensures forall i :: 0 <= i < |vs| ==> ConfidenceRank(vs[i].confidence) <= ConfidenceRank(HighestConfidence(vs))
    ensures HighestConfidence(vs) == Low || exists i :: 0 <= i < |vs| && vs[i].confidence == HighestConfidence(vs)
  {
    if vs != [] {
      var init := vs[..|vs| - 1];
      HighestConfidenceIsMax(init);
      assert forall i :: 0 <= i < |init| ==> init[i] == vs[i];
    }
  }

  predicate AnyFailed(vs: seq<Interpretation>) {
    exists i :: 0 <= i < |vs| && vs[i].verdict == Failed
  }

  predicate AllPassed(vs: seq<Interpretation>) {
    forall i :: 0 <= i < |vs| ==> vs[i].verdict == Passed
  }

  predicate HasAgentOwnership(completed: seq<Experiment>) {
    exists i :: 0 <= i < |completed| && completed[i].kind == AgentOwnershipTest
  }

  /** The new state of an idea from its completed experiments. */
  function NextState(current: IdeaState, completed: seq<Experiment>, ideaTitle: string, agents: Agents): (st: IdeaState)
    ensures completed == [] ==> st == current
    ensures st == current || st == Killed || st == Validated
  {
    var vs := Interpretations(completed, ideaTitle, agents);
    if completed == [] then current
    else if AnyFailed(vs) && HighestConfidence(vs) == High then Killed
    else if AllPassed(vs) && |completed| >= 2 && HasAgentOwnership(completed) then Validated
    else current
  }

  /** KILLED needs a FAILED verdict and some HIGH confidence, possibly from
      another experiment; otherwise VALIDATED needs every verdict PASSED, two
      or more completed experiments and an AGENT_OWNERSHIP one. */
  lemma NextStateCases(current: IdeaState, completed: seq<Experiment>, ideaTitle: string, agents: Agents)
    requires current != Killed && current != Validated && completed != []
    ensures var vs := Interpretations(completed, ideaTitle, agents);
      var anyHigh := exists i :: 0 <= i < |vs| && vs[i].confidence == High;
      (NextState(current, completed, ideaTitle, agents) == Killed <==> AnyFailed(vs) && anyHigh)
      && (NextState(current, completed, ideaTitle, agents) == Validated <==>
            !(AnyFailed(vs) && anyHigh) && AllPassed(vs) && |completed| >= 2 && HasAgentOwnership(completed))
  {
    var vs := Interpretations(completed, ideaTitle, agents);
    var h := HighestConfidence(vs);
    HighestConfidenceIsMax(vs);
    if exists i :: 0 <= i < |vs| && vs[i].confidence == High {
      var i :| 0 <= i < |vs| && vs[i].confidence == High;
      assert ConfidenceRank(vs[i].confidence) <= ConfidenceRank(h);
    }
  }

  /** Three PASSED results, one of them on an AGENT_OWNERSHIP test, validate
      the idea. */
  lemma ThreePassedWithAgentOwnershipValidate(current: IdeaState, completed: seq<Experiment>, ideaTitle: string)
    requires |completed| == 3
    requires forall i :: 0 <= i < 3 ==> completed[i].result == Some(Passed)
    requires completed[2].kind == AgentOwnershipTest
    ensures NextState(current, completed, ideaTitle, Rules) == Validated
  {
    var vs := Interpretations(completed, ideaTitle, Rules);
    forall i | 0 <= i < 3 ensures vs[i].verdict == Passed {
      StoredResultIsVerdict(completed[i], ideaTitle);
    }
  }

  /** The overwrite of a stored result, applied when the interpretation
      disagrees with it at HIGH confidence. */
  function ApplyInterpretation(exps: seq<Experiment>, e: Experiment, v: Interpretation): seq<Experiment> {
    if Some(v.verdict) != e.result && v.confidence == High then
      seq(|exps|, i requires 0 <= i < |exps| =>
        if exps[i].id == e.id then exps[i].(result := Some(v.verdict)) else exps[i])
    else exps
  }

  /** The overwrite never fires: for a completed experiment the interpreter
      answers the stored result or stays below HIGH confidence. */
  lemma OverwriteNeverFires(exps: seq<Experiment>, e: Experiment, ideaTitle: string)
    requires HasResult(e)
    ensures ApplyInterpretation(exps, e, RunExperimentInterpreter(e, ideaTitle)) == exps
  {
    NoHighConfidenceDisagreement(e, ideaTitle);
  }

  /** The experiment rows created for a list of designs, with ids from
      `base` on, every one PENDING. */
  function Materialize(ds: seq<ExperimentDesign>, ideaId: Id, tenantId: string, base: nat): seq<Experiment> {
    seq(|ds|, i requires 0 <= i < |ds| =>
      Experiment(base + i, tenantId, ideaId, ds[i].kind, ds[i].description, Some(Pending)))
  }

  /** The experiments designed for an idea: none when it already has some. */
  function NewExperiments(idea: Idea, snapshot: seq<Experiment>, tenantId: string, base: nat, agents: Agents)
    : seq<Experiment>
  {
    if ExperimentsOf(snapshot, idea.id) != [] then [] else Materialize(agents.design(idea), idea.id, tenantId, base)
  }

  function DesignedEvent(e: Experiment, now: int): Event {
    Event(e.tenantId, "IDEA_EXPERIMENT_DESIGNED", Some(e.ideaId), now, ExperimentDesignedPayload(e.id, e.kind))
  }

  function DesignedEvents(es: seq<Experiment>, now: int): seq<Event> {
    seq(|es|, i requires 0 <= i < |es| => DesignedEvent(es[i], now))
  }

  function DesignedActions(es: seq<Experiment>): seq<LoopAction> {
    seq(|es|, i requires 0 <= i < |es| => DesignedExperiment(es[i].ideaId, es[i].id))
  }

  /** What the loop does for one idea. */
  datatype StepOut = StepOut(experiments: seq<Experiment>, events: seq<Event>, state: IdeaState, actions: seq<LoopAction>)

  /** The state the loop gives an idea. */
  function StepState(idea: Idea, snapshot: seq<Experiment>, agents: Agents): IdeaState {
    NextState(idea.state, Completed(ExperimentsOf(snapshot, idea.id)), idea.title, agents)
  }

  /** The IDEA_STATE_CHANGED event, written only when the state changes. */
  function StateEvents(idea: Idea, snapshot: seq<Experiment>, tenantId: string, now: int, agents: Agents): seq<Event> {
    var st := StepState(idea, snapshot, agents);
    if st != idea.state then
      [Event(tenantId, "IDEA_STATE_CHANGED", Some(idea.id), now,
             ExperimentResultsPayload(st, |Completed(ExperimentsOf(snapshot, idea.id))|))]
    else []
  }

  function StateActions(idea: Idea, snapshot: seq<Experiment>, agents: Agents): seq<LoopAction> {
    var st := StepState(idea, snapshot, agents);
    if st != idea.state then [StateUpdated(idea.id, st)] else []
  }

  function Step(idea: Idea, snapshot: seq<Experiment>, tenantId: string, now: int, base: nat,
                agents: Agents): (r: StepOut)
  {
    var created := NewExperiments(idea, snapshot, tenantId, base, agents);
    StepOut(created, DesignedEvents(created, now) + StateEvents(idea, snapshot, tenantId, now, agents),
            StepState(idea, snapshot, agents), DesignedActions(created) + StateActions(idea, snapshot, agents))
  }

  /** Newly designed experiments are PENDING, so they are not interpreted in
      the same pass: an idea without completed experiments keeps its state
      and logs no state change. */
  lemma NoCompletedKeepsState(idea: Idea, snapshot: seq<Experiment>, tenantId: string, now: int, base: nat,
                               agents: Agents)
    requires Completed(ExperimentsOf(snapshot, idea.id)) == []
    ensures Step(idea, snapshot, tenantId, now, base, agents).state == idea.state
    ensures forall e :: e in Step(idea, snapshot, tenantId, now, base, agents).events ==> e.kind == "IDEA_EXPERIMENT_DESIGNED"
  {
  }

  predicate Selected(idea: Idea, tenantId: string) {
    idea.tenantId == tenantId && idea.state == Experimenting
  }

  /** The ideas after the pass: each of the tenant's EXPERIMENTING rows
      takes its step's state; no other row and no other field changes, and a
      changed state is KILLED or VALIDATED. */
  function LoopStates(ideas: seq<Idea>, snapshot: seq<Experiment>, tenantId: string, agents: Agents): seq<Idea> {
    seq(|ideas|, i requires 0 <= i < |ideas| =>
      if Selected(ideas[i], tenantId) then ideas[i].(state := StepState(ideas[i], snapshot, agents)) else ideas[i])
  }

  /** Only the tenant's EXPERIMENTING rows change, only in their state, and
      only to KILLED or VALIDATED. */
  lemma LoopTouchesOnlySelected(ideas: seq<Idea>, snapshot: seq<Experiment>, tenantId: string, agents: Agents)
    ensures var r := LoopStates(ideas, snapshot, tenantId, agents);
      |r| == |ideas| && forall i :: 0 <= i < |ideas| ==>
        r[i] == ideas[i] || (Selected(ideas[i], tenantId) && r[i] == ideas[i].(state := r[i].state)
                             && (r[i].state == Killed || r[i].state == Validated))
  {
  }

  /** What the pass writes from idea position `k` on: unselected rows are
      skipped, a selected row contributes its step, and the ids of later rows
      continue after the ones it took. */
  datatype LoopOut = LoopOut(experiments: seq<Experiment>, events: seq<Event>, actions: seq<LoopAction>)

  function LoopFrom(ideas: seq<Idea>, snapshot: seq<Experiment>, tenantId: string, now: int, base: nat, k: nat,
                    agents: Agents): (r: LoopOut)
    requires k <= |ideas|
    decreases |ideas| - k
  {
    if k == |ideas| then LoopOut([], [], [])
    else if !Selected(ideas[k], tenantId) then LoopFrom(ideas, snapshot, tenantId, now, base, k + 1, agents)
    else
      var st := Step(ideas[k], snapshot, tenantId, now, base, agents);
      var rest := LoopFrom(ideas, snapshot, tenantId, now, base + |st.experiments|, k + 1, agents);
      LoopOut(st.experiments + rest.experiments, st.events + rest.events, st.actions + rest.actions)
  }

  /** Experiments with consecutive ids from `base`, of the tenant, PENDING. */
  ghost predicate FreshFrom(es: seq<Experiment>, base: nat, tenantId: string) {
    forall i :: 0 <= i < |es| ==> es[i].id == base + i && es[i].tenantId == tenantId && es[i].result == Some(Pending)
  }

  /** The experiments the pass creates take consecutive ids from `base`, are
      the tenant's, and are PENDING. */
  lemma {:induction false} LoopExperimentsFresh(ideas: seq<Idea>, snapshot: seq<Experiment>, tenantId: string, now: int,
                                                base: nat, k: nat, agents: Agents)
    requires k <= |ideas|
    ensures FreshFrom(LoopFrom(ideas, snapshot, tenantId, now, base, k, agents).experiments, base, tenantId)
    decreases |ideas| - k
  {
    if k < |ideas| {
      if !Selected(ideas[k], tenantId) {
        LoopExperimentsFresh(ideas, snapshot, tenantId, now, base, k + 1, agents);
      } else {
        var created := NewExperiments(ideas[k], snapshot, tenantId, base, agents);
        LoopExperimentsFresh(ideas, snapshot, tenantId, now, base + |created|, k + 1, agents);
        var rest := LoopFrom(ideas, snapshot, tenantId, now, base + |created|, k + 1, agents).experiments;
        var es := LoopFrom(ideas, snapshot, tenantId, now, base, k, agents).experiments;
        assert es == created + rest;
        assert FreshFrom(created, base, tenantId);
        forall i | 0 <= i < |es|
          ensures es[i].id == base + i && es[i].tenantId == tenantId && es[i].result == Some(Pending)
        {
          if i >= |created| {
            assert es[i] == rest[i - |created|];
          } else {
            assert es[i] == created[i];
          }
        }
      }
    }
  }

  /** The tallies over one more interpretation. */
  lemma TallyStep(vs: seq<Interpretation>, i: nat)
    requires i < |vs|
    ensures AllPassed(vs[..i + 1]) == (AllPassed(vs[..i]) && vs[i].verdict == Passed)
    ensures AnyFailed(vs[..i + 1]) == (AnyFailed(vs[..i]) || vs[i].verdict == Failed)
    ensures HighestConfidence(vs[..i + 1]) == Raise(HighestConfidence(vs[..i]), vs[i].confidence)
  {
    assert vs[..i + 1][..i] == vs[..i];
  }

  /** One pass over the completed experiments: the tallies of the source and
      the overwrite of disagreeing results, given that, as for `Rules`, the
      interpreter never disagrees with a stored result at HIGH confidence. */
  method InterpretCompleted(db: Db, current: IdeaState, completed: seq<Experiment>, ideaTitle: string, agents: Agents)
    returns (newState: IdeaState)
    requires KeepsStoredResults(agents)
    requires forall i :: 0 <= i < |completed| ==> HasResult(completed[i])
    requires db.Valid()
    modifies db`experiments
    ensures db.experiments == old(db.experiments) && db.Valid()
    ensures newState == NextState(current, completed, ideaTitle, agents)
  {
    ghost var vs := Interpretations(completed, ideaTitle, agents);
    var allPassed, anyFailed, highestConfidence := true, false, Low;
    var i := 0;
    while i < |completed|
      invariant 0 <= i <= |completed|
      invariant db.experiments == old(db.experiments) && db.Valid()
      invariant allPassed == AllPassed(vs[..i]) && anyFailed == AnyFailed(vs[..i])
      invariant highestConfidence == HighestConfidence(vs[..i])
    {
      var experiment := completed[i];
      var interpretation := agents.interpret(experiment, ideaTitle);
      TallyStep(vs, i);
      if interpretation.confidence == High || (interpretation.confidence == Medium && highestConfidence == Low) {
        highestConfidence := interpretation.confidence;
      }
      db.experiments := ApplyInterpretation(db.experiments, experiment, interpretation);
      if interpretation.verdict == Failed {
        anyFailed := true;
      }
      if interpretation.verdict != Passed {
        allPassed := false;
      }
      i := i + 1;
    }
    assert vs[..i] == vs;
    newState := current;
    if completed == [] {
    } else if anyFailed && highestConfidence == High {
      newState := Killed;
    } else if allPassed && |completed| >= 2 && exists j :: 0 <= j < |completed| && completed[j].kind == AgentOwnershipTest {
      newState := Validated;
    }
  }

  /** One designed experiment: a PENDING row and its IDEA_EXPERIMENT_DESIGNED
      event. */
  method DesignOne(db: Db, design: ExperimentDesign, ideaId: Id, tenantId: string, now: int)
    returns (e: Experiment)
    requires db.Valid()
    modifies db`experiments, db`events, db`nextId
    ensures db.Valid()
    ensures e == Experiment(old(db.nextId), tenantId, ideaId, design.kind, design.description, Some(Pending))
    ensures db.experiments == old(db.experiments) + [e] && db.nextId == old(db.nextId) + 1
    ensures db.events == old(db.events) + [DesignedEvent(e, now)]
  {
    e := db.AddExperiment(Experiment(0, tenantId, ideaId, design.kind, design.description, Some(Pending)));
    db.LogEvent(DesignedEvent(e, now));
  }

  /** The design step for one idea: one PENDING experiment row and one
      IDEA_EXPERIMENT_DESIGNED event per design. */
  method DesignExperiments(db: Db, designs: seq<ExperimentDesign>, ideaId: Id, tenantId: string, now: int)
    returns (created: seq<Experiment>)
    requires db.Valid()
    modifies db`experiments, db`events, db`nextId
    ensures db.Valid()
    ensures created == Materialize(designs, ideaId, tenantId, old(db.nextId))
    ensures db.experiments == old(db.experiments) + created && db.nextId == old(db.nextId) + |created|
    ensures db.events == old(db.events) + DesignedEvents(created, now)
  {
    ghost var all := Materialize(designs, ideaId, tenantId, db.nextId);
    created := [];
    var i := 0;
    while i < |designs|
      invariant 0 <= i <= |designs| == |all|
      invariant db.Valid()
      invariant db.nextId == old(db.nextId) + i
      invariant created == all[..i]
      invariant db.experiments == old(db.experiments) + created
      invariant db.events == old(db.events) + DesignedEvents(created, now)
    {
      var experiment := DesignOne(db, designs[i], ideaId, tenantId, now);
      assert experiment == all[i];
      PrefixSnoc(all, i);
      DesignedEventsSnoc(created, experiment, now);
      created := created + [experiment];
      i := i + 1;
    }
    assert all[..i] == all;
  }

  lemma PrefixSnoc<T>(s: seq<T>, i: nat)
    requires i < |s|
    ensures s[..i + 1] == s[..i] + [s[i]]
  {
  }

  lemma DesignedEventsSnoc(es: seq<Experiment>, e: Experiment, now: int)
    ensures DesignedEvents(es + [e], now) == DesignedEvents(es, now) + [DesignedEvent(e, now)]
  {
  }

  /** An interpreter that never disagrees with a stored result at HIGH
      confidence, which makes the overwrite dead. */
  ghost predicate KeepsStoredResults(agents: Agents) {
    forall e: Experiment, t: string {:trigger agents.interpret(e, t)} :: HasResult(e) ==>
      !(Some(agents.interpret(e, t).verdict) != e.result && agents.interpret(e, t).confidence == High)
  }

  /** The flow's own interpreter is one. */
  lemma RulesKeepStoredResults()
    ensures KeepsStoredResults(Rules)
  {
    forall e: Experiment, t: string | HasResult(e)
      ensures !(Some(Rules.interpret(e, t).verdict) != e.result && Rules.interpret(e, t).confidence == High)
    {
      NoHighConfidenceDisagreement(e, t);
    }
  }

  lemma CompletedHaveResults(exps: seq<Experiment>)
    ensures forall i :: 0 <= i < |Completed(exps)| ==> HasResult(Completed(exps)[i])
  {
    CompletedMembers(exps);
    forall i | 0 <= i < |Completed(exps)| ensures HasResult(Completed(exps)[i]) {
      assert Completed(exps)[i] in Completed(exps);
    }
  }

  /** The second half of the loop body: interpret the completed experiments
      of the idea at position `k` and write the state they call for. */
  method UpdateFromResults(db: Db, k: nat, snapshot: seq<Experiment>, tenantId: string, now: int, agents: Agents)
    returns (actions: seq<LoopAction>)
    requires KeepsStoredResults(agents)
    requires db.Valid() && k < |db.ideas|
    modifies db`ideas, db`experiments, db`events
    ensures db.Valid()
    ensures db.ideas == old(db.ideas)[k := old(db.ideas)[k].(state := StepState(old(db.ideas)[k], snapshot, agents))]
    ensures db.experiments == old(db.experiments)
    ensures db.events == old(db.events) + StateEvents(old(db.ideas)[k], snapshot, tenantId, now, agents)
    ensures actions == StateActions(old(db.ideas)[k], snapshot, agents)
  {
    var idea := db.ideas[k];
    var completed := Completed(ExperimentsOf(snapshot, idea.id));
    CompletedHaveResults(ExperimentsOf(snapshot, idea.id));
    var newState := InterpretCompleted(db, idea.state, completed, idea.title, agents);
    actions := [];
    if newState != idea.state {
      db.SetIdea(k, idea.(state := newState));
      db.LogEvent(Event(tenantId, "IDEA_STATE_CHANGED", Some(idea.id), now, ExperimentResultsPayload(newState, |completed|)));
      actions := [StateUpdated(idea.id, newState)];
    } else {
      assert db.ideas == old(db.ideas)[k := idea.(state := newState)];
    }
  }

  /** The body of the loop for the selected idea at position `k`: design
      experiments when it has none, then act on its completed ones. */
  method ProcessIdea(db: Db, k: nat, snapshot: seq<Experiment>, tenantId: string, now: int, agents: Agents)
    returns (actions: seq<LoopAction>)
    requires KeepsStoredResults(agents)
    requires db.Valid() && k < |db.ideas|
    modifies db`ideas, db`experiments, db`events, db`nextId
    ensures db.Valid()
    ensures db.ideas == old(db.ideas)[k := old(db.ideas)[k].(state := StepState(old(db.ideas)[k], snapshot, agents))]
    ensures var st := Step(old(db.ideas)[k], snapshot, tenantId, now, old(db.nextId), agents);
      db.experiments == old(db.experiments) + st.experiments && db.nextId == old(db.nextId) + |st.experiments|
      && db.events == old(db.events) + st.events && actions == st.actions
  {
    var idea := db.ideas[k];
    var created: seq<Experiment> := [];
    if ExperimentsOf(snapshot, idea.id) == [] {
      created := DesignExperiments(db, agents.design(idea), idea.id, tenantId, now);
    }
    var updates := UpdateFromResults(db, k, snapshot, tenantId, now, agents);
    actions := DesignedActions(created) + updates;
  }

  /** The loop invariant: what is written so far, followed by what the pass
      writes from row `k` on, is what the whole pass writes. */
  ghost predicate LoopInv(ideas: seq<Idea>, snapshot: seq<Experiment>, tenantId: string, now: int, base: nat, k: nat,
                          agents: Agents, doneExps: seq<Experiment>, doneEvents: seq<Event>, doneActions: seq<LoopAction>,
                          spec: LoopOut)
  {
    k <= |ideas|
    && var rest := LoopFrom(ideas, snapshot, tenantId, now, base, k, agents);
    doneExps + rest.experiments == spec.experiments && doneEvents + rest.events == spec.events
    && doneActions + rest.actions == spec.actions
  }

  lemma LoopInvInit(ideas: seq<Idea>, snapshot: seq<Experiment>, tenantId: string, now: int, base: nat,
                    agents: Agents, events: seq<Event>)
    ensures LoopInv(ideas, snapshot, tenantId, now, base, 0, agents, snapshot[|snapshot|..], events[|events|..], [],
                    LoopFrom(ideas, snapshot, tenantId, now, base, 0, agents))
  {
    assert snapshot[|snapshot|..] == [] && events[|events|..] == [];
  }

  lemma LoopInvDone(ideas: seq<Idea>, snapshot: seq<Experiment>, tenantId: string, now: int, base: nat,
                    agents: Agents, exps: seq<Experiment>, events: seq<Event>, eventsStart: nat, results: seq<LoopAction>,
                    spec: LoopOut)
    requires |snapshot| <= |exps| && eventsStart <= |events|
    requires LoopInv(ideas, snapshot, tenantId, now, base, |ideas|, agents, exps[|snapshot|..], events[eventsStart..],
                     results, spec)
    ensures exps[|snapshot|..] == spec.experiments && events[eventsStart..] == spec.events && results == spec.actions
  {
    assert exps[|snapshot|..] + [] == exps[|snapshot|..];
    assert events[eventsStart..] + [] == events[eventsStart..];
    assert results + [] == results;
  }

  /** A skipped row keeps the invariant. */
  lemma LoopInvSkip(ideas: seq<Idea>, snapshot: seq<Experiment>, tenantId: string, now: int, base: nat, k: nat,
                    agents: Agents, doneExps: seq<Experiment>, doneEvents: seq<Event>, doneActions: seq<LoopAction>,
                    spec: LoopOut)
    requires k < |ideas| && !Selected(ideas[k], tenantId)
    requires LoopInv(ideas, snapshot, tenantId, now, base, k, agents, doneExps, doneEvents, doneActions, spec)
    ensures LoopInv(ideas, snapshot, tenantId, now, base, k + 1, agents, doneExps, doneEvents, doneActions, spec)
  {
  }

  /** A processed row keeps the invariant, stated on the tables before and
      after the row's step. */
  lemma LoopInvStep(ideas: seq<Idea>, snapshot: seq<Experiment>, tenantId: string, now: int, base: nat, k: nat,
                    agents: Agents, exps: seq<Experiment>, events: seq<Event>, eventsStart: nat, results: seq<LoopAction>,
                    spec: LoopOut, base': nat, exps': seq<Experiment>, events': seq<Event>, actions: seq<LoopAction>)
    requires k < |ideas| && Selected(ideas[k], tenantId) && |snapshot| <= |exps| && eventsStart <= |events|
    requires LoopInv(ideas, snapshot, tenantId, now, base, k, agents, exps[|snapshot|..], events[eventsStart..], results, spec)
    requires var st := Step(ideas[k], snapshot, tenantId, now, base, agents);
      base' == base + |st.experiments| && exps' == exps + st.experiments && events' == events + st.events
      && actions == st.actions
    ensures |snapshot| <= |exps'| && eventsStart <= |events'|
    ensures LoopInv(ideas, snapshot, tenantId, now, base', k + 1, agents,
                    exps'[|snapshot|..], events'[eventsStart..], results + actions, spec)
  {
    var st := Step(ideas[k], snapshot, tenantId, now, base, agents);
    var rest := LoopFrom(ideas, snapshot, tenantId, now, base', k + 1, agents);
    assert LoopFrom(ideas, snapshot, tenantId, now, base, k, agents)
      == LoopOut(st.experiments + rest.experiments, st.events + rest.events, st.actions + rest.actions);
    Shift(exps, |snapshot|, st.experiments, rest.experiments, spec.experiments);
    Shift(events, eventsStart, st.events, rest.events, spec.events);
    Shift(results, 0, st.actions, rest.actions, spec.actions);
  }

  /** Moving one step's output from the remaining part to the done part. */
  lemma Shift<T>(done: seq<T>, from: nat, step: seq<T>, rest: seq<T>, whole: seq<T>)
    requires from <= |done| && done[from..] + (step + rest) == whole
    ensures (done + step)[from..] + rest == whole
  {
    assert (done + step)[from..] == done[from..] + step;
  }

  /** One turn of the pass: row `k`, still as loaded, is processed when it is
      selected and skipped otherwise; the invariant moves on to row `k + 1`. */
  method VisitRow(db: Db, k: nat, snapshot: seq<Experiment>, tenantId: string, now: int, agents: Agents,
                  ghost ideas: seq<Idea>, ghost eventsStart: nat, results: seq<LoopAction>, ghost spec: LoopOut)
    returns (results': seq<LoopAction>)
    requires KeepsStoredResults(agents)
    requires db.Valid() && k < |db.ideas| && |db.ideas| == |ideas| && db.ideas[k] == ideas[k]
    requires |snapshot| <= |db.experiments| && eventsStart <= |db.events|
    requires LoopInv(ideas, snapshot, tenantId, now, db.nextId, k, agents,
                     db.experiments[|snapshot|..], db.events[eventsStart..], results, spec)
    modifies db`ideas, db`experiments, db`events, db`nextId
    ensures db.Valid() && |snapshot| <= |db.experiments| && eventsStart <= |db.events|
    ensures db.ideas == old(db.ideas)[k := LoopStates(ideas, snapshot, tenantId, agents)[k]]
    ensures db.experiments[..|snapshot|] == old(db.experiments)[..|snapshot|]
    ensures db.events[..eventsStart] == old(db.events)[..eventsStart]
    ensures db.nextId == old(db.nextId) + |db.experiments| - |old(db.experiments)|
    ensures LoopInv(ideas, snapshot, tenantId, now, db.nextId, k + 1, agents,
                    db.experiments[|snapshot|..], db.events[eventsStart..], results', spec)
  {
    if Selected(db.ideas[k], tenantId) {
      ghost var exps0, events0, base := db.experiments, db.events, db.nextId;
      var actions := ProcessIdea(db, k, snapshot, tenantId, now, agents);
      LoopInvStep(ideas, snapshot, tenantId, now, base, k, agents, exps0, events0, eventsStart, results, spec,
                  db.nextId, db.experiments, db.events, actions);
      results' := results + actions;
    } else {
      LoopInvSkip(ideas, snapshot, tenantId, now, db.nextId, k, agents,
                  db.experiments[|snapshot|..], db.events[eventsStart..], results, spec);
      assert db.ideas == db.ideas[k := db.ideas[k]];
      results' := results;
    }
  }

  /** Rows before `k` are done, the others untouched. */
  ghost predicate RowsDone<T>(cur: seq<T>, todo: seq<T>, done: seq<T>, k: nat) {
    |cur| == |todo| == |done| && k <= |todo|
    && forall j :: 0 <= j < |todo| ==> cur[j] == if j < k then done[j] else todo[j]
  }

  lemma RowsDoneStep<T>(cur: seq<T>, todo: seq<T>, done: seq<T>, k: nat)
    requires RowsDone(cur, todo, done, k) && k < |todo|
    ensures RowsDone(cur[k := done[k]], todo, done, k + 1)
  {
  }

  lemma RowsDoneAll<T>(cur: seq<T>, todo: seq<T>, done: seq<T>)
    requires RowsDone(cur, todo, done, |todo|)
    ensures cur == done
  {
  }

  lemma SplitAt<T>(s: seq<T>, n: nat)
    requires n <= |s|
    ensures s == s[..n] + s[n..]
  {
  }

  /** The fixed data of one pass: the rows and experiments as loaded, the
      counter and the log at the start, and the pass's specification. */
  datatype PassData = PassData(ideas: seq<Idea>, snapshot: seq<Experiment>, tenantId: string, now: int, agents: Agents,
                       base: nat, events0: seq<Event>, states: seq<Idea>, spec: LoopOut)

  /** What the pass keeps after `k` rows, over the store's current tables. */
  ghost predicate PassInv(p: PassData, k: nat, rows: seq<Idea>, exps: seq<Experiment>, events: seq<Event>, nextId: nat,
                          results: seq<LoopAction>)
  {
    k <= |p.ideas| && RowsDone(rows, p.ideas, p.states, k)
    && |p.snapshot| <= |exps| && |p.events0| <= |events|
    && exps[..|p.snapshot|] == p.snapshot && events[..|p.events0|] == p.events0
    && nextId == p.base + |exps| - |p.snapshot|
    && LoopInv(p.ideas, p.snapshot, p.tenantId, p.now, nextId, k, p.agents,
               exps[|p.snapshot|..], events[|p.events0|..], results, p.spec)
  }

  lemma PassInit(p: PassData)
    requires p.states == LoopStates(p.ideas, p.snapshot, p.tenantId, p.agents)
    requires p.spec == LoopFrom(p.ideas, p.snapshot, p.tenantId, p.now, p.base, 0, p.agents)
    ensures PassInv(p, 0, p.ideas, p.snapshot, p.events0, p.base, [])
  {
    LoopInvInit(p.ideas, p.snapshot, p.tenantId, p.now, p.base, p.agents, p.events0);
  }

  lemma PassDone(p: PassData, rows: seq<Idea>, exps: seq<Experiment>, events: seq<Event>, nextId: nat,
                 results: seq<LoopAction>)
    requires PassInv(p, |p.ideas|, rows, exps, events, nextId, results)
    ensures rows == p.states && exps == p.snapshot + p.spec.experiments && events == p.events0 + p.spec.events
    ensures results == p.spec.actions && nextId == p.base + |p.spec.experiments|
  {
    LoopInvDone(p.ideas, p.snapshot, p.tenantId, p.now, nextId, p.agents, exps, events, |p.events0|, results, p.spec);
    RowsDoneAll(rows, p.ideas, p.states);
    SplitAt(exps, |p.snapshot|);
    SplitAt(events, |p.events0|);
  }

  /** One turn of the pass, stated over `PassInv`. */
  method PassStep(db: Db, k: nat, snapshot: seq<Experiment>, tenantId: string, now: int, agents: Agents,
                  ghost p: PassData, results: seq<LoopAction>)
    returns (results': seq<LoopAction>)
    requires KeepsStoredResults(agents) && db.Valid() && k < |p.ideas|
    requires p.snapshot == snapshot && p.tenantId == tenantId && p.now == now && p.agents == agents
    requires p.states == LoopStates(p.ideas, snapshot, tenantId, agents)
    requires PassInv(p, k, db.ideas, db.experiments, db.events, db.nextId, results)
    modifies db`ideas, db`experiments, db`events, db`nextId
    ensures db.Valid() && PassInv(p, k + 1, db.ideas, db.experiments, db.events, db.nextId, results')
  {
    ghost var rows := db.ideas;
    results' := VisitRow(db, k, snapshot, tenantId, now, agents, p.ideas, |p.events0|, results, p.spec);
    RowsDoneStep(rows, p.ideas, p.states, k);
  }

  /** The pass over the ideas, each selected one against the experiments as
      loaded before the pass. */
  method LoopIdeas(db: Db, tenantId: string, now: int, agents: Agents) returns (results: seq<LoopAction>)
    requires KeepsStoredResults(agents)
    requires db.Valid()
    modifies db`ideas, db`experiments, db`events, db`nextId
    ensures db.Valid()
    ensures db.ideas == LoopStates(old(db.ideas), old(db.experiments), tenantId, agents)
    ensures var spec := LoopFrom(old(db.ideas), old(db.experiments), tenantId, now, old(db.nextId), 0, agents);
      db.experiments == old(db.experiments) + spec.experiments && db.nextId == old(db.nextId) + |spec.experiments|
      && db.events == old(db.events) + spec.events && results == spec.actions
  {
    var snapshot := db.experiments;
    ghost var p := PassData(db.ideas, snapshot, tenantId, now, agents, db.nextId, db.events,
                        LoopStates(db.ideas, snapshot, tenantId, agents),
                        LoopFrom(db.ideas, snapshot, tenantId, now, db.nextId, 0, agents));
    PassInit(p);
    results := [];
    var k := 0;
    while k < |db.ideas|
      invariant db.Valid() && PassInv(p, k, db.ideas, db.experiments, db.events, db.nextId, results)
    {
      results := PassStep(db, k, snapshot, tenantId, now, agents, p, results);
      k := k + 1;
    }
    PassDone(p, db.ideas, db.experiments, db.events, db.nextId, results);
  }

  /** `runExperimentLoopFlow` with given agents: FLOW_STARTED, one pass over
      the tenant's EXPERIMENTING ideas as loaded at the start (with their
      experiments as loaded then), FLOW_COMPLETED. */
  method RunExperimentLoopWith(db: Db, tenantId: string, now: int, agents: Agents) returns (results: seq<LoopAction>)
    requires KeepsStoredResults(agents)
    requires db.Valid()
    modifies db`ideas, db`experiments, db`events, db`nextId
    ensures db.Valid()
    ensures db.ideas == LoopStates(old(db.ideas), old(db.experiments), tenantId, agents)
    ensures var version := GetIdeaFilters(tenantId).version;
      var spec := LoopFrom(old(db.ideas), old(db.experiments), tenantId, now, old(db.nextId), 0, agents);
      db.experiments == old(db.experiments) + spec.experiments && db.nextId == old(db.nextId) + |spec.experiments|
      && db.events == old(db.events) + [Event(tenantId, "FLOW_STARTED", None, now, FlowPayload("experimentLoop", version))]
                      + spec.events + [Event(tenantId, "FLOW_COMPLETED", None, now, LoopCompletedPayload("experimentLoop", version, spec.actions))]
      && results == spec.actions
  {
    var version := GetIdeaFilters(tenantId).version;
    db.LogEvent(Event(tenantId, "FLOW_STARTED", None, now, FlowPayload("experimentLoop", version)));
    results := LoopIdeas(db, tenantId, now, agents);
    db.LogEvent(Event(tenantId, "FLOW_COMPLETED", None, now, LoopCompletedPayload("experimentLoop", version, results)));
  }

  /** `runExperimentLoopFlow`, with the designer and interpreter of the source. */
  method RunExperimentLoop(db: Db, tenantId: string, now: int) returns (results: seq<LoopAction>)
    requires db.Valid()
    modifies db`ideas, db`experiments, db`events, db`nextId
    ensures db.Valid()
    ensures db.ideas == LoopStates(old(db.ideas), old(db.experiments), tenantId, Rules)
    ensures var version := GetIdeaFilters(tenantId).version;
      var spec := LoopFrom(old(db.ideas), old(db.experiments), tenantId, now, old(db.nextId), 0, Rules);
      db.experiments == old(db.experiments) + spec.experiments && db.nextId == old(db.nextId) + |spec.experiments|
      && db.events == old(db.events) + [Event(tenantId, "FLOW_STARTED", None, now, FlowPayload("experimentLoop", version))]
                      + spec.events + [Event(tenantId, "FLOW_COMPLETED", None, now, LoopCompletedPayload("experimentLoop", version, spec.actions))]
      && results == spec.actions
  {
    RulesKeepStoredResults();
    results := RunExperimentLoopWith(db, tenantId, now, Rules);
  }
}
