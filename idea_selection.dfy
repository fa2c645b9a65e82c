/** Idea evaluation, manual state changes, experiment logging and the
    refresh flow (src/l2/ideas/ideaSelection.ts). */
module IdeaSelection {
  import opened Wrappers
  import opened Config
  import opened Records
  import opened Store
  import opened IdeaScoring

  /** The number of the tenant's ideas in EXPERIMENTING
      (`prisma.idea.count({ where: { tenantId, state: 'EXPERIMENTING' } })`). */
  function CountExperimenting(ideas: seq<Idea>, tenantId: string): (n: nat)
    ensures n <= |ideas|
  {
    if ideas == [] then 0
    else (if ideas[0].tenantId == tenantId && ideas[0].state == Experimenting then 1 else 0)
         + CountExperimenting(ideas[1..], tenantId)
  }

  function Counts(idea: Idea, tenantId: string): nat {
    if idea.tenantId == tenantId && idea.state == Experimenting then 1 else 0
  }

  /** Replacing one idea changes the count by that idea's own contribution only. */
  lemma {:induction false} CountAfterUpdate(ideas: seq<Idea>, k: nat, x: Idea, tenantId: string)
    requires k < |ideas|
    ensures CountExperimenting(ideas[k := x], tenantId)
            == CountExperimenting(ideas, tenantId) - Counts(ideas[k], tenantId) + Counts(x, tenantId)
    ensures CountExperimenting(ideas, tenantId) >= Counts(ideas[k], tenantId)
  {
    if k == 0 {
      assert ideas[k := x][1..] == ideas[1..];
    } else {
      CountAfterUpdate(ideas[1..], k - 1, x, tenantId);
      assert ideas[k := x][1..] == ideas[1..][k - 1 := x];
    }
  }

  /** The scores kept when a filter fails: the stored ones, 1/1/1/1/4 where unset. */
  function PreviousScores(idea: Idea): IdeaScores {
    IdeaScores(idea.painFrequencyScore.GetOr(1), idea.agentLeverageScore.GetOr(1),
               idea.dataSurfaceScore.GetOr(1), idea.repeatabilityScore.GetOr(1),
               idea.totalScore.GetOr(4))
  }

  /** The state decision of `evaluateIdea`; `experimenting` is the tenant's
      EXPERIMENTING count taken before the update, so it includes this idea
      when it is already EXPERIMENTING. */
  function DecideState(h: HardFilterResult, total: int, filters: IdeaFilters, experimenting: nat): (st: IdeaState)
    ensures st == Killed || st == Scoring || st == Experimenting
    ensures st == Killed <==> !PassesAll(h)
    ensures st == Experimenting <==>
      PassesAll(h) && total as real >= filters.minScoreForExperiment
      && (filters.maxExperimentingIdeas.None? || experimenting < filters.maxExperimentingIdeas.value)
  {
    if !PassesAll(h) then Killed
    else if total as real < filters.minScoreForExperiment then Scoring
    else match filters.maxExperimentingIdeas
      case None => Experimenting
      case Some(cap) => if experimenting < cap then Experimenting else Scoring
  }

  /** The scores `evaluateIdea` writes. */
  function EvaluatedScores(idea: Idea, filters: IdeaFilters): IdeaScores {
    if PassesAll(RunHardFilters(idea, filters)) then ScoreIdea(idea, filters) else PreviousScores(idea)
  }

  function WithResults(idea: Idea, t: string, h: HardFilterResult, s: IdeaScores, st: IdeaState): Idea {
    idea.(transformation := Some(t),
          passesMarket := Some(h.passesMarket), passesRegulation := Some(h.passesRegulation),
          passesAgentFit := Some(h.passesAgentFit), passesFounderFit := Some(h.passesFounderFit),
          painFrequencyScore := Some(s.painFrequencyScore), agentLeverageScore := Some(s.agentLeverageScore),
          dataSurfaceScore := Some(s.dataSurfaceScore), repeatabilityScore := Some(s.repeatabilityScore),
          totalScore := Some(s.totalScore), state := st)
  }

  /** The transformation kept or drafted: an existing one is never replaced. */
  function TransformationFor(idea: Idea): string {
    match idea.transformation
    case Some(t) => t
    case None => DraftTransformationStatement(idea)
  }

  /** The updated idea row `evaluateIdea` writes. */
  function Evaluate(idea: Idea, filters: IdeaFilters, experimenting: nat): (r: Idea)
    ensures r.id == idea.id && r.tenantId == idea.tenantId && SameScoringInputs(idea, r)
    ensures r.icpDescription == idea.icpDescription && r.sourceSignalIds == idea.sourceSignalIds
    ensures idea.transformation.Some? ==> r.transformation == idea.transformation
    ensures idea.transformation.None? ==> r.transformation == Some(DraftTransformationStatement(idea))
    ensures r.state == Killed || r.state == Scoring || r.state == Experimenting
  {
    var h := RunHardFilters(idea, filters);
    var s := EvaluatedScores(idea, filters);
    WithResults(idea, TransformationFor(idea), h, s, DecideState(h, s.totalScore, filters, experimenting))
  }

  /** A failed hard filter kills the idea and keeps its previous scores. */
  lemma KilledIffSomeFilterFails(idea: Idea, filters: IdeaFilters, experimenting: nat)
    ensures var r := Evaluate(idea, filters, experimenting);
      (r.state == Killed <==> !PassesAll(RunHardFilters(idea, filters)))
      && (r.state == Killed ==>
            r.painFrequencyScore == Some(idea.painFrequencyScore.GetOr(1))
            && r.agentLeverageScore == Some(idea.agentLeverageScore.GetOr(1))
            && r.dataSurfaceScore == Some(idea.dataSurfaceScore.GetOr(1))
            && r.repeatabilityScore == Some(idea.repeatabilityScore.GetOr(1))
            && r.totalScore == Some(idea.totalScore.GetOr(4)))
  {
  }

  /** With every filter passed, the idea is scored afresh; it goes to
      EXPERIMENTING exactly when its total reaches the minimum and the cap, if
      any, is not yet reached; otherwise to SCORING. */
  lemma PassedIdeaState(idea: Idea, filters: IdeaFilters, experimenting: nat)
    requires PassesAll(RunHardFilters(idea, filters))
    ensures var r := Evaluate(idea, filters, experimenting);
      var total := ScoreIdea(idea, filters).totalScore;
      r.totalScore == Some(total)
      && (r.state == Experimenting <==>
            total as real >= filters.minScoreForExperiment
            && (filters.maxExperimentingIdeas.None? || experimenting < filters.maxExperimentingIdeas.value))
      && (r.state != Experimenting ==> r.state == Scoring)
  {
  }

  /** Without a cap, evaluating an evaluated idea again changes nothing,
      whatever the count. */
  lemma {:induction false} ReevaluationIdempotentWithoutCap(idea: Idea, filters: IdeaFilters, c1: nat, c2: nat)
    requires filters.maxExperimentingIdeas.None?
    ensures Evaluate(Evaluate(idea, filters, c1), filters, c2) == Evaluate(idea, filters, c1)
  {
    var r := Evaluate(idea, filters, c1);
    ScoringDependsOnlyOnInputs(idea, r, filters);
  }

  /** The same with a cap when the count stays the same. */
  lemma {:induction false} ReevaluationIdempotentAtSameCount(idea: Idea, filters: IdeaFilters, c: nat)
    ensures Evaluate(Evaluate(idea, filters, c), filters, c) == Evaluate(idea, filters, c)
  {
    var r := Evaluate(idea, filters, c);
    ScoringDependsOnlyOnInputs(idea, r, filters);
  }

  /** Evaluating idea `k` of the list never lifts the tenant's EXPERIMENTING
      count above the cap when it was not above it before. */
  lemma CapPreserved(ideas: seq<Idea>, k: nat, filters: IdeaFilters, tenantId: string)
    requires k < |ideas| && ideas[k].tenantId == tenantId
    requires filters.maxExperimentingIdeas.Some?
    requires CountExperimenting(ideas, tenantId) <= filters.maxExperimentingIdeas.value
    ensures var r := Evaluate(ideas[k], filters, CountExperimenting(ideas, tenantId));
      CountExperimenting(ideas[k := r], tenantId) <= filters.maxExperimentingIdeas.value
  {
    var r := Evaluate(ideas[k], filters, CountExperimenting(ideas, tenantId));
    CountAfterUpdate(ideas, k, r, tenantId);
  }

  /** As written, the cap count includes the idea itself: with the cap
      exactly reached by this idea, re-evaluating it demotes it to SCORING,
      and the next evaluation promotes it again, with nothing else changed. */
  lemma CapRecountOscillates(ideas: seq<Idea>, k: nat, filters: IdeaFilters, tenantId: string)
    requires k < |ideas| && ideas[k].tenantId == tenantId && ideas[k].state != Experimenting
    requires PassesAll(RunHardFilters(ideas[k], filters))
    requires ScoreIdea(ideas[k], filters).totalScore as real >= filters.minScoreForExperiment
    requires filters.maxExperimentingIdeas == Some(CountExperimenting(ideas, tenantId) + 1)
    ensures var once := ideas[k := Evaluate(ideas[k], filters, CountExperimenting(ideas, tenantId))];
      var twice := once[k := Evaluate(once[k], filters, CountExperimenting(once, tenantId))];
      var thrice := twice[k := Evaluate(twice[k], filters, CountExperimenting(twice, tenantId))];
      once[k].state == Experimenting && twice[k].state == Scoring && thrice[k].state == Experimenting
  {
    var c := CountExperimenting(ideas, tenantId);
    var r1 := Evaluate(ideas[k], filters, c);
    var once := ideas[k := r1];
    CountAfterUpdate(ideas, k, r1, tenantId);
    ScoringDependsOnlyOnInputs(ideas[k], r1, filters);
    var r2 := Evaluate(once[k], filters, CountExperimenting(once, tenantId));
    var twice := once[k := r2];
    CountAfterUpdate(once, k, r2, tenantId);
    ScoringDependsOnlyOnInputs(ideas[k], r2, filters);
    var r3 := Evaluate(twice[k], filters, CountExperimenting(twice, tenantId));
    ScoringDependsOnlyOnInputs(ideas[k], r3, filters);
  }

  /** The intended cap check: count the tenant's other EXPERIMENTING ideas. */
  function OthersExperimenting(ideas: seq<Idea>, k: nat, tenantId: string): nat
    requires k < |ideas|
  {
    CountAfterUpdate(ideas, k, ideas[k], tenantId);
    CountExperimenting(ideas, tenantId) - Counts(ideas[k], tenantId)
  }

  /** Evaluation of idea `k` with the intended count. */
  function EvaluateExcludingSelf(ideas: seq<Idea>, k: nat, filters: IdeaFilters, tenantId: string): (r: Idea)
    requires k < |ideas|
    ensures r.state == Killed || r.state == Scoring || r.state == Experimenting
  {
    Evaluate(ideas[k], filters, OthersExperimenting(ideas, k, tenantId))
  }

  /** With the intended count, re-evaluation is idempotent even under a cap,
      and the cap still holds afterwards. */
  lemma {:induction false} ExcludingSelfIdempotent(ideas: seq<Idea>, k: nat, filters: IdeaFilters, tenantId: string)
    requires k < |ideas| && ideas[k].tenantId == tenantId
    ensures var once := ideas[k := EvaluateExcludingSelf(ideas, k, filters, tenantId)];
      EvaluateExcludingSelf(once, k, filters, tenantId) == once[k]
    ensures filters.maxExperimentingIdeas.Some? && CountExperimenting(ideas, tenantId) <= filters.maxExperimentingIdeas.value ==>
      CountExperimenting(ideas[k := EvaluateExcludingSelf(ideas, k, filters, tenantId)], tenantId) <= filters.maxExperimentingIdeas.value
  {
    var r := EvaluateExcludingSelf(ideas, k, filters, tenantId);
    var once := ideas[k := r];
    CountAfterUpdate(ideas, k, r, tenantId);
    CountAfterUpdate(once, k, once[k], tenantId);
    assert once[k := once[k]] == once;
    assert OthersExperimenting(once, k, tenantId) == OthersExperimenting(ideas, k, tenantId);
    ReevaluationIdempotentAtSameCount(ideas[k], filters, OthersExperimenting(ideas, k, tenantId));
  }

  /** The correction matters only for an idea that is EXPERIMENTING already:
      for any other idea both counts agree, and so do both evaluations. */
  lemma ExcludingSelfAgreesOtherwise(ideas: seq<Idea>, k: nat, filters: IdeaFilters, tenantId: string)
    requires k < |ideas| && ideas[k].state != Experimenting
    ensures EvaluateExcludingSelf(ideas, k, filters, tenantId) == Evaluate(ideas[k], filters, CountExperimenting(ideas, tenantId))
  {
  }

  /** The IDEA_SCORED event of one evaluation. */
  function ScoredEvent(idea: Idea, resp: IdeaFiltersResponse, experimenting: nat, now: int): Event {
    var r := Evaluate(idea, resp.filters, experimenting);
    Event(idea.tenantId, "IDEA_SCORED", Some(idea.id), now,
          ScoredPayload(RunHardFilters(idea, resp.filters), EvaluatedScores(idea, resp.filters), r.state, resp.version))
  }

  /** `evaluateIdea`: fails, writing nothing, when the tenant has no idea with
      that id; otherwise writes the evaluated row and one IDEA_SCORED event.
      Without a given configuration it reads the tenant's filters.  The cap
      is checked against the tenant's other EXPERIMENTING ideas, the
      corrected count of `EvaluateExcludingSelf`. */
  method EvaluateIdea(db: Db, tenantId: string, ideaId: Id, filtersInput: Option<IdeaFiltersResponse>, now: int)
    returns (r: Result<Idea>)
    requires db.Valid()
    modifies db`ideas, db`events
    ensures db.Valid()
    ensures FindIdea(old(db.ideas), ideaId, tenantId).None? ==>
      r == Err("Idea not found") && db.ideas == old(db.ideas) && db.events == old(db.events)
    ensures FindIdea(old(db.ideas), ideaId, tenantId).Some? ==>
      var k := FindIdea(old(db.ideas), ideaId, tenantId).value;
      var resp := filtersInput.GetOr(GetIdeaFilters(tenantId));
      var c := OthersExperimenting(old(db.ideas), k, tenantId);
      r == Ok(Evaluate(old(db.ideas)[k], resp.filters, c))
      && db.ideas == old(db.ideas)[k := r.value]
      && db.events == old(db.events) + [ScoredEvent(old(db.ideas)[k], resp, c, now)]
  {
    var found := FindIdea(db.ideas, ideaId, tenantId);
    if found.None? {
      return Err("Idea not found");
    }
    var k := found.value;
    var idea := db.ideas[k];
    var resp := filtersInput.GetOr(GetIdeaFilters(tenantId));
    var count := OthersExperimenting(db.ideas, k, tenantId);
    var updated := Evaluate(idea, resp.filters, count);
    db.SetIdea(k, updated);
    db.LogEvent(ScoredEvent(idea, resp, count, now));
    r := Ok(updated);
  }

  /** `updateIdeaState`: the manual override.  The update fails, writing
      nothing, when the tenant has no idea with that id; otherwise only the
      state changes and one IDEA_STATE_CHANGED event is written. */
  method UpdateIdeaState(db: Db, tenantId: string, ideaId: Id, state: IdeaState, now: int)
    returns (r: Result<Idea>)
    requires db.Valid()
    modifies db`ideas, db`events
    ensures db.Valid()
    ensures FindIdea(old(db.ideas), ideaId, tenantId).None? ==>
      r.Err? && db.ideas == old(db.ideas) && db.events == old(db.events)
    ensures FindIdea(old(db.ideas), ideaId, tenantId).Some? ==>
      var k := FindIdea(old(db.ideas), ideaId, tenantId).value;
      r == Ok(old(db.ideas)[k].(state := state)) && db.ideas == old(db.ideas)[k := r.value]
      && db.events == old(db.events) + [Event(tenantId, "IDEA_STATE_CHANGED", Some(ideaId), now, StateChangedPayload(state))]
  {
    var found := FindIdea(db.ideas, ideaId, tenantId);
    if found.None? {
      return Err("Record to update not found");
    }
    var updated := db.ideas[found.value].(state := state);
    db.SetIdea(found.value, updated);
    db.LogEvent(Event(tenantId, "IDEA_STATE_CHANGED", Some(ideaId), now, StateChangedPayload(state)));
    r := Ok(updated);
  }

  /** `logIdeaExperiment`: one new experiment row, its result PENDING unless
      given, and one IDEA_EXPERIMENT_LOGGED event. */
  method LogIdeaExperiment(db: Db, tenantId: string, ideaId: Id, kind: ExperimentType, description: string,
                           result: Option<ExperimentResult>, now: int)
    returns (e: Experiment)
    requires db.Valid()
    modifies db`experiments, db`events, db`nextId
    ensures db.Valid()
    ensures e == Experiment(old(db.nextId), tenantId, ideaId, kind, description, Some(result.GetOr(Pending)))
    ensures db.experiments == old(db.experiments) + [e] && db.nextId == old(db.nextId) + 1
    ensures db.events == old(db.events) + [Event(tenantId, "IDEA_EXPERIMENT_LOGGED", Some(ideaId), now,
                                                 ExperimentLoggedPayload(e.id, kind, result.GetOr(Pending)))]
  {
    e := db.AddExperiment(Experiment(0, tenantId, ideaId, kind, description, Some(result.GetOr(Pending))));
    db.LogEvent(Event(tenantId, "IDEA_EXPERIMENT_LOGGED", Some(ideaId), now,
                      ExperimentLoggedPayload(e.id, kind, result.GetOr(Pending))));
  }

  /** The refresh flow from position `k` on: each of the tenant's ideas is
      evaluated in list order against the store as earlier evaluations left
      it.  Answers the final rows and the IDEA_SCORED events. */
  function RefreshFrom(ideas: seq<Idea>, tenantId: string, resp: IdeaFiltersResponse, now: int, k: nat)
    : (out: (seq<Idea>, seq<Event>))
    requires k <= |ideas|
    ensures |out.0| == |ideas|
    decreases |ideas| - k
  {
    if k == |ideas| then (ideas, [])
    else if ideas[k].tenantId != tenantId then RefreshFrom(ideas, tenantId, resp, now, k + 1)
    else
      var c := OthersExperimenting(ideas, k, tenantId);
      var rest := RefreshFrom(ideas[k := Evaluate(ideas[k], resp.filters, c)], tenantId, resp, now, k + 1);
      (rest.0, [ScoredEvent(ideas[k], resp, c, now)] + rest.1)
  }

  /** The rows as the refresh started at `k` holds them when it reaches
      row `i`: the tenant's rows from `k` up to `i` already evaluated. */
  function RefreshedUpTo(ideas: seq<Idea>, tenantId: string, resp: IdeaFiltersResponse, k: nat, i: nat)
    : (r: seq<Idea>)
    requires k <= i <= |ideas|
    ensures |r| == |ideas|
    ensures forall j :: i <= j < |ideas| ==> r[j] == ideas[j]
    decreases i - k
  {
    if k == i then ideas
    else if ideas[k].tenantId != tenantId then RefreshedUpTo(ideas, tenantId, resp, k + 1, i)
    else RefreshedUpTo(ideas[k := Evaluate(ideas[k], resp.filters, OthersExperimenting(ideas, k, tenantId))],
                       tenantId, resp, k + 1, i)
  }

  /** The refresh leaves the first `k` rows alone, replaces every later row
      of the tenant by its evaluation under the count of the tenant's other
      EXPERIMENTING ideas in the rows as the refresh holds them on reaching
      that row, and leaves other tenants' rows unchanged. */
  lemma {:induction false} RefreshFromShape(ideas: seq<Idea>, tenantId: string, resp: IdeaFiltersResponse, now: int, k: nat)
    requires k <= |ideas|
    ensures var out := RefreshFrom(ideas, tenantId, resp, now, k).0;
      (forall i :: 0 <= i < k ==> out[i] == ideas[i])
      && (forall i :: k <= i < |ideas| && ideas[i].tenantId != tenantId ==> out[i] == ideas[i])
      && (forall i :: k <= i < |ideas| && ideas[i].tenantId == tenantId ==>
            out[i].id == ideas[i].id && out[i].tenantId == tenantId
            && out[i] == Evaluate(ideas[i], resp.filters,
                                  OthersExperimenting(RefreshedUpTo(ideas, tenantId, resp, k, i), i, tenantId)))
    decreases |ideas| - k
  {
    if k < |ideas| {
      if ideas[k].tenantId != tenantId {
        RefreshFromShape(ideas, tenantId, resp, now, k + 1);
        forall i | k < i < |ideas|
          ensures RefreshedUpTo(ideas, tenantId, resp, k, i) == RefreshedUpTo(ideas, tenantId, resp, k + 1, i)
        {
        }
      } else {
        var c := OthersExperimenting(ideas, k, tenantId);
        var next := ideas[k := Evaluate(ideas[k], resp.filters, c)];
        RefreshFromShape(next, tenantId, resp, now, k + 1);
        var out := RefreshFrom(next, tenantId, resp, now, k + 1).0;
        assert out[k] == Evaluate(ideas[k], resp.filters, c);
        forall i | k < i < |ideas|
          ensures next[i] == ideas[i]
          ensures RefreshedUpTo(ideas, tenantId, resp, k, i) == RefreshedUpTo(next, tenantId, resp, k + 1, i)
        {
        }
      }
    }
  }

  /** What the refresh makes of each of the tenant's ideas: KILLED exactly
      when a hard filter fails; a passing idea carries its recomputed total;
      the transformation is kept or drafted; and without a cap the row is
      the idea's evaluation, whatever the other rows. */
  lemma RefreshEvaluatesEachRow(ideas: seq<Idea>, tenantId: string, resp: IdeaFiltersResponse, now: int, i: nat)
    requires i < |ideas| && ideas[i].tenantId == tenantId
    ensures var out := RefreshFrom(ideas, tenantId, resp, now, 0).0;
      var h := RunHardFilters(ideas[i], resp.filters);
      (out[i].state == Killed <==> !PassesAll(h))
      && (PassesAll(h) ==> out[i].totalScore == Some(ScoreIdea(ideas[i], resp.filters).totalScore))
      && (ideas[i].transformation.Some? ==> out[i].transformation == ideas[i].transformation)
      && (ideas[i].transformation.None? ==> out[i].transformation == Some(DraftTransformationStatement(ideas[i])))
      && (resp.filters.maxExperimentingIdeas.None? ==> out[i] == Evaluate(ideas[i], resp.filters, 0))
  {
    RefreshFromShape(ideas, tenantId, resp, now, 0);
    var out := RefreshFrom(ideas, tenantId, resp, now, 0).0;
    var c := OthersExperimenting(RefreshedUpTo(ideas, tenantId, resp, 0, i), i, tenantId);
    KilledIffSomeFilterFails(ideas[i], resp.filters, c);
    if PassesAll(RunHardFilters(ideas[i], resp.filters)) {
      PassedIdeaState(ideas[i], resp.filters, c);
    }
    if resp.filters.maxExperimentingIdeas.None? {
      CountIrrelevantWithoutCap(ideas[i], resp.filters, c);
    }
  }

  /** Without a cap, the count of EXPERIMENTING ideas plays no part. */
  lemma CountIrrelevantWithoutCap(idea: Idea, filters: IdeaFilters, c: nat)
    requires filters.maxExperimentingIdeas.None?
    ensures Evaluate(idea, filters, c) == Evaluate(idea, filters, 0)
  {
    var h := RunHardFilters(idea, filters);
    var s := EvaluatedScores(idea, filters);
    assert DecideState(h, s.totalScore, filters, c) == DecideState(h, s.totalScore, filters, 0);
  }

  /** Under a cap that holds before the refresh, it holds after it. */
  lemma {:induction false} RefreshKeepsCap(ideas: seq<Idea>, tenantId: string, resp: IdeaFiltersResponse, now: int, k: nat)
    requires k <= |ideas|
    requires resp.filters.maxExperimentingIdeas.Some?
    requires CountExperimenting(ideas, tenantId) <= resp.filters.maxExperimentingIdeas.value
    ensures CountExperimenting(RefreshFrom(ideas, tenantId, resp, now, k).0, tenantId) <= resp.filters.maxExperimentingIdeas.value
    decreases |ideas| - k
  {
    if k < |ideas| {
      if ideas[k].tenantId != tenantId {
        RefreshKeepsCap(ideas, tenantId, resp, now, k + 1);
      } else {
        var c := OthersExperimenting(ideas, k, tenantId);
        ExcludingSelfIdempotent(ideas, k, resp.filters, tenantId);
        RefreshKeepsCap(ideas[k := Evaluate(ideas[k], resp.filters, c)], tenantId, resp, now, k + 1);
      }
    }
  }

  /** The (idea id, state) pairs of the tenant's ideas, in list order. */
  function TenantStates(ideas: seq<Idea>, tenantId: string): seq<(Id, IdeaState)> {
    if ideas == [] then []
    else (if ideas[0].tenantId == tenantId then [(ideas[0].id, ideas[0].state)] else [])
         + TenantStates(ideas[1..], tenantId)
  }

  lemma TenantStatesSnoc(ideas: seq<Idea>, x: Idea, tenantId: string)
    ensures TenantStates(ideas + [x], tenantId)
            == TenantStates(ideas, tenantId) + (if x.tenantId == tenantId then [(x.id, x.state)] else [])
  {
    if ideas != [] {
      assert (ideas + [x])[1..] == ideas[1..] + [x];
    }
  }

  /** One step of the refresh on a row of the tenant. */
  lemma RefreshStepTenant(ideas: seq<Idea>, tenantId: string, resp: IdeaFiltersResponse, now: int, k: nat)
    requires k < |ideas| && ideas[k].tenantId == tenantId
    ensures var c := OthersExperimenting(ideas, k, tenantId);
      var rest := RefreshFrom(ideas[k := Evaluate(ideas[k], resp.filters, c)], tenantId, resp, now, k + 1);
      RefreshFrom(ideas, tenantId, resp, now, k) == (rest.0, [ScoredEvent(ideas[k], resp, c, now)] + rest.1)
  {
  }

  lemma EventsStep(start: seq<Event>, logged: seq<Event>, now: seq<Event>, rest: seq<Event>)
    requires start <= logged && exists e :: now == logged + [e]
    ensures start <= now
    ensures now[|start|..] + rest == logged[|start|..] + ([now[|now| - 1]] + rest)
  {
    var e :| now == logged + [e];
    assert now[|start|..] == logged[|start|..] + [e];
  }

  /** Replacing row `k` and taking one more row extends the pairs by at most one. */
  lemma TenantStatesStep(ideas: seq<Idea>, k: nat, x: Idea, tenantId: string)
    requires k < |ideas|
    ensures TenantStates(ideas[k := x][..k + 1], tenantId)
            == TenantStates(ideas[..k], tenantId) + (if x.tenantId == tenantId then [(x.id, x.state)] else [])
  {
    assert ideas[k := x][..k + 1] == ideas[..k] + [x];
    TenantStatesSnoc(ideas[..k], x, tenantId);
  }

  /** What the refresh loop keeps: the rows evaluated so far and the events
      logged so far, followed by the rest of the refresh, give the whole
      refresh; `results` holds the pairs of the rows visited. */
  ghost predicate RefreshInv(ideas: seq<Idea>, events: seq<Event>, start: seq<Event>, k: nat, results: seq<(Id, IdeaState)>,
                             tenantId: string, resp: IdeaFiltersResponse, now: int, spec: (seq<Idea>, seq<Event>), n: nat)
  {
    k <= |ideas| && |ideas| == n && start <= events
    && RefreshFrom(ideas, tenantId, resp, now, k).0 == spec.0
    && events[|start|..] + RefreshFrom(ideas, tenantId, resp, now, k).1 == spec.1
    && results == TenantStates(ideas[..k], tenantId)
  }

  /** One turn of the refresh loop: row `k` is evaluated when it is the
      tenant's and skipped otherwise. */
  method RefreshRow(db: Db, tenantId: string, resp: IdeaFiltersResponse, now: int, k: nat,
                    results: seq<(Id, IdeaState)>, ghost start: seq<Event>, ghost spec: (seq<Idea>, seq<Event>),
                    ghost n: nat)
    returns (results': seq<(Id, IdeaState)>)
    requires db.Valid() && k < |db.ideas|
    requires RefreshInv(db.ideas, db.events, start, k, results, tenantId, resp, now, spec, n)
    modifies db`ideas, db`events
    ensures db.Valid()
    ensures RefreshInv(db.ideas, db.events, start, k + 1, results', tenantId, resp, now, spec, n)
  {
    ghost var before := db.ideas;
    ghost var logged := db.events;
    if db.ideas[k].tenantId == tenantId {
      FindIdeaAt(db.ideas, db.nextId, k);
      var r := EvaluateIdea(db, tenantId, db.ideas[k].id, Some(resp), now);
      assert r.Ok?;
      RefreshStepTenant(before, tenantId, resp, now, k);
      EventsStep(start, logged, db.events, RefreshFrom(db.ideas, tenantId, resp, now, k + 1).1);
      TenantStatesStep(before, k, r.value, tenantId);
      results' := results + [(db.ideas[k].id, r.value.state)];
    } else {
      TenantStatesStep(before, k, before[k], tenantId);
      assert before[k := before[k]] == before;
      results' := results;
    }
  }

  /** `runIdeasRefreshFlow`: one configuration snapshot, FLOW_STARTED, one
      evaluation per idea of the tenant in list order, FLOW_COMPLETED; the
      answer holds one (id, state) pair per idea of the tenant. */
  method RunIdeasRefreshFlow(db: Db, tenantId: string, now: int) returns (results: seq<(Id, IdeaState)>)
    requires db.Valid()
    modifies db`ideas, db`events
    ensures db.Valid()
    ensures var resp := GetIdeaFilters(tenantId);
      var spec := RefreshFrom(old(db.ideas), tenantId, resp, now, 0);
      db.ideas == spec.0
      && db.events == old(db.events) + [Event(tenantId, "FLOW_STARTED", None, now, FlowPayload("ideasRefreshFlow", resp.version))]
                      + spec.1 + [Event(tenantId, "FLOW_COMPLETED", None, now,
                                       RefreshCompletedPayload("ideasRefreshFlow", resp.version, TenantStates(spec.0, tenantId)))]
    ensures results == TenantStates(db.ideas, tenantId)
  {
    var resp := GetIdeaFilters(tenantId);
    db.LogEvent(Event(tenantId, "FLOW_STARTED", None, now, FlowPayload("ideasRefreshFlow", resp.version)));
    ghost var start := db.events;
    ghost var spec := RefreshFrom(db.ideas, tenantId, resp, now, 0);
    ghost var n := |db.ideas|;
    results := [];
    var k := 0;
    assert db.events[|start|..] == [];
    while k < |db.ideas|
      invariant db.Valid()
      invariant RefreshInv(db.ideas, db.events, start, k, results, tenantId, resp, now, spec, n)
    {
      results := RefreshRow(db, tenantId, resp, now, k, results, start, spec, n);
      k := k + 1;
    }
    RefreshDone(db.ideas, db.events, start, results, tenantId, resp, now, spec, n);
    db.LogEvent(Event(tenantId, "FLOW_COMPLETED", None, now, RefreshCompletedPayload("ideasRefreshFlow", resp.version, results)));
  }

  lemma RefreshDone(ideas: seq<Idea>, events: seq<Event>, start: seq<Event>, results: seq<(Id, IdeaState)>,
                    tenantId: string, resp: IdeaFiltersResponse, now: int, spec: (seq<Idea>, seq<Event>), n: nat)
    requires RefreshInv(ideas, events, start, |ideas|, results, tenantId, resp, now, spec, n)
    ensures ideas == spec.0 && events == start + spec.1 && results == TenantStates(ideas, tenantId)
  {
    assert ideas[..|ideas|] == ideas;
    assert events[|start|..] + [] == events[|start|..];
    assert events == start + events[|start|..];
  }
}
