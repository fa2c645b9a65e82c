/** The ideas page's form actions (src/app/founder/ideas/actions.ts):
    `createIdeaAction` validates and stores a new idea, `logExperimentAction`
    validates and logs an experiment. */
module IdeaActions {
  import opened Wrappers
  import opened Text
  import opened Records
  import opened Store
  import opened Forms
  import opened SettingsActions
  import IdeaSelection

  const TitleAndDescriptionRequired: string := "Title and description are required"
  const DescriptionRequired: string := "Description required"
  const UnknownExperimentType: string := "Unknown experiment type"

  /** The fields of a new idea as the form gives them. */
  datatype IdeaForm = IdeaForm(
    title: string, description: string, icpDescription: string, arpuEstimate: Option<real>,
    regulatedConcern: bool, manualWorkHeavy: bool, founderFitSignal: bool)

  /** A checkbox is ticked iff its entry is exactly the text "on". */
  predicate Checked(form: FormData, name: string) {
    Get(form, name) == Some(TextEntry("on"))
  }

  /** The form read as the action reads it: text fields trimmed, the ARPU
      estimate `Number(x) || null`, the three flags from their checkboxes. */
  function ReadIdeaForm(form: FormData): (f: IdeaForm)
    ensures f.title == Trim(StringOf(Get(form, "title"))) && f.description == Trim(StringOf(Get(form, "description")))
    ensures f.icpDescription == Trim(StringOf(Get(form, "icpDescription")))
    ensures f.arpuEstimate.None? <==> !Truthy(ToNumber(Get(form, "arpuEstimate")))
    ensures f.arpuEstimate.Some? ==> f.arpuEstimate.value != 0.0
    ensures f.regulatedConcern <==> Get(form, "regulatedConcern") == Some(TextEntry("on"))
    ensures f.manualWorkHeavy <==> Get(form, "manualWorkHeavy") == Some(TextEntry("on"))
    ensures f.founderFitSignal <==> Get(form, "founderFitSignal") == Some(TextEntry("on"))
  {
    IdeaForm(
      Trim(StringOf(Get(form, "title"))),
      Trim(StringOf(Get(form, "description"))),
      Trim(StringOf(Get(form, "icpDescription"))),
      NumberOrNull(Get(form, "arpuEstimate")),
      Checked(form, "regulatedConcern"),
      Checked(form, "manualWorkHeavy"),
      Checked(form, "founderFitSignal"))
  }

  /** The row `createIdeaAction` inserts (its id comes from the store).  The
      state is the column default, taken here as PENDING_REVIEW. */
  function NewIdeaRow(f: IdeaForm): (x: Idea)
    ensures x.icpDescription.None? <==> f.icpDescription == []
    ensures x.icpDescription.Some? ==> x.icpDescription.value == f.icpDescription
    ensures x.passesMarket.None? && x.totalScore.None? && x.transformation.None?
    ensures x.title == f.title && x.description == f.description && x.tenantId == DemoTenantId
    ensures x.arpuEstimate == f.arpuEstimate
  {
    Idea(0, DemoTenantId, f.title, f.description,
         if f.icpDescription == [] then None else Some(f.icpDescription),
         f.arpuEstimate, f.regulatedConcern, f.manualWorkHeavy, f.founderFitSignal,
         None, None, None, None, None, None, None, None, None,
         PendingReview, [], None)
  }

  /** What the action stores, or its error when the trimmed title or
      description is empty. */
  function CreateIdeaRow(f: IdeaForm): (r: Result<Idea>)
    ensures r.Err? <==> f.title == [] || f.description == []
    ensures r.Ok? ==> r.value.title == f.title && r.value.description == f.description
                      && r.value.tenantId == DemoTenantId
  {
    if f.title == [] || f.description == [] then Err(TitleAndDescriptionRequired) else Ok(NewIdeaRow(f))
  }

  /** A blank ICP entry is stored as null, a missing ARPU entry or one that
      is zero or not a number as a null estimate. */
  lemma BlankFieldsStoredNull(form: FormData)
    requires Get(form, "icpDescription").None? || Get(form, "icpDescription") == Some(TextEntry(""))
             || (Get(form, "icpDescription").Some? && Get(form, "icpDescription").value.TextEntry?
                 && Trim(Get(form, "icpDescription").value.s) == [])
    requires !Truthy(ToNumber(Get(form, "arpuEstimate")))
    ensures NewIdeaRow(ReadIdeaForm(form)).icpDescription.None?
    ensures NewIdeaRow(ReadIdeaForm(form)).arpuEstimate.None?
  {
    var f := ReadIdeaForm(form);
    assert Trim("") == [];
    assert f.icpDescription == [];
  }

  /** The outcome of inserting `row` under the fresh id `nextId`: nothing
      changes on an error; otherwise the row is appended with that id. */
  predicate Inserted(before: seq<Idea>, nextId: nat, after: seq<Idea>, row: Result<Idea>, r: Result<Idea>) {
    match row
    case Err(_) => r == row && after == before
    case Ok(x) => r == Ok(x.(id := nextId)) && after == before + [r.value]
  }

  /** Insert a validated row, or write nothing for an error. */
  method StoreIdea(db: Db, row: Result<Idea>) returns (r: Result<Idea>)
    requires db.Valid()
    modifies db`ideas, db`nextId
    ensures db.Valid()
    ensures Inserted(old(db.ideas), old(db.nextId), db.ideas, row, r)
  {
    if row.Err? {
      r := row;
    } else {
      var x := db.AddIdea(row.value);
      r := Ok(x);
    }
  }

  /** `createIdeaAction`: nothing is stored on a validation error; otherwise
      one idea row is added. */
  method CreateIdeaAction(db: Db, form: FormData) returns (r: Result<Idea>)
    requires db.Valid()
    modifies db`ideas, db`nextId
    ensures db.Valid()
    ensures Inserted(old(db.ideas), old(db.nextId), db.ideas, CreateIdeaRow(ReadIdeaForm(form)), r)
  {
    r := StoreIdea(db, CreateIdeaRow(ReadIdeaForm(form)));
  }

  /** The stored name of each result, as the database keeps it. */
  function ResultText(r: ExperimentResult): string {
    match r
    case Pending => "PENDING"
    case Passed => "PASSED"
    case Failed => "FAILED"
    case Inconclusive => "INCONCLUSIVE"
    case Unrecognized(raw) => raw
  }

  /** The result a text names; any other text is kept as it is. */
  function ParseResult(s: string): (r: ExperimentResult)
    ensures r.Unrecognized? ==> r.raw == s
  {
    if s == "PENDING" then Pending
    else if s == "PASSED" then Passed
    else if s == "FAILED" then Failed
    else if s == "INCONCLUSIVE" then Inconclusive
    else Unrecognized(s)
  }

  /** Reading back a stored result's name gives the result again. */
  lemma ResultTextRoundTrip(r: ExperimentResult)
    requires r.Unrecognized? ==> r.raw !in {"PENDING", "PASSED", "FAILED", "INCONCLUSIVE"}
    ensures ParseResult(ResultText(r)) == r
    ensures ResultText(ParseResult(ResultText(r))) == ResultText(r)
  {
  }

  /** The experiment type a text names. */
  function ParseKind(s: string): (k: Option<ExperimentType>)
    ensures k == Some(SignalTest) <==> s == "SIGNAL"
    ensures k == Some(WorkflowTest) <==> s == "WORKFLOW"
    ensures k == Some(AgentOwnershipTest) <==> s == "AGENT_OWNERSHIP"
  {
    if s == "SIGNAL" then Some(SignalTest)
    else if s == "WORKFLOW" then Some(WorkflowTest)
    else if s == "AGENT_OWNERSHIP" then Some(AgentOwnershipTest)
    else None
  }

  /** An experiment as the form asks for it. */
  datatype ExperimentRequest = ExperimentRequest(kind: ExperimentType, description: string, result: ExperimentResult)

  /** `String(formData.get('result') || 'PENDING')`: the result text, PENDING
      when the entry is missing or empty. */
  function ResultField(v: Option<Entry>): (r: ExperimentResult)
    ensures v.None? || v == Some(TextEntry("")) ==> r == Pending
  {
    match v
    case None => Pending
    case Some(TextEntry(s)) => if s == [] then Pending else ParseResult(s)
    case Some(FileEntry) => ParseResult(FileText)
  }

  /** The experiment the form asks for, or the error: an empty trimmed
      description is refused, and so (in this model) is a type outside the
      three. */
  function ReadExperimentForm(form: FormData): (r: Result<ExperimentRequest>)
    ensures Trim(StringOf(Get(form, "description"))) == [] ==> r == Err(DescriptionRequired)
    ensures r.Ok? ==> r.value.description != [] && r.value.description == Trim(StringOf(Get(form, "description")))
    ensures r.Ok? ==> Some(r.value.kind) == ParseKind(StringOf(Get(form, "type")))
    ensures r.Ok? ==> r.value.result == ResultField(Get(form, "result"))
  {
    var description := Trim(StringOf(Get(form, "description")));
    if description == [] then Err(DescriptionRequired)
    else match ParseKind(StringOf(Get(form, "type")))
      case None => Err(UnknownExperimentType)
      case Some(kind) => Ok(ExperimentRequest(kind, description, ResultField(Get(form, "result"))))
  }

  /** What logging a request does: nothing on an error; otherwise one
      experiment row under the fresh id and one IDEA_EXPERIMENT_LOGGED event. */
  predicate Logged(exps: seq<Experiment>, events: seq<Event>, nextId: nat, exps': seq<Experiment>,
                   events': seq<Event>, ideaId: Id, now: int, q: Result<ExperimentRequest>, r: Result<Experiment>) {
    match q
    case Err(m) => r == Err(m) && exps' == exps && events' == events
    case Ok(x) =>
      r == Ok(Experiment(nextId, DemoTenantId, ideaId, x.kind, x.description, Some(x.result)))
      && exps' == exps + [r.value]
      && events' == events + [Event(DemoTenantId, "IDEA_EXPERIMENT_LOGGED", Some(ideaId), now,
                                    ExperimentLoggedPayload(nextId, x.kind, x.result))]
  }

  /** Log a validated request, or write nothing for an error. */
  method LogRequest(db: Db, ideaId: Id, q: Result<ExperimentRequest>, now: int) returns (r: Result<Experiment>)
    requires db.Valid()
    modifies db`experiments, db`events, db`nextId
    ensures db.Valid()
    ensures Logged(old(db.experiments), old(db.events), old(db.nextId), db.experiments, db.events, ideaId, now, q, r)
  {
    if q.Err? {
      r := Err(q.message);
    } else {
      var e := IdeaSelection.LogIdeaExperiment(db, DemoTenantId, ideaId, q.value.kind, q.value.description,
                                               Some(q.value.result), now);
      r := Ok(e);
    }
  }

  /** `logExperimentAction`: on a valid form, one experiment row and one
      IDEA_EXPERIMENT_LOGGED event for the idea the form names. */
  method LogExperimentAction(db: Db, ideaId: Id, form: FormData, now: int) returns (r: Result<Experiment>)
    requires db.Valid()
    modifies db`experiments, db`events, db`nextId
    ensures db.Valid()
    ensures Logged(old(db.experiments), old(db.events), old(db.nextId), db.experiments, db.events, ideaId, now,
                   ReadExperimentForm(form), r)
  {
    r := LogRequest(db, ideaId, ReadExperimentForm(form), now);
  }
}
