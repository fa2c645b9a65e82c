/** The archetype demand-test flow (src/l2/ideas/archetypeDemandTest.ts):
    a simulated outreach sample sized by the instance's source signals, a
    verdict from its win rate, one stored test, the instance marked with the
    verdict and re-scored, framed by two flow events. */
module ArchetypeDemandTest {
  import opened Wrappers
  import opened Config
  import opened Records
  import opened Store
  import opened ArchetypeScorer

  const InstanceNotFound: string := "Archetype instance not found"
  const CompletedStatus: string := "COMPLETED"
  const PassNotes: string := "Strong signal from outreach sample."
  const FailNotes: string := "Low engagement; consider pausing."
  const InconclusiveNotes: string := "Mixed signals; rerun with refined targeting."

  /** `Math.round`: the nearest integer, halves rounded up. */
  function Round(x: real): (r: int)
    ensures x - 0.5 < r as real <= x + 0.5
  {
    (x + 0.5).Floor
  }

  /** Five contacts per source signal, at least ten. */
  function OutreachCount(signalCount: nat): (o: int)
    ensures o >= 10 && o >= 5 * signalCount
    ensures o == 10 || o == 5 * signalCount
  {
    if 5 * signalCount > 10 then 5 * signalCount else 10
  }

  /** 18% of the outreach, rounded. */
  function PositiveResponses(outreach: int): (p: int)
    requires outreach >= 0
    ensures 0 <= p <= outreach
  {
    Round(outreach as real * 0.18)
  }

  /** 35% of the positive responses, rounded, never negative. */
  function MeetingsBooked(positive: int): (m: int)
    requires positive >= 0
    ensures 0 <= m <= positive
  {
    var x := Round(positive as real * 0.35);
    if x > 0 then x else 0
  }

  /** Half the positive responses, rounded, and at least the meetings. */
  function WillingnessSignals(positive: int, meetings: int): (w: int)
    requires 0 <= meetings <= positive
    ensures meetings <= w <= positive
  {
    var x := Round(positive as real * 0.5);
    if meetings > x then meetings else x
  }

  /** Positive responses per contact, 0 for no outreach. */
  function WinRate(outreach: int, positive: int): real {
    if outreach == 0 then 0.0
    else positive as real / (if outreach > 1 then outreach else 1) as real
  }

  /** PASS from a win rate of 20%, FAIL at or below 5%, INCONCLUSIVE between. */
  function VerdictOf(winRate: real): (v: DemandVerdict)
    ensures v == Pass <==> winRate >= 0.2
    ensures v == Fail <==> winRate <= 0.05
    ensures v == InconclusiveVerdict <==> 0.05 < winRate < 0.2
  {
    if winRate >= 0.2 then Pass else if winRate <= 0.05 then Fail else InconclusiveVerdict
  }

  function NotesFor(v: DemandVerdict): string {
    match v
    case Pass => PassNotes
    case Fail => FailNotes
    case InconclusiveVerdict => InconclusiveNotes
  }

  /** The figures of one simulated outreach sample. */
  datatype Figures = Figures(
    outreachCount: int, positiveResponses: int, meetingsBooked: int, willingnessSignals: int,
    winRate: real, verdict: DemandVerdict)

  function FiguresFor(signalCount: nat): (f: Figures)
    ensures f.verdict == VerdictOf(f.winRate)
  {
    var o := OutreachCount(signalCount);
    var p := PositiveResponses(o);
    var m := MeetingsBooked(p);
    Figures(o, p, m, WillingnessSignals(p, m), WinRate(o, p), VerdictOf(WinRate(o, p)))
  }

  /** The sample narrows: every meeting is a willing contact, every willing
      contact responded, every response came from the outreach. */
  lemma FunnelNarrows(signalCount: nat)
    ensures var f := FiguresFor(signalCount);
      10 <= f.outreachCount && 0 <= f.meetingsBooked <= f.willingnessSignals <= f.positiveResponses <= f.outreachCount
    ensures FiguresFor(signalCount).winRate
              == FiguresFor(signalCount).positiveResponses as real / FiguresFor(signalCount).outreachCount as real
  {
  }

  /** Samples of 10, 15, 20 and 25 contacts get exactly 20% responses. */
  lemma SmallSamples(o: int)
    requires o == 10 || o == 15 || o == 20 || o == 25
    ensures PositiveResponses(o) * 5 == o
  {
    if o == 10 {
      assert 1.8 + 0.5 == 2.3 && (2.3).Floor == 2;
    } else if o == 15 {
      assert 2.7 + 0.5 == 3.2 && (3.2).Floor == 3;
    } else if o == 20 {
      assert 3.6 + 0.5 == 4.1 && (4.1).Floor == 4;
    } else {
      assert 4.5 + 0.5 == 5.0 && (5.0).Floor == 5;
    }
  }

  lemma ProductNonNegative(a: real, b: real)
    requires a >= 0.0 && b >= 0.0
    ensures a * b >= 0.0
  {
  }

  /** A share strictly between 5% and 20% of a positive whole. */
  lemma RatioBetween(p: real, o: real)
    requires o > 0.0 && 0.05 * o < p < 0.2 * o
    ensures 0.05 < p / o < 0.2
  {
    var w := p / o;
    assert w * o == p;
    if w >= 0.2 {
      ProductNonNegative(w - 0.2, o);
    }
    if w <= 0.05 {
      ProductNonNegative(0.05 - w, o);
    }
  }

  /** From 30 contacts on, rounding cannot lift 18% to 20% or drop it to 5%. */
  lemma LargeSample(signalCount: nat)
    requires signalCount >= 6
    ensures 0.05 < FiguresFor(signalCount).winRate < 0.2
  {
    var o := OutreachCount(signalCount);
    var p := PositiveResponses(o);
    var n := signalCount as real;
    assert o as real == 5.0 * n;
    assert 0.9 * n - 0.5 < p as real <= 0.9 * n + 0.5;
    RatioBetween(p as real, o as real);
  }

  /** Up to five source signals the sample passes (exactly 20% respond);
      from six on the win rate stays strictly between 5% and 20%. */
  lemma VerdictBySignalCount(signalCount: nat)
    ensures FiguresFor(signalCount).verdict == (if signalCount <= 5 then Pass else InconclusiveVerdict)
  {
    var f := FiguresFor(signalCount);
    if signalCount <= 5 {
      SmallSamples(f.outreachCount);
      assert f.winRate == f.positiveResponses as real / f.outreachCount as real;
    } else {
      LargeSample(signalCount);
    }
  }

  /** The FAIL verdict and its notes are never produced. */
  lemma NeverFails(signalCount: nat)
    ensures FiguresFor(signalCount).verdict != Fail
    ensures NotesFor(FiguresFor(signalCount).verdict) != FailNotes
  {
    VerdictBySignalCount(signalCount);
  }

  /** The test row stored for an instance with `signalCount` source signals. */
  function TestRow(id: Id, tenantId: string, instanceId: Id, signalCount: nat, now: int): (t: DemandTest)
    ensures t.status == CompletedStatus && t.verdict == FiguresFor(signalCount).verdict
    ensures t.notes == NotesFor(t.verdict)
  {
    var f := FiguresFor(signalCount);
    DemandTest(id, tenantId, instanceId, CompletedStatus, f.outreachCount, f.positiveResponses,
               f.meetingsBooked, f.willingnessSignals, f.verdict, NotesFor(f.verdict), now)
  }

  /** The instance after the flow: the test's verdict and time, then the
      scorer's axes when its pattern is known. */
  function AfterDemandTest(framework: ArchetypeFramework, inst: ArchetypeInstance, t: DemandTest): ArchetypeInstance {
    var marked := inst.(lastDemandTestAt := Some(t.createdAt), lastDemandTestVerdict := Some(t.verdict));
    match ScoreAxes(framework, marked)
    case None => marked
    case Some(a) => WithScore(marked, a, t.createdAt)
  }

  /** The score row the scorer adds, if any. */
  function ScoreRows(framework: ArchetypeFramework, id: Id, tenantId: string, inst: ArchetypeInstance): seq<ArchetypeScore> {
    match ScoreAxes(framework, inst)
    case None => []
    case Some(a) => [ArchetypeScore(id, tenantId, inst.id, a, AxesTotal(a))]
  }

  function StartedEvent(tenantId: string, instanceId: Id, now: int): Event {
    Event(tenantId, "FLOW_STARTED", None, now, DemandTestStartedPayload(instanceId))
  }

  function CompletedEvent(tenantId: string, t: DemandTest): Event {
    Event(tenantId, "FLOW_COMPLETED", None, t.createdAt,
          DemandTestCompletedPayload(t.instanceId, t.verdict, t.outreachCount, t.positiveResponses, t.meetingsBooked))
  }

  /** Mark the instance at `k` with the test, then run the scorer on it
      with the given framework (the flow passes the default one). */
  method MarkAndRescore(db: Db, framework: ArchetypeFramework, tenantId: string, k: nat, t: DemandTest)
    requires db.Valid() && k < |db.archetypes| && db.archetypes[k].tenantId == tenantId
    modifies db`archetypes, db`archetypeScores, db`nextId
    ensures db.Valid()
    ensures db.archetypes == old(db.archetypes)[k := AfterDemandTest(framework, old(db.archetypes)[k], t)]
    ensures db.archetypeScores == old(db.archetypeScores) + ScoreRows(framework, old(db.nextId), tenantId, old(db.archetypes)[k])
    ensures db.nextId == old(db.nextId) + |ScoreRows(framework, old(db.nextId), tenantId, old(db.archetypes)[k])|
  {
    var inst := db.archetypes[k];
    var marked := inst.(lastDemandTestAt := Some(t.createdAt), lastDemandTestVerdict := Some(t.verdict));
    db.SetArchetype(k, marked);
    FindArchetypeAt(db.archetypes, db.nextId, k);
    assert ScoreAxes(framework, marked) == ScoreAxes(framework, inst);
    var _ := RunArchetypeScorer(db, tenantId, inst.id, framework, t.createdAt);
  }

  /** `runArchetypeDemandTestFlow`: an error, writing nothing, when the
      tenant has no such instance; otherwise two flow events around one
      stored test, the instance marked and re-scored. */
  method RunArchetypeDemandTest(db: Db, tenantId: string, instanceId: Id, now: int) returns (r: Result<DemandTest>)
    requires db.Valid()
    modifies db`archetypes, db`archetypeScores, db`demandTests, db`events, db`nextId
    ensures db.Valid()
    ensures r.Err? <==> FindArchetype(old(db.archetypes), instanceId, tenantId).None?
    ensures r.Err? ==> r.message == InstanceNotFound && db.archetypes == old(db.archetypes)
                       && db.archetypeScores == old(db.archetypeScores) && db.demandTests == old(db.demandTests)
                       && db.events == old(db.events) && db.nextId == old(db.nextId)
    ensures r.Ok? ==>
      var k := FindArchetype(old(db.archetypes), instanceId, tenantId).value;
      var inst := old(db.archetypes)[k];
      r.value == TestRow(old(db.nextId), tenantId, instanceId, |inst.sourceSignalIds|, now)
      && db.demandTests == old(db.demandTests) + [r.value]
      && db.events == old(db.events) + [StartedEvent(tenantId, instanceId, now), CompletedEvent(tenantId, r.value)]
      && db.archetypes == old(db.archetypes)[k := AfterDemandTest(DefaultFramework, inst, r.value)]
      && db.archetypeScores == old(db.archetypeScores) + ScoreRows(DefaultFramework, old(db.nextId) + 1, tenantId, inst)
      && db.nextId == old(db.nextId) + 1 + |ScoreRows(DefaultFramework, old(db.nextId) + 1, tenantId, inst)|
  {
    var found := FindArchetype(db.archetypes, instanceId, tenantId);
    if found.None? {
      return Err(InstanceNotFound);
    }
    var t := TestInstance(db, DefaultFramework, tenantId, instanceId, found.value, now);
    r := Ok(t);
  }

  /** The flow for the instance at `k`: two flow events around one stored
      test, the instance marked and re-scored. */
  method TestInstance(db: Db, framework: ArchetypeFramework, tenantId: string, instanceId: Id, k: nat, now: int) returns (t: DemandTest)
    requires db.Valid() && k < |db.archetypes| && db.archetypes[k].tenantId == tenantId
    modifies db`archetypes, db`archetypeScores, db`demandTests, db`events, db`nextId
    ensures db.Valid()
    ensures
      var inst := old(db.archetypes)[k];
      t == TestRow(old(db.nextId), tenantId, instanceId, |inst.sourceSignalIds|, now)
      && db.demandTests == old(db.demandTests) + [t]
      && db.events == old(db.events) + [StartedEvent(tenantId, instanceId, now), CompletedEvent(tenantId, t)]
      && db.archetypes == old(db.archetypes)[k := AfterDemandTest(framework, inst, t)]
      && db.archetypeScores == old(db.archetypeScores) + ScoreRows(framework, old(db.nextId) + 1, tenantId, inst)
      && db.nextId == old(db.nextId) + 1 + |ScoreRows(framework, old(db.nextId) + 1, tenantId, inst)|
  {
    t := StoreTest(db, tenantId, instanceId, |db.archetypes[k].sourceSignalIds|, now);
    MarkAndRescore(db, framework, tenantId, k, t);
    db.LogEvent(CompletedEvent(tenantId, t));
  }

  /** The flow's first half: the FLOW_STARTED event, then the test row under
      a fresh id. */
  method StoreTest(db: Db, tenantId: string, instanceId: Id, signalCount: nat, now: int) returns (t: DemandTest)
    requires db.Valid()
    modifies db`demandTests, db`events, db`nextId
    ensures db.Valid()
    ensures t == TestRow(old(db.nextId), tenantId, instanceId, signalCount, now)
    ensures db.demandTests == old(db.demandTests) + [t]
    ensures db.events == old(db.events) + [StartedEvent(tenantId, instanceId, now)]
    ensures db.nextId == old(db.nextId) + 1
  {
    db.LogEvent(StartedEvent(tenantId, instanceId, now));
    var id := db.FreshId();
    t := TestRow(id, tenantId, instanceId, signalCount, now);
    db.demandTests := db.demandTests + [t];
  }

  /** The instance after the flow carries the stored verdict, and its score
      fields agree with the score row added beside it. */
  lemma InstanceMatchesTest(framework: ArchetypeFramework, inst: ArchetypeInstance, t: DemandTest, id: Id, tenantId: string)
    ensures AfterDemandTest(framework, inst, t).lastDemandTestVerdict == Some(t.verdict)
    ensures AfterDemandTest(framework, inst, t).lastDemandTestAt == Some(t.createdAt)
    ensures AfterDemandTest(framework, inst, t).id == inst.id
    ensures |ScoreRows(framework, id, tenantId, inst)| == 1 ==>
      AfterDemandTest(framework, inst, t).totalScore == Some(ScoreRows(framework, id, tenantId, inst)[0].totalScore)
  {
    var marked := inst.(lastDemandTestAt := Some(t.createdAt), lastDemandTestVerdict := Some(t.verdict));
    assert ScoreAxes(framework, marked) == ScoreAxes(framework, inst);
  }
}
