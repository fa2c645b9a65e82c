/** The weekly founder summary flow and its approval
    (src/l2/ops/weeklyFounderSummary.ts): a summary is generated as DRAFT,
    moved to PENDING_APPROVAL at once, and published by approval. */
module WeeklyFounderSummary {
  import opened Wrappers
  import opened Config
  import opened Records
  import opened Store
  import opened Ordering
  import opened MetricsAggregation
  import opened FounderSummaryAgent

  const PendingReview := "PENDING_REVIEW"
  const WeeklyFlowName := "weeklyFounderSummaryFlow"
  const FlowStartedKind := "FLOW_STARTED"
  const FlowCompletedKind := "FLOW_COMPLETED"
  const ApprovalRequestedKind := "FOUNDERSUMMARY_APPROVAL_REQUESTED"
  const ApprovedKind := "FOUNDERSUMMARY_APPROVED"
  const PublishedKind := "FOUNDERSUMMARY_PUBLISHED"

  const Week: int := 7 * Day

  /** Instances without a score sort below every scored one. */
  const UnscoredRank: int := -1

  function EventRank(e: Event): Rank {
    Rank(e.createdAt, 0)
  }

  function RecommendationRank(r: ProductRecommendation): Rank {
    Rank(r.createdAt, 0)
  }

  function ArchetypeRank(a: ArchetypeInstance): Rank {
    Rank(a.totalScore.GetOr(UnscoredRank), a.updatedAt)
  }

  /** The tenant's events of the last seven days, newest first, at most 20. */
  function RecentEvents(events: seq<Event>, tenantId: string, now: int): seq<Event> {
    Query(events, (e: Event) => e.tenantId == tenantId && e.createdAt >= now - Week, EventRank, 20)
  }

  /** The tenant's recommendations in PENDING_REVIEW, newest first, at most 5. */
  function PendingSpendRecommendations(recs: seq<ProductRecommendation>, tenantId: string): seq<ProductRecommendation> {
    Query(recs, (r: ProductRecommendation) => r.tenantId == tenantId && r.status == PendingReview,
          RecommendationRank, 5)
  }

  function AsTopRow(a: ArchetypeInstance): TopArchetypeRow {
    TopArchetypeRow(a.id, a.name, a.totalScore, a.lastDemandTestVerdict, a.lastDemandTestAt)
  }

  /** The instances the top-archetypes read selects: the tenant's, by score,
      then by last update, both highest first, at most 5. */
  function TopArchetypeInstances(archs: seq<ArchetypeInstance>, tenantId: string): seq<ArchetypeInstance> {
    Query(archs, OfTenant(tenantId), ArchetypeRank, 5)
  }

  /** `where: { tenantId }` on archetype instances. */
  function OfTenant(tenantId: string): ArchetypeInstance -> bool {
    (a: ArchetypeInstance) => a.tenantId == tenantId
  }

  /** The selected instances with the selected columns. */
  function TopArchetypes(archs: seq<ArchetypeInstance>, tenantId: string): (r: seq<TopArchetypeRow>)
    ensures |r| <= 5
  {
    var rows := TopArchetypeInstances(archs, tenantId);
    seq(|rows|, i requires 0 <= i < |rows| => AsTopRow(rows[i]))
  }

  /** Each top row shows one of the tenant's instances; the instances come
      by score, then by last update, highest first; no instance of the
      tenant that is left out ranks above one that is shown; and when the
      tenant has at most five instances, all of them are shown. */
  lemma TopArchetypesProperties(archs: seq<ArchetypeInstance>, tenantId: string)
    ensures var src := TopArchetypeInstances(archs, tenantId);
      var r := TopArchetypes(archs, tenantId);
      |r| == |src| <= 5
      && (forall i :: 0 <= i < |r| ==> r[i] == AsTopRow(src[i]) && src[i] in archs && src[i].tenantId == tenantId)
      && (forall i, j :: 0 <= i < j < |src| ==> RankLe(ArchetypeRank(src[j]), ArchetypeRank(src[i])))
      && (forall x, i :: x in archs && x.tenantId == tenantId && x !in src && 0 <= i < |src| ==>
            RankLe(ArchetypeRank(x), ArchetypeRank(src[i])))
    ensures |Filter(archs, OfTenant(tenantId))| <= 5 ==>
      forall x :: x in archs && x.tenantId == tenantId ==> x in TopArchetypeInstances(archs, tenantId)
  {
    var p := OfTenant(tenantId);
    var src := TopArchetypeInstances(archs, tenantId);
    var r := TopArchetypes(archs, tenantId);
    QueryProperties(archs, p, ArchetypeRank, 5);
    QueryLeftOut(archs, p, ArchetypeRank, 5);
    assert forall i :: 0 <= i < |src| ==> src[i] in src && p(src[i]);
    assert forall x :: p(x) <==> x.tenantId == tenantId;
    assert SortedDesc(src, ArchetypeRank);
  }

  /** The recent events are the tenant's, of the last seven days, newest
      first, and at most 20. */
  lemma RecentEventsProperties(events: seq<Event>, tenantId: string, now: int)
    ensures var r := RecentEvents(events, tenantId, now);
      |r| <= 20 && SortedDesc(r, EventRank)
      && forall e :: e in r ==> e in events && e.tenantId == tenantId && e.createdAt >= now - Week
  {
    QueryProperties(events, (e: Event) => e.tenantId == tenantId && e.createdAt >= now - Week, EventRank, 20);
  }

  /** The recommendations read are the tenant's pending ones, newest first,
      at most 5. */
  lemma PendingRecommendationsProperties(recs: seq<ProductRecommendation>, tenantId: string)
    ensures var r := PendingSpendRecommendations(recs, tenantId);
      |r| <= 5 && SortedDesc(r, RecommendationRank)
      && forall x :: x in r ==> x in recs && x.tenantId == tenantId && x.status == PendingReview
  {
    QueryProperties(recs, (r: ProductRecommendation) => r.tenantId == tenantId && r.status == PendingReview,
                    RecommendationRank, 5);
  }

  function FlowStarted(tenantId: string, version: string, now: int): Event {
    Event(tenantId, FlowStartedKind, None, now, FlowPayload(WeeklyFlowName, version))
  }

  function SnapshotCreated(tenantId: string, id: Id, now: int): Event {
    Event(tenantId, SnapshotCreatedKind, Some(id), now, SnapshotPayload(id))
  }

  function SummaryGenerated(tenantId: string, id: Id, now: int): Event {
    Event(tenantId, SummaryGeneratedKind, Some(id), now, SummaryPayload(id))
  }

  function ApprovalRequested(tenantId: string, id: Id, version: string, now: int): Event {
    Event(tenantId, ApprovalRequestedKind, Some(id), now, VersionPayload(version))
  }

  function FlowCompleted(tenantId: string, id: Id, now: int): Event {
    Event(tenantId, FlowCompletedKind, None, now, SummaryPayload(id))
  }

  /** `prisma.founderSummary.update({ where: { id }, data: { state } })`:
      an error, and no write, when no summary has the id. */
  method SetSummaryState(db: Db, id: Id, state: SummaryState) returns (r: Result<FounderSummary>)
    requires db.Valid()
    modifies db`summaries
    ensures db.Valid()
    ensures match FindSummary(old(db.summaries), id)
      case None => r.Err? && db.summaries == old(db.summaries)
      case Some(k) => r == Ok(old(db.summaries)[k].(state := state)) && db.summaries == old(db.summaries)[k := r.value]
  {
    match FindSummary(db.summaries, id)
    case None =>
      r := Err("Record to update not found.");
    case Some(k) =>
      var updated := db.summaries[k].(state := state);
      db.SetSummary(k, updated);
      r := Ok(updated);
  }

  /** The summary the weekly flow generates: from the new snapshot and the
      store's recent events, recommendations and archetypes. */
  function WeeklyDraft(tenantId: string, snapshot: MetricsSnapshot, events: seq<Event>, intent: BusinessIntent,
                       recs: seq<ProductRecommendation>, archs: seq<ArchetypeInstance>, id: Id, now: int): FounderSummary {
    SummaryRow(tenantId, snapshot, RecentEvents(events, tenantId, now), intent,
               PendingSpendRecommendations(recs, tenantId), TopArchetypes(archs, tenantId)).(id := id)
  }

  /** The summary the weekly flow leaves behind, in PENDING_APPROVAL. */
  function WeeklySummary(tenantId: string, snapshot: MetricsSnapshot, events: seq<Event>, intent: BusinessIntent,
                         recs: seq<ProductRecommendation>, archs: seq<ArchetypeInstance>, id: Id, now: int): FounderSummary {
    WeeklyDraft(tenantId, snapshot, events, intent, recs, archs, id, now).(state := PendingApproval)
  }

  /** The flow's opening: FLOW_STARTED and a new snapshot of the tenant's
      subscriptions, with the events it logs. */
  method StartWeekly(db: Db, tenantId: string, version: string, now: int)
    returns (snapshot: MetricsSnapshot, ghost read: seq<Event>)
    requires db.Valid()
    modifies db`snapshots, db`nextId, db`events
    ensures db.Valid()
    ensures snapshot == Snapshot(old(db.nextId), tenantId, db.subscriptions, now)
    ensures db.snapshots == old(db.snapshots) + [snapshot] && db.nextId == old(db.nextId) + 1
    ensures read == old(db.events) + [FlowStarted(tenantId, version, now), SnapshotCreated(tenantId, old(db.nextId), now)]
    ensures db.events == read
  {
    db.LogEvent(FlowStarted(tenantId, version, now));
    snapshot := RunMetricsAggregation(db, tenantId, None, now);
    read := db.events;
  }

  /** The first half of the flow: FLOW_STARTED, a new snapshot, the three
      reads and a new DRAFT summary. */
  method GenerateWeekly(db: Db, tenantId: string, resp: BusinessIntentResponse, now: int)
    returns (summary: FounderSummary, ghost read: seq<Event>)
    requires db.Valid()
    modifies db`snapshots, db`summaries, db`nextId, db`events
    ensures db.Valid()
    ensures read == old(db.events) + [FlowStarted(tenantId, resp.version, now), SnapshotCreated(tenantId, old(db.nextId), now)]
    ensures var snapshot := Snapshot(old(db.nextId), tenantId, db.subscriptions, now);
      db.snapshots == old(db.snapshots) + [snapshot]
      && summary == WeeklyDraft(tenantId, snapshot, read, resp.intent, db.recommendations, db.archetypes,
                                old(db.nextId) + 1, now)
    ensures db.summaries == old(db.summaries) + [summary] && db.nextId == old(db.nextId) + 2
    ensures db.events == read + [SummaryGenerated(tenantId, summary.id, now)]
  {
    var snapshot;
    snapshot, read := StartWeekly(db, tenantId, resp.version, now);
    var recentEvents := RecentEvents(db.events, tenantId, now);
    var recs := PendingSpendRecommendations(db.recommendations, tenantId);
    var archs := TopArchetypes(db.archetypes, tenantId);
    summary := RunFounderSummary(db, tenantId, snapshot, recentEvents, resp.intent, recs, archs, now);
  }

  /** The second half of the flow: the new summary, the last row, moves to
      PENDING_APPROVAL and the flow logs APPROVAL_REQUESTED and
      FLOW_COMPLETED. */
  method RequestApproval(db: Db, tenantId: string, summary: FounderSummary, version: string, now: int)
    requires db.Valid() && |db.summaries| > 0 && db.summaries[|db.summaries| - 1] == summary
    modifies db`summaries, db`events
    ensures db.Valid()
    ensures db.summaries == old(db.summaries)[..|old(db.summaries)| - 1] + [summary.(state := PendingApproval)]
    ensures db.events == old(db.events) + [ApprovalRequested(tenantId, summary.id, version, now),
                                           FlowCompleted(tenantId, summary.id, now)]
  {
    FindSummaryAt(db.summaries, db.nextId, |db.summaries| - 1);
    var r := SetSummaryState(db, summary.id, PendingApproval);
    assert db.summaries == old(db.summaries)[..|old(db.summaries)| - 1] + [summary.(state := PendingApproval)];
    db.LogEvent(ApprovalRequested(tenantId, summary.id, version, now));
    db.LogEvent(FlowCompleted(tenantId, summary.id, now));
  }

  /** `runWeeklyFounderSummaryFlow`: one new snapshot and one new summary,
      left in PENDING_APPROVAL, and the events FLOW_STARTED,
      METRICS_SNAPSHOT_CREATED, FOUNDERSUMMARY_GENERATED,
      FOUNDERSUMMARY_APPROVAL_REQUESTED and FLOW_COMPLETED in that order.
      The recent events are read after the first two are logged. */
  method RunWeeklyFounderSummaryFlow(db: Db, tenantId: string, now: int) returns (summaryId: Id)
    requires db.Valid()
    modifies db`snapshots, db`summaries, db`nextId, db`events
    ensures db.Valid()
    ensures var resp := GetBusinessIntent(tenantId);
      var snapshotId := old(db.nextId);
      var snapshot := Snapshot(snapshotId, tenantId, db.subscriptions, now);
      var read := old(db.events) + [FlowStarted(tenantId, resp.version, now), SnapshotCreated(tenantId, snapshotId, now)];
      summaryId == old(db.nextId) + 1
      && db.snapshots == old(db.snapshots) + [snapshot]
      && db.summaries == old(db.summaries)
                         + [WeeklySummary(tenantId, snapshot, read, resp.intent, db.recommendations, db.archetypes, summaryId, now)]
      && db.events == read + [SummaryGenerated(tenantId, summaryId, now), ApprovalRequested(tenantId, summaryId, resp.version, now),
                              FlowCompleted(tenantId, summaryId, now)]
  {
    var resp := GetBusinessIntent(tenantId);
    ghost var s0 := db.summaries;
    var summary, read := GenerateWeekly(db, tenantId, resp, now);
    ghost var e1 := db.events;
    RequestApproval(db, tenantId, summary, resp.version, now);
    assert (s0 + [summary])[..|s0|] == s0;
    AppendThree(read, SummaryGenerated(tenantId, summary.id, now), ApprovalRequested(tenantId, summary.id, resp.version, now),
                FlowCompleted(tenantId, summary.id, now));
    summaryId := summary.id;
  }

  lemma AppendThree<T>(s: seq<T>, x: T, y: T, z: T)
    ensures s + [x] + [y, z] == s + [x, y, z]
  {
  }

  /** The snapshot the flow builds has no runway, so the runway alert never
      fires in a weekly summary. */
  lemma WeeklyNoRunwayAlert(id: Id, tenantId: string, subs: seq<Subscription>, periodEnd: int, intent: BusinessIntent)
    ensures RunwayBelowThreshold !in Alerts(Snapshot(id, tenantId, subs, periodEnd), intent)
  {
  }

  /** `approveFounderSummary`: the summary becomes PUBLISHED whatever its
      state and whichever tenant it belongs to, and FOUNDERSUMMARY_APPROVED
      then FOUNDERSUMMARY_PUBLISHED are logged; an unknown id is an error
      with no write. */
  method ApproveFounderSummary(db: Db, summaryId: Id, tenantId: string, now: int) returns (r: Result<FounderSummary>)
    requires db.Valid()
    modifies db`summaries, db`events
    ensures db.Valid()
    ensures match FindSummary(old(db.summaries), summaryId)
      case None => r.Err? && db.summaries == old(db.summaries) && db.events == old(db.events)
      case Some(k) =>
        r == Ok(old(db.summaries)[k].(state := Published))
        && db.summaries == old(db.summaries)[k := r.value]
        && db.events == old(db.events) + [Event(tenantId, ApprovedKind, Some(summaryId), now, NoPayload),
                                          Event(tenantId, PublishedKind, Some(summaryId), now, NoPayload)]
  {
    r := SetSummaryState(db, summaryId, Published);
    if r.Err? {
      return;
    }
    db.LogEvent(Event(tenantId, ApprovedKind, Some(summaryId), now, NoPayload));
    db.LogEvent(Event(tenantId, PublishedKind, Some(summaryId), now, NoPayload));
  }
}
