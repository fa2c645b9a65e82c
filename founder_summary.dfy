/** The founder summary agent (src/l1/ops/founderSummary.ts): a churn rate,
    alerts against the business intent's thresholds, a narrative and a
    capped list of recommended actions, stored as a DRAFT summary. */
module FounderSummaryAgent {
  import opened Wrappers
  import opened Config
  import opened Records
  import opened Store
  import opened Text

  const SummaryGeneratedKind := "FOUNDERSUMMARY_GENERATED"
  const GtmPrefix := "GTM_"

  /** An archetype as the summary reads it: the selected columns. */
  datatype TopArchetypeRow = TopArchetypeRow(
    id: Id, name: string, totalScore: Option<int>, lastDemandTestVerdict: Option<DemandVerdict>,
    lastDemandTestAt: Option<int>)

  function Min(a: int, b: int): int {
    if a <= b then a else b
  }

  /** Churned MRR over MRR, and 0 when there is no MRR. */
  function ChurnRate(s: MetricsSnapshot): (r: real)
    ensures s.mrr == 0 ==> r == 0.0
    ensures s.mrr != 0 ==> r * (s.mrr as real) == s.churnedMrr as real
  {
    if s.mrr == 0 then 0.0 else s.churnedMrr as real / s.mrr as real
  }

  /** A nullable number used as a condition: set and not zero. */
  predicate Truthy(x: Option<real>) {
    x.Some? && x.value != 0.0
  }

  function Alerts(s: MetricsSnapshot, intent: BusinessIntent): seq<Alert> {
    (if ChurnRate(s) > intent.alertChurnRate then [ChurnAboveGuardrail] else [])
    + (if Truthy(intent.alertRunwayMonths) && Truthy(s.runwayMonths)
          && s.runwayMonths.value < intent.alertRunwayMonths.value
       then [RunwayBelowThreshold] else [])
  }

  /** The churn alert is raised exactly when the churn rate exceeds the
      threshold; the runway alert exactly when both the threshold and the
      snapshot's runway are set and non-zero and the runway is below the
      threshold; the churn alert comes first. */
  lemma AlertsRaised(s: MetricsSnapshot, intent: BusinessIntent)
    ensures ChurnAboveGuardrail in Alerts(s, intent) <==> ChurnRate(s) > intent.alertChurnRate
    ensures RunwayBelowThreshold in Alerts(s, intent) <==>
      intent.alertRunwayMonths.Some? && intent.alertRunwayMonths.value != 0.0
      && s.runwayMonths.Some? && s.runwayMonths.value != 0.0
      && s.runwayMonths.value < intent.alertRunwayMonths.value
    ensures |Alerts(s, intent)| <= 2
    ensures |Alerts(s, intent)| == 2 ==> Alerts(s, intent) == [ChurnAboveGuardrail, RunwayBelowThreshold]
  {
  }

  /** `type.replace(/_/g, ' ')`. */
  function UnderscoresToSpaces(s: string): string {
    seq(|s|, i requires 0 <= i < |s| => if s[i] == '_' then ' ' else s[i])
  }

  function Bullet(rec: ProductRecommendation): RecommendationLine {
    RecommendationBullet(rec.vendorName, UnderscoresToSpaces(rec.kind), rec.potentialSavingsCents)
  }

  /** The count line and one bullet for each of the first three
      recommendations, or the single "no pending recommendations" line. */
  function RecommendationLines(recs: seq<ProductRecommendation>): seq<RecommendationLine> {
    if recs == [] then [NoPendingRecommendations]
    else [PendingRecommendations(|recs|)] + seq(Min(3, |recs|), i requires 0 <= i < Min(3, |recs|) => Bullet(recs[i]))
  }

  /** At most four lines: the count and at most three bullets, the first
      recommendations' in order. */
  lemma RecommendationLinesShape(recs: seq<ProductRecommendation>)
    ensures var lines := RecommendationLines(recs);
      (recs == [] ==> lines == [NoPendingRecommendations])
      && (recs != [] ==>
            |lines| == 1 + Min(3, |recs|) && lines[0] == PendingRecommendations(|recs|)
            && forall i :: 1 <= i < |lines| ==> lines[i] == Bullet(recs[i - 1]))
  {
  }

  function LabelOf(v: Option<DemandVerdict>): VerdictLabel {
    match v
    case Some(Pass) => PassLabel
    case Some(Fail) => FailLabel
    case Some(InconclusiveVerdict) => InconclusiveLabel
    case None => NotTestedLabel
  }

  /** A header and one bullet for each of the first three archetypes; nothing
      when there are none. */
  function ArchetypeLines(archs: seq<TopArchetypeRow>): seq<ArchetypeLine> {
    if archs == [] then []
    else [ArchetypesHeader] + seq(Min(3, |archs|), i requires 0 <= i < Min(3, |archs|) =>
                                   ArchetypeBullet(archs[i].name, archs[i].totalScore, LabelOf(archs[i].lastDemandTestVerdict)))
  }

  /** No lines without archetypes; otherwise the header and at most three
      bullets, the first archetypes' in order. */
  lemma ArchetypeLinesShape(archs: seq<TopArchetypeRow>)
    ensures var lines := ArchetypeLines(archs);
      (archs == [] <==> lines == [])
      && (archs != [] ==>
            |lines| == 1 + Min(3, |archs|) && lines[0] == ArchetypesHeader
            && forall i :: 1 <= i < |lines| ==>
                 lines[i] == ArchetypeBullet(archs[i - 1].name, archs[i - 1].totalScore, LabelOf(archs[i - 1].lastDemandTestVerdict)))
  {
  }

  function NarrativeOf(s: MetricsSnapshot, intent: BusinessIntent, recs: seq<ProductRecommendation>,
                       archs: seq<TopArchetypeRow>): SummaryNarrative {
    SummaryNarrative(ChurnRate(s), Alerts(s, intent), RecommendationLines(recs), ArchetypeLines(archs))
  }

  /** Events whose type starts with GtmPrefix, in input order. */
  function GtmEvents(events: seq<Event>): (r: seq<Event>)
    ensures |r| <= |events|
  {
    if events == [] then []
    else (if StartsWith(events[0].kind, GtmPrefix) then [events[0]] else []) + GtmEvents(events[1..])
  }

  /** Exactly the GTM_ events are kept. */
  lemma {:induction false} GtmEventsExact(events: seq<Event>)
    ensures forall e :: e in GtmEvents(events) <==> e in events && StartsWith(e.kind, GtmPrefix)
  {
    if events != [] {
      GtmEventsExact(events[1..]);
      assert events == [events[0]] + events[1..];
    }
  }

  /** One follow-up for each of the first two GTM_ events. */
  function FollowUps(events: seq<Event>): seq<Action> {
    var g := GtmEvents(events);
    seq(Min(2, |g|), i requires 0 <= i < Min(2, |g|) => FollowUp(Lower(g[i].kind)))
  }

  /** At most two follow-ups, for the first GTM_ events in input order. */
  lemma FollowUpsShape(events: seq<Event>)
    ensures var r := FollowUps(events);
      |r| <= 2 && |r| <= |GtmEvents(events)|
      && forall i :: 0 <= i < |r| ==> r[i] == FollowUp(Lower(GtmEvents(events)[i].kind))
  {
  }

  /** `find` by recommendation type. */
  function FirstOfKind(recs: seq<ProductRecommendation>, kind: string): (r: Option<nat>)
    ensures r.Some? ==> r.value < |recs|
  {
    if recs == [] then None
    else if recs[0].kind == kind then Some(0)
    else match FirstOfKind(recs[1..], kind)
      case None => None
      case Some(k) => Some(k + 1)
  }

  /** `find` answers the first recommendation of the type, and nothing
      when there is none. */
  lemma {:induction false} FirstOfKindIsFirst(recs: seq<ProductRecommendation>, kind: string)
    ensures var r := FirstOfKind(recs, kind);
      (r.Some? ==> recs[r.value].kind == kind && forall i :: 0 <= i < r.value ==> recs[i].kind != kind)
      && (r.None? <==> forall i :: 0 <= i < |recs| ==> recs[i].kind != kind)
  {
    if recs != [] && recs[0].kind != kind {
      FirstOfKindIsFirst(recs[1..], kind);
      assert forall i :: 1 <= i < |recs| ==> recs[i] == recs[1..][i - 1];
    }
  }

  const HighSpend := "HIGH_SPEND"
  const UpcomingRenewal := "UPCOMING_RENEWAL"

  /** A spend review for the first HIGH_SPEND recommendation and a renewal
      decision for the first UPCOMING_RENEWAL one. */
  function SpendActions(recs: seq<ProductRecommendation>): seq<Action> {
    (match FirstOfKind(recs, HighSpend)
     case Some(k) => [ReviewSpend(recs[k].vendorName)]
     case None => [])
    + (match FirstOfKind(recs, UpcomingRenewal)
       case Some(k) => [DecideBeforeRenewal(recs[k].vendorName, recs[k].periodEnd)]
       case None => [])
  }

  /** An archetype is a top candidate when its score is set, non-zero and at
      least 10. */
  predicate Qualifies(a: TopArchetypeRow) {
    a.totalScore.Some? && a.totalScore.value != 0 && a.totalScore.value >= 10
  }

  function Score(a: TopArchetypeRow): int {
    a.totalScore.GetOr(0)
  }

  /** The position of the first element of the qualifying archetypes sorted
      by score, highest first, with a stable sort. */
  function TopIndex(archs: seq<TopArchetypeRow>): (r: Option<nat>)
    ensures r.Some? ==> r.value < |archs|
  {
    if archs == [] then None
    else match TopIndex(archs[1..])
      case None => if Qualifies(archs[0]) then Some(0) else None
      case Some(k) =>
        if Qualifies(archs[0]) && Score(archs[k + 1]) <= Score(archs[0]) then Some(0) else Some(k + 1)
  }

  /** The top archetype qualifies, no qualifying archetype scores higher and
      every earlier qualifying one scores lower; there is none exactly when
      none qualifies. */
  lemma {:induction false} TopIndexIsFirstBest(archs: seq<TopArchetypeRow>)
    ensures TopIndex(archs).None? <==> forall i :: 0 <= i < |archs| ==> !Qualifies(archs[i])
    ensures TopIndex(archs).Some? ==> IsFirstBest(archs, TopIndex(archs).value)
  {
    if archs != [] {
      TopIndexIsFirstBest(archs[1..]);
      var rest := archs[1..];
      assert forall i :: 1 <= i < |archs| ==> archs[i] == rest[i - 1];
      match TopIndex(rest)
      case None =>
      case Some(k) =>
        if !(Qualifies(archs[0]) && Score(archs[k + 1]) <= Score(archs[0])) {
          assert IsFirstBest(rest, k);
        }
    }
  }

  ghost predicate IsFirstBest(archs: seq<TopArchetypeRow>, t: nat) {
    t < |archs| && Qualifies(archs[t])
    && (forall i :: 0 <= i < |archs| && Qualifies(archs[i]) ==> Score(archs[i]) <= Score(archs[t]))
    && (forall i :: 0 <= i < t && Qualifies(archs[i]) ==> Score(archs[i]) < Score(archs[t]))
  }

  /** The action for the top archetype: double down after a PASS, run a
      demand test when untested, refine after INCONCLUSIVE, nothing after a
      FAIL. */
  function ArchetypeAction(archs: seq<TopArchetypeRow>): (r: seq<Action>)
    ensures TopIndex(archs).None? ==> r == []
    ensures TopIndex(archs).Some? ==>
      var a := archs[TopIndex(archs).value];
      |r| == (if a.lastDemandTestVerdict == Some(Fail) then 0 else 1)
  {
    match TopIndex(archs)
    case None => []
    case Some(k) =>
      var a := archs[k];
      match a.lastDemandTestVerdict
      case Some(Pass) => [DoubleDown(a.name)]
      case None => [RunDemandTest(a.name, a.totalScore)]
      case Some(InconclusiveVerdict) => [RefineTargeting(a.name)]
      case Some(Fail) => []
  }

  /** The first two pushes: more top of funnel when new MRR is under 5% of
      the target, and a churn review when an alert was raised. */
  function FirstActions(s: MetricsSnapshot, alerts: seq<Alert>, intent: BusinessIntent): (r: seq<Action>)
    ensures ReviewChurnedAccounts in r <==> alerts != []
    ensures alerts != [] ==> r[|r| - 1] == ReviewChurnedAccounts && |r| <= 2
    ensures StayTheCourse !in r
  {
    (if (s.newMrr as real) < intent.targetMrr * 0.05 then [IncreaseTopOfFunnel] else [])
    + (if alerts != [] then [ReviewChurnedAccounts] else [])
  }

  /** The later pushes: follow-ups, spend actions and the archetype action. */
  function LaterActions(events: seq<Event>, recs: seq<ProductRecommendation>, archs: seq<TopArchetypeRow>): seq<Action> {
    FollowUps(events) + (if recs != [] then SpendActions(recs) else []) + ArchetypeAction(archs)
  }

  /** Neither the churn review nor the fallback is among the later pushes. */
  lemma LaterActionsKinds(events: seq<Event>, recs: seq<ProductRecommendation>, archs: seq<TopArchetypeRow>)
    ensures ReviewChurnedAccounts !in LaterActions(events, recs, archs)
    ensures StayTheCourse !in LaterActions(events, recs, archs)
  {
    FollowUpsShape(events);
  }

  /** The actions before the fallback and the cap, in push order. */
  function CandidateActions(s: MetricsSnapshot, alerts: seq<Alert>, intent: BusinessIntent, events: seq<Event>,
                            recs: seq<ProductRecommendation>, archs: seq<TopArchetypeRow>): seq<Action> {
    FirstActions(s, alerts, intent) + LaterActions(events, recs, archs)
  }

  /** `slice(0, n)`. */
  function Cap(all: seq<Action>, n: nat): (r: seq<Action>)
    ensures |r| == Min(n, |all|) && forall i :: 0 <= i < |r| ==> r[i] == all[i]
  {
    all[..Min(n, |all|)]
  }

  /** Only what the list holds survives the cut. */
  lemma CapMember(all: seq<Action>, n: nat, x: Action)
    requires x in Cap(all, n)
    ensures x in all
  {
    var i :| 0 <= i < |Cap(all, n)| && Cap(all, n)[i] == x;
    assert all[i] == x;
  }

  /** `buildRecommendedActions`: the candidate actions, or the single
      "stay the course" action when there are none, cut to `maxActions`. */
  function BuildRecommendedActions(s: MetricsSnapshot, alerts: seq<Alert>, intent: BusinessIntent, events: seq<Event>,
                                   recs: seq<ProductRecommendation>, archs: seq<TopArchetypeRow>): (actions: seq<Action>)
    ensures |actions| <= intent.maxActions
  {
    var raw := CandidateActions(s, alerts, intent, events, recs, archs);
    Cap(if raw == [] then [StayTheCourse] else raw, intent.maxActions)
  }

  /** The fallback is emitted alone, and exactly when no other action was
      produced. */
  lemma FallbackExactlyWhenEmpty(s: MetricsSnapshot, alerts: seq<Alert>, intent: BusinessIntent, events: seq<Event>,
                                 recs: seq<ProductRecommendation>, archs: seq<TopArchetypeRow>)
    requires intent.maxActions >= 1
    ensures var actions := BuildRecommendedActions(s, alerts, intent, events, recs, archs);
      (StayTheCourse in actions <==> CandidateActions(s, alerts, intent, events, recs, archs) == [])
      && (StayTheCourse in actions ==> actions == [StayTheCourse])
  {
    var raw := CandidateActions(s, alerts, intent, events, recs, archs);
    var actions := BuildRecommendedActions(s, alerts, intent, events, recs, archs);
    if raw != [] {
      LaterActionsKinds(events, recs, archs);
      assert StayTheCourse !in raw;
      if StayTheCourse in actions {
        CapMember(raw, intent.maxActions, StayTheCourse);
      }
    } else {
      assert actions == [StayTheCourse];
    }
  }

  /** With room for two actions, "review churned accounts" is recommended
      exactly when an alert was raised. */
  lemma ReviewChurnIffAlerts(s: MetricsSnapshot, alerts: seq<Alert>, intent: BusinessIntent, events: seq<Event>,
                             recs: seq<ProductRecommendation>, archs: seq<TopArchetypeRow>)
    requires intent.maxActions >= 2
    ensures ReviewChurnedAccounts in BuildRecommendedActions(s, alerts, intent, events, recs, archs) <==> alerts != []
  {
    var first := FirstActions(s, alerts, intent);
    var raw := CandidateActions(s, alerts, intent, events, recs, archs);
    var all := if raw == [] then [StayTheCourse] else raw;
    var actions := BuildRecommendedActions(s, alerts, intent, events, recs, archs);
    LaterActionsKinds(events, recs, archs);
    if alerts != [] {
      assert raw[|first| - 1] == ReviewChurnedAccounts;
      assert actions[|first| - 1] == ReviewChurnedAccounts;
    } else {
      assert ReviewChurnedAccounts !in all;
      if ReviewChurnedAccounts in actions {
        CapMember(all, intent.maxActions, ReviewChurnedAccounts);
      }
    }
  }

  /** A FAIL verdict on the top archetype contributes no action. */
  lemma FailedArchetypeNoAction(archs: seq<TopArchetypeRow>)
    requires TopIndex(archs).Some? && archs[TopIndex(archs).value].lastDemandTestVerdict == Some(Fail)
    ensures ArchetypeAction(archs) == []
  {
  }

  /** The summary row as `runFounderSummaryAgent` creates it, before the
      store gives it an id: in state DRAFT. */
  function SummaryRow(tenantId: string, snapshot: MetricsSnapshot, recentEvents: seq<Event>, intent: BusinessIntent,
                      recs: seq<ProductRecommendation>, archs: seq<TopArchetypeRow>): (r: FounderSummary)
    ensures r.state == Draft && r.snapshotId == snapshot.id && r.periodEnd == snapshot.periodEnd
    ensures |r.recommendedActions| <= intent.maxActions
  {
    FounderSummary(0, tenantId, snapshot.id, snapshot.periodEnd, NarrativeOf(snapshot, intent, recs, archs),
                   BuildRecommendedActions(snapshot, Alerts(snapshot, intent), intent, recentEvents, recs, archs), Draft)
  }

  /** `runFounderSummaryAgent`: the summary is stored under a fresh id and
      FOUNDERSUMMARY_GENERATED is logged. */
  method RunFounderSummary(db: Db, tenantId: string, snapshot: MetricsSnapshot, recentEvents: seq<Event>,
                           intent: BusinessIntent, recs: seq<ProductRecommendation>, archs: seq<TopArchetypeRow>,
                           now: int)
    returns (summary: FounderSummary)
    requires db.Valid()
    modifies db`summaries, db`nextId, db`events
    ensures db.Valid()
    ensures summary == SummaryRow(tenantId, snapshot, recentEvents, intent, recs, archs).(id := old(db.nextId))
    ensures db.summaries == old(db.summaries) + [summary] && db.nextId == old(db.nextId) + 1
    ensures db.events == old(db.events)
                         + [Event(tenantId, SummaryGeneratedKind, Some(summary.id), now, SummaryPayload(summary.id))]
  {
    summary := db.AddSummary(SummaryRow(tenantId, snapshot, recentEvents, intent, recs, archs));
    db.LogEvent(Event(tenantId, SummaryGeneratedKind, Some(summary.id), now, SummaryPayload(summary.id)));
  }
}
