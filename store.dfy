/** The relational store as one object: each table is a sequence of rows in
    insertion order, every row id comes from one counter, and the audit log
    only ever grows. */
module Store {
  import opened Wrappers
  import opened Records

  class Db {
    var ideas: seq<Idea>
    var experiments: seq<Experiment>
    var signals: seq<Signal>
    var subscriptions: seq<Subscription>
    var snapshots: seq<MetricsSnapshot>
    var summaries: seq<FounderSummary>
    var recommendations: seq<ProductRecommendation>
    var archetypes: seq<ArchetypeInstance>
    var archetypeScores: seq<ArchetypeScore>
    var demandTests: seq<DemandTest>
    var businessIntentRows: map<string, BusinessIntentRow>
    var ideaIntentRows: map<string, IdeaIntentRow>
    var events: seq<Event>
    var nextId: nat

    /** Row ids of the tables updated by id are increasing in insertion
        order and below the counter, hence unique. */
    ghost predicate Valid()
      reads this`ideas, this`experiments, this`signals, this`summaries, this`archetypes, this`nextId
    {
      Ascending(IdeaIds(ideas), nextId) && Ascending(ExperimentIds(experiments), nextId)
      && Ascending(SignalIds(signals), nextId) && Ascending(SummaryIds(summaries), nextId)
      && Ascending(ArchetypeIds(archetypes), nextId)
    }

    constructor ()
      ensures Valid()
      ensures ideas == [] && experiments == [] && signals == [] && subscriptions == []
      ensures snapshots == [] && summaries == [] && recommendations == [] && archetypes == []
      ensures archetypeScores == [] && demandTests == [] && events == [] && nextId == 0
      ensures businessIntentRows == map[] && ideaIntentRows == map[]
    {
      ideas, experiments, signals, subscriptions := [], [], [], [];
      snapshots, summaries, recommendations, archetypes := [], [], [], [];
      archetypeScores, demandTests, events, nextId := [], [], [], 0;
      businessIntentRows, ideaIntentRows := map[], map[];
    }

    /** `logEvent`: append one row to the audit log. */
    method LogEvent(e: Event)
      modifies this`events
      ensures events == old(events) + [e]
    {
      events := events + [e];
    }

    /** Insert an experiment row under a fresh id. */
    method AddExperiment(row: Experiment) returns (e: Experiment)
      requires Valid()
      modifies this`experiments, this`nextId
      ensures Valid()
      ensures e == row.(id := old(nextId)) && experiments == old(experiments) + [e] && nextId == old(nextId) + 1
    {
      e := row.(id := nextId);
      assert ExperimentIds(experiments + [e]) == ExperimentIds(experiments) + [nextId];
      AscendingSnoc(ExperimentIds(experiments), nextId);
      RaiseAllBut(nextId);
      experiments := experiments + [e];
      nextId := nextId + 1;
    }

    /** Insert an idea row under a fresh id. */
    method AddIdea(row: Idea) returns (x: Idea)
      requires Valid()
      modifies this`ideas, this`nextId
      ensures Valid()
      ensures x == row.(id := old(nextId)) && ideas == old(ideas) + [x] && nextId == old(nextId) + 1
    {
      x := row.(id := nextId);
      assert IdeaIds(ideas + [x]) == IdeaIds(ideas) + [nextId];
      AscendingSnoc(IdeaIds(ideas), nextId);
      RaiseAllBut(nextId);
      ideas := ideas + [x];
      nextId := nextId + 1;
    }

    /** Insert a signal row under a fresh id. */
    method AddSignal(row: Signal) returns (x: Signal)
      requires Valid()
      modifies this`signals, this`nextId
      ensures Valid()
      ensures x == row.(id := old(nextId)) && signals == old(signals) + [x] && nextId == old(nextId) + 1
    {
      x := row.(id := nextId);
      assert SignalIds(signals + [x]) == SignalIds(signals) + [nextId];
      AscendingSnoc(SignalIds(signals), nextId);
      RaiseAllBut(nextId);
      signals := signals + [x];
      nextId := nextId + 1;
    }

    /** Insert a founder summary under a fresh id. */
    method AddSummary(row: FounderSummary) returns (x: FounderSummary)
      requires Valid()
      modifies this`summaries, this`nextId
      ensures Valid()
      ensures x == row.(id := old(nextId)) && summaries == old(summaries) + [x] && nextId == old(nextId) + 1
    {
      x := row.(id := nextId);
      assert SummaryIds(summaries + [x]) == SummaryIds(summaries) + [nextId];
      AscendingSnoc(SummaryIds(summaries), nextId);
      RaiseAllBut(nextId);
      summaries := summaries + [x];
      nextId := nextId + 1;
    }

    /** Overwrite the idea row at position `k` with a row of the same id. */
    method SetIdea(k: nat, x: Idea)
      requires Valid() && k < |ideas| && x.id == ideas[k].id
      modifies this`ideas
      ensures Valid() && ideas == old(ideas)[k := x]
    {
      IdeaIdsKeep(ideas, nextId, k, x);
      ideas := ideas[k := x];
    }

    /** Overwrite the summary at position `k` with a row of the same id. */
    method SetSummary(k: nat, x: FounderSummary)
      requires Valid() && k < |summaries| && x.id == summaries[k].id
      modifies this`summaries
      ensures Valid() && summaries == old(summaries)[k := x]
    {
      assert SummaryIds(summaries[k := x]) == SummaryIds(summaries);
      summaries := summaries[k := x];
    }

    /** Overwrite the archetype instance at position `k` with a row of the
        same id. */
    method SetArchetype(k: nat, x: ArchetypeInstance)
      requires Valid() && k < |archetypes| && x.id == archetypes[k].id
      modifies this`archetypes
      ensures Valid() && archetypes == old(archetypes)[k := x]
    {
      assert ArchetypeIds(archetypes[k := x]) == ArchetypeIds(archetypes);
      archetypes := archetypes[k := x];
    }

    /** Hand out a fresh id for a row of a table whose ids are not tracked. */
    method FreshId() returns (id: Id)
      requires Valid()
      modifies this`nextId
      ensures Valid()
      ensures id == old(nextId) && nextId == old(nextId) + 1
    {
      RaiseAllBut(nextId);
      id := nextId;
      nextId := nextId + 1;
    }

    /** The id bounds hold one above the counter. */
    lemma RaiseAllBut(n: nat)
      requires Valid() && n == nextId
      ensures Ascending(IdeaIds(ideas), n + 1) && Ascending(ExperimentIds(experiments), n + 1)
      ensures Ascending(SignalIds(signals), n + 1) && Ascending(SummaryIds(summaries), n + 1)
      ensures Ascending(ArchetypeIds(archetypes), n + 1)
    {
      AscendingRaise(IdeaIds(ideas), n, n + 1);
      AscendingRaise(ExperimentIds(experiments), n, n + 1);
      AscendingRaise(SignalIds(signals), n, n + 1);
      AscendingRaise(SummaryIds(summaries), n, n + 1);
      AscendingRaise(ArchetypeIds(archetypes), n, n + 1);
    }
  }

  /** Ids strictly increasing and all below `bound`, read from the last id
      back. */
  ghost predicate Ascending(ids: seq<Id>, bound: nat)
    decreases |ids|
  {
    ids == [] || (ids[|ids| - 1] < bound && Ascending(ids[..|ids| - 1], ids[|ids| - 1]))
  }

  lemma AscendingRaise(ids: seq<Id>, bound: nat, bound': nat)
    requires Ascending(ids, bound) && bound <= bound'
    ensures Ascending(ids, bound')
  {
  }

  /** The row inserted at the counter keeps the ids ascending. */
  lemma AscendingSnoc(ids: seq<Id>, bound: nat)
    requires Ascending(ids, bound)
    ensures Ascending(ids + [bound], bound + 1)
  {
    assert (ids + [bound])[..|ids|] == ids;
  }

  /** Ascending ids are pairwise distinct and below the bound. */
  lemma {:induction false} AscendingSorted(ids: seq<Id>, bound: nat)
    requires Ascending(ids, bound)
    ensures forall i, j :: 0 <= i < j < |ids| ==> ids[i] < ids[j]
    ensures forall i :: 0 <= i < |ids| ==> ids[i] < bound
    decreases |ids|
  {
    if ids != [] {
      var init := ids[..|ids| - 1];
      AscendingSorted(init, ids[|ids| - 1]);
      assert forall i :: 0 <= i < |init| ==> init[i] == ids[i];
    }
  }

  function IdeaIds(s: seq<Idea>): (r: seq<Id>)
    ensures |r| == |s| && forall i :: 0 <= i < |s| ==> r[i] == s[i].id
  {
    seq(|s|, i requires 0 <= i < |s| => s[i].id)
  }

  function ExperimentIds(s: seq<Experiment>): (r: seq<Id>)
    ensures |r| == |s| && forall i :: 0 <= i < |s| ==> r[i] == s[i].id
  {
    seq(|s|, i requires 0 <= i < |s| => s[i].id)
  }

  function SignalIds(s: seq<Signal>): (r: seq<Id>)
    ensures |r| == |s| && forall i :: 0 <= i < |s| ==> r[i] == s[i].id
  {
    seq(|s|, i requires 0 <= i < |s| => s[i].id)
  }

  function SummaryIds(s: seq<FounderSummary>): (r: seq<Id>)
    ensures |r| == |s| && forall i :: 0 <= i < |s| ==> r[i] == s[i].id
  {
    seq(|s|, i requires 0 <= i < |s| => s[i].id)
  }

  function ArchetypeIds(s: seq<ArchetypeInstance>): (r: seq<Id>)
    ensures |r| == |s| && forall i :: 0 <= i < |s| ==> r[i] == s[i].id
  {
    seq(|s|, i requires 0 <= i < |s| => s[i].id)
  }

  ghost predicate IdeaIdsOk(s: seq<Idea>, bound: nat) {
    Ascending(IdeaIds(s), bound)
  }

  /** Replacing a row by one with the same id keeps the ids valid. */
  lemma IdeaIdsKeep(s: seq<Idea>, bound: nat, k: nat, x: Idea)
    requires IdeaIdsOk(s, bound) && k < |s| && x.id == s[k].id
    ensures IdeaIdsOk(s[k := x], bound)
  {
    assert IdeaIds(s[k := x]) == IdeaIds(s);
  }

  /** `findFirst({ where: { id, tenantId } })` on ideas: the position of the
      first row with both the id and the tenant. */
  function FindIdea(s: seq<Idea>, id: Id, tenantId: string): (r: Option<nat>)
    ensures r.Some? ==> r.value < |s| && s[r.value].id == id && s[r.value].tenantId == tenantId
    ensures r.Some? ==> forall i :: 0 <= i < r.value ==> !(s[i].id == id && s[i].tenantId == tenantId)
    ensures r.None? <==> forall i :: 0 <= i < |s| ==> !(s[i].id == id && s[i].tenantId == tenantId)
  {
    if s == [] then None
    else if s[0].id == id && s[0].tenantId == tenantId then Some(0)
    else match FindIdea(s[1..], id, tenantId)
      case None => None
      case Some(k) => Some(k + 1)
  }

  /** With unique ids, a row is found at its own position. */
  lemma FindIdeaAt(s: seq<Idea>, bound: nat, k: nat)
    requires IdeaIdsOk(s, bound) && k < |s|
    ensures FindIdea(s, s[k].id, s[k].tenantId) == Some(k)
  {
    AscendingSorted(IdeaIds(s), bound);
  }

  function FindSummary(s: seq<FounderSummary>, id: Id): (r: Option<nat>)
    ensures r.Some? ==> r.value < |s| && s[r.value].id == id
    ensures r.None? <==> forall i :: 0 <= i < |s| ==> s[i].id != id
  {
    if s == [] then None
    else if s[0].id == id then Some(0)
    else match FindSummary(s[1..], id)
      case None => None
      case Some(k) => Some(k + 1)
  }

  /** With unique ids, a summary is found at its own position. */
  lemma FindSummaryAt(s: seq<FounderSummary>, bound: nat, k: nat)
    requires Ascending(SummaryIds(s), bound) && k < |s|
    ensures FindSummary(s, s[k].id) == Some(k)
  {
    AscendingSorted(SummaryIds(s), bound);
    var r := FindSummary(s, s[k].id);
    assert r.Some?;
    assert SummaryIds(s)[r.value] == SummaryIds(s)[k];
  }

  function FindArchetype(s: seq<ArchetypeInstance>, id: Id, tenantId: string): (r: Option<nat>)
    ensures r.Some? ==> r.value < |s| && s[r.value].id == id && s[r.value].tenantId == tenantId
    ensures r.None? <==> forall i :: 0 <= i < |s| ==> !(s[i].id == id && s[i].tenantId == tenantId)
  {
    if s == [] then None
    else if s[0].id == id && s[0].tenantId == tenantId then Some(0)
    else match FindArchetype(s[1..], id, tenantId)
      case None => None
      case Some(k) => Some(k + 1)
  }

  /** With unique ids, an archetype instance is found at its own position. */
  lemma FindArchetypeAt(s: seq<ArchetypeInstance>, bound: nat, k: nat)
    requires Ascending(ArchetypeIds(s), bound) && k < |s|
    ensures FindArchetype(s, s[k].id, s[k].tenantId) == Some(k)
  {
    AscendingSorted(ArchetypeIds(s), bound);
    var r := FindArchetype(s, s[k].id, s[k].tenantId);
    assert r.Some?;
    assert ArchetypeIds(s)[r.value] == ArchetypeIds(s)[k];
  }
}
