/** The archetype scorer (src/l1/ideas/archetypeScorer.ts): look up an
    instance's pattern and ICP option in the framework, read the five axis
    heuristics, store them with their sum as a score row and copy them onto
    the instance. */
module ArchetypeScorer {
  import opened Wrappers
  import opened Config
  import opened Records
  import opened Store

  /** `framework.patterns.find((p) => p.key === key)`, as a position. */
  function FindPattern(patterns: seq<ArchetypePattern>, key: string): (r: Option<nat>)
    ensures r.Some? ==> r.value < |patterns| && patterns[r.value].key == key
    ensures r.Some? ==> forall i :: 0 <= i < r.value ==> patterns[i].key != key
    ensures r.None? <==> forall i :: 0 <= i < |patterns| ==> patterns[i].key != key
  {
    if patterns == [] then None
    else if patterns[0].key == key then Some(0)
    else match FindPattern(patterns[1..], key)
      case None => None
      case Some(k) => Some(k + 1)
  }

  /** `icpOptions.find((o) => o.key === icpKey)`, as a position; a null key
      equals no option's key. */
  function FindIcpOption(options: seq<ArchetypeIcp>, icpKey: Option<string>): (r: Option<nat>)
    ensures r.Some? ==> r.value < |options| && icpKey == Some(options[r.value].key)
    ensures r.None? <==> forall i :: 0 <= i < |options| ==> icpKey != Some(options[i].key)
  {
    if options == [] then None
    else if icpKey == Some(options[0].key) then Some(0)
    else match FindIcpOption(options[1..], icpKey)
      case None => None
      case Some(k) => Some(k + 1)
  }

  /** The ICP option the scorer reads: the one with the instance's key, else
      the pattern's first option, else none. */
  function ChooseIcp(p: ArchetypePattern, icpKey: Option<string>): (r: Option<ArchetypeIcp>)
    ensures r.None? <==> p.icpOptions == []
    ensures r.Some? ==> r.value in p.icpOptions
    ensures (exists i :: 0 <= i < |p.icpOptions| && icpKey == Some(p.icpOptions[i].key)) ==>
              r.Some? && icpKey == Some(r.value.key)
    ensures (forall i :: 0 <= i < |p.icpOptions| ==> icpKey != Some(p.icpOptions[i].key)) && p.icpOptions != [] ==>
              r == Some(p.icpOptions[0])
  {
    match FindIcpOption(p.icpOptions, icpKey)
    case Some(k) => Some(p.icpOptions[k])
    case None => if p.icpOptions == [] then None else Some(p.icpOptions[0])
  }

  /** Every axis at 1, for a pattern without ICP options. */
  const DefaultAxes := ArchetypeAxes(1, 1, 1, 1, 1)

  function AxesOf(icp: Option<ArchetypeIcp>): ArchetypeAxes {
    match icp
    case Some(o) =>
      var h := o.heuristics;
      ArchetypeAxes(h.monetization, h.dataSurface, h.agentLeverage, h.reachability, h.osFit)
    case None => DefaultAxes
  }

  /** The total score: the five axes summed. */
  function AxesTotal(a: ArchetypeAxes): int {
    a.monetization + a.dataSurface + a.agentLeverage + a.reachability + a.osFit
  }

  predicate AxesInRange(a: ArchetypeAxes) {
    1 <= a.monetization <= 3 && 1 <= a.dataSurface <= 3 && 1 <= a.agentLeverage <= 3
    && 1 <= a.reachability <= 3 && 1 <= a.osFit <= 3
  }

  /** The axes the scorer finds for an instance, or none when the
      framework has no pattern with the instance's key. */
  function ScoreAxes(framework: ArchetypeFramework, inst: ArchetypeInstance): (r: Option<ArchetypeAxes>)
    ensures r.None? <==> FindPattern(framework.patterns, inst.patternKey).None?
    ensures r.Some? && framework.patterns[FindPattern(framework.patterns, inst.patternKey).value].icpOptions == [] ==>
              r.value == DefaultAxes
  {
    match FindPattern(framework.patterns, inst.patternKey)
    case None => None
    case Some(p) => Some(AxesOf(ChooseIcp(framework.patterns[p], inst.icpKey)))
  }

  /** With heuristics inside the schema's 1..3, every axis is in 1..3 and
      the total in 5..15. */
  lemma ScoreBounds(framework: ArchetypeFramework, inst: ArchetypeInstance)
    requires ValidFramework(framework) && ScoreAxes(framework, inst).Some?
    ensures AxesInRange(ScoreAxes(framework, inst).value)
    ensures 5 <= AxesTotal(ScoreAxes(framework, inst).value) <= 15
  {
    var p := FindPattern(framework.patterns, inst.patternKey).value;
    var pattern := framework.patterns[p];
    assert ValidPattern(pattern);
    var icp := ChooseIcp(pattern, inst.icpKey);
    if icp.Some? {
      var o :| 0 <= o < |pattern.icpOptions| && pattern.icpOptions[o] == icp.value;
      assert ValidHeuristics(pattern.icpOptions[o].heuristics);
    }
  }

  /** The default framework scores every instance whose pattern it knows
      within the bounds. */
  lemma DefaultFrameworkScoreBounds(inst: ArchetypeInstance)
    requires ScoreAxes(DefaultFramework, inst).Some?
    ensures 5 <= AxesTotal(ScoreAxes(DefaultFramework, inst).value) <= 15
  {
    DefaultFrameworkValid();
    ScoreBounds(DefaultFramework, inst);
  }

  /** The instance after scoring: axes, total and the time of the score. */
  function WithScore(inst: ArchetypeInstance, axes: ArchetypeAxes, now: int): ArchetypeInstance {
    inst.(scores := Some(axes), totalScore := Some(AxesTotal(axes)), scoreUpdatedAt := Some(now))
  }

  /** `runArchetypeScorerAgent`: null, writing nothing, when the tenant has
      no such instance or its pattern is unknown; otherwise one score row is
      added and the instance carries the same axes and total. */
  method RunArchetypeScorer(db: Db, tenantId: string, instanceId: Id, framework: ArchetypeFramework, now: int)
    returns (r: Option<ArchetypeScore>)
    requires db.Valid()
    modifies db`archetypes, db`archetypeScores, db`nextId
    ensures db.Valid()
    ensures r.None? <==> FindArchetype(old(db.archetypes), instanceId, tenantId).None?
                         || ScoreAxes(framework, old(db.archetypes)[FindArchetype(old(db.archetypes), instanceId, tenantId).value]).None?
    ensures r.None? ==> db.archetypes == old(db.archetypes) && db.archetypeScores == old(db.archetypeScores)
                        && db.nextId == old(db.nextId)
    ensures r.Some? ==>
      var k := FindArchetype(old(db.archetypes), instanceId, tenantId).value;
      var inst := old(db.archetypes)[k];
      var axes := ScoreAxes(framework, inst).value;
      r.value == ArchetypeScore(old(db.nextId), tenantId, inst.id, axes, AxesTotal(axes))
      && db.archetypeScores == old(db.archetypeScores) + [r.value]
      && db.archetypes == old(db.archetypes)[k := WithScore(inst, r.value.axes, now)]
      && db.nextId == old(db.nextId) + 1
  {
    var found := FindArchetype(db.archetypes, instanceId, tenantId);
    if found.None? {
      return None;
    }
    var k := found.value;
    var inst := db.archetypes[k];
    var axes := ScoreAxes(framework, inst);
    if axes.None? {
      return None;
    }
    var id := db.FreshId();
    var score := ArchetypeScore(id, tenantId, inst.id, axes.value, AxesTotal(axes.value));
    db.archetypeScores := db.archetypeScores + [score];
    db.SetArchetype(k, WithScore(inst, score.axes, now));
    r := Some(score);
  }

  /** The stored instance agrees with the score row it was given. */
  lemma InstanceMatchesScoreRow(inst: ArchetypeInstance, score: ArchetypeScore, now: int)
    requires score.totalScore == AxesTotal(score.axes)
    ensures WithScore(inst, score.axes, now).scores == Some(score.axes)
    ensures WithScore(inst, score.axes, now).totalScore == Some(score.totalScore)
    ensures WithScore(inst, score.axes, now).id == inst.id
  {
  }
}
