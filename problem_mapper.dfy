/** The problem mapper (src/l1/ideas/problemMapper.ts): signals are put into
    the bucket of the first category template with a keyword in their
    lowercased content, and every non-empty bucket yields one candidate. */
module ProblemMapper {
  import opened Wrappers
  import opened Text
  import opened Config
  import opened Records

  /** The output of the mapper; every template sets the ICP and the ARPU. */
  datatype IdeaCandidate = IdeaCandidate(
    title: string, description: string, icpDescription: string,
    arpuEstimate: real, sourceSignalIds: seq<Id>)

  /** A category template; `arpuMinimum` is the figure the ARPU floor is
      raised to, or None where the template takes the floor as it is. */
  datatype CategoryTemplate = CategoryTemplate(
    id: string, keywords: seq<string>, title: string, description: string,
    icpDescription: string, arpuMinimum: Option<real>)

  const Templates: seq<CategoryTemplate> := [
    CategoryTemplate("inbox-spend", ["invoice", "vendor", "renewal", "spend", "auto-renew"],
      "Inbox Spend Guardian Autopilot",
      "Agents monitor inboxes for invoices, flag risky renewals, and push curated savings actions with evidence.",
      "Agencies and finance leads juggling 20+ SaaS vendors via Gmail/Outlook.", Some(150.0)),
    CategoryTemplate("mrr-briefing", ["mrr", "stripe", "cfo", "quickbooks", "forecast"],
      "AI Finance Briefing Partner",
      "Pulls Stripe + billing data, drafts weekly CFO-ready narratives, and highlights churn / expansion anomalies.",
      "Fractional CFOs and founders < $5M ARR.", Some(120.0)),
    CategoryTemplate("revops-guardian", ["crm", "pipeline", "revops", "salesforce", "hubspot"],
      "RevOps Signal Watch",
      "Agents watch CRM hygiene, pipeline risk, and ops alerts, then recommend playbooks for AEs/CSMs.",
      "Seed/Series A B2B teams with lean RevOps.", Some(100.0)),
    CategoryTemplate("support-compressor", ["support", "tickets", "feedback", "feature request"],
      "Support Intelligence Compressor",
      "Summarizes support tickets, groups themes, and powers weekly product/CS actions.",
      "B2B teams with >200 monthly tickets.", None),
    CategoryTemplate("partner-copilot", ["partner", "upsell", "client account"],
      "Client Growth Copilot",
      "Monitors client accounts for renewals, usage drops, upsell triggers, and drafts outreach.",
      "Agencies and services firms with recurring retainers.", Some(130.0))
  ]

  function MaxReal(a: real, b: real): real {
    if a >= b then a else b
  }

  function Ids(signals: seq<Signal>): (ids: seq<Id>)
    ensures |ids| == |signals| && forall i :: 0 <= i < |signals| ==> ids[i] == signals[i].id
  {
    seq(|signals|, i requires 0 <= i < |signals| => signals[i].id)
  }

  /** `template.build`: the template's texts, the bucket's ids in order, and
      the floor raised to the template's minimum. */
  function Build(t: CategoryTemplate, bucket: seq<Signal>, arpuFloor: real): (c: IdeaCandidate)
    ensures c.title == t.title && c.description == t.description && c.icpDescription == t.icpDescription
    ensures c.sourceSignalIds == Ids(bucket)
    ensures c.arpuEstimate >= arpuFloor
    ensures t.arpuMinimum.Some? ==> c.arpuEstimate >= t.arpuMinimum.value
    ensures c.arpuEstimate == arpuFloor || (t.arpuMinimum.Some? && c.arpuEstimate == t.arpuMinimum.value)
  {
    var arpu := match t.arpuMinimum
      case None => arpuFloor
      case Some(m) => MaxReal(arpuFloor, m);
    IdeaCandidate(t.title, t.description, t.icpDescription, arpu, Ids(bucket))
  }

  /** The first template from index `from` on with a keyword occurring in
      the lowercased text (`CATEGORY_TEMPLATES.find`). */
  function FirstMatchFrom(templates: seq<CategoryTemplate>, lower: string, from: nat): (r: Option<nat>)
    requires from <= |templates|
    ensures r.Some? ==> from <= r.value < |templates|
    decreases |templates| - from
  {
    if from == |templates| then None
    else if AnyHit(lower, templates[from].keywords) then Some(from)
    else FirstMatchFrom(templates, lower, from + 1)
  }

  /** The match found is the first template with a keyword in the text; no
      match means no template has one. */
  lemma {:induction false} FirstMatchFromIsFirst(templates: seq<CategoryTemplate>, lower: string, from: nat)
    requires from <= |templates|
    ensures var r := FirstMatchFrom(templates, lower, from);
      (r.Some? ==> AnyHit(lower, templates[r.value].keywords)
                   && forall u :: from <= u < r.value ==> !AnyHit(lower, templates[u].keywords))
      && (r.None? <==> forall u :: from <= u < |templates| ==> !AnyHit(lower, templates[u].keywords))
    decreases |templates| - from
  {
    if from < |templates| && !AnyHit(lower, templates[from].keywords) {
      FirstMatchFromIsFirst(templates, lower, from + 1);
    }
  }

  /** The bucket a signal goes to, if any. */
  function Category(templates: seq<CategoryTemplate>, s: Signal): Option<nat> {
    FirstMatchFrom(templates, Lower(s.content), 0)
  }

  /** The signals of bucket `t`, in input order. */
  function Bucket(templates: seq<CategoryTemplate>, signals: seq<Signal>, t: nat): seq<Signal> {
    if signals == [] then []
    else Bucket(templates, signals[..|signals| - 1], t)
         + (if Category(templates, signals[|signals| - 1]) == Some(t) then [signals[|signals| - 1]] else [])
  }

  lemma BucketSnoc(templates: seq<CategoryTemplate>, signals: seq<Signal>, x: Signal, t: nat)
    ensures Bucket(templates, signals + [x], t)
            == Bucket(templates, signals, t) + (if Category(templates, x) == Some(t) then [x] else [])
  {
    assert (signals + [x])[..|signals|] == signals;
  }

  /** A bucket holds exactly the signals whose first matching template is its own. */
  lemma {:induction false} BucketMembers(templates: seq<CategoryTemplate>, signals: seq<Signal>, t: nat)
    ensures forall x :: x in Bucket(templates, signals, t) <==> x in signals && Category(templates, x) == Some(t)
  {
    if signals != [] {
      var init := signals[..|signals| - 1];
      BucketMembers(templates, init, t);
      assert signals == init + [signals[|signals| - 1]];
    }
  }

  lemma {:induction false} BucketOfNothing(templates: seq<CategoryTemplate>, t: nat)
    ensures Bucket(templates, [], t) == []
  {
  }

  /** The bucket of every template, in template order. */
  function Buckets(templates: seq<CategoryTemplate>, signals: seq<Signal>): (bs: seq<seq<Signal>>)
    ensures |bs| == |templates|
  {
    seq(|templates|, t requires 0 <= t < |templates| => Bucket(templates, signals, t))
  }

  /** The candidates of the first `k` buckets: one per non-empty bucket, in
      template order. */
  function Emit(templates: seq<CategoryTemplate>, bs: seq<seq<Signal>>, arpuFloor: real, k: nat): (cs: seq<IdeaCandidate>)
    requires k <= |templates| == |bs|
    ensures |cs| <= k
  {
    if k == 0 then []
    else Emit(templates, bs, arpuFloor, k - 1)
         + (if bs[k - 1] != [] then [Build(templates[k - 1], bs[k - 1], arpuFloor)] else [])
  }

  /** The mapper's result. */
  function Candidates(signals: seq<Signal>, filters: IdeaFilters): seq<IdeaCandidate> {
    Emit(Templates, Buckets(Templates, signals), filters.arpuFloor, |Templates|)
  }

  /** The templates the candidates come from, in order. */
  function EmittedTemplates(bs: seq<seq<Signal>>, k: nat): seq<nat>
    requires k <= |bs|
  {
    if k == 0 then [] else EmittedTemplates(bs, k - 1) + (if bs[k - 1] != [] then [k - 1] else [])
  }

  /** Candidate `j` is built from template `src[j]` and its bucket, which
      is not empty. */
  ghost predicate BuiltFrom(templates: seq<CategoryTemplate>, bs: seq<seq<Signal>>, arpuFloor: real,
                            cs: seq<IdeaCandidate>, src: seq<nat>, k: nat)
    requires |templates| == |bs|
  {
    |cs| == |src|
    && forall j :: 0 <= j < |src| ==>
         src[j] < k && k <= |bs| && bs[src[j]] != [] && cs[j] == Build(templates[src[j]], bs[src[j]], arpuFloor)
  }

  lemma {:induction false} EmitShape(templates: seq<CategoryTemplate>, bs: seq<seq<Signal>>, arpuFloor: real, k: nat)
    requires k <= |templates| == |bs|
    ensures BuiltFrom(templates, bs, arpuFloor, Emit(templates, bs, arpuFloor, k), EmittedTemplates(bs, k), k)
  {
    if k > 0 {
      EmitShape(templates, bs, arpuFloor, k - 1);
      var cs := Emit(templates, bs, arpuFloor, k - 1);
      var src := EmittedTemplates(bs, k - 1);
      if bs[k - 1] != [] {
        var c := Build(templates[k - 1], bs[k - 1], arpuFloor);
        assert Emit(templates, bs, arpuFloor, k) == cs + [c];
        assert EmittedTemplates(bs, k) == src + [k - 1];
      } else {
        assert Emit(templates, bs, arpuFloor, k) == cs;
        assert EmittedTemplates(bs, k) == src;
      }
    }
  }

  /** Strictly increasing and below `k`. */
  ghost predicate IncreasingBelow(src: seq<nat>, k: nat) {
    (forall j :: 0 <= j < |src| ==> src[j] < k) && (forall j1, j2 :: 0 <= j1 < j2 < |src| ==> src[j1] < src[j2])
  }

  /** The templates of the candidates are strictly increasing. */
  lemma {:induction false} EmittedTemplatesAscending(bs: seq<seq<Signal>>, k: nat)
    requires k <= |bs|
    ensures IncreasingBelow(EmittedTemplates(bs, k), k)
  {
    if k > 0 {
      EmittedTemplatesAscending(bs, k - 1);
      var src := EmittedTemplates(bs, k - 1);
      var srcK := EmittedTemplates(bs, k);
      if bs[k - 1] != [] {
        assert srcK == src + [k - 1];
        forall j1, j2 | 0 <= j1 < j2 < |srcK| ensures srcK[j1] < srcK[j2] {
          assert srcK[j1] == src[j1];
          if j2 < |src| {
            assert srcK[j2] == src[j2];
          }
        }
      } else {
        assert srcK == src;
      }
    }
  }

  /** Every non-empty bucket yields a candidate. */
  lemma {:induction false} EmittedTemplatesCover(bs: seq<seq<Signal>>, k: nat)
    requires k <= |bs|
    ensures forall t :: 0 <= t < k && bs[t] != [] ==> t in EmittedTemplates(bs, k)
  {
    if k > 0 {
      EmittedTemplatesCover(bs, k - 1);
      var src := EmittedTemplates(bs, k - 1);
      var srcK := EmittedTemplates(bs, k);
      if bs[k - 1] != [] {
        assert srcK == src + [k - 1];
        assert srcK[|src|] == k - 1;
      } else {
        assert srcK == src;
      }
    }
  }

  lemma {:induction false} EmitOfEmpty(templates: seq<CategoryTemplate>, bs: seq<seq<Signal>>, arpuFloor: real, k: nat)
    requires k <= |templates| == |bs|
    requires forall t :: 0 <= t < |bs| ==> bs[t] == []
    ensures Emit(templates, bs, arpuFloor, k) == []
  {
    if k > 0 {
      EmitOfEmpty(templates, bs, arpuFloor, k - 1);
    }
  }

  /** At most one candidate per template. */
  lemma AtMostFiveCandidates(signals: seq<Signal>, filters: IdeaFilters)
    ensures |Candidates(signals, filters)| <= 5
  {
  }

  /** No signals, no candidates. */
  lemma NoSignalsNoCandidates(filters: IdeaFilters)
    ensures Candidates([], filters) == []
  {
    var bs := Buckets(Templates, []);
    forall t | 0 <= t < |bs| ensures bs[t] == [] {
      BucketOfNothing(Templates, t);
    }
    EmitOfEmpty(Templates, bs, filters.arpuFloor, |Templates|);
  }

  /** Every candidate's ARPU is at least the configured floor. */
  lemma CandidatesMeetArpuFloor(signals: seq<Signal>, filters: IdeaFilters)
    ensures forall c :: c in Candidates(signals, filters) ==> c.arpuEstimate >= filters.arpuFloor
  {
    EmitShape(Templates, Buckets(Templates, signals), filters.arpuFloor, |Templates|);
  }

  predicate DistinctIds(signals: seq<Signal>) {
    forall i, j :: 0 <= i < j < |signals| ==> signals[i].id != signals[j].id
  }

  lemma IdInBucket(templates: seq<CategoryTemplate>, signals: seq<Signal>, t: nat, x: Id)
    requires x in Ids(Bucket(templates, signals, t))
    ensures exists i :: 0 <= i < |signals| && signals[i].id == x && Category(templates, signals[i]) == Some(t)
  {
    var b := Bucket(templates, signals, t);
    var m :| 0 <= m < |b| && Ids(b)[m] == x;
    BucketMembers(templates, signals, t);
    assert b[m] in signals;
  }

  /** Every id a candidate cites is the id of an input signal whose first
      matching template is the candidate's. */
  lemma CandidateIdsFromInput(signals: seq<Signal>, filters: IdeaFilters, j: nat, x: Id)
    requires j < |Candidates(signals, filters)|
    requires x in Candidates(signals, filters)[j].sourceSignalIds
    ensures exists i :: 0 <= i < |signals| && signals[i].id == x && Category(Templates, signals[i]).Some?
  {
    var bs := Buckets(Templates, signals);
    EmitShape(Templates, bs, filters.arpuFloor, |Templates|);
    var src := EmittedTemplates(bs, |Templates|);
    IdInBucket(Templates, signals, src[j], x);
  }

  /** A signal whose first matching template is `t` is cited by the
      candidate built from `t`. */
  lemma EmitCitesMatched(templates: seq<CategoryTemplate>, signals: seq<Signal>, arpuFloor: real, i: nat)
    requires i < |signals| && Category(templates, signals[i]).Some?
    ensures var cs := Emit(templates, Buckets(templates, signals), arpuFloor, |templates|);
      exists c :: c in cs && signals[i].id in c.sourceSignalIds
                  && c.title == templates[Category(templates, signals[i]).value].title
  {
    var t := Category(templates, signals[i]).value;
    var bs := Buckets(templates, signals);
    EmitShape(templates, bs, arpuFloor, |templates|);
    BucketMembers(templates, signals, t);
    var b := bs[t];
    assert signals[i] in b;
    var m :| 0 <= m < |b| && b[m] == signals[i];
    assert Ids(b)[m] == signals[i].id;
    var src := EmittedTemplates(bs, |templates|);
    EmittedTemplatesCover(bs, |templates|);
    var j :| 0 <= j < |src| && src[j] == t;
    var cs := Emit(templates, bs, arpuFloor, |templates|);
    assert cs[j] in cs;
  }

  lemma MatchedSignalCited(signals: seq<Signal>, filters: IdeaFilters, i: nat)
    requires i < |signals| && Category(Templates, signals[i]).Some?
    ensures exists c :: c in Candidates(signals, filters) && signals[i].id in c.sourceSignalIds
                        && c.title == Templates[Category(Templates, signals[i]).value].title
  {
    EmitCitesMatched(Templates, signals, filters.arpuFloor, i);
  }

  /** With distinct input ids, the candidates of two templates never share
      a signal id. */
  lemma EmitDisjoint(templates: seq<CategoryTemplate>, signals: seq<Signal>, arpuFloor: real, j1: nat, j2: nat)
    requires DistinctIds(signals)
    requires j1 < j2 < |Emit(templates, Buckets(templates, signals), arpuFloor, |templates|)|
    ensures var cs := Emit(templates, Buckets(templates, signals), arpuFloor, |templates|);
      forall x :: x in cs[j1].sourceSignalIds ==> x !in cs[j2].sourceSignalIds
  {
    var bs := Buckets(templates, signals);
    EmitShape(templates, bs, arpuFloor, |templates|);
    EmittedTemplatesAscending(bs, |templates|);
    var src := EmittedTemplates(bs, |templates|);
    var cs := Emit(templates, bs, arpuFloor, |templates|);
    forall x | x in cs[j1].sourceSignalIds
      ensures x !in cs[j2].sourceSignalIds
    {
      IdInBucket(templates, signals, src[j1], x);
      if x in cs[j2].sourceSignalIds {
        IdInBucket(templates, signals, src[j2], x);
      }
    }
  }

  lemma CandidatesDisjoint(signals: seq<Signal>, filters: IdeaFilters, j1: nat, j2: nat)
    requires DistinctIds(signals)
    requires j1 < j2 < |Candidates(signals, filters)|
    ensures forall x :: x in Candidates(signals, filters)[j1].sourceSignalIds ==>
                        x !in Candidates(signals, filters)[j2].sourceSignalIds
  {
    EmitDisjoint(Templates, signals, filters.arpuFloor, j1, j2);
  }

  /** With distinct input ids, a signal matching no template is cited by no candidate. */
  lemma EmitDropsUnmatched(templates: seq<CategoryTemplate>, signals: seq<Signal>, arpuFloor: real, i: nat)
    requires DistinctIds(signals)
    requires i < |signals| && Category(templates, signals[i]).None?
    ensures forall c :: c in Emit(templates, Buckets(templates, signals), arpuFloor, |templates|) ==>
                        signals[i].id !in c.sourceSignalIds
  {
    var bs := Buckets(templates, signals);
    EmitShape(templates, bs, arpuFloor, |templates|);
    var src := EmittedTemplates(bs, |templates|);
    var cs := Emit(templates, bs, arpuFloor, |templates|);
    forall c | c in cs ensures signals[i].id !in c.sourceSignalIds {
      var j :| 0 <= j < |cs| && cs[j] == c;
      if signals[i].id in c.sourceSignalIds {
        IdInBucket(templates, signals, src[j], signals[i].id);
      }
    }
  }

  lemma UnmatchedSignalsDropped(signals: seq<Signal>, filters: IdeaFilters, i: nat)
    requires DistinctIds(signals)
    requires i < |signals| && Category(Templates, signals[i]).None?
    ensures forall c :: c in Candidates(signals, filters) ==> signals[i].id !in c.sourceSignalIds
  {
    EmitDropsUnmatched(Templates, signals, filters.arpuFloor, i);
  }

  /** Template order decides: any content mentioning "invoice" goes to
      inbox-spend, even when "crm" (revops-guardian) occurs too. */
  lemma InvoiceBeatsCrm(s: Signal)
    requires Contains(Lower(s.content), "invoice")
    ensures Category(Templates, s) == Some(0) && Templates[0].id == "inbox-spend"
    ensures Category(Templates, s) != Some(2)
  {
    assert Templates[0].keywords[0] == "invoice";
  }

  /** The first loop of `runProblemMapperAgent`: each signal is pushed to the
      bucket of its first matching template. */
  method FillBuckets(templates: seq<CategoryTemplate>, signals: seq<Signal>) returns (buckets: seq<seq<Signal>>)
    ensures buckets == Buckets(templates, signals)
  {
    buckets := seq(|templates|, _ => []);
    var i := 0;
    while i < |signals|
      invariant 0 <= i <= |signals|
      invariant |buckets| == |templates|
      invariant forall t :: 0 <= t < |templates| ==> buckets[t] == Bucket(templates, signals[..i], t)
    {
      assert signals[..i + 1] == signals[..i] + [signals[i]];
      forall t | 0 <= t < |templates| {
        BucketSnoc(templates, signals[..i], signals[i], t);
      }
      var lower := Lower(signals[i].content);
      var matched := FirstMatchFrom(templates, lower, 0);
      if matched.Some? {
        buckets := buckets[matched.value := buckets[matched.value] + [signals[i]]];
      }
      i := i + 1;
    }
    assert signals[..i] == signals;
  }

  /** The second loop of `runProblemMapperAgent`: one candidate per
      non-empty bucket, in template order. */
  method EmitCandidates(templates: seq<CategoryTemplate>, buckets: seq<seq<Signal>>, arpuFloor: real)
    returns (candidates: seq<IdeaCandidate>)
    requires |buckets| == |templates|
    ensures candidates == Emit(templates, buckets, arpuFloor, |templates|)
  {
    candidates := [];
    var t := 0;
    while t < |templates|
      invariant 0 <= t <= |templates|
      invariant candidates == Emit(templates, buckets, arpuFloor, t)
    {
      if buckets[t] != [] {
        candidates := candidates + [Build(templates[t], buckets[t], arpuFloor)];
      }
      t := t + 1;
    }
  }

  /** `runProblemMapperAgent`: fill the buckets, then emit one candidate per
      non-empty bucket in template order. */
  method RunProblemMapper(signals: seq<Signal>, filters: IdeaFilters) returns (candidates: seq<IdeaCandidate>)
    ensures candidates == Candidates(signals, filters)
  {
    var buckets := FillBuckets(Templates, signals);
    candidates := EmitCandidates(Templates, buckets, filters.arpuFloor);
  }
}
