/** Signal ingestion (src/l1/ideas/signalIngestion.ts): each seed is stored
    as a signal of the tenant unless a signal of that tenant with exactly the
    same content is already stored, and each stored one is announced by an
    IDEA_SIGNAL_INGESTED event. */
module SignalIngestion {
  import opened Wrappers
  import opened Records
  import opened Store

  datatype SignalSeed = SignalSeed(sourceId: string, sourceLabel: string, content: string)

  const OpsEmailNoise := "Agency founders complaining that vendor invoices get lost in flooded inboxes and no one notices auto-renewals."
  const FinanceSlack := "Fractional CFOs still paste Stripe + QuickBooks exports into Google Sheets every week to explain MRR changes."
  const GtmJobPost := "Multiple startups hiring “AI revops analyst” to watch CRM hygiene and pipeline risk daily."
  const SupportForums := "B2B product teams asking for better ways to summarize support tickets + feature requests into a single action list."
  const PartnershipsNews := "Agencies want a co-pilot that monitors client accounts for renewals, usage drops, and new upsell triggers."

  /** The built-in feeds used when the caller gives no seeds. */
  const SampleSignalFeeds: seq<SignalSeed> := [
    SignalSeed("ops-email-noise", "Founder DMs", OpsEmailNoise),
    SignalSeed("finance-slack", "Finance Slack", FinanceSlack),
    SignalSeed("gtm-job-post", "GTM Job Posts", GtmJobPost),
    SignalSeed("support-forums", "Support Forums", SupportForums),
    SignalSeed("partnerships-news", "Partner Newsletters", PartnershipsNews)
  ]

  /** `seeds = SAMPLE_SIGNAL_FEEDS` as a parameter default. */
  function SeedsOrSample(seeds: Option<seq<SignalSeed>>): (r: seq<SignalSeed>)
    ensures seeds.None? ==> r == SampleSignalFeeds
    ensures seeds.Some? ==> r == seeds.value
  {
    seeds.GetOr(SampleSignalFeeds)
  }

  /** The contents the tenant already has stored. */
  ghost function Known(signals: seq<Signal>, tenantId: string): set<string> {
    set i | 0 <= i < |signals| && signals[i].tenantId == tenantId :: signals[i].content
  }

  function Contents(seeds: seq<SignalSeed>): set<string> {
    set i | 0 <= i < |seeds| :: seeds[i].content
  }

  /** `findFirst({ where: { tenantId, content } })` answers a row. */
  function HasSignal(signals: seq<Signal>, tenantId: string, content: string): (b: bool)
    ensures b <==> content in Known(signals, tenantId)
  {
    if signals == [] then false
    else
      var last := signals[|signals| - 1];
      assert Known(signals, tenantId)
             == Known(signals[..|signals| - 1], tenantId) + (if last.tenantId == tenantId then {last.content} else {});
      (last.tenantId == tenantId && last.content == content)
      || HasSignal(signals[..|signals| - 1], tenantId, content)
  }

  /** The seeds a run stores, given the contents `known` before it: a seed
      is taken when its content is neither known nor taken earlier in the
      same batch, since the loop sees its own inserts. */
  function Accepted(known: set<string>, seeds: seq<SignalSeed>): seq<SignalSeed>
    decreases |seeds|
  {
    if seeds == [] then []
    else
      var prev := Accepted(known, seeds[..|seeds| - 1]);
      var last := seeds[|seeds| - 1];
      if last.content in known || last.content in Contents(prev) then prev else prev + [last]
  }

  /** The signal rows stored for the accepted seeds, numbered from `base`. */
  function Rows(acc: seq<SignalSeed>, base: nat, tenantId: string): (rs: seq<Signal>)
    ensures |rs| == |acc|
  {
    seq(|acc|, i requires 0 <= i < |acc| => Signal(base + i, tenantId, acc[i].sourceLabel, acc[i].content))
  }

  /** The IDEA_SIGNAL_INGESTED events for the accepted seeds. */
  function IngestEvents(acc: seq<SignalSeed>, base: nat, tenantId: string, now: int): (es: seq<Event>)
    ensures |es| == |acc|
  {
    seq(|acc|, i requires 0 <= i < |acc| =>
      Event(tenantId, "IDEA_SIGNAL_INGESTED", Some(base + i), now,
            SignalIngestedPayload(acc[i].sourceId, acc[i].sourceLabel)))
  }

  /** None of the contents was known, and none occurs twice. */
  ghost predicate FreshAndDistinct(acc: seq<SignalSeed>, known: set<string>) {
    (forall i :: 0 <= i < |acc| ==> acc[i].content !in known)
    && (forall i, j :: 0 <= i < j < |acc| ==> acc[i].content != acc[j].content)
  }

  /** No accepted content was known, and no content is accepted twice. */
  lemma {:induction false} AcceptedFresh(known: set<string>, seeds: seq<SignalSeed>)
    ensures FreshAndDistinct(Accepted(known, seeds), known)
    decreases |seeds|
  {
    if seeds != [] {
      var prev := Accepted(known, seeds[..|seeds| - 1]);
      AcceptedFresh(known, seeds[..|seeds| - 1]);
      var last := seeds[|seeds| - 1];
      if !(last.content in known || last.content in Contents(prev)) {
        var acc := prev + [last];
        forall i | 0 <= i < |prev| ensures acc[i].content != last.content {
          assert prev[i].content in Contents(prev);
        }
      }
    }
  }

  /** Every seed of the batch ends up known: it was known before or it was
      accepted. */
  lemma {:induction false} AcceptedCovers(known: set<string>, seeds: seq<SignalSeed>)
    ensures forall i :: 0 <= i < |seeds| ==> seeds[i].content in known + Contents(Accepted(known, seeds))
    decreases |seeds|
  {
    if seeds != [] {
      var init := seeds[..|seeds| - 1];
      var prev := Accepted(known, init);
      AcceptedCovers(known, init);
      assert Contents(prev) <= Contents(Accepted(known, seeds)) by {
        forall c | c in Contents(prev) ensures c in Contents(Accepted(known, seeds)) {
          var i :| 0 <= i < |prev| && prev[i].content == c;
          if Accepted(known, seeds) != prev {
            assert Accepted(known, seeds)[i] == prev[i];
          }
        }
      }
      forall i | 0 <= i < |seeds| ensures seeds[i].content in known + Contents(Accepted(known, seeds)) {
        if i < |init| {
          assert seeds[i] == init[i];
        } else if seeds[i].content !in known && seeds[i].content !in Contents(prev) {
          assert Accepted(known, seeds)[|prev|] == seeds[i];
        }
      }
    }
  }

  /** The accepted seeds are seeds of the batch, in batch order, so there
      are at most as many as seeds. */
  lemma {:induction false} AcceptedFromSeeds(known: set<string>, seeds: seq<SignalSeed>)
    ensures |Accepted(known, seeds)| <= |seeds|
    ensures forall i :: 0 <= i < |Accepted(known, seeds)| ==> Accepted(known, seeds)[i] in seeds
    decreases |seeds|
  {
    if seeds != [] {
      var init := seeds[..|seeds| - 1];
      AcceptedFromSeeds(known, init);
      forall i | 0 <= i < |Accepted(known, seeds)| ensures Accepted(known, seeds)[i] in seeds {
        if i < |Accepted(known, init)| {
          assert Accepted(known, seeds)[i] == Accepted(known, init)[i];
          assert Accepted(known, init)[i] in init;
        }
      }
    }
  }

  /** A batch whose contents are all known is skipped entirely. */
  lemma {:induction false} AllKnownNothingAccepted(known: set<string>, seeds: seq<SignalSeed>)
    requires forall i :: 0 <= i < |seeds| ==> seeds[i].content in known
    ensures Accepted(known, seeds) == []
    decreases |seeds|
  {
    if seeds != [] {
      AllKnownNothingAccepted(known, seeds[..|seeds| - 1]);
    }
  }

  /** The stored rows add exactly their contents to what the tenant knows. */
  lemma KnownAfterInsert(signals: seq<Signal>, acc: seq<SignalSeed>, base: nat, tenantId: string)
    ensures Known(signals + Rows(acc, base, tenantId), tenantId) == Known(signals, tenantId) + Contents(acc)
  {
    var all := signals + Rows(acc, base, tenantId);
    forall c | c in Known(all, tenantId) ensures c in Known(signals, tenantId) + Contents(acc) {
      var i :| 0 <= i < |all| && all[i].tenantId == tenantId && all[i].content == c;
      if i >= |signals| {
        assert acc[i - |signals|].content == c;
      }
    }
    forall c | c in Known(signals, tenantId) + Contents(acc) ensures c in Known(all, tenantId) {
      if c in Known(signals, tenantId) {
        var i :| 0 <= i < |signals| && signals[i].tenantId == tenantId && signals[i].content == c;
        assert all[i] == signals[i];
      } else {
        var i :| 0 <= i < |acc| && acc[i].content == c;
        assert all[|signals| + i].content == c;
      }
    }
  }

  /** Ingesting the same seeds a second time stores nothing. */
  lemma IngestTwiceStoresNothing(signals: seq<Signal>, seeds: seq<SignalSeed>, base: nat, tenantId: string)
    ensures var acc := Accepted(Known(signals, tenantId), seeds);
      Accepted(Known(signals + Rows(acc, base, tenantId), tenantId), seeds) == []
  {
    var known := Known(signals, tenantId);
    var acc := Accepted(known, seeds);
    KnownAfterInsert(signals, acc, base, tenantId);
    AcceptedCovers(known, seeds);
    AllKnownNothingAccepted(known + Contents(acc), seeds);
  }

  /** What the ingestion loop keeps after `k` seeds: the stored rows and the
      logged events are those of the seeds accepted so far. */
  ghost predicate IngestInv(signals: seq<Signal>, events: seq<Event>, nextId: nat, s0: seq<Signal>, e0: seq<Event>,
                            base: nat, tenantId: string, now: int, seeds: seq<SignalSeed>, k: nat, created: seq<Signal>)
  {
    k <= |seeds|
    && var acc := Accepted(Known(s0, tenantId), seeds[..k]);
    created == Rows(acc, base, tenantId) && signals == s0 + created
    && events == e0 + IngestEvents(acc, base, tenantId, now) && nextId == base + |created|
  }

  /** One turn of the ingestion loop: seed `k` is skipped when its content is
      stored for the tenant, and stored and announced otherwise. */
  method IngestSeed(db: Db, tenantId: string, now: int, seeds: seq<SignalSeed>, k: nat, created: seq<Signal>,
                    ghost s0: seq<Signal>, ghost e0: seq<Event>, ghost base: nat)
    returns (created': seq<Signal>)
    requires db.Valid() && k < |seeds|
    requires IngestInv(db.signals, db.events, db.nextId, s0, e0, base, tenantId, now, seeds, k, created)
    modifies db`signals, db`nextId, db`events
    ensures db.Valid()
    ensures IngestInv(db.signals, db.events, db.nextId, s0, e0, base, tenantId, now, seeds, k + 1, created')
  {
    var seed := seeds[k];
    if HasSignal(db.signals, tenantId, seed.content) {
      IngestSkip(db.signals, db.events, db.nextId, s0, e0, base, tenantId, now, seeds, k, created);
      created' := created;
    } else {
      ghost var signals, events := db.signals, db.events;
      var signal := db.AddSignal(Signal(0, tenantId, seed.sourceLabel, seed.content));
      db.LogEvent(Event(tenantId, "IDEA_SIGNAL_INGESTED", Some(signal.id), now,
                        SignalIngestedPayload(seed.sourceId, seed.sourceLabel)));
      IngestTake(signals, events, signal.id, s0, e0, base, tenantId, now, seeds, k, created);
      created' := created + [signal];
    }
  }

  /** A seed whose content is stored leaves the loop state as it is. */
  lemma IngestSkip(signals: seq<Signal>, events: seq<Event>, nextId: nat, s0: seq<Signal>, e0: seq<Event>,
                   base: nat, tenantId: string, now: int, seeds: seq<SignalSeed>, k: nat, created: seq<Signal>)
    requires k < |seeds| && seeds[k].content in Known(signals, tenantId)
    requires IngestInv(signals, events, nextId, s0, e0, base, tenantId, now, seeds, k, created)
    ensures IngestInv(signals, events, nextId, s0, e0, base, tenantId, now, seeds, k + 1, created)
  {
    IngestStepKnown(signals, s0, base, tenantId, seeds, k, created);
  }

  /** A seed whose content is not stored adds one row and one event. */
  lemma IngestTake(signals: seq<Signal>, events: seq<Event>, nextId: nat, s0: seq<Signal>, e0: seq<Event>,
                   base: nat, tenantId: string, now: int, seeds: seq<SignalSeed>, k: nat, created: seq<Signal>)
    requires k < |seeds| && seeds[k].content !in Known(signals, tenantId)
    requires IngestInv(signals, events, nextId, s0, e0, base, tenantId, now, seeds, k, created)
    ensures var seed := seeds[k];
      var row := Signal(nextId, tenantId, seed.sourceLabel, seed.content);
      IngestInv(signals + [row],
                events + [Event(tenantId, "IDEA_SIGNAL_INGESTED", Some(nextId), now,
                                SignalIngestedPayload(seed.sourceId, seed.sourceLabel))],
                nextId + 1, s0, e0, base, tenantId, now, seeds, k + 1, created + [row])
  {
    var acc := Accepted(Known(s0, tenantId), seeds[..k]);
    IngestStepKnown(signals, s0, base, tenantId, seeds, k, created);
    assert Accepted(Known(s0, tenantId), seeds[..k + 1]) == acc + [seeds[k]];
    IngestStepTaken(acc, seeds[k], base, tenantId, now);
    var row := Signal(nextId, tenantId, seeds[k].sourceLabel, seeds[k].content);
    assert nextId == base + |acc|;
    assert created + [row] == Rows(acc + [seeds[k]], base, tenantId);
    assert signals + [row] == s0 + (created + [row]);
  }

  /** The store holds the seed's content for the tenant exactly when the
      seed is not accepted at step `k`. */
  lemma IngestStepKnown(signals: seq<Signal>, s0: seq<Signal>, base: nat, tenantId: string,
                        seeds: seq<SignalSeed>, k: nat, created: seq<Signal>)
    requires k < |seeds|
    requires created == Rows(Accepted(Known(s0, tenantId), seeds[..k]), base, tenantId) && signals == s0 + created
    ensures var acc := Accepted(Known(s0, tenantId), seeds[..k]);
      Accepted(Known(s0, tenantId), seeds[..k + 1])
      == if seeds[k].content in Known(signals, tenantId) then acc else acc + [seeds[k]]
  {
    assert seeds[..k + 1][..k] == seeds[..k];
    KnownAfterInsert(s0, Accepted(Known(s0, tenantId), seeds[..k]), base, tenantId);
  }

  /** Taking one more seed adds its row and its event at the ends. */
  lemma IngestStepTaken(acc: seq<SignalSeed>, seed: SignalSeed, base: nat, tenantId: string, now: int)
    ensures Rows(acc + [seed], base, tenantId)
            == Rows(acc, base, tenantId) + [Signal(base + |acc|, tenantId, seed.sourceLabel, seed.content)]
    ensures IngestEvents(acc + [seed], base, tenantId, now)
            == IngestEvents(acc, base, tenantId, now)
               + [Event(tenantId, "IDEA_SIGNAL_INGESTED", Some(base + |acc|), now,
                        SignalIngestedPayload(seed.sourceId, seed.sourceLabel))]
  {
  }

  /** `runSignalIngestionAgent`: the answer is exactly the newly stored
      signals; existing rows are kept as they were. */
  method RunSignalIngestion(db: Db, tenantId: string, seedsInput: Option<seq<SignalSeed>>, now: int)
    returns (created: seq<Signal>)
    requires db.Valid()
    modifies db`signals, db`nextId, db`events
    ensures db.Valid()
    ensures var acc := Accepted(Known(old(db.signals), tenantId), SeedsOrSample(seedsInput));
      created == Rows(acc, old(db.nextId), tenantId)
      && db.signals == old(db.signals) + created
      && db.events == old(db.events) + IngestEvents(acc, old(db.nextId), tenantId, now)
      && db.nextId == old(db.nextId) + |created|
  {
    var seeds := SeedsOrSample(seedsInput);
    ghost var s0, e0, base := db.signals, db.events, db.nextId;
    created := [];
    var k := 0;
    while k < |seeds|
      invariant db.Valid()
      invariant IngestInv(db.signals, db.events, db.nextId, s0, e0, base, tenantId, now, seeds, k, created)
    {
      created := IngestSeed(db, tenantId, now, seeds, k, created, s0, e0, base);
      k := k + 1;
    }
    assert seeds[..k] == seeds;
  }
}
