/** Metrics aggregation (src/l1/ops/metricsAggregation.ts): the tenant's
    subscriptions are summed into a metrics snapshot, which is appended to
    the snapshot table.  Timestamps are integers in milliseconds. */
module MetricsAggregation {
  import opened Wrappers
  import opened Records
  import opened Store

  const ActiveStatus := "active"
  const SnapshotCreatedKind := "METRICS_SNAPSHOT_CREATED"

  /** One day in milliseconds; the window start is `periodEnd` less thirty
      of them. */
  const Day: int := 24 * 60 * 60 * 1000

  function WindowStart(periodEnd: int): int {
    periodEnd - 30 * Day
  }

  /** Which subscriptions a sum takes. */
  datatype Selector = Active | StartedWithin(periodEnd: int) | CancelledWithin(periodEnd: int)

  predicate Selected(sel: Selector, sub: Subscription) {
    match sel
    case Active => sub.status == ActiveStatus
    case StartedWithin(e) => WindowStart(e) <= sub.startedAt <= e
    case CancelledWithin(e) => sub.cancelledAt.Some? && WindowStart(e) <= sub.cancelledAt.value <= e
  }

  /** `filter(...).reduce((sum, sub) => sum + sub.mrr, 0)`. */
  function Total(subs: seq<Subscription>, sel: Selector): int {
    if subs == [] then 0
    else (if Selected(sel, subs[0]) then subs[0].mrr else 0) + Total(subs[1..], sel)
  }

  /** `filter(...).length`. */
  function Count(subs: seq<Subscription>, sel: Selector): nat {
    if subs == [] then 0
    else (if Selected(sel, subs[0]) then 1 else 0) + Count(subs[1..], sel)
  }

  /** The sum of every subscription's `mrr`. */
  function AllMrr(subs: seq<Subscription>): int {
    if subs == [] then 0 else subs[0].mrr + AllMrr(subs[1..])
  }

  /** `findMany({ where: { tenantId } })` on subscriptions. */
  function OfTenant(subs: seq<Subscription>, tenantId: string): (r: seq<Subscription>)
    ensures |r| <= |subs|
  {
    if subs == [] then []
    else (if subs[0].tenantId == tenantId then [subs[0]] else []) + OfTenant(subs[1..], tenantId)
  }

  /** Exactly the tenant's subscriptions are read. */
  lemma {:induction false} OfTenantExact(subs: seq<Subscription>, tenantId: string)
    ensures forall x :: x in OfTenant(subs, tenantId) <==> x in subs && x.tenantId == tenantId
  {
    if subs != [] {
      OfTenantExact(subs[1..], tenantId);
      assert subs == [subs[0]] + subs[1..];
    }
  }

  /** The snapshot computed from the tenant's subscriptions; the runway is
      never computed. */
  function Snapshot(id: Id, tenantId: string, subs: seq<Subscription>, periodEnd: int): MetricsSnapshot {
    var own := OfTenant(subs, tenantId);
    MetricsSnapshot(id, tenantId, periodEnd, Total(own, Active), Total(own, StartedWithin(periodEnd)),
                    Total(own, CancelledWithin(periodEnd)), Count(own, Active), None)
  }

  lemma {:induction false} TotalAppend(a: seq<Subscription>, b: seq<Subscription>, sel: Selector)
    ensures Total(a + b, sel) == Total(a, sel) + Total(b, sel)
    ensures Count(a + b, sel) == Count(a, sel) + Count(b, sel)
  {
    if a == [] {
      assert a + b == b;
    } else {
      assert (a + b)[0] == a[0] && (a + b)[1..] == a[1..] + b;
      TotalAppend(a[1..], b, sel);
    }
  }

  /** Dropping the row at `j` removes exactly its own contribution. */
  lemma TotalRemove(s: seq<Subscription>, j: nat, sel: Selector)
    requires j < |s|
    ensures Total(s, sel) == (if Selected(sel, s[j]) then s[j].mrr else 0) + Total(s[..j] + s[j + 1..], sel)
    ensures Count(s, sel) == (if Selected(sel, s[j]) then 1 else 0) + Count(s[..j] + s[j + 1..], sel)
  {
    assert s == s[..j] + ([s[j]] + s[j + 1..]);
    TotalAppend(s[..j], [s[j]] + s[j + 1..], sel);
    TotalAppend(s[..j], s[j + 1..], sel);
    assert ([s[j]] + s[j + 1..])[1..] == s[j + 1..];
  }

  /** The sums do not depend on the order of the subscriptions. */
  lemma {:induction false} TotalPermutation(s: seq<Subscription>, t: seq<Subscription>, sel: Selector)
    requires multiset(s) == multiset(t)
    ensures Total(s, sel) == Total(t, sel)
    decreases |s|
  {
    if s != [] {
      var j := MatchFirst(s, t);
      TotalPermutation(s[1..], t[..j] + t[j + 1..], sel);
      TotalRemove(t, j, sel);
    }
  }

  /** Nor does the count. */
  lemma {:induction false} CountPermutation(s: seq<Subscription>, t: seq<Subscription>, sel: Selector)
    requires multiset(s) == multiset(t)
    ensures Count(s, sel) == Count(t, sel)
    decreases |s|
  {
    if s != [] {
      var j := MatchFirst(s, t);
      CountPermutation(s[1..], t[..j] + t[j + 1..], sel);
      TotalRemove(t, j, sel);
    }
  }

  /** A row of `t` equal to the first of `s`; the rest of `s` is a
      permutation of `t` without it. */
  lemma MatchFirst<T>(s: seq<T>, t: seq<T>) returns (j: nat)
    requires s != [] && multiset(s) == multiset(t)
    ensures j < |t| && t[j] == s[0] && multiset(s[1..]) == multiset(t[..j] + t[j + 1..])
  {
    j := IndexOf(t, s[0]);
    MultisetRemove(t, j);
    assert s == [s[0]] + s[1..];
  }

  /** A position of a value that occurs in `t`. */
  lemma IndexOf<T>(t: seq<T>, x: T) returns (j: nat)
    requires x in multiset(t)
    ensures j < |t| && t[j] == x
  {
    assert x in t;
    j :| 0 <= j < |t| && t[j] == x;
  }

  lemma MultisetRemove<T>(t: seq<T>, j: nat)
    requires j < |t|
    ensures multiset(t[..j] + t[j + 1..]) == multiset(t) - multiset{t[j]}
  {
    assert t == t[..j] + [t[j]] + t[j + 1..];
  }

  /** With non-negative amounts every sum lies between 0 and the sum of all
      amounts. */
  lemma {:induction false} TotalBounds(s: seq<Subscription>, sel: Selector)
    requires forall i :: 0 <= i < |s| ==> s[i].mrr >= 0
    ensures 0 <= Total(s, sel) <= AllMrr(s)
  {
    if s != [] {
      TotalBounds(s[1..], sel);
    }
  }

  /** No active subscription means no MRR. */
  lemma {:induction false} NoActiveNoMrr(s: seq<Subscription>)
    requires Count(s, Active) == 0
    ensures Total(s, Active) == 0
  {
    if s != [] {
      NoActiveNoMrr(s[1..]);
    }
  }

  /** Both ends of the thirty-day window count, and nothing outside it, for
      starts and for cancellations alike; status plays no part. */
  lemma WindowInclusive(sub: Subscription, periodEnd: int)
    ensures Selected(StartedWithin(periodEnd), sub)
            <==> periodEnd - 30 * Day <= sub.startedAt && sub.startedAt <= periodEnd
    ensures Selected(CancelledWithin(periodEnd), sub)
            <==> sub.cancelledAt.Some? && periodEnd - 30 * Day <= sub.cancelledAt.value <= periodEnd
  {
  }

  /** `runMetricsAggregationAgent`: the snapshot of the tenant's
      subscriptions is appended, earlier snapshots stay, and one
      METRICS_SNAPSHOT_CREATED event is logged.  `periodEnd` defaults to
      `now`. */
  method RunMetricsAggregation(db: Db, tenantId: string, periodEndInput: Option<int>, now: int)
    returns (snapshot: MetricsSnapshot)
    requires db.Valid()
    modifies db`snapshots, db`nextId, db`events
    ensures db.Valid()
    ensures snapshot == Snapshot(old(db.nextId), tenantId, db.subscriptions, periodEndInput.GetOr(now))
    ensures db.snapshots == old(db.snapshots) + [snapshot]
    ensures db.events == old(db.events)
                         + [Event(tenantId, SnapshotCreatedKind, Some(snapshot.id), now, SnapshotPayload(snapshot.id))]
    ensures db.nextId == old(db.nextId) + 1
  {
    var periodEnd := periodEndInput.GetOr(now);
    var subscriptions := OfTenant(db.subscriptions, tenantId);
    var mrr := Total(subscriptions, Active);
    var newMrr := Total(subscriptions, StartedWithin(periodEnd));
    var churnedMrr := Total(subscriptions, CancelledWithin(periodEnd));
    var activeCustomers := Count(subscriptions, Active);
    var id := db.FreshId();
    snapshot := MetricsSnapshot(id, tenantId, periodEnd, mrr, newMrr, churnedMrr, activeCustomers, None);
    db.snapshots := db.snapshots + [snapshot];
    db.LogEvent(Event(tenantId, SnapshotCreatedKind, Some(snapshot.id), now, SnapshotPayload(snapshot.id)));
  }
}
