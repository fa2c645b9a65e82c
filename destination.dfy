/** The discover endpoint the two QStash scripts address
    (scripts/scheduleIdeasDiscover.ts, scripts/testIdeasTrigger.ts): an
    explicit endpoint, or the application's base URL with the discover
    route appended. */
module Destination {
  import opened Wrappers
  import opened Text

  const DiscoverPath: string := "/api/ideas/discover"
  const MissingDestination: string := "Set IDEAS_DISCOVER_ENDPOINT or APP_BASE_URL to build the destination URL."

  /** The base URL without one trailing slash. */
  function Normalize(base: string): (r: string)
    ensures base == r || base == r + "/"
  {
    if EndsWith(base, "/") then base[..|base| - 1] else base
  }

  /** `buildDefaultDestination`: null for a missing or empty base URL;
      otherwise the discover route under it, after one trailing slash is
      dropped. */
  function BuildDefaultDestination(base: Option<string>): (r: Option<string>)
    ensures r.None? <==> base.None? || base == Some("")
    ensures r.Some? ==> EndsWith(r.value, DiscoverPath)
    ensures r.Some? ==>
      var prefix := r.value[..|r.value| - |DiscoverPath|];
      base.value == prefix || base.value == prefix + "/"
  {
    match base
    case None => None
    case Some(b) =>
      if b == "" then None
      else
        var r := Normalize(b) + DiscoverPath;
        assert r[..|r| - |DiscoverPath|] == Normalize(b);
        assert r[|r| - |DiscoverPath|..] == DiscoverPath;
        Some(r)
  }

  /** A base URL with or without its trailing slash gives the same
      destination. */
  lemma TrailingSlashIgnored(b: string)
    requires b != "" && b[|b| - 1] != '/'
    ensures BuildDefaultDestination(Some(b + "/")) == BuildDefaultDestination(Some(b))
  {
    assert (b + "/")[..|b + "/"| - 1] == b;
  }

  /** Only one trailing slash is dropped: a base ending in two keeps one. */
  lemma OnlyOneSlashStripped(b: string)
    ensures BuildDefaultDestination(Some(b + "//")) == Some(b + "/" + DiscoverPath)
  {
    assert (b + "//")[..|b + "//"| - 1] == b + "/";
  }

  /** A bare "/" gives the route itself, a relative path, and no error. */
  lemma SlashOnlyBase()
    ensures BuildDefaultDestination(Some("/")) == Some(DiscoverPath)
  {
    assert "/"[..0] == "";
  }

  /** Different base URLs without a trailing slash give different
      destinations. */
  lemma DistinctBasesDistinctDestinations(b1: string, b2: string)
    requires b1 != "" && b2 != "" && b1[|b1| - 1] != '/' && b2[|b2| - 1] != '/'
    requires BuildDefaultDestination(Some(b1)) == BuildDefaultDestination(Some(b2))
    ensures b1 == b2
  {
    var d := BuildDefaultDestination(Some(b1)).value;
    assert d == b1 + DiscoverPath && d == b2 + DiscoverPath;
    assert b1 == d[..|d| - |DiscoverPath|] == b2;
  }

  /** `IDEAS_DISCOVER_ENDPOINT ?? buildDefaultDestination(APP_BASE_URL)`,
      then an error when that is null or empty. */
  function ResolveDestination(endpoint: Option<string>, base: Option<string>): (r: Result<string>)
    ensures endpoint.Some? && endpoint.value != "" ==> r == Ok(endpoint.value)
    ensures endpoint == Some("") ==> r == Err(MissingDestination)
    ensures endpoint.None? ==> (r.Ok? <==> base.Some? && base.value != "")
    ensures r.Err? ==> r == Err(MissingDestination)
    ensures r.Ok? ==> r.value != ""
  {
    var d := if endpoint.Some? then endpoint else BuildDefaultDestination(base);
    if d.None? || d.value == "" then Err(MissingDestination) else Ok(d.value)
  }

  /** An empty endpoint variable is not replaced by the base URL: `??`
      only falls back for a missing variable, so the scripts stop with the
      destination error even though a base URL is set. */
  lemma EmptyEndpointHidesBase(base: string)
    requires base != ""
    ensures ResolveDestination(Some(""), Some(base)).Err?
    ensures ResolveDestination(None, Some(base)).Ok?
  {
  }
}

/** scripts/scheduleIdeasDiscover.ts: create or update the weekly QStash
    schedule that calls the discover endpoint. */
module ScheduleIdeasDiscover {
  import opened Wrappers
  import opened Destination

  const DefaultCron: string := "0 9 * * 1"
  const DefaultScheduleId: string := "ideas-weekly-discover"
  const RetryDelay: string := "pow(2, retried) * 1000"
  const Retries: nat := 3
  const TokenRequired: string := "QSTASH_TOKEN environment variable is required."

  /** The environment variables the script reads. */
  datatype Env = Env(
    qstashToken: Option<string>, discoverEndpoint: Option<string>, appBaseUrl: Option<string>,
    scheduleId: Option<string>, cron: Option<string>)

  /** The schedule the script asks QStash to create. */
  datatype Schedule = Schedule(scheduleId: string, destination: string, cron: string, retries: nat, retryDelay: string)

  /** The schedule to create, or the error the script stops with: a
      missing token first, then a missing destination. */
  function PlanSchedule(env: Env): (r: Result<Schedule>)
    ensures env.qstashToken.None? || env.qstashToken == Some("") ==> r == Err(TokenRequired)
    ensures r.Ok? <==> env.qstashToken.Some? && env.qstashToken.value != ""
                       && ResolveDestination(env.discoverEndpoint, env.appBaseUrl).Ok?
    ensures r.Ok? ==> r.value.destination == ResolveDestination(env.discoverEndpoint, env.appBaseUrl).value
    ensures r.Ok? ==> r.value.retries == 3 && r.value.retryDelay == RetryDelay
    ensures r.Ok? && env.scheduleId.None? ==> r.value.scheduleId == DefaultScheduleId
    ensures r.Ok? && env.scheduleId.Some? ==> r.value.scheduleId == env.scheduleId.value
    ensures r.Ok? && env.cron.None? ==> r.value.cron == DefaultCron
    ensures r.Ok? && env.cron.Some? ==> r.value.cron == env.cron.value
  {
    if env.qstashToken.None? || env.qstashToken.value == "" then Err(TokenRequired)
    else match ResolveDestination(env.discoverEndpoint, env.appBaseUrl)
      case Err(m) => Err(m)
      case Ok(d) => Ok(Schedule(env.scheduleId.GetOr(DefaultScheduleId), d, env.cron.GetOr(DefaultCron), Retries, RetryDelay))
  }

  /** With only a token and a base URL set, the schedule is the weekly
      Monday 09:00 call of the base URL's discover route. */
  lemma DefaultSchedule(token: string, base: string)
    requires token != "" && base != "" && base[|base| - 1] != '/'
    ensures PlanSchedule(Env(Some(token), None, Some(base + "/"), None, None))
            == Ok(Schedule(DefaultScheduleId, base + DiscoverPath, DefaultCron, 3, RetryDelay))
  {
    TrailingSlashIgnored(base);
  }
}

/** scripts/testIdeasTrigger.ts: publish one manual test message to the
    discover endpoint. */
module TestIdeasTrigger {
  import opened Wrappers
  import opened Destination
  import ScheduleIdeasDiscover

  const TokenRequired: string := "QSTASH_TOKEN is required to publish a test message."
  const ManualTrigger: string := "manual-test"

  /** The message published: its URL and its JSON body. */
  datatype Publish = Publish(url: string, trigger: string, timestamp: string)

  /** The message to publish at `timestamp`, or the error the script stops
      with. */
  function PlanTrigger(token: Option<string>, endpoint: Option<string>, base: Option<string>, timestamp: string)
    : (r: Result<Publish>)
    ensures token.None? || token == Some("") ==> r == Err(TokenRequired)
    ensures r.Ok? ==> r.value.trigger == ManualTrigger && r.value.timestamp == timestamp
  {
    if token.None? || token.value == "" then Err(TokenRequired)
    else match ResolveDestination(endpoint, base)
      case Err(m) => Err(m)
      case Ok(d) => Ok(Publish(d, ManualTrigger, timestamp))
  }

  /** The test message goes exactly where the schedule would call, and the
      two scripts fail on the same environments. */
  lemma TriggerMatchesSchedule(env: ScheduleIdeasDiscover.Env, timestamp: string)
    ensures PlanTrigger(env.qstashToken, env.discoverEndpoint, env.appBaseUrl, timestamp).Ok?
            <==> ScheduleIdeasDiscover.PlanSchedule(env).Ok?
    ensures ScheduleIdeasDiscover.PlanSchedule(env).Ok? ==>
            PlanTrigger(env.qstashToken, env.discoverEndpoint, env.appBaseUrl, timestamp).value.url
            == ScheduleIdeasDiscover.PlanSchedule(env).value.destination
  {
  }
}
