/**
 * The web front end's core: the topic-keyed response cache with its expiry rule, the
 * query-string lookup, server-sent-event framing, the order of events on the streaming
 * endpoint and the status codes of the JSON endpoint.
 *
 * The post fetch (`XClient.fetchRecentUniqueAuthors`), the summary call
 * (`OpenAIClient.summarize`), the moderation call and JSON serialisation are oracles in
 * `Steps`; the clock readings are in `Clock`; the environment variables are in `Env`.
 */
module WebServer {
  import opened Wrappers
  import opened Text
  import opened Tweets
  import opened Sequences
  import OpenAIClient

  /** How many unique authors both endpoints ask the fetcher for. */
  const TargetCount: nat := 50
  /** `CACHE_TTL_SECONDS` when it is unset or not a number. */
  const DefaultTtl: int := 600
  const DefaultModel: string := "gpt-4o-mini"
  const Withheld: string := "Suggested post withheld due to safety policies."

  const MethodNotAllowed: string := "Method Not Allowed"
  const TopicRequired: string := "Topic is required"
  const MissingXToken: string := "Missing X_BEARER_TOKEN"
  const MissingOpenAiKey: string := "Missing OPENAI_API_KEY"

  const LoadedFromCache: string := "Loaded from cache."
  const FetchingTweets: string := "Fetching recent tweets..."
  const Summarizing: string := "Summarizing with OpenAI..."
  const Moderating: string := "Running moderation..."

  // ---------------------------------------------------------------- payloads

  /** The moderation classifier's answer; its scores are doubles in the source. */
  datatype ModerationResult = ModerationResult(flagged: bool, categories: map<string, bool>, scores: map<string, real>)

  /** The success map: `topic`, `generated_at`, `model`, `tweets`, `summary`, `moderation`, `cache`. */
  datatype Report = Report(
    topic: string,
    generatedAt: string,
    model: string,
    tweets: seq<Tweet>,
    summary: OpenAIClient.SummaryPayload,
    moderation: ModerationResult,
    cache: bool)

  /** What `generateNonStreaming` returns: a report, or the map `{error: message}`. */
  datatype Outcome = Served(report: Report) | Failed(error: string)

  /** The environment the handlers read. */
  datatype Env = Env(xToken: Option<string>, openAiKey: Option<string>, model: Option<string>, cacheTtl: Option<string>)

  /** The three readings of `Instant.now()` on a request: at the cache check, for
      `generated_at`, and when the cache entry is built. */
  datatype Clock = Clock(checkedAt: int, generatedAt: string, storedAt: int)

  /** The collaborators, each returning `Err` where the source throws. */
  datatype Steps = Steps(
    fetch: (string, nat) -> Result<seq<Tweet>>,
    summarize: (string, seq<Tweet>) -> Result<OpenAIClient.SummaryPayload>,
    moderate: Option<string> -> Result<ModerationResult>,
    render: Report -> string)

  function ModelName(env: Env): (m: string)
    ensures env.model.None? ==> m == "gpt-4o-mini"
  {
    env.model.GetOr(DefaultModel)
  }

  // ---------------------------------------------------------------- topic key

  /** `normalizeTopic`: the cache key of a topic. */
  function NormalizeTopic(topic: string): string {
    ToLower(Trim(topic))
  }

  /** Normalising a key again changes nothing. */
  lemma NormalizeTopicIdempotent(topic: string)
    ensures NormalizeTopic(NormalizeTopic(topic)) == NormalizeTopic(topic)
  {
    var t := Trim(topic);
    TrimIdempotent(topic);
    TrimLower(t);
    ToLowerIdempotent(t);
  }

  /** The key ignores the case of ASCII letters. */
  lemma NormalizeTopicIgnoresCase(topic: string)
    ensures NormalizeTopic(ToLower(topic)) == NormalizeTopic(topic)
  {
    TrimLower(topic);
    ToLowerIdempotent(Trim(topic));
  }

  /** The key ignores white space and control characters around the topic. */
  lemma NormalizeTopicIgnoresPadding(p: string, topic: string, q: string)
    requires AllTrimmable(p) && AllTrimmable(q)
    ensures NormalizeTopic(p + topic + q) == NormalizeTopic(topic)
  {
    TrimPadded(p, topic, q);
  }

  /** Topics that differ only in padding and letter case, such as " Foo " and "foo", share
      one key. */
  lemma NormalizeTopicSameKey(p: string, topic: string, q: string)
    requires AllTrimmable(p) && AllTrimmable(q)
    ensures NormalizeTopic(p + topic + q) == NormalizeTopic(ToLower(topic))
  {
    NormalizeTopicIgnoresPadding(p, topic, q);
    NormalizeTopicIgnoresCase(topic);
  }

  // ---------------------------------------------------------------- TTL and entries

  /** `ttlSeconds`: `CACHE_TTL_SECONDS` read by `Integer.parseInt`, 600 when it is unset or
      does not parse. */
  function TtlSeconds(setting: Option<string>): (ttl: int)
    ensures IntMin <= ttl <= IntMax
  {
    match ParseInt(setting.GetOr("600"))
    case Some(v) => v
    case None => DefaultTtl
  }

  /** A setting that does not parse falls back to 600, and a 32-bit number written in
      decimal is taken as it is. */
  lemma TtlSecondsRule(setting: string, v: int)
    requires IntMin <= v <= IntMax
    ensures TtlSeconds(None) == 600
    ensures ParseInt(setting).None? ==> TtlSeconds(Some(setting)) == 600
    ensures TtlSeconds(Some(IntToString(v))) == v
  {
    ParseIntToString(v);
    ParseIntToString(600);
    assert NatToString(6) == "6";
    assert NatToString(60) == NatToString(6) + "0";
    assert NatToString(600) == NatToString(60) + "0";
    assert IntToString(600) == "600";
  }

  /** A cached report and the second after which it is stale. */
  datatype CacheEntry = CacheEntry(payload: Report, expiresAt: int)

  /** The `CacheEntry` constructor at time `now`: expiry `ttl` seconds later, but at least one. */
  function NewEntry(payload: Report, ttl: int, now: int): (e: CacheEntry)
    ensures e.payload == payload
    ensures e.expiresAt >= now + 1 && e.expiresAt >= now + ttl
    ensures e.expiresAt == now + 1 || e.expiresAt == now + ttl
  {
    CacheEntry(payload, now + if ttl < 1 then 1 else ttl)
  }

  /** `isExpired`: strictly past the expiry second. */
  predicate Expired(e: CacheEntry, now: int) {
    now > e.expiresAt
  }

  /** A new entry is live through its whole lifetime and stale after it. */
  lemma NewEntryLifetime(payload: Report, ttl: int, now: int, t: int)
    ensures t <= now + 1 ==> !Expired(NewEntry(payload, ttl, now), t)
    ensures t <= now + ttl ==> !Expired(NewEntry(payload, ttl, now), t)
    ensures t > now + 1 && t > now + ttl ==> Expired(NewEntry(payload, ttl, now), t)
  {
  }

  // ---------------------------------------------------------------- the cache

  /** What a lookup serves: a copy of the live entry's report with `cache` set. */
  function CachedReport(entries: map<string, CacheEntry>, key: string, now: int): (r: Option<Report>) {
    if key in entries && !Expired(entries[key], now) then Some(entries[key].payload.(cache := true)) else None
  }

  /** A report stored at `storedAt` is served, marked as cached and otherwise as it was,
      until its lifetime is over, and not after; other keys answer as before. */
  lemma CacheAfterPut(entries: map<string, CacheEntry>, key: string, rep: Report, ttl: int, storedAt: int, k: string, t: int)
    ensures var after := entries[key := NewEntry(rep, ttl, storedAt)];
      && (t <= storedAt + 1 || t <= storedAt + ttl ==> CachedReport(after, key, t) == Some(rep.(cache := true)))
      && (t > storedAt + 1 && t > storedAt + ttl ==> CachedReport(after, key, t).None?)
      && (k != key ==> CachedReport(after, k, t) == CachedReport(entries, k, t))
  {
    NewEntryLifetime(rep, ttl, storedAt, t);
  }

  /** Served copies differ from the stored report only in `cache`. */
  lemma CachedReportCopy(entries: map<string, CacheEntry>, key: string, now: int)
    ensures CachedReport(entries, key, now).Some? <==> key in entries && now <= entries[key].expiresAt
    ensures CachedReport(entries, key, now).Some? ==>
      var r := CachedReport(entries, key, now).value;
      r.cache && r == entries[key].payload.(cache := r.cache)
  {
  }

  /** A report stored under a padded, mixed-case topic is served, within its first second,
      for the same topic in lower case without the padding. */
  lemma CacheKeyCaseAndPadding(entries: map<string, CacheEntry>, p: string, topic: string, q: string,
                               rep: Report, ttl: int, storedAt: int, t: int)
    requires AllTrimmable(p) && AllTrimmable(q)
    requires storedAt <= t <= storedAt + 1
    ensures CachedReport(entries[NormalizeTopic(p + topic + q) := NewEntry(rep, ttl, storedAt)], NormalizeTopic(ToLower(topic)), t)
      == Some(rep.(cache := true))
  {
    NormalizeTopicSameKey(p, topic, q);
    var key := NormalizeTopic(ToLower(topic));
    CacheAfterPut(entries, key, rep, ttl, storedAt, key, t);
  }

  /** The process-wide `CACHE`: normalised topic to entry. */
  class ResponseCache {
    var entries: map<string, CacheEntry>

    constructor()
      ensures entries == map[]
    {
      entries := map[];
    }

    /** `CACHE.get`. */
    method Get(key: string) returns (e: Option<CacheEntry>)
      ensures e.Some? <==> key in entries
      ensures e.Some? ==> e.value == entries[key]
    {
      if key in entries {
        e := Some(entries[key]);
      } else {
        e := None;
      }
    }

    /** `CACHE.put`: replaces any entry under `key` wholesale. */
    method Put(key: string, e: CacheEntry)
      modifies this
      ensures entries == old(entries)[key := e]
    {
      entries := entries[key := e];
    }
  }

  // ---------------------------------------------------------------- the pipeline

  /** The flagged-post rule: a flagged verdict replaces the suggested post. */
  function Moderated(summary: OpenAIClient.SummaryPayload, mod: ModerationResult): (r: OpenAIClient.SummaryPayload)
    ensures r.suggestedPost == (if mod.flagged then Some(Withheld) else summary.suggestedPost)
    ensures r.summary == summary.summary && r.keywords == summary.keywords && r.bullets == summary.bullets
  {
    if mod.flagged then summary.(suggestedPost := Some(Withheld)) else summary
  }

  /** The substitute text is itself a post within the 280-character bound, so the bound
      on the summariser's post survives moderation. */
  lemma ModeratedPostBound(summary: OpenAIClient.SummaryPayload, mod: ModerationResult)
    requires summary.suggestedPost.Some? && |summary.suggestedPost.value| <= OpenAIClient.PostLimit
    ensures Moderated(summary, mod).suggestedPost.Some?
    ensures |Moderated(summary, mod).suggestedPost.value| <= OpenAIClient.PostLimit
  {
  }

  /** How far the fetch, summarise and moderate chain got (1 to 3 steps started), and its
      report or the message of the step that threw. */
  datatype Run = Run(stages: nat, result: Result<Report>)

  /** The uncached path of both endpoints. */
  function RunPipeline(topic: string, model: string, stamp: string, steps: Steps): (run: Run)
    ensures 1 <= run.stages <= 3
    ensures run.result.Ok? ==> run.stages == 3
  {
    match steps.fetch(topic, TargetCount)
    case Err(m) => Run(1, Err(m))
    case Ok(tweets) =>
      match steps.summarize(topic, tweets)
      case Err(m) => Run(2, Err(m))
      case Ok(summary) =>
        match steps.moderate(summary.suggestedPost)
        case Err(m) => Run(3, Err(m))
        case Ok(mod) => Run(3, Ok(Report(topic, stamp, model, tweets, Moderated(summary, mod), mod, false)))
  }

  /** A successful run's report is fresh (`cache` false), names the topic and the model,
      carries what the steps returned with the moderation rule applied, and exists exactly
      when no step threw. */
  lemma RunPipelineReport(topic: string, model: string, stamp: string, steps: Steps)
    ensures var run := RunPipeline(topic, model, stamp, steps);
      run.result.Ok? <==>
        && steps.fetch(topic, TargetCount).Ok?
        && steps.summarize(topic, steps.fetch(topic, TargetCount).value).Ok?
        && steps.moderate(steps.summarize(topic, steps.fetch(topic, TargetCount).value).value.suggestedPost).Ok?
    ensures var run := RunPipeline(topic, model, stamp, steps);
      run.result.Ok? ==>
        var r := run.result.value;
        var tweets := steps.fetch(topic, TargetCount).value;
        var summary := steps.summarize(topic, tweets).value;
        && !r.cache && r.topic == topic && r.model == model && r.generatedAt == stamp
        && r.tweets == tweets
        && r.moderation == steps.moderate(summary.suggestedPost).value
        && r.summary == Moderated(summary, r.moderation)
  {
  }

  /** The cache after a run: a report is stored under `key`, anything else writes nothing. */
  function Stored(entries: map<string, CacheEntry>, key: string, run: Run, ttl: int, storedAt: int): map<string, CacheEntry> {
    if run.result.Ok? then entries[key := NewEntry(run.result.value, ttl, storedAt)] else entries
  }

  /** A stored report replaces any earlier entry under its key, with `cache` false, and no
      other key changes; a failed run leaves the cache as it was. */
  lemma StoredRule(entries: map<string, CacheEntry>, key: string, run: Run, ttl: int, storedAt: int)
    ensures run.result.Err? ==> Stored(entries, key, run, ttl, storedAt) == entries
    ensures run.result.Ok? ==>
      (key in Stored(entries, key, run, ttl, storedAt) && Stored(entries, key, run, ttl, storedAt)[key].payload == run.result.value)
    ensures forall k :: k != key ==>
      (k in Stored(entries, key, run, ttl, storedAt) <==> k in entries)
      && (k in entries ==> Stored(entries, key, run, ttl, storedAt)[k] == entries[k])
  {
  }

  /** `generateNonStreaming`'s result. */
  function GenerateOutcome(entries: map<string, CacheEntry>, topic: string, env: Env, clock: Clock, steps: Steps): Outcome {
    KeyedOutcome(entries, NormalizeTopic(topic), topic, env, clock, steps)
  }

  /** `GenerateOutcome` with the topic's key already worked out. */
  function KeyedOutcome(entries: map<string, CacheEntry>, key: string, topic: string, env: Env, clock: Clock, steps: Steps): Outcome {
    var hit := CachedReport(entries, key, clock.checkedAt);
    if hit.Some? then Served(hit.value)
    else
      var run := RunPipeline(topic, ModelName(env), clock.generatedAt, steps);
      if run.result.Ok? then Served(run.result.value) else Failed(run.result.message)
  }

  /** `generateNonStreaming`'s cache afterwards: a hit writes nothing. */
  function GenerateCache(entries: map<string, CacheEntry>, topic: string, env: Env, clock: Clock, steps: Steps): map<string, CacheEntry> {
    KeyedCache(entries, NormalizeTopic(topic), topic, env, clock, steps)
  }

  /** `GenerateCache` with the topic's key already worked out. */
  function KeyedCache(entries: map<string, CacheEntry>, key: string, topic: string, env: Env, clock: Clock, steps: Steps): map<string, CacheEntry> {
    if CachedReport(entries, key, clock.checkedAt).Some? then entries
    else Stored(entries, key, RunPipeline(topic, ModelName(env), clock.generatedAt, steps), TtlSeconds(env.cacheTtl), clock.storedAt)
  }

  /** A hit serves the stored report marked as cached and leaves the cache alone; only a
      miss whose chain threw is a failure; a successful miss is served fresh. */
  lemma GenerateRule(entries: map<string, CacheEntry>, topic: string, env: Env, clock: Clock, steps: Steps)
    ensures var key := NormalizeTopic(topic);
      var hit := CachedReport(entries, key, clock.checkedAt);
      hit.Some? ==>
        (GenerateOutcome(entries, topic, env, clock, steps) == Served(entries[key].payload.(cache := true))
          && GenerateCache(entries, topic, env, clock, steps) == entries)
    ensures GenerateOutcome(entries, topic, env, clock, steps).Failed? <==>
      CachedReport(entries, NormalizeTopic(topic), clock.checkedAt).None?
        && RunPipeline(topic, ModelName(env), clock.generatedAt, steps).result.Err?
    ensures var out := GenerateOutcome(entries, topic, env, clock, steps);
      out.Served? ==> (out.report.cache <==> CachedReport(entries, NormalizeTopic(topic), clock.checkedAt).Some?)
  {
    var run := RunPipeline(topic, ModelName(env), clock.generatedAt, steps);
    RunPipelineReport(topic, ModelName(env), clock.generatedAt, steps);
  }

  /** `generateNonStreaming` on the shared cache. */
  method Generate(cache: ResponseCache, topic: string, env: Env, clock: Clock, steps: Steps) returns (out: Outcome)
    modifies cache
    ensures out == GenerateOutcome(old(cache.entries), topic, env, clock, steps)
    ensures cache.entries == GenerateCache(old(cache.entries), topic, env, clock, steps)
  {
    out := GenerateFor(cache, NormalizeTopic(topic), topic, env, clock, steps);
  }

  /** The body of `generateNonStreaming` once the key is known. */
  method GenerateFor(cache: ResponseCache, normalized: string, topic: string, env: Env, clock: Clock, steps: Steps) returns (out: Outcome)
    modifies cache
    ensures out == KeyedOutcome(old(cache.entries), normalized, topic, env, clock, steps)
    ensures cache.entries == KeyedCache(old(cache.entries), normalized, topic, env, clock, steps)
  {
    var cached := cache.Get(normalized);
    if cached.Some? && !Expired(cached.value, clock.checkedAt) {
      return Served(cached.value.payload.(cache := true));
    }
    var model := ModelName(env);
    var tweets := steps.fetch(topic, TargetCount);
    if tweets.Err? {
      return Failed(tweets.message);
    }
    var summary := steps.summarize(topic, tweets.value);
    if summary.Err? {
      return Failed(summary.message);
    }
    var mod := steps.moderate(summary.value.suggestedPost);
    if mod.Err? {
      return Failed(mod.message);
    }
    var s := summary.value;
    if mod.value.flagged {
      s := s.(suggestedPost := Some(Withheld));
    }
    var report := Report(topic, clock.generatedAt, model, tweets.value, s, mod.value, false);
    cache.Put(normalized, NewEntry(report, TtlSeconds(env.cacheTtl), clock.storedAt));
    out := Served(report);
  }

  // ---------------------------------------------------------------- server-sent events

  /** One `sendEvent` call. */
  datatype Event = Event(name: string, data: string)

  /** `sendEvent`'s frame: newlines in the data become spaces so the data stays on one line. */
  function SseFrame(e: Event): string {
    "event: " + e.name + "\n" + "data: " + ReplaceChar(e.data, '\n', ' ') + "\n\n"
  }

  /** The frame is the event line, the one data line and the blank line that ends it; the
      data line has no newline and keeps every other character of the data. */
  lemma SseFrameLines(e: Event)
    requires '\n' !in e.name
    ensures var d := ReplaceChar(e.data, '\n', ' ');
      && '\n' !in d
      && (forall i :: 0 <= i < |d| ==> d[i] == if e.data[i] == '\n' then ' ' else e.data[i])
      && Split(SseFrame(e), '\n') == ["event: " + e.name, "data: " + d, "", ""]
  {
    var d := ReplaceChar(e.data, '\n', ' ');
    var a := "event: " + e.name;
    var b := "data: " + d;
    assert '\n' !in a by {
      forall i | 0 <= i < |a| ensures a[i] != '\n' {
        if i >= 7 {
          assert a[i] == e.name[i - 7];
        }
      }
    }
    assert '\n' !in b by {
      forall i | 0 <= i < |b| ensures b[i] != '\n' {
        if i >= 6 {
          assert b[i] == d[i - 6];
        }
      }
    }
    assert SseFrame(e) == a + ['\n'] + (b + ['\n'] + ([] + ['\n'] + []));
    SplitAround(a, b + ['\n'] + ([] + ['\n'] + []), '\n');
    SplitAround(b, [] + ['\n'] + [], '\n');
    SplitAround([], [], '\n');
  }

  /** What the streaming response carries, frame after frame. */
  function Wire(events: seq<Event>): string
    decreases |events|
  {
    if events == [] then "" else Wire(events[..|events| - 1]) + SseFrame(events[|events| - 1])
  }

  /** Framing two runs of events one after the other frames each in turn. */
  lemma {:induction false} WireAppend(a: seq<Event>, b: seq<Event>)
    ensures Wire(a + b) == Wire(a) + Wire(b)
    decreases |b|
  {
    if b == [] {
      assert a + b == a;
    } else {
      var b' := b[..|b| - 1];
      assert (a + b)[..|a + b| - 1] == a + b';
      assert (a + b)[|a + b| - 1] == b[|b| - 1];
      WireAppend(a, b');
      AppendAssoc(Wire(a), Wire(b'), SseFrame(b[|b| - 1]));
    }
  }

  /** The response body of the streaming endpoint: the events sent so far, whose frames
      are the bytes written. */
  class EventStream {
    var sent: seq<Event>

    constructor()
      ensures sent == []
    {
      sent := [];
    }

    /** The bytes on the wire. */
    function Written(): string
      reads this
    {
      Wire(sent)
    }

    /** `sendEvent`: writes the frame of one event and flushes it. */
    method Send(name: string, data: string)
      modifies this
      ensures sent == old(sent) + [Event(name, data)]
    {
      sent := sent + [Event(name, data)];
    }
  }

  function Status(text: string): Event {
    Event("status", text)
  }

  /** The terminal event of a stream. */
  function Terminal(result: Result<Report>, render: Report -> string): (e: Event)
    ensures e.name == "result" <==> result.Ok?
    ensures e.name == "error" <==> result.Err?
  {
    match result
    case Ok(r) => Event("result", render(r))
    case Err(m) => Event("error", m)
  }

  /** The progress notes of the first `n` steps of the chain. */
  function Progress(n: nat): (es: seq<Event>)
    requires n <= 3
    ensures |es| == n
    ensures forall i :: 0 <= i < n ==> es[i].name == "status"
  {
    if n == 0 then []
    else if n == 1 then [Status(FetchingTweets)]
    else if n == 2 then [Status(FetchingTweets), Status(Summarizing)]
    else [Status(FetchingTweets), Status(Summarizing), Status(Moderating)]
  }

  /** The first credential `handle` finds missing or blank, if any. */
  function MissingCredential(env: Env): (m: Option<string>)
    ensures m.None? <==> env.xToken.Some? && !IsBlank(env.xToken.value) && env.openAiKey.Some? && !IsBlank(env.openAiKey.value)
  {
    if env.xToken.None? || IsBlank(env.xToken.value) then Some(MissingXToken)
    else if env.openAiKey.None? || IsBlank(env.openAiKey.value) then Some(MissingOpenAiKey)
    else None
  }

  /** The events `handleSse` sends. */
  function SseEvents(entries: map<string, CacheEntry>, topic: string, env: Env, clock: Clock, steps: Steps): seq<Event> {
    match MissingCredential(env)
    case Some(m) => [Event("error", m)]
    case None => ReportEvents(entries, NormalizeTopic(topic), topic, env, clock, steps)
  }

  /** The events once the credentials are present: a replay of a live entry under `key`,
      or the chain. */
  function ReportEvents(entries: map<string, CacheEntry>, key: string, topic: string, env: Env, clock: Clock, steps: Steps): seq<Event> {
    var hit := CachedReport(entries, key, clock.checkedAt);
    if hit.Some? then HitEvents(hit.value, steps.render)
    else RunEvents(RunPipeline(topic, ModelName(env), clock.generatedAt, steps), steps.render)
  }

  function HitEvents(r: Report, render: Report -> string): seq<Event> {
    [Status(LoadedFromCache), Event("result", render(r))]
  }

  /** The progress notes of the steps the chain started, then its terminal event. */
  function RunEvents(run: Run, render: Report -> string): seq<Event>
    requires run.stages <= 3
  {
    Progress(run.stages) + [Terminal(run.result, render)]
  }

  /** The cache after `handleSse`: nothing is written without credentials. */
  function SseCache(entries: map<string, CacheEntry>, topic: string, env: Env, clock: Clock, steps: Steps): map<string, CacheEntry> {
    if MissingCredential(env).Some? then entries else GenerateCache(entries, topic, env, clock, steps)
  }

  /** Every stream is progress notes followed by exactly one terminal event, `result` or
      `error`, and nothing after it. */
  lemma SseOneTerminal(entries: map<string, CacheEntry>, topic: string, env: Env, clock: Clock, steps: Steps)
    ensures var es := SseEvents(entries, topic, env, clock, steps);
      && 1 <= |es| <= 4
      && (es[|es| - 1].name == "result" || es[|es| - 1].name == "error")
      && forall i :: 0 <= i < |es| - 1 ==> es[i].name == "status"
  {
    if MissingCredential(env).None? && CachedReport(entries, NormalizeTopic(topic), clock.checkedAt).None? {
      var run := RunPipeline(topic, ModelName(env), clock.generatedAt, steps);
      var p := Progress(run.stages);
      var es := RunEvents(run, steps.render);
      assert forall i :: 0 <= i < |es| - 1 ==> es[i] == p[i];
    }
  }

  /** Without a credential the stream is a single `error` naming it. */
  lemma SseMissingCredential(entries: map<string, CacheEntry>, topic: string, env: Env, clock: Clock, steps: Steps)
    requires MissingCredential(env).Some?
    ensures SseEvents(entries, topic, env, clock, steps) == [Event("error", MissingCredential(env).value)]
    ensures SseCache(entries, topic, env, clock, steps) == entries
  {
  }

  /** A hit gives "Loaded from cache." and then the cached report, and writes nothing. */
  lemma SseCacheHit(entries: map<string, CacheEntry>, topic: string, env: Env, clock: Clock, steps: Steps)
    requires MissingCredential(env).None?
    requires CachedReport(entries, NormalizeTopic(topic), clock.checkedAt).Some?
    ensures var hit := CachedReport(entries, NormalizeTopic(topic), clock.checkedAt).value;
      && SseEvents(entries, topic, env, clock, steps) == [Event("status", "Loaded from cache."), Event("result", steps.render(hit))]
      && hit.cache
    ensures SseCache(entries, topic, env, clock, steps) == entries
  {
  }

  /** A successful miss gives the three progress notes in order and then the fresh report. */
  lemma SseFreshReport(entries: map<string, CacheEntry>, topic: string, env: Env, clock: Clock, steps: Steps)
    requires MissingCredential(env).None?
    requires CachedReport(entries, NormalizeTopic(topic), clock.checkedAt).None?
    requires RunPipeline(topic, ModelName(env), clock.generatedAt, steps).result.Ok?
    ensures var r := RunPipeline(topic, ModelName(env), clock.generatedAt, steps).result.value;
      && SseEvents(entries, topic, env, clock, steps)
           == [Event("status", "Fetching recent tweets..."), Event("status", "Summarizing with OpenAI..."),
               Event("status", "Running moderation..."), Event("result", steps.render(r))]
      && !r.cache
  {
    RunPipelineReport(topic, ModelName(env), clock.generatedAt, steps);
  }

  /** A failed miss gives the progress notes of the steps started and then the `error`. */
  lemma SseFailure(entries: map<string, CacheEntry>, topic: string, env: Env, clock: Clock, steps: Steps)
    requires MissingCredential(env).None?
    requires CachedReport(entries, NormalizeTopic(topic), clock.checkedAt).None?
    requires RunPipeline(topic, ModelName(env), clock.generatedAt, steps).result.Err?
    ensures var run := RunPipeline(topic, ModelName(env), clock.generatedAt, steps);
      SseEvents(entries, topic, env, clock, steps) == Progress(run.stages) + [Event("error", run.result.message)]
    ensures SseCache(entries, topic, env, clock, steps) == entries
  {
  }

  /** The events that reach the client from `handleSse` as the source is written. The
      `catch` block runs after try-with-resources has closed the response stream, so its
      `error` frame goes to a closed stream: that write throws and never reaches the
      client. A failed chain's stream therefore ends with its last progress note. */
  function SseEventsAsWritten(entries: map<string, CacheEntry>, topic: string, env: Env, clock: Clock, steps: Steps): seq<Event> {
    match MissingCredential(env)
    case Some(m) => [Event("error", m)]
    case None =>
      var hit := CachedReport(entries, NormalizeTopic(topic), clock.checkedAt);
      if hit.Some? then HitEvents(hit.value, steps.render)
      else
        var run := RunPipeline(topic, ModelName(env), clock.generatedAt, steps);
        if run.result.Ok? then RunEvents(run, steps.render) else Progress(run.stages)
  }

  /** As written, a failed miss sends no `error` at all. The stream stops after the
      progress note of the step that threw, which is the intended stream without its
      `error` event. */
  lemma SseFailureAsWritten(entries: map<string, CacheEntry>, topic: string, env: Env, clock: Clock, steps: Steps)
    requires MissingCredential(env).None?
    requires CachedReport(entries, NormalizeTopic(topic), clock.checkedAt).None?
    requires RunPipeline(topic, ModelName(env), clock.generatedAt, steps).result.Err?
    ensures var es, run := SseEventsAsWritten(entries, topic, env, clock, steps), RunPipeline(topic, ModelName(env), clock.generatedAt, steps);
      && 1 <= |es| <= 3
      && es[|es| - 1].name == "status"
      && (forall i :: 0 <= i < |es| ==> es[i].name != "error")
      && SseEvents(entries, topic, env, clock, steps) == es + [Event("error", run.result.message)]
  {
  }

  /** One input showing it. Both credentials are set, the cache is empty, and the X
      fetch throws "rate limited". The client then receives only
      "Fetching recent tweets...", where the intended stream ends with the `error`. */
  lemma SseFetchFailureExample()
    ensures var env := Env(Some("x"), Some("k"), None, None);
      var clock := Clock(0, "now", 0);
      var steps := Steps((t: string, n: nat) => Err("rate limited"),
                         (t: string, ts: seq<Tweet>) => Err("unused"),
                         (p: Option<string>) => Err("unused"),
                         (r: Report) => "");
      && SseEventsAsWritten(map[], "ai", env, clock, steps) == [Event("status", "Fetching recent tweets...")]
      && SseEvents(map[], "ai", env, clock, steps)
           == [Event("status", "Fetching recent tweets..."), Event("error", "rate limited")]
  {
    var env := Env(Some("x"), Some("k"), None, None);
    assert !IsBlank("x") by { assert !IsJavaWhitespace("x"[0]); }
    assert !IsBlank("k") by { assert !IsJavaWhitespace("k"[0]); }
    assert MissingCredential(env).None?;
  }

  /** On every other path the stream as written is the intended one. */
  lemma SseAsWrittenElsewhere(entries: map<string, CacheEntry>, topic: string, env: Env, clock: Clock, steps: Steps)
    requires MissingCredential(env).Some?
      || CachedReport(entries, NormalizeTopic(topic), clock.checkedAt).Some?
      || RunPipeline(topic, ModelName(env), clock.generatedAt, steps).result.Ok?
    ensures SseEventsAsWritten(entries, topic, env, clock, steps) == SseEvents(entries, topic, env, clock, steps)
  {
  }

  /** `handleSse` after the response headers: the credential checks, then the cache and the
      chain. */
  method HandleSse(cache: ResponseCache, os: EventStream, topic: string, env: Env, clock: Clock, steps: Steps)
    modifies cache, os
    ensures os.sent == old(os.sent) + SseEvents(old(cache.entries), topic, env, clock, steps)
    ensures cache.entries == SseCache(old(cache.entries), topic, env, clock, steps)
  {
    if env.xToken.None? || IsBlank(env.xToken.value) {
      os.Send("error", MissingXToken);
      return;
    }
    if env.openAiKey.None? || IsBlank(env.openAiKey.value) {
      os.Send("error", MissingOpenAiKey);
      return;
    }
    StreamReport(cache, os, NormalizeTopic(topic), topic, env, clock, steps);
  }

  /** The part of `handleSse` once the credentials are present: a hit is replayed, a miss
      runs the chain. */
  method StreamReport(cache: ResponseCache, os: EventStream, normalized: string, topic: string, env: Env, clock: Clock, steps: Steps)
    modifies cache, os
    ensures os.sent == old(os.sent) + ReportEvents(old(cache.entries), normalized, topic, env, clock, steps)
    ensures cache.entries == KeyedCache(old(cache.entries), normalized, topic, env, clock, steps)
  {
    var cached := cache.Get(normalized);
    if cached.Some? && !Expired(cached.value, clock.checkedAt) {
      var out := cached.value.payload.(cache := true);
      os.Send("status", LoadedFromCache);
      os.Send("result", steps.render(out));
      return;
    }
    StreamRun(cache, os, topic, normalized, env, clock, steps);
  }

  /** The chain on the streaming endpoint: a progress note before each step, then the
      report or the error of the step that threw. */
  method StreamRun(cache: ResponseCache, os: EventStream, topic: string, key: string, env: Env, clock: Clock, steps: Steps)
    requires CachedReport(cache.entries, key, clock.checkedAt).None?
    modifies cache, os
    ensures os.sent == old(os.sent) + ReportEvents(old(cache.entries), key, topic, env, clock, steps)
    ensures cache.entries == KeyedCache(old(cache.entries), key, topic, env, clock, steps)
  {
    ghost var run := RunPipeline(topic, ModelName(env), clock.generatedAt, steps);
    os.Send("status", FetchingTweets);
    var model := ModelName(env);
    var tweets := steps.fetch(topic, TargetCount);
    if tweets.Err? {
      os.Send("error", tweets.message);
      assert run == Run(1, Err(tweets.message));
      assert RunEvents(run, steps.render) == [Status(FetchingTweets), Event("error", tweets.message)];
      return;
    }
    os.Send("status", Summarizing);
    var summary := steps.summarize(topic, tweets.value);
    if summary.Err? {
      os.Send("error", summary.message);
      assert run == Run(2, Err(summary.message));
      assert RunEvents(run, steps.render) == [Status(FetchingTweets), Status(Summarizing), Event("error", summary.message)];
      return;
    }
    os.Send("status", Moderating);
    var mod := steps.moderate(summary.value.suggestedPost);
    if mod.Err? {
      os.Send("error", mod.message);
      assert run == Run(3, Err(mod.message));
      assert RunEvents(run, steps.render) == Progress(3) + [Event("error", mod.message)];
      return;
    }
    var s := summary.value;
    if mod.value.flagged {
      s := s.(suggestedPost := Some(Withheld));
    }
    var report := Report(topic, clock.generatedAt, model, tweets.value, s, mod.value, false);
    cache.Put(key, NewEntry(report, TtlSeconds(env.cacheTtl), clock.storedAt));
    os.Send("result", steps.render(report));
    assert run == Run(3, Ok(report));
    assert RunEvents(run, steps.render) == Progress(3) + [Event("result", steps.render(report))];
  }

  // ---------------------------------------------------------------- query string

  /** The index of the first '=' in `s`. */
  function FirstEquals(s: string): (r: Option<nat>)
    ensures r.None? <==> '=' !in s
    ensures r.Some? ==> r.value < |s| && s[r.value] == '=' && '=' !in s[..r.value]
    decreases |s|
  {
    if s == [] then None
    else if s[0] == '=' then Some(0)
    else
      match FirstEquals(s[1..])
      case None => None
      case Some(k) =>
        assert s[..k + 1] == [s[0]] + s[1..][..k];
        Some(k + 1)
  }

  /** `pair.split("=", 2)` when it gives two parts: the key before the first '=' and the
      value after it. A pair with no '=' gives one part. */
  function SplitPair(pair: string): (kv: Option<(string, string)>)
    ensures kv.None? <==> '=' !in pair
    ensures kv.Some? ==> pair == kv.value.0 + "=" + kv.value.1 && '=' !in kv.value.0
  {
    match FirstEquals(pair)
    case None => None
    case Some(k) =>
      assert pair == pair[..k] + "=" + pair[k + 1..];
      Some((pair[..k], pair[k + 1..]))
  }

  predicate PairMatches(pair: string, key: string) {
    SplitPair(pair).Some? && SplitPair(pair).value.0 == key
  }

  /** The decoded value of the first pair whose key is `key`, or "". */
  function ParamIn(pairs: seq<string>, key: string, decode: string -> string): string
    decreases |pairs|
  {
    if pairs == [] then ""
    else if PairMatches(pairs[0], key) then decode(SplitPair(pairs[0]).value.1)
    else ParamIn(pairs[1..], key, decode)
  }

  /** `getQueryParam`. `query` is the text of `URI.getQuery()`, whose percent-escapes
      have already been decoded once. `decode` is the second decode the source applies
      to the value. */
  function QueryParam(query: Option<string>, key: string, decode: string -> string): string {
    if query.None? || IsBlank(query.value) then "" else ParamIn(Split(query.value, '&'), key, decode)
  }

  /** The lookup names the first matching pair: when pair `i` is the first whose key is
      `key`, its decoded value is the answer; when there is none, the answer is "". */
  lemma {:induction false} ParamInFirst(pairs: seq<string>, key: string, decode: string -> string, i: nat)
    ensures (forall j :: 0 <= j < |pairs| ==> !PairMatches(pairs[j], key)) ==> ParamIn(pairs, key, decode) == ""
    ensures i < |pairs| && PairMatches(pairs[i], key) && (forall j :: 0 <= j < i ==> !PairMatches(pairs[j], key)) ==>
      ParamIn(pairs, key, decode) == decode(SplitPair(pairs[i]).value.1)
    decreases |pairs|
  {
    if pairs != [] {
      if i > 0 {
        ParamInFirst(pairs[1..], key, decode, i - 1);
      } else {
        ParamInFirst(pairs[1..], key, decode, 0);
      }
    }
  }

  /** `getQueryParam`: "" for a missing or blank query; otherwise the decoded value of the
      first `&`-separated pair `key=value`, the pieces of the query being exactly what joins
      back to it. */
  lemma QueryParamRule(query: string, key: string, decode: string -> string, i: nat)
    ensures IsBlank(query) ==> QueryParam(Some(query), key, decode) == ""
    ensures QueryParam(None, key, decode) == ""
    ensures var pairs := Split(query, '&');
      && Join("&", pairs) == query
      && (forall j :: 0 <= j < |pairs| ==> '&' !in pairs[j])
      && (!IsBlank(query) && i < |pairs| && PairMatches(pairs[i], key) && (forall j :: 0 <= j < i ==> !PairMatches(pairs[j], key)) ==>
            QueryParam(Some(query), key, decode) == decode(SplitPair(pairs[i]).value.1))
      && (!IsBlank(query) && (forall j :: 0 <= j < |pairs| ==> !PairMatches(pairs[j], key)) ==>
            QueryParam(Some(query), key, decode) == "")
  {
    SplitJoin(query, '&');
    ParamInFirst(Split(query, '&'), key, decode, i);
  }

  /** `getQueryParam`, the loop over the pairs with its early return. */
  method GetQueryParam(query: Option<string>, key: string, decode: string -> string) returns (value: string)
    ensures value == QueryParam(query, key, decode)
  {
    if query.None? || IsBlank(query.value) {
      return "";
    }
    var pairs := Split(query.value, '&');
    var i := 0;
    while i < |pairs|
      invariant 0 <= i <= |pairs|
      invariant ParamIn(pairs[i..], key, decode) == ParamIn(pairs, key, decode)
    {
      var kv := SplitPair(pairs[i]);
      if kv.Some? && kv.value.0 == key {
        return decode(kv.value.1);
      }
      assert pairs[i..][1..] == pairs[i + 1..];
      i := i + 1;
    }
    return "";
  }

  // ---------------------------------------------------------------- the handler

  /** A reply of `GenerateHandler.handle`: plain text, a JSON body, or the event stream. */
  datatype Reply = Plain(status: int, text: string) | Json(status: int, body: Outcome) | Stream(status: int)

  /** The streaming endpoint takes GET, the JSON endpoint POST, in any letter case. */
  predicate MethodAllowed(sse: bool, httpMethod: string) {
    EqualsIgnoreCase(httpMethod, if sse then "GET" else "POST")
  }

  /** The topic of the request: the `topic` query parameter on the streaming endpoint, the
      trimmed `topic` field of the body on the JSON endpoint. */
  function RequestTopic(sse: bool, query: Option<string>, bodyTopic: string, decode: string -> string): string {
    if sse then QueryParam(query, "topic", decode) else Trim(bodyTopic)
  }

  /** The status of the JSON endpoint's reply once the topic and credentials are in place. */
  function GenerateStatus(out: Outcome): (status: int)
    ensures status == 500 <==> out.Failed?
    ensures status == 200 <==> out.Served?
  {
    if out.Failed? then 500 else 200
  }

  /** `GenerateHandler.handle`. `bodyTopic` is the text of the body's `topic` field. */
  method Handle(cache: ResponseCache, os: EventStream, sse: bool, httpMethod: string, query: Option<string>,
                bodyTopic: string, env: Env, clock: Clock, steps: Steps, decode: string -> string)
    returns (reply: Reply)
    modifies cache, os
    ensures !MethodAllowed(sse, httpMethod) ==>
      reply == Plain(405, "Method Not Allowed") && cache.entries == old(cache.entries) && os.sent == old(os.sent)
    ensures var topic := RequestTopic(sse, query, bodyTopic, decode);
      MethodAllowed(sse, httpMethod) && IsBlank(topic) ==>
        reply == Json(400, Failed("Topic is required")) && cache.entries == old(cache.entries) && os.sent == old(os.sent)
    ensures var topic := RequestTopic(sse, query, bodyTopic, decode);
      MethodAllowed(sse, httpMethod) && !IsBlank(topic) && sse ==>
        && reply == Stream(200)
        && os.sent == old(os.sent) + SseEvents(old(cache.entries), topic, env, clock, steps)
        && cache.entries == SseCache(old(cache.entries), topic, env, clock, steps)
    ensures var topic := RequestTopic(sse, query, bodyTopic, decode);
      MethodAllowed(sse, httpMethod) && !IsBlank(topic) && !sse && MissingCredential(env).Some? ==>
        reply == Json(400, Failed(MissingCredential(env).value)) && cache.entries == old(cache.entries) && os.sent == old(os.sent)
    ensures var topic := RequestTopic(sse, query, bodyTopic, decode);
      MethodAllowed(sse, httpMethod) && !IsBlank(topic) && !sse && MissingCredential(env).None? ==>
        var out := GenerateOutcome(old(cache.entries), topic, env, clock, steps);
        && reply == Json(GenerateStatus(out), out)
        && cache.entries == GenerateCache(old(cache.entries), topic, env, clock, steps)
        && os.sent == old(os.sent)
  {
    if sse && !EqualsIgnoreCase(httpMethod, "GET") {
      return Plain(405, MethodNotAllowed);
    }
    if !sse && !EqualsIgnoreCase(httpMethod, "POST") {
      return Plain(405, MethodNotAllowed);
    }
    var topic;
    if sse {
      topic := GetQueryParam(query, "topic", decode);
    } else {
      topic := Trim(bodyTopic);
    }
    assert topic == RequestTopic(sse, query, bodyTopic, decode);
    if IsBlank(topic) {
      return Json(400, Failed(TopicRequired));
    }
    if sse {
      HandleSse(cache, os, topic, env, clock, steps);
      return Stream(200);
    }
    reply := GenerateJson(cache, topic, env, clock, steps);
  }

  /** The JSON endpoint once it has a topic: the credential checks, then
      `generateNonStreaming` and its status code. */
  method GenerateJson(cache: ResponseCache, topic: string, env: Env, clock: Clock, steps: Steps) returns (reply: Reply)
    modifies cache
    ensures MissingCredential(env).Some? ==>
      reply == Json(400, Failed(MissingCredential(env).value)) && cache.entries == old(cache.entries)
    ensures MissingCredential(env).None? ==>
      var out := GenerateOutcome(old(cache.entries), topic, env, clock, steps);
      reply == Json(GenerateStatus(out), out) && cache.entries == GenerateCache(old(cache.entries), topic, env, clock, steps)
  {
    if env.xToken.None? || IsBlank(env.xToken.value) {
      return Json(400, Failed(MissingXToken));
    }
    if env.openAiKey.None? || IsBlank(env.openAiKey.value) {
      return Json(400, Failed(MissingOpenAiKey));
    }
    var out := Generate(cache, topic, env, clock, steps);
    var status := if out.Failed? then 500 else 200;
    reply := Json(status, out);
  }
}
