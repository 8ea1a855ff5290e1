/** The request pipeline of `DiscordAPIClient` (app.js): a cache check, then
    a single-flight queue whose dispatch loop spaces requests 500 ms apart
    (counted from the last success), puts a throttled job (HTTP 429) back at
    the front after the server's cool-down without touching its retry
    budget, and retries any other failure at the front with linear backoff,
    at most three times.

    Time is the parameter `now` (for `Date.now()`). The host's pending
    callbacks for this client (the dispatch timer, the awaited `fetch`, a
    re-queue timer) are the explicit list `events`. A reply from `fetch` is
    an input value, and each job's promise is the entry `settled[id]`. */
module RequestQueue {
  import opened Text
  import TtlCache

  /** Milliseconds between a success and the next dispatch (the literal 500
      in `processQueue`, i.e. two requests per second). */
  const MinSpacing: int := 500
  /** `CONFIG.RETRY_DELAY`, the backoff step in milliseconds. */
  const RetryDelay: nat := 1000
  /** `CONFIG.MAX_RETRIES`. */
  const MaxRetries: nat := 3

  /** A parsed response body. Numbers are integers here. */
  datatype Json =
    | JNull
    | JBool(b: bool)
    | JNumber(n: int)
    | JString(s: string)
    | JArray(items: seq<Json>)
    | JObject(fields: seq<(string, Json)>)

  /** JavaScript truthiness of a parsed body: `null`, `false`, `0` and `""`
      are falsy, every array and object is truthy. */
  predicate Truthy(j: Json)
  {
    match j
    case JNull => false
    case JBool(b) => b
    case JNumber(n) => n != 0
    case JString(s) => s != ""
    case _ => true
  }

  /** The options object of `request`: the HTTP method (GET when absent), the
      JSON value whose serialisation is the body, and the `force` flag. */
  datatype Options = Options(httpMethod: Option<string>, body: Option<Json>, force: bool)

  /** `{}`, the default options. */
  const NoOptions := Options(None, None, false)

  /** The cache key `endpoint + JSON.stringify(options)`, as the pair it is
      built from. */
  datatype Key = Key(endpoint: string, options: Options)

  type JobId = nat

  /** A queued job: `{endpoint, options, resolve, reject, retries}`; the id
      stands for the resolve/reject pair. */
  datatype Job = Job(id: JobId, endpoint: string, options: Options, retries: nat)

  function KeyOf(job: Job): Key
  {
    Key(job.endpoint, job.options)
  }

  /** The `Retry-After` header: absent or empty (both read as `'1'` by
      `header || '1'`), a number `parseInt` reads, or text it cannot read
      (NaN). */
  datatype RetryAfter = NoHeader | Header(seconds: int) | Unparsable

  /** What `fetch` gives: a thrown network error, or a response with its
      status, `Retry-After` header, body text, and the body parsed as JSON
      (`None` when `response.json()` throws). */
  datatype Reply =
    | NetworkError
    | Response(status: int, retryAfter: RetryAfter, text: string, json: Option<Json>)

  predicate Ok(status: int)
  {
    200 <= status <= 299
  }

  /** The reply is a throttling signal (HTTP 429). */
  predicate Throttle(reply: Reply)
  {
    reply.Response? && reply.status == 429
  }

  /** The reply is a success: a 2xx status whose body parses. */
  predicate Success(reply: Reply)
  {
    reply.Response? && Ok(reply.status) && reply.json.Some?
  }

  /** The error a job is rejected with. */
  datatype Failure = HttpFailure(status: int, text: string) | NetworkFailure | ParseFailure

  /** How a job's promise settled. */
  datatype Outcome = Resolved(value: Json) | Rejected(error: Failure)

  /** `ToInt32`: the 32-bit signed integer congruent to `x` modulo 2^32,
      which is what the host makes of a timer delay (a WebIDL `long`). */
  function ToInt32(x: int): (y: int)
    ensures -0x8000_0000 <= y < 0x8000_0000
    ensures (y - x) % 0x1_0000_0000 == 0
    ensures -0x8000_0000 <= x < 0x8000_0000 ==> y == x
  {
    (x + 0x8000_0000) % 0x1_0000_0000 - 0x8000_0000
  }

  /** The delay the host really waits for `setTimeout(f, ms)`: `ms` reduced
      to 32 bits, and 0 when that is negative. */
  function TimerDelay(ms: int): (d: nat)
    ensures d < 0x8000_0000
    ensures d == 0 || (d - ms) % 0x1_0000_0000 == 0
    ensures 0 <= ms < 0x8000_0000 ==> d == ms
    ensures -0x8000_0000 <= ms < 0 ==> d == 0
  {
    var y := ToInt32(ms);
    if y < 0 then 0 else y
  }

  /** The wait before a throttled job goes back in the queue:
      `parseInt(header || '1') * 1000`, handed to `setTimeout`. A NaN delay
      waits 0 ms; a delay past 32 bits wraps, so a very long `Retry-After`
      can fire almost at once. */
  function CoolDown(h: RetryAfter): (ms: nat)
    ensures h.NoHeader? ==> ms == 1000
    ensures h.Unparsable? ==> ms == 0
    ensures h.Header? && 0 <= h.seconds * 1000 < 0x8000_0000 ==> ms == h.seconds * 1000
    ensures h.Header? && -0x8000_0000 <= h.seconds * 1000 < 0 ==> ms == 0
    ensures h.Header? ==> ms < 0x8000_0000 && (ms == 0 || (ms - h.seconds * 1000) % 0x1_0000_0000 == 0)
  {
    match h
    case NoHeader => 1000
    case Header(sec) => TimerDelay(sec * 1000)
    case Unparsable => 0
  }

  /** A `Retry-After` of 2147484 s (just over 24.8 days) is not waited
      for at all, and one of 4294968 s waits 704 ms: the delay wraps
      modulo 2^32. */
  lemma LongRetryAfterWraps()
    ensures CoolDown(Header(2147483)) == 2147483000
    ensures CoolDown(Header(2147484)) == 0
    ensures CoolDown(Header(4294968)) == 704
  {
    assert ToInt32(2147484000) == 2147484000 - 0x1_0000_0000;
    assert ToInt32(4294968000) == 704;
  }

  /** What the dispatch loop does with one reply. */
  datatype Decision =
    | Succeed(value: Json)
    | Throttled(delay: nat)
    | Retry(retries: nat, delay: nat)
    | Reject(error: Failure)

  /** The failure path shared by a non-429 error status, a thrown `fetch`
      and a body that does not parse. */
  function Failed(retries: nat, error: Failure): (d: Decision)
    ensures retries < MaxRetries ==> d == Retry(retries + 1, RetryDelay * (retries + 1))
    ensures retries >= MaxRetries ==> d == Reject(error)
  {
    if retries < MaxRetries then Retry(retries + 1, RetryDelay * (retries + 1)) else Reject(error)
  }

  /** The decision for a job that has been retried `retries` times. A
      success resolves; a 429 waits for the cool-down and keeps the retry
      count; every other reply is a failure, retried after 1000, 2000, 3000
      ms while fewer than three retries were made, and rejected after. */
  function Decide(retries: nat, reply: Reply): (d: Decision)
    ensures d.Succeed? <==> Success(reply)
    ensures d.Succeed? ==> d.value == reply.json.value
    ensures d.Throttled? <==> Throttle(reply)
    ensures d.Throttled? ==> d.delay == CoolDown(reply.retryAfter)
    ensures d.Retry? <==> !Success(reply) && !Throttle(reply) && retries < MaxRetries
    ensures d.Retry? ==> d.retries == retries + 1 && d.delay == RetryDelay * d.retries
    ensures d.Retry? ==> 1000 <= d.delay <= 3000
    ensures d.Reject? <==> !Success(reply) && !Throttle(reply) && retries >= MaxRetries
    ensures d.Reject? && reply.Response? ==>
      d.error == (if Ok(reply.status) then ParseFailure else HttpFailure(reply.status, reply.text))
    ensures d.Reject? && reply.NetworkError? ==> d.error == NetworkFailure
  {
    match reply
    case NetworkError => Failed(retries, NetworkFailure)
    case Response(status, retryAfter, text, json) =>
      if !Ok(status) then
        if status == 429 then Throttled(CoolDown(retryAfter))
        else Failed(retries, HttpFailure(status, text))
      else if json.None? then Failed(retries, ParseFailure)
      else Succeed(json.value)
  }

  /** The wait before the next dispatch, `max(0, 500 - (now - last))`: never
      negative, never more than 500 ms, and just long enough that the
      dispatch comes at least 500 ms after `last`. */
  function RateDelay(now: int, last: int): (d: int)
    ensures 0 <= d
    ensures now >= last ==> d <= MinSpacing
    ensures now + d >= last + MinSpacing
    ensures d > 0 ==> now + d == last + MinSpacing
  {
    if MinSpacing - (now - last) > 0 then MinSpacing - (now - last) else 0
  }

  /** A pending callback of this client on the host's event loop. */
  datatype Event =
    | Dispatch(due: int)            // the timer set by `processQueue`
    | Awaiting(job: Job)            // the `fetch` of a dispatched job
    | Requeue(job: Job, due: int)   // the timer that puts a job back at the front

  datatype ClientState = ClientState(
    queue: seq<Job>,
    processing: bool,
    lastRequestTime: int,
    events: seq<Event>,
    settled: map<JobId, Outcome>,
    nextJob: JobId)

  /** The client together with the cache it shares. */
  datatype Pipeline = Pipeline(client: ClientState, cache: TtlCache.CacheState<Key, Json>)

  /** A new client: `queue = []`, `processing = false`,
      `lastRequestTime = 0`. */
  function Initial(): ClientState
  {
    ClientState([], false, 0, [], map[], 0)
  }

  /** The jobs held by pending callbacks, in order. */
  function EventJobs(es: seq<Event>): seq<Job>
  {
    if es == [] then []
    else (if es[0].Dispatch? then [] else [es[0].job]) + EventJobs(es[1..])
  }

  lemma EventJobsOfOne(es: seq<Event>)
    requires |es| == 1
    ensures EventJobs(es) == if es[0].Dispatch? then [] else [es[0].job]
  {
    assert es[1..] == [];
  }

  /** Every job not yet settled: the one a callback holds, then the queue. */
  function Live(s: ClientState): seq<Job>
  {
    EventJobs(s.events) + s.queue
  }

  ghost predicate DistinctIds(jobs: seq<Job>)
  {
    forall a, b | 0 <= a < b < |jobs| :: jobs[a].id != jobs[b].id
  }

  /** The client invariant. At most one callback is pending, and one is
      exactly while `processing`; an idle client has an empty queue; a
      pending dispatch has a job to take and is due at least 500 ms after
      the last success; no live job has used more than three retries; live
      jobs are distinct, have ids handed out earlier, and are unsettled. */
  ghost predicate ClientInv(s: ClientState)
  {
    && |s.events| <= 1
    && (s.processing <==> |s.events| == 1)
    && (!s.processing ==> s.queue == [])
    && (forall e | e in s.events && e.Dispatch? ::
          s.queue != [] && e.due >= s.lastRequestTime + MinSpacing)
    && JobsInv(s)
  }

  /** The part of the invariant about jobs: see `ClientInv`. */
  ghost predicate JobsInv(s: ClientState)
  {
    JobsOk(Live(s), s.settled, s.nextJob)
  }

  /** Live jobs `live` against the settled promises and the next id. */
  ghost predicate JobsOk(live: seq<Job>, settled: map<JobId, Outcome>, nextJob: JobId)
  {
    && (forall k | 0 <= k < |live| ::
          live[k].retries <= MaxRetries && live[k].id < nextJob && live[k].id !in settled)
    && DistinctIds(live)
    && (forall id | id in settled :: id < nextJob)
  }

  ghost predicate Inv(p: Pipeline)
  {
    ClientInv(p.client) && TtlCache.Inv(p.cache)
  }

  lemma InitialInv()
    ensures ClientInv(Initial())
  {
  }

  /** `processQueue()` up to its `setTimeout`: an empty queue stops the
      loop; otherwise the loop runs and the dispatch timer is armed for the
      rate-limit delay. */
  function ProcessQueueStep(s: ClientState, now: int): (r: ClientState)
    ensures r.queue == s.queue && r.settled == s.settled && r.nextJob == s.nextJob
    ensures r.lastRequestTime == s.lastRequestTime
    ensures s.queue == [] ==> !r.processing && r.events == s.events
    ensures s.queue != [] ==>
      r.processing && r.events == s.events + [Dispatch(now + RateDelay(now, s.lastRequestTime))]
  {
    if s.queue == [] then s.(processing := false)
    else s.(processing := true, events := s.events + [Dispatch(now + RateDelay(now, s.lastRequestTime))])
  }

  /** What `request` returns: the cached value, or the id of the job whose
      promise will settle later. */
  datatype RequestResult = Cached(value: Json) | Enqueued(id: JobId)

  /** The miss path of `request`: append a fresh job with no retries and
      start the loop unless it is running. */
  function Enqueue(s: ClientState, endpoint: string, options: Options, now: int): (r: ClientState)
    requires ClientInv(s)
    ensures ClientInv(r)
    ensures r.queue == s.queue + [Job(s.nextJob, endpoint, options, 0)]
    ensures r.nextJob == s.nextJob + 1 && s.nextJob !in s.settled
    ensures r.settled == s.settled && r.lastRequestTime == s.lastRequestTime
    ensures s.processing ==> r.events == s.events && r.processing
    ensures !s.processing ==>
      r.processing && r.events == [Dispatch(now + RateDelay(now, s.lastRequestTime))]
  {
    var job := Job(s.nextJob, endpoint, options, 0);
    var s1 := s.(queue := s.queue + [job], nextJob := s.nextJob + 1);
    assert Live(s1) == Live(s) + [job];
    if !s.processing then
      assert s.events == [] && s.queue == [];
      var r := ProcessQueueStep(s1, now);
      EventJobsOfOne(r.events);
      assert Live(r) == [job];
      r
    else
      s1
  }

  /** The cache answers `request` when it holds a truthy value for the key
      and `force` is not set. */
  predicate CacheAnswers(cached: Option<Json>, options: Options)
  {
    cached.Some? && Truthy(cached.value) && !options.force
  }

  /** `request(endpoint, options)` exactly as app.js writes it: look the key
      up (which may evict a stale entry), answer from the cache when it
      can, and enqueue otherwise. */
  function RequestStepAsWritten(p: Pipeline, endpoint: string, options: Options, now: int): (res: (RequestResult, Pipeline))
    requires Inv(p)
    ensures Inv(res.1)
    ensures var lookup := TtlCache.Lookup(p.cache, Key(endpoint, options), now);
      && res.1.cache == lookup.1
      && (res.0.Cached? <==> CacheAnswers(lookup.0, options))
      && (res.0.Cached? ==> res.0.value == lookup.0.value && res.1.client == p.client)
      && (res.0.Enqueued? ==> res.1.client == Enqueue(p.client, endpoint, options, now)
                              && res.0.id == p.client.nextJob)
  {
    var (cached, cache) := TtlCache.Lookup(p.cache, Key(endpoint, options), now);
    if CacheAnswers(cached, options) then (Cached(cached.value), Pipeline(p.client, cache))
    else (Enqueued(p.client.nextJob), Pipeline(Enqueue(p.client, endpoint, options, now), cache))
  }

  /** A request that reads: no method, or GET. */
  predicate IsRead(options: Options)
  {
    options.httpMethod.None? || options.httpMethod == Some("GET")
  }

  /** `request` with the cache answering reads only. The code as written
      also answers a repeated POST (the same message sent twice within the
      time to live) from the cache, so the second message is never sent;
      this is the corrected definition the client uses. */
  function RequestStep(p: Pipeline, endpoint: string, options: Options, now: int): (res: (RequestResult, Pipeline))
    requires Inv(p)
    ensures Inv(res.1)
    ensures IsRead(options) ==> res == RequestStepAsWritten(p, endpoint, options, now)
    ensures !IsRead(options) ==> res.0 == Enqueued(p.client.nextJob)
    ensures var lookup := TtlCache.Lookup(p.cache, Key(endpoint, options), now);
      && res.1.cache == lookup.1
      && (res.0.Cached? <==> IsRead(options) && CacheAnswers(lookup.0, options))
      && (res.0.Enqueued? ==> res.1.client == Enqueue(p.client, endpoint, options, now))
  {
    var (cached, cache) := TtlCache.Lookup(p.cache, Key(endpoint, options), now);
    if IsRead(options) && CacheAnswers(cached, options) then (Cached(cached.value), Pipeline(p.client, cache))
    else (Enqueued(p.client.nextJob), Pipeline(Enqueue(p.client, endpoint, options, now), cache))
  }

  /** Settling the job of the one pending callback leaves a client whose
      live jobs are the queue, with the settled job's id recorded. */
  lemma AfterSettle(s: ClientState, s1: ClientState, o: Outcome)
    requires JobsInv(s) && |s.events| == 1 && !s.events[0].Dispatch?
    requires s1.events == [] && s1.queue == s.queue && s1.nextJob == s.nextJob
    requires s1.settled == s.settled[s.events[0].job.id := o]
    ensures Live(s1) == s.queue
    ensures JobsInv(s1)
  {
    EventJobsOfOne(s.events);
    var job := s.events[0].job;
    assert Live(s) == [job] + s.queue;
    assert Live(s1) == s.queue;
    DropSettledHead(job, s.queue, s.settled, s.nextJob, o);
  }

  lemma DropSettledHead(job: Job, queue: seq<Job>, settled: map<JobId, Outcome>, nextJob: JobId, o: Outcome)
    requires JobsOk([job] + queue, settled, nextJob)
    ensures JobsOk(queue, settled[job.id := o], nextJob)
  {
    var live := [job] + queue;
    assert live[0] == job;
    forall k | 0 <= k < |queue|
      ensures queue[k].retries <= MaxRetries && queue[k].id < nextJob
      ensures queue[k].id !in settled[job.id := o]
    {
      assert live[k + 1] == queue[k];
      assert live[0] == job;
    }
    forall a, b | 0 <= a < b < |queue| ensures queue[a].id != queue[b].id {
      assert live[a + 1] == queue[a] && live[b + 1] == queue[b];
    }
  }

  /** A job that keeps its id and stays within the retry budget can take
      the place of the head. */
  lemma ReplaceHead(job: Job, job': Job, queue: seq<Job>, settled: map<JobId, Outcome>, nextJob: JobId)
    requires JobsOk([job] + queue, settled, nextJob)
    requires job'.id == job.id && job'.retries <= MaxRetries
    ensures JobsOk([job'] + queue, settled, nextJob)
  {
    var live, live' := [job] + queue, [job'] + queue;
    forall k | 0 < k < |live'| ensures live'[k] == live[k] {
    }
    assert live[0] == job && live'[0] == job';
  }

  /** Once no callback is pending, `processQueue` restores the invariant. */
  lemma ResumeLoop(s: ClientState, now: int)
    requires s.events == [] && JobsInv(s)
    ensures ClientInv(ProcessQueueStep(s, now))
  {
    var r := ProcessQueueStep(s, now);
    if s.queue != [] {
      EventJobsOfOne(r.events);
      assert Live(r) == Live(s);
    }
  }

  /** The dispatch timer fires: the head of the queue is shifted off and its
      `fetch` starts. (The code's guard for an empty queue is kept; the
      invariant makes it unreachable, see `DispatchFindsJob`.) */
  function FireDispatch(s: ClientState, now: int): (r: ClientState)
    requires ClientInv(s) && s.events != [] && s.events[0].Dispatch? && now >= s.events[0].due
    ensures ClientInv(r)
    ensures r.processing && r.events == [Awaiting(s.queue[0])] && r.queue == s.queue[1..]
    ensures r.settled == s.settled && r.lastRequestTime == s.lastRequestTime && r.nextJob == s.nextJob
  {
    var rest := s.events[1..];
    if s.queue == [] then s.(processing := false, events := rest)
    else
      var r := s.(queue := s.queue[1..], events := s.events[1..] + [Awaiting(s.queue[0])]);
      assert s.events[1..] == [];
      EventJobsOfOne(s.events);
      EventJobsOfOne(r.events);
      assert Live(r) == Live(s);
      r
  }

  /** The awaited `fetch` of the dispatched job completes with `reply` at
      time `now`. A 429 re-arms a timer to put the same job back after the
      cool-down; another failure below the budget re-arms it with one more
      retry and the linear backoff; both leave `processing` set, so nothing
      else is dispatched meanwhile. A success stores the body in the cache
      under the job's key, resolves the job and records the time; a failure
      past the budget rejects it; both then let the loop go on. */
  function ReceiveReply(p: Pipeline, reply: Reply, now: int): (r: Pipeline)
    requires Inv(p) && p.client.events != [] && p.client.events[0].Awaiting?
    ensures Inv(r)
    ensures var s := p.client; var job := s.events[0].job; var rs := r.client;
      && rs.nextJob == s.nextJob
      && rs.lastRequestTime == (if Success(reply) then now else s.lastRequestTime)
      && match Decide(job.retries, reply)
         case Throttled(delay) =>
           rs.events == [Requeue(job, now + delay)] && rs.queue == s.queue
           && rs.processing && rs.settled == s.settled && r.cache == p.cache
         case Retry(retries, delay) =>
           rs.events == [Requeue(job.(retries := retries), now + delay)] && rs.queue == s.queue
           && rs.processing && rs.settled == s.settled && r.cache == p.cache
         case Reject(error) =>
           rs == ProcessQueueStep(s.(events := [], settled := s.settled[job.id := Rejected(error)]), now)
           && job.id !in s.settled && r.cache == p.cache
         case Succeed(value) =>
           rs == ProcessQueueStep(s.(events := [], settled := s.settled[job.id := Resolved(value)],
                                 lastRequestTime := now), now)
           && job.id !in s.settled
           && r.cache == TtlCache.AfterSet(p.cache, KeyOf(job), value, TtlCache.DefaultTtl, now)
  {
    var s := p.client;
    var job := s.events[0].job;
    var rest := s.events[1..];
    assert rest == [];
    EventJobsOfOne(s.events);
    assert Live(s) == [job] + s.queue;
    assert Live(s)[0] == job;
    match Decide(job.retries, reply)
    case Throttled(delay) =>
      var r := s.(events := rest + [Requeue(job, now + delay)]);
      EventJobsOfOne(r.events);
      assert Live(r) == Live(s);
      Pipeline(r, p.cache)
    case Retry(retries, delay) =>
      var job' := job.(retries := retries);
      var r := s.(events := rest + [Requeue(job', now + delay)]);
      EventJobsOfOne(r.events);
      assert Live(r) == [job'] + s.queue;
      ReplaceHead(job, job', s.queue, s.settled, s.nextJob);
      Pipeline(r, p.cache)
    case Reject(error) =>
      var s1 := s.(events := rest, settled := s.settled[job.id := Rejected(error)]);
      AfterSettle(s, s1, Rejected(error));
      ResumeLoop(s1, now);
      Pipeline(ProcessQueueStep(s1, now), p.cache)
    case Succeed(value) =>
      var cache := TtlCache.AfterSet(p.cache, KeyOf(job), value, TtlCache.DefaultTtl, now);
      var s1 := s.(events := rest, settled := s.settled[job.id := Resolved(value)], lastRequestTime := now);
      AfterSettle(s, s1, Resolved(value));
      ResumeLoop(s1, now);
      Pipeline(ProcessQueueStep(s1, now), cache)
  }

  /** A re-queue timer fires: its job goes back at the FRONT of the queue
      and the loop schedules the next dispatch. */
  function FireRequeue(s: ClientState, now: int): (r: ClientState)
    requires ClientInv(s) && s.events != [] && s.events[0].Requeue? && now >= s.events[0].due
    ensures ClientInv(r)
    ensures r.queue == [s.events[0].job] + s.queue
    ensures r.processing && r.events == [Dispatch(now + RateDelay(now, s.lastRequestTime))]
    ensures r.settled == s.settled && r.lastRequestTime == s.lastRequestTime && r.nextJob == s.nextJob
  {
    var job := s.events[0].job;
    assert s.events[1..] == [];
    var s1 := s.(queue := [job] + s.queue, events := s.events[1..]);
    EventJobsOfOne(s.events);
    assert Live(s1) == Live(s);
    var r := ProcessQueueStep(s1, now);
    EventJobsOfOne(r.events);
    assert Live(r) == Live(s1);
    r
  }

  /** Single flight: at most one callback of the client is pending, so at
      most one job is in flight or waiting to be put back. */
  lemma SingleFlight(s: ClientState)
    requires ClientInv(s)
    ensures |s.events| <= 1 && |EventJobs(s.events)| <= 1
    ensures s.processing <==> s.events != []
  {
    if s.events != [] {
      assert s.events[1..] == [];
    }
  }

  /** The empty-queue guard of the dispatch callback never triggers: a
      pending dispatch always finds a job. */
  lemma DispatchFindsJob(s: ClientState)
    requires ClientInv(s) && s.events != [] && s.events[0].Dispatch?
    ensures s.queue != []
  {
    assert s.events[0] in s.events;
  }

  /** Rate spacing: a dispatch happens at least 500 ms after the last
      successful response. */
  lemma DispatchSpacing(s: ClientState, now: int)
    requires ClientInv(s) && s.events != [] && s.events[0].Dispatch? && now >= s.events[0].due
    ensures now - s.lastRequestTime >= MinSpacing
  {
    assert s.events[0] in s.events;
  }

  /** Retry bound: no live job has been retried more than three times. */
  lemma RetryBound(s: ClientState, j: Job)
    requires ClientInv(s) && j in Live(s)
    ensures j.retries <= MaxRetries
  {
    var k :| 0 <= k < |Live(s)| && Live(s)[k] == j;
  }

  /** Front re-insertion: after a re-queue timer fires, any number of new
      requests only add jobs behind it, so the next dispatch takes the
      re-queued job. */
  lemma {:induction false} RequeuedJobGoesNext(p: Pipeline, now: int, calls: seq<(string, Options, int)>, asWritten: bool, t: int)
    requires Inv(p) && p.client.events != [] && p.client.events[0].Requeue?
    requires now >= p.client.events[0].due
    ensures var p1 := Pipeline(FireRequeue(p.client, now), p.cache);
      var p2 := Requests(p1, calls, asWritten);
      && p2.client.events != [] && p2.client.events[0].Dispatch?
      && (t >= p2.client.events[0].due ==>
            FireDispatch(p2.client, t).events == [Awaiting(p.client.events[0].job)])
  {
    var job := p.client.events[0].job;
    var p1 := Pipeline(FireRequeue(p.client, now), p.cache);
    RequestsKeepHead(p1, calls, asWritten);
  }

  /** A sequence of `request` calls, each with its own time, made with
      `request` as written (`asWritten`) or with the corrected one. */
  function Requests(p: Pipeline, calls: seq<(string, Options, int)>, asWritten: bool): (r: Pipeline)
    requires Inv(p)
    ensures Inv(r)
    decreases |calls|
  {
    if calls == [] then p
    else
      var step :=
        if asWritten then RequestStepAsWritten(p, calls[0].0, calls[0].1, calls[0].2)
        else RequestStep(p, calls[0].0, calls[0].1, calls[0].2);
      Requests(step.1, calls[1..], asWritten)
  }

  /** Requests never touch a pending dispatch or the head of the queue,
      whichever `request` makes them. */
  lemma {:induction false} RequestsKeepHead(p: Pipeline, calls: seq<(string, Options, int)>, asWritten: bool)
    requires Inv(p) && p.client.processing && p.client.queue != []
    ensures var r := Requests(p, calls, asWritten);
      r.client.events == p.client.events && r.client.queue != [] && r.client.queue[0] == p.client.queue[0]
    decreases |calls|
  {
    if calls != [] {
      var p1 :=
        if asWritten then RequestStepAsWritten(p, calls[0].0, calls[0].1, calls[0].2).1
        else RequestStep(p, calls[0].0, calls[0].1, calls[0].2).1;
      assert p1.client.events == p.client.events;
      assert p1.client.queue[0] == p.client.queue[0];
      RequestsKeepHead(p1, calls[1..], asWritten);
    }
  }

  /** Within the time to live, a repeated read of the same endpoint with
      the same options is answered from the cache without a second network
      call, once the first one succeeded with a truthy body. */
  lemma CachedAfterSuccess(p: Pipeline, reply: Reply, t: int, now: int)
    requires Inv(p) && p.client.events != [] && p.client.events[0].Awaiting?
    requires Success(reply) && Truthy(reply.json.value)
    requires !p.client.events[0].job.options.force && IsRead(p.client.events[0].job.options)
    requires t <= now <= t + TtlCache.DefaultTtl
    ensures var job := p.client.events[0].job;
      var p1 := ReceiveReply(p, reply, t);
      var res := RequestStep(p1, job.endpoint, job.options, now);
      res.0 == Cached(reply.json.value) && res.1.client == p1.client
  {
  }

  /** The as-written `request` answers a POST from the cache: right after
      `sendMessage(c, m)` succeeds, sending the same message again returns
      the first reply and queues nothing; the corrected `Request` queues it. */
  lemma RepeatedPostServedFromCache(p: Pipeline, reply: Reply, t: int)
    requires Inv(p) && p.client.events != [] && p.client.events[0].Awaiting?
    requires Success(reply) && Truthy(reply.json.value)
    requires p.client.events[0].job.options.httpMethod == Some("POST") && !p.client.events[0].job.options.force
    ensures var job := p.client.events[0].job;
      var p1 := ReceiveReply(p, reply, t);
      && RequestStepAsWritten(p1, job.endpoint, job.options, t).0 == Cached(reply.json.value)
      && RequestStep(p1, job.endpoint, job.options, t).0 == Enqueued(p1.client.nextJob)
  {
  }

  /** The life of one job, fed its replies in order: `Settled` with how it
      settled and how many replies that took, or still `Waiting` with its
      retry count. */
  datatype JobLife = Settled(outcome: Outcome, used: nat) | Waiting(retries: nat)

  function Life(retries: nat, replies: seq<Reply>): (l: JobLife)
    ensures l.Settled? ==> 0 < l.used <= |replies|
    decreases |replies|
  {
    if replies == [] then Waiting(retries)
    else
      match Decide(retries, replies[0])
      case Succeed(v) => Settled(Resolved(v), 1)
      case Reject(e) => Settled(Rejected(e), 1)
      case Throttled(_) => Later(Life(retries, replies[1..]))
      case Retry(r, _) => Later(Life(r, replies[1..]))
  }

  function Later(l: JobLife): JobLife
  {
    if l.Settled? then Settled(l.outcome, l.used + 1) else l
  }

  /** The number of attempts among `replies` that count against the budget
      (every reply but a 429). */
  function Attempts(replies: seq<Reply>): nat
  {
    if replies == [] then 0 else (if Throttle(replies[0]) then 0 else 1) + Attempts(replies[1..])
  }

  /** The retry budget: a job that has been retried `retries <= 3` times
      settles within `4 - retries` further counted attempts; while it waits
      its retry count is the number of counted attempts it has made; 429s
      never count, however many there are. */
  lemma {:induction false} AttemptBound(retries: nat, replies: seq<Reply>)
    requires retries <= MaxRetries
    ensures var l := Life(retries, replies);
      && (l.Settled? ==> Attempts(replies[..l.used]) <= MaxRetries + 1 - retries)
      && (Attempts(replies) > MaxRetries - retries ==> l.Settled?)
      && (l.Waiting? ==> l.retries == retries + Attempts(replies))
    decreases |replies|
  {
    if replies != [] {
      var l := Life(retries, replies);
      var tail := replies[1..];
      match Decide(retries, replies[0])
      case Succeed(v) =>
        assert replies[..1] == [replies[0]];
        assert Attempts(replies[..1]) == 1 + Attempts([]);
      case Reject(e) =>
        assert replies[..1] == [replies[0]];
        assert Attempts(replies[..1]) == 1 + Attempts([]);
      case Throttled(_) =>
        AttemptBound(retries, tail);
        if l.Settled? {
          assert replies[..l.used][1..] == tail[..l.used - 1];
        }
      case Retry(r, _) =>
        AttemptBound(r, tail);
        if l.Settled? {
          assert replies[..l.used][1..] == tail[..l.used - 1];
        }
    }
  }

  /** `ReceiveReply` follows `Life` one reply at a time: the job settles
      exactly when `Life` says it does, with the same outcome, and otherwise
      waits to be put back with the retry count `Life` carries on. */
  lemma ReplyFollowsLife(p: Pipeline, reply: Reply, now: int)
    requires Inv(p) && p.client.events != [] && p.client.events[0].Awaiting?
    ensures var job := p.client.events[0].job;
      var r := ReceiveReply(p, reply, now);
      var l := Life(job.retries, [reply]);
      && (l.Settled? <==> job.id in r.client.settled)
      && (l.Settled? ==> r.client.settled[job.id] == l.outcome && l.used == 1)
      && (l.Waiting? ==> r.client.events == [Requeue(job.(retries := l.retries), r.client.events[0].due)])
  {
    assert [reply][1..] == [];
    EventJobsOfOne(p.client.events);
    assert Live(p.client)[0] == p.client.events[0].job;
  }

  /** First attempt HTTP 500, second HTTP 200: the job resolves with the
      second body after one retry, scheduled 1000 ms later. */
  lemma FailThenSucceed(text: string, body: Json)
    ensures Decide(0, Response(500, NoHeader, text, None)) == Retry(1, 1000)
    ensures Life(0, [Response(500, NoHeader, text, None), Response(200, NoHeader, text, Some(body))])
      == Settled(Resolved(body), 2)
  {
  }

  /** A 429 with `Retry-After: 2`, then HTTP 200: the job waits 2000 ms,
      keeps its retry count at 0, and resolves. */
  lemma ThrottleThenSucceed(text: string, body: Json)
    ensures Decide(0, Response(429, Header(2), text, None)) == Throttled(2000)
    ensures Life(0, [Response(429, Header(2), text, None), Response(200, NoHeader, text, Some(body))])
      == Settled(Resolved(body), 2)
  {
  }

  /** Four failures in a row reject the job with the last error; three
      failures and then a success resolve it. */
  lemma FourthFailureRejects(f: Reply, last: Reply, body: Json)
    requires !Success(f) && !Throttle(f)
    requires last == Response(503, NoHeader, "down", None)
    ensures Life(0, [f, f, f, last]) == Settled(Rejected(HttpFailure(503, "down")), 4)
    ensures Life(0, [f, f, f, Response(200, NoHeader, "", Some(body))]) == Settled(Resolved(body), 4)
  {
    var ok := Response(200, NoHeader, "", Some(body));
    assert [f, f, f, last][1..] == [f, f, last] && [f, f, last][1..] == [f, last] && [f, last][1..] == [last];
    assert [f, f, f, ok][1..] == [f, f, ok] && [f, f, ok][1..] == [f, ok] && [f, ok][1..] == [ok];
    assert Life(3, [last]) == Settled(Rejected(HttpFailure(503, "down")), 1);
    assert Life(2, [f, last]) == Settled(Rejected(HttpFailure(503, "down")), 2);
    assert Life(1, [f, f, last]) == Settled(Rejected(HttpFailure(503, "down")), 3);
    assert Life(3, [ok]) == Settled(Resolved(body), 1);
    assert Life(2, [f, ok]) == Settled(Resolved(body), 2);
    assert Life(1, [f, f, ok]) == Settled(Resolved(body), 3);
  }

  /** The client object. Its fields are `DiscordAPIClient`'s (`queue`,
      `processing`, `lastRequestTime`) plus the model's `events` (its
      pending callbacks), `settled` (its settled promises) and `nextJob`;
      `cache` is the cache it shares. The token is left out. */
  class DiscordApiClient {
    var queue: seq<Job>
    var processing: bool
    var lastRequestTime: int
    var events: seq<Event>
    var settled: map<JobId, Outcome>
    var nextJob: JobId
    const cache: TtlCache.Cache<Key, Json>

    function Client(): ClientState
      reads this
    {
      ClientState(queue, processing, lastRequestTime, events, settled, nextJob)
    }

    function State(): Pipeline
      reads this, cache
    {
      Pipeline(Client(), cache.State())
    }

    ghost predicate Valid()
      reads this, cache
    {
      Inv(State())
    }

    constructor (cache: TtlCache.Cache<Key, Json>)
      requires cache.Valid()
      ensures Valid() && this.cache == cache && Client() == Initial()
    {
      this.cache := cache;
      queue, processing, lastRequestTime := [], false, 0;
      events, settled, nextJob := [], map[], 0;
    }

    method ProcessQueue(now: int)
      modifies this
      ensures Client() == ProcessQueueStep(old(Client()), now)
    {
      if |queue| == 0 {
        processing := false;
        return;
      }
      processing := true;
      var timeSinceLast := now - lastRequestTime;
      var delay := if 0 > MinSpacing - timeSinceLast then 0 else MinSpacing - timeSinceLast;
      events := events + [Dispatch(now + delay)];
    }

    method Request(endpoint: string, options: Options, now: int) returns (res: RequestResult)
      requires Valid()
      modifies this, cache
      ensures (res, State()) == RequestStep(old(State()), endpoint, options, now)
      ensures Valid()
    {
      var cached := cache.Get(Key(endpoint, options), now);
      if IsRead(options) && cached.Some? && Truthy(cached.value) && !options.force {
        return Cached(cached.value);
      }
      res := Enqueued(nextJob);
      queue := queue + [Job(nextJob, endpoint, options, 0)];
      nextJob := nextJob + 1;
      if !processing {
        ProcessQueue(now);
      }
    }

    /** The host runs the dispatch timer, no earlier than it is due. */
    method OnDispatch(now: int)
      requires Valid() && events != [] && events[0].Dispatch? && now >= events[0].due
      modifies this
      ensures Client() == FireDispatch(old(Client()), now)
      ensures Valid()
    {
      events := events[1..];
      if |queue| == 0 {
        processing := false;
        return;
      }
      var item := queue[0];
      queue := queue[1..];
      events := events + [Awaiting(item)];
    }

    /** The host resumes the dispatch callback with the reply of `fetch`. */
    method OnReply(reply: Reply, now: int)
      requires Valid() && events != [] && events[0].Awaiting?
      modifies this, cache
      ensures State() == ReceiveReply(old(State()), reply, now)
      ensures Valid()
    {
      var item := events[0].job;
      events := events[1..];
      match Decide(item.retries, reply)
      case Throttled(delay) =>
        events := events + [Requeue(item, now + delay)];
      case Retry(retries, delay) =>
        events := events + [Requeue(item.(retries := retries), now + delay)];
      case Reject(error) =>
        settled := settled[item.id := Rejected(error)];
        ProcessQueue(now);
      case Succeed(value) =>
        cache.Set(KeyOf(item), value, TtlCache.DefaultTtl, now);
        settled := settled[item.id := Resolved(value)];
        lastRequestTime := now;
        ProcessQueue(now);
    }

    /** The host runs a re-queue timer, no earlier than it is due. */
    method OnRequeue(now: int)
      requires Valid() && events != [] && events[0].Requeue? && now >= events[0].due
      modifies this
      ensures Client() == FireRequeue(old(Client()), now)
      ensures Valid()
    {
      var item := events[0].job;
      events := events[1..];
      queue := [item] + queue;
      ProcessQueue(now);
    }
  }
}
