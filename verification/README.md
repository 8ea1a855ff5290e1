# Discord web client: request pipeline, image URLs and list building in Dafny

This project models the logic core of a small browser Discord client and
proves properties of the model. It has four parts.

- **The API client** (`app.js`):
  - The response cache `cache`: a TTL map with one eviction timer per key.
  - `DiscordAPIClient`: `request` answers from the cache or queues a job. The
    single-flight `processQueue` loop dispatches jobs at least 500 ms after
    the last success. An HTTP 429 goes back to the front of the queue after
    `Retry-After` seconds and does not use the retry budget. Any other
    failure is retried at the front after 1000, 2000 and 3000 ms, and then
    rejected.
  - The five endpoint wrappers.
- **`RUOptimizer.getOptimizedImageUrl`** (`optimization.js`): appends the
  `size`, `format` and `quality` query parameters to an image URL.
- **`displayChannels`** (`script.js`): groups a guild's channels into an
  uncategorized list and per-category lists, then renders them in order.
- **`displayMessages`** (`script.js`): shows a placeholder for an empty
  list, and otherwise reverses the list in place.

Files and modules:

| file | module | models |
|---|---|---|
| `text.dfy` | `Text` | `String.prototype.includes`, decimal rendering of numbers, `Option` |
| `ttl_cache.dfy` | `TtlCache` | the `cache` object |
| `request_queue.dfy` | `RequestQueue` | `request`, `processQueue` and the client object |
| `endpoints.dfy` | `Endpoints` | `getCurrentUser` … `sendMessage` |
| `image_url.dfy` | `ImageUrl` | `getOptimizedImageUrl` |
| `channel_list.dfy` | `ChannelList` | `displayChannels` and `displayMessages` |

How the imperative parts are modelled:

- **Cache and client as classes over pure state.** Each stateful object is a
  class whose fields are the source's fields. Each method's postcondition
  equates the new state with a pure transition function of the old state
  (for example `TtlCache.AfterSet` or `RequestQueue.ReceiveReply`). The
  lemmas state the invariants and the multi-step properties of those
  functions.
- **Time and the event loop are explicit.**
  - `Date.now()` is a parameter `now`.
  - The cache's timers are a map from timer id to the eviction it will run.
  - The client's pending callbacks (the dispatch timer, the awaited `fetch`,
    a re-queue timer) are the list `events`.
  - A `fetch` result is an input value `Reply`.
  - Each job's promise is the entry `settled[id]`.
- **The grouping and render loops** are methods with loops. Their invariants
  tie the loop state to specification functions on the processed prefix.
  The in-place `reverse` is a two-pointer loop on an `array`.

Behaviour of the code worth knowing:

- **Parse failures are retried.** A 2xx reply whose body does not parse goes
  through the `catch` path, so it is retried like a network error rather
  than failing at once (app.js:141, 150-159).
- **Spacing counts from the last success.** `lastRequestTime` is set after a
  successful response, not at dispatch (app.js:148). The 500 ms spacing is
  therefore measured from the last success.
- **A 429 only arms a re-queue timer** (app.js:120-126). Nothing else is
  dispatched meanwhile, because `processing` stays set.
- **A job is rejected on its fourth non-429 failure**, after three retries
  (app.js:129, 151).

## Model

| member | source | states |
|---|---|---|
| `Text.Contains` | optimization.js:91 | `includes` is true exactly when the pattern occurs at some position |
| `Text.DecimalRoundTrip` | optimization.js:97 | reading back the decimal text of a number gives the number |
| `TtlCache.OneTimerPerKey` | app.js:24-31 | under the invariant, a cached key has exactly one pending eviction timer and an absent key has none |
| `TtlCache.AfterSet` | app.js:16-32 | `set` stores `{value, now, ttl}`; the key then has exactly one pending timer (the old one is cancelled), due at `now + ttl`; other keys keep their timers; data and timeouts keep equal key sets |
| `TtlCache.Lookup` | app.js:34-48 | `get` returns a value exactly when the key is present and not stale, where stale is strict `now - timestamp > ttl`; a miss on an absent key changes nothing; a stale entry is removed from both maps and loses its timer |
| `TtlCache.AfterFire` | app.js:28-31 | the eviction timer removes its key from `data` and `timeouts` and keeps the invariant |
| `TtlCache.AfterClear` | app.js:50-54 | `clear` empties both maps and cancels every timer |
| `TtlCache.EntrySurvives` | app.js:34-47 | an entry survives any operations that spare its key and happen before it expires |
| `TtlCache.HitWindow` | app.js:16-47 | after `set(k, v, ttl)` at `t`, `get(k)` at any `now` with `now - t <= ttl` returns `v`, whatever happens to other keys before `t + ttl` |
| `TtlCache.ExpiryBoundaryRace` | app.js:28-38 | at exactly `t + ttl` a read still hits, but once the eviction timer due then has fired it misses |
| `TtlCache.StaysGoneOrSame` | app.js:34-45 | without a new `set` of the key or a `clear`, the key's entry is the same one or gone |
| `TtlCache.MissAfterTtl` | app.js:38-45 | once `now - t > ttl`, `get` misses whatever else happened, provided the key was not set again |
| `TtlCache.Cache.constructor` | app.js:12-14 | the cache starts with empty maps |
| `TtlCache.Cache.Set` | app.js:16-32 | the object method performs `AfterSet` and keeps the invariant |
| `TtlCache.Cache.Get` | app.js:34-48 | the object method returns and leaves what `Lookup` says, and keeps the invariant |
| `TtlCache.Cache.FireEviction` | app.js:28-31 | the timer callback performs `AfterFire` |
| `TtlCache.Cache.Clear` | app.js:50-54 | the object method performs `AfterClear` |
| `RequestQueue.CoolDown` | app.js:121 | the 429 wait is 1000 ms when the header is absent or empty (`'' || '1'`), `seconds * 1000` when that fits in 31 bits, 0 ms for NaN and for a small negative value; any header value is reduced modulo 2^32 as `setTimeout` does, so the wait is always below 2^31 ms |
| `RequestQueue.TimerDelay` | app.js:122-125 | the delay `setTimeout` waits is the requested one when it fits in 31 bits, 0 when it is a negative 32-bit value, and otherwise congruent to it modulo 2^32 or 0 |
| `RequestQueue.LongRetryAfterWraps` | app.js:121-125 | `Retry-After: 2147483` waits 2147483000 ms, but `2147484` waits 0 ms and `4294968` waits 704 ms |
| `RequestQueue.Failed` | app.js:129-136 | below three retries the count goes up by one and the wait is `1000 * retries`; at three the job is rejected with the error |
| `RequestQueue.Decide` | app.js:119-160 | success exactly for a 2xx with a parsable body; throttling exactly for 429, with the retry count unchanged; a retry exactly for every other reply with fewer than 3 retries, waiting 1000 to 3000 ms; a rejection otherwise, with the HTTP error, network error or parse error |
| `RequestQueue.RateDelay` | app.js:97-99 | the pre-dispatch delay is never negative, at most 500 ms when time has not gone backwards, brings the dispatch to at least 500 ms after the last success, and is no longer than needed |
| `RequestQueue.InitialInv` | app.js:59-64 | a new client satisfies the client invariant |
| `RequestQueue.ProcessQueueStep` | app.js:88-101 | an empty queue clears `processing` and arms nothing; otherwise `processing` is set and one dispatch is armed `RateDelay` later; the queue is untouched |
| `RequestQueue.Enqueue` | app.js:73-85 | a miss appends exactly one job with `retries = 0` at the back and starts the loop only when it is idle; the invariant is kept |
| `RequestQueue.RequestStepAsWritten` | app.js:66-86 | `request` as written: answers from the cache exactly when a truthy value is cached and `force` is unset (the lookup may evict a stale entry); otherwise enqueues |
| `RequestQueue.RequestStep` | app.js:66-86 | the corrected `request`: identical for reads, always enqueues a non-GET; keeps the invariant |
| `RequestQueue.FireDispatch` | app.js:101-117 | the dispatch callback shifts the head of the queue into flight and keeps the invariant |
| `RequestQueue.ReceiveReply` | app.js:117-163 | per decision: a 429 or a retry re-arms a re-queue timer for the same job, with the same or incremented retry count, and leaves queue, settled promises and cache alone; a rejection settles the job and lets the loop go on; a success caches the body under the job's key, resolves the job, sets `lastRequestTime` and lets the loop go on |
| `RequestQueue.FireRequeue` | app.js:122-125 | the re-queue timer puts the job back at the front and arms the next dispatch |
| `RequestQueue.SingleFlight` | app.js:82-84 | at most one callback is pending, so at most one job is in flight or waiting to be put back; `processing` holds exactly while one is pending |
| `RequestQueue.DispatchFindsJob` | app.js:102-106 | the dispatch callback's empty-queue guard never triggers |
| `RequestQueue.DispatchSpacing` | app.js:97-101 | a dispatch happens at least 500 ms after the last success |
| `RequestQueue.RetryBound` | app.js:129-136 | no live job has more than 3 retries |
| `RequestQueue.RequestsKeepHead` | app.js:73-84 | any number of `request` calls, as written or corrected, leave the pending dispatch and the head of the queue as they were |
| `RequestQueue.RequeuedJobGoesNext` | app.js:122-125 | after a re-queue, whatever requests arrive (with `request` as written or corrected), the next dispatch takes the re-queued job |
| `RequestQueue.CachedAfterSuccess` | app.js:141-147 | after a success with a truthy body, the same read within 60 s is answered from the cache and queues nothing |
| `RequestQueue.RepeatedPostServedFromCache` | app.js:67-70 | the as-written `request` answers a repeated POST from the cache, while the corrected one queues it |
| `RequestQueue.Life` | app.js:119-160 | a job fed its replies settles within the replies given |
| `RequestQueue.AttemptBound` | app.js:129-159 | a job settles within 4 counted (non-429) attempts; while waiting its retry count equals its counted attempts; 429s never count |
| `RequestQueue.ReplyFollowsLife` | app.js:117-163 | one reply handled by `ReceiveReply` settles the job exactly when `Life` settles it, with the same outcome, and otherwise re-arms the job with the retry count `Life` carries on |
| `RequestQueue.FailThenSucceed` | app.js:129-147 | HTTP 500 then 200: one retry after 1000 ms, then resolved with the second body |
| `RequestQueue.ThrottleThenSucceed` | app.js:120-147 | a 429 with `Retry-After: 2` then 200: a 2000 ms wait, no retry used, then resolved |
| `RequestQueue.FourthFailureRejects` | app.js:129-159 | three failures and then a fourth reject with the last error; three failures and then a success resolve |
| `RequestQueue.DiscordApiClient.constructor` | app.js:59-64 | an empty queue, not processing, `lastRequestTime = 0` |
| `RequestQueue.DiscordApiClient.ProcessQueue` | app.js:88-101 | the object method performs `ProcessQueueStep` |
| `RequestQueue.DiscordApiClient.Request` | app.js:66-86 | the object method returns and leaves what the corrected `RequestStep` says (identical to the code for reads, see Findings), and keeps the invariant |
| `RequestQueue.DiscordApiClient.OnDispatch` | app.js:101-117 | the dispatch callback performs `FireDispatch` |
| `RequestQueue.DiscordApiClient.OnReply` | app.js:117-163 | the reply handling performs `ReceiveReply`, storing successes in the shared cache object |
| `RequestQueue.DiscordApiClient.OnRequeue` | app.js:122-125 | the re-queue callback performs `FireRequeue` |
| `Endpoints.CurrentUser` | app.js:168-170 | `/users/@me` with no options |
| `Endpoints.Guilds` | app.js:172-174 | `/users/@me/guilds` with no options |
| `Endpoints.GuildChannels` | app.js:176-178 | a read of `/guilds/<id>/channels` |
| `Endpoints.ChannelMessages` | app.js:180-182 | a read under `/channels/` |
| `Endpoints.SendMessage` | app.js:184-189 | a POST, never a read, whose body is `{content}` |
| `Endpoints.LimitRoundTrip` | app.js:180-182 | the `limit` written into the endpoint reads back as the limit passed |
| `Endpoints.DefaultPage` | app.js:180-182 | with the default limit the endpoint ends in `?limit=30`, which reads back as 30 |
| `Endpoints.ChannelMessagesInjective` | app.js:180-182 | for snowflake ids, different channels or limits give different endpoints, so the cache never confuses them |
| `Endpoints.GuildChannelsInjective` | app.js:176-178 | different guilds give different endpoints |
| `Endpoints.SendIsNeverCached` | app.js:184-189 | with the corrected `request`, every `sendMessage` queues exactly one job |
| `Endpoints.MessagesCachedWithinTtl` | app.js:180-182 | a successfully fetched page of messages is served from the cache on the same call within 60 s |
| `ImageUrl.SizeParam` | optimization.js:87-89 | the size sent is the size requested, or `floor(size * 0.7)` on a low-bandwidth connection, and never more than requested |
| `ImageUrl.SizeTail` | optimization.js:91-97 | the appended text starts with the separator and contains no `f` and no `.` |
| `ImageUrl.OptimizedImageUrl` | optimization.js:81-110 | an empty url is returned unchanged; otherwise the url followed by `?` (no `?` in the url) or `&`, then `size=N`, then `&format=webp` exactly when WebP is on and the url has no `format=`, then `&quality=80` exactly when the url has `.jpg` or `.jpeg`, and nothing else |
| `ImageUrl.SuffixHidesNoPattern` | optimization.js:100-107 | the tests on the growing string agree with the same tests on the original url |
| `ImageUrl.DefaultSizeUrl` | optimization.js:81-97 | with the default size 64, a plain url gets `?size=64`, or `?size=44` on a low-bandwidth connection, then `&format=webp` when WebP is on |
| `ChannelList.GroupChannels` | script.js:193-209 | the loop builds `noCategory`, the key order and the groups, equal to the specification functions on the whole input |
| `ChannelList.ChannelItems` | script.js:212-216 | one channel item per uncategorized channel, in order |
| `ChannelList.Render` | script.js:211-252 | the uncategorized items, then a block for each group with channels, in key order |
| `ChannelList.DisplayChannels` | script.js:188-253 | what `displayChannels` appends is `Layout` of its input |
| `ChannelList.BlocksAgree` | script.js:219-252 | rendering the built groups gives the blocks the specification describes |
| `ChannelList.OtherTypesIgnored` | script.js:196-208 | a channel that is neither text (0) nor category (4) changes nothing |
| `ChannelList.Placement` | script.js:202-207 | a text channel joins its parent's list exactly when that category came earlier, and goes to the uncategorized list otherwise |
| `ChannelList.RepeatedCategoryResets` | script.js:197-201 | a repeated category id keeps its key position, replaces the stored category and empties its list |
| `ChannelList.ChildBeforeCategory` | script.js:203-207 | a child listed before its category stays uncategorized; listed after it, it joins the category |
| `ChannelList.UncategorizedKeepsOrder` | script.js:205-207 | the uncategorized list is a subsequence of the input |
| `ChannelList.MembersKeepOrder` | script.js:203-204 | each category's list is a subsequence of the input |
| `ChannelList.CategoryIdsDistinct` | script.js:198 | each category id appears once in the key order |
| `ChannelList.CategoryIdsAreCategories` | script.js:197-201 | the keys are exactly the ids of the input's categories, and each stores a category channel with that id |
| `ChannelList.NoEmptyCategoryRendered` | script.js:219-220 | every rendered category block has at least one channel |
| `ChannelList.LayoutOrder` | script.js:211-220 | the uncategorized channels come first, then only non-empty category blocks |
| `ChannelList.Partition` | script.js:196-209 | with distinct category ids, the text channels are exactly the uncategorized channels plus the channels of all category lists, as a multiset |
| `ChannelList.Reversed` | script.js:330 | reversal keeps the length |
| `ChannelList.ReversedIndex` | script.js:330 | element `i` of the reversal is element `n - 1 - i` of the input |
| `ChannelList.ReversedTwice` | script.js:330 | reversing twice gives the list back |
| `ChannelList.ReverseInPlace` | script.js:330 | the in-place reversal leaves the array equal to `Reversed` of its old contents |
| `ChannelList.DisplayMessages` | script.js:315-337 | an empty list shows only the placeholder; otherwise the array is reversed in place and shown in that order |
| `ChannelList.ReversalShowsOldestFirst` | script.js:329-330 | a list fetched newest first is shown oldest first |

## Left out

- **The network and the browser.** The token, the request headers, the URL
  prefix `CONFIG.API_BASE` and the transport of `fetch` are left out: a
  reply is an input value. The response body text and the parsed JSON are
  carried in that value.
- **Timers and awaits.** `setTimeout` and `clearTimeout` are explicit
  events. The `await`s of `response.json()` and `response.text()` are
  folded into the single reply event, since nothing else can touch the job
  in flight meanwhile. The host runs a timer no earlier than it is due.
- **`JSON.stringify` and the cache key.** The key
  `endpoint + JSON.stringify(options)` is modelled as the pair (endpoint,
  options). The rare collisions of the concatenated string are not
  modelled. The `headers` option is not modelled, since no caller passes it.
- **JSON values.** Numbers in JSON are integers in the model, and the
  request body is the JSON value it serialises.
- **`size * 0.7`.** `Math.floor(size * 0.7)` is taken as exact integer
  arithmetic `size * 7 / 10`. Floating point rounding is not modelled: for
  `size = 90` the double product is just below 63, so the code sends 62
  where the model sends 63.
- `RequestQueue.CoolDown` multiplies the `Retry-After` value by 1000
  exactly. The code multiplies doubles, which round once the product
  passes 2^53, so for such headers the 32-bit reduction can differ.
- `RequestQueue.Options` holds `force` as a plain boolean, so `{}` and
  `{force: false}` are one cache key in the model, while
  `JSON.stringify` gives them different keys. No caller passes `force`.
- `Text.Decimal` prints every number in plain digits. JavaScript prints
  numbers from 10^21 on in exponent form (`1e+21`), so a `limit` or image
  `size` that large gives a different string in the code.
- `RequestQueue.DiscordApiClient.Request` runs the corrected `request`
  (`RequestStep`, see Findings), not the code as written: a repeated
  non-GET within the time to live is queued by the object, where app.js:69
  answers it from the cache. `RequestQueue.RequestStepAsWritten` models
  the code as written, and `RequestQueue.Requests` takes either.
- **`RequestQueue.RateDelay`** bounds the delay by 500 ms only when the
  clock has not gone backwards (`now >= lastRequestTime`).
- **Cache boundary.** At exactly `t + ttl` the eviction timer and a read
  race. `TtlCache.HitWindow` covers operations before `t + ttl`, and
  `TtlCache.ExpiryBoundaryRace` shows both outcomes at the boundary.
- **Object key order.** The key order of the `categories` object is taken as
  insertion order. This holds for snowflake ids, which are not array
  indices. Keys inherited from `Object.prototype` (such as a `parent_id` of
  `"constructor"`) are not modelled.
- **DOM and UI.**
  - All DOM work: `innerHTML`, element creation, click handlers, scrolling,
    upper-casing category names.
  - Everything else in the UI layer: `UI`, `DiscordApp`, `loadStyles`,
    settings and themes, event listeners.
- **Other files and functions.** The thin `DiscordAPIClient` of script.js,
  auth.js and service-worker.js are left out, as are `prefetchDNS`,
  `preloadResources`, `optimizeForSlowConnections` and WebP detection in
  optimization.js. All of them are browser I/O or probing.
- **`force`.** The option is modelled because `request` reads it, although
  no caller passes it.

## Findings

| source | as written | input that shows it | evidently intended | confidence | as-written member | corrected member |
|---|---|---|---|---|---|---|
| app.js:66-71 | `request` consults the cache for every method. `sendMessage` goes through `request`, and a success is cached under `endpoint + JSON.stringify(options)` | `sendMessage(c, "ok")` succeeds, and `sendMessage(c, "ok")` is called again within 60 s: the second call returns the first message and never reaches the server | only reads (no method, or GET) are answered from the cache; every POST is sent | high; not executed | `RequestQueue.RequestStepAsWritten`, shown by `RequestQueue.RepeatedPostServedFromCache` | `RequestQueue.RequestStep`, with `Endpoints.SendIsNeverCached` |
