# popularity — a Dafny model of the cache protocol, the route and the query schema

The service answers `GET /repos/popularity` with GitHub repositories that
match a language and a creation date. The repositories are scored and sorted
highest first, and the answer is cached in Redis. Concurrent requests for
the same search go through `cacheWithLock`, so GitHub is asked once. The first
caller takes a lease lock with `SET NX PX`, runs the producer, publishes the
value with `SET EX` and deletes the lock in a `finally`. Every other caller
polls the value until the lease deadline and then starts over.

The model has seven modules, one per file:

- `Wrappers` (`wrappers.dfy`): `Option` and `Result`.
- `Json` (`json.dfy`): the text stored in Redis. It is either the serialization
  `Doc(d)` of a value or `Other(chars)`, any other string such as the lock
  marker `"1"`. Parsing `Other` fails.
- `KvStore` (`kv_store.dfy`): the Redis keyspace as a map from key to
  `Entry(text, expiresAt)`, plus a millisecond clock. `GET`, `SET NX PX`,
  `SET EX` and `DEL` are pure functions on that state. The class `Store`
  holds the same state in fields and its methods update it in place. The
  lemmas about `SET NX PX` prove that a lease excludes every other acquirer.
- `Cache` (`cache.dfy`): `cacheWithLock`.
  - `Protocol` is the whole call as a function of the starting store. It
    returns the result, the final store and the trace of the call's own
    store operations.
  - `CacheWithLock` is the same call as a method with an outer retry loop
    and an inner poll loop over a `Store`. It is proved equal to
    `Protocol`.
- `QuerySchema` (`query_schema.dfy`): the zod schema, as a function from
  the raw query to a parsed `Query` or to the list of fields that fail.
- `FormUrlEncoded` (`form_urlencoded.dfy`): `URLSearchParams.toString`.
  It follows the application/x-www-form-urlencoded serializer of section 5.2
  of the WHATWG URL Standard, together with the parser of section 5.1. The
  round trip through both is proved, so a serialized parameter list
  determines the list.
- `Repos` (`repos.dfy`): the route. It covers the GitHub `q` string, the
  `gh:` cache key, the projection and stable sort by score, the payload, the
  mapping from errors to responses, and the handler. The handler is `Handle`
  as a function and `Popularity` as a method that calls `CacheWithLock`.

Modelling choices:

- **One keyspace.** Redis has one keyspace, so the lock lives in the same
  map as the values, under `"lock:" + key`. This makes the separation of
  lock and value a statement with content: `Cache.LockKeySeparate`, and
  `Repos.CacheKeyIsNoLockKey` for every key the route builds.
- **Expiry.** An entry is live while `now < expiresAt`, so expiry is checked
  when the entry is read. `SET EX` with a TTL of 0 or less and `SET NX PX`
  with a lease of 0 or less are refused by Redis ("invalid expire time").
  That refusal makes the call throw, which is modelled as `StoreRejected`.
- **Other clients.** Other clients act while this caller sleeps in its poll
  loop. The parameter `peers` is a list of command batches, and one batch runs
  during each sleep. Store operations take no time. The producer takes its
  `duration`, and a sleep takes `pollMs` as Node's `setTimeout` clamps it
  (below 1 or above 2147483647 becomes 1).
- **Termination without fuel.** The unbounded retry terminates because
  every entry expires. Each round either uses up a batch of `peers` or
  waits out part of the lease on the lock.
- **The `finally` DEL is unconditional.** It deletes whatever is stored
  under `"lock:" + key`. Because no other client writes while the producer
  runs (see "Left out"), the lock it deletes is always the winner's own.
- **Keys built from the joined string.** The cache key is built from the
  joined search string, so two different valid queries can share it. An
  example is a language ending in " created:>=D" with no `q`, next to the
  plain language with `q = "created:>=D"`. The second request is then served
  the first one's payload, which echoes the first query
  (`Repos.DifferentQueriesShareKey`). Otherwise two queries share a key
  exactly when they make the same GitHub request
  (`Repos.CacheKeyIdentifiesRequest`).

## Model

| member | source | states |
|---|---|---|
| `KvStore.Store.constructor` | src/lib/cache.js:35 | the store object starts in the given state |
| `KvStore.Store.Get` | src/lib/cache.js:37 | `GET` returns the stored text exactly when the key holds an entry that has not expired |
| `KvStore.Store.SetIfAbsent` | src/lib/cache.js:41 | `SET NX PX`: a lease of 0 or less is refused and the store is unchanged; a live entry makes it fail and the store is unchanged; otherwise the entry is written to expire `px` ms from now and the reply is OK |
| `KvStore.Store.SetWithTtl` | src/lib/cache.js:46 | `SET EX`: a TTL of 0 or less is refused and the store is unchanged; otherwise the entry is overwritten to expire `ex * 1000` ms from now |
| `KvStore.Store.Del` | src/lib/cache.js:49 | `DEL` removes the key and nothing else |
| `KvStore.Store.Tick` | src/lib/cache.js:57 | a sleep moves the clock forward and leaves the entries alone |
| `KvStore.Store.Perform` | src/lib/cache.js:57 | other clients' commands are applied in order (loop invariant against `ExecAll`) |
| `KvStore.LeaseHolds` | src/lib/cache.js:41 | a live entry that nobody deletes or overwrites keeps its text and expiry until its deadline, and no `SET NX` on it succeeds meanwhile |
| `KvStore.SecondAcquireFails` | src/lib/cache.js:41-43 | after a successful `SET NX PX`, a second `SET NX` on that key before expiry or deletion fails |
| `KvStore.AtMostOneWinner` | src/lib/cache.js:41-43 | in any interleaving that neither deletes nor overwrites the lock, at most one `SET NX` wins when every lease outlasts the interleaving; exactly one wins when the key starts free and the first step is a `SET NX` on it |
| `Json.Parse` | src/lib/cache.js:38 | parsing succeeds exactly on the serialization of a value |
| `Json.ParseStringify` | src/lib/cache.js:38-46 | `JSON.parse(JSON.stringify(v))` is `v`, and the stored string is never empty (so never read as a miss) |
| `Cache.LockKeySeparate` | src/lib/cache.js:40 | the lock key differs from the value key, and distinct keys have distinct locks |
| `Cache.Poll` | src/lib/cache.js:53-58 | the loser's loop returns the first truthy value seen before the deadline (a hit before the deadline ends the loop at once with that value, after one `GET`), which is what the store then holds; with no value it ends at or after the deadline; time only grows, each miss sleeps and consumes one batch (what the next `GET` then sees is stated by `PollSeesPublished` and `PollStepMisses`), and only `GET key` and sleeps are issued |
| `Cache.PollSleepsPollMs` | src/lib/cache.js:57 | every sleep of the loop lasts `pollMs` as `setTimeout` clamps it |
| `Cache.Winner` | src/lib/cache.js:43-51 | the winner runs the producer once and its last operation is `DEL` of the lock, which is then absent; on success it returns the produced value, the key holds its serialization for `ttlSeconds` and every other entry but the lock is as before; when the producer fails, or Redis refuses a non-positive `ttlSeconds`, it throws (the producer's error, or the refusal), writes no value and removes only the lock |
| `Cache.HitServed` | src/lib/cache.js:37-38 | on a hit the call issues one `GET`, returns the parsed value (or a parse error), never runs the producer or touches the lock, and leaves the store unchanged |
| `Cache.OnlyKeyAndLockTouched` | src/lib/cache.js:37-57 | every operation of a call is on `key` or `"lock:" + key`; `SET NX` asks for `lockMs`; the only value published is the producer's, with the caller's TTL |
| `Cache.WorkOnceAndLockReleased` | src/lib/cache.js:43-51 | the producer runs at most once per call, and a call that ran it ends with `DEL` of the lock and no lock entry left |
| `Cache.FailureIsTheProducers` | src/lib/cache.js:44-48 | the call throws the producer's error exactly when it ran the producer and that failed, and the error thrown is the producer's own |
| `Cache.FailurePublishesNothing` | src/lib/cache.js:44-50 | a call that throws the producer's error has published no value (no `SET ... EX` in its trace) |
| `Cache.ReturnedValueIsStored` | src/lib/cache.js:44-56 | every value the call returns is what the store holds under the key afterwards; a value returned after running the producer is the producer's |
| `Cache.QuietStoreRecovers` | src/lib/cache.js:53-60 | with a positive lease and no other writer, a miss always ends with this call running the producer, however long a dead holder's lock lives |
| `Cache.QuietStoreRecoversInTime` | src/lib/cache.js:41-60 | with no other writer, a positive lease and a dead holder's lock with at most `lockMs` left, a miss runs the producer, and the call ends before `lockMs + pollMs` plus the producer's run time have passed |
| `Cache.PollEndsWithinOneSleep` | src/lib/cache.js:53-58 | with no other writer, a poll loop that starts before its deadline ends less than one `pollMs` sleep after it |
| `Cache.PollSeesPublished` | src/lib/cache.js:54-57 | after a miss, the loser sleeps and the other clients' next batch runs; when that batch publishes a value before the deadline, the loop returns exactly that value, on the store as the batch left it |
| `Cache.ExpiredPollRestarts` | src/lib/cache.js:53-60 | a loser that reaches the deadline without a value neither returns nor throws; the call continues as a fresh call from the `GET` |
| `Cache.ScenarioWinner` | src/lib/cache.js:14-19 | caller A on an empty store: the exact sequence GET, SET NX, producer, SET EX, DEL, and the store left holding the value until 5200 ms and no lock |
| `Cache.ScenarioFollower` | src/lib/cache.js:14-19 | caller B, arriving while A holds the lock, returns A's value at 200 ms without running its own producer |
| `Cache.ScenarioAfterTtl` | src/lib/cache.js:14-19 | caller C, arriving after the TTL, finds the value expired and runs the producer again |
| `Cache.Protocol` | src/lib/cache.js:28-61 | the whole call as a function of the store: it always starts with `GET key` and never moves the clock back; what it promises is carried by `HitServed`, `WorkOnceAndLockReleased`, `FailureIsTheProducers`, `FailurePublishesNothing`, `ReturnedValueIsStored`, `QuietStoreRecovers` and `ExpiredPollRestarts` |
| `Cache.CacheWithLock` | src/lib/cache.js:28-61 | the imperative call (retry loop around the race and the poll loop) returns the result, store and trace that `Protocol` specifies |
| `Cache.Attempt` | src/lib/cache.js:37-60 | one pass up to the recursive call either ends the call as `Protocol` specifies or restarts it on the current store, with fewer batches left or less of the lock's lease left |
| `Cache.RunWinner` | src/lib/cache.js:43-51 | the `try`/`finally` on the store object does what `Winner` specifies |
| `Cache.PollForValue` | src/lib/cache.js:53-58 | the `while` loop on the store object does what `Poll` specifies |
| `QuerySchema.Validate` | src/schemas/query.schema.js:3-14 | a query is accepted exactly when every field passes its rule; an accepted query has a non-empty language, a non-empty created_after that parses as a date, `per_page` in 1..100 and `page` in 1..10; a refused one lists exactly the failing fields |
| `QuerySchema.LanguageRule` | src/schemas/query.schema.js:4 | `language` is kept as the single non-empty string given; a missing or empty one is refused |
| `QuerySchema.CreatedAfterRule` | src/schemas/query.schema.js:5-10 | `created_after` is kept as given and parses as a date; a missing, empty or unparseable one is refused |
| `QuerySchema.QRule` | src/schemas/query.schema.js:11 | `q` is optional and any single string is kept unchanged and never causes an issue |
| `QuerySchema.PagingRule` | src/schemas/query.schema.js:12-13 | absent `per_page`/`page` default to 10/1; present ones are the coerced integers; `per_page` 1000 and a `page` above 10 are refused |
| `QuerySchema.PerPageExample` | tests/popularity.validation.test.js:31-43 | the test's request with `per_page=1000` fails on exactly `per_page`; with `per_page=5` it passes with page 1 |
| `FormUrlEncoded.Utf8` | src/routes/repos.js:27-35 | one to four bytes, a single byte exactly for ASCII |
| `FormUrlEncoded.Utf8RoundTrip` | src/routes/repos.js:27-35 | UTF-8 decoding undoes the encoding of any string |
| `FormUrlEncoded.EncodeByte` | src/routes/repos.js:27-35 | a space becomes `+`, an unreserved byte is kept, any other byte becomes `%XX`; never `&` or `=` |
| `FormUrlEncoded.Encode` | src/routes/repos.js:27-35 | an encoded name or value contains no `&` and no `=` |
| `FormUrlEncoded.EncodeRoundTrip` | src/routes/repos.js:27-35 | percent-decoding then UTF-8 decoding gives back the encoded string |
| `FormUrlEncoded.EncodeKeepsUnreserved` | src/routes/repos.js:27-35 | a string of ASCII letters, digits and `*-._` is serialized unchanged |
| `FormUrlEncoded.SerializeRoundTrip` | src/routes/repos.js:27-35 | the parser of section 5.1 of the WHATWG URL Standard gives back exactly the serialized list of pairs |
| `FormUrlEncoded.SerializeInjective` | src/routes/repos.js:27-35 | two lists of pairs serialize alike only when they are equal |
| `FormUrlEncoded.DecimalInjective` | src/routes/repos.js:31-32 | `String(n)` is one-to-one on integers |
| `Repos.CompactKeepsWords` | src/routes/repos.js:24 | `.filter(Boolean)` keeps exactly the present, non-empty strings |
| `Repos.GithubQShape` | src/routes/repos.js:19-25 | the search string is `language:L created:>=D`, followed by a space and `q` only when `q` is a non-empty string |
| `Repos.CacheKey` | src/routes/repos.js:35 | every cache key starts with `gh:` |
| `Repos.CacheKeyIsNoLockKey` | src/routes/repos.js:35 | no cache key is the lock entry of any key |
| `Repos.CacheKeyIdentifiesRequest` | src/routes/repos.js:27-35 | two queries have the same cache key exactly when they send GitHub the same `q`, `per_page` and `page` (`sort` and `order` are fixed) |
| `Repos.DifferentQueriesShareKey` | src/routes/repos.js:19-35 | for every language and date, two different queries whose payloads echo different queries get one cache key |
| `Repos.Project` | src/routes/repos.js:65-80 | an item keeps each of the thirteen fields the route copies (`id`, `name`, `full_name`, `html_url`, `description`, `language`, `topics`, the star, fork, watcher and open-issue counts, `updated_at`, `created_at`) unchanged, and carries the repository's score |
| `Repos.ProjectAll` | src/routes/repos.js:64-80 | the projection maps every repository in order |
| `Repos.InsertPermutes` | src/routes/repos.js:81 | inserting an item into a list adds exactly that item to its multiset |
| `Repos.InsertSorted` | src/routes/repos.js:81 | inserting into a list ordered by descending score keeps it ordered |
| `Repos.SortByScore` | src/routes/repos.js:81 | the sorted items are a permutation of the input, ordered by score, highest first |
| `Repos.SortIsStable` | src/routes/repos.js:81 | items of equal score stay in GitHub's order |
| `Repos.BuildPayload` | src/routes/repos.js:64-87 | `result_count` equals the number of items, which is the number of repositories found (0 when `items` is missing); items are the projected repositories, sorted; the query is echoed with `q` as "" when absent |
| `Repos.Fetch` | src/routes/repos.js:49-87 | the producer succeeds exactly on a 2xx response whose JSON is not `null`, with that value's payload; a non-2xx response throws the GitHub error with its status |
| `Repos.ErrorResponse` | src/routes/repos.js:92-96 | an error answers "Upstream error"; the status is GitHub's exactly when the error carries one, and 500 otherwise |
| `Repos.Respond` | src/routes/repos.js:91-96 | status 200 with the payload on success, an error body otherwise |
| `Repos.InvalidQueryRejected` | src/routes/repos.js:11-16 | an invalid query answers 400 "Invalid query" without any store operation or GitHub call |
| `Repos.ServedPayloadIsCached` | src/routes/repos.js:37-91 | a served payload is what the store holds under the request's key; when this request called GitHub it is this query's scored, sorted result echoing this query |
| `Repos.UpstreamStatusPassedOn` | src/routes/repos.js:54-60 | when this request called GitHub and got a non-2xx status, the client gets that status with "Upstream error" and nothing was published |
| `Repos.CachedPayloadServed` | src/routes/repos.js:37-91 | a payload already cached under the request's key is served with 200 after one `GET`, with no GitHub call and no change to the store |
| `Repos.Handle` | src/routes/repos.js:10-97 | the handler as a function of the store: it touches the store exactly when the query is valid, and then first with `GET` of the request's cache key; the rest is carried by `InvalidQueryRejected`, `ServedPayloadIsCached`, `UpstreamStatusPassedOn` and `CachedPayloadServed` |
| `Repos.Popularity` | src/routes/repos.js:10-97 | the imperative handler does what `Handle` specifies: the same response, store and trace |

## Left out

- Real concurrency. Other clients act only while this caller sleeps in its poll loop, as batches of commands (`peers`). The producer's run is not interleaved with them. Store operations take no time.
- Cache.Winner: since no other client writes while the producer runs, the model cannot reach the case where a producer outlives its lease, another caller takes the lock, and the unconditional `finally` DEL (src/lib/cache.js:48-49) deletes that caller's lock.
- The Redis connection and the lazy global client (`getRedis`), its error logging, and store failures other than the "invalid expire time" refusal. The store is a given object.
- Redis replies other than a string or nil for `GET`.
- `src/lib/score.js` (floating-point scoring). It is not part of this model; the score is an integer given by the parameter `scoreOf`.
- `Date.parse` and zod's `z.coerce.number()`. They are the parameters `parsesAsDate` and `coerce`. zod's issue messages and the `flatten()` layout are reduced to the list of failing fields.
- `JSON.stringify`/`JSON.parse` internals. A value's serialization is the abstract `Doc(value)`. A cached string that is not such a serialization fails to parse, and a parsed `null` from the store is not modelled.
- The GitHub request itself: URL, headers, token, and the `fetch` call. What GitHub answers is the parameter `upstream`. Its `items` is assumed to be an array or missing. A 2xx reply whose JSON is an array, number, string or boolean has no `items`, so it is given as an object without `items` (`Object(EmptyObject)`, payload with `result_count` 0); `null` is `Null` and throws.
- The text of `String(err)` for thrown errors other than GitHub's. It is carried as the error value (`Stringified`).
- `src/constants/http-status-codes.js` is not part of this model. The statuses 200, 400 and 500 are written as numbers.
- `src/app.js`, `src/server.js` and `src/config/env.js`: Express wiring, Swagger and environment loading. The cache TTL is the parameter `ttlSeconds`.
- Redis's own multi-key atomicity and its expiry precision; the clock is an integer count of milliseconds.
