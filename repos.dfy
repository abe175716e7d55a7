/**
 * The `GET /popularity` route: validate the query, build the GitHub search
 * query and the cache key from it, and answer through `cacheWithLock` with a
 * producer that calls the GitHub search API, projects and scores the
 * repositories and sorts them by score, highest first.
 *
 * The network call is a parameter: `Upstream` is what GitHub would answer.
 * `popularityScore` is the parameter `scoreOf`; zod's number coercion and
 * `Date.parse` are the parameters of `QuerySchema.Validate`.
 */
module Repos {
  import opened Wrappers
  import opened Json
  import opened KvStore
  import opened Cache
  import opened QuerySchema
  import opened FormUrlEncoded

  const Ok := 200
  const BadRequest := 400
  const InternalServerError := 500

  // ------------------------------------------------------ GitHub search query

  /** `q ? q : null`: an empty search term counts as none. */
  function SearchTerm(q: Option<string>): Option<string> {
    if q.Some? && q.value != [] then q else None
  }

  /** `.filter(Boolean)` over strings and nulls: drops nulls and empty strings. */
  function Compact(parts: seq<Option<string>>): seq<string> {
    if parts == [] then []
    else (if parts[0].Some? && parts[0].value != [] then [parts[0].value] else []) + Compact(parts[1..])
  }

  /** The words kept are exactly the present, non-empty ones. */
  lemma {:induction false} CompactKeepsWords(parts: seq<Option<string>>)
    ensures forall w :: w in Compact(parts) <==> w != [] && Some(w) in parts
  {
    if parts != [] {
      CompactKeepsWords(parts[1..]);
      assert parts == [parts[0]] + parts[1..];
    }
  }

  /** `.join(" ")`. */
  function JoinWords(words: seq<string>): string {
    if words == [] then [] else if |words| == 1 then words[0] else words[0] + " " + JoinWords(words[1..])
  }

  /** The `q` parameter sent to GitHub. */
  function GithubQ(q: Query): string {
    JoinWords(Compact([Some("language:" + q.language), Some("created:>=" + q.createdAfter), SearchTerm(q.q)]))
  }

  lemma CompactThree(a: string, b: string, t: Option<string>)
    requires a != [] && b != [] && (t.Some? ==> t.value != [])
    ensures Compact([Some(a), Some(b), t]) == if t.Some? then [a, b, t.value] else [a, b]
  {
    var last := if t.Some? then [t.value] else [];
    assert Compact([t]) == last by {
      assert [t][1..] == [];
    }
    assert Compact([Some(b), t]) == [b] + last by {
      assert [Some(b), t][1..] == [t];
    }
    assert Compact([Some(a), Some(b), t]) == [a] + ([b] + last) by {
      assert [Some(a), Some(b), t][1..] == [Some(b), t];
    }
  }

  lemma JoinTwo(a: string, b: string)
    ensures JoinWords([a, b]) == a + " " + b
  {
    assert [a, b][1..] == [b];
  }

  lemma JoinThree(a: string, b: string, c: string)
    ensures JoinWords([a, b, c]) == a + " " + b + " " + c
  {
    assert [a, b, c][1..] == [b, c];
    JoinTwo(b, c);
  }

  /** The search query is the language qualifier, the creation-date qualifier and the free text, when there is any. */
  lemma GithubQShape(q: Query)
    ensures GithubQ(q) == "language:" + q.language + " created:>=" + q.createdAfter
                          + (if q.q.Some? && q.q.value != [] then " " + q.q.value else "")
  {
    if SearchTerm(q.q).Some? {
      GithubQWithText(q);
    } else {
      GithubQPlain(q);
      assert GithubQ(q) + "" == GithubQ(q);
    }
  }

  lemma GithubQPlain(q: Query)
    requires SearchTerm(q.q).None?
    ensures GithubQ(q) == "language:" + q.language + " created:>=" + q.createdAfter
  {
    var a, b := "language:" + q.language, "created:>=" + q.createdAfter;
    CompactThree(a, b, None);
    JoinTwo(a, b);
    Qualifiers(q.language, q.createdAfter, "");
  }

  lemma GithubQWithText(q: Query)
    requires SearchTerm(q.q).Some?
    ensures GithubQ(q) == "language:" + q.language + " created:>=" + q.createdAfter + (" " + q.q.value)
  {
    var a, b := "language:" + q.language, "created:>=" + q.createdAfter;
    CompactThree(a, b, q.q);
    JoinThree(a, b, q.q.value);
    Qualifiers(q.language, q.createdAfter, " " + q.q.value);
  }

  lemma Qualifiers(language: string, createdAfter: string, tail: string)
    ensures "language:" + language + " " + ("created:>=" + createdAfter) + tail
            == "language:" + language + " created:>=" + createdAfter + tail
  {
    assert " " + "created:>=" == " created:>=";
  }

  // -------------------------------------------------------------- cache key

  /** The `URLSearchParams` the route builds, in insertion order. */
  function SearchParams(q: Query): seq<(string, string)> {
    [("q", GithubQ(q)), ("sort", "updated"), ("order", "desc"), ("per_page", Decimal(q.perPage)), ("page", Decimal(q.page))]
  }

  function CacheKey(q: Query): (k: string)
    ensures |k| > 3 && k[..3] == "gh:"
  {
    "gh:" + Serialize(SearchParams(q))
  }

  /** A cache key is never the lock entry of any key, so a value and a lock never share an entry. */
  lemma CacheKeyIsNoLockKey(q: Query, key: string)
    ensures CacheKey(q) != LockKey(key)
  {
    assert CacheKey(q)[0] == 'g';
    assert LockKey(key)[0] == 'l';
  }

  /** Two queries share a cache key exactly when they make the same GitHub request. */
  lemma CacheKeyIdentifiesRequest(a: Query, b: Query)
    ensures CacheKey(a) == CacheKey(b) <==> GithubQ(a) == GithubQ(b) && a.perPage == b.perPage && a.page == b.page
  {
    if CacheKey(a) == CacheKey(b) {
      assert Serialize(SearchParams(a)) == CacheKey(a)[3..];
      assert Serialize(SearchParams(b)) == CacheKey(b)[3..];
      SerializeInjective(SearchParams(a), SearchParams(b));
      assert SearchParams(a)[3] == SearchParams(b)[3] && SearchParams(a)[4] == SearchParams(b)[4];
      DecimalInjective(a.perPage, b.perPage);
      DecimalInjective(a.page, b.page);
    }
  }

  // ---------------------------------------------------------- repositories

  /** A repository of the search result; `otherFields` stands for everything the route drops. */
  datatype Repo = Repo(id: int, name: string, fullName: string, htmlUrl: string, description: Option<string>,
                       language: Option<string>, topics: seq<string>, stargazersCount: int, forksCount: int,
                       updatedAt: string, createdAt: string, watchersCount: int, openIssuesCount: int,
                       otherFields: map<string, string>)

  /** A repository as the route returns it, with its popularity score. */
  datatype Item = Item(id: int, name: string, fullName: string, htmlUrl: string, description: Option<string>,
                       language: Option<string>, topics: seq<string>, stargazersCount: int, forksCount: int,
                       updatedAt: string, createdAt: string, watchersCount: int, openIssuesCount: int, score: int)

  function Project(r: Repo, scoreOf: Repo -> int): (it: Item)
    ensures it.id == r.id && it.name == r.name && it.fullName == r.fullName && it.htmlUrl == r.htmlUrl
    ensures it.description == r.description && it.language == r.language && it.topics == r.topics
    ensures it.stargazersCount == r.stargazersCount && it.forksCount == r.forksCount
            && it.watchersCount == r.watchersCount && it.openIssuesCount == r.openIssuesCount
    ensures it.updatedAt == r.updatedAt && it.createdAt == r.createdAt
    ensures it.score == scoreOf(r)
  {
    Item(r.id, r.name, r.fullName, r.htmlUrl, r.description, r.language, r.topics, r.stargazersCount, r.forksCount,
         r.updatedAt, r.createdAt, r.watchersCount, r.openIssuesCount, scoreOf(r))
  }

  function ProjectAll(rs: seq<Repo>, scoreOf: Repo -> int): (items: seq<Item>)
    ensures |items| == |rs| && forall i :: 0 <= i < |rs| ==> items[i] == Project(rs[i], scoreOf)
  {
    if rs == [] then [] else [Project(rs[0], scoreOf)] + ProjectAll(rs[1..], scoreOf)
  }

  predicate ByScore(items: seq<Item>) {
    forall i, j :: 0 <= i < j < |items| ==> items[i].score >= items[j].score
  }

  /** Places `x` after every item scoring at least as high, so that earlier items stay first on ties. */
  function Insert(x: Item, sorted: seq<Item>): seq<Item> {
    if sorted == [] then [x]
    else if sorted[0].score >= x.score then [sorted[0]] + Insert(x, sorted[1..])
    else [x] + sorted
  }

  lemma {:induction false} InsertPermutes(x: Item, sorted: seq<Item>)
    ensures multiset(Insert(x, sorted)) == multiset(sorted) + multiset{x}
  {
    if sorted != [] {
      assert sorted == [sorted[0]] + sorted[1..];
      if sorted[0].score >= x.score {
        InsertPermutes(x, sorted[1..]);
      }
    }
  }

  lemma {:induction false} InsertSorted(x: Item, sorted: seq<Item>)
    requires ByScore(sorted)
    ensures ByScore(Insert(x, sorted))
  {
    if sorted != [] && sorted[0].score >= x.score {
      var tail := Insert(x, sorted[1..]);
      InsertSorted(x, sorted[1..]);
      InsertPermutes(x, sorted[1..]);
      HeadAbove(sorted[0], x, sorted[1..], tail);
    }
  }

  lemma HeadAbove(head: Item, x: Item, rest: seq<Item>, tail: seq<Item>)
    requires ByScore([head] + rest) && ByScore(tail) && head.score >= x.score
    requires multiset(tail) == multiset(rest) + multiset{x}
    ensures ByScore([head] + tail)
  {
    forall y | y in tail
      ensures y.score <= head.score
    {
      assert y in multiset(tail);
      if y != x {
        assert multiset(rest)[y] == multiset(tail)[y] > 0;
        assert y in rest;
        var j :| 0 <= j < |rest| && rest[j] == y;
        assert ([head] + rest)[0] == head && ([head] + rest)[j + 1] == y;
      }
    }
    var r := [head] + tail;
    forall i, j | 0 <= i < j < |r|
      ensures r[i].score >= r[j].score
    {
      assert r[j] == tail[j - 1];
      assert r[j] in tail;
      if i > 0 {
        assert r[i] == tail[i - 1];
      }
    }
  }

  /** `.sort((a, b) => b.score - a.score)`: a stable sort, highest score first. */
  function SortByScore(items: seq<Item>): (r: seq<Item>)
    ensures ByScore(r)
    ensures multiset(r) == multiset(items)
  {
    if items == [] then []
    else
      var init, last := items[..|items| - 1], items[|items| - 1];
      assert items == init + [last];
      InsertSorted(last, SortByScore(init));
      InsertPermutes(last, SortByScore(init));
      Insert(last, SortByScore(init))
  }

  /** The items with score `k`, in order. */
  function WithScore(items: seq<Item>, k: int): seq<Item> {
    if items == [] then [] else (if items[0].score == k then [items[0]] else []) + WithScore(items[1..], k)
  }

  lemma {:induction false} WithScoreAppend(a: seq<Item>, b: seq<Item>, k: int)
    ensures WithScore(a + b, k) == WithScore(a, k) + WithScore(b, k)
  {
    if a == [] {
      assert a + b == b;
    } else {
      var head := if a[0].score == k then [a[0]] else [];
      assert (a + b)[0] == a[0] && (a + b)[1..] == a[1..] + b;
      assert WithScore(a + b, k) == head + WithScore(a[1..] + b, k);
      WithScoreAppend(a[1..], b, k);
      assert head + (WithScore(a[1..], k) + WithScore(b, k)) == (head + WithScore(a[1..], k)) + WithScore(b, k);
    }
  }

  lemma {:induction false} WithScoreBelow(items: seq<Item>, k: int)
    requires forall i :: 0 <= i < |items| ==> items[i].score < k
    ensures WithScore(items, k) == []
  {
    if items != [] {
      WithScoreBelow(items[1..], k);
    }
  }

  lemma {:induction false} InsertKeepsTies(x: Item, sorted: seq<Item>, k: int)
    requires ByScore(sorted)
    ensures WithScore(Insert(x, sorted), k) == WithScore(sorted, k) + WithScore([x], k)
  {
    if sorted == [] {
    } else if sorted[0].score >= x.score {
      InsertKeepsTies(x, sorted[1..], k);
      TiesBehindHead(x, sorted[0], sorted[1..], k);
      assert [sorted[0]] + sorted[1..] == sorted;
    } else {
      TiesInFront(x, sorted, k);
    }
  }

  lemma WithScoreCons(head: Item, tail: seq<Item>, k: int)
    ensures WithScore([head] + tail, k) == (if head.score == k then [head] else []) + WithScore(tail, k)
  {
    assert ([head] + tail)[0] == head;
    assert ([head] + tail)[1..] == tail;
  }

  lemma TiesBehindHead(x: Item, head: Item, rest: seq<Item>, k: int)
    requires head.score >= x.score
    requires WithScore(Insert(x, rest), k) == WithScore(rest, k) + WithScore([x], k)
    ensures WithScore(Insert(x, [head] + rest), k) == WithScore([head] + rest, k) + WithScore([x], k)
  {
    assert ([head] + rest)[0] == head && ([head] + rest)[1..] == rest;
    assert Insert(x, [head] + rest) == [head] + Insert(x, rest);
    WithScoreCons(head, Insert(x, rest), k);
    WithScoreCons(head, rest, k);
    Regrouped(if head.score == k then [head] else [], WithScore(rest, k), WithScore([x], k));
  }

  lemma Regrouped<T>(a: seq<T>, b: seq<T>, c: seq<T>)
    ensures a + (b + c) == (a + b) + c
  {
  }

  lemma TiesInFront(x: Item, sorted: seq<Item>, k: int)
    requires ByScore(sorted) && sorted != [] && sorted[0].score < x.score
    ensures WithScore(Insert(x, sorted), k) == WithScore(sorted, k) + WithScore([x], k)
  {
    assert Insert(x, sorted) == [x] + sorted;
    WithScoreCons(x, sorted, k);
    WithScoreCons(x, [], k);
    if x.score == k {
      WithScoreBelow(sorted, k);
    }
  }

  /** The sort is stable: items of equal score keep the order GitHub returned them in. */
  lemma {:induction false} SortIsStable(items: seq<Item>, k: int)
    ensures WithScore(SortByScore(items), k) == WithScore(items, k)
  {
    if items != [] {
      var init, last := items[..|items| - 1], items[|items| - 1];
      SortIsStable(init, k);
      InsertKeepsTies(last, SortByScore(init), k);
      assert items == init + [last];
      WithScoreAppend(init, [last], k);
    }
  }

  // ----------------------------------------------------------------- payload

  /** The query as the payload echoes it; an absent `q` is echoed as "". */
  datatype Echo = Echo(language: string, createdAfter: string, perPage: int, page: int, q: string)

  datatype Payload = Payload(query: Echo, resultCount: int, items: seq<Item>)

  function EchoOf(q: Query): Echo {
    Echo(q.language, q.createdAfter, q.perPage, q.page, q.q.GetOr(""))
  }

  /** The producer's value for a successful search whose `items` field is `found` (None when missing or null). */
  function BuildPayload(q: Query, found: Option<seq<Repo>>, scoreOf: Repo -> int): (p: Payload)
    ensures p.resultCount == |p.items| == |found.GetOr([])|
    ensures ByScore(p.items) && multiset(p.items) == multiset(ProjectAll(found.GetOr([]), scoreOf))
    ensures p.query == EchoOf(q)
  {
    var items := SortByScore(ProjectAll(found.GetOr([]), scoreOf));
    assert |items| == |multiset(items)|;
    Payload(EchoOf(q), |items|, items)
  }

  // ----------------------------------------------------------------- GitHub

  /** The JSON object of a GitHub response; `otherFields` stands for everything but `items`. */
  datatype SearchBody = SearchBody(items: Option<seq<Repo>>, otherFields: map<string, string>)

  /** What `response.json()` yields: a rejection with its error text, JSON null, or an object. */
  datatype JsonReply = NotJson(errorText: string) | Null | Object(body: SearchBody)

  /** What GitHub does with the request: the fetch rejects, or a response arrives `latency` ticks later. */
  datatype Upstream = Unreachable(errorText: string, latency: nat) | Reply(status: int, json: JsonReply, latency: nat)

  /** What the producer throws: the "GitHub API error" carrying status and body, or any other error's text. */
  datatype Fault = GitHubError(status: int, details: Option<SearchBody>) | Thrown(errorText: string)

  const EmptyObject := SearchBody(None, map[])

  /** `response.ok`. */
  predicate Successful(status: int) {
    200 <= status <= 299
  }

  /** The producer the route hands to `cacheWithLock`, as what it does against `upstream`. */
  function Fetch(q: Query, upstream: Upstream, scoreOf: Repo -> int): (w: Producer<Payload, Fault>)
    ensures w.outcome.Success? <==> upstream.Reply? && Successful(upstream.status) && upstream.json.Object?
    ensures w.outcome.Success? ==> w.outcome.value == BuildPayload(q, upstream.json.body.items, scoreOf)
    ensures upstream.Reply? && !Successful(upstream.status) ==>
              w.outcome.Failure? && w.outcome.error.GitHubError? && w.outcome.error.status == upstream.status
  {
    match upstream
    case Unreachable(text, t) => Producer(Failure(Thrown(text)), t)
    case Reply(status, json, t) =>
      if !Successful(status) then
        var details := match json
          case NotJson(_) => Some(EmptyObject)
          case Null => None
          case Object(b) => Some(b);
        Producer(Failure(GitHubError(status, details)), t)
      else
        match json
        case NotJson(text) => Producer(Failure(Thrown(text)), t)
        case Null => Producer(Failure(Thrown("TypeError: Cannot read properties of null (reading 'items')")), t)
        case Object(b) => Producer(Success(BuildPayload(q, b.items, scoreOf)), t)
  }

  // --------------------------------------------------------------- responses

  /** The `details` of an error body: the failing fields, GitHub's body, or `String(err)` of the error thrown. */
  datatype Details = FieldIssues(fields: seq<Field>) | UpstreamBody(body: SearchBody) | Stringified(error: CacheError<Fault>)

  datatype ResponseBody = Served(payload: Payload) | Problem(error: string, details: Details)

  datatype Response = Response(status: int, body: ResponseBody)

  /** The `catch` block: GitHub's status and body when the error carries them, else 500 and the error's text. */
  function ErrorResponse(e: CacheError<Fault>): (r: Response)
    ensures r.body.Problem? && r.body.error == "Upstream error"
    ensures r.status != InternalServerError ==> e.WorkFailed? && e.error.GitHubError? && e.error.status == r.status
    ensures !(e.WorkFailed? && e.error.GitHubError?) ==> r.status == InternalServerError
    ensures e.WorkFailed? && e.error.GitHubError? ==> r.status == e.error.status
  {
    var upstream := e.WorkFailed? && e.error.GitHubError?;
    var status := if upstream then e.error.status else InternalServerError;
    var details := if upstream && e.error.details.Some? then UpstreamBody(e.error.details.value) else Stringified(e);
    Response(status, Problem("Upstream error", details))
  }

  function Respond(r: Result<Payload, CacheError<Fault>>): (resp: Response)
    ensures resp.status == Ok <==> r.Success? || (r.error.WorkFailed? && r.error.error.GitHubError? && r.error.error.status == Ok)
    ensures r.Success? ==> resp.body == Served(r.value)
    ensures r.Failure? ==> resp.body.Problem?
  {
    match r
    case Success(p) => Response(Ok, Served(p))
    case Failure(e) => ErrorResponse(e)
  }

  // ----------------------------------------------------------------- handler

  datatype Handled = Handled(response: Response, after: State<Payload>, trace: seq<Event<Payload>>)

  /** The route handler as a function of the store it starts from. */
  function Handle(s: State<Payload>, raw: RawQuery, ttlSeconds: int, upstream: Upstream, peers: seq<seq<Command<Payload>>>,
                  parsesAsDate: string -> bool, coerce: Param -> Coerced, scoreOf: Repo -> int): (h: Handled)
    ensures h.trace == [] <==> Validate(raw, parsesAsDate, coerce).Failure?
    ensures h.trace != [] ==> h.trace[0] == GetCall(CacheKey(Validate(raw, parsesAsDate, coerce).value))
    ensures h.after.now >= s.now
  {
    match Validate(raw, parsesAsDate, coerce)
    case Failure(fields) => Handled(Response(BadRequest, Problem("Invalid query", FieldIssues(fields))), s, [])
    case Success(q) =>
      var run := Protocol(s, CacheKey(q), ttlSeconds, Fetch(q, upstream, scoreOf), DefaultLockMs, DefaultPollMs, peers);
      Handled(Respond(run.result), run.after, run.trace)
  }

  /** An invalid query is answered 400 without touching the store or calling GitHub. */
  lemma InvalidQueryRejected(s: State<Payload>, raw: RawQuery, ttlSeconds: int, upstream: Upstream,
                             peers: seq<seq<Command<Payload>>>, parsesAsDate: string -> bool, coerce: Param -> Coerced,
                             scoreOf: Repo -> int)
    requires exists f :: !FieldOk(raw, f, parsesAsDate, coerce)
    ensures var h := Handle(s, raw, ttlSeconds, upstream, peers, parsesAsDate, coerce, scoreOf);
            h.response.status == BadRequest && h.response.body.Problem? && h.response.body.error == "Invalid query"
            && h.after == s && h.trace == []
  {
  }

  /**
   * A 200 answer carries a payload that is in the store under the request's
   * cache key; when this request called GitHub, it is this query's search
   * result, scored and sorted.
   */
  lemma ServedPayloadIsCached(s: State<Payload>, raw: RawQuery, ttlSeconds: int, upstream: Upstream,
                              peers: seq<seq<Command<Payload>>>, parsesAsDate: string -> bool, coerce: Param -> Coerced,
                              scoreOf: Repo -> int)
    ensures var h := Handle(s, raw, ttlSeconds, upstream, peers, parsesAsDate, coerce, scoreOf);
            var v := Validate(raw, parsesAsDate, coerce);
            h.response.body.Served? ==>
              v.Success? && h.response.status == Ok
              && Read(h.after, CacheKey(v.value)) == Some(Stringify(h.response.body.payload))
    ensures var h := Handle(s, raw, ttlSeconds, upstream, peers, parsesAsDate, coerce, scoreOf);
            var v := Validate(raw, parsesAsDate, coerce);
            h.response.body.Served? && WorkCall in h.trace ==>
              upstream.Reply? && Successful(upstream.status) && upstream.json.Object?
              && h.response.body.payload == BuildPayload(v.value, upstream.json.body.items, scoreOf)
              && h.response.body.payload.query == EchoOf(v.value)
  {
    var v := Validate(raw, parsesAsDate, coerce);
    if v.Success? {
      ReturnedValueIsStored(s, CacheKey(v.value), ttlSeconds, Fetch(v.value, upstream, scoreOf), DefaultLockMs,
                            DefaultPollMs, peers);
    }
  }

  /**
   * When this request called GitHub and GitHub answered with a non-2xx
   * status, the client gets that status with "Upstream error", and nothing
   * was published under the key.
   */
  lemma UpstreamStatusPassedOn(s: State<Payload>, raw: RawQuery, ttlSeconds: int, upstream: Upstream,
                               peers: seq<seq<Command<Payload>>>, parsesAsDate: string -> bool, coerce: Param -> Coerced,
                               scoreOf: Repo -> int)
    requires Validate(raw, parsesAsDate, coerce).Success?
    requires upstream.Reply? && !Successful(upstream.status)
    ensures var h := Handle(s, raw, ttlSeconds, upstream, peers, parsesAsDate, coerce, scoreOf);
            WorkCall in h.trace ==>
              h.response.status == upstream.status && h.response.body.Problem?
              && h.response.body.error == "Upstream error" && Unpublished(h.trace)
  {
    var q := Validate(raw, parsesAsDate, coerce).value;
    FailureIsTheProducers(s, CacheKey(q), ttlSeconds, Fetch(q, upstream, scoreOf), DefaultLockMs, DefaultPollMs, peers);
    FailurePublishesNothing(s, CacheKey(q), ttlSeconds, Fetch(q, upstream, scoreOf), DefaultLockMs, DefaultPollMs, peers);
  }

  /** A payload already in the store is served as it is, with no call to GitHub and no change to the store. */
  lemma CachedPayloadServed(s: State<Payload>, raw: RawQuery, ttlSeconds: int, upstream: Upstream,
                            peers: seq<seq<Command<Payload>>>, parsesAsDate: string -> bool, coerce: Param -> Coerced,
                            scoreOf: Repo -> int, cached: Payload)
    requires Validate(raw, parsesAsDate, coerce).Success?
    requires Read(s, CacheKey(Validate(raw, parsesAsDate, coerce).value)) == Some(Stringify(cached))
    ensures Handle(s, raw, ttlSeconds, upstream, peers, parsesAsDate, coerce, scoreOf)
            == Handled(Response(Ok, Served(cached)), s, [GetCall(CacheKey(Validate(raw, parsesAsDate, coerce).value))])
  {
    var key := CacheKey(Validate(raw, parsesAsDate, coerce).value);
    ParseStringify(cached);
    HitServed(s, key, ttlSeconds, Fetch(Validate(raw, parsesAsDate, coerce).value, upstream, scoreOf), DefaultLockMs,
              DefaultPollMs, peers);
  }

  /**
   * The cache key is built from the joined search string, so two different
   * valid queries can share it: a language that itself ends in the date
   * qualifier makes the same search string as the plain language with that
   * qualifier as free text. The second request is then served the first
   * one's payload, which echoes the first query.
   */
  lemma DifferentQueriesShareKey(language: string, createdAfter: string, perPage: int, page: int)
    ensures var a := Query(language + " created:>=" + createdAfter, createdAfter, None, perPage, page);
            var b := Query(language, createdAfter, Some("created:>=" + createdAfter), perPage, page);
            (WellFormed(b) ==> WellFormed(a)) && a != b && EchoOf(a) != EchoOf(b) && CacheKey(a) == CacheKey(b)
  {
    var a := Query(language + " created:>=" + createdAfter, createdAfter, None, perPage, page);
    var b := Query(language, createdAfter, Some("created:>=" + createdAfter), perPage, page);
    assert |a.language| > |b.language|;
    GithubQPlain(a);
    GithubQWithText(b);
    SameSearchString(language, createdAfter);
    CacheKeyIdentifiesRequest(a, b);
  }

  lemma SameSearchString(l: string, d: string)
    ensures "language:" + (l + " created:>=" + d) + " created:>=" + d
            == "language:" + l + " created:>=" + d + (" " + ("created:>=" + d))
  {
    var x := " created:>=";
    assert " " + ("created:>=" + d) == x + d by {
      assert " " + "created:>=" == x;
    }
    var p := "language:";
    Regrouped(p, l, x);
    Regrouped(p, l + x, d);
    Regrouped(p + l + x + d, x, d);
  }

  /** The route handler, running the cache protocol on the shared store. */
  method Popularity(store: Store<Payload>, raw: RawQuery, ttlSeconds: int, upstream: Upstream,
                    peers: seq<seq<Command<Payload>>>, parsesAsDate: string -> bool, coerce: Param -> Coerced,
                    scoreOf: Repo -> int)
    returns (response: Response, ghost trace: seq<Event<Payload>>)
    modifies store
    ensures Handle(old(store.Snapshot()), raw, ttlSeconds, upstream, peers, parsesAsDate, coerce, scoreOf)
            == Handled(response, store.Snapshot(), trace)
  {
    var parsed := Validate(raw, parsesAsDate, coerce);
    if parsed.Failure? {
      return Response(BadRequest, Problem("Invalid query", FieldIssues(parsed.error))), [];
    }
    var q := parsed.value;
    var result;
    result, trace := CacheWithLock(store, CacheKey(q), ttlSeconds, Fetch(q, upstream, scoreOf), DefaultLockMs,
                                   DefaultPollMs, peers);
    response := Respond(result);
  }
}
