/**
 * The browser-side fetch orchestrator: resolves the slug, tries three GraphQL
 * query shapes in a fixed order through the proxy, normalises the first record
 * found, and retries the whole round up to three times with exponential backoff.
 * The HTTP client is not modelled: `answer(n)` is what the n-th request (counting
 * from 0 over all rounds) resolves or rejects with, and the waits are recorded
 * instead of slept.
 */
module ProductHuntApi {
  import opened Wrappers
  import opened JsValue
  import opened JsText

  /** Slug used when none is given. */
  const DefaultExample: string := "demodazzle"
  /** Number of rounds. */
  const MaxRetries: nat := 3
  /** Message of the error the fetch rejects with once every round has failed. */
  const AllMethodsFailed: string := "所有查询方法均失败"

  const ProductQuery: string := @"
  query GetPost($slug: String!) {
    post(slug: $slug) {
      id
      name
      tagline
      description
      url
      thumbnail {
        url
      }
      media {
        type
        url
        videoUrl
      }
      votesCount
      commentsCount
    }
  }
"
  const AlternateQuery: string := @"
  query SearchPosts($slug: String!) {
    posts(first: 1, order: RANKING, search: $slug) {
      edges {
        node {
          id
          name
          tagline
          description
          url
          thumbnail {
            url
          }
          media {
            type
            url
            videoUrl
          }
          votesCount
          commentsCount
        }
      }
    }
  }
"
  const ProductApiQuery: string := @"
  query GetProduct($slug: String!) {
    product(slug: $slug) {
      id
      name
      tagline
      description
      website
      thumbnail {
        url
      }
      media {
        type
        url
        videoUrl
      }
      votesCount
      commentsCount
    }
  }
"

  /** One step of a data path: a member name, or an array index. */
  datatype Step = Key(name: string) | Index(i: nat)

  /** A query shape: its name and where the product sits in the answer. */
  datatype QueryMethod = QueryMethod(name: string, dataPath: seq<Step>)

  /** The three shapes, in the order they are tried. */
  const Methods: seq<QueryMethod> := [
    QueryMethod("post查询", [Key("data"), Key("post")]),
    QueryMethod("搜索查询", [Key("data"), Key("posts"), Key("edges"), Index(0), Key("node")]),
    QueryMethod("产品查询", [Key("data"), Key("product")])
  ]

  /** The query text of each shape, in the same order. */
  const Queries: seq<string> := [ProductQuery, AlternateQuery, ProductApiQuery]

  /** One request: the index of its shape in `Methods`, the slug and the cache flag. */
  datatype Request = Request(shape: nat, slug: string, skipCache: bool)

  /** What one `axios.post` gives: a rejection (network error, timeout, non-2xx status)
      or the parsed response data. */
  datatype Reply = Threw(message: string) | Answered(data: Json)

  /** The normalised product.  `id`, `name`, `tagline` and `description` are copied as
      they are (possibly undefined). */
  datatype ProductRecord = ProductRecord(
    id: Option<Json>,
    name: Option<Json>,
    tagline: Option<Json>,
    description: Option<Json>,
    logoUrl: Json,
    media: seq<Json>,
    votesCount: Json,
    commentsCount: Json,
    url: Json)

  /** The record as a JSON object, as it is stored in session storage; undefined
      members are dropped. */
  function RecordToJson(r: ProductRecord): (j: Json)
    ensures j.JObj?
    ensures Member(j, "logoUrl") == Some(r.logoUrl) && Member(j, "media") == Some(JArr(r.media))
    ensures Member(j, "url") == Some(r.url) && Member(j, "name") == r.name
  {
    var fixed := map["logoUrl" := r.logoUrl, "media" := JArr(r.media), "votesCount" := r.votesCount,
                     "commentsCount" := r.commentsCount, "url" := r.url];
    var withId := if r.id.Some? then fixed["id" := r.id.value] else fixed;
    var withName := if r.name.Some? then withId["name" := r.name.value] else withId;
    var withTagline := if r.tagline.Some? then withName["tagline" := r.tagline.value] else withName;
    JObj(if r.description.Some? then withTagline["description" := r.description.value] else withTagline)
  }

  /** The slug actually used: the default when it is missing, empty or only white
      space; otherwise the argument itself, untrimmed. */
  function ResolveSlug(slug: Option<string>): (r: string)
    ensures slug.None? || Trim(slug.value) == "" ==> r == DefaultExample
    ensures slug.Some? && Trim(slug.value) != "" ==> r == slug.value
    ensures r != ""
  {
    if slug.None? || slug.value == "" || Trim(slug.value) == "" then DefaultExample else slug.value
  }

  /** The body posted for a request: `{query, variables: {slug}, skipCache}`. */
  function RequestBody(r: Request): (body: Json)
    ensures body.JObj? && Member(body, "skipCache") == Some(JBool(r.skipCache))
    ensures OptMember(Member(body, "variables"), "slug") == Some(JStr(r.slug))
    ensures Member(body, "query") == Some(JStr(Queries[r.shape % 3]))
  {
    JObj(map["query" := JStr(Queries[r.shape % 3]), "variables" := JObj(map["slug" := JStr(r.slug)]),
             "skipCache" := JBool(r.skipCache)])
  }

  /** `v[step]` on a value that is not null. */
  function Read(v: Json, step: Step): Option<Json> {
    match step
    case Key(k) => Member(v, k)
    case Index(i) =>
      match v
      case JArr(items) => if i < |items| then Some(items[i]) else None
      case JObj(fields) => if NatToString(i) in fields then Some(fields[NatToString(i)]) else None
      case JStr(s) => if i < |s| then Some(JStr([s[i]])) else None
      case _ => None
  }

  /** The data-path walk: each step continues only from a truthy value to a truthy
      value; the first missing or falsy step gives `None` (the code's `null`). */
  function WalkPath(v: Option<Json>, path: seq<Step>): (r: Option<Json>)
    ensures path != [] && r.Some? ==> Truthy(r.value)
    decreases |path|
  {
    if path == [] then v
    else if TruthyOpt(v) && TruthyOpt(Read(v.value, path[0])) then WalkPath(Read(v.value, path[0]), path[1..])
    else None
  }

  /** `m.url || m.videoUrl` for each media item, keeping the truthy results in order;
      `None` when an item is null (reading its `url` throws). */
  function MediaUrls(items: seq<Json>): (r: Option<seq<Json>>)
    ensures r.None? <==> JNull in items
    ensures r.Some? ==> |r.value| <= |items| && forall x :: x in r.value ==> Truthy(x)
    decreases |items|
  {
    if items == [] then Some([])
    else if items[0] == JNull then None
    else
      var u := Or(Member(items[0], "url"), Member(items[0], "videoUrl"));
      match MediaUrls(items[1..])
      case None => None
      case Some(rest) => Some((if TruthyOpt(u) then [u.value] else []) + rest)
  }

  /** `product.media?.map(...).filter(Boolean) || []`: an absent or null list gives
      `[]`, a value with no `map` method throws (`None`). */
  function MediaList(media: Option<Json>): Option<seq<Json>> {
    match media
    case None => Some([])
    case Some(JNull) => Some([])
    case Some(JArr(items)) => MediaUrls(items)
    case Some(_) => None
  }

  /** Media mapping works item by item: the urls of a concatenation are the urls of
      each part, in order, and a null item anywhere makes the whole mapping throw. */
  lemma {:induction false} MediaUrlsAppend(a: seq<Json>, b: seq<Json>)
    ensures MediaUrls(a + b) ==
      if MediaUrls(a).Some? && MediaUrls(b).Some? then Some(MediaUrls(a).value + MediaUrls(b).value) else None
    decreases |a|
  {
    if a == [] {
      assert a + b == b;
      if MediaUrls(b).Some? {
        assert [] + MediaUrls(b).value == MediaUrls(b).value;
      }
    } else {
      assert (a + b)[0] == a[0];
      assert (a + b)[1..] == a[1..] + b;
      MediaUrlsAppend(a[1..], b);
      if a[0] != JNull && MediaUrls(a[1..]).Some? && MediaUrls(b).Some? {
        var u := Or(Member(a[0], "url"), Member(a[0], "videoUrl"));
        var head: seq<Json> := if TruthyOpt(u) then [u.value] else [];
        assert MediaUrls(a).value == head + MediaUrls(a[1..]).value;
        assert head + (MediaUrls(a[1..]).value + MediaUrls(b).value) == (head + MediaUrls(a[1..]).value) + MediaUrls(b).value;
      }
    }
  }

  /** Record normalisation of a product found along the data path; `None` when the
      media mapping throws. */
  function Normalise(p: Json): (r: Option<ProductRecord>)
    requires p != JNull
    ensures r.Some? <==> MediaList(Member(p, "media")).Some?
    ensures r.Some? ==> r.value.media == MediaList(Member(p, "media")).value
    ensures r.Some? ==> r.value.name == Member(p, "name") && r.value.id == Member(p, "id")
    ensures r.Some? ==> r.value.tagline == Member(p, "tagline") && r.value.description == Member(p, "description")
    ensures r.Some? ==> (if TruthyOpt(OptMember(Member(p, "thumbnail"), "url"))
                         then Some(r.value.logoUrl) == OptMember(Member(p, "thumbnail"), "url")
                         else r.value.logoUrl == JStr(""))
    ensures r.Some? ==> (if TruthyOpt(Member(p, "votesCount")) then Some(r.value.votesCount) == Member(p, "votesCount")
                         else r.value.votesCount == JNum(0))
    ensures r.Some? ==> (if TruthyOpt(Member(p, "commentsCount")) then Some(r.value.commentsCount) == Member(p, "commentsCount")
                         else r.value.commentsCount == JNum(0))
    ensures r.Some? ==> (if TruthyOpt(Member(p, "url")) then Some(r.value.url) == Member(p, "url")
                         else if TruthyOpt(Member(p, "website")) then Some(r.value.url) == Member(p, "website")
                         else r.value.url == JStr(""))
  {
    match MediaList(Member(p, "media"))
    case None => None
    case Some(media) =>
      Some(ProductRecord(
        Member(p, "id"),
        Member(p, "name"),
        Member(p, "tagline"),
        Member(p, "description"),
        OrElse(OptMember(Member(p, "thumbnail"), "url"), JStr("")),
        media,
        OrElse(Member(p, "votesCount"), JNum(0)),
        OrElse(Member(p, "commentsCount"), JNum(0)),
        OrElse(Or(Member(p, "url"), Member(p, "website")), JStr(""))))
  }

  /** What one query shape yields from its reply: a record, or `None` when the shape
      is skipped (rejected request, truthy `errors`, a missing or falsy step on the
      data path, or a throw while normalising). */
  function MethodResult(reply: Reply, path: seq<Step>): (r: Option<ProductRecord>)
    ensures r.Some? ==> reply.Answered? && reply.data != JNull && !TruthyOpt(Member(reply.data, "errors"))
    ensures r.Some? ==> TruthyOpt(WalkPath(Some(reply.data), path))
  {
    match reply
    case Threw(_) => None
    case Answered(data) =>
      if data == JNull || TruthyOpt(Member(data, "errors")) then None
      else
        var product := WalkPath(Some(data), path);
        if TruthyOpt(product) then Normalise(product.value) else None
  }

  /** The result of the n-th request overall: round n / 3, shape n % 3. */
  function Attempt(answer: nat -> Reply, n: nat): (r: Option<ProductRecord>)
    ensures r.Some? ==> answer(n).Answered? && answer(n).data != JNull
                        && TruthyOpt(WalkPath(Some(answer(n).data), Methods[n % 3].dataPath))
  {
    MethodResult(answer(n), Methods[n % 3].dataPath)
  }

  /** The index of the first successful request at or after `k`, or 9 when none of
      the nine possible requests succeeds. */
  function FirstSuccess(answer: nat -> Reply, k: nat): (n: nat)
    requires k <= 9
    ensures k <= n <= 9
    ensures forall j :: k <= j < n ==> Attempt(answer, j).None?
    ensures n < 9 ==> Attempt(answer, n).Some?
    decreases 9 - k
  {
    if k == 9 then 9
    else
      var here := Attempt(answer, k);
      if here.Some? then k
      else
        var n := FirstSuccess(answer, k + 1);
        assert forall j :: k <= j < n ==> Attempt(answer, j).None? by {
          forall j | k <= j < n ensures Attempt(answer, j).None? {
            if j == k { assert Attempt(answer, j) == here; }
          }
        }
        n
  }

  function Pow2(n: nat): (r: nat)
    ensures r >= 1
  {
    if n == 0 then 1 else 2 * Pow2(n - 1)
  }

  /** Milliseconds waited after the `retries`-th failed round. */
  function Delay(retries: nat): nat {
    Pow2(retries) * 1000
  }

  /** The bodies of the first `n` requests, in order. */
  function Requests(slug: string, skipCache: bool, n: nat): (r: seq<Request>)
    ensures |r| == n
    ensures forall j :: 0 <= j < n ==> r[j] == Request(j % 3, slug, skipCache)
  {
    seq(n, j requires 0 <= j => Request(j % 3, slug, skipCache))
  }

  /** The waits after the first `rounds` failed rounds. */
  function Waits(rounds: nat): (r: seq<nat>)
    ensures |r| == rounds
    ensures forall j :: 0 <= j < rounds ==> r[j] == Delay(j + 1)
  {
    seq(rounds, j requires 0 <= j => Delay(j + 1))
  }

  lemma RequestsSnoc(slug: string, skipCache: bool, n: nat)
    ensures Requests(slug, skipCache, n + 1) == Requests(slug, skipCache, n) + [Request(n % 3, slug, skipCache)]
  {
  }

  lemma WaitsSnoc(rounds: nat)
    ensures Waits(rounds + 1) == Waits(rounds) + [Delay(rounds + 1)]
  {
  }

  /** A whole fetch: its result, the request bodies sent and the waits in between. */
  datatype Run = Run(result: Result<ProductRecord>, requests: seq<Request>, waits: seq<nat>)

  /** `fetchProductData` as a function of the answers: the first successful request
      decides the record; without one, all nine requests are made and the fetch
      rejects. */
  function Fetch(slug: Option<string>, skipCache: Option<bool>, answer: nat -> Reply): (run: Run)
    ensures 1 <= |run.requests| <= 9 && |run.waits| <= MaxRetries - 1
    ensures run.result.Failure? ==> run.result.message == AllMethodsFailed && |run.requests| == 9
    ensures run.result.Success? ==> Some(run.result.value) == Attempt(answer, |run.requests| - 1)
  {
    var s := ResolveSlug(slug);
    var skip := skipCache.GetOr(true);
    var n := FirstSuccess(answer, 0);
    if n < 9 then Run(Success(Attempt(answer, n).value), Requests(s, skip, n + 1), Waits(n / 3))
    else Run(Failure(AllMethodsFailed), Requests(s, skip, 9), Waits(MaxRetries - 1))
  }

  /** Request `3 * round + i` uses the i-th shape. */
  lemma AttemptInRound(answer: nat -> Reply, round: nat, i: nat)
    requires i < 3
    ensures (3 * round + i) % 3 == i
    ensures Attempt(answer, 3 * round + i) == MethodResult(answer(3 * round + i), Methods[i].dataPath)
  {
  }

  /** A failed request moves the first success past it. */
  lemma FirstSuccessPast(answer: nat -> Reply, n: nat)
    requires n < 9 && FirstSuccess(answer, 0) >= n && Attempt(answer, n).None?
    ensures FirstSuccess(answer, 0) >= n + 1
  {
  }

  /** When request `n` is the first to give a record, the fetch returns that record
      after `n + 1` requests and `n / 3` waits. */
  lemma FetchSucceedsAt(slug: Option<string>, skipCache: Option<bool>, answer: nat -> Reply, n: nat)
    requires n < 9 && FirstSuccess(answer, 0) >= n && Attempt(answer, n).Some?
    ensures Fetch(slug, skipCache, answer) ==
      Run(Success(Attempt(answer, n).value), Requests(ResolveSlug(slug), skipCache.GetOr(true), n + 1), Waits(n / 3))
  {
    assert FirstSuccess(answer, 0) == n;
  }

  /** The fetch rejects exactly when none of the nine requests yields a record, and
      then with the fixed message, after all nine requests and both waits. */
  lemma FetchFailsIffAllFail(slug: Option<string>, skipCache: Option<bool>, answer: nat -> Reply)
    ensures Fetch(slug, skipCache, answer).result.Failure? <==> forall j :: 0 <= j < 9 ==> Attempt(answer, j).None?
    ensures Fetch(slug, skipCache, answer).result.Failure? ==>
      Fetch(slug, skipCache, answer).result.message == AllMethodsFailed &&
      |Fetch(slug, skipCache, answer).requests| == 9 && Fetch(slug, skipCache, answer).waits == [2000, 4000]
  {
    var n := FirstSuccess(answer, 0);
    if n < 9 {
      assert Attempt(answer, n).Some?;
    } else {
      assert Waits(2) == [2000, 4000] by {
        assert Delay(1) == 2000 && Delay(2) == 4000;
      }
    }
  }

  /** A record found in round `round` ends the fetch with the waits of the earlier
      rounds. */
  lemma FetchSucceedsInRound(slug: Option<string>, skipCache: Option<bool>, answer: nat -> Reply, round: nat)
    requires round < MaxRetries
    requires 3 * round <= FirstSuccess(answer, 0) < 3 * round + 3
    ensures Fetch(slug, skipCache, answer) ==
      Run(Success(Attempt(answer, FirstSuccess(answer, 0)).value),
          Requests(ResolveSlug(slug), skipCache.GetOr(true), FirstSuccess(answer, 0) + 1), Waits(round))
  {
    assert FirstSuccess(answer, 0) / 3 == round;
  }

  /** With no record in nine requests the fetch rejects after all of them. */
  lemma FetchFailsAfterAllRounds(slug: Option<string>, skipCache: Option<bool>, answer: nat -> Reply)
    requires FirstSuccess(answer, 0) >= 9
    ensures Fetch(slug, skipCache, answer) ==
      Run(Failure(AllMethodsFailed), Requests(ResolveSlug(slug), skipCache.GetOr(true), 9), Waits(MaxRetries - 1))
  {
  }

  /** A successful fetch returns the record of its last request, and every request
      before it failed: later shapes and rounds are never requested. */
  lemma FetchStopsAtFirstRecord(slug: Option<string>, skipCache: Option<bool>, answer: nat -> Reply)
    requires Fetch(slug, skipCache, answer).result.Success?
    ensures var run := Fetch(slug, skipCache, answer);
      1 <= |run.requests| <= 9 &&
      Some(run.result.value) == Attempt(answer, |run.requests| - 1) &&
      forall j :: 0 <= j < |run.requests| - 1 ==> Attempt(answer, j).None?
  {
  }

  /** Whatever happens, at most nine requests are made, the j-th with the shape
      `j % 3` and the resolved slug, and the waits are a prefix of 2000 ms, 4000 ms,
      one per completed failed round that is followed by another round. */
  lemma FetchRequestsAndWaits(slug: Option<string>, skipCache: Option<bool>, answer: nat -> Reply)
    ensures var run := Fetch(slug, skipCache, answer);
      |run.requests| <= 9 &&
      (forall j :: 0 <= j < |run.requests| ==>
         run.requests[j] == Request(j % 3, ResolveSlug(slug), skipCache.GetOr(true))) &&
      run.waits <= [2000, 4000] &&
      |run.waits| == (|run.requests| - 1) / 3
  {
    FetchRequestShapes(slug, skipCache, answer);
    FetchWaitDelays(slug, skipCache, answer);
  }

  lemma FetchRequestShapes(slug: Option<string>, skipCache: Option<bool>, answer: nat -> Reply)
    ensures var run := Fetch(slug, skipCache, answer);
      forall j :: 0 <= j < |run.requests| ==> run.requests[j] == Request(j % 3, ResolveSlug(slug), skipCache.GetOr(true))
  {
    var n := FirstSuccess(answer, 0);
    assert Fetch(slug, skipCache, answer).requests
        == Requests(ResolveSlug(slug), skipCache.GetOr(true), if n < 9 then n + 1 else 9);
  }

  lemma FetchWaitDelays(slug: Option<string>, skipCache: Option<bool>, answer: nat -> Reply)
    ensures var run := Fetch(slug, skipCache, answer);
      run.waits <= [2000, 4000] && |run.waits| == (|run.requests| - 1) / 3
  {
    var n := FirstSuccess(answer, 0);
    assert Delay(1) == 2000 && Delay(2) == 4000;
    var waits := Waits(2);
    assert waits == [2000, 4000];
    if n < 9 {
      assert Fetch(slug, skipCache, answer).waits == Waits(n / 3) == waits[..n / 3];
    } else {
      assert Fetch(slug, skipCache, answer).waits == waits;
    }
  }

  /** A reply whose `data.post` is a product with a `thumbnail.url` and no media ends
      the fetch after one request with no wait, keeping that logo. */
  lemma PostQueryFirstTry(slug: Option<string>, answer: nat -> Reply, product: map<string, Json>, logo: string)
    requires "media" !in product
    requires "thumbnail" in product && product["thumbnail"] == JObj(map["url" := JStr(logo)]) && logo != ""
    requires answer(0) == Answered(JObj(map["data" := JObj(map["post" := JObj(product)])]))
    ensures var run := Fetch(slug, None, answer);
      run.result.Success? && run.result.value.logoUrl == JStr(logo) && run.result.value.media == [] &&
      |run.requests| == 1 && run.waits == [] &&
      run.requests[0] == Request(0, ResolveSlug(slug), true)
  {
    var post := JObj(map["post" := JObj(product)]);
    var data := JObj(map["data" := post]);
    assert Methods[0].dataPath == [Key("data"), Key("post")];
    assert WalkPath(Some(JObj(product)), []) == Some(JObj(product));
    assert WalkPath(Some(post), [Key("post")]) == Some(JObj(product));
    assert WalkPath(Some(data), [Key("data"), Key("post")]) == Some(JObj(product));
    assert MethodResult(answer(0), Methods[0].dataPath) == Normalise(JObj(product));
    var r := Normalise(JObj(product));
    assert MediaList(Member(JObj(product), "media")) == Some([]);
    assert OptMember(Member(JObj(product), "thumbnail"), "url") == Some(JStr(logo));
    assert r.Some? && r.value.logoUrl == JStr(logo) && r.value.media == [];
    assert FirstSuccess(answer, 0) == 0;
  }

  /** A GraphQL `errors` answer to the post query and an empty `edges` list from the
      search query move on to the product query in the same round. */
  lemma ErrorsAndEmptyEdgesSkipped(answer: nat -> Reply)
    requires answer(0) == Answered(JObj(map["errors" := JArr([JObj(map["message" := JStr("not found")])])]))
    requires answer(1) == Answered(JObj(map["data" := JObj(map["posts" := JObj(map["edges" := JArr([])])])]))
    ensures Attempt(answer, 0).None? && Attempt(answer, 1).None?
  {
    var edges := JObj(map["edges" := JArr([])]);
    var data := JObj(map["data" := JObj(map["posts" := edges])]);
    assert WalkPath(Some(data), Methods[1].dataPath) == None by {
      assert Methods[1].dataPath[1..][1..][1..] == [Index(0), Key("node")];
      assert WalkPath(Some(JArr([])), [Index(0), Key("node")]) == None;
      assert WalkPath(Some(edges), [Key("edges"), Index(0), Key("node")]) == None;
    }
  }

  // ---------------------------------------------------------------------------
  // The orchestrator as the code runs it

  /** One query shape against its reply: the error check, the data-path walk and the
      normalisation. */
  method TryMethod(m: QueryMethod, reply: Reply) returns (found: Option<ProductRecord>)
    ensures found == MethodResult(reply, m.dataPath)
  {
    if reply.Threw? {
      return None;
    }
    var data := reply.data;
    if data == JNull || TruthyOpt(Member(data, "errors")) {
      return None;
    }
    var product: Option<Json> := Some(data);
    var i := 0;
    while i < |m.dataPath|
      invariant 0 <= i <= |m.dataPath|
      invariant product.Some?
      invariant WalkPath(Some(data), m.dataPath) == WalkPath(product, m.dataPath[i..])
      invariant i > 0 ==> Truthy(product.value)
    {
      var next := Read(product.value, m.dataPath[i]);
      if TruthyOpt(product) && TruthyOpt(next) {
        product := next;
        i := i + 1;
      } else {
        return None;
      }
    }
    assert m.dataPath[i..] == [];
    if TruthyOpt(product) {
      return Normalise(product.value);
    }
    return None;
  }

  /** Request `3 * round + i`: its body is sent with the i-th shape and its reply
      tried against that shape's data path. */
  method Send(slug: string, skipCache: bool, answer: nat -> Reply, round: nat, i: nat, requests: seq<Request>)
    returns (found: Option<ProductRecord>, sent: seq<Request>)
    requires i < |Methods|
    requires requests == Requests(slug, skipCache, 3 * round + i)
    ensures sent == Requests(slug, skipCache, 3 * round + i + 1)
    ensures found == Attempt(answer, 3 * round + i)
  {
    var n := 3 * round + i;
    AttemptInRound(answer, round, i);
    RequestsSnoc(slug, skipCache, n);
    sent := requests + [Request(i, slug, skipCache)];
    found := TryMethod(Methods[i], answer(n));
  }

  /** One round of `fetchWithRetry`: the three shapes in order, stopping at the first
      that yields a record.  `requests` holds the bodies sent in earlier rounds. */
  method TryRound(slug: string, skipCache: bool, answer: nat -> Reply, round: nat, requests: seq<Request>)
    returns (found: Option<ProductRecord>, sent: seq<Request>)
    requires round < MaxRetries
    requires requests == Requests(slug, skipCache, 3 * round)
    requires FirstSuccess(answer, 0) >= 3 * round
    ensures found.None? ==> sent == Requests(slug, skipCache, 3 * round + 3) && FirstSuccess(answer, 0) >= 3 * round + 3
    ensures found.Some? ==> FirstSuccess(answer, 0) < 3 * round + 3
    ensures found.Some? ==> found == Attempt(answer, FirstSuccess(answer, 0))
    ensures found.Some? ==> sent == Requests(slug, skipCache, FirstSuccess(answer, 0) + 1)
  {
    sent := requests;
    var i := 0;
    while i < |Methods|
      invariant 0 <= i <= |Methods|
      invariant sent == Requests(slug, skipCache, 3 * round + i)
      invariant FirstSuccess(answer, 0) >= 3 * round + i
    {
      var n := 3 * round + i;
      found, sent := Send(slug, skipCache, answer, round, i, sent);
      if found.Some? {
        assert FirstSuccess(answer, 0) == n;
        return;
      }
      FirstSuccessPast(answer, n);
      i := i + 1;
    }
    found := None;
  }

  /** The wait after the `retries`-th failed round: 2^retries seconds. */
  method Wait(retries: nat, waits: seq<nat>) returns (after: seq<nat>)
    requires retries >= 1 && waits == Waits(retries - 1)
    ensures after == Waits(retries)
  {
    WaitsSnoc(retries - 1);
    after := waits + [Pow2(retries) * 1000];
  }

  /** `fetchProductData(slug, skipCache)`: rounds of the three shapes; after a failed
      round the counter goes up and, while rounds remain, the fetch waits
      2^retries seconds and starts the next round (the code's recursive retry). */
  method FetchProductData(slug: Option<string>, skipCache: Option<bool>, answer: nat -> Reply)
    returns (result: Result<ProductRecord>, requests: seq<Request>, waits: seq<nat>)
    ensures Run(result, requests, waits) == Fetch(slug, skipCache, answer)
  {
    var s := ResolveSlug(slug);
    var skip := skipCache.GetOr(true);
    var retries := 0;
    requests, waits := [], [];
    while retries < MaxRetries
      invariant 0 <= retries <= MaxRetries
      invariant requests == Requests(s, skip, 3 * retries)
      invariant retries < MaxRetries ==> waits == Waits(retries)
      invariant retries == MaxRetries ==> waits == Waits(MaxRetries - 1)
      invariant FirstSuccess(answer, 0) >= 3 * retries
      decreases MaxRetries - retries
    {
      var found;
      found, requests := TryRound(s, skip, answer, retries, requests);
      if found.Some? {
        FetchSucceedsInRound(slug, skipCache, answer, retries);
        return Success(found.value), requests, waits;
      }
      retries := retries + 1;
      if retries < MaxRetries {
        waits := Wait(retries, waits);
      }
    }
    FetchFailsAfterAllRounds(slug, skipCache, answer);
    result := Failure(AllMethodsFailed);
  }
}
