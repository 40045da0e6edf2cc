/**
 * The edge proxy in front of the Product Hunt GraphQL API (a Cloudflare Worker).
 * One request is answered from a shared key-to-payload cache or forwarded
 * upstream with the credential attached.  The network and the platform cache are
 * not modelled: the upstream answer, the clock and cache-store faults arrive as an
 * `Env`, and the cache store is a map from key to stored payload with its storage
 * time.
 */
module ApiProxy {
  import opened Wrappers
  import opened JsValue
  import opened JsText

  /** Lifetime of a cached payload in seconds, sent as `Cache-Control: max-age=300`. */
  const CacheTtl: nat := 300
  const InvalidJsonMessage: string := "Invalid JSON in request"
  /** Message used when a caught exception has an empty message. */
  const FallbackMessage: string := "请求处理失败"

  /** The V8 messages of the TypeErrors the handler can raise on its own. */
  const NullBodyMessage: string := "Cannot read properties of null (reading 'query')"
  const UndefinedQueryMessage: string := "Cannot read properties of undefined (reading 'replace')"
  const NullQueryMessage: string := "Cannot read properties of null (reading 'replace')"
  const QueryNotStringMessage: string := "query.replace is not a function"
  const NullDataMessage: string := "Cannot read properties of null (reading 'errors')"

  type Headers = seq<(string, string)>

  /** Headers of every JSON answer. */
  const CorsHeaders: Headers := [
    ("Content-Type", "application/json"),
    ("Access-Control-Allow-Origin", "*"),
    ("Access-Control-Allow-Methods", "GET, POST, OPTIONS"),
    ("Access-Control-Allow-Headers", "Content-Type, Authorization")
  ]

  /** Headers of the answer to a CORS preflight (section 3.2 of the WHATWG Fetch Standard). */
  const PreflightHeaders: Headers := [
    ("Access-Control-Allow-Origin", "*"),
    ("Access-Control-Allow-Methods", "GET, POST, OPTIONS"),
    ("Access-Control-Allow-Headers", "Content-Type, Authorization"),
    ("Access-Control-Max-Age", "86400")
  ]

  datatype Body = NoBody | JsonBody(value: Json)
  datatype Response = Response(status: nat, headers: Headers, body: Body)

  /** The outcome of `JSON.parse` on a body: the value, or the SyntaxError's message. */
  datatype Parse = Parsed(value: Json) | Unparsable(message: string)

  datatype Request = Request(verb: string, body: Parse)

  /** What the upstream `fetch` gives: a rejection, or a reply with its status, its
      body as text and its body as parsed JSON. */
  datatype Upstream =
    | NetworkFailure(message: string)
    | Reply(status: nat, text: string, json: Parse)

  /** `response.ok`. */
  predicate Ok(status: nat) {
    200 <= status <= 299
  }

  datatype CacheEntry = CacheEntry(payload: Json, storedAt: int)
  type Cache = map<string, CacheEntry>

  /** Everything the handler depends on besides the cache and the request: the clock
      (in seconds), the upstream answer, and whether the cache store throws on a read
      or on a write. */
  datatype Env = Env(now: int, upstream: Upstream, readFails: bool, writeFails: bool)

  /** One handled request: the answer, the cache key looked up (if any), the body sent
      upstream (if any) and the cache afterwards. */
  datatype Outcome = Outcome(response: Response, probed: Option<string>, forwarded: Option<Json>, cache: Cache)

  /** The `{errors: [{message}]}` envelope. */
  function ErrorEnvelope(message: string): Json {
    JObj(map["errors" := JArr([JObj(map["message" := JStr(message)])])])
  }

  function JsonResponse(status: nat, payload: Json): Response {
    Response(status, CorsHeaders, JsonBody(payload))
  }

  /** The answer to any exception caught by the outer handler. */
  function InternalError(message: string): (r: Response)
    ensures r.status == 500 && r.headers == CorsHeaders
    ensures r.body == JsonBody(ErrorEnvelope(if message != "" then message else FallbackMessage))
  {
    JsonResponse(500, ErrorEnvelope(if message != "" then message else FallbackMessage))
  }

  /** `handleCors`: the preflight answer. */
  function Preflight(): (r: Response)
    ensures r.status == 204 && r.body == NoBody
    ensures ("Access-Control-Max-Age", "86400") in r.headers
    ensures ("Access-Control-Allow-Origin", "*") in r.headers
  {
    Response(204, PreflightHeaders, NoBody)
  }

  const UpstreamFailurePrefix: string := "API请求失败 ("

  /** The 502 message: the fixed prefix, the upstream status numeral, then the body
      text. */
  function UpstreamFailureMessage(status: nat, text: string): (m: string)
    ensures StartsWith(m, UpstreamFailurePrefix)
    ensures StartsWith(m[|UpstreamFailurePrefix|..], NatToString(status) + "): ")
    ensures EndsWith(m, text)
    ensures |m| == |UpstreamFailurePrefix| + |NatToString(status)| + 3 + |text|
  {
    var numeral := NatToString(status) + "): ";
    var m := UpstreamFailurePrefix + numeral + text;
    assert m[..|UpstreamFailurePrefix|] == UpstreamFailurePrefix;
    assert m[|UpstreamFailurePrefix|..] == numeral + text;
    assert (numeral + text)[..|numeral|] == numeral;
    assert m[|m| - |text|..] == text;
    m
  }

  /** `JSON.stringify(variables)` inside the key: `undefined` prints as "undefined". */
  function VariablesText(variables: Option<Json>, serialize: Json -> string): string {
    match variables
    case None => "undefined"
    case Some(v) => serialize(v)
  }

  /** `getCacheKey`: "ph_api_" + the serialised variables + "_" + the query with all
      white space removed; a TypeError when the query is not a string. */
  function CacheKey(body: Json, serialize: Json -> string): (r: Result<string>)
    ensures r.Success? <==> Member(body, "query").Some? && Member(body, "query").value.JStr?
    ensures r.Success? ==> StartsWith(r.value, "ph_api_")
    ensures r.Success? ==> EndsWith(r.value, StripSpaces(Member(body, "query").value.s))
  {
    var variables := VariablesText(Member(body, "variables"), serialize);
    match Member(body, "query")
    case None => Failure(UndefinedQueryMessage)
    case Some(JNull) => Failure(NullQueryMessage)
    case Some(JStr(q)) =>
      var key := "ph_api_" + variables + "_" + StripSpaces(q);
      assert key[..7] == "ph_api_";
      assert key[|key| - |StripSpaces(q)|..] == StripSpaces(q);
      Success(key)
    case Some(_) => Failure(QueryNotStringMessage)
  }

  /** RFC 9111 section 4.2: a stored response is fresh while its age is below its
      freshness lifetime (max-age). */
  predicate Fresh(e: CacheEntry, now: int) {
    now - e.storedAt < CacheTtl
  }

  /** The cache store's `match`: a fresh entry's payload, nothing otherwise. */
  function Lookup(cache: Cache, key: string, now: int): (r: Option<Json>)
    ensures r.Some? <==> key in cache && Fresh(cache[key], now)
    ensures r.Some? ==> r.value == cache[key].payload
  {
    if key in cache && Fresh(cache[key], now) then Some(cache[key].payload) else None
  }

  /** The body sent upstream: `{query, variables}` of the request; members that are
      undefined are dropped by `JSON.stringify`. */
  function UpstreamBody(body: Json): (r: Json)
    ensures r.JObj? && r.fields.Keys <= {"query", "variables"}
    ensures forall k :: k in {"query", "variables"} ==> Member(r, k) == Member(body, k)
  {
    var q := Member(body, "query");
    var v := Member(body, "variables");
    var withQuery: map<string, Json> := if q.Some? then map["query" := q.value] else map[];
    JObj(if v.Some? then withQuery["variables" := v.value] else withQuery)
  }

  /** A payload the proxy is willing to cache: not null and without a truthy `errors`
      member (a GraphQL response with errors, section 7.1.2 of the October 2021 GraphQL
      specification). */
  predicate Cacheable(data: Json) {
    data != JNull && !TruthyOpt(Member(data, "errors"))
  }

  /** Every entry of the cache holds a cacheable payload. */
  predicate CacheClean(cache: Cache) {
    forall k :: k in cache ==> Cacheable(cache[k].payload)
  }

  /** `skipCache === true` on the parsed body. */
  predicate SkipsCache(body: Json) {
    Member(body, "skipCache") == Some(JBool(true))
  }

  /** The forwarding part of `handleRequest` (lines 53-95): `key` is the cache key, or
      `None` when the cache is skipped. */
  function Forward(cache: Cache, body: Json, key: Option<string>, env: Env): (o: Outcome)
    ensures o.probed == key && o.forwarded == Some(UpstreamBody(body))
    ensures o.response.status in {200, 500, 502}
    ensures o.response.status == 200 <==> env.upstream.Reply? && Ok(env.upstream.status) && env.upstream.json.Parsed?
                                          && (env.upstream.json.value != JNull || key.None?)
    ensures o.cache == cache || (key.Some? && env.upstream.Reply? && env.upstream.json.Parsed?
                                 && Cacheable(env.upstream.json.value) && !env.writeFails
                                 && o.cache == cache[key.value := CacheEntry(env.upstream.json.value, env.now)])
  {
    var sent := Some(UpstreamBody(body));
    match env.upstream
    case NetworkFailure(m) => Outcome(InternalError(m), key, sent, cache)
    case Reply(status, text, json) =>
      if !Ok(status) then
        Outcome(JsonResponse(502, ErrorEnvelope(UpstreamFailureMessage(status, text))), key, sent, cache)
      else
        match json
        case Unparsable(m) => Outcome(InternalError(m), key, sent, cache)
        case Parsed(data) =>
          // `data.errors` is read only when the cache is on (`!skipCache && ...`).
          if data == JNull && key.Some? then Outcome(InternalError(NullDataMessage), key, sent, cache)
          else
            var stored :=
              if key.Some? && Cacheable(data) && !env.writeFails
              then cache[key.value := CacheEntry(data, env.now)]
              else cache;
            Outcome(JsonResponse(200, data), key, sent, stored)
  }

  /** `handleRequest` as a function of the cache, the request and the environment. */
  function Handle(cache: Cache, req: Request, env: Env, serialize: Json -> string): (o: Outcome)
    ensures o.response.status in {200, 204, 400, 500, 502}
    ensures o.forwarded.Some? ==> req.verb != "OPTIONS" && req.body.Parsed? && o.forwarded == Some(UpstreamBody(req.body.value))
    ensures o.forwarded.Some? ==> (o.probed.None? <==> SkipsCache(req.body.value))
    ensures o.cache == cache || (o.forwarded.Some? && o.probed.Some? && env.upstream.Reply? && env.upstream.json.Parsed?
                                 && Cacheable(env.upstream.json.value)
                                 && o.cache == cache[o.probed.value := CacheEntry(env.upstream.json.value, env.now)])
  {
    if req.verb == "OPTIONS" then Outcome(Preflight(), None, None, cache)
    else
      match req.body
      case Unparsable(_) =>
        Outcome(JsonResponse(400, JObj(map["error" := JStr(InvalidJsonMessage)])), None, None, cache)
      case Parsed(body) =>
        if body == JNull then Outcome(InternalError(NullBodyMessage), None, None, cache)
        else if SkipsCache(body) then Forward(cache, body, None, env)
        else
          match CacheKey(body, serialize)
          case Failure(m) => Outcome(InternalError(m), None, None, cache)
          case Success(key) =>
            var hit := if env.readFails then None else Lookup(cache, key, env.now);
            if TruthyOpt(hit) then Outcome(JsonResponse(200, hit.value), Some(key), None, cache)
            else Forward(cache, body, Some(key), env)
  }

  // ---------------------------------------------------------------------------
  // Properties of the handler

  /** A preflight gets 204, no body and the CORS headers, and touches nothing. */
  lemma PreflightTouchesNothing(cache: Cache, req: Request, env: Env, serialize: Json -> string)
    requires req.verb == "OPTIONS"
    ensures var o := Handle(cache, req, env, serialize);
      && o.response == Response(204, PreflightHeaders, NoBody)
      && o.probed.None? && o.forwarded.None? && o.cache == cache
  {
  }

  /** A body that is not JSON gets exactly `{"error": "Invalid JSON in request"}` with
      status 400, and touches nothing. */
  lemma InvalidJsonRejected(cache: Cache, req: Request, env: Env, serialize: Json -> string)
    requires req.verb != "OPTIONS" && req.body.Unparsable?
    ensures var o := Handle(cache, req, env, serialize);
      && o.response == Response(400, CorsHeaders, JsonBody(JObj(map["error" := JStr(InvalidJsonMessage)])))
      && o.probed.None? && o.forwarded.None? && o.cache == cache
  {
  }

  /** Two requests whose queries differ only in white space, with the same variables,
      share a cache key. */
  lemma CacheKeyIgnoresWhiteSpace(b1: Json, b2: Json, q1: string, q2: string, serialize: Json -> string)
    requires Member(b1, "query") == Some(JStr(q1)) && Member(b2, "query") == Some(JStr(q2))
    requires Member(b1, "variables") == Member(b2, "variables")
    requires StripSpaces(q1) == StripSpaces(q2)
    ensures CacheKey(b1, serialize) == CacheKey(b2, serialize)
    ensures CacheKey(b1, serialize).Success?
  {
  }

  /** Adding one white-space character to a query leaves the key unchanged. */
  lemma CacheKeySpaceInsertion(body: Json, a: string, c: char, b: string, serialize: Json -> string)
    requires IsSpace(c) && body.JObj?
    requires Member(body, "query") == Some(JStr(a + b))
    ensures CacheKey(JObj(body.fields["query" := JStr(a + [c] + b)]), serialize) == CacheKey(body, serialize)
  {
    StripSpacesIgnoresSpace(a, c, b);
    var body' := JObj(body.fields["query" := JStr(a + [c] + b)]);
    assert Member(body', "variables") == Member(body, "variables");
  }

  /** With `skipCache` exactly `true` the cache is neither read nor written. */
  lemma SkipCacheBypassesCache(cache: Cache, req: Request, env: Env, serialize: Json -> string)
    requires req.verb != "OPTIONS" && req.body.Parsed? && SkipsCache(req.body.value)
    ensures var o := Handle(cache, req, env, serialize);
      o.probed.None? && o.cache == cache && o.forwarded == Some(UpstreamBody(req.body.value))
  {
  }

  /** With any other `skipCache` (absent, `false`, the string "true", ...) and a string
      query, the cache is consulted under the request's key. */
  lemma OtherwiseCacheIsRead(cache: Cache, req: Request, env: Env, serialize: Json -> string)
    requires req.verb != "OPTIONS" && req.body.Parsed? && req.body.value != JNull
    requires !SkipsCache(req.body.value) && CacheKey(req.body.value, serialize).Success?
    ensures Handle(cache, req, env, serialize).probed == Some(CacheKey(req.body.value, serialize).value)
  {
  }

  /** A cache miss, or a failed cache read, goes upstream: the request is forwarded and
      the answer is the forwarding part's under the probed key. */
  lemma CacheMissGoesUpstream(cache: Cache, req: Request, env: Env, serialize: Json -> string)
    requires req.verb != "OPTIONS" && req.body.Parsed? && req.body.value != JNull
    requires !SkipsCache(req.body.value) && CacheKey(req.body.value, serialize).Success?
    requires env.readFails || !TruthyOpt(Lookup(cache, CacheKey(req.body.value, serialize).value, env.now))
    ensures Handle(cache, req, env, serialize).forwarded == Some(UpstreamBody(req.body.value))
    ensures Handle(cache, req, env, serialize)
         == Forward(cache, req.body.value, Some(CacheKey(req.body.value, serialize).value), env)
  {
  }

  /** The first request on an empty cache is answered from upstream: an ok reply with a
      non-null payload comes back with 200 and that payload. */
  lemma FirstRequestAnsweredFromUpstream(req: Request, env: Env, serialize: Json -> string, data: Json)
    requires req.verb != "OPTIONS" && req.body.Parsed? && req.body.value != JNull
    requires !SkipsCache(req.body.value) && CacheKey(req.body.value, serialize).Success?
    requires env.upstream.Reply? && Ok(env.upstream.status) && env.upstream.json == Parsed(data) && data != JNull
    ensures Handle(map[], req, env, serialize).forwarded == Some(UpstreamBody(req.body.value))
    ensures Handle(map[], req, env, serialize).response == JsonResponse(200, data)
  {
    CacheMissGoesUpstream(map[], req, env, serialize);
  }

  /** A cache hit answers 200 with the stored payload, without calling upstream and
      without changing the cache. */
  lemma CacheHitServesStoredPayload(cache: Cache, req: Request, env: Env, serialize: Json -> string, key: string)
    requires req.verb != "OPTIONS" && req.body.Parsed? && req.body.value != JNull
    requires !SkipsCache(req.body.value) && CacheKey(req.body.value, serialize) == Success(key)
    requires !env.readFails && key in cache && Fresh(cache[key], env.now) && Truthy(cache[key].payload)
    ensures var o := Handle(cache, req, env, serialize);
      && o.response == Response(200, CorsHeaders, JsonBody(cache[key].payload))
      && o.forwarded.None? && o.cache == cache
  {
  }

  /** An upstream reply that is not ok becomes 502 with one error message carrying the
      upstream status and text; nothing is cached. */
  lemma UpstreamFailureIs502(cache: Cache, req: Request, env: Env, serialize: Json -> string)
    requires req.verb != "OPTIONS" && req.body.Parsed? && req.body.value != JNull
    requires env.upstream.Reply? && !Ok(env.upstream.status)
    requires Handle(cache, req, env, serialize).forwarded.Some?
    ensures var o := Handle(cache, req, env, serialize);
      && o.response.status == 502 && o.response.headers == CorsHeaders
      && o.response.body == JsonBody(ErrorEnvelope(UpstreamFailureMessage(env.upstream.status, env.upstream.text)))
      && o.cache == cache
  {
  }

  /** An ok upstream reply is answered with 200 and its payload (a `null` payload too
      when the cache is skipped); it is stored under the key, stamped with the current
      time, exactly when the cache is on, the payload has no truthy `errors` member
      and the store does not fail. */
  lemma UpstreamSuccessIs200(cache: Cache, req: Request, env: Env, serialize: Json -> string, data: Json)
    requires req.verb != "OPTIONS" && req.body.Parsed? && req.body.value != JNull
    requires env.upstream.Reply? && Ok(env.upstream.status) && env.upstream.json == Parsed(data)
    requires data != JNull || SkipsCache(req.body.value)
    requires Handle(cache, req, env, serialize).forwarded.Some?
    ensures var o := Handle(cache, req, env, serialize);
      && o.response == Response(200, CorsHeaders, JsonBody(data))
      && (if !SkipsCache(req.body.value) && !TruthyOpt(Member(data, "errors")) && !env.writeFails
          then o.cache == cache[CacheKey(req.body.value, serialize).value := CacheEntry(data, env.now)]
          else o.cache == cache)
  {
  }

  /** With the cache on, an ok `null` payload is a TypeError (reading `errors` of
      `null`), hence 500, and nothing is stored. */
  lemma NullDataWithCacheIs500(cache: Cache, req: Request, env: Env, serialize: Json -> string)
    requires req.verb != "OPTIONS" && req.body.Parsed? && req.body.value != JNull
    requires env.upstream.Reply? && Ok(env.upstream.status) && env.upstream.json == Parsed(JNull)
    requires !SkipsCache(req.body.value) && Handle(cache, req, env, serialize).forwarded.Some?
    ensures Handle(cache, req, env, serialize).response == InternalError(NullDataMessage)
    ensures Handle(cache, req, env, serialize).cache == cache
  {
  }

  /** The cache only ever holds cacheable payloads: a payload with GraphQL errors never
      enters it. */
  lemma HandlePreservesCleanCache(cache: Cache, req: Request, env: Env, serialize: Json -> string)
    requires CacheClean(cache)
    ensures CacheClean(Handle(cache, req, env, serialize).cache)
  {
  }

  /** Every 500 answer carries a non-empty error message. */
  lemma InternalErrorsHaveMessage(cache: Cache, req: Request, env: Env, serialize: Json -> string)
    ensures var o := Handle(cache, req, env, serialize);
      o.response.status == 500 ==>
        exists m :: m != "" && o.response.body == JsonBody(ErrorEnvelope(m))
  {
    var o := Handle(cache, req, env, serialize);
    if o.response.status == 500 && req.verb != "OPTIONS" && req.body.Parsed? {
      var body := req.body.value;
      if body == JNull {
        EnvelopeMessage(NullBodyMessage);
      } else if SkipsCache(body) {
        ForwardErrorsHaveMessage(cache, body, None, env);
      } else if CacheKey(body, serialize).Failure? {
        EnvelopeMessage(CacheKey(body, serialize).message);
      } else {
        var key := CacheKey(body, serialize).value;
        var hit := if env.readFails then None else Lookup(cache, key, env.now);
        if !TruthyOpt(hit) {
          ForwardErrorsHaveMessage(cache, body, Some(key), env);
        }
      }
    }
  }

  /** The message an internal error carries is never empty. */
  lemma EnvelopeMessage(message: string)
    ensures var m := if message != "" then message else FallbackMessage;
      m != "" && InternalError(message).body == JsonBody(ErrorEnvelope(m))
  {
    assert FallbackMessage != "";
  }

  /** A 500 from the forwarding part carries a non-empty message. */
  lemma ForwardErrorsHaveMessage(cache: Cache, body: Json, key: Option<string>, env: Env)
    ensures var o := Forward(cache, body, key, env);
      o.response.status == 500 ==>
        exists m :: m != "" && o.response.body == JsonBody(ErrorEnvelope(m))
  {
    match env.upstream
    case NetworkFailure(m) => EnvelopeMessage(m);
    case Reply(status, text, json) =>
      if Ok(status) {
        match json
        case Unparsable(m) => EnvelopeMessage(m);
        case Parsed(data) => EnvelopeMessage(NullDataMessage);
      }
  }

  /** A JSON `null` body is a TypeError, hence 500. */
  lemma NullBodyIs500(cache: Cache, req: Request, env: Env, serialize: Json -> string)
    requires req.verb != "OPTIONS" && req.body == Parsed(JNull)
    ensures Handle(cache, req, env, serialize).response == InternalError(NullBodyMessage)
    ensures Handle(cache, req, env, serialize).forwarded.None?
  {
  }

  /** With the cache on, a body without a `query` member is a TypeError, hence 500,
      before upstream is called. */
  lemma MissingQueryIs500(cache: Cache, req: Request, env: Env, serialize: Json -> string)
    requires req.verb != "OPTIONS" && req.body.Parsed? && req.body.value.JObj?
    requires "query" !in req.body.value.fields && !SkipsCache(req.body.value)
    ensures Handle(cache, req, env, serialize).response == InternalError(UndefinedQueryMessage)
    ensures Handle(cache, req, env, serialize).forwarded.None?
  {
  }

  /** A failing cache write never changes the answer. */
  lemma WriteFailureSwallowed(cache: Cache, req: Request, env: Env, serialize: Json -> string)
    ensures Handle(cache, req, env.(writeFails := true), serialize).response
         == Handle(cache, req, env.(writeFails := false), serialize).response
  {
  }

  /** A failing cache read answers as a miss does. */
  lemma ReadFailureActsAsMiss(cache: Cache, req: Request, env: Env, serialize: Json -> string)
    ensures Handle(cache, req, env.(readFails := true), serialize).response
         == Handle(map[], req, env.(readFails := false), serialize).response
  {
    if req.verb != "OPTIONS" && req.body.Parsed? && req.body.value != JNull && !SkipsCache(req.body.value) {
      var body := req.body.value;
      if CacheKey(body, serialize).Success? {
        var key := CacheKey(body, serialize).value;
        assert Lookup(map[], key, env.now).None?;
        assert Forward(cache, body, Some(key), env.(readFails := true)).response
            == Forward(map[], body, Some(key), env.(readFails := false)).response;
      }
    }
  }

  /** Cache round trip: after an error-free payload is stored, the same request within
      300 seconds is answered from the cache with that payload, without calling
      upstream (a falsy payload is the exception: it reads as a miss). */
  lemma StoredPayloadServedWithinTtl(cache: Cache, req: Request, env1: Env, env2: Env, serialize: Json -> string, data: Json)
    requires req.verb != "OPTIONS" && req.body.Parsed? && req.body.value != JNull
    requires !SkipsCache(req.body.value) && CacheKey(req.body.value, serialize).Success?
    requires Handle(cache, req, env1, serialize).forwarded.Some?
    requires env1.upstream.Reply? && Ok(env1.upstream.status) && env1.upstream.json == Parsed(data)
    requires Cacheable(data) && Truthy(data) && !env1.writeFails
    requires !env2.readFails && env1.now <= env2.now < env1.now + CacheTtl
    ensures var o2 := Handle(Handle(cache, req, env1, serialize).cache, req, env2, serialize);
      && o2.response == Response(200, CorsHeaders, JsonBody(data))
      && o2.forwarded.None?
  {
  }

  /** After the TTL the stored entry reads as a miss and the request goes upstream
      again. */
  lemma StoredPayloadExpires(cache: Cache, req: Request, env1: Env, env2: Env, serialize: Json -> string, data: Json)
    requires req.verb != "OPTIONS" && req.body.Parsed? && req.body.value != JNull
    requires !SkipsCache(req.body.value) && CacheKey(req.body.value, serialize).Success?
    requires Handle(cache, req, env1, serialize).forwarded.Some?
    requires env1.upstream.Reply? && Ok(env1.upstream.status) && env1.upstream.json == Parsed(data)
    requires Cacheable(data) && !env1.writeFails
    requires env2.now >= env1.now + CacheTtl
    ensures Handle(Handle(cache, req, env1, serialize).cache, req, env2, serialize).forwarded
         == Some(UpstreamBody(req.body.value))
  {
  }

  /** A payload with a truthy `errors` member is never stored: the next identical
      request goes upstream again unless the key already held a fresh entry. */
  lemma ErrorsPayloadNotStored(cache: Cache, req: Request, env: Env, serialize: Json -> string, data: Json)
    requires req.verb != "OPTIONS" && req.body.Parsed?
    requires env.upstream.Reply? && env.upstream.json == Parsed(data)
    requires TruthyOpt(Member(data, "errors"))
    ensures Handle(cache, req, env, serialize).cache == cache
  {
  }

  // ---------------------------------------------------------------------------
  // The worker, with the cache store as state

  class EdgeProxy {
    /** The platform cache store, keyed by cache key. */
    var cache: Cache
    /** `JSON.stringify`, taken as given. */
    const serialize: Json -> string

    ghost predicate Valid()
      reads this
    {
      CacheClean(cache)
    }

    constructor (serialize: Json -> string)
      ensures Valid() && cache == map[] && this.serialize == serialize
    {
      cache := map[];
      this.serialize := serialize;
    }

    /** `getCachedResponse`: the fresh payload under `key`; a failing read is swallowed
        and reads as nothing. */
    method GetCachedResponse(key: string, env: Env) returns (r: Option<Json>)
      ensures env.readFails ==> r.None?
      ensures !env.readFails ==> r == Lookup(cache, key, env.now)
    {
      if env.readFails {
        return None;
      }
      if key in cache && Fresh(cache[key], env.now) {
        return Some(cache[key].payload);
      }
      return None;
    }

    /** `cacheResponse`: store `data` under `key` with the current time; a failing write
        is swallowed. */
    method CacheResponse(key: string, data: Json, env: Env)
      modifies this
      ensures cache == if env.writeFails then old(cache) else old(cache)[key := CacheEntry(data, env.now)]
    {
      if !env.writeFails {
        cache := cache[key := CacheEntry(data, env.now)];
      }
    }

    /** `handleRequest`: answers one request, updating the cache store. */
    method HandleRequest(req: Request, env: Env) returns (response: Response, forwarded: Option<Json>)
      requires Valid()
      modifies this
      ensures Valid()
      ensures var o := Handle(old(cache), req, env, serialize);
        response == o.response && forwarded == o.forwarded && cache == o.cache
    {
      if req.verb == "OPTIONS" {
        return Preflight(), None;
      }
      if req.body.Unparsable? {
        return JsonResponse(400, JObj(map["error" := JStr(InvalidJsonMessage)])), None;
      }
      var body := req.body.value;
      if body == JNull {
        return InternalError(NullBodyMessage), None;
      }
      var skipCache := SkipsCache(body);

      var cached: Option<Json> := None;
      if !skipCache {
        var key := CacheKey(body, serialize);
        if key.Failure? {
          return InternalError(key.message), None;
        }
        cached := GetCachedResponse(key.value, env);
      }
      if TruthyOpt(cached) {
        return JsonResponse(200, cached.value), None;
      }

      forwarded := Some(UpstreamBody(body));
      if env.upstream.NetworkFailure? {
        return InternalError(env.upstream.message), forwarded;
      }
      if !Ok(env.upstream.status) {
        var message := UpstreamFailureMessage(env.upstream.status, env.upstream.text);
        return JsonResponse(502, ErrorEnvelope(message)), forwarded;
      }
      if env.upstream.json.Unparsable? {
        return InternalError(env.upstream.json.message), forwarded;
      }
      var data := env.upstream.json.value;
      if data == JNull && !skipCache {
        return InternalError(NullDataMessage), forwarded;
      }

      if !skipCache && !TruthyOpt(Member(data, "errors")) {
        var key := CacheKey(body, serialize);
        CacheResponse(key.value, data, env);
      }
      return JsonResponse(200, data), forwarded;
    }
  }
}
