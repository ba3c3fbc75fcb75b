/**
 * Request shaping and response classification of `src/network/api.ts`:
 * how `makeRequestWithLimiter` builds the URL, headers and body of a call
 * to Discord's HTTP API, how it classifies a response for the rate limiter,
 * and when the call fails.
 *
 * `JSON.stringify`, `toString` followed by `encodeURI`, and the
 * `URLSearchParams` serialisation are foreign code; they are parameters.
 */
module Api {
  import opened Values
  import opened Functions
  import opened RateLimits

  /** The root every endpoint path is appended to. */
  const ApiBase: string := "https://discord.com/api/"

  /** The value of the `User-Agent` header. */
  const UserAgent: string := "DiscordBot (discosaurus, 0.1.0)"

  /** The status code of a rate-limited response. */
  const TooManyRequests: int := 429

  /** The five verbs a request may use. */
  datatype HttpMethod = Get | Post | Put | Patch | Delete

  /** The lower-case name callers pass. */
  function MethodName(m: HttpMethod): string {
    match m
    case Get => "get"
    case Post => "post"
    case Put => "put"
    case Patch => "patch"
    case Delete => "delete"
  }

  /**
   * A decimal number of seconds with at most three fractional digits, as
   * Discord sends with millisecond precision, held as its thousandths.
   */
  datatype Seconds = Seconds(thousandths: int)

  /** `+s * 1000`: the number of milliseconds. */
  function Millis(s: Seconds): int {
    s.thousandths
  }

  /** The response headers the classifier reads; `None` when absent (`get` returns `null`). */
  datatype Headers = Headers(
    remaining: Option<int>,
    reset: Option<Seconds>,
    global: Option<string>,
    retryAfter: Option<Seconds>,
    bucket: Option<string>)

  /** A fetched response. */
  datatype Response = Response(status: int, statusText: string, url: string, headers: Headers)

  /** `resp.ok`: a 2xx status. */
  predicate IsOk(resp: Response) {
    200 <= resp.status <= 299
  }

  /** A request as handed to `fetch`. */
  datatype Request = Request(
    url: string,
    verb: string,
    headers: seq<(string, string)>,
    body: Option<string>)

  /** `+h` on a header that may be absent: `+null` is 0. */
  function NumberOr0(h: Option<int>): int {
    h.GetOr(0)
  }

  /**
   * The `limitBy` function: rate limited exactly on 429; `remaining` and
   * `resetAt` always present (0 for an absent header); a global reset
   * `now + Retry-After` exactly when `X-RateLimit-Global` is non-empty; the
   * group when `X-RateLimit-Bucket` is present.
   */
  function Classify(resp: Response, now: int): (lim: LimitInfo)
    ensures lim.wasRateLimited <==> resp.status == TooManyRequests
    ensures lim.remaining == Some(resp.headers.remaining.GetOr(0))
    ensures lim.resetAt == Some(resp.headers.reset.GetOr(Seconds(0)).thousandths)
    ensures lim.globalReset.Some? <==> (resp.headers.global.Some? && resp.headers.global.value != "")
    ensures lim.globalReset.Some? ==>
              lim.globalReset.value == now + (if resp.headers.retryAfter.Some? then resp.headers.retryAfter.value.thousandths else 0)
    ensures lim.groupBucket == resp.headers.bucket
  {
    var h := resp.headers;
    LimitInfo(
      wasRateLimited := resp.status == TooManyRequests,
      remaining := Some(NumberOr0(h.remaining)),
      resetAt := Some(if h.reset.Some? then Millis(h.reset.value) else 0),
      globalReset := if h.global.Some? && h.global.value != "" then Some(now + (if h.retryAfter.Some? then Millis(h.retryAfter.value) else 0)) else None,
      groupBucket := h.bucket)
  }

  /** The headers of every request. */
  function RequestHeaders(token: string): (hs: seq<(string, string)>)
    ensures |hs| == 4
    ensures hs[0] == ("Authorization", BotAuthorization(token))
    ensures hs[1] == ("Content-Type", "application/json")
    ensures hs[2] == ("X-RateLimit-Precision", "millisecond")
    ensures hs[3] == ("User-Agent", UserAgent)
  {
    [ ("Authorization", BotAuthorization(token)),
      ("Content-Type", "application/json"),
      ("X-RateLimit-Precision", "millisecond"),
      ("User-Agent", UserAgent) ]
  }

  /**
   * The `TypeError` V8 throws for `v.toString()` on `undefined`; the model
   * uses it for `null` too, where the engine's text names `null` instead.
   */
  const ToStringOfNothing: string := "TypeError: Cannot read properties of undefined (reading 'toString')"

  /** Whether some member of the query data is `undefined` or `null`. */
  predicate HasNothing(query: Dict<Json>)
    requires query.Valid()
  {
    exists i :: 0 <= i < |query.keys| && query.values[query.keys[i]] == JNull
  }

  /**
   * The query entries, each value turned to text by `valueText`
   * (`encodeURI(v.toString())`). `v.toString()` throws a `TypeError` on a
   * value that is `undefined` or `null`; the map stops there and the
   * request fails before it reaches the limiter.
   */
  function QueryPairs(query: Option<Dict<Json>>, valueText: Json -> string): (r: Result<seq<(string, string)>>)
    requires query.Some? ==> query.value.Valid()
    ensures r.Err? <==> query.Some? && HasNothing(query.value)
    ensures r.Err? ==> r.message == ToStringOfNothing
    ensures query.None? ==> r == Ok([])
    ensures r.Ok? && query.Some? ==>
              |r.value| == |query.value.keys| &&
              forall i :: 0 <= i < |r.value| ==> r.value[i] == (query.value.keys[i], valueText(query.value.values[query.value.keys[i]]))
  {
    var entries := if query.Some? then ObjectEntries(query.value) else [];
    if exists i :: 0 <= i < |entries| && entries[i].1 == JNull then Err(ToStringOfNothing)
    else Ok(seq(|entries|, i requires 0 <= i < |entries| => (entries[i].0, valueText(entries[i].1))))
  }

  /**
   * The request `makeRequestWithLimiter` hands to `fetch`: the URL is the
   * API base, the path, `?` and the serialised query; the method is
   * upper-cased; the body is the serialised body data when there is one.
   * When a query value is missing the call fails instead, without a request.
   */
  function BuildRequest(
    token: string, m: HttpMethod, path: string,
    query: Option<Dict<Json>>, body: Option<Json>,
    stringify: Json -> string, valueText: Json -> string, search: seq<(string, string)> -> string): (r: Result<Request>)
    requires query.Some? ==> query.value.Valid()
    ensures r.Err? <==> query.Some? && HasNothing(query.value)
    ensures r.Err? ==> r.message == ToStringOfNothing
    ensures r.Ok? ==> QueryPairs(query, valueText).Ok? && r.value.url == ApiBase + path + "?" + search(QueryPairs(query, valueText).value)
    ensures r.Ok? ==> r.value.verb == Upper(MethodName(m))
    ensures r.Ok? ==> r.value.headers == RequestHeaders(token)
    ensures r.Ok? ==> (r.value.body.Some? <==> body.Some?)
    ensures r.Ok? && body.Some? ==> r.value.body == Some(stringify(body.value))
  {
    var pairs := QueryPairs(query, valueText);
    if pairs.Err? then Err(pairs.message)
    else
      Ok(Request(
        ApiBase + path + "?" + search(pairs.value),
        Upper(MethodName(m)),
        RequestHeaders(token),
        if body.Some? then Some(stringify(body.value)) else None))
  }

  /**
   * A wrapper call that leaves out an optional query argument puts
   * `undefined` under that key, so the request fails with the `TypeError`:
   * here `{user_id, action_type}` with `user_id` left out.
   */
  lemma OmittedQueryArgumentFails(token: string, m: HttpMethod, path: string, body: Option<Json>, actionType: Json,
                                  stringify: Json -> string, valueText: Json -> string, search: seq<(string, string)> -> string)
    ensures var query := Dict(["user_id", "action_type"], map["user_id" := JNull, "action_type" := actionType]);
            BuildRequest(token, m, path, Some(query), body, stringify, valueText, search) == Err(ToStringOfNothing)
  {
    var query := Dict(["user_id", "action_type"], map["user_id" := JNull, "action_type" := actionType]);
    assert query.keys[0] == "user_id";
    assert HasNothing(query);
  }

  /** The entries whose value is given, each value turned to text, in entry order. */
  function GivenPairs(entries: seq<(string, Json)>, valueText: Json -> string): (ps: seq<(string, string)>)
    decreases |entries|
  {
    if |entries| == 0 then []
    else
      var last := entries[|entries| - 1];
      GivenPairs(entries[..|entries| - 1], valueText) + (if last.1 == JNull then [] else [(last.0, valueText(last.1))])
  }

  /** The query the caller evidently meant: the members that have a value, in key order. */
  function GivenQueryPairs(query: Option<Dict<Json>>, valueText: Json -> string): seq<(string, string)>
    requires query.Some? ==> query.value.Valid()
  {
    GivenPairs(if query.Some? then ObjectEntries(query.value) else [], valueText)
  }

  /** A pair is kept exactly for an entry whose value is given, with that value's text. */
  lemma {:induction false} GivenPairsMembers(entries: seq<(string, Json)>, valueText: Json -> string)
    ensures var ps := GivenPairs(entries, valueText);
            && (forall p :: p in ps ==> exists i :: 0 <= i < |entries| && entries[i].1 != JNull && p == (entries[i].0, valueText(entries[i].1)))
            && (forall i :: 0 <= i < |entries| && entries[i].1 != JNull ==> (entries[i].0, valueText(entries[i].1)) in ps)
    decreases |entries|
  {
    if |entries| > 0 {
      var init := entries[..|entries| - 1];
      GivenPairsMembers(init, valueText);
      assert forall i :: 0 <= i < |init| ==> init[i] == entries[i];
    }
  }

  /** Without missing values, the evident query is the one the code builds. */
  lemma {:induction false} GivenPairsComplete(entries: seq<(string, Json)>, valueText: Json -> string)
    requires forall i :: 0 <= i < |entries| ==> entries[i].1 != JNull
    ensures GivenPairs(entries, valueText) == seq(|entries|, i requires 0 <= i < |entries| => (entries[i].0, valueText(entries[i].1)))
    decreases |entries|
  {
    if |entries| > 0 {
      var init := entries[..|entries| - 1];
      GivenPairsComplete(init, valueText);
      assert forall i :: 0 <= i < |init| ==> init[i] == entries[i];
    }
  }

  /**
   * The corrected query never fails, and it holds a pair exactly for each
   * member that has a value, with that value's text.
   */
  lemma GivenQueryPairsCorrect(query: Option<Dict<Json>>, valueText: Json -> string)
    requires query.Some? ==> query.value.Valid()
    ensures var ps := GivenQueryPairs(query, valueText);
            && (query.None? ==> ps == [])
            && (query.Some? ==> forall k :: k in query.value.values && query.value.values[k] != JNull ==>
                                  (k, valueText(query.value.values[k])) in ps)
            && (query.Some? ==> forall p :: p in ps ==>
                                  p.0 in query.value.values && query.value.values[p.0] != JNull && p.1 == valueText(query.value.values[p.0]))
  {
    if query.Some? {
      var e := ObjectEntries(query.value);
      GivenPairsMembers(e, valueText);
      forall k | k in query.value.values && query.value.values[k] != JNull
        ensures (k, valueText(query.value.values[k])) in GivenQueryPairs(query, valueText)
      {
        var i :| 0 <= i < |e| && e[i].0 == k;
      }
    }
  }

  /** Where the code's query succeeds, the corrected one is the same. */
  lemma GivenQueryPairsAgree(query: Option<Dict<Json>>, valueText: Json -> string)
    requires query.Some? ==> query.value.Valid()
    requires QueryPairs(query, valueText).Ok?
    ensures GivenQueryPairs(query, valueText) == QueryPairs(query, valueText).value
  {
    if query.Some? {
      var e := ObjectEntries(query.value);
      assert forall i :: 0 <= i < |e| ==> e[i].1 != JNull;
      GivenPairsComplete(e, valueText);
    }
  }

  /** The message thrown for a non-ok response. */
  function ErrorMessage(resp: Response): string {
    "HTTP Error " + IntToString(resp.status) + ": " + resp.statusText + "\n" + resp.url
  }

  /** After the limiter resolved: the response when ok, otherwise an error naming status, text and URL. */
  function Finish(resp: Response): (r: Result<Response>)
    ensures r.Ok? <==> IsOk(resp)
    ensures r.Ok? ==> r.value == resp
    ensures r.Err? ==> r.message == ErrorMessage(resp)
    ensures r.Err? ==> |r.message| >= 11 && r.message[..11] == "HTTP Error "
  {
    if IsOk(resp) then Ok(resp) else Err(ErrorMessage(resp))
  }

  /** The upper-cased names are the HTTP verbs, and lower-casing them gives the caller's names back. */
  lemma MethodNamesRoundTrip(m: HttpMethod)
    ensures Upper(MethodName(m)) == (match m case Get => "GET" case Post => "POST" case Put => "PUT" case Patch => "PATCH" case Delete => "DELETE")
    ensures Lower(Upper(MethodName(m))) == MethodName(m)
  {
  }

  /** Distinct methods are sent as distinct verbs. */
  lemma MethodsDistinct(m1: HttpMethod, m2: HttpMethod)
    requires m1 != m2
    ensures Upper(MethodName(m1)) != Upper(MethodName(m2))
  {
    MethodNamesRoundTrip(m1);
    MethodNamesRoundTrip(m2);
  }

  /** Without query data the URL ends with the serialisation of no entries. */
  lemma NoQueryUrl(token: string, m: HttpMethod, path: string, body: Option<Json>,
                   stringify: Json -> string, valueText: Json -> string, search: seq<(string, string)> -> string)
    ensures var r := BuildRequest(token, m, path, None, body, stringify, valueText, search);
            r.Ok? && r.value.url == ApiBase + path + "?" + search([])
  {
  }

  /**
   * An outcome that is either an exception or a response whose limit
   * information is its own classification, at some clock.
   */
  ghost predicate Classified(o: Outcome<Response>) {
    o.Threw? || exists t :: o.limits == Classify(o.result, t)
  }

  /**
   * When every outcome of a flush is classified by `Classify`, the limiter
   * resolves exactly the responses that are not 429: a resolved request is
   * never a rate-limited response or an exception, and any other status,
   * error or not, resolves at once.
   */
  lemma ResolvedIffNot429(st: Limiter, bucket: string, now: int, outs: seq<Outcome<Response>>)
    requires bucket in st.queue
    requires forall i :: 0 <= i < |outs| ==> Classified(outs[i])
    ensures var r := Flush(st, bucket, now, outs);
            forall i :: 0 <= i < |r.log| ==> (r.log[i].resolved <==> r.log[i].outcome.Returned? && r.log[i].outcome.result.status != TooManyRequests)
  {
    FlushLog(st, bucket, now, outs);
  }

  /**
   * A classified 429 always reports `remaining`, so the zeroing of an
   * throttled bucket's `remaining` never survives: the record holds the
   * header value (0 when the header is absent).
   */
  lemma ClassifiedThrottleKeepsHeader(st: Limiter, bucket: string, group: Option<string>, now: int, o: Outcome<Response>)
    requires Ready(st, bucket, group) && |st.queue[bucket]| > 0
    requires Classified(o) && o.Returned? && o.result.status == TooManyRequests
    ensures Step(st, bucket, group, now, o).state.buckets[bucket].remaining == o.result.headers.remaining.GetOr(0)
  {
    ThrottleZeroingOverwritten(st, bucket, group, now, o);
  }
}
