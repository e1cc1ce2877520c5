/**
 * The browser extension's authenticated request helper: a bearer token is
 * obtained once per call, the request is sent, and on the first 401 the token
 * is dropped from the platform's cache and the request is sent once more.
 *
 * The platform callbacks (token acquisition, token invalidation, the fetch
 * transport) are inputs: the token the platform hands out, and a script of
 * what the transport answers to each fetch in turn. A call is a pure function
 * from those inputs to a trace of what it did.
 */
module Http {
  import opened Options

  /** One header entry, as a name/value pair of the caller's header list. */
  datatype Header = Header(name: string, value: string)

  /** What is handed to the transport for one fetch. */
  datatype Request = Request(verb: string, url: string, headers: seq<Header>, body: Option<string>)

  /** How the transport settles one fetch: a response with a status code and an
      (opaque) JSON payload, or a network-level failure with its reason. */
  datatype Outcome = Status(code: int, payload: string) | NetErr(reason: string)

  /** How the promise returned to the caller settles. `Pending` is a promise
      that never settles, because the transport never answered. */
  datatype Result = Json(payload: string) | NoContent | Rejected(reason: string) | Pending

  /** One logical call: the caller's arguments and the token obtained for it
      (`None` when the platform handed out no token). */
  datatype Call = Call(verb: string, url: string, body: Option<string>,
                       headers: Option<seq<Header>>, token: Option<string>)

  /** One thing a call asks of the platform: a fetch, or dropping a token from its cache. */
  datatype Event = Fetch(req: Request) | Invalidate(token: Option<string>)

  /** Everything a call did, in order, and how its promise settled. */
  datatype Trace = Trace(events: seq<Event>, result: Result)
  {
    /** The requests sent, in order. */
    function Sent(): seq<Request> { Fetches(events) }

    /** The tokens the call asked the platform to drop, in order. */
    function Invalidated(): seq<Option<string>> { Invalidations(events) }
  }

  function Fetches(es: seq<Event>): seq<Request> {
    if |es| == 0 then [] else (if es[0].Fetch? then [es[0].req] else []) + Fetches(es[1..])
  }

  function Invalidations(es: seq<Event>): seq<Option<string>> {
    if |es| == 0 then [] else (if es[0].Invalidate? then [es[0].token] else []) + Invalidations(es[1..])
  }

  /** A single fetch, and a fetch retried after an invalidation, as sent/invalidated lists. */
  lemma LogShapes(r: Request, r': Request, token: Option<string>)
    ensures Fetches([Fetch(r)]) == [r] && Invalidations([Fetch(r)]) == []
    ensures Fetches([Fetch(r), Invalidate(token), Fetch(r')]) == [r, r']
    ensures Invalidations([Fetch(r), Invalidate(token), Fetch(r')]) == [token]
  {
    var one: seq<Event> := [Fetch(r')];
    assert one[1..] == [];
    assert Fetches(one) == [r'] && Invalidations(one) == [];
    var two: seq<Event> := [Invalidate(token)] + one;
    assert two[1..] == one;
    assert Fetches(two) == [r'] && Invalidations(two) == [token];
    var es: seq<Event> := [Fetch(r)] + two;
    assert es[1..] == two;
    assert es == [Fetch(r), Invalidate(token), Fetch(r')];
  }

  const Unauthorized: int := 401
  const NoContentStatus: int := 204

  /** A missing token interpolates as the text `undefined`. */
  function TokenText(token: Option<string>): string {
    match token
    case Some(t) => t
    case None => "undefined"
  }

  /** The header set used when the caller supplies none. */
  function DefaultHeaders(token: Option<string>): seq<Header> {
    [Header("Content-type", "application/json"),
     Header("Authorization", "Bearer " + TokenText(token))]
  }

  /** Methods compared exactly (the source compares lower-case strings). */
  predicate CarriesBody(verb: string) {
    verb != "head" && verb != "get"
  }

  predicate IsUnauthorized(o: Outcome) {
    o.Status? && o.code == Unauthorized
  }

  /** The request options built for every attempt of a call. */
  function BuildRequest(c: Call, token: Option<string>): (r: Request)
    ensures r.verb == c.verb && r.url == c.url
    ensures !CarriesBody(c.verb) ==> r.body == None
    ensures CarriesBody(c.verb) ==> r.body == Some(c.body.GetOr(""))
    ensures c.headers.Some? ==> r.headers == c.headers.value
    ensures c.headers.None? ==> |r.headers| == 2 && r.headers[1].value == "Bearer " + TokenText(token)
  {
    Request(c.verb, c.url,
            if c.headers.Some? then c.headers.value else DefaultHeaders(token),
            if CarriesBody(c.verb) then Some(if c.body.Some? then c.body.value else "") else None)
  }

  /** How an answer settles the call when it does not trigger the retry. */
  function Settle(o: Outcome): Result {
    match o
    case NetErr(reason) => Rejected(reason)
    case Status(code, payload) => if code == NoContentStatus then NoContent else Json(payload)
  }

  /**
   * Independent reading of the retry policy: only the first answer can trigger
   * a retry, and whatever the second answer is, it settles the call.
   */
  function ExpectedResult(script: seq<Outcome>): Result {
    if |script| == 0 then Pending
    else if !IsUnauthorized(script[0]) then Settle(script[0])
    else if |script| == 1 then Pending
    else Settle(script[1])
  }

  /**
   * One attempt and, when it is the first 401, the retry it schedules.
   * `removed` is the call's flag recording that the token was already dropped;
   * `token` is the module-level token the header set is built from, which the
   * retry does not refresh.
   */
  function AttemptFetch(c: Call, removed: bool, script: seq<Outcome>): (t: Trace)
    decreases |script|
    ensures var r := BuildRequest(c, c.token);
      t.events == if !removed && |script| > 0 && IsUnauthorized(script[0])
                  then [Fetch(r), Invalidate(c.token), Fetch(r)] else [Fetch(r)]
    ensures 1 <= |t.Sent()| <= (if removed then 1 else 2)
    ensures forall i :: 0 <= i < |t.Sent()| ==> t.Sent()[i] == BuildRequest(c, c.token)
    ensures |t.Sent()| == 2 <==> !removed && |script| > 0 && IsUnauthorized(script[0])
    ensures t.Invalidated() == if |t.Sent()| == 2 then [c.token] else []
    ensures removed ==> t.result == (if |script| == 0 then Pending else Settle(script[0]))
    ensures !removed ==> t.result == ExpectedResult(script)
  {
    var req := BuildRequest(c, c.token);
    LogShapes(req, req, c.token);
    if |script| == 0 then
      Trace([Fetch(req)], Pending)
    else
      match script[0]
      case NetErr(reason) => Trace([Fetch(req)], Rejected(reason))
      case Status(code, payload) =>
        if code == Unauthorized && !removed then
          var retry := AttemptFetch(c, true, script[1..]);
          Trace([Fetch(req), Invalidate(c.token)] + retry.events, retry.result)
        else if code == NoContentStatus then
          Trace([Fetch(req)], NoContent)
        else
          Trace([Fetch(req)], Json(payload))
  }

  /**
   * makeRequest: obtains `token`, then runs the attempt loop against the
   * transport's scripted answers.
   */
  function MakeRequest(verb: string, url: string, body: Option<string>,
                       headers: Option<seq<Header>>, token: Option<string>,
                       script: seq<Outcome>): (t: Trace)
    ensures 1 <= |t.Sent()| <= 2
    ensures |t.Sent()| == 2 <==> |script| > 0 && IsUnauthorized(script[0])
    ensures forall i :: 0 <= i < |t.Sent()| ==> t.Sent()[i].verb == verb && t.Sent()[i].url == url
    ensures |t.Sent()| == 2 ==> t.Sent()[1] == t.Sent()[0]
    ensures t.Invalidated() == if |t.Sent()| == 2 then [token] else []
    ensures |t.Sent()| == 2 ==> t.events == [Fetch(t.Sent()[0]), Invalidate(token), Fetch(t.Sent()[0])]
    ensures t.result == ExpectedResult(script)
  {
    AttemptFetch(Call(verb, url, body, headers, token), false, script)
  }

  /** Execute an HTTP GET request: no body is ever attached. */
  function Get(url: string, headers: Option<seq<Header>>, token: Option<string>,
               script: seq<Outcome>): (t: Trace)
    ensures forall i :: 0 <= i < |t.Sent()| ==> t.Sent()[i].verb == "get" && t.Sent()[i].body == None
    ensures 1 <= |t.Sent()| <= 2
    ensures t.result == ExpectedResult(script)
  {
    MakeRequest("get", url, None, headers, token, script)
  }

  /** Execute an HTTP POST request: the body is always attached, as given. */
  function Post(url: string, body: string, headers: Option<seq<Header>>, token: Option<string>,
                script: seq<Outcome>): (t: Trace)
    ensures forall i :: 0 <= i < |t.Sent()| ==> t.Sent()[i].verb == "post" && t.Sent()[i].body == Some(body)
    ensures 1 <= |t.Sent()| <= 2
    ensures t.result == ExpectedResult(script)
  {
    MakeRequest("post", url, Some(body), headers, token, script)
  }

  /** Bodies: never for `get`/`head`; otherwise the given body, or `''` when absent or empty. */
  lemma BodyPolicy(verb: string, url: string, body: Option<string>,
                   headers: Option<seq<Header>>, token: Option<string>, script: seq<Outcome>)
    ensures var t := MakeRequest(verb, url, body, headers, token, script);
      forall i :: 0 <= i < |t.Sent()| ==>
        && (verb == "get" || verb == "head" <==> t.Sent()[i].body == None)
        && (t.Sent()[i].body.Some? ==> t.Sent()[i].body.value == (if body.Some? then body.value else ""))
  {  }

  /**
   * Headers: a supplied header list is sent verbatim (even an empty one);
   * otherwise exactly the content type and the bearer token obtained for the call.
   */
  lemma HeaderPolicy(verb: string, url: string, body: Option<string>,
                     headers: Option<seq<Header>>, token: Option<string>, script: seq<Outcome>)
    ensures var t := MakeRequest(verb, url, body, headers, token, script);
      forall i :: 0 <= i < |t.Sent()| ==>
        t.Sent()[i].headers == (if headers.Some? then headers.value
                              else [Header("Content-type", "application/json"),
                                    Header("Authorization", "Bearer " + TokenText(token))])
  {  }

  /**
   * The retry as written reuses the token it has just asked the platform to
   * drop: with the default headers, the second request still carries it.
   */
  lemma RetryReusesInvalidatedToken(verb: string, url: string, body: Option<string>,
                                    token: Option<string>, script: seq<Outcome>)
    requires |script| > 0 && IsUnauthorized(script[0])
    ensures var t := MakeRequest(verb, url, body, None, token, script);
      && |t.Sent()| == 2 && |t.Invalidated()| == 1
      && Header("Authorization", "Bearer " + TokenText(t.Invalidated()[0])) in t.Sent()[1].headers
  {  }

  /** A concrete call exhibiting the stale retry: a post answered by a 401, then a 200. */
  lemma StaleRetryExample()
    ensures var t := Post("https://api.example/shelf", "{\"location\":\"A1\"}", None, Some("T1"),
                          [Status(401, "{}"), Status(200, "{\"shelves\":[]}")]);
      && |t.Sent()| == 2 && t.Invalidated() == [Some("T1")]
      && t.events == [Fetch(t.Sent()[0]), Invalidate(Some("T1")), Fetch(t.Sent()[1])]
      && t.Sent()[1].headers[1] == Header("Authorization", "Bearer T1")
      && t.Sent()[1].body == Some("{\"location\":\"A1\"}")
      && t.result == Json("{\"shelves\":[]}")
  {  }

  /**
   * How a call settles, case by case: a network failure on either attempt
   * rejects with its reason and is not retried; 204 gives no content; any
   * other status, a second 401 included, gives the response's payload.
   */
  lemma SettlementCases(verb: string, url: string, body: Option<string>,
                        headers: Option<seq<Header>>, token: Option<string>, script: seq<Outcome>)
    ensures var t := MakeRequest(verb, url, body, headers, token, script);
      && (|script| > 0 && script[0].NetErr? ==> |t.Sent()| == 1 && t.result == Rejected(script[0].reason))
      && (|script| > 0 && script[0].Status? && script[0].code == 204 ==> |t.Sent()| == 1 && t.result == NoContent)
      && (|script| > 0 && script[0].Status? && script[0].code != 204 && script[0].code != 401 ==>
            |t.Sent()| == 1 && t.result == Json(script[0].payload))
      && (|script| > 1 && IsUnauthorized(script[0]) ==>
            |t.Sent()| == 2 && t.Invalidated() == [token] &&
            t.result == match script[1]
                        case NetErr(reason) => Rejected(reason)
                        case Status(code, payload) => if code == 204 then NoContent else Json(payload))
      && (|script| == 0 || (|script| == 1 && IsUnauthorized(script[0])) ==> t.result == Pending)
  {  }

  /**
   * Corrected retry: after dropping the token, a token is obtained again
   * (`renewed`, whatever the platform hands out then) and the retry is built
   * from it. Only the header set may differ between the two requests.
   */
  function MakeRequestRefreshing(verb: string, url: string, body: Option<string>,
                                 headers: Option<seq<Header>>, token: Option<string>,
                                 renewed: Option<string>, script: seq<Outcome>): (t: Trace)
    ensures 1 <= |t.Sent()| <= 2
    ensures |t.Sent()| == 2 <==> |script| > 0 && IsUnauthorized(script[0])
    ensures t.Invalidated() == if |t.Sent()| == 2 then [token] else []
    ensures t.Sent()[0] == BuildRequest(Call(verb, url, body, headers, token), token)
    ensures |t.Sent()| == 2 ==> t.Sent()[1] == BuildRequest(Call(verb, url, body, headers, token), renewed)
    ensures |t.Sent()| == 2 ==> t.events == [Fetch(t.Sent()[0]), Invalidate(token), Fetch(t.Sent()[1])]
    ensures t.result == ExpectedResult(script)
  {
    var c := Call(verb, url, body, headers, token);
    var first := BuildRequest(c, token);
    var second := BuildRequest(c, renewed);
    LogShapes(first, second, token);
    if |script| == 0 then Trace([Fetch(first)], Pending)
    else if !IsUnauthorized(script[0]) then Trace([Fetch(first)], Settle(script[0]))
    else
      Trace([Fetch(first), Invalidate(token), Fetch(second)],
            if |script| == 1 then Pending else Settle(script[1]))
  }

  /** With the corrected retry and default headers, the retried request never
      carries the invalidated token unless the platform hands the same one out again. */
  lemma RefreshedRetryDropsStaleToken(verb: string, url: string, body: Option<string>,
                                      token: Option<string>, renewed: Option<string>,
                                      script: seq<Outcome>)
    requires |script| > 0 && IsUnauthorized(script[0])
    requires TokenText(renewed) != TokenText(token)
    ensures var t := MakeRequestRefreshing(verb, url, body, None, token, renewed, script);
      && t.Invalidated() == [token]
      && Header("Authorization", "Bearer " + TokenText(token)) !in t.Sent()[1].headers
      && Header("Authorization", "Bearer " + TokenText(renewed)) in t.Sent()[1].headers
  {
    var t := MakeRequestRefreshing(verb, url, body, None, token, renewed, script);
    var hs := t.Sent()[1].headers;
    assert hs == DefaultHeaders(renewed);
    var stale := Header("Authorization", "Bearer " + TokenText(token));
    PrefixCancel("Bearer ", TokenText(token), TokenText(renewed));
    assert hs[1] != stale;
  }

  /** Equal strings with a common prefix agree after it. */
  lemma PrefixCancel(p: string, x: string, y: string)
    ensures p + x == p + y ==> x == y
  {
    if p + x == p + y {
      assert x == (p + x)[|p|..];
      assert y == (p + y)[|p|..];
    }
  }
}
