/**
 * packages/backend/src/routes/chatbotRoutes.ts: the per-request CORS options
 * of the public query route, and the router's registration table. The
 * domains query is given as its answer (rows, or the error it threw); the
 * rate limiter is a stage of the table and its counting is not modelled.
 */
module ChatbotRoutes {
  import opened Wrappers
  import opened Js

  // ------------------------------------------------------------------- CORS

  /** A row of chatbot_domains. */
  datatype DomainRow = DomainRow(chatbotId: int, domain: string)

  /** `parseInt(id || "0")`: a missing or empty id looks up chatbot 0; `None` stands for NaN. */
  function DomainLookupKey(id: Option<string>): Option<int>
  {
    ParseInt(if Truthy(id) then id.value else "0", AutoRadix)
  }

  /** `where chatbotId = key`: NaN equals no id. */
  function DomainsOf(rows: seq<DomainRow>, key: Option<int>): (r: seq<string>)
    ensures forall d :: d in r <==> exists k :: 0 <= k < |rows| && key == Some(rows[k].chatbotId) && rows[k].domain == d
  {
    if rows == [] then []
    else
      var rest := DomainsOf(rows[1..], key);
      assert forall k :: 1 <= k < |rows| ==> rows[k] == rows[1..][k - 1];
      (if key == Some(rows[0].chatbotId) then [rows[0].domain] else []) + rest
  }

  /** `req.get("Origin") || ""`. */
  function RequestOrigin(header: Option<string>): string
  {
    if Truthy(header) then header.value else ""
  }

  /** `allowedDomains.some((d) => d.domain === origin || d.domain === "*")`. */
  function SomeAllows(domains: seq<string>, origin: string): (r: bool)
  {
    if domains == [] then false
    else domains[0] == origin || domains[0] == "*" || SomeAllows(domains[1..], origin)
  }

  /** `some` holds exactly when one of the domains is the origin itself or the wildcard. */
  lemma {:induction false} SomeAllowsIff(domains: seq<string>, origin: string)
    ensures SomeAllows(domains, origin) <==> exists k :: 0 <= k < |domains| && (domains[k] == origin || domains[k] == "*")
    decreases |domains|
  {
    if domains != [] {
      SomeAllowsIff(domains[1..], origin);
      assert forall k :: 1 <= k < |domains| ==> domains[k] == domains[1..][k - 1];
      if SomeAllows(domains[1..], origin) {
        var k :| 0 <= k < |domains[1..]| && (domains[1..][k] == origin || domains[1..][k] == "*");
        assert domains[k + 1] == domains[1..][k];
      }
    }
  }

  /** The `origin` option: reflect the request's origin, or `false`. */
  datatype OriginSetting = ReflectOrigin(origin: string) | NoOrigin

  /** The options handed to `cors`; an option left unset is `None`. */
  datatype CorsOptions = CorsOptions(origin: OriginSetting, methods: Option<seq<string>>, allowedHeaders: Option<seq<string>>)

  function CorsOptionsFor(id: Option<string>, originHeader: Option<string>, rows: Result<seq<DomainRow>>): (r: CorsOptions)
    ensures rows.Err? ==> r == CorsOptions(NoOrigin, None, None)
    ensures rows.Ok? ==> r.methods == Some(["POST"]) && r.allowedHeaders == Some(["Content-Type", "X-API-Key"])
  {
    match rows
    case Err(_) => CorsOptions(NoOrigin, None, None)
    case Ok(rs) =>
      var origin := RequestOrigin(originHeader);
      var allowed := SomeAllows(DomainsOf(rs, DomainLookupKey(id)), origin);
      CorsOptions(if allowed then ReflectOrigin(origin) else NoOrigin, Some(["POST"]), Some(["Content-Type", "X-API-Key"]))
  }

  /**
   * The origin is reflected exactly when a domain row of the chatbot the id
   * names equals the request's origin or "*"; otherwise it is refused.
   */
  lemma CorsOriginIff(id: Option<string>, originHeader: Option<string>, rows: seq<DomainRow>)
    ensures var r := CorsOptionsFor(id, originHeader, Ok(rows));
      var origin := RequestOrigin(originHeader);
      && (r.origin == ReflectOrigin(origin) <==>
            exists k :: 0 <= k < |rows| && DomainLookupKey(id) == Some(rows[k].chatbotId)
                        && (rows[k].domain == origin || rows[k].domain == "*"))
      && (r.origin != ReflectOrigin(origin) ==> r.origin == NoOrigin)
  {
    var key := DomainLookupKey(id);
    var origin := RequestOrigin(originHeader);
    var ds := DomainsOf(rows, key);
    SomeAllowsIff(ds, origin);
    if SomeAllows(ds, origin) {
      var j :| 0 <= j < |ds| && (ds[j] == origin || ds[j] == "*");
      assert ds[j] in ds;
    } else {
      forall k | 0 <= k < |rows| && key == Some(rows[k].chatbotId)
        ensures rows[k].domain != origin && rows[k].domain != "*"
      {
        assert rows[k].domain in ds;
        var j :| 0 <= j < |ds| && ds[j] == rows[k].domain;
      }
    }
  }

  /** Without an Origin header only a stored "*" or a stored "" admits the request, and "" is reflected. */
  lemma MissingOrigin(id: Option<string>, rows: seq<DomainRow>)
    ensures var r := CorsOptionsFor(id, None, Ok(rows));
      && (r.origin.ReflectOrigin? <==>
            exists k :: 0 <= k < |rows| && DomainLookupKey(id) == Some(rows[k].chatbotId)
                        && (rows[k].domain == "" || rows[k].domain == "*"))
      && (r.origin.ReflectOrigin? ==> r.origin.origin == "")
  {
    CorsOriginIff(id, None, rows);
  }

  /** A missing or empty id looks up the domains of chatbot 0. */
  lemma MissingIdIsChatbotZero()
    ensures DomainLookupKey(None) == Some(0) && DomainLookupKey(Some("")) == Some(0)
  {
    ParseIntNatToString(0, AutoRadix);
    assert NatToString(0) == "0";
  }

  // ----------------------------------------------------------------- routes

  datatype HttpMethod = GET | POST | PUT | DELETE

  datatype Segment = Literal(text: string) | Param(name: string)

  /** What a route runs, in order. */
  datatype Stage = Protect | UploadMiddleware | Cors | RateLimit | Handler(name: string)

  datatype Route = Route(verb: HttpMethod, path: seq<Segment>, stages: seq<Stage>)

  const PublicQueryPath: seq<Segment> := [Literal("public"), Param("id"), Literal("query")]

  /** The registrations, in the order Express tries them. */
  const Routes: seq<Route> := [
    Route(GET, [Literal("all")], [Protect, Handler("getAllChatbots")]),
    Route(POST, [], [Protect, Handler("createChatbot")]),
    Route(POST, [Param("chatbotId"), Literal("document")], [Protect, UploadMiddleware, Handler("uploadDocument")]),
    Route(PUT, [Param("chatbotId"), Literal("document")], [Protect, UploadMiddleware, Handler("updateDocument")]),
    Route(DELETE, [Param("chatbotId")], [Protect, Handler("deleteChatbot")]),
    Route(POST, [Param("chatbotId"), Literal("query")], [Protect, Handler("queryChatbot")]),
    Route(PUT, [Param("chatbotId"), Literal("widget")], [Protect, Handler("toggleWidget")]),
    Route(POST, [Literal("domains")], [Protect, Handler("addDomainToChatbot")]),
    Route(POST, PublicQueryPath, [Cors, RateLimit, Handler("publicChatbotQuery")])
  ]

  /** A path matches segment by segment; a parameter matches any non-empty segment. */
  predicate PathMatches(path: seq<Segment>, segments: seq<string>)
  {
    |path| == |segments| &&
    forall k :: 0 <= k < |path| ==>
      match path[k]
      case Literal(t) => segments[k] == t
      case Param(_) => segments[k] != ""
  }

  /** The first route that matches the request. */
  function Resolve(routes: seq<Route>, verb: HttpMethod, segments: seq<string>): (r: Option<Route>)
    ensures r.Some? ==> r.value in routes && r.value.verb == verb && PathMatches(r.value.path, segments)
    ensures r.None? ==> forall k :: 0 <= k < |routes| ==> !(routes[k].verb == verb && PathMatches(routes[k].path, segments))
  {
    if routes == [] then None
    else if routes[0].verb == verb && PathMatches(routes[0].path, segments) then Some(routes[0])
    else
      assert forall k :: 1 <= k < |routes| ==> routes[k] == routes[1..][k - 1];
      Resolve(routes[1..], verb, segments)
  }

  /** Every registration but the public query runs `protect` before anything else. */
  lemma PrivateRoutesAreProtected()
    ensures forall k :: 0 <= k < |Routes| ==> (Routes[k].path == PublicQueryPath <==> Protect !in Routes[k].stages)
    ensures forall k :: 0 <= k < |Routes| && Routes[k].path != PublicQueryPath ==> Routes[k].stages[0] == Protect
  {
  }

  /**
   * Whatever request arrives, the route that serves it starts with `protect`
   * unless it is POST /public/<id>/query, which runs cors, then the rate
   * limiter, then the handler, and no `protect`.
   */
  lemma ResolvedRouteGuarded(verb: HttpMethod, segments: seq<string>)
    ensures var r := Resolve(Routes, verb, segments);
      && (r.Some? && r.value.path != PublicQueryPath ==> r.value.stages[0] == Protect)
      && (verb == POST && |segments| == 3 && segments[0] == "public" && segments[1] != "" && segments[2] == "query" ==>
            r == Some(Route(POST, PublicQueryPath, [Cors, RateLimit, Handler("publicChatbotQuery")])))
  {
    PrivateRoutesAreProtected();
    if verb == POST && |segments| == 3 && segments[0] == "public" && segments[1] != "" && segments[2] == "query" {
      assert forall k :: 0 <= k < 8 ==> |Routes[k].path| != 3;
      assert PathMatches(PublicQueryPath, segments);
      ResolveFirst(Routes, 8, verb, segments);
    }
  }

  /** When no earlier route matches, the first one that does is the one resolved. */
  lemma {:induction false} ResolveFirst(routes: seq<Route>, n: nat, verb: HttpMethod, segments: seq<string>)
    requires n < |routes| && routes[n].verb == verb && PathMatches(routes[n].path, segments)
    requires forall k :: 0 <= k < n ==> !(routes[k].verb == verb && PathMatches(routes[k].path, segments))
    ensures Resolve(routes, verb, segments) == Some(routes[n])
    decreases n
  {
    if n > 0 {
      assert forall k :: 0 <= k < n - 1 ==> routes[1..][k] == routes[k + 1];
      ResolveFirst(routes[1..], n - 1, verb, segments);
    }
  }
}
