/** The worker's entry point (`fetch`, src/index.js:162-177) and the preflight handler. */
module Worker {
  import opened HeaderMaps
  import opened Http
  import opened Cors
  import opened Proxy
  import opened Batch

  datatype Route = Preflight | BatchRoute | ProxyRoute

  /** The handler a request goes to: `OPTIONS` always goes to the preflight handler,
      a `POST` to `/batch` to the batch handler, and everything else to the proxy. */
  function Dispatch(verb: string, pathname: string): (r: Route)
    ensures r == Preflight <==> verb == "OPTIONS"
    ensures r == BatchRoute <==> verb == "POST" && pathname == "/batch"
    ensures r == ProxyRoute <==> verb != "OPTIONS" && !(verb == "POST" && pathname == "/batch")
  {
    if verb == "OPTIONS" then Preflight
    else if pathname == "/batch" && verb == "POST" then BatchRoute
    else ProxyRoute
  }

  /** `handleOptions`: 204, no body, the CORS headers and nothing else. */
  method HandleOptions() returns (resp: Response)
    ensures resp.status == 204 && resp.statusText == "" && resp.body == NoBody
    ensures resp.headers == WithCors(map[])
    ensures resp.headers.Keys == CorsKeys && HasCors(resp.headers)
  {
    var headers := new Headers();
    AddCorsHeaders(headers);
    resp := Response(204, "", headers.entries, NoBody);
  }

  /** What the outside world does for one request: the parsed JSON body the batch handler
      reads, the outcome of the fetch issued for each batch position, and the outcome of
      the proxy's fetch. */
  datatype World = World(batchBody: BatchBody, batchOutcome: nat -> FetchOutcome, proxyOutcome: FetchOutcome)

  /** The worker's `fetch` handler, given what the outside world does. `sent` lists the
      outbound fetches it issues, in order. Every response carries the CORS headers. */
  method HandleFetch(req: Request, world: World) returns (resp: Response, route: Route, sent: seq<OutboundRequest>)
    requires WellFormed(req.headers)
    requires world.proxyOutcome.Responded? ==> WellFormed(world.proxyOutcome.response.headers)
    ensures route == Dispatch(req.verb, req.pathname)
    ensures HasCors(resp.headers)
    ensures route == Preflight ==>
      sent == [] && resp == Response(204, "", WithCors(map[]), NoBody)
    ensures route == ProxyRoute && MissingTarget(req.urlParam) ==>
      sent == [] && resp == TextResponse(400, MissingUrlMessage, WithCors(map[]))
    ensures route == ProxyRoute && !MissingTarget(req.urlParam) ==> sent == [ProxyRequest(req)]
    ensures route == ProxyRoute && !MissingTarget(req.urlParam) && world.proxyOutcome.Threw? ==>
      resp == TextResponse(502, ProxyErrorPrefix + world.proxyOutcome.message, WithCors(map[]))
    ensures route == ProxyRoute && !MissingTarget(req.urlParam) && world.proxyOutcome.Responded? ==>
      var up := world.proxyOutcome.response;
      resp == Response(up.status, up.statusText, ProxiedHeaders(up.headers), Streamed(up.body))
    ensures route == BatchRoute && world.batchBody.Unreadable? ==>
      sent == [] && resp == TextResponse(500, BatchErrorPrefix + world.batchBody.message, WithCors(map[]))
    ensures route == BatchRoute && world.batchBody.Parsed? && !world.batchBody.urls.Array? ==>
      sent == [] && resp == TextResponse(400, InvalidUrlsMessage, WithCors(map[]))
    ensures route == BatchRoute && world.batchBody.Parsed? && world.batchBody.urls.Array? ==>
      var urls := world.batchBody.urls.items;
      && |sent| == |urls|
      && (forall i :: 0 <= i < |urls| ==> sent[i] == FetchRequest(urls[i], req.headers))
      && resp == Response(200, "", WithCors(map[Key(ContentType) := JsonType]), BatchJson(Results(urls, world.batchOutcome)))
  {
    route := Dispatch(req.verb, req.pathname);
    match route
    case Preflight =>
      resp := HandleOptions();
      sent := [];
    case BatchRoute =>
      resp, sent := HandleBatch(req.headers, world.batchBody, world.batchOutcome);
    case ProxyRoute =>
      var issued;
      resp, issued := HandleProxy(req, world.proxyOutcome);
      sent := if issued.Some? then [issued.value] else [];
  }
}
