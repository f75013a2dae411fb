/** The batch endpoint (`handleBatch`, src/index.js:22-82): read `{ urls }` from the JSON
    body, fetch every URL with a GET, and answer with one result per URL in input order. */
module Batch {
  import opened Text
  import opened Wrappers
  import opened HeaderMaps
  import opened Http
  import opened Cors

  /** The value of the `urls` field after `JSON.parse` and destructuring. Numbers are
      kept as integers. Array elements are the URL strings handed to `fetch`. */
  datatype UrlsField =
    | Absent                      // no `urls` field: `undefined`
    | Null
    | Boolean(b: bool)
    | Number(n: int)
    | Str(s: string)
    | Object
    | Array(items: seq<string>)

  /** JavaScript truthiness of the field. */
  predicate Truthy(u: UrlsField)
  {
    match u
    case Absent => false
    case Null => false
    case Boolean(b) => b
    case Number(n) => n != 0
    case Str(s) => s != ""
    case Object => true
    case Array(_) => true
  }

  /** The guard `!urls || !Array.isArray(urls)`. */
  predicate RejectsUrls(u: UrlsField)
  {
    !Truthy(u) || !u.Array?
  }

  /** Since every array is truthy, the guard rejects exactly the non-arrays; an empty
      array is accepted. */
  lemma RejectsExactlyNonArrays(u: UrlsField)
    ensures RejectsUrls(u) <==> !u.Array?
    ensures !RejectsUrls(Array([]))
  {
  }

  /** What `await request.json()` and `const { urls } = body` produce: an exception
      (unreadable body, malformed JSON, a `null` body) or the `urls` field. */
  datatype BatchBody = Unreadable(message: string) | Parsed(urls: UrlsField)

  const Accept := "Accept"
  const FeedAccept := "application/rss+xml, application/xml, text/xml, application/atom+xml, text/html, */*"
  const FetcherAgent := "Sift-RSS-Fetcher/1.0"

  /** The headers of each per-URL GET (src/index.js:36-45): the feed `Accept` list and the
      caller's `User-Agent`, or `Sift-RSS-Fetcher/1.0` when the caller sent none. */
  function FetchHeaders(inbound: map<string, string>): (r: map<string, string>)
    ensures r.Keys == {Key(Accept), Key(UserAgent)}
    ensures Get(r, Accept) == Some(FeedAccept)
    ensures Get(r, UserAgent) == Some(if Has(inbound, UserAgent) then inbound[Key(UserAgent)] else FetcherAgent)
  {
    assert |Key(Accept)| != |Key(UserAgent)|;
    map[Key(Accept) := FeedAccept,
        Key(UserAgent) := if Has(inbound, UserAgent) then inbound[Key(UserAgent)] else FetcherAgent]
  }

  /** The fetch issued for one URL: a body-less GET (src/index.js:47-51). */
  function FetchRequest(url: string, inbound: map<string, string>): (out: OutboundRequest)
    ensures out.url == url && out.verb == "GET" && out.body == None
    ensures out.headers == FetchHeaders(inbound)
  {
    OutboundRequest(url, "GET", FetchHeaders(inbound), None)
  }

  /** The result record for one URL (src/index.js:35-68): an exception becomes status 500
      with its message, a status outside 200..299 keeps the status with the status text as
      error, and any other response is a success carrying its status, body and headers. */
  function Classify(url: string, outcome: FetchOutcome): (r: BatchResult)
    ensures r.url == url
    ensures r.Ok() <==> outcome.Responded? && IsOkStatus(outcome.response.status)
    ensures r.status == if outcome.Threw? then 500 else outcome.response.status
    ensures !r.Ok() ==> r.error == if outcome.Threw? then outcome.message else outcome.response.statusText
    ensures r.Ok() ==> r.content == outcome.response.body && r.headers == outcome.response.headers
  {
    match outcome
    case Threw(message) => Failed(url, 500, message)
    case Responded(res) =>
      if !IsOkStatus(res.status) then Failed(url, res.status, res.statusText)
      else Fetched(url, res.status, res.body, res.headers)
  }

  /** `urls.map(...)` under `Promise.all`: the result for position `i` depends only on
      `urls[i]` and the outcome of the fetch issued for position `i`, whatever order the
      fetches settle in. */
  function Results(urls: seq<string>, outcome: nat -> FetchOutcome): (r: seq<BatchResult>)
    ensures |r| == |urls|
    ensures forall i :: 0 <= i < |urls| ==> r[i] == Classify(urls[i], outcome(i))
    decreases |urls|
  {
    if urls == [] then []
    else
      var last := |urls| - 1;
      Results(urls[..last], outcome) + [Classify(urls[last], outcome(last))]
  }

  /** One URL's outcome never affects another URL's result. */
  lemma ResultsIsolated(urls: seq<string>, outcome: nat -> FetchOutcome, other: nat -> FetchOutcome, i: nat)
    requires i < |urls| && outcome(i) == other(i)
    ensures Results(urls, outcome)[i] == Results(urls, other)[i]
  {
  }

  /** Three URLs: one answers 200, one refuses the connection, one answers 404. */
  lemma MixedOutcomesExample(a: string, b: string, c: string, page: UpstreamResponse, refused: string, missing: UpstreamResponse)
    requires page.status == 200 && missing.status == 404
    ensures var r := Results([a, b, c], i => if i == 0 then Responded(page) else if i == 1 then Threw(refused) else Responded(missing));
      && |r| == 3
      && r[0] == Fetched(a, 200, page.body, page.headers)
      && r[1] == Failed(b, 500, refused)
      && r[2] == Failed(c, 404, missing.statusText)
  {
  }

  const InvalidUrlsMessage := "Invalid Request: \"urls\" must be an array"
  const BatchErrorPrefix := "Batch Error: "
  const JsonType := "application/json"

  /** `handleBatch(request)`, given the parsed body and the outcome of the fetch issued
      for each position. `sent` lists the fetches issued, in input order. */
  method HandleBatch(inbound: map<string, string>, body: BatchBody, outcome: nat -> FetchOutcome)
    returns (resp: Response, sent: seq<OutboundRequest>)
    ensures HasCors(resp.headers)
    ensures body.Unreadable? ==>
      sent == [] && resp == TextResponse(500, BatchErrorPrefix + body.message, WithCors(map[]))
    ensures body.Parsed? && !body.urls.Array? ==>
      sent == [] && resp == TextResponse(400, InvalidUrlsMessage, WithCors(map[]))
    ensures body.Parsed? && body.urls.Array? ==>
      var urls := body.urls.items;
      && |sent| == |urls|
      && (forall i :: 0 <= i < |urls| ==> sent[i] == FetchRequest(urls[i], inbound))
      && resp == Response(200, "", WithCors(map[Key(ContentType) := JsonType]), BatchJson(Results(urls, outcome)))
  {
    if body.Unreadable? {
      var headers := new Headers();
      AddCorsHeaders(headers);
      resp := TextResponse(500, BatchErrorPrefix + body.message, headers.entries);
      sent := [];
    } else if RejectsUrls(body.urls) {
      var headers := new Headers();
      AddCorsHeaders(headers);
      resp := TextResponse(400, InvalidUrlsMessage, headers.entries);
      sent := [];
    } else {
      var urls := body.urls.items;
      sent := seq(|urls|, i requires 0 <= i < |urls| => FetchRequest(urls[i], inbound));
      var results := Results(urls, outcome);
      LowerFixesExactlyLowerStrings(ContentType);
      var headers := new Headers.Copy(map[Key(ContentType) := JsonType]);
      AddCorsHeaders(headers);
      resp := Response(200, "", headers.entries, BatchJson(results));
    }
  }
}
