/** The values that flow through the worker: the inbound request, what an outbound
    `fetch` produced, the outbound request itself and the response sent back.
    Bodies are opaque strings: streaming and text decoding are not modelled. */
module Http {
  import opened Wrappers
  import opened HeaderMaps

  /** The parts of an inbound request the worker reads: `verb` is `request.method`, `urlParam` is
      `new URL(request.url).searchParams.get('url')`. */
  datatype Request = Request(
    verb: string,
    pathname: string,
    urlParam: Option<string>,
    headers: map<string, string>,
    body: Option<string>)

  /** A response returned by an outbound `fetch` (after redirects were followed). */
  datatype UpstreamResponse = UpstreamResponse(
    status: int,
    statusText: string,
    headers: map<string, string>,
    body: string)

  /** The outcome of one outbound fetch: it threw, or it produced a response. */
  datatype FetchOutcome = Threw(message: string) | Responded(response: UpstreamResponse)

  /** `res.ok`: the status lies in 200..299. */
  predicate IsOkStatus(status: int)
  {
    200 <= status <= 299
  }

  /** The arguments of an outbound `fetch(url, {method, headers, body, redirect: 'follow'})`; `verb` is `method`. */
  datatype OutboundRequest = OutboundRequest(
    url: string,
    verb: string,
    headers: map<string, string>,
    body: Option<string>)

  /** One element of the batch endpoint's `results` array. `Fetched` is a record with
      `ok: true`, `Failed` one with `ok: false`. */
  datatype BatchResult =
    | Fetched(url: string, status: int, content: string, headers: map<string, string>)
    | Failed(url: string, status: int, error: string)
  {
    predicate Ok() { Fetched? }
  }

  datatype Body =
    | NoBody
    | Text(text: string)
    | BatchJson(results: seq<BatchResult>)   // JSON.stringify({ results })
    | Streamed(content: string)              // an upstream body passed through

  datatype Response = Response(status: int, statusText: string, headers: map<string, string>, body: Body)

  const UserAgent := "User-Agent"
  const ContentType := "Content-Type"
  const PlainText := "text/plain;charset=UTF-8"

  /** `new Response(text, { status, headers })`. The constructor leaves the status text
      empty and, because the body is a string, adds `Content-Type: text/plain;charset=UTF-8`
      when the headers have none (the `Response` class and the `BodyInit` unions
      in the WHATWG Fetch Standard). */
  function TextResponse(status: int, text: string, headers: map<string, string>): (r: Response)
    ensures r.status == status && r.statusText == "" && r.body == Text(text)
    ensures Get(r.headers, ContentType) == Some(if Has(headers, ContentType) then headers[Key(ContentType)] else PlainText)
    ensures forall k :: k != Key(ContentType) ==> (k in r.headers <==> k in headers)
    ensures forall k :: k in headers ==> k in r.headers && r.headers[k] == headers[k]
  {
    var h := if Has(headers, ContentType) then headers else headers[Key(ContentType) := PlainText];
    Response(status, "", h, Text(text))
  }
}
