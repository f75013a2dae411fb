# Sift CORS proxy: a Dafny model of the worker's decision rules

The Sift proxy is a Cloudflare Worker (`src/index.js`). It relays browser requests to arbitrary
HTTP(S) targets and adds permissive CORS headers. It also offers a batch endpoint that fetches
many feed URLs and returns one JSON document. This project models the worker's deterministic
rules and proves what they promise:

- the dispatch of a request to the preflight, batch or proxy handler;
- the repair of the target URL taken from the `url` query parameter;
- the CORS headers stamped on every response;
- the cleanup of the request headers sent upstream and of the response headers sent back;
- the classification of each batch fetch and the index-aligned `results` array;
- the status, body and headers of every error response.

Each outbound `fetch` is replaced by its outcome, given as a parameter: it either threw with a
message or answered with a status, status text, headers and body.

Modules, one file each:

- `Wrappers` (wrappers.dfy): `Option`.
- `Text` (text.dfy): ASCII lower-casing of header names and `startsWith`.
- `HeaderMaps` (headers.dfy): the platform's `Headers` object as a class. It has one field,
  `entries: map<string, string>`, keyed by the lower-cased header name, as the `Headers` class of the
  WHATWG Fetch Standard compares names case-insensitively. `Set` and `Delete` update that field
  in place. `Has` and `Get` read a header map.
- `Http` (http.dfy): request, upstream response, fetch outcome, outbound request, batch result
  and response values, and `TextResponse`. `TextResponse` models `new Response(text, { status,
  headers })`. By the `Response` class of the Fetch Standard, such a response gets an empty status text.
  By its `BodyInit` rules, a string body also gives it `Content-Type: text/plain;charset=UTF-8`
  unless a content type is already set.
- `Cors` (cors.dfy): `addCorsHeaders` as a method on a `Headers` object. `WithCors` is the pure
  header map that the method produces.
- `Proxy` (proxy.dfy): `handleProxy`. The URL repair, the request-header cleanup and the
  response-header rewrite are imperative methods, as in the source. Each one is proved equal
  to a pure specification function, and the lemmas are stated about those functions.
- `Batch` (batch.dfy): `handleBatch`. It checks the `urls` guard with JavaScript truthiness,
  builds the per-URL request headers, classifies each outcome and builds `results`.
- `Worker` (worker.dfy): the `fetch` entry point, its dispatch and `handleOptions`.

Three details of the source that the model keeps as written:

- `handleProxy` adds the CORS headers before deleting `X-Frame-Options` and
  `Content-Security-Policy` (src/index.js:143-147). `Proxy.ProxiedHeadersOrderIrrelevant`
  proves that adding them after the deletes gives the same headers.
- A batch body that is not JSON throws at src/index.js:24 inside the outer `try`, so the answer
  is 500 with `Batch Error: <message>` (src/index.js:77-80). Only a parsed body whose `urls` is
  not an array gets 400.
- A batch item succeeds when `res.ok` holds, meaning a status in 200..299 (src/index.js:53).

## Model

| member | source | states |
|---|---|---|
| `Worker.Dispatch` | src/index.js:163-176 | `OPTIONS` goes to preflight whatever the path. A `POST` to `/batch` goes to the batch handler. Everything else goes to the proxy. Each route is given as an if-and-only-if, so routing is total and exclusive. |
| `Worker.HandleOptions` | src/index.js:16-20 | The preflight answer is 204 with an empty status text and no body. Its headers are exactly `WithCors` of an empty map: the five CORS headers with their fixed values. |
| `Worker.HandleFetch` | src/index.js:162-177 | The route taken is `Dispatch` of the method and path, and every response carries the CORS headers. Each path's whole response is given, with the fetches issued: preflight is 204 with `WithCors` headers and no fetch; a missing `url` is the 400 text response with no fetch; otherwise the proxy sends `ProxyRequest` and answers the 502 text response or the upstream status, status text and body with `ProxiedHeaders`; the batch answers the 500 or 400 text response with no fetch, or sends one `FetchRequest` per URL in order and answers 200 with `application/json`, CORS and `Results`. |
| `Cors.WithCors` | src/index.js:7-13 | The five CORS headers are bound to their fixed values, and any earlier value is overwritten. The key set grows by exactly those five. Every other header keeps its value. |
| `Cors.WithCorsIdempotent` | src/index.js:7-13 | Adding the CORS headers twice gives the same headers as adding them once. |
| `Cors.WithCorsFixesHasCors` | src/index.js:7-13 | Adding the CORS headers leaves a map unchanged exactly when it already carries all five fixed values. |
| `Cors.AddCorsHeaders` | src/index.js:7-13 | The five in-place `set` calls leave the header object equal to `WithCors` of its old contents. |
| `Http.TextResponse` | src/index.js:89-91 | A plain-text response has the given status, an empty status text and the text body. Its content type is the one already set, or `text/plain;charset=UTF-8`. Every other header keeps its value. |
| `Proxy.DropLeadingSlash` | src/index.js:98-101 | A string that starts with `/` loses exactly that one character; any other string is unchanged. |
| `Proxy.RepairedUrl` | src/index.js:96-106 | The repaired target always starts with `http://` or `https://`. It is the input after `DropLeadingSlash`, and that string is kept as it is exactly when it already has one of the two schemes; otherwise `https://` is put in front. |
| `Proxy.RepairTargetUrl` | src/index.js:96-106 | Reassigning `finalTargetUrl` step by step yields `RepairedUrl` of the parameter. |
| `Proxy.RepairKeepsSchemedUrl` | src/index.js:103-106 | A target that already starts with `http://` or `https://` is left unchanged. |
| `Proxy.RepairIdempotent` | src/index.js:96-106 | Repairing a repaired URL changes nothing. |
| `Proxy.RepairExamples` | src/index.js:94-106 | `/github.com/x` and `github.com/x` both become `https://github.com/x`. `http://example.com` is left unchanged. |
| `Proxy.RepairPathStyleUrl` | src/index.js:94-106 | A complete URL sent with one leading `/` comes back as the URL itself: `/https://a` becomes `https://a`, because the slash is dropped before the scheme is looked for. |
| `Proxy.RepairDropsOneSlashOnly` | src/index.js:98-101 | Only one leading `/` is removed: `//rest` becomes `https:///rest`. |
| `Proxy.ForwardedHeaders` | src/index.js:108-122 | The forwarded headers never contain `Host`, `Referer`, `Origin`, `cf-connecting-ip`, `x-forwarded-for` or `x-real-ip`. `User-Agent` is always present: the caller's value, or `Sift-Proxy/1.0` when there is none. Every other inbound header is forwarded unchanged, and nothing else is added. |
| `Proxy.SanitizeRequestHeaders` | src/index.js:108-122 | Copying the headers, the six in-place `delete` calls and the conditional `set` produce exactly `ForwardedHeaders` of the inbound headers. |
| `Proxy.ForwardedHeadersIdempotent` | src/index.js:108-122 | Cleaning the request headers a second time changes nothing. |
| `Proxy.ForwardsAuthorization` | src/index.js:108-118 | `Authorization` reaches the target exactly as the caller sent it, or stays absent. |
| `Proxy.ProxiedHeaders` | src/index.js:142-147 | The proxied response never has `X-Frame-Options` or `Content-Security-Policy`. It carries the fixed CORS values. Every other upstream header keeps its upstream value. |
| `Proxy.ProxiedHeadersOrderIrrelevant` | src/index.js:142-147 | Adding CORS before removing the two headers gives the same result as adding it after. |
| `Proxy.RewriteResponseHeaders` | src/index.js:142-147 | Copying the headers, `addCorsHeaders` and the two in-place `delete` calls produce exactly `ProxiedHeaders` of the upstream headers. |
| `Proxy.ProxyRequest` | src/index.js:124-140 | The outbound fetch goes to `RepairedUrl` of the `url` parameter, which has a scheme. It uses the inbound method and the forwarded headers. It carries the request body exactly when the method is neither `GET` nor `HEAD`. |
| `Proxy.HandleProxy` | src/index.js:84-160 | A missing or empty `url` gives 400 `Missing "url" parameter` with CORS and no fetch. Otherwise it issues `ProxyRequest`. A thrown fetch gives 502 `Proxy Error: <msg>` with CORS. An upstream answer is passed back with its status, status text and body, and with `ProxiedHeaders`. |
| `Batch.RejectsExactlyNonArrays` | src/index.js:27-31 | Because every array is truthy, the falsy-or-not-an-array guard rejects exactly the values that are not arrays. An empty array is accepted. |
| `Batch.FetchHeaders` | src/index.js:36-45 | Each per-URL GET carries exactly two headers: the fixed feed `Accept` list, and the caller's `User-Agent` or else `Sift-RSS-Fetcher/1.0`. |
| `Batch.FetchRequest` | src/index.js:47-51 | Each per-URL fetch goes to that URL, is a `GET` without a body, and carries `FetchHeaders` of the inbound headers. |
| `Batch.Classify` | src/index.js:35-68 | The result keeps the URL. It is `ok` exactly when the fetch answered with a status in 200..299. A thrown fetch gives status 500 with the exception message. Any other status is kept, with the status text as the error. A success carries the body and the headers. |
| `Batch.Results` | src/index.js:34-69 | `results` has the length of `urls`. Entry `i` is the classification of `urls[i]` with the outcome of fetch `i`. |
| `Batch.ResultsIsolated` | src/index.js:34-69 | Entry `i` depends only on outcome `i`: changing any other fetch's outcome leaves it unchanged. |
| `Batch.MixedOutcomesExample` | src/index.js:34-69 | Three URLs that answer 200, refuse the connection and answer 404 give one success, one failure with status 500 and one failure with status 404. |
| `Batch.HandleBatch` | src/index.js:22-82 | An unreadable body gives 500 `Batch Error: <msg>`. A `urls` that is not an array gives 400 `Invalid Request: "urls" must be an array`. Neither of these issues a fetch. Otherwise there is one GET per URL in input order, and the answer is 200 with `application/json`, CORS and `Results`. Every case carries the CORS headers. |

## Left out

- The network: each outbound `fetch` (DNS, TLS, redirect following) is replaced by a
  `FetchOutcome` parameter. In the batch, the outcomes are a function from position to outcome,
  so fetch `i` answers item `i`.
- `Promise.all` concurrency: the fan-out is modelled as an index-aligned map. This is what
  the source's result order guarantees, whatever order the fetches settle in.
- Body streaming, `res.text()` decoding and `JSON.stringify`: bodies are opaque strings. A
  failure of `res.text()` counts as a thrown fetch outcome for that item.
- `request.json()`, `JSON.parse` and object destructuring: `BatchBody` takes their result as
  input. Either they threw (with the message) or they produced the value of the `urls` field.
  Numbers in that field are integers, so `NaN` is not modelled. Array elements are taken as the
  URL strings; the coercion of non-string elements by `fetch` is not modelled.
- `new URL(request.url)`: the pathname and the `url` query parameter are inputs.
- The `Headers` object is modelled as one value per lower-cased name. Combining repeated headers,
  trimming values and the guards that forbid some names on some header objects are not modelled.
- The range checks of the `Response` constructor are not modelled. It rejects a status outside
  200..599, or a body on a 204/205/304 response. In the source, such a throw would turn the
  proxied answer into a 502.
- The request method is compared as given. Its normalisation by the platform is not modelled.
- The Cloudflare `env` and `ctx` arguments and the module export wrapper.
