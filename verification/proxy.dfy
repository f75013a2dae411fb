/** The single-URL proxy (`handleProxy`, src/index.js:84-160): repair the target URL,
    forward the request with cleaned headers, and pass the upstream response back with
    CORS headers and without the two headers that would block embedding. */
module Proxy {
  import opened Text
  import opened Wrappers
  import opened HeaderMaps
  import opened Http
  import opened Cors

  /* ---------- Target-URL repair (src/index.js:96-106) ---------- */

  /** The target carries one of the two schemes the repair accepts. */
  predicate HasScheme(s: string)
  {
    StartsWith(s, "http://") || StartsWith(s, "https://")
  }

  /** The target with one leading `/` removed, if it has one. */
  function DropLeadingSlash(s: string): (r: string)
    ensures StartsWith(s, "/") ==> s == "/" + r
    ensures !StartsWith(s, "/") ==> r == s
  {
    if StartsWith(s, "/") then s[1..] else s
  }

  /** The URL the proxy fetches: a leading `/` is dropped, then `https://` is put in
      front unless the string already starts with `http://` or `https://`. */
  function RepairedUrl(target: string): (r: string)
    ensures HasScheme(r)
    ensures r == DropLeadingSlash(target) || r == "https://" + DropLeadingSlash(target)
    ensures r == DropLeadingSlash(target) <==> HasScheme(DropLeadingSlash(target))
  {
    var t := DropLeadingSlash(target);
    if HasScheme(t) then t
    else
      assert ("https://" + t)[..8] == "https://";
      assert |"https://" + t| != |t|;
      "https://" + t
  }

  /** The repair reassigns one variable step by step, as the source does. */
  method RepairTargetUrl(target: string) returns (finalUrl: string)
    ensures finalUrl == RepairedUrl(target)
  {
    finalUrl := target;
    if StartsWith(finalUrl, "/") {
      finalUrl := finalUrl[1..];
    }
    if !StartsWith(finalUrl, "http://") && !StartsWith(finalUrl, "https://") {
      finalUrl := "https://" + finalUrl;
    }
  }

  /** A URL that already has a scheme is left as it is. */
  lemma RepairKeepsSchemedUrl(target: string)
    requires HasScheme(target)
    ensures RepairedUrl(target) == target
  {
    assert !StartsWith(target, "/") by {
      assert target[0] == 'h';
    }
  }

  /** Repairing a repaired URL changes nothing. */
  lemma RepairIdempotent(target: string)
    ensures RepairedUrl(RepairedUrl(target)) == RepairedUrl(target)
  {
    RepairKeepsSchemedUrl(RepairedUrl(target));
  }

  /** The worked examples: a target sent as a path, one without a scheme, and one
      that is already complete. */
  lemma RepairExamples()
    ensures RepairedUrl("/github.com/x") == "https://github.com/x"
    ensures RepairedUrl("github.com/x") == "https://github.com/x"
    ensures RepairedUrl("http://example.com") == "http://example.com"
  {
    assert DropLeadingSlash("/github.com/x") == "github.com/x";
    assert "github.com/x"[1] == 'i';
    assert !StartsWith("github.com/x", "http://") && !StartsWith("github.com/x", "https://");
    RepairKeepsSchemedUrl("http://example.com");
  }

  /** A complete URL sent as a path (with one leading `/`) comes back as the URL itself:
      the slash is dropped before the scheme is looked for. */
  lemma RepairPathStyleUrl(url: string)
    requires HasScheme(url)
    ensures RepairedUrl("/" + url) == url
  {
    assert DropLeadingSlash("/" + url) == url;
  }

  /** Only one leading `/` is removed: a doubled one leaves a `/` after the scheme. */
  lemma RepairDropsOneSlashOnly(rest: string)
    ensures RepairedUrl("//" + rest) == "https:///" + rest
  {
    assert DropLeadingSlash("//" + rest) == "/" + rest;
    assert !HasScheme("/" + rest) by {
      assert ("/" + rest)[0] == '/';
    }
  }

  /* ---------- Outbound request headers (src/index.js:108-122) ---------- */

  const Host := "Host"
  const Referer := "Referer"
  const Origin := "Origin"
  const ConnectingIp := "cf-connecting-ip"
  const ForwardedFor := "x-forwarded-for"
  const RealIp := "x-real-ip"
  const ProxyAgent := "Sift-Proxy/1.0"

  /** The stored keys of the six headers the proxy never forwards. */
  const StrippedRequestKeys: set<string> :=
    {Key(Host), Key(Referer), Key(Origin), Key(ConnectingIp), Key(ForwardedFor), Key(RealIp)}

  /** The headers sent upstream: the inbound ones without the six identifying headers,
      with `User-Agent` kept when the caller sent one and `Sift-Proxy/1.0` otherwise. */
  function ForwardedHeaders(inbound: map<string, string>): (r: map<string, string>)
    ensures !Has(r, Host) && !Has(r, Referer) && !Has(r, Origin)
    ensures !Has(r, ConnectingIp) && !Has(r, ForwardedFor) && !Has(r, RealIp)
    ensures Get(r, UserAgent) == Some(if Has(inbound, UserAgent) then inbound[Key(UserAgent)] else ProxyAgent)
    ensures forall k :: k in inbound && k !in StrippedRequestKeys ==> k in r && r[k] == inbound[k]
    ensures forall k :: k in r ==> k in inbound || k == Key(UserAgent)
  {
    var kept := inbound - StrippedRequestKeys;
    if Has(kept, UserAgent) then kept else kept[Key(UserAgent) := ProxyAgent]
  }

  /** `new Headers(request.headers)`, six `delete` calls and a conditional `set`. */
  method SanitizeRequestHeaders(inbound: map<string, string>) returns (forwarded: map<string, string>)
    requires WellFormed(inbound)
    ensures WellFormed(forwarded)
    ensures forwarded == ForwardedHeaders(inbound)
  {
    var h := new Headers.Copy(inbound);
    h.Delete(Host);
    h.Delete(Referer);
    h.Delete(Origin);
    assert h.entries == inbound - {Key(Host), Key(Referer), Key(Origin)};
    h.Delete(ConnectingIp);
    h.Delete(ForwardedFor);
    h.Delete(RealIp);
    assert h.entries == inbound - StrippedRequestKeys;
    if !h.Contains(UserAgent) {
      h.Set(UserAgent, ProxyAgent);
    }
    forwarded := h.entries;
  }

  /** Cleaning the headers a second time changes nothing. */
  lemma ForwardedHeadersIdempotent(inbound: map<string, string>)
    ensures ForwardedHeaders(ForwardedHeaders(inbound)) == ForwardedHeaders(inbound)
  {
  }

  /** Credentials survive the cleanup: `Authorization` reaches the target unchanged,
      which authenticated git smart-HTTP access depends on. */
  lemma ForwardsAuthorization(inbound: map<string, string>)
    ensures Get(ForwardedHeaders(inbound), "Authorization") == Get(inbound, "Authorization")
  {
  }

  /* ---------- Response headers (src/index.js:142-147) ---------- */

  const FrameOptions := "X-Frame-Options"
  const SecurityPolicy := "Content-Security-Policy"
  const BlockingKeys: set<string> := {Key(FrameOptions), Key(SecurityPolicy)}

  /** The headers of a proxied response: the upstream ones with the CORS headers added
      and `X-Frame-Options` and `Content-Security-Policy` removed. */
  function ProxiedHeaders(upstream: map<string, string>): (r: map<string, string>)
    ensures HasCors(r)
    ensures !Has(r, FrameOptions) && !Has(r, SecurityPolicy)
    ensures forall k :: k in upstream && k !in CorsKeys && k !in BlockingKeys ==> k in r && r[k] == upstream[k]
    ensures r.Keys == upstream.Keys - BlockingKeys + CorsKeys
  {
    WithCors(upstream) - BlockingKeys
  }

  /** The source adds the CORS headers before removing the two blocking headers; since
      no CORS header is one of them, adding them last gives the same headers. */
  lemma ProxiedHeadersOrderIrrelevant(upstream: map<string, string>)
    ensures ProxiedHeaders(upstream) == WithCors(upstream - BlockingKeys)
  {
  }

  /** `new Headers(response.headers)`, `addCorsHeaders`, then two `delete` calls. */
  method RewriteResponseHeaders(upstream: map<string, string>) returns (outgoing: map<string, string>)
    requires WellFormed(upstream)
    ensures WellFormed(outgoing)
    ensures outgoing == ProxiedHeaders(upstream)
  {
    var h := new Headers.Copy(upstream);
    AddCorsHeaders(h);
    h.Delete(FrameOptions);
    h.Delete(SecurityPolicy);
    outgoing := h.entries;
  }

  /* ---------- The handler (src/index.js:84-160) ---------- */

  const MissingUrlMessage := "Missing \"url\" parameter"
  const ProxyErrorPrefix := "Proxy Error: "

  /** `!targetUrl`: the parameter is absent (`null`) or the empty string. */
  predicate MissingTarget(param: Option<string>)
  {
    param.None? || param.value == ""
  }

  /** A request body goes upstream for every method except `GET` and `HEAD`. */
  predicate SendsBody(verb: string)
  {
    verb != "GET" && verb != "HEAD"
  }

  /** The fetch the proxy issues for a request that names its target. */
  function ProxyRequest(req: Request): (out: OutboundRequest)
    requires !MissingTarget(req.urlParam)
    ensures out.url == RepairedUrl(req.urlParam.value) && HasScheme(out.url)
    ensures out.verb == req.verb
    ensures out.headers == ForwardedHeaders(req.headers)
    ensures out.body == (if SendsBody(req.verb) then req.body else None)
  {
    OutboundRequest(RepairedUrl(req.urlParam.value), req.verb, ForwardedHeaders(req.headers),
      if SendsBody(req.verb) then req.body else None)
  }

  /** `handleProxy(request)`, given what the outbound fetch does. `sent` is the fetch the
      handler issues, `None` when it answers without one. */
  method HandleProxy(req: Request, upstream: FetchOutcome) returns (resp: Response, sent: Option<OutboundRequest>)
    requires WellFormed(req.headers)
    requires upstream.Responded? ==> WellFormed(upstream.response.headers)
    ensures HasCors(resp.headers)
    ensures MissingTarget(req.urlParam) ==>
      sent == None && resp == TextResponse(400, MissingUrlMessage, WithCors(map[]))
    ensures !MissingTarget(req.urlParam) ==> sent == Some(ProxyRequest(req))
    ensures !MissingTarget(req.urlParam) && upstream.Threw? ==>
      resp == TextResponse(502, ProxyErrorPrefix + upstream.message, WithCors(map[]))
    ensures !MissingTarget(req.urlParam) && upstream.Responded? ==>
      var up := upstream.response;
      resp == Response(up.status, up.statusText, ProxiedHeaders(up.headers), Streamed(up.body))
  {
    if MissingTarget(req.urlParam) {
      var headers := new Headers();
      AddCorsHeaders(headers);
      resp := TextResponse(400, MissingUrlMessage, headers.entries);
      sent := None;
      return;
    }
    var finalUrl := RepairTargetUrl(req.urlParam.value);
    var forwarded := SanitizeRequestHeaders(req.headers);
    var body := if SendsBody(req.verb) then req.body else None;
    sent := Some(OutboundRequest(finalUrl, req.verb, forwarded, body));
    match upstream
    case Threw(message) =>
      var headers := new Headers();
      AddCorsHeaders(headers);
      resp := TextResponse(502, ProxyErrorPrefix + message, headers.entries);
    case Responded(up) =>
      var outgoing := RewriteResponseHeaders(up.headers);
      resp := Response(up.status, up.statusText, outgoing, Streamed(up.body));
  }
}
