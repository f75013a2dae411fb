/** The CORS headers that every response of the worker carries (src/index.js:7-13). */
module Cors {
  import opened Wrappers
  import opened HeaderMaps

  const AllowOrigin := "Access-Control-Allow-Origin"
  const AllowMethods := "Access-Control-Allow-Methods"
  const AllowHeaders := "Access-Control-Allow-Headers"
  const ExposeHeaders := "Access-Control-Expose-Headers"
  const MaxAge := "Access-Control-Max-Age"

  const AnyOrigin := "*"
  const AllowedMethods := "GET, HEAD, POST, OPTIONS"
  const AllowedHeaders := "Content-Type, Authorization, X-Requested-With, Range, Git-Protocol, User-Agent, If-None-Match, If-Modified-Since, Cache-Control, Pragma"
  const ExposedHeaders := "*"
  const MaxAgeSeconds := "86400"

  /** The stored keys of the five CORS headers. */
  const CorsKeys: set<string> := {Key(AllowOrigin), Key(AllowMethods), Key(AllowHeaders), Key(ExposeHeaders), Key(MaxAge)}

  /** The five header names stay distinct once lower-cased. */
  lemma CorsKeysDistinct()
    ensures Key(AllowOrigin) != Key(AllowMethods) && Key(AllowOrigin) != Key(AllowHeaders)
    ensures Key(AllowOrigin) != Key(ExposeHeaders) && Key(AllowOrigin) != Key(MaxAge)
    ensures Key(AllowMethods) != Key(AllowHeaders) && Key(AllowMethods) != Key(ExposeHeaders)
    ensures Key(AllowMethods) != Key(MaxAge) && Key(AllowHeaders) != Key(ExposeHeaders)
    ensures Key(AllowHeaders) != Key(MaxAge) && Key(ExposeHeaders) != Key(MaxAge)
  {
    assert Key(AllowMethods)[21] == 'm' && Key(AllowHeaders)[21] == 'h';
  }

  /** Every CORS header is bound to its fixed value. */
  predicate HasCors(h: map<string, string>)
  {
    && Get(h, AllowOrigin) == Some(AnyOrigin)
    && Get(h, AllowMethods) == Some(AllowedMethods)
    && Get(h, AllowHeaders) == Some(AllowedHeaders)
    && Get(h, ExposeHeaders) == Some(ExposedHeaders)
    && Get(h, MaxAge) == Some(MaxAgeSeconds)
  }

  /** The header map `addCorsHeaders` leaves behind: the five CORS headers bound to their
      fixed values, overriding any earlier binding, and every other header untouched. */
  function WithCors(h: map<string, string>): (r: map<string, string>)
    ensures HasCors(r)
    ensures r.Keys == h.Keys + CorsKeys
    ensures forall k :: k in h && k !in CorsKeys ==> r[k] == h[k]
  {
    CorsKeysDistinct();
    h[Key(AllowOrigin) := AnyOrigin]
     [Key(AllowMethods) := AllowedMethods]
     [Key(AllowHeaders) := AllowedHeaders]
     [Key(ExposeHeaders) := ExposedHeaders]
     [Key(MaxAge) := MaxAgeSeconds]
  }

  /** Adding the CORS headers twice is the same as adding them once. */
  lemma WithCorsIdempotent(h: map<string, string>)
    ensures WithCors(WithCors(h)) == WithCors(h)
  {
  }

  /** A map that already carries the CORS headers is left unchanged by adding them. */
  lemma WithCorsFixesHasCors(h: map<string, string>)
    ensures WithCors(h) == h <==> HasCors(h)
  {
  }

  /** `addCorsHeaders(headers)`: five `set` calls on the header object. */
  method AddCorsHeaders(headers: Headers)
    requires headers.Valid()
    modifies headers
    ensures headers.Valid()
    ensures headers.entries == WithCors(old(headers.entries))
  {
    headers.Set(AllowOrigin, AnyOrigin);
    headers.Set(AllowMethods, AllowedMethods);
    headers.Set(AllowHeaders, AllowedHeaders);
    headers.Set(ExposeHeaders, ExposedHeaders);
    headers.Set(MaxAge, MaxAgeSeconds);
  }
}
