/** ClientConfig and the default headers it yields (src/client.rs, ClientConfig). */
module Config {
  import opened Errors

  /** A parsed URL, kept as its serialisation; parsing and joining are done by
      the `url` crate and enter the model as function parameters. */
  datatype Url = Url(serialization: string)

  const DefaultBaseUrl: Url := Url("https://openrouter.ai/api/v1/")
  const DefaultTimeoutSecs: nat := 30

  /** The request timeout (a Duration in the source) is a number of seconds. */
  datatype ClientConfig = ClientConfig(
    apiKey: Option<string>,
    baseUrl: Url,
    httpReferer: Option<string>,
    siteTitle: Option<string>,
    timeoutSecs: nat)

  /** A HeaderMap: each name maps to the value last inserted under it. Names
      are kept in the lower-case form the map normalises them to. */
  type HeaderMap = map<string, string>

  const AuthorizationHeader := "authorization"
  const ContentTypeHeader := "content-type"
  const RefererHeader := "referer"
  const TitleHeader := "x-title"
  const JsonContentType := "application/json"
  const BearerPrefix := "Bearer "

  /** A character HeaderValue::from_str accepts: every byte of its UTF-8
      encoding is a tab or at least 32 and not DEL, so any non-ASCII char is fine. */
  predicate IsHeaderValueChar(c: char) {
    c == '\t' || (' ' <= c && c != '\U{7F}')
  }

  predicate IsHeaderValue(s: string) {
    forall i :: 0 <= i < |s| ==> IsHeaderValueChar(s[i])
  }

  /** The optional fields that build_headers turns into header values are all
      ones HeaderValue::from_str accepts; otherwise build_headers panics. */
  predicate HeaderValuesValid(c: ClientConfig) {
    (c.apiKey.Some? ==> IsHeaderValue(BearerPrefix + c.apiKey.value))
    && (c.httpReferer.Some? ==> IsHeaderValue(c.httpReferer.value))
    && (c.siteTitle.Some? ==> IsHeaderValue(c.siteTitle.value))
  }

  /** The value, if any, that a configuration gives the header `name`. */
  function HeaderFor(c: ClientConfig, name: string): Option<string> {
    if name == ContentTypeHeader then Some(JsonContentType)
    else if name == AuthorizationHeader then
      (if c.apiKey.Some? then Some(BearerPrefix + c.apiKey.value) else None)
    else if name == RefererHeader then c.httpReferer
    else if name == TitleHeader then c.siteTitle
    else None
  }

  /** The headers a configuration calls for: one entry per header name that
      HeaderFor gives a value. */
  ghost function Headers(c: ClientConfig): HeaderMap {
    map name | name in {ContentTypeHeader, AuthorizationHeader, RefererHeader, TitleHeader}
                 && HeaderFor(c, name).Some?
      :: HeaderFor(c, name).value
  }

  /** ClientConfig::build_headers: starts from an empty map and inserts the
      content type, then the optional authorization, referer and title. */
  method BuildHeaders(c: ClientConfig) returns (headers: HeaderMap)
    requires HeaderValuesValid(c)
    ensures headers == Headers(c)
  {
    headers := map[];
    if c.apiKey.Some? {
      headers := headers[AuthorizationHeader := BearerPrefix + c.apiKey.value];
    }
    headers := headers[ContentTypeHeader := JsonContentType];
    if c.httpReferer.Some? {
      headers := headers[RefererHeader := c.httpReferer.value];
    }
    if c.siteTitle.Some? {
      headers := headers[TitleHeader := c.siteTitle.value];
    }
  }

  /** The headers are exactly: the JSON content type, always; a bearer token
      exactly when there is an API key; the referer and the site title exactly
      when they are set; and nothing else. */
  lemma HeadersExact(c: ClientConfig)
    ensures ContentTypeHeader in Headers(c) && Headers(c)[ContentTypeHeader] == JsonContentType
    ensures AuthorizationHeader in Headers(c) <==> c.apiKey.Some?
    ensures c.apiKey.Some? ==> Headers(c)[AuthorizationHeader] == BearerPrefix + c.apiKey.value
    ensures RefererHeader in Headers(c) <==> c.httpReferer.Some?
    ensures c.httpReferer.Some? ==> Headers(c)[RefererHeader] == c.httpReferer.value
    ensures TitleHeader in Headers(c) <==> c.siteTitle.Some?
    ensures c.siteTitle.Some? ==> Headers(c)[TitleHeader] == c.siteTitle.value
    ensures Headers(c).Keys <= {ContentTypeHeader, AuthorizationHeader, RefererHeader, TitleHeader}
  {
  }

  /** Header values depend only on the key, referer and title: changing the
      base URL or the timeout leaves the headers as they were. */
  lemma HeadersIgnoreUrlAndTimeout(c: ClientConfig, u: Url, t: nat)
    ensures Headers(c.(baseUrl := u, timeoutSecs := t)) == Headers(c)
  {
  }
}
