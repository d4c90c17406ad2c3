/** `network/AuthInterceptor.kt`: every outgoing request proceeds, with an
    `Authorization: Bearer <token>` header appended when the session holds a token at
    the moment of interception. */
module Network {
  import opened Wrappers
  import opened Session

  datatype Header = Header(name: string, value: string)

  /** The parts of an OkHttp request the interceptor can touch. */
  datatype HttpRequest = HttpRequest(method_: string, url: string, headers: seq<Header>, body: string)

  const AuthorizationName := "Authorization"
  const BearerPrefix := "Bearer "

  /** The header value built for a token: `"Bearer $token"`. */
  function BearerValue(token: string): (r: string)
    ensures |r| == |BearerPrefix| + |token|
    ensures r[..|BearerPrefix|] == BearerPrefix && r[|BearerPrefix|..] == token
  {
    BearerPrefix + token
  }

  /** The token carried by a header value, if it has the bearer form. */
  function BearerToken(value: string): (r: Option<string>)
    ensures r.Some? <==> |value| >= |BearerPrefix| && value[..|BearerPrefix|] == BearerPrefix
  {
    if |value| >= |BearerPrefix| && value[..|BearerPrefix|] == BearerPrefix
    then Some(value[|BearerPrefix|..]) else None
  }

  /** The bearer value gives back the token it was built from. */
  lemma BearerRoundTrip(token: string)
    ensures BearerToken(BearerValue(token)) == Some(token)
  {
    assert BearerValue(token)[..|BearerPrefix|] == BearerPrefix;
    assert BearerValue(token)[|BearerPrefix|..] == token;
  }

  /** The request `intercept` passes to `chain.proceed`. `addHeader` appends, so the
      original headers stay in place and in order. */
  function Intercept(req: HttpRequest, token: Option<string>): (r: HttpRequest)
    ensures r.method_ == req.method_ && r.url == req.url && r.body == req.body
    ensures token.None? ==> r == req
    ensures token.Some? ==> r.headers == req.headers + [Header(AuthorizationName, BearerValue(token.value))]
  {
    match token
    case None => req
    case Some(t) => req.(headers := req.headers + [Header(AuthorizationName, BearerValue(t))])
  }

  /** The values of the headers with a given name, in order. */
  function ValuesOf(headers: seq<Header>, name: string): seq<string>
    decreases |headers|
  {
    if headers == [] then []
    else (if headers[0].name == name then [headers[0].value] else []) + ValuesOf(headers[1..], name)
  }

  lemma {:induction false} ValuesOfAppend(a: seq<Header>, b: seq<Header>, name: string)
    ensures ValuesOf(a + b, name) == ValuesOf(a, name) + ValuesOf(b, name)
    decreases |a|
  {
    if a != [] {
      assert (a + b)[1..] == a[1..] + b;
      ValuesOfAppend(a[1..], b, name);
    } else {
      assert a + b == b;
    }
  }

  /** With a token, exactly one `Authorization` value is added, the bearer value of that
      token, after any the request already had; every other header name keeps its values.
      Without a token nothing is added. */
  lemma AuthorizationAdded(req: HttpRequest, token: Option<string>, name: string)
    ensures ValuesOf(Intercept(req, token).headers, AuthorizationName) ==
      ValuesOf(req.headers, AuthorizationName) + (if token.Some? then [BearerValue(token.value)] else [])
    ensures name != AuthorizationName ==> ValuesOf(Intercept(req, token).headers, name) == ValuesOf(req.headers, name)
  {
    if token.Some? {
      var h := Header(AuthorizationName, BearerValue(token.value));
      ValuesOfAppend(req.headers, [h], AuthorizationName);
      ValuesOfAppend(req.headers, [h], name);
      assert ValuesOf([h], name) == (if h.name == name then [h.value] else []) + ValuesOf([], name);
      assert ValuesOf([h], AuthorizationName) == [h.value] + ValuesOf([], AuthorizationName);
    }
  }

  /** Removing the appended header gives back the original request. */
  lemma InterceptIsReversible(req: HttpRequest, token: string)
    ensures var r := Intercept(req, Some(token));
      r.headers[|r.headers| - 1] == Header(AuthorizationName, BearerValue(token))
      && r.(headers := r.headers[..|r.headers| - 1]) == req
  {
    var r := Intercept(req, Some(token));
    assert r.headers[..|r.headers| - 1] == req.headers;
  }

  /** `intercept` itself: the token is read from the session when the request passes,
      and the request always proceeds. */
  method InterceptWith(session: SessionManager, req: HttpRequest) returns (proceeded: HttpRequest)
    ensures proceeded == Intercept(req, session.token)
    ensures session.token.None? ==> proceeded == req
  {
    var builder := req;
    match session.token {
      case Some(t) => builder := builder.(headers := builder.headers + [Header(AuthorizationName, BearerValue(t))]);
      case None =>
    }
    proceeded := builder;
  }
}
