/** The request-building half of the platform API client
    (internal/sirius/client.go): every outgoing request carries the caller's
    cookies, a fixed bypass header and an X-XSRF-TOKEN header mirroring the
    caller's XSRF-TOKEN cookie. */
module SiriusClient {

  import opened Wrappers
  import opened Errors
  import Url

  datatype Cookie = Cookie(name: string, value: string)

  datatype Header = Header(name: string, value: string)

  /** A request body: none, literal text, or a form that Go's
      `url.Values.Encode` serialises (the serialisation is not modelled). */
  datatype Body = NoBody | Text(content: string) | FormEncoded(values: map<string, seq<string>>)

  /** `sirius.Client`: the platform's base URL (the HTTP transport is not
      modelled). */
  datatype Client = Client(baseURL: string)

  /** How the body of a platform response decodes as JSON: to a value, not
      at all because it is empty (`io.EOF`), or not at all for another
      reason (the decoder's error). */
  datatype Decoding<T> = Decoded(value: T) | EmptyBody | Undecodable(err: Error)

  /** What the platform answers one request with: a transport failure
      (`http.Client.Do`'s error) or a status code and a body. */
  datatype Reply<T> = TransportFailure(err: Error) | Response(status: int, body: Decoding<T>)

  const XsrfCookieName: string := "XSRF-TOKEN"
  const BypassHeader: Header := Header("OPG-Bypass-Membrane", "1")

  /** The headers left after `Header.Set` has dropped every earlier value of
      `name`. */
  function WithoutHeader(headers: seq<Header>, name: string): (r: seq<Header>)
    ensures forall h :: h in r <==> h in headers && h.name != name
    ensures (forall i :: 0 <= i < |headers| ==> headers[i].name != name) ==> r == headers
  {
    if headers == [] then []
    else if headers[0].name == name then WithoutHeader(headers[1..], name)
    else [headers[0]] + WithoutHeader(headers[1..], name)
  }

  /** An `*http.Request` under construction; its cookies and headers are
      added in place. */
  class OutgoingRequest {
    const verb: string
    const url: string
    const body: Body
    var cookies: seq<Cookie>
    var headers: seq<Header>

    constructor (verb: string, url: string, body: Body)
      ensures this.verb == verb && this.url == url && this.body == body
      ensures cookies == [] && headers == []
    {
      this.verb := verb;
      this.url := url;
      this.body := body;
      cookies := [];
      headers := [];
    }

    /** `req.AddCookie`. */
    method AddCookie(c: Cookie)
      modifies this
      ensures cookies == old(cookies) + [c] && headers == old(headers)
    {
      cookies := cookies + [c];
    }

    /** `req.Header.Add`: appends a value, keeping earlier ones. */
    method AddHeader(name: string, value: string)
      modifies this
      ensures headers == old(headers) + [Header(name, value)] && cookies == old(cookies)
    {
      headers := headers + [Header(name, value)];
    }

    /** `req.Header.Set`: replaces every earlier value of the header. */
    method SetHeader(name: string, value: string)
      modifies this
      ensures headers == WithoutHeader(old(headers), name) + [Header(name, value)]
      ensures cookies == old(cookies)
    {
      headers := WithoutHeader(headers, name) + [Header(name, value)];
    }
  }

  /** The value of the last cookie named exactly XSRF-TOKEN, or "" when
      there is none: what the cookie loop of `newRequest` leaves behind. */
  function XsrfToken(cookies: seq<Cookie>): string {
    if cookies == [] then ""
    else if cookies[|cookies| - 1].name == XsrfCookieName then cookies[|cookies| - 1].value
    else XsrfToken(cookies[..|cookies| - 1])
  }

  /** The XSRF token is "" when no cookie is named XSRF-TOKEN, and otherwise
      the value of a cookie so named after which no other one is. */
  lemma {:induction false} XsrfTokenIsLastMatch(cookies: seq<Cookie>)
    ensures (forall i :: 0 <= i < |cookies| ==> cookies[i].name != XsrfCookieName) ==>
      XsrfToken(cookies) == ""
    ensures (exists i :: 0 <= i < |cookies| && cookies[i].name == XsrfCookieName) ==>
      exists i :: 0 <= i < |cookies| && cookies[i].name == XsrfCookieName &&
        cookies[i].value == XsrfToken(cookies) &&
        forall j :: i < j < |cookies| ==> cookies[j].name != XsrfCookieName
  {
    if cookies != [] {
      var n := |cookies| - 1;
      var front := cookies[..n];
      XsrfTokenIsLastMatch(front);
      if cookies[n].name != XsrfCookieName {
        if exists i :: 0 <= i < |cookies| && cookies[i].name == XsrfCookieName {
          var i :| 0 <= i < |cookies| && cookies[i].name == XsrfCookieName;
          assert front[i].name == XsrfCookieName;
          var k :| 0 <= k < |front| && front[k].name == XsrfCookieName &&
            front[k].value == XsrfToken(front) &&
            forall j :: k < j < |front| ==> front[j].name != XsrfCookieName;
          assert cookies[k] == front[k];
        }
        assert forall i :: 0 <= i < n ==> cookies[i] == front[i];
      }
    }
  }

  /** `Client.newRequest`: a request to baseURL + path that carries every
      cookie in input order, the bypass header and the query-unescaped XSRF
      token; an XSRF token that does not unescape yields ErrUnauthorized and
      no request. */
  method NewRequest(client: Client, verb: string, path: string, body: Body, cookies: seq<Cookie>)
    returns (req: OutgoingRequest?, err: MaybeError)
    ensures Url.QueryUnescape(XsrfToken(cookies)).None? ==> req == null && err == Some(ErrUnauthorized)
    ensures Url.QueryUnescape(XsrfToken(cookies)).Some? ==>
      err == None && req != null && fresh(req) &&
      req.verb == verb && req.url == client.baseURL + path && req.body == body &&
      req.cookies == cookies &&
      req.headers == [BypassHeader, Header("X-XSRF-TOKEN", Url.QueryUnescape(XsrfToken(cookies)).value)]
  {
    var r := new OutgoingRequest(verb, client.baseURL + path, body);
    var xsrfToken := "";
    var i := 0;
    while i < |cookies|
      invariant 0 <= i <= |cookies|
      invariant r.cookies == cookies[..i] && r.headers == []
      invariant xsrfToken == XsrfToken(cookies[..i])
      invariant r.verb == verb && r.url == client.baseURL + path && r.body == body
    {
      var c := cookies[i];
      r.AddCookie(c);
      if c.name == XsrfCookieName {
        xsrfToken := c.value;
      }
      assert cookies[..i + 1][..i] == cookies[..i];
      i := i + 1;
    }
    assert cookies[..i] == cookies;
    var headerToken := Url.QueryUnescape(xsrfToken);
    if headerToken.None? {
      return null, Some(ErrUnauthorized);
    }
    r.AddHeader(BypassHeader.name, BypassHeader.value);
    r.AddHeader("X-XSRF-TOKEN", headerToken.value);
    return r, None;
  }
}
