/** The platform client's "my details" endpoints (internal/sirius/my_details.go):
    fetching the caller's profile and changing the caller's telephone number. */
module SiriusMyDetails {

  import opened Wrappers
  import opened Errors
  import opened SiriusClient
  import Strconv
  import Url
  import NetHttp

  /** `sirius.MyDetails`; a team is reduced to its display name. */
  datatype MyDetails = MyDetails(
    id: int,
    name: string,
    phoneNumber: string,
    teams: seq<string>,
    displayName: string,
    deleted: bool,
    email: string,
    firstname: string,
    surname: string,
    roles: seq<string>,
    locked: bool,
    suspended: bool)

  /** The zero value Go returns beside an error. */
  const ZeroDetails: MyDetails := MyDetails(0, "", "", [], "", false, "", "", "", [], false, false)

  const CurrentUserPath: string := "/api/v1/users/current"

  /** How `MyDetails` turns the platform's status and body into its result:
      401 is ErrUnauthorized, any other non-200 status the generic non-2XX
      error, and 200 the decoded details or the decoder's error. */
  function ClassifyMyDetails(status: int, body: Decoding<MyDetails>): (r: (MyDetails, MaybeError))
    ensures r.1.Some? ==> r.0 == ZeroDetails
    ensures status == NetHttp.StatusUnauthorized ==> r.1 == Some(ErrUnauthorized)
    ensures status != NetHttp.StatusUnauthorized && status != NetHttp.StatusOK ==>
      r.1 == Some(NonSuccessStatus(status))
    ensures status == NetHttp.StatusOK ==>
      (r.1.None? <==> body.Decoded?) &&
      (body.Decoded? ==> r.0 == body.value) &&
      (body.EmptyBody? ==> r.1 == Some(EOF)) &&
      (body.Undecodable? ==> r.1 == Some(body.err))
  {
    if status == NetHttp.StatusUnauthorized then (ZeroDetails, Some(ErrUnauthorized))
    else if status != NetHttp.StatusOK then (ZeroDetails, Some(NonSuccessStatus(status)))
    else match body
      case Decoded(v) => (v, None)
      case EmptyBody => (ZeroDetails, Some(EOF))
      case Undecodable(e) => (ZeroDetails, Some(e))
  }

  /** `Client.MyDetails`: a GET of the current user, classified as above;
      a request that cannot be built or sent returns its error with the zero
      details. */
  method FetchMyDetails(client: Client, cookies: seq<Cookie>, reply: Reply<MyDetails>)
    returns (sent: OutgoingRequest?, v: MyDetails, err: MaybeError)
    ensures sent != null ==>
      && fresh(sent) && sent.verb == NetHttp.MethodGet
      && sent.url == client.baseURL + CurrentUserPath && sent.body == NoBody
      && sent.cookies == cookies
      && |sent.headers| == 2 && sent.headers[0] == BypassHeader && sent.headers[1].name == "X-XSRF-TOKEN"
    // The request is refused exactly when the XSRF token does not unescape.
    ensures sent == null <==> Url.QueryUnescape(XsrfToken(cookies)).None?
    ensures sent != null ==> sent.headers[1] == Header("X-XSRF-TOKEN", Url.QueryUnescape(XsrfToken(cookies)).value)
    ensures sent == null ==> err == Some(ErrUnauthorized) && v == ZeroDetails
    ensures sent != null && reply.TransportFailure? ==> err == Some(reply.err) && v == ZeroDetails
    ensures sent != null && reply.Response? ==> (v, err) == ClassifyMyDetails(reply.status, reply.body)
  {
    var e;
    sent, e := NewRequest(client, NetHttp.MethodGet, CurrentUserPath, NoBody, cookies);
    if e.Some? {
      return null, ZeroDetails, e;
    }
    match reply
    case TransportFailure(te) =>
      v, err := ZeroDetails, Some(te);
    case Response(status, body) =>
      var r := ClassifyMyDetails(status, body);
      v, err := r.0, r.1;
  }

  /** The problem document the platform sends with a rejected edit. */
  datatype Problem = Problem(status: int, detail: string, validationErrors: ValidationErrors)

  /** The path of the telephone-number update for user `id`. */
  function EditMyDetailsPath(id: int): string {
    "/api/v1/users/" + Strconv.Itoa(id) + "/updateTelephoneNumber"
  }

  /** The JSON body of the telephone-number update: the number is spliced in
      between literal quotes, without escaping. */
  function EditMyDetailsBody(phoneNumber: string): string {
    "{\"phoneNumber\":\"" + phoneNumber + "\"}"
  }

  /** The path names the user it updates: the segment between the fixed
      parts parses back to `id`. */
  lemma EditMyDetailsPathNamesUser(id: int)
    requires Strconv.InInt64(id)
    ensures var path := EditMyDetailsPath(id);
      var head := "/api/v1/users/";
      var tail := "/updateTelephoneNumber";
      |head| + |tail| <= |path| &&
      path[..|head|] == head && path[|path| - |tail|..] == tail &&
      Strconv.Atoi(path[|head|..|path| - |tail|]) == Some(id)
  {
    var head := "/api/v1/users/";
    var tail := "/updateTelephoneNumber";
    var path := EditMyDetailsPath(id);
    assert path[|head|..|path| - |tail|] == Strconv.Itoa(id);
    Strconv.AtoiItoa(id);
  }

  /** The phone number sits verbatim, unescaped, between the fixed prefix
      and suffix. */
  lemma EditMyDetailsBodyIsVerbatim(phoneNumber: string)
    ensures var b := EditMyDetailsBody(phoneNumber);
      |b| == |phoneNumber| + 18 &&
      b[..16] == "{\"phoneNumber\":\"" && b[16..16 + |phoneNumber|] == phoneNumber &&
      b[16 + |phoneNumber|..] == "\"}"
  {
  }

  /** How `EditMyDetails` turns the platform's status and body into its
      error: 401 is ErrUnauthorized whatever the body, 200 is success, and
      any other status is a `*ValidationError` carrying the problem's detail
      and field errors when the body decodes, the generic non-2XX error when
      the body is empty, and the decoder's error otherwise. */
  function ClassifyEditMyDetails(status: int, body: Decoding<Problem>): (r: MaybeError)
    ensures r.None? <==> status == NetHttp.StatusOK
    ensures status == NetHttp.StatusUnauthorized ==> r == Some(ErrUnauthorized)
    ensures status != NetHttp.StatusUnauthorized && status != NetHttp.StatusOK ==>
      (body.Decoded? ==>
        r == Some(ValidationError(body.value.detail, body.value.validationErrors, true))) &&
      (body.EmptyBody? ==> r == Some(NonSuccessStatus(status))) &&
      (body.Undecodable? ==> r == Some(body.err))
  {
    if status == NetHttp.StatusUnauthorized then Some(ErrUnauthorized)
    else if status != NetHttp.StatusOK then
      match body
      case Decoded(p) => Some(ValidationError(p.detail, p.validationErrors, true))
      case EmptyBody => Some(NonSuccessStatus(status))
      case Undecodable(e) => Some(e)
    else None
  }

  /** `Client.EditMyDetails`: a PUT of the JSON body to the user's
      telephone-number path with a JSON content type, classified as above. */
  method EditMyDetails(client: Client, cookies: seq<Cookie>, id: int, phoneNumber: string, reply: Reply<Problem>)
    returns (sent: OutgoingRequest?, err: MaybeError)
    ensures sent != null ==>
      && fresh(sent) && sent.verb == NetHttp.MethodPut
      && sent.url == client.baseURL + EditMyDetailsPath(id)
      && sent.body == Text(EditMyDetailsBody(phoneNumber)) && sent.cookies == cookies
      && |sent.headers| == 3 && sent.headers[0] == BypassHeader
      && sent.headers[1].name == "X-XSRF-TOKEN"
      && sent.headers[2] == Header("Content-type", "application/json")
    ensures sent == null <==> Url.QueryUnescape(XsrfToken(cookies)).None?
    ensures sent != null ==> sent.headers[1] == Header("X-XSRF-TOKEN", Url.QueryUnescape(XsrfToken(cookies)).value)
    ensures sent == null ==> err == Some(ErrUnauthorized)
    ensures sent != null && reply.TransportFailure? ==> err == Some(reply.err)
    ensures sent != null && reply.Response? ==> err == ClassifyEditMyDetails(reply.status, reply.body)
  {
    var body := Text(EditMyDetailsBody(phoneNumber));
    sent, err := NewRequest(client, NetHttp.MethodPut, EditMyDetailsPath(id), body, cookies);
    if err.Some? {
      return;
    }
    sent.AddHeader("Content-type", "application/json");
    match reply
    case TransportFailure(te) =>
      err := Some(te);
    case Response(status, problem) =>
      err := ClassifyEditMyDetails(status, problem);
  }
}
