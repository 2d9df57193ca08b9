/** The platform client's password change (internal/sirius/change_password.go). */
module SiriusChangePassword {

  import opened Wrappers
  import opened Errors
  import opened SiriusClient
  import NetHttp
  import Url

  const ChangePasswordPath: string := "/auth/change-password"

  /** The body the platform sends with a rejected change: its `errors` field. */
  datatype PasswordProblem = PasswordProblem(errors: string)

  /** The form posted to the platform: the current password, the new one and
      its confirmation, one value each. */
  function ChangePasswordForm(oldPassword: string, newPassword: string, newPasswordConfirm: string)
    : (form: map<string, seq<string>>)
    ensures form.Keys == {"existingPassword", "password", "confirmPassword"}
    ensures form["existingPassword"] == [oldPassword]
    ensures form["password"] == [newPassword]
    ensures form["confirmPassword"] == [newPasswordConfirm]
  {
    map["existingPassword" := [oldPassword], "password" := [newPassword], "confirmPassword" := [newPasswordConfirm]]
  }

  /** How `ChangePassword` turns the platform's status and body into its
      error: 401 is ErrUnauthorized, 200 is success, and any other status is a
      ClientError carrying the body's `errors` field when the body decodes and
      the generic non-2XX error when it does not. */
  function ClassifyChangePassword(status: int, body: Decoding<PasswordProblem>): (r: MaybeError)
    ensures r.None? <==> status == NetHttp.StatusOK
    ensures status == NetHttp.StatusUnauthorized ==> r == Some(ErrUnauthorized)
    ensures status != NetHttp.StatusUnauthorized && status != NetHttp.StatusOK ==>
      (body.Decoded? ==> r == Some(ClientError(body.value.errors))) &&
      (!body.Decoded? ==> r == Some(NonSuccessStatus(status)))
  {
    if status == NetHttp.StatusUnauthorized then Some(ErrUnauthorized)
    else if status != NetHttp.StatusOK then
      match body
      case Decoded(v) => Some(ClientError(v.errors))
      case _ => Some(NonSuccessStatus(status))
    else None
  }

  /** A rejection whose `errors` text is "unauthorized" cannot be told apart
      from a 401: both come back as ErrUnauthorized. */
  lemma RejectionTextUnauthorizedIsUnauthorized(status: int)
    requires status != NetHttp.StatusOK
    ensures ClassifyChangePassword(status, Decoded(PasswordProblem("unauthorized"))) == Some(ErrUnauthorized)
  {
  }

  /** `Client.ChangePassword`: a form-encoded POST to the change-password
      path, classified as above. */
  method ChangePassword(client: Client, cookies: seq<Cookie>, oldPassword: string, newPassword: string,
                        newPasswordConfirm: string, reply: Reply<PasswordProblem>)
    returns (sent: OutgoingRequest?, err: MaybeError)
    ensures sent != null ==>
      && fresh(sent) && sent.verb == NetHttp.MethodPost
      && sent.url == client.baseURL + ChangePasswordPath
      && sent.body == FormEncoded(ChangePasswordForm(oldPassword, newPassword, newPasswordConfirm))
      && sent.cookies == cookies
      && |sent.headers| == 3 && sent.headers[0] == BypassHeader
      && sent.headers[1].name == "X-XSRF-TOKEN"
      && sent.headers[2] == Header("Content-Type", "application/x-www-form-urlencoded")
    // The request is refused exactly when the XSRF token does not unescape.
    ensures sent == null <==> Url.QueryUnescape(XsrfToken(cookies)).None?
    ensures sent != null ==> sent.headers[1] == Header("X-XSRF-TOKEN", Url.QueryUnescape(XsrfToken(cookies)).value)
    ensures sent == null ==> err == Some(ErrUnauthorized)
    ensures sent != null && reply.TransportFailure? ==> err == Some(reply.err)
    ensures sent != null && reply.Response? ==> err == ClassifyChangePassword(reply.status, reply.body)
  {
    var body := FormEncoded(ChangePasswordForm(oldPassword, newPassword, newPasswordConfirm));
    sent, err := NewRequest(client, NetHttp.MethodPost, ChangePasswordPath, body, cookies);
    if err.Some? {
      return;
    }
    sent.SetHeader("Content-Type", "application/x-www-form-urlencoded");
    match reply
    case TransportFailure(te) =>
      err := Some(te);
    case Response(status, problem) =>
      err := ClassifyChangePassword(status, problem);
  }
}
