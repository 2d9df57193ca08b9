/** The change-password page (internal/server/change_password.go). */
module ChangePasswordHandler {

  import opened Wrappers
  import opened Errors
  import opened ServerCommon
  import NetHttp

  datatype ChangePasswordVars = ChangePasswordVars(
    path: string,
    siriusURL: string,
    xsrfToken: string,
    success: bool,
    errors: ValidationErrors)

  /** The field error a platform rejection produces: its text, under the
      current-password field. */
  function CurrentPasswordError(text: string): (errs: ValidationErrors)
    ensures errs.Keys == {"currentpassword"} && errs["currentpassword"] == map["" := text]
  {
    map["currentpassword" := map["" := text]]
  }

  /** `changePassword`; `reply` is what the platform's ChangePassword returns. */
  method ChangePassword(r: Request, siriusURL: string, reply: MaybeError)
    returns (calls: seq<Call>, out: Outcome<ChangePasswordVars>)
    // GET renders the empty form with the context's token and calls nothing.
    ensures r.verb == NetHttp.MethodGet ==>
      calls == [] &&
      out == Rendered(NetHttp.StatusOK, ChangePasswordVars(r.path, siriusURL, r.contextXsrfToken, false, map[]))
    // POST passes the three fields as current, new and confirmation.
    ensures r.verb == NetHttp.MethodPost ==>
      calls == [ChangePasswordCall(PostFormValue(r, "currentpassword"), PostFormValue(r, "password1"),
                                   PostFormValue(r, "password2"))]
    // ErrUnauthorized is returned although it is a ClientError itself ...
    ensures r.verb == NetHttp.MethodPost && reply == Some(ErrUnauthorized) ==> out == Returned(ErrUnauthorized)
    // ... every other ClientError is shown under the current password with 400 ...
    ensures (r.verb == NetHttp.MethodPost && reply.Some? && reply.value.ClientError? &&
             reply.value != ErrUnauthorized) ==>
      out == Rendered(NetHttp.StatusBadRequest, ChangePasswordVars(r.path, siriusURL, r.contextXsrfToken, false,
                                                                   CurrentPasswordError(reply.value.Text())))
    // ... any other error is returned, and success is shown on the page.
    ensures r.verb == NetHttp.MethodPost && reply.Some? && !reply.value.ClientError? ==> out == Returned(reply.value)
    ensures r.verb == NetHttp.MethodPost && reply.None? ==>
      out == Rendered(NetHttp.StatusOK, ChangePasswordVars(r.path, siriusURL, r.contextXsrfToken, true, map[]))
    ensures r.verb != NetHttp.MethodGet && r.verb != NetHttp.MethodPost ==>
      calls == [] && out == Returned(StatusError(NetHttp.StatusMethodNotAllowed))
  {
    var vars := ChangePasswordVars(r.path, siriusURL, r.contextXsrfToken, false, map[]);
    calls := [];

    if r.verb == NetHttp.MethodGet {
      return calls, Rendered(NetHttp.StatusOK, vars);
    } else if r.verb == NetHttp.MethodPost {
      var currentPassword := PostFormValue(r, "currentpassword");
      var password1 := PostFormValue(r, "password1");
      var password2 := PostFormValue(r, "password2");

      calls := calls + [ChangePasswordCall(currentPassword, password1, password2)];
      var err := reply;

      if err == Some(ErrUnauthorized) {
        return calls, Returned(err.value);
      }

      if err.Some? && err.value.ClientError? {
        vars := vars.(errors := CurrentPasswordError(err.value.Text()));
        return calls, Rendered(NetHttp.StatusBadRequest, vars);
      }

      if err.Some? {
        return calls, Returned(err.value);
      }

      vars := vars.(success := true);
      return calls, Rendered(NetHttp.StatusOK, vars);
    } else {
      return calls, Returned(StatusError(NetHttp.StatusMethodNotAllowed));
    }
  }
}
