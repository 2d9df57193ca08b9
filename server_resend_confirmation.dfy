/** The resend-confirmation action (internal/server/resend_confirmation.go):
    a POST asks the platform to send a user's confirmation email again. */
module ResendConfirmationHandler {

  import opened Wrappers
  import opened Errors
  import opened ServerCommon
  import NetHttp

  datatype ResendConfirmationVars = ResendConfirmationVars(
    path: string,
    siriusURL: string,
    id: string,
    email: string)

  /** What `resendConfirmation` does, as the calls it makes and how it ends;
      `reply` is what the platform's ResendConfirmation returns. */
  function ResendConfirmation(r: Request, siriusURL: string, reply: MaybeError)
    : (result: (seq<Call>, Outcome<ResendConfirmationVars>))
    // Only a POST calls the platform, once, with the submitted email.
    ensures result.0 != [] <==> r.verb == NetHttp.MethodPost
    ensures result.0 != [] ==> result.0 == [ResendConfirmationCall(PostFormValue(r, "email"))]
    // The page is shown only after a successful POST; it echoes the form.
    ensures result.1.Rendered? <==> r.verb == NetHttp.MethodPost && reply.None?
    ensures result.1.Rendered? ==>
      result.1.status == NetHttp.StatusOK &&
      result.1.vars == ResendConfirmationVars(r.path, siriusURL, PostFormValue(r, "id"), PostFormValue(r, "email"))
    // A GET goes back to the user list; a failure is returned unchanged.
    ensures r.verb == NetHttp.MethodGet ==> result.1 == Returned(RedirectError("/users"))
    ensures r.verb == NetHttp.MethodPost && reply.Some? ==> result.1 == Returned(reply.value)
    ensures r.verb != NetHttp.MethodGet && r.verb != NetHttp.MethodPost ==>
      result.1 == Returned(StatusError(NetHttp.StatusMethodNotAllowed))
  {
    if r.verb == NetHttp.MethodGet then
      ([], Returned(RedirectError("/users")))
    else if r.verb == NetHttp.MethodPost then
      var vars := ResendConfirmationVars(r.path, siriusURL, PostFormValue(r, "id"), PostFormValue(r, "email"));
      var calls := [ResendConfirmationCall(vars.email)];
      if reply.Some? then (calls, Returned(reply.value))
      else (calls, Rendered(NetHttp.StatusOK, vars))
    else
      ([], Returned(StatusError(NetHttp.StatusMethodNotAllowed)))
  }
}
