/** The add-user page (internal/server/add_user.go), open to callers holding
    the "System Admin" role. */
module AddUserHandler {

  import opened Wrappers
  import opened Errors
  import opened ServerCommon
  import NetHttp

  datatype AddUserVars = AddUserVars(path: string, siriusURL: string, errors: ValidationErrors)

  /** What the platform answers the two calls the page can make; the
      caller's profile is reduced to its roles. */
  datatype AddUserReplies = AddUserReplies(myDetailsRoles: Result<seq<string>>, addUser: MaybeError)

  /** The call a POST makes: the four text fields and every "roles" value in
      submitted order. */
  function AddUserCallFor(r: Request): (c: Call)
    ensures c.AddUserCall? && c.roles == PostFormValues(r, "roles")
    ensures c.email == PostFormValue(r, "email") && c.firstname == PostFormValue(r, "firstname")
    ensures c.surname == PostFormValue(r, "surname") && c.organisation == PostFormValue(r, "organisation")
  {
    AddUserCall(PostFormValue(r, "email"), PostFormValue(r, "firstname"), PostFormValue(r, "surname"),
                PostFormValue(r, "organisation"), PostFormValues(r, "roles"))
  }

  /** `addUser`. */
  method AddUser(r: Request, siriusURL: string, replies: AddUserReplies)
    returns (calls: seq<Call>, out: Outcome<AddUserVars>)
    // The profile is fetched first, whatever the method; its error is returned.
    ensures |calls| >= 1 && calls[0] == MyDetailsCall
    ensures replies.myDetailsRoles.Err? ==>
      calls == [MyDetailsCall] && out == Returned(replies.myDetailsRoles.error)
    // Without the role: 403 whatever the method, and no user is added.
    ensures replies.myDetailsRoles.Ok? && SystemAdminRole !in replies.myDetailsRoles.value ==>
      calls == [MyDetailsCall] && out == Returned(StatusError(NetHttp.StatusForbidden))
    ensures replies.myDetailsRoles.Ok? && SystemAdminRole in replies.myDetailsRoles.value ==>
      var vars := AddUserVars(r.path, siriusURL, map[]);
      && (r.verb == NetHttp.MethodGet ==>
            calls == [MyDetailsCall] && out == Rendered(NetHttp.StatusOK, vars))
      && (r.verb == NetHttp.MethodPost ==> calls == [MyDetailsCall, AddUserCallFor(r)])
      // A ValidationError value re-renders with its field errors and 400 ...
      && (r.verb == NetHttp.MethodPost && replies.addUser.Some? &&
          replies.addUser.value.ValidationError? && !replies.addUser.value.byPointer ==>
            out == Rendered(NetHttp.StatusBadRequest, vars.(errors := replies.addUser.value.errors)))
      // ... any other error is returned, and success redirects to the list.
      && (r.verb == NetHttp.MethodPost && replies.addUser.Some? &&
          !(replies.addUser.value.ValidationError? && !replies.addUser.value.byPointer) ==>
            out == Returned(replies.addUser.value))
      && (r.verb == NetHttp.MethodPost && replies.addUser.None? ==> out == Returned(RedirectError("/users")))
      && (r.verb != NetHttp.MethodGet && r.verb != NetHttp.MethodPost ==>
            calls == [MyDetailsCall] && out == Returned(StatusError(NetHttp.StatusMethodNotAllowed)))
  {
    calls := [MyDetailsCall];
    if replies.myDetailsRoles.Err? {
      return calls, Returned(replies.myDetailsRoles.error);
    }

    var permitted := Permitted(replies.myDetailsRoles.value);
    if !permitted {
      return calls, Returned(StatusError(NetHttp.StatusForbidden));
    }

    var vars := AddUserVars(r.path, siriusURL, map[]);

    if r.verb == NetHttp.MethodGet {
      return calls, Rendered(NetHttp.StatusOK, vars);
    } else if r.verb == NetHttp.MethodPost {
      calls := calls + [AddUserCallFor(r)];
      var err := replies.addUser;

      if err.Some? && err.value.ValidationError? && !err.value.byPointer {
        vars := vars.(errors := err.value.errors);
        return calls, Rendered(NetHttp.StatusBadRequest, vars);
      }

      if err.Some? {
        return calls, Returned(err.value);
      }

      return calls, Returned(RedirectError("/users"));
    } else {
      return calls, Returned(StatusError(NetHttp.StatusMethodNotAllowed));
    }
  }
}
