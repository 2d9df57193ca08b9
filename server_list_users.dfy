/** The user search page (internal/server/list_users.go), open to callers
    holding the "System Admin" role. */
module ListUsersHandler {

  import opened Wrappers
  import opened Errors
  import opened SiriusEntities
  import opened ServerCommon
  import Strings
  import NetHttp

  datatype ListUsersVars = ListUsersVars(
    path: string,
    siriusURL: string,
    users: seq<User>,
    search: string,
    errors: ValidationErrors)

  /** What the platform answers the two calls the page can make; the
      caller's profile is reduced to its roles. */
  datatype ListUsersReplies = ListUsersReplies(myDetailsRoles: Result<seq<string>>, searchUsers: Result<seq<User>>)

  /** `listUsers`. */
  method ListUsers(r: Request, siriusURL: string, replies: ListUsersReplies)
    returns (calls: seq<Call>, out: Outcome<ListUsersVars>)
    // Anything but GET is 405, before any call.
    ensures r.verb != NetHttp.MethodGet ==>
      calls == [] && out == Returned(StatusError(NetHttp.StatusMethodNotAllowed))
    ensures r.verb == NetHttp.MethodGet ==> |calls| >= 1 && calls[0] == MyDetailsCall
    // A failed profile fetch is returned unchanged.
    ensures r.verb == NetHttp.MethodGet && replies.myDetailsRoles.Err? ==>
      calls == [MyDetailsCall] && out == Returned(replies.myDetailsRoles.error)
    // Without the role: 403 and no search.
    ensures (r.verb == NetHttp.MethodGet && replies.myDetailsRoles.Ok? &&
             SystemAdminRole !in replies.myDetailsRoles.value) ==>
      calls == [MyDetailsCall] && out == Returned(StatusError(NetHttp.StatusForbidden))
    // With the role: one search with the literal term iff it has three bytes.
    ensures (r.verb == NetHttp.MethodGet && replies.myDetailsRoles.Ok? &&
             SystemAdminRole in replies.myDetailsRoles.value) ==>
      var search := FormValue(r, "search");
      var searches := Strings.ByteLen(search) >= MinSearchBytes;
      && calls == [MyDetailsCall] + (if searches then [SearchUsersCall(search)] else [])
      && (searches && replies.searchUsers.Err? ==> out == Returned(replies.searchUsers.error))
      && (!searches || replies.searchUsers.Ok? ==>
            out == Rendered(NetHttp.StatusOK, ListUsersVars(
              r.path, siriusURL,
              if searches then replies.searchUsers.value else [],
              search,
              if !searches && search != "" then SearchTooShort else map[])))
  {
    if r.verb != NetHttp.MethodGet {
      return [], Returned(StatusError(NetHttp.StatusMethodNotAllowed));
    }

    calls := [MyDetailsCall];
    if replies.myDetailsRoles.Err? {
      return calls, Returned(replies.myDetailsRoles.error);
    }

    var permitted := Permitted(replies.myDetailsRoles.value);
    if !permitted {
      return calls, Returned(StatusError(NetHttp.StatusForbidden));
    }

    var search := FormValue(r, "search");
    var vars := ListUsersVars(r.path, siriusURL, [], search, map[]);

    if Strings.ByteLen(search) >= MinSearchBytes {
      calls := calls + [SearchUsersCall(search)];
      if replies.searchUsers.Err? {
        return calls, Returned(replies.searchUsers.error);
      }
      vars := vars.(users := replies.searchUsers.value);
    } else if search != "" {
      vars := vars.(errors := SearchTooShort);
    }

    return calls, Rendered(NetHttp.StatusOK, vars);
  }
}
