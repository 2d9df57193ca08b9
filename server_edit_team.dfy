/** The edit-team page (internal/server/edit_team.go): fetches the team, the
    caller's permission to change team types and the list of team types;
    a POST overwrites the whitelisted fields and submits the team, keeping
    its type unless the caller may change it. */
module EditTeamHandler {

  import opened Wrappers
  import opened Errors
  import opened SiriusEntities
  import opened ServerCommon
  import NetHttp

  const EditTeamPrefix: string := "/teams/edit/"

  datatype EditTeamVars = EditTeamVars(
    path: string,
    siriusURL: string,
    xsrfToken: string,
    team: Team,
    teamTypeOptions: seq<RefDataTeamType>,
    canEditTeamType: bool,
    success: bool,
    errors: ValidationErrors)

  /** What the platform answers the four calls the page can make. */
  datatype EditTeamReplies = EditTeamReplies(
    team: Result<Team>,
    hasPermission: Result<bool>,
    teamTypes: Result<seq<RefDataTeamType>>,
    editTeam: MaybeError)

  /** The three fetches every request makes, in order. */
  function Fetches(id: int): seq<Call> {
    [TeamCall(id), HasPermissionCall("team", "post"), TeamTypesCall]
  }

  /** All three fetches succeeded. */
  predicate FetchedAll(replies: EditTeamReplies) {
    replies.team.Ok? && replies.hasPermission.Ok? && replies.teamTypes.Ok?
  }

  /** `editTeam`. */
  method EditTeam(r: Request, siriusURL: string, replies: EditTeamReplies)
    returns (calls: seq<Call>, out: Outcome<EditTeamVars>)
    // An id that does not parse is Not Found, before any call.
    ensures ParseId(r.path, EditTeamPrefix).None? ==>
      calls == [] && out == Returned(StatusError(NetHttp.StatusNotFound))
    // The fetches run in order; the first error stops them and is returned.
    ensures ParseId(r.path, EditTeamPrefix).Some? ==>
      var fetches := Fetches(ParseId(r.path, EditTeamPrefix).value);
      && (replies.team.Err? ==> calls == fetches[..1] && out == Returned(replies.team.error))
      && (replies.team.Ok? && replies.hasPermission.Err? ==>
            calls == fetches[..2] && out == Returned(replies.hasPermission.error))
      && (replies.team.Ok? && replies.hasPermission.Ok? && replies.teamTypes.Err? ==>
            calls == fetches && out == Returned(replies.teamTypes.error))
      && (FetchedAll(replies) ==> |calls| >= 3 && calls[..3] == fetches)
    // After the fetches: GET renders, POST submits, anything else is 405.
    ensures ParseId(r.path, EditTeamPrefix).Some? && FetchedAll(replies) ==>
      && (r.verb == NetHttp.MethodGet ==> |calls| == 3 && out.Rendered?)
      && (r.verb == NetHttp.MethodPost ==>
            && |calls| == 4 && calls[3].EditTeamCall?
            && (out.Rendered? <==> (replies.editTeam.None? ||
                                    (replies.editTeam.value.ValidationError? && replies.editTeam.value.byPointer))))
      && (r.verb != NetHttp.MethodGet && r.verb != NetHttp.MethodPost ==>
            |calls| == 3 && out == Returned(StatusError(NetHttp.StatusMethodNotAllowed)))
    // The team submitted: whitelisted fields from the form, identity and
    // members as fetched, type from the form only with permission.
    ensures |calls| == 4 ==>
      var fetched := replies.team.value;
      var sent := calls[3].team;
      && r.verb == NetHttp.MethodPost && replies.team.Ok? && replies.hasPermission.Ok?
      && sent.id == fetched.id && sent.members == fetched.members && sent.typeLabel == fetched.typeLabel
      && sent.displayName == PostFormValue(r, "name")
      && sent.phoneNumber == PostFormValue(r, "phone")
      && sent.email == PostFormValue(r, "email")
      && (!replies.hasPermission.value ==> sent.teamType == fetched.teamType)
      && (replies.hasPermission.value ==>
            sent.teamType == (if PostFormValue(r, "service") == "supervision"
                              then PostFormValue(r, "supervision-type") else ""))
    // Only a *ValidationError is shown on the page, with 400; every other
    // error, a ValidationError value included, is returned unchanged.
    ensures (|calls| == 4 && replies.editTeam.Some? &&
             !(replies.editTeam.value.ValidationError? && replies.editTeam.value.byPointer)) ==>
      out == Returned(replies.editTeam.value)
    ensures |calls| == 4 && replies.editTeam.Some? && replies.editTeam.value.ValidationError? ==>
      (out.Rendered? <==> replies.editTeam.value.byPointer)
    ensures out.Rendered? ==>
      var v := out.vars;
      && FetchedAll(replies)
      && v.path == r.path && v.siriusURL == siriusURL && v.xsrfToken == r.contextXsrfToken
      && v.teamTypeOptions == replies.teamTypes.value
      && v.canEditTeamType == replies.hasPermission.value
      && (|calls| == 3 ==>
            out.status == NetHttp.StatusOK && v.team == replies.team.value && !v.success && v.errors == map[])
      && (|calls| == 4 ==> v.team == calls[3].team)
      && (|calls| == 4 && replies.editTeam.None? ==>
            out.status == NetHttp.StatusOK && v.success && v.errors == map[])
      && (|calls| == 4 && replies.editTeam.Some? ==>
            && replies.editTeam.value.ValidationError?
            && out.status == NetHttp.StatusBadRequest && !v.success
            && v.errors == replies.editTeam.value.errors)
  {
    calls := [];
    var id := ParseId(r.path, EditTeamPrefix);
    if id.None? {
      return calls, Returned(StatusError(NetHttp.StatusNotFound));
    }

    calls := calls + [TeamCall(id.value)];
    if replies.team.Err? {
      return calls, Returned(replies.team.error);
    }
    var team := replies.team.value;

    calls := calls + [HasPermissionCall("team", "post")];
    if replies.hasPermission.Err? {
      return calls, Returned(replies.hasPermission.error);
    }
    var canEditTeamType := replies.hasPermission.value;

    calls := calls + [TeamTypesCall];
    if replies.teamTypes.Err? {
      return calls, Returned(replies.teamTypes.error);
    }

    var vars := EditTeamVars(r.path, siriusURL, r.contextXsrfToken, team, replies.teamTypes.value,
                             canEditTeamType, false, map[]);

    if r.verb == NetHttp.MethodGet {
      return calls, Rendered(NetHttp.StatusOK, vars);
    } else if r.verb == NetHttp.MethodPost {
      vars := vars.(team := vars.team.(displayName := PostFormValue(r, "name")));
      vars := vars.(team := vars.team.(phoneNumber := PostFormValue(r, "phone")));
      vars := vars.(team := vars.team.(email := PostFormValue(r, "email")));

      if canEditTeamType {
        if PostFormValue(r, "service") == "supervision" {
          vars := vars.(team := vars.team.(teamType := PostFormValue(r, "supervision-type")));
        } else {
          vars := vars.(team := vars.team.(teamType := ""));
        }
      } else {
        vars := vars.(team := vars.team.(teamType := team.teamType));
      }

      calls := calls + [EditTeamCall(vars.team)];
      var err := replies.editTeam;

      if err.Some? && err.value.ValidationError? && err.value.byPointer {
        vars := vars.(errors := err.value.errors);
        return calls, Rendered(NetHttp.StatusBadRequest, vars);
      } else if err.Some? {
        return calls, Returned(err.value);
      } else {
        vars := vars.(success := true);
      }
      return calls, Rendered(NetHttp.StatusOK, vars);
    } else {
      return calls, Returned(StatusError(NetHttp.StatusMethodNotAllowed));
    }
  }
}
