/** The add-member page (internal/server/add_member.go): shows a team, runs
    a user search, and marks every listed user with whether they already
    belong to the team. */
module AddMemberHandler {

  import opened Wrappers
  import opened Errors
  import opened SiriusEntities
  import opened ServerCommon
  import Strings
  import NetHttp

  const AddMemberPrefix: string := "/teams/add-member/"

  datatype AddMemberVars = AddMemberVars(
    path: string,
    siriusURL: string,
    search: string,
    users: seq<User>,
    success: bool,
    errors: ValidationErrors,
    team: Team,
    teamUsersMap: map<int, bool>)

  /** What the platform answers the two calls the page can make. */
  datatype AddMemberReplies = AddMemberReplies(team: Result<Team>, searchUsers: Result<seq<User>>)

  /** `TeamUsersMap`: first every search result is marked false, then every
      team member is marked true, overwriting. */
  method BuildTeamUsersMap(users: seq<User>, members: seq<TeamMember>) returns (m: map<int, bool>)
    ensures m.Keys == UserIds(users) + MemberIds(members)
    ensures forall id :: id in m ==> (m[id] <==> id in MemberIds(members))
  {
    m := map[];
    var i := 0;
    while i < |users|
      invariant 0 <= i <= |users|
      invariant m.Keys == UserIds(users[..i])
      invariant forall id :: id in m ==> !m[id]
    {
      m := m[users[i].id := false];
      assert users[..i + 1] == users[..i] + [users[i]];
      assert UserIds(users[..i + 1]) == UserIds(users[..i]) + {users[i].id};
      i := i + 1;
    }
    assert users[..i] == users;
    var j := 0;
    while j < |members|
      invariant 0 <= j <= |members|
      invariant m.Keys == UserIds(users) + MemberIds(members[..j])
      invariant forall id :: id in m ==> (m[id] <==> id in MemberIds(members[..j]))
    {
      m := m[members[j].id := true];
      assert members[..j + 1] == members[..j] + [members[j]];
      assert MemberIds(members[..j + 1]) == MemberIds(members[..j]) + {members[j].id};
      j := j + 1;
    }
    assert members[..j] == members;
  }

  /** `addMember`: the id at the end of the path selects the team; a search
      of at least three bytes queries the platform, a shorter non-empty one
      is a field error; the page is rendered with the membership map. */
  method AddMember(r: Request, siriusURL: string, replies: AddMemberReplies)
    returns (calls: seq<Call>, out: Outcome<AddMemberVars>)
    // An id that does not parse is Not Found, before any call.
    ensures ParseId(r.path, AddMemberPrefix).None? ==>
      calls == [] && out == Returned(StatusError(NetHttp.StatusNotFound))
    ensures ParseId(r.path, AddMemberPrefix).Some? ==>
      var id := ParseId(r.path, AddMemberPrefix).value;
      var search := FormValue(r, "search");
      var searches := Strings.ByteLen(search) >= MinSearchBytes;
      && |calls| >= 1 && calls[0] == TeamCall(id)
      // A failed team fetch is returned unchanged and nothing is searched.
      && (replies.team.Err? ==> calls == [TeamCall(id)] && out == Returned(replies.team.error))
      // The search is made once, with the literal term, iff it is long enough.
      && (replies.team.Ok? ==>
            calls == [TeamCall(id)] + (if searches then [SearchUsersCall(search)] else []))
      && (replies.team.Ok? && searches && replies.searchUsers.Err? ==>
            out == Returned(replies.searchUsers.error))
      && (replies.team.Ok? && (!searches || replies.searchUsers.Ok?) ==> out.Rendered?)
    ensures out.Rendered? ==>
      var search := FormValue(r, "search");
      var searches := Strings.ByteLen(search) >= MinSearchBytes;
      var v := out.vars;
      && ParseId(r.path, AddMemberPrefix).Some? && replies.team.Ok?
      && out.status == NetHttp.StatusOK
      && v.path == r.path && v.siriusURL == siriusURL && v.search == search
      && v.team == replies.team.value && !v.success
      && v.users == (if searches then replies.searchUsers.value else [])
      && v.errors == (if !searches && search != "" then SearchTooShort else map[])
      // Every listed user and every member has an entry; membership wins.
      && v.teamUsersMap.Keys == UserIds(v.users) + MemberIds(v.team.members)
      && (forall id :: id in v.teamUsersMap ==> (v.teamUsersMap[id] <==> id in MemberIds(v.team.members)))
  {
    var search := FormValue(r, "search");
    var vars := AddMemberVars(r.path, siriusURL, search, [], false, map[], Team(0, "", "", "", "", "", []), map[]);
    calls := [];

    var id := ParseId(r.path, AddMemberPrefix);
    if id.None? {
      return calls, Returned(StatusError(NetHttp.StatusNotFound));
    }

    calls := calls + [TeamCall(id.value)];
    if replies.team.Err? {
      return calls, Returned(replies.team.error);
    }
    vars := vars.(team := replies.team.value);

    if Strings.ByteLen(search) >= MinSearchBytes {
      calls := calls + [SearchUsersCall(search)];
      if replies.searchUsers.Err? {
        return calls, Returned(replies.searchUsers.error);
      }
      vars := vars.(users := replies.searchUsers.value);
    } else if search != "" {
      vars := vars.(errors := SearchTooShort);
    }

    var teamUsersMap := BuildTeamUsersMap(vars.users, vars.team.members);
    vars := vars.(teamUsersMap := teamUsersMap);

    return calls, Rendered(NetHttp.StatusOK, vars);
  }
}
