/** The team list (internal/server/list_teams.go): every team, or only those
    whose display name contains the search term, ignoring case. */
module ListTeamsHandler {

  import opened Wrappers
  import opened Errors
  import opened SiriusEntities
  import opened ServerCommon
  import Strings
  import NetHttp

  datatype ListTeamsVars = ListTeamsVars(
    path: string,
    siriusURL: string,
    xsrfToken: string,
    search: string,
    teams: seq<Team>)

  /** The team's lower-cased display name contains the lower-cased term. */
  predicate Matches(t: Team, searchLower: string) {
    Strings.Contains(Strings.ToLower(t.displayName), searchLower)
  }

  /** The teams that match, in their original order. */
  function MatchingTeams(teams: seq<Team>, searchLower: string): seq<Team> {
    if teams == [] then []
    else
      var last := teams[|teams| - 1];
      MatchingTeams(teams[..|teams| - 1], searchLower) + (if Matches(last, searchLower) then [last] else [])
  }

  /** Nothing is added and nothing that matches is lost: a team is kept iff
      it was fetched and matches. */
  lemma {:induction false} MatchingTeamsKeepsExactlyMatches(teams: seq<Team>, searchLower: string)
    ensures forall t :: t in MatchingTeams(teams, searchLower) <==> t in teams && Matches(t, searchLower)
  {
    if teams != [] {
      var front := teams[..|teams| - 1];
      MatchingTeamsKeepsExactlyMatches(front, searchLower);
      assert teams == front + [teams[|teams| - 1]];
    }
  }

  /** `a` is `b` with some elements left out, the rest in order. */
  predicate IsSubsequence(a: seq<Team>, b: seq<Team>)
    decreases |b|
  {
    if a == [] then true
    else if b == [] then false
    else if a[|a| - 1] == b[|b| - 1] && IsSubsequence(a[..|a| - 1], b[..|b| - 1]) then true
    else IsSubsequence(a, b[..|b| - 1])
  }

  /** The filtered list keeps the fetched order. */
  lemma {:induction false} MatchingTeamsIsSubsequence(teams: seq<Team>, searchLower: string)
    ensures IsSubsequence(MatchingTeams(teams, searchLower), teams)
  {
    if teams != [] {
      var front := teams[..|teams| - 1];
      var last := teams[|teams| - 1];
      MatchingTeamsIsSubsequence(front, searchLower);
      var m := MatchingTeams(teams, searchLower);
      if Matches(last, searchLower) {
        assert m[..|m| - 1] == MatchingTeams(front, searchLower);
      } else if m != [] {
        assert m == MatchingTeams(front, searchLower);
      }
    }
  }

  /** Filtering the filtered list with the same term changes nothing. */
  lemma {:induction false} MatchingTeamsIdempotent(teams: seq<Team>, searchLower: string)
    ensures MatchingTeams(MatchingTeams(teams, searchLower), searchLower) == MatchingTeams(teams, searchLower)
  {
    if teams != [] {
      var front := teams[..|teams| - 1];
      var last := teams[|teams| - 1];
      MatchingTeamsIdempotent(front, searchLower);
      var m := MatchingTeams(teams, searchLower);
      if Matches(last, searchLower) {
        assert m[..|m| - 1] == MatchingTeams(front, searchLower);
      } else {
        assert m == MatchingTeams(front, searchLower);
      }
    }
  }

  /** Every team matches the empty term, so skipping the filter when the
      term is empty lists the same teams as filtering would. */
  lemma {:induction false} MatchingTeamsEmptyTermKeepsAll(teams: seq<Team>)
    ensures MatchingTeams(teams, "") == teams
  {
    if teams != [] {
      MatchingTeamsEmptyTermKeepsAll(teams[..|teams| - 1]);
      Strings.ContainsEmpty(Strings.ToLower(teams[|teams| - 1].displayName));
    }
  }

  /** The loop of `listTeams`: appends each matching team in turn. */
  method FilterTeams(teams: seq<Team>, search: string) returns (matchingTeams: seq<Team>)
    ensures matchingTeams == MatchingTeams(teams, Strings.ToLower(search))
  {
    var searchLower := Strings.ToLower(search);
    matchingTeams := [];
    var i := 0;
    while i < |teams|
      invariant 0 <= i <= |teams|
      invariant matchingTeams == MatchingTeams(teams[..i], searchLower)
    {
      var t := teams[i];
      if Strings.Contains(Strings.ToLower(t.displayName), searchLower) {
        matchingTeams := matchingTeams + [t];
      }
      assert teams[..i + 1][..i] == teams[..i];
      i := i + 1;
    }
    assert teams[..i] == teams;
  }

  /** `listTeams`. */
  method ListTeams(r: Request, siriusURL: string, teamsReply: Result<seq<Team>>)
    returns (calls: seq<Call>, out: Outcome<ListTeamsVars>)
    // Anything but GET is 405, before any call.
    ensures r.verb != NetHttp.MethodGet ==>
      calls == [] && out == Returned(StatusError(NetHttp.StatusMethodNotAllowed))
    ensures r.verb == NetHttp.MethodGet ==> calls == [TeamsCall]
    // A failed fetch is returned unchanged.
    ensures r.verb == NetHttp.MethodGet && teamsReply.Err? ==> out == Returned(teamsReply.error)
    ensures r.verb == NetHttp.MethodGet && teamsReply.Ok? ==>
      var search := FormValue(r, "search");
      && out.Rendered? && out.status == NetHttp.StatusOK
      && out.vars == ListTeamsVars(r.path, siriusURL, r.contextXsrfToken, search, out.vars.teams)
      // With no term every team is listed, as fetched; with a term, exactly
      // the matching ones, in fetched order.
      && (search == "" ==> out.vars.teams == teamsReply.value)
      && (search != "" ==> out.vars.teams == MatchingTeams(teamsReply.value, Strings.ToLower(search)))
  {
    if r.verb != NetHttp.MethodGet {
      return [], Returned(StatusError(NetHttp.StatusMethodNotAllowed));
    }

    calls := [TeamsCall];
    if teamsReply.Err? {
      return calls, Returned(teamsReply.error);
    }
    var teams := teamsReply.value;

    var search := FormValue(r, "search");
    if search != "" {
      teams := FilterTeams(teams, search);
    }

    var vars := ListTeamsVars(r.path, siriusURL, r.contextXsrfToken, search, teams);
    return calls, Rendered(NetHttp.StatusOK, vars);
  }
}
