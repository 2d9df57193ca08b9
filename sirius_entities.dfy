/** The records the platform API returns and the handlers pass around
    (`sirius.Team`, `sirius.TeamMember`, `sirius.User`,
    `sirius.RefDataTeamType`), reduced to the fields the core reads. */
module SiriusEntities {

  datatype TeamMember = TeamMember(id: int, displayName: string, email: string)

  datatype Team = Team(
    id: int,
    displayName: string,
    phoneNumber: string,
    email: string,
    teamType: string,
    typeLabel: string,
    members: seq<TeamMember>)

  datatype User = User(id: int, displayName: string, email: string, status: string)

  datatype RefDataTeamType = RefDataTeamType(handle: string, labelText: string)

  /** The ids of a list of team members, as a set. */
  function MemberIds(members: seq<TeamMember>): (ids: set<int>)
    ensures forall i :: 0 <= i < |members| ==> members[i].id in ids
    ensures forall id :: id in ids ==> exists i :: 0 <= i < |members| && members[i].id == id
  {
    set i | 0 <= i < |members| :: members[i].id
  }

  /** The ids of a list of users, as a set. */
  function UserIds(users: seq<User>): (ids: set<int>)
    ensures forall i :: 0 <= i < |users| ==> users[i].id in ids
    ensures forall id :: id in ids ==> exists i :: 0 <= i < |users| && users[i].id == id
  {
    set i | 0 <= i < |users| :: users[i].id
  }
}
