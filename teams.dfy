/**
 * The teams slice's selectors: the team the page shows (`getTeam`) and
 * whether the signed-in user may administer it (`isSignedInUserTeamAdmin`,
 * `isPermissionTeamAdmin`).
 */
module Teams {
  import opened Wrappers
  import JsNumber
  import ContextService

  /** A user's permission on a team (`TeamPermissionLevel`). */
  datatype TeamPermissionLevel = Viewer | Member | Editor | Admin

  datatype Team = Team(id: int, name: string)

  datatype TeamMember = TeamMember(userId: int, permission: TeamPermissionLevel)

  /** What is read of the signed-in user; the organisation role is its name. */
  datatype SignedInUser = SignedInUser(id: int, isGrafanaAdmin: bool, orgRole: string)

  /**
   * `getTeam(state, currentTeamId)`: the loaded team when its id is
   * `parseInt(currentTeamId, 10)`, else `null` (`None`); `NaN` equals no id.
   */
  function GetTeam(team: Team, currentTeamId: string): (r: Option<Team>)
    ensures r.Some? <==> JsNumber.ParseInt(currentTeamId) == Some(team.id)
    ensures r.Some? ==> r.value == team
  {
    var parsed := JsNumber.ParseInt(currentTeamId);
    if parsed.Some? && team.id == parsed.value then Some(team) else None
  }

  /** The team's own id, written as a number, selects it. */
  lemma GetTeamOwnId(team: Team)
    ensures GetTeam(team, JsNumber.IntToString(team.id)) == Some(team)
  {
    JsNumber.ParseIntOfIntToString(team.id);
  }

  /** Another id, written as a number, selects nothing. */
  lemma GetTeamOtherId(team: Team, id: int)
    requires id != team.id
    ensures GetTeam(team, JsNumber.IntToString(id)).None?
  {
    JsNumber.ParseIntOfIntToString(id);
  }

  /**
   * `isPermissionTeamAdmin`: a Grafana admin, an organisation admin or a
   * team admin may administer the team; when editors may not administer
   * teams, the team pages do not restrict anyone.
   */
  function IsPermissionTeamAdmin(permission: TeamPermissionLevel, user: SignedInUser, editorsCanAdmin: bool): bool
  {
    var isAdmin := user.isGrafanaAdmin || user.orgRole == ContextService.Admin;
    var userIsTeamAdmin := permission == Admin;
    var isSignedInUserTeamAdmin := isAdmin || userIsTeamAdmin;
    isSignedInUserTeamAdmin || !editorsCanAdmin
  }

  /** A Grafana admin or an organisation admin always passes, whatever their team permission. */
  lemma AdminsAlwaysPass(permission: TeamPermissionLevel, user: SignedInUser, editorsCanAdmin: bool)
    requires user.isGrafanaAdmin || user.orgRole == ContextService.Admin
    ensures IsPermissionTeamAdmin(permission, user, editorsCanAdmin)
  {
  }

  /** A team admin passes. */
  lemma TeamAdminPasses(user: SignedInUser, editorsCanAdmin: bool)
    ensures IsPermissionTeamAdmin(Admin, user, editorsCanAdmin)
  {
  }

  /**
   * When editors may administer teams, a team member or editor without
   * the Admin permission who is no admin is refused.
   */
  lemma OthersRefusedWhenEditorsCanAdmin(permission: TeamPermissionLevel, user: SignedInUser)
    requires !user.isGrafanaAdmin && user.orgRole != ContextService.Admin && permission != Admin
    ensures !IsPermissionTeamAdmin(permission, user, true)
  {
  }

  /** Without `editorsCanAdmin` everyone passes. */
  lemma EveryoneWithoutEditorsCanAdmin(permission: TeamPermissionLevel, user: SignedInUser)
    ensures IsPermissionTeamAdmin(permission, user, false)
  {
  }

  /** `members.find(m => m.userId === userId)`, as an index. */
  function FindMember(members: seq<TeamMember>, userId: int): (r: Option<nat>)
    ensures r.Some? ==> r.value < |members| && members[r.value].userId == userId
                        && forall j :: 0 <= j < r.value ==> members[j].userId != userId
    ensures r.None? <==> forall j :: 0 <= j < |members| ==> members[j].userId != userId
  {
    if members == [] then None
    else if members[0].userId == userId then Some(0)
    else
      var rest := FindMember(members[1..], userId);
      assert forall j :: 1 <= j < |members| ==> members[j] == members[1..][j - 1];
      if rest.Some? then Some(rest.value + 1) else None
  }

  /** The signed-in user's permission on the team: its first membership's, `Member` when not a member. */
  function PermissionOf(members: seq<TeamMember>, userId: int): TeamPermissionLevel
  {
    var found := FindMember(members, userId);
    if found.Some? then members[found.value].permission else Member
  }

  /** `isSignedInUserTeamAdmin({ members, editorsCanAdmin, signedInUser })`. */
  function IsSignedInUserTeamAdmin(members: seq<TeamMember>, editorsCanAdmin: bool, user: SignedInUser): (r: bool)
    ensures r == IsPermissionTeamAdmin(PermissionOf(members, user.id), user, editorsCanAdmin)
  {
    var found := FindMember(members, user.id);
    var permission := if found.Some? then members[found.value].permission else Member;
    IsPermissionTeamAdmin(permission, user, editorsCanAdmin)
  }

  /** A non-member is judged as a plain member: only an admin role or a lax setting lets them in. */
  lemma NonMemberIsMember(members: seq<TeamMember>, editorsCanAdmin: bool, user: SignedInUser)
    requires forall j :: 0 <= j < |members| ==> members[j].userId != user.id
    ensures IsSignedInUserTeamAdmin(members, editorsCanAdmin, user)
            <==> user.isGrafanaAdmin || user.orgRole == ContextService.Admin || !editorsCanAdmin
  {
  }

  /** A member recorded as team admin may administer the team. */
  lemma TeamAdminMember(members: seq<TeamMember>, editorsCanAdmin: bool, user: SignedInUser, k: nat)
    requires k < |members| && members[k].userId == user.id && members[k].permission == Admin
    requires forall j :: 0 <= j < k ==> members[j].userId != user.id
    ensures IsSignedInUserTeamAdmin(members, editorsCanAdmin, user)
  {
  }
}
