/**
 * The signed-in user's profile slice (`user/profile`): the user, their
 * teams, organisations and sessions, and the loading flags of each.
 *
 * The slice's draft is a class whose fields the reducers assign. The boot
 * data the initial state reads and `dateTimeFormatTimeAgo` are parameters.
 */
module Profile {
  import opened Wrappers
  import Teams

  datatype UserDto = UserDto(id: int, login: string, email: string, name: string)

  datatype UserOrg = UserOrg(orgId: int, name: string, role: string)

  datatype UserSession = UserSession(
    id: int,
    isActive: bool,
    seenAt: string,
    createdAt: string,
    clientIp: string,
    browser: string,
    browserVersion: string,
    os: string,
    osVersion: string,
    device: string)

  /** The whole slice as a value. */
  datatype UserState = UserState(
    orgId: int,
    timeZone: string,
    weekStart: string,
    user: Option<UserDto>,
    teams: seq<Teams.Team>,
    orgs: seq<UserOrg>,
    sessions: seq<UserSession>,
    teamsAreLoading: bool,
    orgsAreLoading: bool,
    sessionsAreLoading: bool,
    isUpdating: bool)

  /** The active sessions, in their order. */
  function Actives(s: seq<UserSession>): seq<UserSession>
  {
    if s == [] then [] else (if s[0].isActive then [s[0]] else []) + Actives(s[1..])
  }

  /** The inactive sessions, in their order. */
  function Inactives(s: seq<UserSession>): seq<UserSession>
  {
    if s == [] then [] else (if s[0].isActive then [] else [s[0]]) + Inactives(s[1..])
  }

  /**
   * `sessions.sort((a, b) => Number(b.isActive) - Number(a.isActive))`: as
   * the sort is stable, the active sessions first, each group in its order.
   */
  function ActiveFirst(s: seq<UserSession>): seq<UserSession>
  {
    Actives(s) + Inactives(s)
  }

  /** The two groups split the sessions: they hold exactly the sessions given. */
  lemma {:induction false} GroupsSplit(s: seq<UserSession>)
    ensures multiset(Actives(s)) + multiset(Inactives(s)) == multiset(s)
  {
    if s != [] {
      var t := s[1..];
      GroupsSplit(t);
      assert s == [s[0]] + t;
      if s[0].isActive {
        assert multiset(Actives(s)) == multiset{s[0]} + multiset(Actives(t));
        assert Inactives(s) == Inactives(t);
      } else {
        assert multiset(Inactives(s)) == multiset{s[0]} + multiset(Inactives(t));
        assert Actives(s) == Actives(t);
      }
    }
  }

  /** Each group holds what its name says. */
  lemma {:induction false} GroupsAreActiveAndInactive(s: seq<UserSession>)
    ensures forall i :: 0 <= i < |Actives(s)| ==> Actives(s)[i].isActive
    ensures forall i :: 0 <= i < |Inactives(s)| ==> !Inactives(s)[i].isActive
  {
    if s != [] {
      GroupsAreActiveAndInactive(s[1..]);
    }
  }

  /** The sorted sessions are a permutation of those loaded, so their number is kept. */
  lemma ActiveFirstPermutes(s: seq<UserSession>)
    ensures multiset(ActiveFirst(s)) == multiset(s)
    ensures |ActiveFirst(s)| == |s|
  {
    GroupsSplit(s);
    assert |multiset(ActiveFirst(s))| == |multiset(s)|;
  }

  /** No inactive session comes before an active one. */
  lemma ActiveBeforeInactive(s: seq<UserSession>)
    ensures var r := ActiveFirst(s);
      forall i, j :: 0 <= i < j < |r| && r[j].isActive ==> r[i].isActive
  {
    GroupsAreActiveAndInactive(s);
  }

  lemma {:induction false} ActivesOfGroups(a: seq<UserSession>, b: seq<UserSession>)
    ensures Actives(a + b) == Actives(a) + Actives(b)
    ensures Inactives(a + b) == Inactives(a) + Inactives(b)
  {
    if a == [] {
      assert a + b == b;
    } else {
      assert (a + b)[1..] == a[1..] + b;
      ActivesOfGroups(a[1..], b);
    }
  }

  lemma {:induction false} ActivesIdempotent(s: seq<UserSession>)
    ensures Actives(Actives(s)) == Actives(s) && Inactives(Actives(s)) == []
    ensures Inactives(Inactives(s)) == Inactives(s) && Actives(Inactives(s)) == []
  {
    if s != [] {
      ActivesIdempotent(s[1..]);
      ActivesOfGroups(if s[0].isActive then [s[0]] else [], Actives(s[1..]));
      ActivesOfGroups(if s[0].isActive then [] else [s[0]], Inactives(s[1..]));
    }
  }

  /** The sort is stable: within each group the sessions keep their order. */
  lemma ActiveFirstStable(s: seq<UserSession>)
    ensures Actives(ActiveFirst(s)) == Actives(s)
    ensures Inactives(ActiveFirst(s)) == Inactives(s)
  {
    ActivesOfGroups(Actives(s), Inactives(s));
    ActivesIdempotent(s);
  }

  /** The session as displayed: `seenAt` formatted relative to now by `timeAgo`. */
  function Displayed(s: seq<UserSession>, timeAgo: string -> string): (r: seq<UserSession>)
    ensures |r| == |s|
    ensures forall i :: 0 <= i < |s| ==> r[i] == s[i].(seenAt := timeAgo(s[i].seenAt))
  {
    seq(|s|, i requires 0 <= i < |s| => s[i].(seenAt := timeAgo(s[i].seenAt)))
  }

  /** `sessions.filter(session => session.id !== tokenId)`. */
  function Revoked(s: seq<UserSession>, tokenId: int): (r: seq<UserSession>)
    ensures forall i :: 0 <= i < |r| ==> r[i].id != tokenId
    ensures forall k :: 0 <= k < |s| && s[k].id != tokenId ==> s[k] in r
    ensures forall x :: x in r ==> x in s
    ensures |r| <= |s|
  {
    if s == [] then []
    else
      var rest := Revoked(s[1..], tokenId);
      assert forall k :: 1 <= k < |s| ==> s[k] == s[1..][k - 1];
      if s[0].id != tokenId then [s[0]] + rest else rest
  }

  /** Revoking an id no session has changes nothing. */
  lemma {:induction false} RevokeUnknown(s: seq<UserSession>, tokenId: int)
    requires forall i :: 0 <= i < |s| ==> s[i].id != tokenId
    ensures Revoked(s, tokenId) == s
  {
    if s != [] {
      RevokeUnknown(s[1..], tokenId);
    }
  }

  /** Revoking twice is revoking once. */
  lemma RevokeIdempotent(s: seq<UserSession>, tokenId: int)
    ensures Revoked(Revoked(s, tokenId), tokenId) == Revoked(s, tokenId)
  {
    RevokeUnknown(Revoked(s, tokenId), tokenId);
  }

  class UserSlice {
    var orgId: int
    var timeZone: string
    var weekStart: string
    var user: Option<UserDto>
    var teams: seq<Teams.Team>
    var orgs: seq<UserOrg>
    var sessions: seq<UserSession>
    var teamsAreLoading: bool
    var orgsAreLoading: bool
    var sessionsAreLoading: bool
    var isUpdating: bool

    /** The fields as one value. */
    function State(): UserState
      reads this
    {
      UserState(orgId, timeZone, weekStart, user, teams, orgs, sessions, teamsAreLoading, orgsAreLoading,
                sessionsAreLoading, isUpdating)
    }

    /** `initialUserState`: the boot user's organisation, time zone and week start, nothing loaded or loading. */
    constructor (bootOrgId: int, bootTimeZone: string, bootWeekStart: string)
      ensures State() == UserState(bootOrgId, bootTimeZone, bootWeekStart, None, [], [], [], false, false, false, false)
    {
      orgId := bootOrgId;
      timeZone := bootTimeZone;
      weekStart := bootWeekStart;
      orgsAreLoading := false;
      sessionsAreLoading := false;
      teamsAreLoading := false;
      isUpdating := false;
      orgs := [];
      sessions := [];
      teams := [];
      user := None;
    }

    method SetUpdating(updating: bool)
      modifies this
      ensures State() == old(State()).(isUpdating := updating)
    {
      isUpdating := updating;
    }

    method UserLoaded(loaded: UserDto)
      modifies this
      ensures State() == old(State()).(user := Some(loaded))
    {
      user := Some(loaded);
    }

    method InitLoadTeams()
      modifies this
      ensures State() == old(State()).(teamsAreLoading := true)
    {
      teamsAreLoading := true;
    }

    method TeamsLoaded(loaded: seq<Teams.Team>)
      modifies this
      ensures State() == old(State()).(teams := loaded, teamsAreLoading := false)
    {
      teams := loaded;
      teamsAreLoading := false;
    }

    method InitLoadOrgs()
      modifies this
      ensures State() == old(State()).(orgsAreLoading := true)
    {
      orgsAreLoading := true;
    }

    method OrgsLoaded(loaded: seq<UserOrg>)
      modifies this
      ensures State() == old(State()).(orgs := loaded, orgsAreLoading := false)
    {
      orgs := loaded;
      orgsAreLoading := false;
    }

    method InitLoadSessions()
      modifies this
      ensures State() == old(State()).(sessionsAreLoading := true)
    {
      sessionsAreLoading := true;
    }

    /** `sessionsLoaded`: the sessions, active first, as displayed; loading is over. */
    method SessionsLoaded(loaded: seq<UserSession>, timeAgo: string -> string)
      modifies this
      ensures State() == old(State()).(sessions := Displayed(ActiveFirst(loaded), timeAgo), sessionsAreLoading := false)
    {
      var sorted := ActiveFirst(loaded);
      sessions := Displayed(sorted, timeAgo);
      sessionsAreLoading := false;
    }

    /** `userSessionRevoked`: the sessions without the revoked one; the update is over. */
    method UserSessionRevoked(tokenId: int)
      modifies this
      ensures State() == old(State()).(sessions := Revoked(old(sessions), tokenId), isUpdating := false)
    {
      sessions := Revoked(sessions, tokenId);
      isUpdating := false;
    }
  }
}
