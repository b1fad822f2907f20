/**
 * The SQL filter that restricts a dashboard search to what the signed-in
 * user may see (`AccessControlDashboardPermissionFilter`): the actions the
 * permission level needs, and the WHERE fragment with its arguments.
 *
 * The wildcard scopes (`WildcardsFromPrefix`) and the role sub-filter
 * (`UserRolesFilter`) come from the access-control service and are
 * parameters here.
 */
module DashboardPermissions {
  import opened Wrappers

  const ActionDashboardsRead: string := "dashboards:read"
  const ActionDashboardsWrite: string := "dashboards:write"
  const ActionDashboardsCreate: string := "dashboards:create"
  const ActionFoldersRead: string := "folders:read"

  /** `models.PERMISSION_VIEW`. */
  const PermissionView: int := 1

  /** A query argument: an action name or role parameter, or a count. */
  datatype Arg = Text(s: string) | Count(n: int)

  /**
   * The signed-in user; `permissions` is None for a nil map, and an org
   * without a (non-nil) action map is absent from it.
   */
  datatype SignedInUser = SignedInUser(orgId: int, permissions: Option<map<int, map<string, seq<string>>>>)

  datatype PermissionFilter = PermissionFilter(user: Option<SignedInUser>, folderActions: seq<string>,
                                               dashboardActions: seq<string>)

  /** What `UserRolesFilter` returns: a SQL fragment and its arguments. */
  datatype RolesFilter = RolesFilter(filter: string, params: seq<Arg>)

  /** `NewAccessControlDashboardPermissionFilter(user, permissionLevel, queryType)`. */
  function NewFilter(user: Option<SignedInUser>, permissionLevel: int): (f: PermissionFilter)
    ensures permissionLevel > PermissionView ==>
      f.folderActions == [ActionFoldersRead, ActionDashboardsCreate]
      && f.dashboardActions == [ActionDashboardsRead, ActionDashboardsWrite]
    ensures permissionLevel <= PermissionView ==>
      f.folderActions == [ActionFoldersRead] && f.dashboardActions == [ActionDashboardsRead]
    ensures f.user == user
  {
    var needEdit := permissionLevel > PermissionView;
    PermissionFilter(user,
      [ActionFoldersRead] + (if needEdit then [ActionDashboardsCreate] else []),
      [ActionDashboardsRead] + (if needEdit then [ActionDashboardsWrite] else []))
  }

  /** The user's scopes for an action in the user's org. */
  function ScopesOf(perms: map<string, seq<string>>, action: string): seq<string>
  {
    if action in perms then perms[action] else []
  }

  /** The actions none of whose scopes is a wildcard, in order. */
  function ToCheck(actions: seq<string>, perms: map<string, seq<string>>, wildcards: set<string>): (r: seq<string>)
    ensures |r| <= |actions|
    ensures forall a :: a in r <==> a in actions && forall s :: s in ScopesOf(perms, a) ==> s !in wildcards
  {
    if |actions| == 0 then []
    else
      var a := actions[0];
      (if exists s :: s in ScopesOf(perms, a) && s in wildcards then [] else [a])
      + ToCheck(actions[1..], perms, wildcards)
  }

  /** `strings.Repeat(s, n)`. */
  function Repeat(s: string, n: nat): string
  {
    if n == 0 then "" else s + Repeat(s, n - 1)
  }

  /** The IN list for `n >= 1` actions: `?` and then `, ?` for every further one. */
  function InList(n: nat): string
    requires n >= 1
  {
    "?" + Repeat(", ?", n - 1)
  }

  /** The number of `?` placeholders in a text. */
  function Marks(s: string): nat
  {
    if |s| == 0 then 0 else (if s[0] == '?' then 1 else 0) + Marks(s[1..])
  }

  lemma {:induction false} MarksConcat(a: string, b: string)
    ensures Marks(a + b) == Marks(a) + Marks(b)
  {
    if |a| > 0 {
      assert (a + b)[1..] == a[1..] + b;
      MarksConcat(a[1..], b);
    } else {
      assert a + b == b;
    }
  }

  lemma {:induction false} MarksRepeat(n: nat)
    ensures Marks(Repeat(", ?", n)) == n
  {
    if n > 0 {
      MarksRepeat(n - 1);
      MarksConcat(", ?", Repeat(", ?", n - 1));
      assert Marks(", ?") == 1 by {
        assert ", ?"[1..] == " ?" && " ?"[1..] == "?" && "?"[1..] == "";
      }
    }
  }

  /** Each IN list holds exactly one placeholder per action to check. */
  lemma InListMarks(n: nat)
    requires n >= 1
    ensures Marks(InList(n)) == n
  {
    MarksRepeat(n - 1);
    MarksConcat("?", Repeat(", ?", n - 1));
    assert "?"[1..] == "";
  }

  /** `rolesFilter`. */
  function RoleClause(roles: RolesFilter): string
  {
    "AND role_id IN(SELECT distinct id FROM role " + roles.filter + ")"
  }

  function DashboardUidClause(n: nat, roleClause: string): string
    requires n >= 1
  {
    "(dashboard.uid IN (SELECT substr(scope, 16) FROM permission WHERE action IN (" + InList(n)
    + ") AND scope LIKE 'dashboards:uid:%' " + roleClause
    + " GROUP BY role_id, scope HAVING COUNT(action) = ?) AND NOT dashboard.is_folder)"
  }

  function DashboardFolderClause(n: nat, roleClause: string): string
    requires n >= 1
  {
    "(dashboard.folder_id IN (SELECT id FROM dashboard as d WHERE d.uid IN (SELECT substr(scope, 13) FROM permission WHERE action IN ("
    + InList(n) + ") AND scope LIKE 'folders:uid:%' " + roleClause
    + " GROUP BY role_id, scope HAVING COUNT(action) = ?)) AND NOT dashboard.is_folder)"
  }

  function FolderClause(n: nat, roleClause: string): string
    requires n >= 1
  {
    "(dashboard.uid IN (SELECT substr(scope, 13) FROM permission WHERE action IN (" + InList(n)
    + ") AND scope LIKE 'folders:uid:%' " + roleClause
    + " GROUP BY role_id, scope HAVING COUNT(action) = ?) AND dashboard.is_folder)"
  }

  /** The arguments of one checked clause: the actions, the role parameters, the count. */
  function ClauseArgs(actions: seq<string>, roles: RolesFilter): seq<Arg>
  {
    seq(|actions|, i requires 0 <= i < |actions| => Text(actions[i])) + roles.params + [Count(|actions|)]
  }

  /** The dashboard half of the fragment and its arguments. */
  function DashboardPart(check: seq<string>, roles: RolesFilter): (string, seq<Arg>)
  {
    if |check| > 0 then
      (DashboardUidClause(|check|, RoleClause(roles)) + " OR " + DashboardFolderClause(|check|, RoleClause(roles)),
       ClauseArgs(check, roles) + ClauseArgs(check, roles))
    else ("NOT dashboard.is_folder", [])
  }

  /** The folder half of the fragment and its arguments. */
  function FolderPart(check: seq<string>, roles: RolesFilter): (string, seq<Arg>)
  {
    if |check| > 0 then (FolderClause(|check|, RoleClause(roles)), ClauseArgs(check, roles))
    else ("dashboard.is_folder", [])
  }

  /** The user has an action map for the org. */
  predicate HasOrgPermissions(user: Option<SignedInUser>)
  {
    user.Some? && user.value.permissions.Some? && user.value.orgId in user.value.permissions.value
  }

  /** `Where()`, given the two wildcard sets and the role sub-filter. */
  function WhereOf(f: PermissionFilter, dashWildcards: set<string>, folderWildcards: set<string>,
                   roles: RolesFilter): (r: (string, seq<Arg>))
    ensures !HasOrgPermissions(f.user) ==> r == ("(1 = 0)", [])
  {
    if !HasOrgPermissions(f.user) then ("(1 = 0)", [])
    else
      var perms := f.user.value.permissions.value[f.user.value.orgId];
      var d := if |f.dashboardActions| > 0
        then DashboardPart(ToCheck(f.dashboardActions, perms, dashWildcards + folderWildcards), roles) else ("", []);
      var sep := if |f.dashboardActions| > 0 && |f.folderActions| > 0 then " OR " else "";
      var fo := if |f.folderActions| > 0
        then FolderPart(ToCheck(f.folderActions, perms, folderWildcards), roles) else ("", []);
      ("(" + d.0 + sep + fo.0 + ")", d.1 + fo.1)
  }

  /**
   * For a filter made by the constructor and a user with permissions in the
   * org, the fragment is the dashboard part and the folder part joined by
   * " OR " in parentheses, the arguments the dashboard part's then the
   * folder part's.
   */
  lemma WhereShape(user: Option<SignedInUser>, level: int, dashWildcards: set<string>, folderWildcards: set<string>,
                   roles: RolesFilter)
    requires HasOrgPermissions(user)
    ensures var f := NewFilter(user, level);
      var perms := user.value.permissions.value[user.value.orgId];
      var d := DashboardPart(ToCheck(f.dashboardActions, perms, dashWildcards + folderWildcards), roles);
      var fo := FolderPart(ToCheck(f.folderActions, perms, folderWildcards), roles);
      WhereOf(f, dashWildcards, folderWildcards, roles) == ("(" + d.0 + " OR " + fo.0 + ")", d.1 + fo.1)
  {
  }

  /**
   * An action is checked only when none of its scopes is a wildcard: for a
   * dashboard action a dashboard or folder wildcard, for a folder action a
   * folder wildcard; when every action has one, the half reduces to the
   * plain `is_folder` test.
   */
  lemma AllWildcards(actions: seq<string>, perms: map<string, seq<string>>, wildcards: set<string>, roles: RolesFilter)
    requires forall a :: a in actions ==> exists s :: s in ScopesOf(perms, a) && s in wildcards
    ensures ToCheck(actions, perms, wildcards) == []
    ensures DashboardPart(ToCheck(actions, perms, wildcards), roles) == ("NOT dashboard.is_folder", [])
    ensures FolderPart(ToCheck(actions, perms, wildcards), roles) == ("dashboard.is_folder", [])
  {
    NoneChecked(actions, perms, wildcards);
  }

  lemma {:induction false} NoneChecked(actions: seq<string>, perms: map<string, seq<string>>, wildcards: set<string>)
    requires forall a :: a in actions ==> exists s :: s in ScopesOf(perms, a) && s in wildcards
    ensures ToCheck(actions, perms, wildcards) == []
  {
    if |actions| > 0 {
      assert actions[0] in actions;
      NoneChecked(actions[1..], perms, wildcards);
    }
  }

  // ---------------------------------------------------------------------
  // The loops
  // ---------------------------------------------------------------------

  /** The inner loop over an action's scopes, with its `break`. */
  method HasWildcard(scopes: seq<string>, wildcards: set<string>) returns (found: bool)
    ensures found <==> exists s :: s in scopes && s in wildcards
  {
    found := false;
    for j := 0 to |scopes|
      invariant !found
      invariant forall k :: 0 <= k < j ==> scopes[k] !in wildcards
    {
      if scopes[j] in wildcards {
        found := true;
        return;
      }
    }
  }

  /** The loop that collects `actionsToCheck`. */
  method CollectActionsToCheck(actions: seq<string>, perms: map<string, seq<string>>, wildcards: set<string>)
    returns (check: seq<string>)
    ensures check == ToCheck(actions, perms, wildcards)
  {
    check := [];
    for i := 0 to |actions|
      invariant check + ToCheck(actions[i..], perms, wildcards) == ToCheck(actions, perms, wildcards)
    {
      var action := actions[i];
      var hasWildcard := HasWildcard(ScopesOf(perms, action), wildcards);
      assert actions[i..][1..] == actions[i + 1..];
      ghost var rest := ToCheck(actions[i + 1..], perms, wildcards);
      if !hasWildcard {
        assert ToCheck(actions[i..], perms, wildcards) == [action] + rest;
        Regroup(check, [action], rest);
        check := check + [action];
      } else {
        assert ToCheck(actions[i..], perms, wildcards) == rest;
      }
    }
    assert actions[|actions|..] == [];
    assert check + [] == check;
  }

  lemma Regroup(a: seq<string>, b: seq<string>, c: seq<string>)
    ensures a + (b + c) == (a + b) + c
  {
  }

  /** `Where()`: the builder and the argument slice, filled part by part. */
  method Where(f: PermissionFilter, dashWildcards: set<string>, folderWildcards: set<string>, roles: RolesFilter)
    returns (sql: string, args: seq<Arg>)
    ensures (sql, args) == WhereOf(f, dashWildcards, folderWildcards, roles)
  {
    if !HasOrgPermissions(f.user) {
      return "(1 = 0)", [];
    }
    var perms := f.user.value.permissions.value[f.user.value.orgId];
    var dashboards: (string, seq<Arg>) := ("", []);
    var folders: (string, seq<Arg>) := ("", []);
    var sep := "";
    if |f.dashboardActions| > 0 {
      var check := CollectActionsToCheck(f.dashboardActions, perms, dashWildcards + folderWildcards);
      dashboards := DashboardPart(check, roles);
    }
    if |f.folderActions| > 0 {
      if |f.dashboardActions| > 0 {
        sep := " OR ";
      }
      var check := CollectActionsToCheck(f.folderActions, perms, folderWildcards);
      folders := FolderPart(check, roles);
    }
    sql := "(" + dashboards.0 + sep + folders.0 + ")";
    args := dashboards.1 + folders.1;
  }
}
