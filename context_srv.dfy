/**
 * The front end's context service: the signed-in user as the server sent it
 * at boot, the roles and permissions that user holds, and the minimum
 * dashboard refresh interval.
 *
 * The configuration (`config.bootData.user`, `config.minRefreshInterval`)
 * and `rangeUtil.intervalToMs` are parameters.
 */
module ContextService {
  import opened Wrappers

  const ServerAdmin: string := "ServerAdmin"
  const Editor: string := "Editor"
  const Admin: string := "Admin"
  const Reject: string := "Reject"

  /** A permission record (`Record<string, boolean>`), absent when not loaded. */
  type Permissions = Option<map<string, bool>>

  /** `!!permissions?.[action]`: a loaded record whose entry for `action` is true. */
  predicate Permitted(permissions: Permissions, action: string)
  {
    permissions.Some? && action in permissions.value && permissions.value[action]
  }

  /** The user object of the boot data; a key the server did not send is `None`. */
  datatype BootUser = BootUser(
    isSignedIn: Option<bool>,
    id: Option<int>,
    login: Option<string>,
    orgId: Option<int>,
    orgName: Option<string>,
    orgRole: Option<string>,
    isGrafanaAdmin: Option<bool>,
    hasEditPermissionInFolders: Option<bool>,
    permissions: Permissions)

  /** The value `extend` leaves: the boot value when sent, else the default. */
  function Or<T>(sent: Option<T>, default: T): T
  {
    if sent.Some? then sent.value else default
  }

  /** The boot user, or one that sends nothing when the boot data has none. */
  function BootOf(boot: Option<BootUser>): BootUser
  {
    if boot.Some? then boot.value else BootUser(None, None, None, None, None, None, None, None, None)
  }

  /** An object with an access-control record, as the API returns resources. */
  datatype WithAccessControlMetadata = WithAccessControlMetadata(accessControl: Permissions)

  /** `hasPermissionInMetadata`: the object's own record grants the action. */
  function HasPermissionInMetadata(action: string, obj: WithAccessControlMetadata): (r: bool)
    ensures r <==> (obj.accessControl.Some? && action in obj.accessControl.value
                    && obj.accessControl.value[action])
    ensures obj.accessControl.None? ==> !r
  {
    Permitted(obj.accessControl, action)
  }

  /** `actions.some(hasPermission)`. */
  function AnyPermitted(permissions: Permissions, actions: seq<string>): (r: bool)
    ensures r <==> exists i :: 0 <= i < |actions| && Permitted(permissions, actions[i])
  {
    if |actions| == 0 then false
    else Permitted(permissions, actions[0]) || AnyPermitted(permissions, actions[1..])
  }

  /** An empty list of actions is never granted. */
  lemma NothingToGrant(permissions: Permissions)
    ensures !AnyPermitted(permissions, [])
  {
  }

  /**
   * `isAllowedInterval`: without a configured minimum every interval is
   * allowed; otherwise the interval is allowed when it is at least as long.
   * An interval `intervalToMs` cannot parse is the error it throws, the
   * interval's own first.
   */
  function IsAllowedInterval(minRefreshInterval: string, intervalToMs: string -> Result<int, string>,
                             interval: string): (r: Result<bool, string>)
    ensures minRefreshInterval == "" ==> r == Success(true)
    ensures minRefreshInterval != "" && r.Success? ==>
      && intervalToMs(interval).Success? && intervalToMs(minRefreshInterval).Success?
      && (r.value <==> intervalToMs(interval).value >= intervalToMs(minRefreshInterval).value)
    ensures minRefreshInterval != "" && intervalToMs(interval).Failure? ==> r == Failure(intervalToMs(interval).error)
  {
    if minRefreshInterval == "" then Success(true)
    else
      var ms := intervalToMs(interval);
      if ms.Failure? then Failure(ms.error)
      else
        var minMs := intervalToMs(minRefreshInterval);
        if minMs.Failure? then Failure(minMs.error)
        else Success(ms.value >= minMs.value)
  }

  /** `getValidInterval`: the interval when allowed, else the configured minimum. */
  function GetValidInterval(minRefreshInterval: string, intervalToMs: string -> Result<int, string>,
                            interval: string): (r: Result<string, string>)
    ensures r.Success? <==> IsAllowedInterval(minRefreshInterval, intervalToMs, interval).Success?
    ensures r.Success? ==>
      r.value == (if IsAllowedInterval(minRefreshInterval, intervalToMs, interval).value then interval
                  else minRefreshInterval)
  {
    var allowed := IsAllowedInterval(minRefreshInterval, intervalToMs, interval);
    if allowed.Failure? then Failure(allowed.error)
    else if !allowed.value then Success(minRefreshInterval)
    else Success(interval)
  }

  /** The valid interval is never shorter than the configured minimum. */
  lemma ValidIntervalIsAllowed(minRefreshInterval: string, intervalToMs: string -> Result<int, string>,
                               interval: string)
    requires GetValidInterval(minRefreshInterval, intervalToMs, interval).Success?
    ensures IsAllowedInterval(minRefreshInterval, intervalToMs,
                              GetValidInterval(minRefreshInterval, intervalToMs, interval).value) == Success(true)
  {
    var allowed := IsAllowedInterval(minRefreshInterval, intervalToMs, interval);
    if minRefreshInterval != "" && !allowed.value {
      assert intervalToMs(minRefreshInterval).Success?;
    }
  }

  /** Making an interval valid twice changes nothing more. */
  lemma GetValidIntervalIdempotent(minRefreshInterval: string, intervalToMs: string -> Result<int, string>,
                                   interval: string)
    requires GetValidInterval(minRefreshInterval, intervalToMs, interval).Success?
    ensures var once := GetValidInterval(minRefreshInterval, intervalToMs, interval).value;
      GetValidInterval(minRefreshInterval, intervalToMs, once) == Success(once)
  {
    ValidIntervalIsAllowed(minRefreshInterval, intervalToMs, interval);
  }

  /** The current user; fields the model does not read (email, theme, locale, ...) are left out. */
  class User {
    var isSignedIn: bool
    var id: int
    var login: string
    var orgId: int
    var orgName: string
    var orgRole: string
    var isGrafanaAdmin: bool
    var hasEditPermissionInFolders: bool
    var permissions: Permissions

    /** The defaults, overwritten by whatever the boot data sends. */
    constructor (boot: Option<BootUser>)
      ensures isSignedIn == Or(BootOf(boot).isSignedIn, false)
      ensures id == Or(BootOf(boot).id, 0) && orgId == Or(BootOf(boot).orgId, 0)
      ensures login == Or(BootOf(boot).login, "") && orgName == Or(BootOf(boot).orgName, "")
      ensures orgRole == Or(BootOf(boot).orgRole, "")
      ensures isGrafanaAdmin == Or(BootOf(boot).isGrafanaAdmin, false)
      ensures hasEditPermissionInFolders == Or(BootOf(boot).hasEditPermissionInFolders, false)
      ensures permissions == BootOf(boot).permissions
    {
      var b := BootOf(boot);
      isSignedIn := Or(b.isSignedIn, false);
      id := Or(b.id, 0);
      login := Or(b.login, "");
      orgId := Or(b.orgId, 0);
      orgName := Or(b.orgName, "");
      orgRole := Or(b.orgRole, "");
      isGrafanaAdmin := Or(b.isGrafanaAdmin, false);
      hasEditPermissionInFolders := Or(b.hasEditPermissionInFolders, false);
      permissions := b.permissions;
    }
  }

  class ContextSrv {
    var user: User
    var isSignedIn: bool
    var isGrafanaAdmin: bool
    var isEditor: bool
    var hasEditPermissionInFolders: bool
    var minRefreshInterval: string

    /** The service copies the user's flags; the editor flag is fixed here, from the org role. */
    constructor (boot: Option<BootUser>, configMinRefreshInterval: string)
      ensures fresh(user)
      ensures user.orgRole == Or(BootOf(boot).orgRole, "") && user.permissions == BootOf(boot).permissions
      ensures isSignedIn == user.isSignedIn == Or(BootOf(boot).isSignedIn, false)
      ensures isGrafanaAdmin == user.isGrafanaAdmin == Or(BootOf(boot).isGrafanaAdmin, false)
      ensures isEditor <==> user.orgRole == Editor || user.orgRole == Admin
      ensures isEditor <==> HasRole(Editor) || HasRole(Admin)
      ensures hasEditPermissionInFolders == user.hasEditPermissionInFolders
      ensures minRefreshInterval == configMinRefreshInterval
    {
      var u := new User(boot);
      user := u;
      isSignedIn := u.isSignedIn;
      isGrafanaAdmin := u.isGrafanaAdmin;
      isEditor := u.orgRole == Editor || u.orgRole == Admin;
      hasEditPermissionInFolders := u.hasEditPermissionInFolders;
      minRefreshInterval := configMinRefreshInterval;
    }

    /**
     * `fetchUserPermissions`: the permissions the backend answered replace
     * the user's; a failed request is only logged.
     */
    method FetchUserPermissions(response: Result<map<string, bool>, string>)
      modifies user
      ensures response.Success? ==> user.permissions == Some(response.value)
      ensures response.Failure? ==> user.permissions == old(user.permissions)
      ensures forall action :: response.Success? ==>
        (HasPermission(action) <==> action in response.value && response.value[action])
      ensures user.isSignedIn == old(user.isSignedIn) && user.orgRole == old(user.orgRole)
      ensures user.isGrafanaAdmin == old(user.isGrafanaAdmin)
    {
      if response.Success? {
        user.permissions := Some(response.value);
      }
    }

    /** `setLoggedOut`: both flags drop, nothing else changes. */
    method SetLoggedOut()
      modifies this, user
      ensures !user.isSignedIn && !isSignedIn
      ensures user == old(user) && isGrafanaAdmin == old(isGrafanaAdmin) && isEditor == old(isEditor)
      ensures user.orgRole == old(user.orgRole) && user.permissions == old(user.permissions)
      ensures user.isGrafanaAdmin == old(user.isGrafanaAdmin) && user.login == old(user.login)
      ensures minRefreshInterval == old(minRefreshInterval)
    {
      user.isSignedIn := false;
      isSignedIn := false;
    }

    /**
     * `hasRole`: server admin is the service's admin flag; any other role is
     * held only as the user's org role.
     */
    predicate HasRole(role: string)
      reads this, user
      ensures role == ServerAdmin ==> (HasRole(role) <==> isGrafanaAdmin)
      ensures role != ServerAdmin ==> (HasRole(role) <==> user.orgRole == role)
    {
      if role == ServerAdmin then isGrafanaAdmin else user.orgRole == role
    }

    /** `hasPermission`, and `hasAccess`, which only forwards to it. */
    predicate HasPermission(action: string)
      reads this, user
      ensures HasPermission(action)
        <==> (user.permissions.Some? && action in user.permissions.value && user.permissions.value[action])
    {
      Permitted(user.permissions, action)
    }

    /**
     * `evaluatePermission`: no rejection when some action is permitted,
     * otherwise the single rejection marker.
     */
    function EvaluatePermission(actions: seq<string>): (r: seq<string>)
      reads this, user
      ensures r == [] <==> exists i :: 0 <= i < |actions| && HasPermission(actions[i])
      ensures r != [] ==> r == [Reject]
    {
      if AnyPermitted(user.permissions, actions) then [] else [Reject]
    }
  }
}
