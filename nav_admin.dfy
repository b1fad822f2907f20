/**
 * The organisation and server administration nodes of the navigation tree
 * and the team-administration rule.
 */
module NavAdmin {
  import opened Wrappers
  import opened NavLinks

  const RoleAdmin: string := "Admin"
  const RoleEditor: string := "Editor"
  const RoleViewer: string := "Viewer"

  /** The API keys page is hidden when the org asked so and has no key left. */
  predicate ApiKeysHidden(hideApiKeys: string, apiKeyCount: nat)
  {
    hideApiKeys == "1" && apiKeyCount == 0
  }

  /** The children of the "Configuration" node, in the order they are appended. */
  function OrgAdminChildren(cfg: NavConfig, features: Features, access: Access, hideApiKeys: string, apiKeyCount: nat)
    : seq<NavLink>
  {
    var users := PushIf([], !features.topnav && OrgUsersRead in access.granted,
                        Leaf("users", "Users", cfg.appSubUrl + "/org/users"));
    var teams := PushIf(users, TeamsAccess in access.granted,
                        Leaf("teams", "Teams", cfg.appSubUrl + "/org/teams"));
    var prefs := PushIf(teams, OrgPreferencesAccess in access.granted,
                        Leaf("org-settings", "Preferences", cfg.appSubUrl + "/org"));
    var keys := PushIf(prefs, ApiKeyAccess in access.granted && !ApiKeysHidden(hideApiKeys, apiKeyCount),
                       Leaf("apikeys", "API keys", cfg.appSubUrl + "/org/apikeys"));
    PushIf(keys, ServiceAccountsAccess in access.granted,
           Leaf("serviceaccounts", "Service accounts", cfg.appSubUrl + "/org/serviceaccounts"))
  }

  /** The org users page is listed only without topnav and with org-users read. */
  lemma OrgUsersLink(cfg: NavConfig, features: Features, access: Access, hideApiKeys: string, apiKeyCount: nat)
    ensures HasId(OrgAdminChildren(cfg, features, access, hideApiKeys, apiKeyCount), "users")
        <==> !features.topnav && OrgUsersRead in access.granted
  {
  }

  lemma OrgTeamsAndPreferencesLinks(cfg: NavConfig, features: Features, access: Access, hideApiKeys: string,
                                    apiKeyCount: nat)
    ensures HasId(OrgAdminChildren(cfg, features, access, hideApiKeys, apiKeyCount), "teams")
        <==> TeamsAccess in access.granted
    ensures HasId(OrgAdminChildren(cfg, features, access, hideApiKeys, apiKeyCount), "org-settings")
        <==> OrgPreferencesAccess in access.granted
  {
  }

  /** API keys are listed with access, unless hidden and there is none. */
  lemma ApiKeysLink(cfg: NavConfig, features: Features, access: Access, hideApiKeys: string, apiKeyCount: nat)
    ensures HasId(OrgAdminChildren(cfg, features, access, hideApiKeys, apiKeyCount), "apikeys")
        <==> ApiKeyAccess in access.granted && !(hideApiKeys == "1" && apiKeyCount == 0)
  {
  }

  lemma ServiceAccountsLink(cfg: NavConfig, features: Features, access: Access, hideApiKeys: string, apiKeyCount: nat)
    ensures HasId(OrgAdminChildren(cfg, features, access, hideApiKeys, apiKeyCount), "serviceaccounts")
        <==> ServiceAccountsAccess in access.granted
  {
  }

  /**
   * `getOrgAdminNode`: the "Configuration" node. `hideApiKeys` is the
   * value read from the key-value store and `apiKeys` the number of API
   * keys of the org, or the error the API-key service returned, which
   * replaces the node.
   */
  method GetOrgAdminNode(cfg: NavConfig, features: Features, access: Access, user: NavUser,
                         hideApiKeys: string, apiKeys: Result<nat, string>)
    returns (r: Result<NavLink, string>)
    ensures apiKeys.Failure? ==> r == Failure(apiKeys.error)
    ensures apiKeys.Success? ==>
      && r.Success?
      && r.value.id == "cfg"
      && r.value.subTitle == "Organization: " + user.orgName
      && r.value.children == OrgAdminChildren(cfg, features, access, hideApiKeys, apiKeys.value)
  {
    var configNodes: seq<NavLink> := [];
    configNodes := PushIf(configNodes, !features.topnav && OrgUsersRead in access.granted,
      Leaf("users", "Users", cfg.appSubUrl + "/org/users"));
    configNodes := PushIf(configNodes, TeamsAccess in access.granted,
      Leaf("teams", "Teams", cfg.appSubUrl + "/org/teams"));
    configNodes := PushIf(configNodes, OrgPreferencesAccess in access.granted,
      Leaf("org-settings", "Preferences", cfg.appSubUrl + "/org"));
    if apiKeys.Failure? {
      return Failure(apiKeys.error);
    }
    var apiKeysHidden := hideApiKeys == "1" && apiKeys.value == 0;
    configNodes := PushIf(configNodes, ApiKeyAccess in access.granted && !apiKeysHidden,
      Leaf("apikeys", "API keys", cfg.appSubUrl + "/org/apikeys"));
    configNodes := PushIf(configNodes, ServiceAccountsAccess in access.granted,
      Leaf("serviceaccounts", "Service accounts", cfg.appSubUrl + "/org/serviceaccounts"));
    r := Success(NavLink("cfg", "Configuration", "Organization: " + user.orgName, "", false, false, false, configNodes));
  }

  /** The children of the "Server admin" node, in the order they are appended. */
  function ServerAdminChildren(cfg: NavConfig, features: Features, access: Access): seq<NavLink>
  {
    // With topnav, org-users read also shows the server-wide users page.
    var users := PushIf([], UsersReadGlobal in access.granted || (features.topnav && OrgUsersRead in access.granted),
                        Leaf("global-users", "Users", cfg.appSubUrl + "/admin/users"));
    var orgs := PushIf(users, OrgsRead in access.globalGranted,
                       Leaf("global-orgs", "Organizations", cfg.appSubUrl + "/admin/orgs"));
    var settings := PushIf(orgs, SettingsRead in access.granted,
                           Leaf("server-settings", "Settings", cfg.appSubUrl + "/admin/settings"));
    PushIf(settings, cfg.ldapEnabled && LdapStatusRead in access.granted,
           Leaf("ldap", "LDAP", cfg.appSubUrl + "/admin/ldap"))
  }

  lemma ServerUsersLink(cfg: NavConfig, features: Features, access: Access)
    ensures HasId(ServerAdminChildren(cfg, features, access), "global-users")
        <==> if features.topnav then OrgUsersRead in access.granted || UsersReadGlobal in access.granted
             else UsersReadGlobal in access.granted
  {
  }

  /** Organizations need the permission globally, the settings page in the org. */
  lemma ServerOrgsAndSettingsLinks(cfg: NavConfig, features: Features, access: Access)
    ensures HasId(ServerAdminChildren(cfg, features, access), "global-orgs") <==> OrgsRead in access.globalGranted
    ensures HasId(ServerAdminChildren(cfg, features, access), "server-settings") <==> SettingsRead in access.granted
  {
  }

  lemma LdapLink(cfg: NavConfig, features: Features, access: Access)
    ensures HasId(ServerAdminChildren(cfg, features, access), "ldap") <==> cfg.ldapEnabled && LdapStatusRead in access.granted
  {
  }

  /**
   * `getServerAdminNode`: the "Server admin" node, whose url is that of its
   * first child, or empty without children.
   */
  method GetServerAdminNode(cfg: NavConfig, features: Features, access: Access)
    returns (n: NavLink)
    ensures n.id == "admin"
    ensures n.children == ServerAdminChildren(cfg, features, access)
    ensures |n.children| > 0 ==> n.url == n.children[0].url
    ensures |n.children| == 0 ==> n.url == ""
  {
    var adminNavLinks: seq<NavLink> := [];
    // The topnav and classic branches differ only in the evaluator (and the subtitle).
    var usersShown := UsersReadGlobal in access.granted || (features.topnav && OrgUsersRead in access.granted);
    adminNavLinks := PushIf(adminNavLinks, usersShown, Leaf("global-users", "Users", cfg.appSubUrl + "/admin/users"));
    adminNavLinks := PushIf(adminNavLinks, OrgsRead in access.globalGranted,
      Leaf("global-orgs", "Organizations", cfg.appSubUrl + "/admin/orgs"));
    adminNavLinks := PushIf(adminNavLinks, SettingsRead in access.granted,
      Leaf("server-settings", "Settings", cfg.appSubUrl + "/admin/settings"));
    adminNavLinks := PushIf(adminNavLinks, cfg.ldapEnabled && LdapStatusRead in access.granted,
      Leaf("ldap", "LDAP", cfg.appSubUrl + "/admin/ldap"));
    assert adminNavLinks == ServerAdminChildren(cfg, features, access);
    n := NavLink("admin", "Server admin", "", "", false, false, false, adminNavLinks);
    if |adminNavLinks| > 0 {
      n := n.(url := adminNavLinks[0].url);
    }
  }

  /** `ReqCanAdminTeams`. */
  predicate ReqCanAdminTeams(editorsCanAdmin: bool, orgRole: string)
  {
    orgRole == RoleAdmin || (editorsCanAdmin && orgRole == RoleEditor)
  }

  /** Letting editors administer teams only widens who may, and only to editors. */
  lemma EditorsCanAdminWidens(orgRole: string)
    ensures ReqCanAdminTeams(false, orgRole) ==> ReqCanAdminTeams(true, orgRole)
    ensures ReqCanAdminTeams(true, orgRole) && !ReqCanAdminTeams(false, orgRole) ==> orgRole == RoleEditor
    ensures !ReqCanAdminTeams(true, RoleViewer)
  {
  }
}
