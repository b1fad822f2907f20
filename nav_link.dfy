/**
 * The navigation tree's node, the configuration the tree builders read and
 * the access-control evaluators they ask about. Icons, sort weights and
 * sections are not part of this model.
 */
module NavLinks {

  datatype NavLink = NavLink(
    id: string,
    text: string,
    subTitle: string,
    url: string,
    hideFromMenu: bool,
    hideFromTabs: bool,
    divider: bool,
    children: seq<NavLink>)

  /** A node with only an id, a text and a url. */
  function Leaf(id: string, text: string, url: string): (n: NavLink)
    ensures n.id == id && n.text == text && n.url == url && n.children == []
  {
    NavLink(id, text, "", url, false, false, false, [])
  }

  /** Some node of `links` has the id `id`. */
  predicate HasId(links: seq<NavLink>, id: string)
  {
    exists k :: 0 <= k < |links| && links[k].id == id
  }

  /** `append(links, l)`: the ids present afterwards are those before and `l`'s. */
  function Push(links: seq<NavLink>, l: NavLink): (r: seq<NavLink>)
    ensures |r| == |links| + 1
    ensures forall id {:trigger HasId(r, id)} :: HasId(r, id) <==> HasId(links, id) || id == l.id
  {
    var r := links + [l];
    assert forall id :: HasId(links, id) ==> HasId(r, id) by {
      forall id | HasId(links, id) ensures HasId(r, id) {
        var k :| 0 <= k < |links| && links[k].id == id;
        assert r[k] == links[k];
      }
    }
    assert r[|links|] == l;
    r
  }

  /** `if c { links = append(links, l) }`. */
  function PushIf(links: seq<NavLink>, c: bool, l: NavLink): (r: seq<NavLink>)
    ensures |r| == |links| + (if c then 1 else 0)
    ensures forall id {:trigger HasId(r, id)} :: HasId(r, id) <==> HasId(links, id) || (c && id == l.id)
  {
    if c then Push(links, l) else links
  }

  /** The evaluators `ac.HasAccess` and `ac.HasGlobalAccess` are asked about. */
  datatype Evaluator =
    | DashboardsRead
    | DashboardsCreate
    | FoldersCreate
    | OrgUsersRead
    | UsersReadGlobal
    | OrgsRead
    | SettingsRead
    | LdapStatusRead
    | TeamsAccess
    | OrgPreferencesAccess
    | ApiKeyAccess
    | ServiceAccountsAccess

  /** What the access-control service answers, for the org and globally. */
  datatype Access = Access(granted: set<Evaluator>, globalGranted: set<Evaluator>)

  /** The feature toggles the builders read. */
  datatype Features = Features(topnav: bool, scenes: bool, dataConnectionsConsole: bool, livePipeline: bool)

  /** The settings the builders read (`setting.Cfg` and the package globals). */
  datatype NavConfig = NavConfig(
    appSubUrl: string,
    homePage: string,
    anonymousHideVersion: bool,
    ldapEnabled: bool,
    editorsCanAdmin: bool,
    profileEnabled: bool,
    helpEnabled: bool,
    applicationName: string,
    buildVersion: string,
    buildCommit: string,
    addChangePasswordLink: bool,
    disableSignoutMenu: bool,
    queryLibraryDisabled: bool)

  /** The signed-in user of the request. */
  datatype NavUser = NavUser(
    isSignedIn: bool,
    login: string,
    nameOrFallback: string,
    orgName: string,
    orgRole: string)
}
