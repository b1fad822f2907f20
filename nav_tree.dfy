/**
 * The navigation tree of `GetNavTree`: the home node, the starred
 * dashboards, the dashboards section's children, the profile node, the help
 * node and the order and presence rules of the top-level sections.
 *
 * The services the builders call become inputs: the home dashboard's url by
 * id, the user's starred dashboard ids (in the order the map is ranged
 * over), the dashboards the dashboard service finds, the API keys answer,
 * and the sections `addAppLinks` appends (or its error).
 */
module NavTree {
  import opened Wrappers
  import opened NavLinks
  import NavAdmin

  /** A dashboard as the dashboard service returns it. */
  datatype Dashboard = Dashboard(uid: string, title: string, url: string)

  // ---------------------------------------------------------------------
  // Home
  // ---------------------------------------------------------------------

  /**
   * `getHomeNode`. `homeUrls` maps the id of a dashboard to its url when the
   * lookup by id succeeds.
   */
  method GetHomeNode(cfg: NavConfig, features: Features, homeDashboardId: int, homeUrls: map<int, string>)
    returns (n: NavLink)
    ensures n.id == "home" && n.text == "Home"
    ensures homeDashboardId == 0 && |cfg.homePage| > 0 ==> n.url == cfg.homePage
    ensures homeDashboardId != 0 && homeDashboardId in homeUrls ==> n.url == homeUrls[homeDashboardId]
    ensures (homeDashboardId == 0 && |cfg.homePage| == 0) || (homeDashboardId != 0 && homeDashboardId !in homeUrls)
        ==> n.url == cfg.appSubUrl + "/"
    ensures n.hideFromMenu <==> !features.topnav
  {
    var homeUrl := cfg.appSubUrl + "/";
    var homePage := cfg.homePage;
    if homeDashboardId == 0 && |homePage| > 0 {
      homeUrl := homePage;
    }
    if homeDashboardId != 0 {
      if homeDashboardId in homeUrls {
        homeUrl := homeUrls[homeDashboardId];
      }
    }
    n := NavLink("home", "Home", "", homeUrl, false, false, false, []);
    if !features.topnav {
      n := n.(hideFromMenu := true);
    }
  }

  // ---------------------------------------------------------------------
  // Starred dashboards
  // ---------------------------------------------------------------------

  /** The loop stops once the counter has passed 50: 51 lookups at most. */
  const MaxStarredLookups: nat := 51

  /** The dashboards among `ids` that the lookup finds, in the order of `ids`. */
  function Found(ids: seq<int>, dashboards: map<int, Dashboard>): (r: seq<Dashboard>)
    ensures |r| <= |ids|
    ensures forall d :: d in r ==> exists i :: i in ids && i in dashboards && dashboards[i] == d
  {
    if |ids| == 0 then []
    else
      var last := ids[|ids| - 1];
      Found(ids[..|ids| - 1], dashboards) + (if last in dashboards then [dashboards[last]] else [])
  }

  /** The ids the loop looks up: the first 51 stars. */
  function Looked(ids: seq<int>): (r: seq<int>)
    ensures |r| <= MaxStarredLookups && |r| <= |ids| && r == ids[..|r|]
    ensures |ids| <= MaxStarredLookups ==> r == ids
  {
    if |ids| <= MaxStarredLookups then ids else ids[..MaxStarredLookups]
  }

  /** Go's `a < b` on strings: byte-wise, a proper prefix first. */
  predicate LexLess(a: string, b: string)
    decreases |a|
  {
    if |b| == 0 then false
    else if |a| == 0 then true
    else if a[0] != b[0] then a[0] < b[0]
    else LexLess(a[1..], b[1..])
  }

  lemma {:induction false} LexLessAsymmetric(a: string, b: string)
    ensures LexLess(a, b) ==> !LexLess(b, a)
    decreases |a|
  {
    if |a| > 0 && |b| > 0 && a[0] == b[0] {
      LexLessAsymmetric(a[1..], b[1..]);
    }
  }

  predicate SortedByTitle(s: seq<Dashboard>)
  {
    forall k :: 0 < k < |s| ==> !LexLess(s[k].title, s[k - 1].title)
  }

  predicate SortedByText(s: seq<NavLink>)
  {
    forall k :: 0 < k < |s| ==> !LexLess(s[k].text, s[k - 1].text)
  }

  /** Inserts `d` before the first dashboard whose title is not below its own. */
  function Insert(d: Dashboard, s: seq<Dashboard>): (r: seq<Dashboard>)
    ensures |r| == |s| + 1
    ensures r[0] == d || (|s| > 0 && r[0] == s[0])
  {
    if |s| == 0 || !LexLess(s[0].title, d.title) then [d] + s
    else [s[0]] + Insert(d, s[1..])
  }

  lemma {:induction false} InsertSorted(d: Dashboard, s: seq<Dashboard>)
    requires SortedByTitle(s)
    ensures SortedByTitle(Insert(d, s))
    ensures multiset(Insert(d, s)) == multiset(s) + multiset{d}
  {
    if |s| == 0 || !LexLess(s[0].title, d.title) {
    } else {
      var rest := Insert(d, s[1..]);
      assert SortedByTitle(s[1..]) by {
        forall k | 0 < k < |s[1..]| ensures !LexLess(s[1..][k].title, s[1..][k - 1].title) {
          assert s[1..][k] == s[k + 1] && s[1..][k - 1] == s[k];
        }
      }
      InsertSorted(d, s[1..]);
      LexLessAsymmetric(s[0].title, d.title);
      var r := [s[0]] + rest;
      forall k | 0 < k < |r| ensures !LexLess(r[k].title, r[k - 1].title) {
        if k >= 2 {
          assert r[k] == rest[k - 1] && r[k - 1] == rest[k - 2];
        }
      }
      assert s == [s[0]] + s[1..];
    }
  }

  /** `sort.Slice` by title: a sorted permutation (Go does not keep equal titles in order). */
  function SortByTitle(ds: seq<Dashboard>): (r: seq<Dashboard>)
    ensures |r| == |ds|
  {
    if |ds| == 0 then [] else Insert(ds[0], SortByTitle(ds[1..]))
  }

  lemma {:induction false} SortByTitleSorts(ds: seq<Dashboard>)
    ensures SortedByTitle(SortByTitle(ds))
    ensures multiset(SortByTitle(ds)) == multiset(ds)
  {
    if |ds| > 0 {
      SortByTitleSorts(ds[1..]);
      InsertSorted(ds[0], SortByTitle(ds[1..]));
      assert ds == [ds[0]] + ds[1..];
    }
  }

  /** The navigation link of a starred dashboard. */
  function LinkOf(d: Dashboard): (l: NavLink)
    ensures l.id == d.uid && l.text == d.title && l.url == d.url
  {
    Leaf(d.uid, d.title, d.url)
  }

  function LinksOf(ds: seq<Dashboard>): (r: seq<NavLink>)
    ensures |r| == |ds|
    ensures forall k :: 0 <= k < |ds| ==> r[k] == LinkOf(ds[k])
  {
    if |ds| == 0 then [] else LinksOf(ds[..|ds| - 1]) + [LinkOf(ds[|ds| - 1])]
  }

  /** Sorted titles give links sorted by text. */
  lemma LinksOfSorted(ds: seq<Dashboard>)
    requires SortedByTitle(ds)
    ensures SortedByText(LinksOf(ds))
  {
  }

  /**
   * `buildStarredItemsNavLinks`: up to 51 lookups, failed ones skipped, the
   * found dashboards in some order sorted by title, one link each.
   */
  method BuildStarredItemsNavLinks(stars: Result<seq<int>, string>, dashboards: map<int, Dashboard>)
    returns (r: Result<seq<NavLink>, string>)
    ensures stars.Failure? ==> r == Failure(stars.error)
    ensures stars.Success? ==>
      && r.Success?
      && SortedByText(r.value)
      && |r.value| <= MaxStarredLookups
      && exists sorted: seq<Dashboard> ::
           && SortedByTitle(sorted)
           && multiset(sorted) == multiset(Found(Looked(stars.value), dashboards))
           && r.value == LinksOf(sorted)
  {
    if stars.Failure? {
      return Failure(stars.error);
    }
    var ids := stars.value;
    var starred: seq<Dashboard> := [];
    var counter := 0;
    var i := 0;
    while i < |ids|
      invariant 0 <= i <= |ids| && counter == i <= MaxStarredLookups
      invariant starred == Found(ids[..i], dashboards)
    {
      if counter > 50 {
        break;
      }
      counter := counter + 1;
      assert ids[..i + 1][..i] == ids[..i];
      if ids[i] in dashboards {
        starred := starred + [dashboards[ids[i]]];
      }
      i := i + 1;
    }
    assert Looked(ids) == ids[..i];
    ghost var found := starred;
    starred := SortByTitle(starred);
    var links: seq<NavLink> := [];
    for k := 0 to |starred|
      invariant links == LinksOf(starred[..k])
    {
      assert starred[..k + 1][..k] == starred[..k];
      links := links + [LinkOf(starred[k])];
    }
    assert links == LinksOf(starred) by {
      assert starred[..|starred|] == starred;
    }
    SortByTitleSorts(found);
    LinksOfSorted(starred);
    r := Success(links);
  }

  // ---------------------------------------------------------------------
  // Dashboards section
  // ---------------------------------------------------------------------

  function BrowseNode(cfg: NavConfig): NavLink
  {
    Leaf("dashboards/browse", "Browse", cfg.appSubUrl + "/dashboards")
  }

  function ScenesNode(cfg: NavConfig): NavLink
  {
    Leaf("scenes", "Scenes", cfg.appSubUrl + "/scenes")
  }

  /** The divider is hidden from the tabs and marked as a divider. */
  function DividerNode(): NavLink
  {
    NavLink("divider", "Divider", "", "", false, true, true, [])
  }

  function LibraryPanelsNode(cfg: NavConfig): NavLink
  {
    NavLink("dashboards/library-panels", "Library panels", "Reusable panels that can be added to multiple dashboards",
            cfg.appSubUrl + "/library-panels", false, false, false, [])
  }

  /** The create links stay out of the page tabs. */
  function NewDashboardNode(cfg: NavConfig): NavLink
  {
    NavLink("dashboards/new", "New dashboard", "", cfg.appSubUrl + "/dashboard/new", false, true, false, [])
  }

  function NewFolderNode(cfg: NavConfig): NavLink
  {
    NavLink("dashboards/folder/new", "New folder", "Create a new folder to organize your dashboards",
            cfg.appSubUrl + "/dashboards/folder/new", false, true, false, [])
  }

  function ImportNode(cfg: NavConfig): NavLink
  {
    NavLink("dashboards/import", "Import", "Import dashboard from file or Grafana.com",
            cfg.appSubUrl + "/dashboard/import", false, true, false, [])
  }

  /** The ids of the divider and the create links. */
  const CreateIds: set<string> := {"divider", "dashboards/new", "dashboards/folder/new", "dashboards/import"}

  /** The browse, library panels, scenes and divider links that open the "Dashboards" section. */
  function DashboardHead(cfg: NavConfig, features: Features, isSignedIn: bool, hasEditPerm: bool): (r: seq<NavLink>)
    ensures |r| <= 4
  {
    var browse := PushIf([], !features.topnav, BrowseNode(cfg));
    var library := PushIf(browse, isSignedIn,
                          LibraryPanelsNode(cfg));
    var scenes := PushIf(library, features.scenes, ScenesNode(cfg));
    PushIf(scenes, hasEditPerm && !features.topnav,
           DividerNode())
  }

  /** The children of the "Dashboards" section, in the order they are appended. */
  function DashboardChildren(cfg: NavConfig, features: Features, access: Access, isSignedIn: bool, hasEditPerm: bool)
    : (r: seq<NavLink>)
    ensures |r| <= 7
  {
    var divider := DashboardHead(cfg, features, isSignedIn, hasEditPerm);
    var create := PushIf(divider, hasEditPerm && DashboardsCreate in access.granted,
                         NewDashboardNode(cfg));
    var folder := PushIf(create, hasEditPerm && !features.topnav && FoldersCreate in access.granted,
                         NewFolderNode(cfg));
    PushIf(folder, hasEditPerm && !features.topnav && DashboardsCreate in access.granted,
           ImportNode(cfg))
  }

  lemma BrowseLink(cfg: NavConfig, features: Features, access: Access, isSignedIn: bool, hasEditPerm: bool)
    ensures HasId(DashboardChildren(cfg, features, access, isSignedIn, hasEditPerm), "dashboards/browse")
        <==> !features.topnav
  {
  }

  /** Library panels are listed for every signed-in user. */
  lemma LibraryPanelsLink(cfg: NavConfig, features: Features, access: Access, isSignedIn: bool, hasEditPerm: bool)
    ensures HasId(DashboardChildren(cfg, features, access, isSignedIn, hasEditPerm), "dashboards/library-panels")
        <==> isSignedIn
  {
  }

  lemma ScenesLink(cfg: NavConfig, features: Features, access: Access, isSignedIn: bool, hasEditPerm: bool)
    ensures HasId(DashboardChildren(cfg, features, access, isSignedIn, hasEditPerm), "scenes")
        <==> features.scenes
  {
  }

  /** The divider separates the editing links, and only without topnav. */
  lemma DividerLink(cfg: NavConfig, features: Features, access: Access, isSignedIn: bool, hasEditPerm: bool)
    ensures HasId(DashboardChildren(cfg, features, access, isSignedIn, hasEditPerm), "divider")
        <==> hasEditPerm && !features.topnav
  {
  }

  lemma NewDashboardLink(cfg: NavConfig, features: Features, access: Access, isSignedIn: bool, hasEditPerm: bool)
    ensures HasId(DashboardChildren(cfg, features, access, isSignedIn, hasEditPerm), "dashboards/new")
        <==> hasEditPerm && DashboardsCreate in access.granted
  {
  }

  /** New folder and Import only without topnav, each with its own permission. */
  lemma NewFolderLink(cfg: NavConfig, features: Features, access: Access, isSignedIn: bool, hasEditPerm: bool)
    ensures HasId(DashboardChildren(cfg, features, access, isSignedIn, hasEditPerm), "dashboards/folder/new")
        <==> hasEditPerm && !features.topnav && FoldersCreate in access.granted
  {
  }

  lemma ImportLink(cfg: NavConfig, features: Features, access: Access, isSignedIn: bool, hasEditPerm: bool)
    ensures HasId(DashboardChildren(cfg, features, access, isSignedIn, hasEditPerm), "dashboards/import")
        <==> hasEditPerm && !features.topnav && DashboardsCreate in access.granted
  {
  }

  /** The section's children are the head links, then the create links in their order. */
  lemma DashboardChildrenSteps(cfg: NavConfig, features: Features, access: Access, isSignedIn: bool, hasEditPerm: bool)
    ensures DashboardChildren(cfg, features, access, isSignedIn, hasEditPerm)
      == PushIf(PushIf(PushIf(PushIf(PushIf(PushIf(PushIf([], !features.topnav, BrowseNode(cfg)),
                                                      isSignedIn, LibraryPanelsNode(cfg)),
                                               features.scenes, ScenesNode(cfg)),
                                        hasEditPerm && !features.topnav, DividerNode()),
                                 hasEditPerm && DashboardsCreate in access.granted, NewDashboardNode(cfg)),
                          hasEditPerm && !features.topnav && FoldersCreate in access.granted, NewFolderNode(cfg)),
                   hasEditPerm && !features.topnav && DashboardsCreate in access.granted, ImportNode(cfg))
  {
  }

  /** The divider and the create links are never shown as page tabs. */
  lemma CreateLinksHiddenFromTabs(cfg: NavConfig, features: Features, access: Access, isSignedIn: bool, hasEditPerm: bool)
    ensures forall l :: l in DashboardChildren(cfg, features, access, isSignedIn, hasEditPerm) ==>
      (l.hideFromTabs <==> l.id in CreateIds)
  {
    var browse := BrowseNode(cfg);
    var scenes := ScenesNode(cfg);
    var divider := DividerNode();
    var all := [browse, LibraryPanelsNode(cfg), scenes, divider, NewDashboardNode(cfg), NewFolderNode(cfg), ImportNode(cfg)];
    forall l | l in all ensures l.hideFromTabs <==> l.id in CreateIds {
      assert browse.id !in CreateIds && scenes.id !in CreateIds && LibraryPanelsNode(cfg).id !in CreateIds;
    }
    assert forall l :: l in DashboardChildren(cfg, features, access, isSignedIn, hasEditPerm) ==> l in all;
  }

  /** `buildDashboardNavLinks`. */
  method BuildDashboardNavLinks(cfg: NavConfig, features: Features, access: Access, isSignedIn: bool,
                                hasEditPerm: bool)
    returns (links: seq<NavLink>)
    ensures links == DashboardChildren(cfg, features, access, isSignedIn, hasEditPerm)
    ensures |links| <= 7
  {
    links := [];
    links := PushIf(links, !features.topnav, BrowseNode(cfg));
    links := PushIf(links, isSignedIn, LibraryPanelsNode(cfg));
    links := PushIf(links, features.scenes, ScenesNode(cfg));
    links := PushIf(links, hasEditPerm && !features.topnav, DividerNode());
    // the nested `if hasEditPerm { if hasAccess(...) { append } }` blocks
    links := PushIf(links, hasEditPerm && DashboardsCreate in access.granted, NewDashboardNode(cfg));
    links := PushIf(links, hasEditPerm && !features.topnav && FoldersCreate in access.granted, NewFolderNode(cfg));
    links := PushIf(links, hasEditPerm && !features.topnav && DashboardsCreate in access.granted, ImportNode(cfg));
    DashboardChildrenSteps(cfg, features, access, isSignedIn, hasEditPerm);
  }

  // ---------------------------------------------------------------------
  // Profile and help
  // ---------------------------------------------------------------------

  /** The children of the profile node. */
  function ProfileChildren(cfg: NavConfig): seq<NavLink>
  {
    var base := [Leaf("profile/settings", "Preferences", cfg.appSubUrl + "/profile"),
                 Leaf("profile/notifications", "Notification history", cfg.appSubUrl + "/profile/notifications")];
    var password := PushIf(base, cfg.addChangePasswordLink,
                           Leaf("profile/password", "Change password", cfg.appSubUrl + "/profile/password"));
    PushIf(password, !cfg.disableSignoutMenu,
           NavLink("sign-out", "Sign out", "", cfg.appSubUrl + "/logout", false, true, false, []))
  }

  /** "Sign out" is the last child unless disabled; the first is always the preferences page. */
  lemma SignOutLast(cfg: NavConfig)
    ensures var ch := ProfileChildren(cfg);
      && |ch| >= 2
      && ch[0].id == "profile/settings"
      && (!cfg.disableSignoutMenu ==> ch[|ch| - 1].id == "sign-out")
      && (cfg.disableSignoutMenu ==> !HasId(ch, "sign-out"))
  {
  }

  /** `getProfileNode`: the login is the subtitle only when it differs from the display name. */
  method GetProfileNode(cfg: NavConfig, user: NavUser) returns (n: NavLink)
    ensures n.id == "profile" && n.text == user.nameOrFallback
    ensures n.subTitle == (if user.login != user.nameOrFallback then user.login else "")
    ensures n.children == ProfileChildren(cfg)
  {
    var login := "";
    if user.login != user.nameOrFallback {
      login := user.login;
    }
    var children := [Leaf("profile/settings", "Preferences", cfg.appSubUrl + "/profile")];
    children := children + [Leaf("profile/notifications", "Notification history", cfg.appSubUrl + "/profile/notifications")];
    children := PushIf(children, cfg.addChangePasswordLink,
      Leaf("profile/password", "Change password", cfg.appSubUrl + "/profile/password"));
    children := PushIf(children, !cfg.disableSignoutMenu,
      NavLink("sign-out", "Sign out", "", cfg.appSubUrl + "/logout", false, true, false, []));
    n := NavLink("profile", user.nameOrFallback, login, cfg.appSubUrl + "/profile", false, false, false, children);
  }

  /** The help node's subtitle: `<name> v<version> (<commit>)`, only the name for hidden versions. */
  function HelpVersion(cfg: NavConfig, isSignedIn: bool): string
  {
    if cfg.anonymousHideVersion && !isSignedIn then cfg.applicationName
    else cfg.applicationName + " v" + cfg.buildVersion + " (" + cfg.buildCommit + ")"
  }

  lemma HelpVersionShown(cfg: NavConfig, isSignedIn: bool)
    ensures isSignedIn || !cfg.anonymousHideVersion ==>
      HelpVersion(cfg, isSignedIn)[..|cfg.applicationName| + 2] == cfg.applicationName + " v"
    ensures !isSignedIn && cfg.anonymousHideVersion ==> HelpVersion(cfg, isSignedIn) == cfg.applicationName
  {
    if isSignedIn || !cfg.anonymousHideVersion {
      var v := HelpVersion(cfg, isSignedIn);
      assert v == (cfg.applicationName + " v") + (cfg.buildVersion + " (" + cfg.buildCommit + ")");
    }
  }

  function HelpNode(cfg: NavConfig, isSignedIn: bool): NavLink
  {
    NavLink("help", "Help", HelpVersion(cfg, isSignedIn), "#", false, false, false, [])
  }

  /** `addHelpLinks`: the help section is appended when help is enabled. */
  method AddHelpLinks(cfg: NavConfig, isSignedIn: bool, sections: seq<NavLink>) returns (r: seq<NavLink>)
    ensures cfg.helpEnabled ==> r == sections + [HelpNode(cfg, isSignedIn)]
    ensures !cfg.helpEnabled ==> r == sections
  {
    r := sections;
    if cfg.helpEnabled {
      var helpVersion := cfg.applicationName + " v" + cfg.buildVersion + " (" + cfg.buildCommit + ")";
      if cfg.anonymousHideVersion && !isSignedIn {
        helpVersion := cfg.applicationName;
      }
      r := r + [NavLink("help", "Help", helpVersion, "#", false, false, false, [])];
    }
  }

  // ---------------------------------------------------------------------
  // The tree
  // ---------------------------------------------------------------------

  function StarredSection(children: seq<NavLink>): NavLink
  {
    NavLink("starred", "Starred", "", "", false, false, false, children)
  }

  function DashboardsSection(cfg: NavConfig, children: seq<NavLink>): NavLink
  {
    NavLink("dashboards", "Dashboards", "Create and manage dashboards to visualize your data",
            cfg.appSubUrl + "/dashboards", false, false, false, children)
  }

  function QueryLibrarySection(cfg: NavConfig): NavLink
  {
    NavLink("query", "Query Library", "", cfg.appSubUrl + "/query-library", false, false, false, [])
  }

  /** `buildDataConnectionsNavLink`. */
  function ConnectionsSection(cfg: NavConfig): NavLink
  {
    NavLink("connections", "Connections", "", cfg.appSubUrl + "/connections", false, false, false,
            [Leaf("connections-connect-data", "Connect data", cfg.appSubUrl + "/connections/connect-data")])
  }

  function LiveSection(cfg: NavConfig): NavLink
  {
    NavLink("live", "Live", "Event streaming", cfg.appSubUrl + "/live", false, true, false,
            [Leaf("live-status", "Status", cfg.appSubUrl + "/live"),
             Leaf("live-pipeline", "Pipeline", cfg.appSubUrl + "/live/pipeline"),
             Leaf("live-cloud", "Cloud", cfg.appSubUrl + "/live/cloud")])
  }

  /** The nodes `GetNavTree`'s helpers build. */
  datatype Built = Built(
    home: NavLink,
    starred: seq<NavLink>,
    dashboardChildren: seq<NavLink>,
    profile: NavLink,
    orgAdmin: NavLink,
    serverAdmin: NavLink)

  /** The ids the helpers give their nodes. */
  predicate Identified(b: Built)
  {
    b.home.id == "home" && b.profile.id == "profile" && b.orgAdmin.id == "cfg" && b.serverAdmin.id == "admin"
  }

  /** The sections up to the live section, in the order `GetNavTree` appends them. */
  function TopSections(cfg: NavConfig, features: Features, access: Access, user: NavUser, b: Built): seq<NavLink>
  {
    var withStarred := PushIf([b.home], DashboardsRead in access.granted, StarredSection(b.starred));
    var withDashboards := PushIf(withStarred, DashboardsRead in access.granted || DashboardsCreate in access.granted,
                                 DashboardsSection(cfg, b.dashboardChildren));
    var withQuery := PushIf(withDashboards, !cfg.queryLibraryDisabled, QueryLibrarySection(cfg));
    var withProfile := PushIf(withQuery, cfg.profileEnabled && user.isSignedIn, b.profile);
    var withConnections := PushIf(withProfile, features.dataConnectionsConsole, ConnectionsSection(cfg));
    PushIf(withConnections, features.livePipeline, LiveSection(cfg))
  }

  /** All sections before the app links: the top ones, both admin nodes and the help node. */
  function Sections(cfg: NavConfig, features: Features, access: Access, user: NavUser, b: Built): seq<NavLink>
  {
    PushIf(Push(Push(TopSections(cfg, features, access, user, b), b.orgAdmin), b.serverAdmin),
           cfg.helpEnabled, HelpNode(cfg, user.isSignedIn))
  }

  /** The ids among the top sections. */
  lemma TopSectionIds(cfg: NavConfig, features: Features, access: Access, user: NavUser, b: Built, id: string)
    ensures HasId(TopSections(cfg, features, access, user, b), id) <==>
      || id == b.home.id
      || (DashboardsRead in access.granted && id == "starred")
      || ((DashboardsRead in access.granted || DashboardsCreate in access.granted) && id == "dashboards")
      || (!cfg.queryLibraryDisabled && id == "query")
      || (cfg.profileEnabled && user.isSignedIn && id == b.profile.id)
      || (features.dataConnectionsConsole && id == "connections")
      || (features.livePipeline && id == "live")
  {
    assert HasId([b.home], id) <==> id == b.home.id by {
      assert [b.home][0] == b.home;
    }
  }

  /** The ids among all sections. */
  lemma SectionIds(cfg: NavConfig, features: Features, access: Access, user: NavUser, b: Built, id: string)
    ensures HasId(Sections(cfg, features, access, user, b), id) <==>
      || HasId(TopSections(cfg, features, access, user, b), id)
      || id == b.orgAdmin.id
      || id == b.serverAdmin.id
      || (cfg.helpEnabled && id == "help")
  {
  }

  /** The starred section exists iff dashboards may be read. */
  lemma StarredSectionIff(cfg: NavConfig, features: Features, access: Access, user: NavUser, b: Built)
    requires Identified(b)
    ensures HasId(Sections(cfg, features, access, user, b), "starred") <==> DashboardsRead in access.granted
  {
    SectionIds(cfg, features, access, user, b, "starred");
    TopSectionIds(cfg, features, access, user, b, "starred");
    assert "starred"[0] != "profile"[0];
  }

  /** The dashboards section needs dashboards read or create. */
  lemma DashboardsSectionIff(cfg: NavConfig, features: Features, access: Access, user: NavUser, b: Built)
    requires Identified(b)
    ensures HasId(Sections(cfg, features, access, user, b), "dashboards") <==> DashboardsRead in access.granted || DashboardsCreate in access.granted
  {
    SectionIds(cfg, features, access, user, b, "dashboards");
    TopSectionIds(cfg, features, access, user, b, "dashboards");
  }

  lemma QueryLibrarySectionIff(cfg: NavConfig, features: Features, access: Access, user: NavUser, b: Built)
    requires Identified(b)
    ensures HasId(Sections(cfg, features, access, user, b), "query") <==> !cfg.queryLibraryDisabled
  {
    SectionIds(cfg, features, access, user, b, "query");
    TopSectionIds(cfg, features, access, user, b, "query");
    assert "query"[0] != "admin"[0];
  }

  /** The profile section only for signed-in users with profiles enabled. */
  lemma ProfileSectionIff(cfg: NavConfig, features: Features, access: Access, user: NavUser, b: Built)
    requires Identified(b)
    ensures HasId(Sections(cfg, features, access, user, b), "profile") <==> cfg.profileEnabled && user.isSignedIn
  {
    SectionIds(cfg, features, access, user, b, "profile");
    TopSectionIds(cfg, features, access, user, b, "profile");
    assert "starred"[0] != "profile"[0];
  }

  lemma ConnectionsSectionIff(cfg: NavConfig, features: Features, access: Access, user: NavUser, b: Built)
    requires Identified(b)
    ensures HasId(Sections(cfg, features, access, user, b), "connections") <==> features.dataConnectionsConsole
  {
    SectionIds(cfg, features, access, user, b, "connections");
    TopSectionIds(cfg, features, access, user, b, "connections");
  }

  lemma LiveSectionIff(cfg: NavConfig, features: Features, access: Access, user: NavUser, b: Built)
    requires Identified(b)
    ensures HasId(Sections(cfg, features, access, user, b), "live") <==> features.livePipeline
  {
    SectionIds(cfg, features, access, user, b, "live");
    TopSectionIds(cfg, features, access, user, b, "live");
    assert "live"[0] != "home"[0];
    assert "live"[0] != "help"[0];
  }

  lemma HelpSectionIff(cfg: NavConfig, features: Features, access: Access, user: NavUser, b: Built)
    requires Identified(b)
    ensures HasId(Sections(cfg, features, access, user, b), "help") <==> cfg.helpEnabled
  {
    SectionIds(cfg, features, access, user, b, "help");
    TopSectionIds(cfg, features, access, user, b, "help");
    assert "help"[1] != "home"[1];
    assert "help"[0] != "live"[0];
  }

  /** The organisation and server admin sections are always there. */
  lemma AdminSections(cfg: NavConfig, features: Features, access: Access, user: NavUser, b: Built)
    ensures HasId(Sections(cfg, features, access, user, b), b.orgAdmin.id)
    ensures HasId(Sections(cfg, features, access, user, b), b.serverAdmin.id)
  {
  }

  /** The home node comes first. */
  lemma HomeFirst(cfg: NavConfig, features: Features, access: Access, user: NavUser, b: Built)
    ensures |Sections(cfg, features, access, user, b)| >= 3
    ensures Sections(cfg, features, access, user, b)[0] == b.home
  {
    var top := TopSections(cfg, features, access, user, b);
    assert top[0] == b.home by {
      var withStarred := PushIf([b.home], DashboardsRead in access.granted, StarredSection(b.starred));
      var withDashboards := PushIf(withStarred, DashboardsRead in access.granted || DashboardsCreate in access.granted,
                                   DashboardsSection(cfg, b.dashboardChildren));
      var withQuery := PushIf(withDashboards, !cfg.queryLibraryDisabled, QueryLibrarySection(cfg));
      var withProfile := PushIf(withQuery, cfg.profileEnabled && user.isSignedIn, b.profile);
      var withConnections := PushIf(withProfile, features.dataConnectionsConsole, ConnectionsSection(cfg));
      assert withStarred[0] == b.home;
      assert withDashboards[0] == b.home;
      assert withQuery[0] == b.home;
      assert withProfile[0] == b.home;
      assert withConnections[0] == b.home;
    }
  }

  /**
   * The nodes of the starred and dashboards sections of `GetNavTree`: the
   * starred links when dashboards may be read, the dashboards section's
   * children when they may be read or created.
   */
  method BuildDashboardNodes(cfg: NavConfig, features: Features, access: Access, user: NavUser, hasEditPerm: bool,
                             stars: Result<seq<int>, string>, dashboards: map<int, Dashboard>)
    returns (r: Result<(seq<NavLink>, seq<NavLink>), string>)
    ensures r.Failure? <==> DashboardsRead in access.granted && stars.Failure?
    ensures r.Success? ==> SortedByText(r.value.0) && |r.value.0| <= MaxStarredLookups
    ensures r.Success? && DashboardsRead !in access.granted ==> r.value.0 == []
    ensures r.Success? && DashboardsRead !in access.granted && DashboardsCreate !in access.granted ==> r.value.1 == []
  {
    var starred: seq<NavLink> := [];
    if DashboardsRead in access.granted {
      var starredLinks := BuildStarredItemsNavLinks(stars, dashboards);
      if starredLinks.Failure? {
        return Failure(starredLinks.error);
      }
      starred := starredLinks.value;
    }
    var dashboardChildren: seq<NavLink> := [];
    if DashboardsRead in access.granted || DashboardsCreate in access.granted {
      dashboardChildren := BuildDashboardNavLinks(cfg, features, access, user.isSignedIn, hasEditPerm);
    }
    r := Success((starred, dashboardChildren));
  }

  /** The organisation and server admin nodes; the API key service's error aborts. */
  method BuildAdminNodes(cfg: NavConfig, features: Features, access: Access, user: NavUser,
                         hideApiKeys: string, apiKeys: Result<nat, string>)
    returns (r: Result<(NavLink, NavLink), string>)
    ensures r.Failure? <==> apiKeys.Failure?
    ensures r.Success? ==> r.value.0.id == "cfg" && r.value.1.id == "admin"
  {
    var orgAdmin := NavAdmin.GetOrgAdminNode(cfg, features, access, user, hideApiKeys, apiKeys);
    if orgAdmin.Failure? {
      return Failure(orgAdmin.error);
    }
    var serverAdmin := NavAdmin.GetServerAdminNode(cfg, features, access);
    r := Success((orgAdmin.value, serverAdmin));
  }

  /**
   * `GetNavTree`. The helpers build their nodes, then the sections are
   * appended in the order `Sections` gives, then the app links. Each service
   * error aborts the whole tree: the star lookup's (only asked when
   * dashboards may be read), the API key service's and the app links'.
   */
  method GetNavTree(cfg: NavConfig, features: Features, access: Access, user: NavUser, hasEditPerm: bool,
                    homeDashboardId: int, homeUrls: map<int, string>,
                    stars: Result<seq<int>, string>, dashboards: map<int, Dashboard>,
                    hideApiKeys: string, apiKeys: Result<nat, string>,
                    appLinks: Result<seq<NavLink>, string>)
    returns (r: Result<seq<NavLink>, string>)
    ensures r.Failure? <==>
      (DashboardsRead in access.granted && stars.Failure?) || apiKeys.Failure? || appLinks.Failure?
    ensures r.Success? ==> exists b: Built ::
      && Identified(b)
      && r.value == Sections(cfg, features, access, user, b) + appLinks.value
  {
    var home := GetHomeNode(cfg, features, homeDashboardId, homeUrls);
    var dashboardNodes := BuildDashboardNodes(cfg, features, access, user, hasEditPerm, stars, dashboards);
    if dashboardNodes.Failure? {
      return Failure(dashboardNodes.error);
    }
    var profile := GetProfileNode(cfg, user);
    var adminNodes := BuildAdminNodes(cfg, features, access, user, hideApiKeys, apiKeys);
    if adminNodes.Failure? {
      return Failure(adminNodes.error);
    }
    var b := Built(home, dashboardNodes.value.0, dashboardNodes.value.1, profile, adminNodes.value.0,
                   adminNodes.value.1);
    if appLinks.Failure? {
      return Failure(appLinks.error);
    }
    assert Identified(b);
    r := Success(Sections(cfg, features, access, user, b) + appLinks.value);
  }
}
