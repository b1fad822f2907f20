/**
 * The dashboard settings view: the settings pages a dashboard offers
 * (`getSettingsPages`), the page the `editview` parameter selects, the
 * section navigation built around it (`getSectionNav`), the `editIndex`
 * parameter (`getEditIndex`) and what a successful save resets.
 *
 * `locationUtil.getUrlForPartial` is a parameter; the page components are
 * not part of this model.
 */
module DashboardSettings {
  import opened Wrappers
  import opened JsonValue
  import JsNumber
  import Dashboard

  datatype SettingsPage = SettingsPage(title: string, id: string, icon: string)

  const GeneralPage: SettingsPage := SettingsPage("General", "settings", "sliders-v-alt")
  const VersionsPage: SettingsPage := SettingsPage("Versions", "versions", "history")
  const PermissionsPage: SettingsPage := SettingsPage("Permissions", "permissions", "lock")
  const JsonModelPage: SettingsPage := SettingsPage("JSON Model", "dashboard_json", "arrow")

  /**
   * The pages offered: General when the dashboard is editable, Versions and
   * Permissions for a saved dashboard (a truthy id) the user may save,
   * respectively administer, and the JSON model always, last.
   */
  function PagesFor(canEdit: bool, hasId: bool, canSave: bool, canAdmin: bool): seq<SettingsPage>
  {
    (if canEdit then [GeneralPage] else [])
    + (if hasId && canSave then [VersionsPage] else [])
    + (if hasId && canAdmin then [PermissionsPage] else [])
    + [JsonModelPage]
  }

  lemma GeneralIffEditable(canEdit: bool, hasId: bool, canSave: bool, canAdmin: bool)
    ensures GeneralPage in PagesFor(canEdit, hasId, canSave, canAdmin) <==> canEdit
  {
  }

  lemma VersionsIffSavable(canEdit: bool, hasId: bool, canSave: bool, canAdmin: bool)
    ensures VersionsPage in PagesFor(canEdit, hasId, canSave, canAdmin) <==> hasId && canSave
  {
  }

  lemma PermissionsIffAdministrable(canEdit: bool, hasId: bool, canSave: bool, canAdmin: bool)
    ensures PermissionsPage in PagesFor(canEdit, hasId, canSave, canAdmin) <==> hasId && canAdmin
  {
  }

  /** The JSON model page is always there, last, and only there. */
  lemma JsonModelLast(canEdit: bool, hasId: bool, canSave: bool, canAdmin: bool)
    ensures var pages := PagesFor(canEdit, hasId, canSave, canAdmin);
      && |pages| > 0 && pages[|pages| - 1] == JsonModelPage
      && forall i :: 0 <= i < |pages| - 1 ==> pages[i] != JsonModelPage
  {
  }

  /** The pages' ids are distinct, so a page is found by its id. */
  lemma PageIdsDistinct(canEdit: bool, hasId: bool, canSave: bool, canAdmin: bool)
    ensures var pages := PagesFor(canEdit, hasId, canSave, canAdmin);
      forall i, j :: 0 <= i < j < |pages| ==> pages[i].id != pages[j].id
  {
    assert "settings"[0] != "versions"[0] && "settings"[0] != "permissions"[0] && "settings"[0] != "dashboard_json"[0];
    assert "versions"[0] != "permissions"[0] && "versions"[0] != "dashboard_json"[0];
    assert "permissions"[0] != "dashboard_json"[0];
  }

  /** `dashboard.id`'s truthiness: a number other than 0 (`null` is `None`). */
  predicate HasId(dashboardId: Option<int>)
  {
    dashboardId.Some? && dashboardId.value != 0
  }

  /** `getSettingsPages(dashboard)`; the dashboard's id is `dashboardId`. */
  method GetSettingsPages(meta: map<string, Value>, dashboardId: Option<int>) returns (pages: seq<SettingsPage>)
    ensures pages == PagesFor(Truthy(Dashboard.MetaGet(meta, "canEdit")), HasId(dashboardId),
                              Truthy(Dashboard.MetaGet(meta, "canSave")), Truthy(Dashboard.MetaGet(meta, "canAdmin")))
  {
    pages := [];
    if Truthy(Dashboard.MetaGet(meta, "canEdit")) {
      pages := pages + [GeneralPage];
    }
    if HasId(dashboardId) && Truthy(Dashboard.MetaGet(meta, "canSave")) {
      pages := pages + [VersionsPage];
    }
    if HasId(dashboardId) && Truthy(Dashboard.MetaGet(meta, "canAdmin")) {
      pages := pages + [PermissionsPage];
    }
    pages := pages + [JsonModelPage];
  }

  /** `pages.find(page => page.id === editview)`, as an index. */
  function FindPage(pages: seq<SettingsPage>, editview: string): (r: Option<nat>)
    ensures r.Some? ==> r.value < |pages| && pages[r.value].id == editview
                        && forall j :: 0 <= j < r.value ==> pages[j].id != editview
    ensures r.None? <==> forall j :: 0 <= j < |pages| ==> pages[j].id != editview
  {
    if pages == [] then None
    else if pages[0].id == editview then Some(0)
    else
      var rest := FindPage(pages[1..], editview);
      assert forall j :: 1 <= j < |pages| ==> pages[j] == pages[1..][j - 1];
      if rest.Some? then Some(rest.value + 1) else None
  }

  /**
   * The current page: the one `editview` names, else the first (`?? pages[0]`);
   * as there is always a page, it always exists.
   */
  function CurrentPage(pages: seq<SettingsPage>, editview: string): (r: nat)
    requires |pages| > 0
    ensures r < |pages|
    ensures (exists j :: 0 <= j < |pages| && pages[j].id == editview) ==> pages[r].id == editview
    ensures (forall j :: 0 <= j < |pages| ==> pages[j].id != editview) ==> r == 0
  {
    var found := FindPage(pages, editview);
    if found.Some? then found.value else 0
  }

  /** A navigation model item; the children's links back to their parent are not kept. */
  datatype NavItem = NavItem(
    text: string,
    id: string,
    icon: string,
    url: string,
    active: bool,
    hideFromBreadcrumbs: bool,
    parentItem: Option<NavItem>,
    children: seq<NavItem>)

  datatype NavModel = NavModel(main: NavItem, node: NavItem)

  /** The page's entry in the section navigation. */
  function PageItem(page: SettingsPage, active: bool, urlFor: string -> string): NavItem
  {
    NavItem(page.title, page.id, page.icon, urlFor(page.id), active, false, None, [])
  }

  /** The page navigation hung under the section's node, one ancestor up when it has a parent. */
  function Reparented(pageNav: NavItem, sectionNode: NavItem): (r: NavItem)
    ensures r.text == pageNav.text && r.id == pageNav.id && r.url == pageNav.url && r.children == pageNav.children
    ensures pageNav.parentItem.None? ==> r.parentItem == Some(sectionNode)
    ensures pageNav.parentItem.Some? ==>
      && r.parentItem.Some?
      && r.parentItem.value == pageNav.parentItem.value.(parentItem := Some(sectionNode))
  {
    if pageNav.parentItem.Some? then
      pageNav.(parentItem := Some(pageNav.parentItem.value.(parentItem := Some(sectionNode))))
    else pageNav.(parentItem := Some(sectionNode))
  }

  /** `children.find(x => x.active)`, as an index. */
  function FirstActive(children: seq<NavItem>): (r: Option<nat>)
    ensures r.Some? ==> r.value < |children| && children[r.value].active
                        && forall j :: 0 <= j < r.value ==> !children[j].active
    ensures r.None? <==> forall j :: 0 <= j < |children| ==> !children[j].active
  {
    if children == [] then None
    else if children[0].active then Some(0)
    else
      var rest := FirstActive(children[1..]);
      assert forall j :: 1 <= j < |children| ==> children[j] == children[1..][j - 1];
      if rest.Some? then Some(rest.value + 1) else None
  }

  /**
   * `getSectionNav(pageNav, sectionNav, pages, currentPage, location)`: a
   * "Settings" item with one child per page, exactly the current one
   * active, and that child as the node; `urlFor(id)` is the location with
   * `editview` set to `id` and `editIndex` removed.
   */
  function GetSectionNav(pageNav: NavItem, sectionNode: NavItem, pages: seq<SettingsPage>, current: nat,
                         urlFor: string -> string): (r: NavModel)
    requires current < |pages|
    ensures |r.main.children| == |pages|
    ensures forall i :: 0 <= i < |pages| ==> r.main.children[i] == PageItem(pages[i], i == current, urlFor)
    ensures forall i :: 0 <= i < |pages| ==> (r.main.children[i].active <==> i == current)
    ensures r.node == r.main.children[current]
    ensures r.main.text == "Settings" && r.main.icon == "apps" && r.main.hideFromBreadcrumbs
    ensures r.main.parentItem == Some(Reparented(pageNav, sectionNode))
  {
    var children := seq(|pages|, i requires 0 <= i < |pages| => PageItem(pages[i], i == current, urlFor));
    var main := NavItem("Settings", "", "apps", "", false, true, Some(Reparented(pageNav, sectionNode)), children);
    var node := FirstActive(children);
    assert children[current].active;
    NavModel(main, children[node.value])
  }

  /**
   * `getEditIndex(location)`: `None` when the query has no `editIndex`,
   * else `parseInt` of its (first) value, where `Some(None)` is `NaN`.
   */
  function GetEditIndex(search: map<string, string>): (r: Option<Option<int>>)
    ensures r.None? <==> "editIndex" !in search
  {
    if "editIndex" in search then Some(JsNumber.ParseInt(search["editIndex"])) else None
  }

  /** An index written into the query is the index read back. */
  lemma EditIndexRoundTrip(search: map<string, string>, index: int)
    ensures GetEditIndex(search["editIndex" := JsNumber.IntToString(index)]) == Some(Some(index))
  {
    JsNumber.ParseIntOfIntToString(index);
  }

  /** `onPostSave`: a saved dashboard has no unsaved folder change. */
  method OnPostSave(dashboard: Dashboard.DashboardModel)
    modifies dashboard
    ensures dashboard.meta == old(dashboard.meta)["hasUnsavedFolderChange" := Bool(false)]
    ensures dashboard.panels == old(dashboard.panels) && dashboard.panelInEdit == old(dashboard.panelInEdit)
    ensures dashboard.panelInView == old(dashboard.panelInView) && dashboard.events == old(dashboard.events)
    ensures dashboard.nextRef == old(dashboard.nextRef)
  {
    dashboard.meta := dashboard.meta["hasUnsavedFolderChange" := Bool(false)];
  }
}
