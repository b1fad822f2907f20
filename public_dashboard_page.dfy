/**
 * The public dashboard page's state: which panel is edited or viewed, as
 * the URL's `editPanel` and `viewPanel` parameters ask
 * (`getDerivedStateFromProps`), the scroll position to restore, the error
 * flags, and the page navigation (`updateStatePageNavFromProps`).
 *
 * The dashboard's title and folder, the scroll element's position, the URL
 * of the dashboard without edit or view parameters and the section
 * navigation model the route selects are inputs; a navigation model is
 * identified by its object identity (`nat`).
 */
module PublicDashboardPage {
  import opened Wrappers
  import opened JsonValue
  import Dashboard

  /** A page navigation item. */
  datatype PageNav = PageNav(text: string, url: Option<string>, parentItem: Option<PageNav>)

  datatype PageState = PageState(
    editPanel: Option<Dashboard.DashPanel>,
    viewPanel: Option<Dashboard.DashPanel>,
    updateScrollTop: Option<int>,
    rememberScrollTop: Option<int>,
    showLoadingState: bool,
    panelNotFound: bool,
    editPanelAccessDenied: bool,
    /** `scrollElement?.scrollTop`: `None` without a scroll element. */
    scrollTop: Option<int>,
    pageNav: Option<PageNav>,
    sectionNav: Option<nat>)

  /** What the page reads of the dashboard besides its panels: the title and the folder in its meta. */
  datatype DashboardInfo = DashboardInfo(title: string, folderTitle: Option<string>, folderUid: Option<string>)

  /** A truthy string: present and not empty. */
  predicate Present(s: Option<string>)
  {
    s.Some? && s.value != ""
  }

  /** `getCleanState()`. */
  function CleanState(): (s: PageState)
    ensures s.editPanel.None? && s.viewPanel.None?
    ensures !s.showLoadingState && !s.panelNotFound && !s.editPanelAccessDenied
    ensures s.updateScrollTop.None? && s.rememberScrollTop.None? && s.pageNav.None? && s.sectionNav.None?
  {
    PageState(None, None, None, None, false, false, false, None, None, None)
  }

  /**
   * The edit part of `getDerivedStateFromProps`: `found` is the panel the
   * URL's `editPanel` names and `editable` whether the dashboard lets it be
   * edited.
   */
  function EditStep(state: PageState, urlEditPanelId: Option<string>, found: Option<Dashboard.DashPanel>,
                    editable: bool): PageState
  {
    if state.editPanel.None? && Present(urlEditPanelId) then
      if found.Some? then
        if editable then state.(editPanel := found, rememberScrollTop := state.scrollTop)
        else state.(editPanelAccessDenied := true)
      else state.(panelNotFound := true)
    else if state.editPanel.Some? && !Present(urlEditPanelId) then
      state.(editPanel := None, updateScrollTop := state.rememberScrollTop)
    else state
  }

  /** The view part, applied to the state the edit part left; `found` is the panel `viewPanel` names. */
  function ViewStep(before: PageState, state: PageState, urlViewPanelId: Option<string>,
                    found: Option<Dashboard.DashPanel>): PageState
  {
    if before.viewPanel.None? && Present(urlViewPanelId) then
      if found.Some? then state.(viewPanel := found, rememberScrollTop := before.scrollTop, updateScrollTop := Some(0))
      else state.(panelNotFound := true)
    else if before.viewPanel.Some? && !Present(urlViewPanelId) then
      state.(viewPanel := None, updateScrollTop := before.rememberScrollTop)
    else state
  }

  /** The flags a previous error left, cleared once the URL no longer asks for it. */
  function ClearStep(before: PageState, state: PageState, urlEditPanelId: Option<string>): PageState
  {
    if before.panelNotFound || (before.editPanelAccessDenied && !Present(urlEditPanelId)) then
      state.(panelNotFound := false, editPanelAccessDenied := false)
    else state
  }

  /** The state `getDerivedStateFromProps` derives before the page navigation is updated. */
  function Derived(state: PageState, urlEditPanelId: Option<string>, urlViewPanelId: Option<string>,
                   editFound: Option<Dashboard.DashPanel>, editable: bool,
                   viewFound: Option<Dashboard.DashPanel>): PageState
  {
    ClearStep(state, ViewStep(state, EditStep(state, urlEditPanelId, editFound, editable), urlViewPanelId, viewFound),
              urlEditPanelId)
  }

  /** Entering edit with a URL id: the panel when found and editable, else the matching error flag. */
  lemma EnteringEdit(state: PageState, urlEdit: Option<string>, urlView: Option<string>,
                     editFound: Option<Dashboard.DashPanel>, editable: bool, viewFound: Option<Dashboard.DashPanel>)
    requires state.editPanel.None? && Present(urlEdit) && !state.panelNotFound && !state.editPanelAccessDenied
    requires state.viewPanel.Some? == Present(urlView)
    ensures var r := Derived(state, urlEdit, urlView, editFound, editable, viewFound);
      && (editFound.Some? && editable ==> r.editPanel == editFound && r.rememberScrollTop == state.scrollTop)
      && (editFound.Some? && !editable ==> r.editPanel.None? && r.editPanelAccessDenied)
      && (editFound.None? ==> r.editPanel.None? && r.panelNotFound)
  {
  }

  /** Leaving edit: no panel in edit, and the remembered scroll position is restored. */
  lemma LeavingEdit(state: PageState, urlEdit: Option<string>, urlView: Option<string>,
                    editFound: Option<Dashboard.DashPanel>, editable: bool, viewFound: Option<Dashboard.DashPanel>)
    requires state.editPanel.Some? && !Present(urlEdit)
    requires state.viewPanel.Some? == Present(urlView)
    ensures var r := Derived(state, urlEdit, urlView, editFound, editable, viewFound);
      r.editPanel.None? && r.updateScrollTop == state.rememberScrollTop
  {
  }

  /** Entering view: the panel found, scrolled to the top; leaving view restores the scroll position. */
  lemma EnteringAndLeavingView(state: PageState, urlEdit: Option<string>, urlView: Option<string>,
                               editFound: Option<Dashboard.DashPanel>, editable: bool,
                               viewFound: Option<Dashboard.DashPanel>)
    ensures var r := Derived(state, urlEdit, urlView, editFound, editable, viewFound);
      && (state.viewPanel.None? && Present(urlView) && viewFound.Some? ==>
            r.viewPanel == viewFound && r.updateScrollTop == Some(0) && r.rememberScrollTop == state.scrollTop)
      && (state.viewPanel.Some? && !Present(urlView) ==>
            r.viewPanel.None? && r.updateScrollTop == state.rememberScrollTop)
  {
  }

  /** A panel that was not found is forgotten on the next derivation, and so is a denial once the URL drops it. */
  lemma FlagsCleared(state: PageState, urlEdit: Option<string>, urlView: Option<string>,
                     editFound: Option<Dashboard.DashPanel>, editable: bool, viewFound: Option<Dashboard.DashPanel>)
    requires state.panelNotFound || (state.editPanelAccessDenied && !Present(urlEdit))
    ensures var r := Derived(state, urlEdit, urlView, editFound, editable, viewFound);
      !r.panelNotFound && !r.editPanelAccessDenied
  {
  }

  /** The URL asking for nothing new leaves the state as it is. */
  lemma Settled(state: PageState, urlEdit: Option<string>, urlView: Option<string>,
                editFound: Option<Dashboard.DashPanel>, editable: bool, viewFound: Option<Dashboard.DashPanel>)
    requires state.editPanel.Some? == Present(urlEdit) && state.viewPanel.Some? == Present(urlView)
    requires !state.panelNotFound && !state.editPanelAccessDenied
    ensures Derived(state, urlEdit, urlView, editFound, editable, viewFound) == state
  {
  }

  /** The result of `updateStatePageNavFromProps`, and whether it is the very state object passed in. */
  datatype NavUpdate = NavUpdate(state: PageState, same: bool)

  /** The navigation item of the dashboard, rebuilt when absent or for another title. */
  function TitleNav(current: Option<PageNav>, title: string, dashboardUrl: string): PageNav
  {
    if current.None? || current.value.text != title then PageNav(title, Some(dashboardUrl), None)
    else current.value
  }

  /** The dashboard's folder hung above it when the meta names one it does not show yet. */
  function FolderNav(nav: PageNav, folderTitle: Option<string>, folderUid: Option<string>): PageNav
  {
    if Present(folderTitle) && Present(folderUid)
       && (nav.parentItem.None? || nav.parentItem.value.text != folderTitle.value)
    then nav.(parentItem := Some(PageNav(folderTitle.value, Some("/dashboards/f/" + folderUid.value), None)))
    else nav
  }

  /** In edit or view, an item for the panel with the dashboard's item as its parent. */
  function PanelNav(nav: PageNav, state: PageState): PageNav
  {
    if state.editPanel.Some? || state.viewPanel.Some? then
      PageNav(if state.editPanel.Some? then "Edit panel" else "View panel", None, Some(nav))
    else nav
  }

  /**
   * `updateStatePageNavFromProps(props, state)`: the same state object when
   * neither the page navigation item nor the section navigation changed.
   */
  function UpdatePageNav(info: Option<DashboardInfo>, routeSectionNav: nat, dashboardUrl: string,
                         state: PageState): (r: NavUpdate)
    ensures info.None? ==> r == NavUpdate(state, true)
    ensures info.Some? ==>
      r.state == state.(pageNav := Some(PanelNav(FolderNav(TitleNav(state.pageNav, info.value.title, dashboardUrl),
                                                           info.value.folderTitle, info.value.folderUid), state)),
                        sectionNav := Some(routeSectionNav))
  {
    if info.None? then NavUpdate(state, true)
    else
      var d := info.value;
      var titled := state.pageNav.None? || state.pageNav.value.text != d.title;
      var nav := TitleNav(state.pageNav, d.title, dashboardUrl);
      var foldered := FolderNav(nav, d.folderTitle, d.folderUid);
      var rebuilt := titled || foldered != nav || state.editPanel.Some? || state.viewPanel.Some?;
      var pageNav := PanelNav(foldered, state);
      if !rebuilt && state.sectionNav == Some(routeSectionNav) then NavUpdate(state, true)
      else NavUpdate(state.(pageNav := Some(pageNav), sectionNav := Some(routeSectionNav)), false)
  }

  /** In edit or view the item reads "Edit panel" or "View panel", below the dashboard's item, and is new each time. */
  lemma PanelModeNav(info: DashboardInfo, routeSectionNav: nat, dashboardUrl: string, state: PageState)
    requires state.editPanel.Some? || state.viewPanel.Some?
    ensures var r := UpdatePageNav(Some(info), routeSectionNav, dashboardUrl, state);
      && !r.same
      && r.state.pageNav.Some?
      && r.state.pageNav.value.text == (if state.editPanel.Some? then "Edit panel" else "View panel")
      && r.state.pageNav.value.url.None?
      && r.state.pageNav.value.parentItem.Some?
      && r.state.pageNav.value.parentItem.value.text == info.title
  {
  }

  /** Outside a panel, the derivation that changes nothing returns the same object, and only then. */
  lemma SameWhenUnchanged(info: DashboardInfo, routeSectionNav: nat, dashboardUrl: string, state: PageState)
    requires state.editPanel.None? && state.viewPanel.None?
    ensures var r := UpdatePageNav(Some(info), routeSectionNav, dashboardUrl, state);
      r.same <==> (state.pageNav.Some? && state.sectionNav == Some(routeSectionNav)
                   && FolderNav(TitleNav(state.pageNav, info.title, dashboardUrl), info.folderTitle, info.folderUid)
                      == state.pageNav.value)
  {
    var r := UpdatePageNav(Some(info), routeSectionNav, dashboardUrl, state);
    var nav := TitleNav(state.pageNav, info.title, dashboardUrl);
    if state.pageNav.None? || state.pageNav.value.text != info.title {
      // A rebuilt item differs from the old one: it has no parent before the folder, or another text.
      assert FolderNav(nav, info.folderTitle, info.folderUid).text == info.title;
    }
  }

  /** Rebuilding a derived navigation again with the same inputs changes nothing more. */
  lemma NavSettles(info: DashboardInfo, routeSectionNav: nat, dashboardUrl: string, state: PageState)
    requires state.editPanel.None? && state.viewPanel.None?
    ensures var once := UpdatePageNav(Some(info), routeSectionNav, dashboardUrl, state).state;
      UpdatePageNav(Some(info), routeSectionNav, dashboardUrl, once).same
  {
    var nav := TitleNav(state.pageNav, info.title, dashboardUrl);
    var f := FolderNav(nav, info.folderTitle, info.folderUid);
    assert f.text == info.title;
    assert TitleNav(Some(f), info.title, dashboardUrl) == f;
  }

  /**
   * `getDerivedStateFromProps(props, state)`: the state the URL asks for,
   * the viewed panel marked in the dashboard, then the page navigation.
   */
  method GetDerivedStateFromProps(dashboard: Option<Dashboard.DashboardModel>, info: DashboardInfo,
                                  urlEditPanelId: Option<string>, urlViewPanelId: Option<string>,
                                  state: PageState, routeSectionNav: nat, dashboardUrl: string)
    returns (r: NavUpdate)
    modifies if dashboard.Some? then {dashboard.value} else {}
    ensures dashboard.None? ==> r == NavUpdate(state, true)
    ensures dashboard.Some? ==>
      var d := dashboard.value;
      var viewFound := old(d.GetPanelByUrlId(urlViewPanelId));
      r == UpdatePageNav(Some(info), routeSectionNav, dashboardUrl,
                         Derived(state, urlEditPanelId, urlViewPanelId, old(d.GetPanelByUrlId(urlEditPanelId)),
                                 old(Dashboard.CanEditPanel(d.meta, d.GetPanelByUrlId(urlEditPanelId))), viewFound))
    ensures dashboard.Some? ==>
      var d := dashboard.value;
      var viewFound := old(d.GetPanelByUrlId(urlViewPanelId));
      && (state.viewPanel.None? && Present(urlViewPanelId) && viewFound.Some? ==>
            d.panelInView == Some(viewFound.value.ref) && d.panels == Dashboard.WithViewing(old(d.panels), viewFound.value.ref, true))
      && (state.viewPanel.Some? && !Present(urlViewPanelId) ==>
            d.panelInView.None? && d.panels == Dashboard.WithViewing(old(d.panels), state.viewPanel.value.ref, false))
      && (!(state.viewPanel.None? && Present(urlViewPanelId) && viewFound.Some?)
          && !(state.viewPanel.Some? && !Present(urlViewPanelId)) ==>
            d.panelInView == old(d.panelInView) && d.panels == old(d.panels))
      && d.meta == old(d.meta) && d.panelInEdit == old(d.panelInEdit) && d.events == old(d.events)
  {
    if dashboard.None? {
      return NavUpdate(state, true);
    }
    var d := dashboard.value;
    var updated := DeriveEdit(d, urlEditPanelId, state);
    updated := DeriveView(d, urlViewPanelId, state, updated);
    if state.panelNotFound || (state.editPanelAccessDenied && !Present(urlEditPanelId)) {
      updated := updated.(panelNotFound := false, editPanelAccessDenied := false);
    }
    r := UpdatePageNav(Some(info), routeSectionNav, dashboardUrl, updated);
  }

  /** The edit part of `getDerivedStateFromProps`, which only reads the dashboard. */
  method DeriveEdit(d: Dashboard.DashboardModel, urlEditPanelId: Option<string>, state: PageState)
    returns (updated: PageState)
    ensures updated == EditStep(state, urlEditPanelId, d.GetPanelByUrlId(urlEditPanelId),
                                Dashboard.CanEditPanel(d.meta, d.GetPanelByUrlId(urlEditPanelId)))
  {
    updated := state;
    if state.editPanel.None? && Present(urlEditPanelId) {
      var panel := d.GetPanelByUrlId(urlEditPanelId);
      if panel.Some? {
        if Dashboard.CanEditPanel(d.meta, panel) {
          updated := updated.(editPanel := panel, rememberScrollTop := state.scrollTop);
        } else {
          updated := updated.(editPanelAccessDenied := true);
        }
      } else {
        updated := updated.(panelNotFound := true);
      }
    } else if state.editPanel.Some? && !Present(urlEditPanelId) {
      updated := updated.(editPanel := None, updateScrollTop := state.rememberScrollTop);
    }
  }

  /** The view part: the viewed panel is marked in the dashboard, or unmarked when the URL drops it. */
  method DeriveView(d: Dashboard.DashboardModel, urlViewPanelId: Option<string>, before: PageState,
                    state: PageState) returns (updated: PageState)
    modifies d
    ensures var found := old(d.GetPanelByUrlId(urlViewPanelId));
      updated == ViewStep(before, state, urlViewPanelId, found)
    ensures var found := old(d.GetPanelByUrlId(urlViewPanelId));
      && (before.viewPanel.None? && Present(urlViewPanelId) && found.Some? ==>
            d.panelInView == Some(found.value.ref) && d.panels == Dashboard.WithViewing(old(d.panels), found.value.ref, true))
      && (before.viewPanel.Some? && !Present(urlViewPanelId) ==>
            d.panelInView.None? && d.panels == Dashboard.WithViewing(old(d.panels), before.viewPanel.value.ref, false))
      && (!(before.viewPanel.None? && Present(urlViewPanelId) && found.Some?)
          && !(before.viewPanel.Some? && !Present(urlViewPanelId)) ==>
            d.panelInView == old(d.panelInView) && d.panels == old(d.panels))
      && d.meta == old(d.meta) && d.panelInEdit == old(d.panelInEdit) && d.events == old(d.events)
  {
    updated := state;
    if before.viewPanel.None? && Present(urlViewPanelId) {
      var panel := d.GetPanelByUrlId(urlViewPanelId);
      if panel.Some? {
        d.InitViewPanel(panel.value);
        updated := updated.(viewPanel := panel, rememberScrollTop := before.scrollTop, updateScrollTop := Some(0));
      } else {
        updated := updated.(panelNotFound := true);
      }
    } else if before.viewPanel.Some? && !Present(urlViewPanelId) {
      d.ExitViewPanel(before.viewPanel.value);
      updated := updated.(viewPanel := None, updateScrollTop := before.rememberScrollTop);
    }
  }
}
