/**
 * The model of a new, unsaved dashboard (`getNewDashboardModelData`): one
 * panel waiting to be configured, placed at the top left, in the folder the
 * URL names.
 */
module InitDashboard {
  import opened Wrappers
  import Panel

  /** The dashboard meta of a new dashboard. */
  datatype NewMeta = NewMeta(canStar: bool, canDelete: bool, isNew: bool, folderUid: string)

  datatype NewPanel = NewPanel(panelType: string, gridPos: Panel.GridPos, title: string)

  datatype NewDashboard = NewDashboard(title: string, panels: seq<NewPanel>)

  datatype NewDashboardData = NewDashboardData(dashboard: NewDashboard, meta: NewMeta)

  /** A truthy optional string: present and not empty. */
  predicate Present(s: Option<string>)
  {
    s.Some? && s.value != ""
  }

  /** `getNewDashboardModelData(urlFolderUid, panelType)`. */
  function GetNewDashboardModelData(urlFolderUid: Option<string>, panelType: Option<string>): (r: NewDashboardData)
    ensures |r.dashboard.panels| == 1
  {
    var meta := NewMeta(false, false, true, "");
    var data := NewDashboardData(
      NewDashboard("New dashboard", [NewPanel(panelType.GetOr("add-panel"), Panel.GridPos(0, 0, 12, 9), "Panel Title")]),
      meta);
    if Present(urlFolderUid) then data.(meta := data.meta.(folderUid := urlFolderUid.value)) else data
  }

  /** The one panel: of the requested type (`??`: an empty type is kept), else an "add panel" placeholder, 12 by 9 at the origin. */
  lemma TheOnePanel(urlFolderUid: Option<string>, panelType: Option<string>)
    ensures var p := GetNewDashboardModelData(urlFolderUid, panelType).dashboard.panels[0];
      && (panelType.Some? ==> p.panelType == panelType.value)
      && (panelType.None? ==> p.panelType == "add-panel")
      && p.gridPos == Panel.GridPos(0, 0, 12, 9) && p.title == "Panel Title"
  {
  }

  /** A new dashboard is titled "New dashboard", cannot be starred or deleted and is new. */
  lemma NewAndUnsaved(urlFolderUid: Option<string>, panelType: Option<string>)
    ensures var r := GetNewDashboardModelData(urlFolderUid, panelType);
      r.dashboard.title == "New dashboard" && !r.meta.canStar && !r.meta.canDelete && r.meta.isNew
  {
  }

  /** The folder is the URL's when it names one, else the root (`''`); the folder never touches the panels. */
  lemma FolderFromUrl(urlFolderUid: Option<string>, panelType: Option<string>)
    ensures var r := GetNewDashboardModelData(urlFolderUid, panelType);
      && (Present(urlFolderUid) ==> r.meta.folderUid == urlFolderUid.value)
      && (!Present(urlFolderUid) ==> r.meta.folderUid == "")
      && r.dashboard == GetNewDashboardModelData(None, panelType).dashboard
  {
  }
}
