/**
 * The plugin catalogue's slice (`plugins`): its initial state and the
 * reducers kept for the older plugin pages (loaded panel plugins and the
 * dashboards a plugin ships).
 *
 * The catalogue entries, request records, loaded plugins and dashboards are
 * objects the slice only stores; they are identified by reference (`nat`).
 */
module PluginsAdmin {
  /** An object's identity. */
  type Ref = nat

  datatype PluginListDisplayMode = Grid | List

  /** `PluginListDisplayMode`'s string value. */
  function DisplayModeValue(m: PluginListDisplayMode): string
  {
    match m
    case Grid => "grid"
    case List => "list"
  }

  /** A loaded panel plugin: its `meta.id`, and the plugin object. */
  datatype PanelPlugin = PanelPlugin(metaId: string, plugin: Ref)

  /** The catalogue's entity state (`createEntityAdapter`): ids in order and the entries by id. */
  datatype EntityState = EntityState(ids: seq<string>, entities: map<string, Ref>)

  /** The whole slice as a value. */
  datatype ReducerState = ReducerState(
    items: EntityState,
    requests: map<string, Ref>,
    displayMode: PluginListDisplayMode,
    plugins: seq<Ref>,
    errors: seq<Ref>,
    searchQuery: string,
    hasFetched: bool,
    dashboards: seq<Ref>,
    isLoadingPluginDashboards: bool,
    panels: map<string, PanelPlugin>)

  /** `initialState`. */
  function InitialState(): (s: ReducerState)
    ensures s.items.ids == [] && s.items.entities == map[] && s.requests == map[]
    ensures DisplayModeValue(s.displayMode) == "grid"
    ensures s.plugins == [] && s.errors == [] && s.dashboards == [] && s.panels == map[]
    ensures s.searchQuery == "" && !s.hasFetched && !s.isLoadingPluginDashboards
  {
    ReducerState(EntityState([], map[]), map[], Grid, [], [], "", false, [], false, map[])
  }

  class PluginsSlice {
    var items: EntityState
    var requests: map<string, Ref>
    var displayMode: PluginListDisplayMode
    var plugins: seq<Ref>
    var errors: seq<Ref>
    var searchQuery: string
    var hasFetched: bool
    var dashboards: seq<Ref>
    var isLoadingPluginDashboards: bool
    var panels: map<string, PanelPlugin>

    /** The fields as one value. */
    function State(): ReducerState
      reads this
    {
      ReducerState(items, requests, displayMode, plugins, errors, searchQuery, hasFetched, dashboards,
                   isLoadingPluginDashboards, panels)
    }

    /** The slice starts from `initialState`. */
    constructor ()
      ensures State() == InitialState()
    {
      items := EntityState([], map[]);
      requests := map[];
      displayMode := Grid;
      plugins := [];
      errors := [];
      searchQuery := "";
      hasFetched := false;
      dashboards := [];
      isLoadingPluginDashboards := false;
      panels := map[];
    }

    /** `panelPluginLoaded`: the plugin is kept under its id, replacing an earlier load of it. */
    method PanelPluginLoaded(payload: PanelPlugin)
      modifies this
      ensures State() == old(State()).(panels := old(panels)[payload.metaId := payload])
      ensures payload.metaId in State().panels && State().panels[payload.metaId] == payload
      ensures forall id :: id in old(State()).panels && id != payload.metaId ==>
        id in State().panels && State().panels[id] == old(State()).panels[id]
      ensures State().panels.Keys == old(State()).panels.Keys + {payload.metaId}
    {
      panels := panels[payload.metaId := payload];
    }

    /** `loadPluginDashboards.pending`: loading, with no dashboards yet. */
    method LoadPluginDashboardsPending()
      modifies this
      ensures State() == old(State()).(isLoadingPluginDashboards := true, dashboards := [])
    {
      isLoadingPluginDashboards := true;
      dashboards := [];
    }

    /** `loadPluginDashboards.fulfilled`: the dashboards loaded, and loading is over. */
    method LoadPluginDashboardsFulfilled(payload: seq<Ref>)
      modifies this
      ensures State() == old(State()).(isLoadingPluginDashboards := false, dashboards := payload)
    {
      isLoadingPluginDashboards := false;
      dashboards := payload;
    }
  }
}
