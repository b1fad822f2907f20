/**
 * The plugin part of the frontend settings: the panel sort table, the
 * per-org plugin settings and which plugins they enable, and the panel,
 * preload and build-version rules of the settings map.
 *
 * The plugin store, the settings database and the configuration are
 * parameters: lists of plugins and settings, and booleans.
 */
module FrontendSettings {
  /** `plugins.AlphaRelease`. */
  const AlphaRelease: string := "alpha"

  /** The fields of a `PluginDTO` these rules read and write. */
  datatype PluginDTO = PluginDTO(id: string, state: string, hideFromList: bool, preload: bool, modulePath: string,
                                 version: string, autoEnabled: bool, includedInAppId: string, pinned: bool)

  /** `pluginsettings.InfoDTO`. */
  datatype InfoDTO = InfoDTO(pluginId: string, orgId: int, enabled: bool, pinned: bool, pluginVersion: string)

  /** The `PanelDTO` of the settings map. */
  datatype PanelDTO = PanelDTO(id: string, modulePath: string, hideFromList: bool, releaseState: string, sort: int)

  datatype PreloadPlugin = PreloadPlugin(path: string, version: string)

  datatype BuildInfo = BuildInfo(hideVersion: bool, version: string, commit: string, buildstamp: int)

  // ---------------------------------------------------------------------
  // getPanelSort
  // ---------------------------------------------------------------------

  /** The panels with a fixed place in the panel list, first to last. */
  const PanelSortOrder: seq<string> := ["timeseries", "barchart", "stat", "gauge", "bargauge", "table", "singlestat",
    "piechart", "state-timeline", "heatmap", "status-history", "histogram", "graph", "text", "alertlist", "dashlist",
    "news"]

  /** `getPanelSort(id)`: the switch. */
  function GetPanelSort(id: string): int
  {
    if id == "timeseries" then 1
    else if id == "barchart" then 2
    else if id == "stat" then 3
    else if id == "gauge" then 4
    else if id == "bargauge" then 5
    else if id == "table" then 6
    else if id == "singlestat" then 7
    else if id == "piechart" then 8
    else if id == "state-timeline" then 9
    else if id == "heatmap" then 10
    else if id == "status-history" then 11
    else if id == "histogram" then 12
    else if id == "graph" then 13
    else if id == "text" then 14
    else if id == "alertlist" then 15
    else if id == "dashlist" then 16
    else if id == "news" then 17
    else 100
  }

  /** Every id outside the table sorts at 100, after all listed ones. */
  lemma PanelSortUnlisted(id: string)
    requires id !in PanelSortOrder
    ensures GetPanelSort(id) == 100
  {
  }

  /** A listed id sorts at its 1-based place in the table. */
  lemma PanelSortListed(i: nat)
    requires i < |PanelSortOrder|
    ensures GetPanelSort(PanelSortOrder[i]) == i + 1
  {
    assert |PanelSortOrder| == 17;
  }

  // ---------------------------------------------------------------------
  // EnabledPlugins.Get
  // ---------------------------------------------------------------------

  /** `EnabledPlugins`: plugin type to plugin id to plugin; a missing type is a nil map. */
  type EnabledPlugins = map<string, map<string, PluginDTO>>

  const ZeroDTO: PluginDTO := PluginDTO("", "", false, false, "", "", false, "", false)

  /** `ep.Get(pluginType, pluginID)`. */
  function Get(ep: EnabledPlugins, pluginType: string, pluginId: string): (r: (PluginDTO, bool))
    ensures r.1 <==> pluginType in ep && pluginId in ep[pluginType]
    ensures r.1 ==> r.0 == ep[pluginType][pluginId]
    ensures !r.1 ==> r.0 == ZeroDTO
  {
    if pluginType in ep && pluginId in ep[pluginType] then (ep[pluginType][pluginId], true) else (ZeroDTO, false)
  }

  // ---------------------------------------------------------------------
  // pluginSettings
  // ---------------------------------------------------------------------

  /** The first loop: the stored settings by plugin id, a later row replacing an earlier one. */
  function StoredSettings(pss: seq<InfoDTO>): map<string, InfoDTO>
  {
    if |pss| == 0 then map[]
    else StoredSettings(pss[..|pss| - 1])[pss[|pss| - 1].pluginId := pss[|pss| - 1]]
  }

  function AppSetting(app: PluginDTO, orgId: int): InfoDTO
  {
    InfoDTO(app.id, orgId, app.autoEnabled, app.autoEnabled, app.version)
  }

  /** The second loop: a setting for each app without one. */
  function WithApps(m: map<string, InfoDTO>, apps: seq<PluginDTO>, orgId: int): map<string, InfoDTO>
  {
    if |apps| == 0 then m
    else
      var before := WithApps(m, apps[..|apps| - 1], orgId);
      var app := apps[|apps| - 1];
      if app.id in before then before else before[app.id := AppSetting(app, orgId)]
  }

  /**
   * The setting a plugin without one gets, given the settings so far:
   * enabled and not pinned, but an app child takes its app's `Enabled`, or
   * false when the app has no setting.
   */
  function OtherSetting(p: PluginDTO, m: map<string, InfoDTO>, orgId: int): (s: InfoDTO)
    ensures !s.pinned && s.pluginId == p.id
    ensures p.includedInAppId == "" ==> s.enabled
    ensures p.includedInAppId != "" ==>
      (s.enabled <==> p.includedInAppId in m && m[p.includedInAppId].enabled)
  {
    var enabled := if p.includedInAppId == "" then true
      else if p.includedInAppId in m then m[p.includedInAppId].enabled else false;
    InfoDTO(p.id, orgId, enabled, false, p.version)
  }

  /** The third loop: a setting for every remaining plugin. */
  function WithOthers(m: map<string, InfoDTO>, ps: seq<PluginDTO>, orgId: int): map<string, InfoDTO>
  {
    if |ps| == 0 then m
    else
      var before := WithOthers(m, ps[..|ps| - 1], orgId);
      var p := ps[|ps| - 1];
      if p.id in before then before else before[p.id := OtherSetting(p, before, orgId)]
  }

  function PluginSettingsOf(pss: seq<InfoDTO>, apps: seq<PluginDTO>, all: seq<PluginDTO>, orgId: int)
    : map<string, InfoDTO>
  {
    WithOthers(WithApps(StoredSettings(pss), apps, orgId), all, orgId)
  }

  /** The later loops never replace a setting that is already there. */
  lemma {:induction false} WithAppsKeeps(m: map<string, InfoDTO>, apps: seq<PluginDTO>, orgId: int)
    ensures forall k :: k in m ==> k in WithApps(m, apps, orgId) && WithApps(m, apps, orgId)[k] == m[k]
    ensures forall k :: k in WithApps(m, apps, orgId) ==> k in m || exists i :: 0 <= i < |apps| && apps[i].id == k
  {
    if |apps| > 0 {
      WithAppsKeeps(m, apps[..|apps| - 1], orgId);
      forall k | k in WithApps(m, apps, orgId) && k !in m
        ensures exists i :: 0 <= i < |apps| && apps[i].id == k
      {
        if k != apps[|apps| - 1].id {
          var i :| 0 <= i < |apps| - 1 && apps[..|apps| - 1][i].id == k;
          assert apps[i].id == k;
        }
      }
    }
  }

  lemma {:induction false} WithOthersKeeps(m: map<string, InfoDTO>, ps: seq<PluginDTO>, orgId: int)
    ensures forall k :: k in m ==> k in WithOthers(m, ps, orgId) && WithOthers(m, ps, orgId)[k] == m[k]
    ensures forall i :: 0 <= i < |ps| ==> ps[i].id in WithOthers(m, ps, orgId)
  {
    if |ps| > 0 {
      WithOthersKeeps(m, ps[..|ps| - 1], orgId);
      forall i | 0 <= i < |ps| - 1 ensures ps[i].id in WithOthers(m, ps, orgId) {
        assert ps[..|ps| - 1][i] == ps[i];
      }
    }
  }

  lemma {:induction false} StoredSettingsKeys(pss: seq<InfoDTO>)
    ensures forall k :: k in StoredSettings(pss) <==> exists i :: 0 <= i < |pss| && pss[i].pluginId == k
  {
    if |pss| > 0 {
      StoredSettingsKeys(pss[..|pss| - 1]);
      forall k | exists i :: 0 <= i < |pss| && pss[i].pluginId == k ensures k in StoredSettings(pss) {
        var i :| 0 <= i < |pss| && pss[i].pluginId == k;
        if i < |pss| - 1 {
          assert pss[..|pss| - 1][i] == pss[i];
        }
      }
      forall k | k in StoredSettings(pss) ensures exists i :: 0 <= i < |pss| && pss[i].pluginId == k {
        if k != pss[|pss| - 1].pluginId {
          var init := pss[..|pss| - 1];
          assert k in StoredSettings(init);
          var i :| 0 <= i < |init| && init[i].pluginId == k;
          assert pss[i] == init[i];
        }
      }
    }
  }

  /** Database settings win: a stored setting reaches the result unchanged. */
  lemma StoredSettingsWin(pss: seq<InfoDTO>, apps: seq<PluginDTO>, all: seq<PluginDTO>, orgId: int, k: string)
    requires k in StoredSettings(pss)
    ensures k in PluginSettingsOf(pss, apps, all, orgId)
    ensures PluginSettingsOf(pss, apps, all, orgId)[k] == StoredSettings(pss)[k]
  {
    WithAppsKeeps(StoredSettings(pss), apps, orgId);
    WithOthersKeeps(WithApps(StoredSettings(pss), apps, orgId), all, orgId);
  }

  /** The first app with an id that has no stored setting gets `Enabled = Pinned = AutoEnabled`. */
  lemma {:induction false} AppWithoutSetting(m: map<string, InfoDTO>, apps: seq<PluginDTO>, orgId: int, i: nat)
    requires i < |apps| && apps[i].id !in m
    requires forall j :: 0 <= j < i ==> apps[j].id != apps[i].id
    ensures apps[i].id in WithApps(m, apps, orgId)
    ensures WithApps(m, apps, orgId)[apps[i].id] == AppSetting(apps[i], orgId)
  {
    var init := apps[..|apps| - 1];
    if i < |apps| - 1 {
      assert init[i] == apps[i];
      assert forall j :: 0 <= j < i ==> init[j] == apps[j];
      AppWithoutSetting(m, init, orgId, i);
    } else {
      NotYetThere(m, init, orgId, apps[i].id);
    }
  }

  lemma NotYetThere(m: map<string, InfoDTO>, apps: seq<PluginDTO>, orgId: int, k: string)
    requires k !in m && forall j :: 0 <= j < |apps| ==> apps[j].id != k
    ensures k !in WithApps(m, apps, orgId)
  {
    WithAppsKeeps(m, apps, orgId);
  }

  /**
   * The first plugin with an id that has no setting yet gets the default
   * setting, judged on the settings made before it.
   */
  lemma {:induction false} OtherWithoutSetting(m: map<string, InfoDTO>, ps: seq<PluginDTO>, orgId: int, i: nat)
    requires i < |ps| && ps[i].id !in WithOthers(m, ps[..i], orgId)
    ensures ps[i].id in WithOthers(m, ps, orgId)
    ensures WithOthers(m, ps, orgId)[ps[i].id] == OtherSetting(ps[i], WithOthers(m, ps[..i], orgId), orgId)
  {
    var init := ps[..|ps| - 1];
    if i < |ps| - 1 {
      assert init[i] == ps[i];
      assert init[..i] == ps[..i];
      OtherWithoutSetting(m, init, orgId, i);
      WithOthersKeeps(WithOthers(m, init, orgId), [ps[|ps| - 1]], orgId);
      assert [ps[|ps| - 1]][..0] == [];
    } else {
      assert init == ps[..i];
    }
  }

  /**
   * An app child handled by the third loop is enabled exactly when its app
   * has an enabled setting from the database or the app loop.
   */
  lemma AppChildFollowsApp(m: map<string, InfoDTO>, ps: seq<PluginDTO>, orgId: int, i: nat)
    requires i < |ps| && ps[i].id !in WithOthers(m, ps[..i], orgId)
    requires ps[i].includedInAppId != "" && ps[i].includedInAppId in m
    ensures ps[i].id in WithOthers(m, ps, orgId)
    ensures WithOthers(m, ps, orgId)[ps[i].id].enabled == m[ps[i].includedInAppId].enabled
    ensures !WithOthers(m, ps, orgId)[ps[i].id].pinned
  {
    OtherWithoutSetting(m, ps, orgId, i);
    WithOthersKeeps(m, ps[..i], orgId);
  }

  /** `pluginSettings(ctx, orgID)`: the three loops over the database rows, the apps and all plugins. */
  method PluginSettings(pss: seq<InfoDTO>, apps: seq<PluginDTO>, all: seq<PluginDTO>, orgId: int)
    returns (settings: map<string, InfoDTO>)
    ensures settings == PluginSettingsOf(pss, apps, all, orgId)
  {
    settings := map[];
    for i := 0 to |pss|
      invariant settings == StoredSettings(pss[..i])
    {
      assert pss[..i + 1][..i] == pss[..i];
      settings := settings[pss[i].pluginId := pss[i]];
    }
    assert pss[..|pss|] == pss;
    ghost var stored := settings;
    for i := 0 to |apps|
      invariant settings == WithApps(stored, apps[..i], orgId)
    {
      assert apps[..i + 1][..i] == apps[..i];
      if apps[i].id in settings {
        continue;
      }
      settings := settings[apps[i].id := AppSetting(apps[i], orgId)];
    }
    assert apps[..|apps|] == apps;
    ghost var withApps := settings;
    for i := 0 to |all|
      invariant settings == WithOthers(withApps, all[..i], orgId)
    {
      assert all[..i + 1][..i] == all[..i];
      var plugin := all[i];
      if plugin.id in settings {
        continue;
      }
      var enabled := true;
      if plugin.includedInAppId != "" {
        enabled := false;
        if plugin.includedInAppId in settings {
          enabled := settings[plugin.includedInAppId].enabled;
        }
      }
      settings := settings[plugin.id := InfoDTO(plugin.id, orgId, enabled, false, plugin.version)];
    }
    assert all[..|all|] == all;
  }

  // ---------------------------------------------------------------------
  // enabledPlugins
  // ---------------------------------------------------------------------

  /** The app loop: every app with a setting, pinned as its setting says. */
  function EnabledApps(apps: seq<PluginDTO>, settings: map<string, InfoDTO>): map<string, PluginDTO>
  {
    if |apps| == 0 then map[]
    else
      var before := EnabledApps(apps[..|apps| - 1], settings);
      var app := apps[|apps| - 1];
      if app.id in settings then before[app.id := app.(pinned := settings[app.id].pinned)] else before
  }

  /** The panel loop: every panel with a setting. */
  function EnabledPanels(panels: seq<PluginDTO>, settings: map<string, InfoDTO>): map<string, PluginDTO>
  {
    if |panels| == 0 then map[]
    else
      var before := EnabledPanels(panels[..|panels| - 1], settings);
      var p := panels[|panels| - 1];
      if p.id in settings then before[p.id := p] else before
  }

  /** An app is enabled exactly when some app with its id has a setting, and it carries the setting's `Pinned`. */
  lemma {:induction false} EnabledAppsExactly(apps: seq<PluginDTO>, settings: map<string, InfoDTO>)
    ensures forall k :: k in EnabledApps(apps, settings) <==>
      (k in settings && exists i :: 0 <= i < |apps| && apps[i].id == k)
  {
    if |apps| > 0 {
      var init := apps[..|apps| - 1];
      EnabledAppsExactly(init, settings);
      forall k ensures k in EnabledApps(apps, settings) <==>
        (k in settings && exists i :: 0 <= i < |apps| && apps[i].id == k)
      {
        if k in settings && k != apps[|apps| - 1].id && exists i :: 0 <= i < |apps| && apps[i].id == k {
          var i :| 0 <= i < |apps| && apps[i].id == k;
          assert init[i] == apps[i];
        }
        if k in EnabledApps(init, settings) {
          var i :| 0 <= i < |init| && init[i].id == k;
          assert apps[i] == init[i];
        }
      }
    }
  }

  lemma {:induction false} EnabledAppsPinned(apps: seq<PluginDTO>, settings: map<string, InfoDTO>)
    ensures forall k :: k in EnabledApps(apps, settings) ==> k in settings
    ensures forall k :: k in EnabledApps(apps, settings) ==>
      EnabledApps(apps, settings)[k].pinned == settings[k].pinned && EnabledApps(apps, settings)[k].id == k
  {
    if |apps| > 0 {
      EnabledAppsPinned(apps[..|apps| - 1], settings);
    }
  }

  lemma {:induction false} EnabledPanelsExactly(panels: seq<PluginDTO>, settings: map<string, InfoDTO>)
    ensures forall k :: k in EnabledPanels(panels, settings) <==>
      (k in settings && exists i :: 0 <= i < |panels| && panels[i].id == k)
  {
    if |panels| > 0 {
      var init := panels[..|panels| - 1];
      EnabledPanelsExactly(init, settings);
      forall k ensures k in EnabledPanels(panels, settings) <==>
        (k in settings && exists i :: 0 <= i < |panels| && panels[i].id == k)
      {
        if k in settings && k != panels[|panels| - 1].id && exists i :: 0 <= i < |panels| && panels[i].id == k {
          var i :| 0 <= i < |panels| && panels[i].id == k;
          assert init[i] == panels[i];
        }
        if k in EnabledPanels(init, settings) {
          var i :| 0 <= i < |init| && init[i].id == k;
          assert panels[i] == init[i];
        }
      }
    }
  }

  /** An enabled panel is one of the listed panels, unchanged. */
  lemma {:induction false} EnabledPanelsListed(panels: seq<PluginDTO>, settings: map<string, InfoDTO>)
    ensures forall k :: k in EnabledPanels(panels, settings) ==>
      exists i :: 0 <= i < |panels| && panels[i] == EnabledPanels(panels, settings)[k] && panels[i].id == k
  {
    if |panels| > 0 {
      var init := panels[..|panels| - 1];
      EnabledPanelsListed(init, settings);
      var last := panels[|panels| - 1];
      var before := EnabledPanels(init, settings);
      var after := EnabledPanels(panels, settings);
      assert after == if last.id in settings then before[last.id := last] else before;
      forall k | k in after
        ensures exists i :: 0 <= i < |panels| && panels[i] == after[k] && panels[i].id == k
      {
        if last.id in settings && k == last.id {
          assert panels[|panels| - 1] == after[k];
        } else {
          assert k in before && after[k] == before[k];
          var i :| 0 <= i < |init| && init[i] == before[k] && init[i].id == k;
          assert panels[i] == init[i];
        }
      }
    }
  }

  /** `enabledPlugins(ctx, orgID)`: the app loop and the panel loop. */
  method EnabledPluginsOf(apps: seq<PluginDTO>, panels: seq<PluginDTO>, settings: map<string, InfoDTO>)
    returns (ep: EnabledPlugins)
    ensures ep == map["app" := EnabledApps(apps, settings), "panel" := EnabledPanels(panels, settings)]
  {
    var enabledApps := map[];
    for i := 0 to |apps|
      invariant enabledApps == EnabledApps(apps[..i], settings)
    {
      assert apps[..i + 1][..i] == apps[..i];
      var app := apps[i];
      if app.id in settings {
        app := app.(pinned := settings[app.id].pinned);
        enabledApps := enabledApps[app.id := app];
      }
    }
    assert apps[..|apps|] == apps;
    var enabledPanels := map[];
    for i := 0 to |panels|
      invariant enabledPanels == EnabledPanels(panels[..i], settings)
    {
      assert panels[..i + 1][..i] == panels[..i];
      if panels[i].id in settings {
        enabledPanels := enabledPanels[panels[i].id := panels[i]];
      }
    }
    assert panels[..|panels|] == panels;
    ep := map["app" := enabledApps, "panel" := enabledPanels];
  }

  // ---------------------------------------------------------------------
  // getFrontendSettingsMap: panels, preload, build info
  // ---------------------------------------------------------------------

  /** The `panels` entry for one enabled panel. */
  function PanelEntry(p: PluginDTO, flameGraphEnabled: bool): PanelDTO
  {
    PanelDTO(p.id, p.modulePath, if p.id == "flamegraph" then !flameGraphEnabled else p.hideFromList, p.state,
             GetPanelSort(p.id))
  }

  /**
   * `panels`: every enabled panel but alpha ones unless alpha plugins are
   * enabled, with the flame graph hidden unless its feature flag is on.
   */
  function FrontendPanels(enabled: map<string, PluginDTO>, enableAlpha: bool, flameGraphEnabled: bool)
    : (r: map<string, PanelDTO>)
    ensures forall k :: k in r <==> k in enabled && (enabled[k].state != AlphaRelease || enableAlpha)
    ensures forall k :: k in r ==> r[k].sort == GetPanelSort(enabled[k].id)
    ensures forall k :: k in r ==> r[k].hideFromList == (if enabled[k].id == "flamegraph" then !flameGraphEnabled else enabled[k].hideFromList)
  {
    map k | k in enabled && (enabled[k].state != AlphaRelease || enableAlpha) :: PanelEntry(enabled[k], flameGraphEnabled)
  }

  /** One `pluginsToPreload` entry: the app's module and version. */
  function PreloadOf(app: PluginDTO): PreloadPlugin
  {
    PreloadPlugin(app.modulePath, app.version)
  }

  /**
   * Go's `range` over a map visits every key exactly once, in an order the
   * runtime chooses; `order` is that order.
   */
  predicate IterationOrder(m: map<string, PluginDTO>, order: seq<string>)
  {
    (forall i, j :: 0 <= i < j < |order| ==> order[i] != order[j]) &&
    (forall k :: k in m ==> k in order) && (forall k :: k in order ==> k in m)
  }

  /** The entries `pluginsToPreload` gathers when the apps are visited in `order`. */
  function Preloads(m: map<string, PluginDTO>, order: seq<string>): (r: seq<PreloadPlugin>)
    ensures |r| <= |order|
  {
    if order == [] then []
    else
      var k := order[|order| - 1];
      Preloads(m, order[..|order| - 1]) + if k in m && m[k].preload then [PreloadOf(m[k])] else []
  }

  /** The visited apps that preload. */
  function PreloadingKeys(m: map<string, PluginDTO>, order: seq<string>): set<string>
  {
    set k | k in order && k in m && m[k].preload
  }

  /** Every entry comes from a visited app that preloads, and every such app gives an entry. */
  lemma {:induction false} PreloadsMembers(m: map<string, PluginDTO>, order: seq<string>)
    ensures forall q :: q in Preloads(m, order) ==>
      exists k :: k in order && k in m && m[k].preload && q == PreloadOf(m[k])
    ensures forall k :: k in order && k in m && m[k].preload ==> PreloadOf(m[k]) in Preloads(m, order)
  {
    if order != [] {
      var init := order[..|order| - 1];
      var last := order[|order| - 1];
      PreloadsMembers(m, init);
      assert order == init + [last];
      forall q | q in Preloads(m, order)
        ensures exists k :: k in order && k in m && m[k].preload && q == PreloadOf(m[k])
      {
        if q !in Preloads(m, init) {
          assert last in m && m[last].preload && q == PreloadOf(m[last]);
        }
      }
    }
  }

  /** Visiting distinct keys, there is one entry per preloading app: equal entries are not merged. */
  lemma {:induction false} PreloadsCount(m: map<string, PluginDTO>, order: seq<string>)
    requires forall i, j :: 0 <= i < j < |order| ==> order[i] != order[j]
    ensures |Preloads(m, order)| == |PreloadingKeys(m, order)|
  {
    if order == [] {
      assert PreloadingKeys(m, order) == {};
    } else {
      var init := order[..|order| - 1];
      var last := order[|order| - 1];
      assert order == init + [last];
      PreloadsCount(m, init);
      assert last !in init by {
        forall i | 0 <= i < |init| ensures init[i] != last {
          assert init[i] == order[i];
        }
      }
      if last in m && m[last].preload {
        assert PreloadingKeys(m, order) == PreloadingKeys(m, init) + {last};
      } else {
        assert PreloadingKeys(m, order) == PreloadingKeys(m, init);
      }
    }
  }

  /** Visiting every key once, the entries are those of the preloading apps, one per app. */
  lemma PreloadsOfIteration(m: map<string, PluginDTO>, order: seq<string>)
    requires IterationOrder(m, order)
    ensures forall k :: k in m && m[k].preload ==> PreloadOf(m[k]) in Preloads(m, order)
    ensures forall q :: q in Preloads(m, order) ==> exists k :: k in m && m[k].preload && q == PreloadOf(m[k])
    ensures |Preloads(m, order)| == |set k | k in m && m[k].preload|
  {
    PreloadsMembers(m, order);
    PreloadsCount(m, order);
    assert PreloadingKeys(m, order) == set k | k in m && m[k].preload;
  }

  /**
   * `pluginsToPreload`: the module and version of every enabled app that
   * preloads, appended in the order the map is visited.
   */
  method PluginsToPreload(enabledApps: map<string, PluginDTO>, order: seq<string>)
    returns (r: seq<PreloadPlugin>)
    requires IterationOrder(enabledApps, order)
    ensures r == Preloads(enabledApps, order)
    ensures forall k :: k in enabledApps && enabledApps[k].preload ==> PreloadOf(enabledApps[k]) in r
    ensures forall q :: q in r ==> exists k :: k in enabledApps && enabledApps[k].preload && q == PreloadOf(enabledApps[k])
    ensures |r| == |set k | k in enabledApps && enabledApps[k].preload|
  {
    r := [];
    for i := 0 to |order|
      invariant r == Preloads(enabledApps, order[..i])
    {
      assert order[..i + 1][..i] == order[..i];
      var app := order[i];
      if enabledApps[app].preload {
        r := r + [PreloadOf(enabledApps[app])];
      }
    }
    assert order[..|order|] == order;
    PreloadsOfIteration(enabledApps, order);
  }

  /** `buildInfo`: anonymous users with `AnonymousHideVersion` see no version, commit or stamp. */
  function BuildInfoOf(anonymousHideVersion: bool, isSignedIn: bool, version: string, commit: string, stamp: int)
    : (b: BuildInfo)
    ensures b.hideVersion <==> anonymousHideVersion && !isSignedIn
    ensures b.hideVersion ==> b.version == "" && b.commit == "" && b.buildstamp == 0
    ensures !b.hideVersion ==> b.version == version && b.commit == commit && b.buildstamp == stamp
  {
    if anonymousHideVersion && !isSignedIn then BuildInfo(true, "", "", 0) else BuildInfo(false, version, commit, stamp)
  }
}
