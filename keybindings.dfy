/**
 * The keyboard shortcuts service: which keys are bound to what, and what
 * each handler does to the location's query parameters, the application
 * event bus and the dashboard.
 *
 * The key-binding library keeps one callback per key (binding a key again
 * replaces it) and a set of keys that also fire inside text inputs; the
 * model keeps exactly that. The focused panel's id, which the library's
 * helper reads from the page, is the handlers' parameter.
 */
module Keybindings {
  import opened Wrappers
  import opened JsonValue
  import Dashboard
  import Panel

  // ---------------------------------------------------------------------
  // The location service
  // ---------------------------------------------------------------------

  /** A query parameter, absent or present. */
  function Lookup(search: map<string, Value>, k: string): Value
  {
    if k in search then search[k] else Undefined
  }

  /**
   * `locationService.partial(query)`: a key the query sets to null or
   * undefined is removed, any other key of the query is set, the rest stays.
   */
  function PartialQuery(search: map<string, Value>, query: map<string, Value>): (r: map<string, Value>)
    ensures forall k :: k in query && Nullish(query[k]) ==> k !in r
    ensures forall k :: k in query && !Nullish(query[k]) ==> k in r && r[k] == query[k]
    ensures forall k :: k !in query ==> (k in r <==> k in search) && (k in search ==> r[k] == search[k])
  {
    map k | k in search.Keys + query.Keys && !(k in query && Nullish(query[k])) ::
      if k in query then query[k] else search[k]
  }

  /** The location: the current path and the parsed query parameters. */
  class LocationService {
    var pathname: string
    var search: map<string, Value>

    constructor (pathname: string, search: map<string, Value>)
      ensures this.pathname == pathname && this.search == search
    {
      this.pathname := pathname;
      this.search := search;
    }

    method Partial(query: map<string, Value>)
      modifies this
      ensures search == PartialQuery(old(search), query) && pathname == old(pathname)
    {
      search := PartialQuery(search, query);
    }

    /** `push(path)` for a path without a query string. */
    method Push(path: string)
      modifies this
      ensures pathname == path && search == map[]
    {
      pathname := path;
      search := map[];
    }
  }

  // ---------------------------------------------------------------------
  // Application events and bindings
  // ---------------------------------------------------------------------

  datatype ShiftDirection = Left | Right

  datatype AppEvent =
    | ShowHelpModal
    | ShowSaveDashboardDrawer
    | AbsoluteTime
    | ZoomOut(scale: int, updateUrl: bool)
    | ShiftTime(direction: ShiftDirection, updateUrl: bool)
    | RemovePanel(panelId: int)

  /** The application event bus, as the list of everything published on it. */
  class AppEvents {
    var published: seq<AppEvent>

    constructor ()
      ensures published == []
    {
      published := [];
    }

    method Publish(e: AppEvent)
      modifies this
      ensures published == old(published) + [e]
    {
      published := published + [e];
    }
  }

  /**
   * The key sequences the service binds, as the binding library spells
   * them: `?`, `h`, `g h`, `g p`, `s o`, `t a`, `f`, `esc`, `c t`, `c r`,
   * `t n`, `mod+s`, `t z`, `ctrl+z`, `t left`, `t right`, `e`, `v`, `p l`,
   * `i`, `p r`, `p d`, `d n`, `d s`, `d a`.
   */
  datatype Key =
    | QuestionMark | KeyH | GH | GP | SO | TA | KeyF | Esc | CT | CR | TN
    | ModS | TZ | CtrlZ | TLeft | TRight | KeyE | KeyV | PL | KeyI | PR | PD | DN | DS | DA

  /** What a bound key does. */
  datatype Action =
    | ShowHelp | GoToHome | GoToProfile | OpenSearch | MakeAbsoluteTime | Exit | GlobalEsc
    | ToggleTheme(runtimeOnly: bool) | ToggleNav
    | ZoomOutTime(updateUrl: bool) | ShiftTimeRange(direction: ShiftDirection, updateUrl: bool)
    | SaveDashboard | EditPanel | ViewPanel | ToggleLegend | InspectPanel | RemovePanelKey | DuplicatePanel
    | NewDashboard | DashboardSettings | AutofitPanels

  /** `k` is bound to `action`. */
  predicate Binds(bindings: map<Key, Action>, k: Key, action: Action)
  {
    k in bindings && bindings[k] == action
  }

  /** The path of the login page. */
  const LoginPath: string := "/login"

  /** The keys that move around the application. */
  predicate NavigationKey(k: Key)
  {
    k in {QuestionMark, KeyH, GH, GP, SO, TA, KeyF, Esc}
  }

  /** The outcome of a dashboard handler: a TypeError stands for the exception the code raises. */
  type Status = Option<Panel.PanelError>

  /**
   * The table `clearAndInitGlobalBindings` leaves, in the order it binds:
   * the navigation keys off the login page (`esc` last, again as a global
   * key), the theme keys, the navigation toggle in development builds.
   */
  function GlobalBindings(offLogin: bool, development: bool): map<Key, Action>
  {
    var navigation :=
      if offLogin then map[QuestionMark := ShowHelp, KeyH := ShowHelp][GH := GoToHome][GP := GoToProfile]
                         [SO := OpenSearch][TA := MakeAbsoluteTime][KeyF := OpenSearch][Esc := Exit][Esc := GlobalEsc]
      else map[];
    var themes := navigation[CT := ToggleTheme(false)][CR := ToggleTheme(true)];
    if development then themes[TN := ToggleNav] else themes
  }

  /** On the login page no navigation key is bound. */
  lemma NoNavigationOnLogin(development: bool)
    ensures forall k :: NavigationKey(k) ==> k !in GlobalBindings(false, development)
  {
  }

  /** Off the login page the navigation keys go where their names say. */
  lemma NavigationOffLogin(development: bool)
    ensures var b := GlobalBindings(true, development);
      && Binds(b, GH, GoToHome) && Binds(b, GP, GoToProfile)
      && Binds(b, QuestionMark, ShowHelp) && Binds(b, KeyH, ShowHelp)
      && Binds(b, SO, OpenSearch) && Binds(b, KeyF, OpenSearch) && Binds(b, TA, MakeAbsoluteTime)
  {
  }

  /** `esc` is bound twice; the global binding, which also checks inputs first, is the one that stays. */
  lemma EscIsGlobal(development: bool)
    ensures Binds(GlobalBindings(true, development), Esc, GlobalEsc)
  {
  }

  /** The theme keys are bound everywhere; the navigation toggle only in development. */
  lemma ThemeKeysAlways(offLogin: bool, development: bool)
    ensures Binds(GlobalBindings(offLogin, development), CT, ToggleTheme(false))
    ensures Binds(GlobalBindings(offLogin, development), CR, ToggleTheme(true))
    ensures TN in GlobalBindings(offLogin, development) <==> development
  {
  }

  /** Nothing but these keys is bound. */
  lemma GlobalKeysOnly(offLogin: bool, development: bool)
    ensures forall k :: k in GlobalBindings(offLogin, development) ==> NavigationKey(k) || k in {CT, CR, TN}
  {
  }

  /** What `setupTimeRangeBindings(updateUrl)` adds. */
  function TimeRangeBindings(bindings: map<Key, Action>, updateUrl: bool): map<Key, Action>
  {
    bindings[TZ := ZoomOutTime(updateUrl)][CtrlZ := ZoomOutTime(updateUrl)]
            [TLeft := ShiftTimeRange(Left, updateUrl)][TRight := ShiftTimeRange(Right, updateUrl)]
  }

  /** What `setupDashboardBindings` adds, the time range updating the URL. */
  function DashboardBindings(bindings: map<Key, Action>): map<Key, Action>
  {
    TimeRangeBindings(bindings[ModS := SaveDashboard], true)
      [KeyE := EditPanel][KeyV := ViewPanel][PL := ToggleLegend][KeyI := InspectPanel][PR := RemovePanelKey]
      [PD := DuplicatePanel][DN := NewDashboard][DS := DashboardSettings][DA := AutofitPanels]
  }

  /** The dashboard keys are bound to the dashboard handlers, and every other key keeps its binding. */
  lemma DashboardKeysBound(bindings: map<Key, Action>)
    ensures var b := DashboardBindings(bindings);
      && Binds(b, ModS, SaveDashboard) && Binds(b, TZ, ZoomOutTime(true)) && Binds(b, CtrlZ, ZoomOutTime(true))
      && Binds(b, TLeft, ShiftTimeRange(Left, true)) && Binds(b, TRight, ShiftTimeRange(Right, true))
      && Binds(b, KeyE, EditPanel) && Binds(b, KeyV, ViewPanel) && Binds(b, PL, ToggleLegend)
      && Binds(b, KeyI, InspectPanel) && Binds(b, PR, RemovePanelKey) && Binds(b, PD, DuplicatePanel)
      && Binds(b, DN, NewDashboard) && Binds(b, DS, DashboardSettings) && Binds(b, DA, AutofitPanels)
    ensures forall k :: k !in DashboardKeys() ==>
      (k in DashboardBindings(bindings) <==> k in bindings)
      && (k in bindings ==> DashboardBindings(bindings)[k] == bindings[k])
  {
  }

  /** The keys `setupDashboardBindings` binds. */
  function DashboardKeys(): set<Key>
  {
    {ModS, TZ, CtrlZ, TLeft, TRight, KeyE, KeyV, PL, KeyI, PR, PD, DN, DS, DA}
  }

  // ---------------------------------------------------------------------
  // The exit cascade
  // ---------------------------------------------------------------------

  /** The query `exit` sends to the location service, or None when it does nothing. */
  function ExitQuery(search: map<string, Value>): Option<map<string, Value>>
  {
    if Truthy(Lookup(search, "editview")) then Some(map["editview" := Null, "editIndex" := Null])
    else if Truthy(Lookup(search, "inspect")) then Some(map["inspect" := Null, "inspectTab" := Null])
    else if Truthy(Lookup(search, "editPanel")) then Some(map["editPanel" := Null, "tab" := Null])
    else if Truthy(Lookup(search, "viewPanel")) then Some(map["viewPanel" := Null, "tab" := Null])
    else if Truthy(Lookup(search, "search")) then Some(map["search" := Null])
    else None
  }

  function Exited(search: map<string, Value>): map<string, Value>
  {
    var q := ExitQuery(search);
    if q.Some? then PartialQuery(search, q.value) else search
  }

  /** The keys `exit` clears, one group per view it can close, in the order it tries them. */
  const ExitGroups: seq<seq<string>> :=
    [["editview", "editIndex"], ["inspect", "inspectTab"], ["editPanel", "tab"], ["viewPanel", "tab"], ["search"]]

  function Removed(search: map<string, Value>, keys: seq<string>): map<string, Value>
  {
    map k | k in search && k !in keys :: search[k]
  }

  /** The first group whose leading key is set, if any. */
  predicate FirstSet(search: map<string, Value>, i: nat)
  {
    i < |ExitGroups| && Truthy(Lookup(search, ExitGroups[i][0]))
    && forall j :: 0 <= j < i ==> !Truthy(Lookup(search, ExitGroups[j][0]))
  }

  /** `exit` closes exactly the first open view of the cascade, and nothing else. */
  lemma ExitClearsFirstSet(search: map<string, Value>, i: nat)
    requires FirstSet(search, i)
    ensures Exited(search) == Removed(search, ExitGroups[i])
  {
    assert forall j :: 0 <= j < i ==> !Truthy(Lookup(search, ExitGroups[j][0]));
    if i == 0 {
    } else if i == 1 {
      assert !Truthy(Lookup(search, ExitGroups[0][0]));
    } else if i == 2 {
      assert !Truthy(Lookup(search, ExitGroups[0][0])) && !Truthy(Lookup(search, ExitGroups[1][0]));
    } else if i == 3 {
      assert !Truthy(Lookup(search, ExitGroups[0][0])) && !Truthy(Lookup(search, ExitGroups[1][0]));
      assert !Truthy(Lookup(search, ExitGroups[2][0]));
    } else {
      assert !Truthy(Lookup(search, ExitGroups[0][0])) && !Truthy(Lookup(search, ExitGroups[1][0]));
      assert !Truthy(Lookup(search, ExitGroups[2][0])) && !Truthy(Lookup(search, ExitGroups[3][0]));
    }
  }

  /** With no view open, `exit` leaves the location alone. */
  lemma ExitWithNothingOpen(search: map<string, Value>)
    requires forall j :: 0 <= j < |ExitGroups| ==> !Truthy(Lookup(search, ExitGroups[j][0]))
    ensures ExitQuery(search).None? && Exited(search) == search
  {
    assert !Truthy(Lookup(search, ExitGroups[0][0])) && !Truthy(Lookup(search, ExitGroups[1][0]));
    assert !Truthy(Lookup(search, ExitGroups[2][0])) && !Truthy(Lookup(search, ExitGroups[3][0]));
    assert !Truthy(Lookup(search, ExitGroups[4][0]));
  }

  // ---------------------------------------------------------------------
  // Panel toggles and the legend
  // ---------------------------------------------------------------------

  /** `partial({ [key]: isSet ? null : panelId })`, where set means present. */
  function Toggled(search: map<string, Value>, key: string, panelId: int): map<string, Value>
  {
    PartialQuery(search, map[key := if Lookup(search, key) != Undefined then Null else Num(panelId)])
  }

  /** The toggle opens the panel when the key is absent and removes the key otherwise. */
  lemma ToggledFlips(search: map<string, Value>, key: string, panelId: int)
    ensures Lookup(search, key) == Undefined ==> Lookup(Toggled(search, key, panelId), key) == Num(panelId)
    ensures Lookup(search, key) != Undefined ==> key !in Toggled(search, key, panelId)
    ensures forall k :: k != key ==> Lookup(Toggled(search, key, panelId), k) == Lookup(search, k)
  {
  }

  /** Toggling twice from closed is back where it started. */
  lemma ToggledTwice(search: map<string, Value>, key: string, panelId: int)
    requires key !in search
    ensures Toggled(Toggled(search, key, panelId), key, panelId) == search
  {
    var once := Toggled(search, key, panelId);
    assert Lookup(once, key) == Num(panelId);
    var twice := Toggled(once, key, panelId);
    assert twice.Keys == search.Keys;
  }

  /**
   * The options `p l` hands to `updateOptions`: a shallow copy (`{ ...options }`)
   * whose legend has `showLegend` flipped. The legend object itself is
   * shared with the old options and flipped in place; a legend that is not
   * an object is the TypeError the assignment raises.
   */
  function ToggledLegend(options: Value): Result<Value, Panel.PanelError>
  {
    var copy := OwnEntries(options);
    var legend := Get(Obj(copy), "legend");
    if !legend.Obj? then Failure(Panel.TypeError)
    else
      var flipped := Obj(SetEntry(legend.entries, "showLegend", Bool(!Truthy(Get(legend, "showLegend")))));
      Success(Obj(SetEntry(copy, "legend", flipped)))
  }

  /** Only `legend.showLegend` changes, and it becomes the negation of its truthiness. */
  lemma ToggledLegendChangesOnlyShowLegend(options: Value, k: string, k2: string)
    requires options.Obj? && ToggledLegend(options).Success?
    ensures var r := ToggledLegend(options).value;
      && Get(Get(r, "legend"), "showLegend") == Bool(!Truthy(Get(Get(options, "legend"), "showLegend")))
      && (k != "legend" ==> Get(r, k) == Get(options, k))
      && (k2 != "showLegend" ==> Get(Get(r, "legend"), k2) == Get(Get(options, "legend"), k2))
  {
    var legend := Get(options, "legend");
    var flipped := Obj(SetEntry(legend.entries, "showLegend", Bool(!Truthy(Get(legend, "showLegend")))));
    GetAfterSetEntry(options.entries, "legend", flipped, "legend");
    GetAfterSetEntry(options.entries, "legend", flipped, k);
    GetAfterSetEntry(legend.entries, "showLegend", Bool(!Truthy(Get(legend, "showLegend"))), "showLegend");
    GetAfterSetEntry(legend.entries, "showLegend", Bool(!Truthy(Get(legend, "showLegend"))), k2);
  }

  /** Options without a legend object make `p l` throw. */
  lemma ToggledLegendNeedsLegend(options: Value)
    requires options.Obj? && !Get(options, "legend").Obj?
    ensures ToggledLegend(options) == Failure(Panel.TypeError)
  {
  }

  /** `panels.findIndex((p) => p.id === panelId)`. */
  function IndexById(panels: seq<Dashboard.DashPanel>, id: int): (r: Option<nat>)
    ensures r.Some? ==> (r.value < |panels| && panels[r.value].id == Some(id)
                         && forall j :: 0 <= j < r.value ==> panels[j].id != Some(id))
    ensures r.None? ==> forall j :: 0 <= j < |panels| ==> panels[j].id != Some(id)
  {
    if |panels| == 0 then None
    else if panels[0].id == Some(id) then Some(0)
    else
      var rest := IndexById(panels[1..], id);
      if rest.Some? then Some(rest.value + 1) else None
  }

  /** The URL `d a` reloads to: the flag is appended unless already set. */
  function AutofitHref(href: string, search: map<string, Value>): (r: string)
    ensures Truthy(Lookup(search, "autofitpanels")) ==> r == href
    ensures !Truthy(Lookup(search, "autofitpanels")) ==> r == href + "&autofitpanels"
  {
    href + (if Truthy(Lookup(search, "autofitpanels")) then "" else "&autofitpanels")
  }

  /** The element that has focus when `esc` is pressed. */
  datatype ActiveElement = ActiveElement(isHtmlElement: bool, nodeName: string, slateEditor: bool)

  /** An input, a text area or a query editor takes `esc` as "leave the field". */
  predicate Blurs(active: Option<ActiveElement>)
  {
    active.Some? && active.value.isHtmlElement
    && (active.value.nodeName == "INPUT" || active.value.nodeName == "TEXTAREA" || active.value.slateEditor)
  }

  // ---------------------------------------------------------------------
  // The service
  // ---------------------------------------------------------------------

  class KeybindingSrv {
    const locationService: LocationService
    const appEvents: AppEvents
    /** The key-binding library's table: each key's callback. */
    var bindings: map<Key, Action>
    /** The keys bound with `bindGlobal`, which also fire inside inputs. */
    var globalKeys: set<Key>

    constructor (locationService: LocationService, appEvents: AppEvents)
      ensures this.locationService == locationService && this.appEvents == appEvents
      ensures bindings == map[] && globalKeys == {}
    {
      this.locationService := locationService;
      this.appEvents := appEvents;
      bindings := map[];
      globalKeys := {};
    }

    /** `bind(keyArg, fn)`: every key of `keyArg` now calls `action` (spelled out for short lists). */
    method Bind(keys: seq<Key>, action: Action)
      modifies this
      ensures |keys| == 0 ==> bindings == old(bindings)
      ensures |keys| == 1 ==> bindings == old(bindings)[keys[0] := action]
      ensures |keys| == 2 ==> bindings == old(bindings)[keys[0] := action][keys[1] := action]
      ensures |keys| > 2 ==> bindings == old(bindings) + map k | k in keys :: action
      ensures globalKeys == old(globalKeys)
    {
      bindings := bindings + map k | k in keys :: action;
      if |keys| == 1 {
        assert bindings == old(bindings)[keys[0] := action];
      } else if |keys| == 2 {
        assert bindings == old(bindings)[keys[0] := action][keys[1] := action];
      }
    }

    /** `bindGlobal(keyArg, fn)`: the key calls `action`, also inside text inputs. */
    method BindGlobal(key: Key, action: Action)
      modifies this
      ensures bindings == old(bindings)[key := action] && globalKeys == old(globalKeys) + {key}
    {
      globalKeys := globalKeys + {key};
      bindings := bindings[key := action];
    }

    /**
     * `clearAndInitGlobalBindings`: everything is unbound, then the
     * navigation keys are bound unless on the login page, the theme keys
     * always, and the navigation toggle in development builds.
     */
    method ClearAndInitGlobalBindings(development: bool)
      modifies this
      ensures bindings == GlobalBindings(locationService.pathname != LoginPath, development)
      ensures globalKeys == if locationService.pathname != LoginPath then {Esc} else {}
    {
      bindings := map[];
      globalKeys := {};
      if locationService.pathname != LoginPath {
        Bind([QuestionMark, KeyH], ShowHelp);
        Bind([GH], GoToHome);
        Bind([GP], GoToProfile);
        Bind([SO], OpenSearch);
        Bind([TA], MakeAbsoluteTime);
        Bind([KeyF], OpenSearch);
        Bind([Esc], Exit);
        BindGlobal(Esc, GlobalEsc);
      }
      Bind([CT], ToggleTheme(false));
      Bind([CR], ToggleTheme(true));
      if development {
        Bind([TN], ToggleNav);
      }
    }

    /** `exit`: closes the first open view of the cascade. */
    method OnExit()
      modifies locationService
      ensures locationService.search == Exited(old(locationService.search))
      ensures locationService.pathname == old(locationService.pathname)
    {
      var search := locationService.search;
      if Truthy(Lookup(search, "editview")) {
        locationService.Partial(map["editview" := Null, "editIndex" := Null]);
        return;
      }
      if Truthy(Lookup(search, "inspect")) {
        locationService.Partial(map["inspect" := Null, "inspectTab" := Null]);
        return;
      }
      if Truthy(Lookup(search, "editPanel")) {
        locationService.Partial(map["editPanel" := Null, "tab" := Null]);
        return;
      }
      if Truthy(Lookup(search, "viewPanel")) {
        locationService.Partial(map["viewPanel" := Null, "tab" := Null]);
        return;
      }
      if Truthy(Lookup(search, "search")) {
        locationService.Partial(map["search" := Null]);
      }
    }

    /**
     * `globalEsc`: an open typeahead keeps the key; a focused input is
     * left (`blurred`); otherwise `exit`.
     */
    method OnGlobalEsc(openTypeaheads: nat, active: Option<ActiveElement>) returns (blurred: bool)
      modifies locationService
      ensures blurred <==> openTypeaheads == 0 && Blurs(active)
      ensures locationService.search
        == if openTypeaheads > 0 || Blurs(active) then old(locationService.search) else Exited(old(locationService.search))
      ensures locationService.pathname == old(locationService.pathname)
    {
      blurred := false;
      if openTypeaheads > 0 {
        return;
      }
      if Blurs(active) {
        blurred := true;
        return;
      }
      OnExit();
    }

    method OnOpenSearch()
      modifies locationService
      ensures locationService.search == old(locationService.search)["search" := Str("open")]
      ensures locationService.pathname == old(locationService.pathname)
    {
      locationService.Partial(map["search" := Str("open")]);
    }

    method OnGoToHome()
      modifies locationService
      ensures locationService.pathname == "/" && locationService.search == map[]
    {
      locationService.Push("/");
    }

    method OnGoToProfile()
      modifies locationService
      ensures locationService.pathname == "/profile" && locationService.search == map[]
    {
      locationService.Push("/profile");
    }

    method OnMakeAbsoluteTime()
      modifies appEvents
      ensures appEvents.published == old(appEvents.published) + [AbsoluteTime]
    {
      appEvents.Publish(AbsoluteTime);
    }

    method OnShowHelp()
      modifies appEvents
      ensures appEvents.published == old(appEvents.published) + [ShowHelpModal]
    {
      appEvents.Publish(ShowHelpModal);
    }

    /** `setupTimeRangeBindings(updateUrl)`: zoom out and shift, remembering `updateUrl`. */
    method SetupTimeRangeBindings(updateUrl: bool)
      modifies this
      ensures bindings == TimeRangeBindings(old(bindings), updateUrl)
      ensures globalKeys == old(globalKeys)
    {
      Bind([TZ], ZoomOutTime(updateUrl));
      Bind([CtrlZ], ZoomOutTime(updateUrl));
      Bind([TLeft], ShiftTimeRange(Left, updateUrl));
      Bind([TRight], ShiftTimeRange(Right, updateUrl));
    }

    /** The time-range handlers: zooming out always doubles the range. */
    method OnTimeRangeKey(action: Action)
      requires action.ZoomOutTime? || action.ShiftTimeRange?
      modifies appEvents
      ensures action.ZoomOutTime? ==> appEvents.published == old(appEvents.published) + [ZoomOut(2, action.updateUrl)]
      ensures action.ShiftTimeRange? ==>
        appEvents.published == old(appEvents.published) + [ShiftTime(action.direction, action.updateUrl)]
    {
      if action.ZoomOutTime? {
        appEvents.Publish(ZoomOut(2, action.updateUrl));
      } else {
        appEvents.Publish(ShiftTime(action.direction, action.updateUrl));
      }
    }

    /** `setupDashboardBindings`: the dashboard keys, including the time-range keys with `updateUrl`. */
    method SetupDashboardBindings()
      modifies this
      ensures bindings == DashboardBindings(old(bindings))
      ensures globalKeys == old(globalKeys)
    {
      Bind([ModS], SaveDashboard);
      SetupTimeRangeBindings(true);
      Bind([KeyE], EditPanel);
      Bind([KeyV], ViewPanel);
      Bind([PL], ToggleLegend);
      Bind([KeyI], InspectPanel);
      Bind([PR], RemovePanelKey);
      Bind([PD], DuplicatePanel);
      Bind([DN], NewDashboard);
      Bind([DS], DashboardSettings);
      Bind([DA], AutofitPanels);
    }

    /** `mod+s`: the save drawer opens only when the dashboard may be saved. */
    method OnSave(dashboard: Dashboard.DashboardModel)
      modifies appEvents
      ensures appEvents.published
        == old(appEvents.published) + (if Truthy(Dashboard.MetaGet(dashboard.meta, "canSave")) then [ShowSaveDashboardDrawer] else [])
    {
      if Truthy(Dashboard.MetaGet(dashboard.meta, "canSave")) {
        appEvents.Publish(ShowSaveDashboardDrawer);
      }
    }

    /** `e`: toggles the panel editor for an editable panel. */
    method OnEditPanel(dashboard: Dashboard.DashboardModel, panelId: int)
      modifies locationService
      ensures dashboard.CanEditPanelById(Some(panelId)) ==>
        locationService.search == Toggled(old(locationService.search), "editPanel", panelId)
      ensures !dashboard.CanEditPanelById(Some(panelId)) ==> locationService.search == old(locationService.search)
      ensures locationService.pathname == old(locationService.pathname)
    {
      if dashboard.CanEditPanelById(Some(panelId)) {
        var isEditing := Lookup(locationService.search, "editPanel") != Undefined;
        locationService.Partial(map["editPanel" := if isEditing then Null else Num(panelId)]);
      }
    }

    /** `v`: toggles viewing the panel. */
    method OnViewPanel(panelId: int)
      modifies locationService
      ensures locationService.search == Toggled(old(locationService.search), "viewPanel", panelId)
      ensures locationService.pathname == old(locationService.pathname)
    {
      var isViewing := Lookup(locationService.search, "viewPanel") != Undefined;
      locationService.Partial(map["viewPanel" := if isViewing then Null else Num(panelId)]);
    }

    /** `i`: opens the inspector on the panel. */
    method OnInspect(panelId: int)
      modifies locationService
      ensures locationService.search == old(locationService.search)["inspect" := Num(panelId)]
      ensures locationService.pathname == old(locationService.pathname)
    {
      locationService.Partial(map["inspect" := Num(panelId)]);
    }

    /**
     * `p l`: flips the legend of the panel found by id (`panel`, None when
     * `getPanelById` finds nothing) and hands the options to `updateOptions`,
     * once.
     */
    method OnToggleLegend(panel: Option<Panel.PanelModel>) returns (status: Status)
      requires panel.Some? ==> panel.value.Valid()
      modifies if panel.Some? then {panel.value} else {}
      ensures panel.None? ==> status == Some(Panel.TypeError)
      ensures panel.Some? ==> var p := panel.value;
        var r := ToggledLegend(Dashboard.MetaGet(old(p.props), "options"));
        && (r.Failure? ==> status == Some(r.error) && p.props == old(p.props) && p.published == old(p.published))
        && (r.Success? ==> status.None? && p.props == old(p.props)["options" := r.value]
                           && p.published == old(p.published) + [Panel.PanelOptionsChanged, Panel.WorkflowRender]
                           && p.configRev == old(p.configRev) + 1)
      ensures panel.Some? ==> panel.value.Valid()
    {
      if panel.None? {
        return Some(Panel.TypeError);
      }
      var p := panel.value;
      var newOptions := ToggledLegend(Dashboard.MetaGet(p.props, "options"));
      if newOptions.Failure? {
        return Some(newOptions.error);
      }
      p.UpdateOptions(newOptions.value);
      status := None;
    }

    /** `p r`: asks to remove an editable panel, unless a panel is in view or being edited. */
    method OnRemovePanel(dashboard: Dashboard.DashboardModel, panelId: int)
      modifies appEvents
      ensures var removes := dashboard.CanEditPanelById(Some(panelId))
                             && !(dashboard.panelInView.Some? || dashboard.panelInEdit.Some?);
        appEvents.published == old(appEvents.published) + (if removes then [RemovePanel(panelId)] else [])
    {
      if dashboard.CanEditPanelById(Some(panelId)) && !(dashboard.panelInView.Some? || dashboard.panelInEdit.Some?) {
        appEvents.Publish(RemovePanel(panelId));
      }
    }

    /**
     * `p d`: duplicates an editable panel, found by its index in the
     * dashboard's panels; an editable panel that is only the panel in edit
     * has no index, and reading it throws.
     */
    method OnDuplicatePanel(dashboard: Dashboard.DashboardModel, panelId: int) returns (status: Status)
      modifies dashboard
      ensures !old(dashboard.CanEditPanelById(Some(panelId))) ==> status.None? && dashboard.panels == old(dashboard.panels)
      ensures old(dashboard.CanEditPanelById(Some(panelId))) && IndexById(old(dashboard.panels), panelId).None? ==>
        status == Some(Panel.TypeError) && dashboard.panels == old(dashboard.panels)
      ensures old(dashboard.CanEditPanelById(Some(panelId))) && IndexById(old(dashboard.panels), panelId).Some? ==>
        var source := old(dashboard.panels)[IndexById(old(dashboard.panels), panelId).value];
        && status.None?
        && dashboard.panels == Dashboard.SortByGridPos(
             [Dashboard.NewPanel(Dashboard.Duplicate(source, Dashboard.NextPanelId(old(dashboard.panels))), old(dashboard.nextRef))]
             + old(dashboard.panels))
      ensures dashboard.meta == old(dashboard.meta) && dashboard.panelInEdit == old(dashboard.panelInEdit)
    {
      status := None;
      if dashboard.CanEditPanelById(Some(panelId)) {
        var index := IndexById(dashboard.panels, panelId);
        if index.None? {
          return Some(Panel.TypeError);
        }
        var _ := dashboard.DuplicatePanel(dashboard.panels[index.value]);
      }
    }

    method OnNewDashboard()
      modifies locationService
      ensures locationService.pathname == "/dashboard/new" && locationService.search == map[]
    {
      locationService.Push("/dashboard/new");
    }

    /** `d s`: `showDashEditView`. */
    method OnDashboardSettings()
      modifies locationService
      ensures locationService.search == old(locationService.search)["editview" := Str("settings")]
      ensures locationService.pathname == old(locationService.pathname)
    {
      locationService.Partial(map["editview" := Str("settings")]);
    }

    /** `d a`: the page reloads at `AutofitHref` of the current URL. */
    method OnAutofit(href: string) returns (newHref: string)
      ensures newHref == AutofitHref(href, locationService.search)
    {
      var queryParams := locationService.search;
      var newUrlParam := if Truthy(Lookup(queryParams, "autofitpanels")) then "" else "&autofitpanels";
      newHref := href + newUrlParam;
    }
  }

}
