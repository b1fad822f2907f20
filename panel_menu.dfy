/**
 * The panel header menu: which entries a panel's menu offers, in which order,
 * given whether the panel is being edited or viewed, whether it may be edited
 * and whether its plugin is loaded.
 *
 * An entry is identified by what clicking it does. Labels are the untranslated
 * defaults; icons are not part of this model.
 */
module PanelMenu {
  import opened Wrappers
  import opened JsonValue

  /** The inspector tabs an entry can open. */
  datatype InspectTab = DataTab | QueryTab | JsonTab | HelpTab

  /** What clicking an entry does. */
  datatype Click =
    | ViewPanel | EditPanel | Inspect(tab: Option<InspectTab>) | More
    | DuplicatePanel | CopyPanel | UnlinkLibraryPanel | CreateLibraryPanel | RemovePanel | NoClick

  datatype Kind = Item | Submenu | Divider

  datatype MenuItem = MenuItem(text: string, kind: Kind, onClick: Click, shortcut: string, subMenu: seq<MenuItem>)

  /** What the menu reads of the panel. */
  datatype MenuPanel = MenuPanel(
    id: Option<int>,
    panelType: string,
    isEditing: bool,
    isViewing: bool,
    hasPlugin: bool,
    /** `isPanelModelLibraryPanel(panel)`, whose definition is not part of this model. */
    isLibraryPanel: bool)

  function Entry(text: string, onClick: Click, shortcut: string): MenuItem
  {
    MenuItem(text, Item, onClick, shortcut, [])
  }

  /**
   * `dashboard.canEditPanel(panel)`; `canEditDashboard` is whether
   * `dashboard.meta.canEdit` is truthy, as `Dashboard.CanEditPanel` reads it.
   */
  predicate CanEdit(canEditDashboard: bool, panel: MenuPanel)
  {
    canEditDashboard && panel.panelType != "row"
  }

  /** The "Inspect" entry's submenu for these inputs. */
  function InspectClicks(canEditDashboard: bool, panel: MenuPanel): seq<Click>
  {
    (if panel.hasPlugin then [Inspect(Some(DataTab))] + (if canEditDashboard
                                                          then [Inspect(Some(QueryTab))] else [])
     else [])
    + [Inspect(Some(JsonTab))]
  }

  function Clicks(items: seq<MenuItem>): (cs: seq<Click>)
    ensures |cs| == |items| && forall i :: 0 <= i < |items| ==> cs[i] == items[i].onClick
  {
    if items == [] then [] else [items[0].onClick] + Clicks(items[1..])
  }

  /** The "More..." submenu's actions for these inputs. */
  function MoreClicks(canEditDashboard: bool, panel: MenuPanel): seq<Click>
  {
    var edits := CanEdit(canEditDashboard, panel) && !(panel.isViewing || panel.isEditing);
    (if edits then [DuplicatePanel, CopyPanel, if panel.isLibraryPanel then UnlinkLibraryPanel else CreateLibraryPanel]
     else [])
    + (if CanEdit(canEditDashboard, panel) && panel.hasPlugin then [Inspect(Some(HelpTab))] else [])
  }

  /** Editing leaves at most the help entry in "More...". */
  lemma MoreWhileEditing(canEditDashboard: bool, panel: MenuPanel)
    requires panel.isEditing
    ensures MoreClicks(canEditDashboard, panel) == if CanEdit(canEditDashboard, panel) && panel.hasPlugin then [Inspect(Some(HelpTab))] else []
  {
  }

  /** The library action unlinks a library panel and creates one otherwise. */
  lemma LibraryAction(canEditDashboard: bool, panel: MenuPanel)
    requires CanEdit(canEditDashboard, panel) && !panel.isViewing && !panel.isEditing
    ensures MoreClicks(canEditDashboard, panel)[2] == if panel.isLibraryPanel then UnlinkLibraryPanel else CreateLibraryPanel
  {
  }

  /**
   * The actions of the menu's entries, in order: "View" unless editing,
   * "Edit" when editable and not editing, "Inspect" always, "More..." when
   * it has entries, and a divider (`NoClick`) with "Remove" last when
   * editable and neither edited nor viewed.
   */
  function MenuClicks(canEditDashboard: bool, panel: MenuPanel): seq<Click>
  {
    (if !panel.isEditing then [ViewPanel] else [])
    + (if CanEdit(canEditDashboard, panel) && !panel.isEditing then [EditPanel] else [])
    + [Inspect(None)]
    + (if |MoreClicks(canEditDashboard, panel)| > 0 then [More] else [])
    + (if CanEdit(canEditDashboard, panel) && !panel.isEditing && !panel.isViewing then [NoClick, RemovePanel] else [])
  }

  lemma ViewUnlessEditing(canEditDashboard: bool, panel: MenuPanel)
    ensures ViewPanel in MenuClicks(canEditDashboard, panel) <==> !panel.isEditing
  {
  }

  lemma EditWhenEditable(canEditDashboard: bool, panel: MenuPanel)
    ensures EditPanel in MenuClicks(canEditDashboard, panel) <==> CanEdit(canEditDashboard, panel) && !panel.isEditing
  {
  }

  /** "Inspect" is always offered. */
  lemma InspectAlways(canEditDashboard: bool, panel: MenuPanel)
    ensures Inspect(None) in MenuClicks(canEditDashboard, panel)
  {
    var m := MenuClicks(canEditDashboard, panel);
    var before := (if !panel.isEditing then [ViewPanel] else [])
                  + (if CanEdit(canEditDashboard, panel) && !panel.isEditing then [EditPanel] else []);
    assert m[|before|] == Inspect(None);
  }

  lemma MoreWhenNonEmpty(canEditDashboard: bool, panel: MenuPanel)
    ensures More in MenuClicks(canEditDashboard, panel) <==> |MoreClicks(canEditDashboard, panel)| > 0
  {
  }

  /** "Remove" is offered only for an editable panel neither edited nor viewed, and then last, after a divider. */
  lemma RemoveLast(canEditDashboard: bool, panel: MenuPanel)
    ensures RemovePanel in MenuClicks(canEditDashboard, panel) <==> CanEdit(canEditDashboard, panel) && !panel.isEditing && !panel.isViewing
    ensures RemovePanel in MenuClicks(canEditDashboard, panel) ==>
      var m := MenuClicks(canEditDashboard, panel); |m| >= 2 && m[|m| - 2..] == [NoClick, RemovePanel]
  {
  }

  /** The inspect submenu: data with a plugin, the query too when the dashboard is editable, the JSON always, last. */
  lemma InspectSubmenu(canEditDashboard: bool, panel: MenuPanel)
    ensures var s := InspectClicks(canEditDashboard, panel);
      && |s| > 0 && s[|s| - 1] == Inspect(Some(JsonTab))
      && (Inspect(Some(DataTab)) in s <==> panel.hasPlugin)
      && (Inspect(Some(QueryTab)) in s <==> panel.hasPlugin && canEditDashboard)
  {
  }

  /** The divider has no action; submenus are the inspect and "More..." entries. */
  predicate WellKinded(menu: seq<MenuItem>)
  {
    forall i :: 0 <= i < |menu| ==>
      && (menu[i].kind == Divider <==> menu[i].onClick == NoClick)
      && (menu[i].kind == Submenu <==> menu[i].onClick in {Inspect(None), More})
  }

  /** Every "Inspect" entry opens `inspect`, every "More..." entry `more`. */
  predicate SubmenusAre(menu: seq<MenuItem>, inspect: seq<Click>, more: seq<Click>)
  {
    forall i :: 0 <= i < |menu| ==>
      && (menu[i].onClick == Inspect(None) ==> Clicks(menu[i].subMenu) == inspect)
      && (menu[i].onClick == More ==> Clicks(menu[i].subMenu) == more)
  }

  lemma ClicksConcat(a: seq<MenuItem>, b: seq<MenuItem>)
    ensures Clicks(a + b) == Clicks(a) + Clicks(b)
  {
    var l, r := Clicks(a + b), Clicks(a) + Clicks(b);
    assert |l| == |r|;
    forall i | 0 <= i < |l|
      ensures l[i] == r[i]
    {
      if i < |a| {
        assert (a + b)[i] == a[i];
      } else {
        assert (a + b)[i] == b[i - |a|];
      }
    }
  }

  /** An entry whose kind matches its action, with the submenu its action calls for. */
  predicate Fits(x: MenuItem, inspect: seq<Click>, more: seq<Click>)
  {
    && (x.kind == Divider <==> x.onClick == NoClick)
    && (x.kind == Submenu <==> x.onClick in {Inspect(None), More})
    && (x.onClick == Inspect(None) ==> Clicks(x.subMenu) == inspect)
    && (x.onClick == More ==> Clicks(x.subMenu) == more)
  }

  /** `menu.push(x)` keeps the menu well formed and appends `x`'s action. */
  lemma Pushed(menu: seq<MenuItem>, x: MenuItem, inspect: seq<Click>, more: seq<Click>)
    requires WellKinded(menu) && SubmenusAre(menu, inspect, more)
    requires Fits(x, inspect, more)
    ensures WellKinded(menu + [x]) && SubmenusAre(menu + [x], inspect, more)
    ensures Clicks(menu + [x]) == Clicks(menu) + [x.onClick]
  {
    ClicksConcat(menu, [x]);
    forall i | 0 <= i < |menu + [x]|
      ensures (menu + [x])[i] == if i < |menu| then menu[i] else x
    {
    }
  }

  /** `getPanelMenu(dashboard, panel)`. */
  method GetPanelMenu(canEditDashboard: bool, panel: MenuPanel) returns (menu: seq<MenuItem>)
    ensures Clicks(menu) == MenuClicks(canEditDashboard, panel)
    ensures WellKinded(menu)
    ensures SubmenusAre(menu, InspectClicks(canEditDashboard, panel), MoreClicks(canEditDashboard, panel))
  {
    var ins, mor := InspectClicks(canEditDashboard, panel), MoreClicks(canEditDashboard, panel);
    var canEdit := CanEdit(canEditDashboard, panel);
    menu := PanelMenuHead(canEditDashboard, panel);
    ghost var head := Clicks(menu);
    var subMenu := MoreSubmenuOf(canEditDashboard, panel);
    assert |subMenu| == |mor|;
    ghost var moreClicks: seq<Click> := [];
    if |subMenu| > 0 {
      Pushed(menu, MenuItem("More...", Submenu, More, "", subMenu), ins, mor);
      menu := menu + [MenuItem("More...", Submenu, More, "", subMenu)];
      moreClicks := [More];
    }
    assert Clicks(menu) == head + moreClicks;
    ghost var removeClicks: seq<Click> := [];
    ghost var beforeRemove := menu;
    if canEdit && !panel.isEditing && !panel.isViewing {
      Pushed(menu, MenuItem("", Divider, NoClick, "", []), ins, mor);
      menu := menu + [MenuItem("", Divider, NoClick, "", [])];
      Pushed(menu, Entry("Remove", RemovePanel, "p r"), ins, mor);
      menu := menu + [Entry("Remove", RemovePanel, "p r")];
      removeClicks := [NoClick, RemovePanel];
      assert Clicks(menu) == Clicks(beforeRemove) + removeClicks;
    }
    assert Clicks(menu) == head + moreClicks + removeClicks;
  }

  /** The view, edit and inspect entries `getPanelMenu` pushes first. */
  method PanelMenuHead(canEditDashboard: bool, panel: MenuPanel) returns (menu: seq<MenuItem>)
    ensures Clicks(menu) == (if !panel.isEditing then [ViewPanel] else [])
                           + (if CanEdit(canEditDashboard, panel) && !panel.isEditing then [EditPanel] else [])
                           + [Inspect(None)]
    ensures WellKinded(menu)
    ensures SubmenusAre(menu, InspectClicks(canEditDashboard, panel), MoreClicks(canEditDashboard, panel))
  {
    var ins, mor := InspectClicks(canEditDashboard, panel), MoreClicks(canEditDashboard, panel);
    var inspectMenu := InspectSubmenuOf(canEditDashboard, panel);
    ghost var clicks: seq<Click> := [];
    menu := [];
    if !panel.isEditing {
      Pushed(menu, Entry("View", ViewPanel, "v"), ins, mor);
      menu := menu + [Entry("View", ViewPanel, "v")];
      clicks := clicks + [ViewPanel];
    }
    if CanEdit(canEditDashboard, panel) && !panel.isEditing {
      Pushed(menu, Entry("Edit", EditPanel, "e"), ins, mor);
      menu := menu + [Entry("Edit", EditPanel, "e")];
      clicks := clicks + [EditPanel];
    }
    Pushed(menu, MenuItem("Inspect", Submenu, Inspect(None), "i", inspectMenu), ins, mor);
    menu := menu + [MenuItem("Inspect", Submenu, Inspect(None), "i", inspectMenu)];
  }

  /** The `inspectMenu` pushes. */
  method InspectSubmenuOf(canEditDashboard: bool, panel: MenuPanel) returns (inspectMenu: seq<MenuItem>)
    ensures Clicks(inspectMenu) == InspectClicks(canEditDashboard, panel)
  {
    inspectMenu := [];
    if panel.hasPlugin {
      inspectMenu := inspectMenu + [Entry("Data", Inspect(Some(DataTab)), "")];
      if canEditDashboard {
        inspectMenu := inspectMenu + [Entry("Query", Inspect(Some(QueryTab)), "")];
      }
    }
    inspectMenu := inspectMenu + [Entry("Panel JSON", Inspect(Some(JsonTab)), "")];
  }

  /** The `subMenu` pushes, and its truncation while editing. */
  method MoreSubmenuOf(canEditDashboard: bool, panel: MenuPanel) returns (subMenu: seq<MenuItem>)
    ensures Clicks(subMenu) == MoreClicks(canEditDashboard, panel)
  {
    subMenu := [];
    var canEdit := CanEdit(canEditDashboard, panel);
    if canEdit && !(panel.isViewing || panel.isEditing) {
      subMenu := subMenu + [Entry("Duplicate", DuplicatePanel, "p d")];
      subMenu := subMenu + [Entry("Copy", CopyPanel, "")];
      if panel.isLibraryPanel {
        subMenu := subMenu + [Entry("Unlink library panel", UnlinkLibraryPanel, "")];
      } else {
        subMenu := subMenu + [Entry("Create library panel", CreateLibraryPanel, "")];
      }
    }
    // When editing, hide most actions.
    if panel.isEditing {
      subMenu := [];
    }
    if canEdit && panel.hasPlugin {
      subMenu := subMenu + [Entry("Get help", Inspect(Some(HelpTab)), "")];
    }
  }

  /**
   * The location query a click sends (`locationService.partial`), where it
   * sends one; an inspect tab left undefined removes `inspectTab`.
   */
  function ClickQuery(c: Click, panelId: Option<int>): (r: Option<map<string, Value>>)
    ensures c.Inspect? ==> (r.Some? && "inspectTab" in r.value
                            && (c.tab.None? <==> Nullish(r.value["inspectTab"])))
    ensures r.Some? <==> c in {ViewPanel, EditPanel} || c.Inspect?
  {
    var id := if panelId.Some? then Num(panelId.value) else Undefined;
    match c
    case ViewPanel => Some(map["viewPanel" := id])
    case EditPanel => Some(map["editPanel" := id])
    case Inspect(tab) => Some(map["inspect" := id, "inspectTab" := TabValue(tab)])
    case _ => None
  }

  /** The tab's URL value: the inspector's lower-case tab names (the enum is not part of this model). */
  function TabValue(tab: Option<InspectTab>): Value
  {
    match tab
    case None => Undefined
    case Some(DataTab) => Str("data")
    case Some(QueryTab) => Str("query")
    case Some(JsonTab) => Str("json")
    case Some(HelpTab) => Str("help")
  }
}
