/**
 * The panel editor's tab bar (`getPanelEditorTabs`): the four editor tabs,
 * offered once a plugin is loaded, and which of them is active.
 */
module PanelEditorTabs {
  import opened Wrappers

  /** The editor tabs (`PanelEditorTabId`). */
  datatype TabId = Panel | Theme | Function | Workflow

  /**
   * The id's string value. The enumeration is not part of this model; these
   * are the lower-case names its members stand for.
   */
  function IdValue(id: TabId): string
  {
    match id
    case Panel => "panel"
    case Theme => "theme"
    case Function => "function"
    case Workflow => "workflow"
  }

  lemma IdValueInjective(a: TabId, b: TabId)
    requires IdValue(a) == IdValue(b)
    ensures a == b
  {
    assert "panel"[0] != "theme"[0] && "panel"[0] != "function"[0] && "panel"[0] != "workflow"[0];
    assert "theme"[0] != "function"[0] && "theme"[0] != "workflow"[0] && "function"[0] != "workflow"[0];
  }

  datatype EditorTab = EditorTab(id: TabId, text: string, icon: string, active: bool)

  /** The tabs in the order they are pushed, none active yet. */
  const Inactive: seq<EditorTab> := [
    EditorTab(Panel, "Panels", "database", false),
    EditorTab(Theme, "Theme", "database", false),
    EditorTab(Function, "Functions", "database", false),
    EditorTab(Workflow, "Workflow", "database", false)
  ]

  /** `tab || defaultTab`: the requested id, the workflow tab when none (or an empty one) is requested. */
  function Wanted(tab: Option<string>): string
  {
    if tab.Some? && tab.value != "" then tab.value else IdValue(Workflow)
  }

  /** `tabs.find(item => item.id === wanted)`, as an index. */
  function Find(tabs: seq<EditorTab>, wanted: string): (r: Option<nat>)
    ensures r.Some? ==> r.value < |tabs| && IdValue(tabs[r.value].id) == wanted
                        && forall j :: 0 <= j < r.value ==> IdValue(tabs[j].id) != wanted
    ensures r.None? <==> forall j :: 0 <= j < |tabs| ==> IdValue(tabs[j].id) != wanted
  {
    if tabs == [] then None
    else if IdValue(tabs[0].id) == wanted then Some(0)
    else
      var rest := Find(tabs[1..], wanted);
      assert forall j :: 1 <= j < |tabs| ==> tabs[j] == tabs[1..][j - 1];
      if rest.Some? then Some(rest.value + 1) else None
  }

  /** Where a left-to-right scan for `wanted` stops is what `Find` finds. */
  lemma FoundAt(tabs: seq<EditorTab>, wanted: string, i: nat)
    requires i <= |tabs| && forall j :: 0 <= j < i ==> IdValue(tabs[j].id) != wanted
    requires i < |tabs| ==> IdValue(tabs[i].id) == wanted
    ensures Find(tabs, wanted) == if i < |tabs| then Some(i) else None
  {
  }

  /** The position of the active tab: the one found, else the first (`?? tabs[0]`). */
  function ActiveIndex(tab: Option<string>): nat
  {
    var found := Find(Inactive, Wanted(tab));
    if found.Some? then found.value else 0
  }

  /** Without a requested tab the workflow tab is active. */
  lemma DefaultIsWorkflow(tab: Option<string>)
    requires tab.None? || tab.value == ""
    ensures Inactive[ActiveIndex(tab)].id == Workflow
  {
    var k := ActiveIndex(tab);
    assert Inactive[3].id == Workflow;
    assert IdValue(Inactive[k].id) == IdValue(Workflow);
    IdValueInjective(Inactive[k].id, Workflow);
  }

  /** A requested id that names a tab activates that tab. */
  lemma RequestedIsActive(id: TabId)
    ensures Inactive[ActiveIndex(Some(IdValue(id)))].id == id
  {
    var k := ActiveIndex(Some(IdValue(id)));
    var j := match id case Panel => 0 case Theme => 1 case Function => 2 case Workflow => 3;
    assert Inactive[j].id == id;
    assert IdValue(Inactive[k].id) == IdValue(id);
    IdValueInjective(Inactive[k].id, id);
  }

  /** An id that names no tab activates the first. */
  lemma UnknownIsFirst(tab: string)
    requires tab != "" && forall id :: IdValue(id) != tab
    ensures ActiveIndex(Some(tab)) == 0
  {
  }

  /** The tabs with the `k`-th, and only it, active. */
  function Activated(tabs: seq<EditorTab>, k: nat): seq<EditorTab>
  {
    seq(|tabs|, i requires 0 <= i < |tabs| => tabs[i].(active := i == k))
  }

  /** `activeTab.active = true` on tabs none of which is active. */
  lemma ActivateOne(tabs: seq<EditorTab>, k: nat)
    requires k < |tabs| && forall i :: 0 <= i < |tabs| ==> !tabs[i].active
    ensures tabs[k := tabs[k].(active := true)] == Activated(tabs, k)
  {
  }

  /** Exactly one tab is active, and nothing else about the tabs changes. */
  lemma ExactlyOneActive(tabs: seq<EditorTab>, k: nat)
    requires k < |tabs| && forall i :: 0 <= i < |tabs| ==> !tabs[i].active
    ensures var r := Activated(tabs, k);
      && |r| == |tabs|
      && r[k].active
      && (forall i :: 0 <= i < |r| && r[i].active ==> i == k)
      && (forall i :: 0 <= i < |r| ==> r[i].(active := false) == tabs[i])
  {
  }

  lemma NoneActiveYet()
    ensures forall i :: 0 <= i < |Inactive| ==> !Inactive[i].active
  {
  }

  /** The active index always names one of the four tabs. */
  lemma ActiveIndexInRange(tab: Option<string>)
    ensures ActiveIndex(tab) < |Inactive|
  {
  }

  /**
   * `getPanelEditorTabs(tab, plugin)`: nothing without a plugin, else the
   * four tabs with exactly the wanted one active.
   */
  method GetPanelEditorTabs(tab: Option<string>, hasPlugin: bool) returns (tabs: seq<EditorTab>)
    ensures !hasPlugin ==> tabs == []
    ensures hasPlugin ==> tabs == Activated(Inactive, ActiveIndex(tab))
  {
    tabs := [];
    if !hasPlugin {
      return;
    }
    var defaultTab := Workflow;
    tabs := tabs + [EditorTab(Panel, "Panels", "database", false)];
    tabs := tabs + [EditorTab(Theme, "Theme", "database", false)];
    tabs := tabs + [EditorTab(Function, "Functions", "database", false)];
    tabs := tabs + [EditorTab(Workflow, "Workflow", "database", false)];
    assert tabs == Inactive;
    var wanted := if tab.Some? && tab.value != "" then tab.value else IdValue(defaultTab);
    var i := 0;
    while i < |tabs| && IdValue(tabs[i].id) != wanted
      invariant 0 <= i <= |tabs|
      invariant forall j :: 0 <= j < i ==> IdValue(tabs[j].id) != wanted
    {
      i := i + 1;
    }
    var active := if i < |tabs| then i else 0;
    FoundAt(tabs, wanted, i);
    NoneActiveYet();
    ActivateOne(tabs, active);
    tabs := tabs[active := tabs[active].(active := true)];
  }
}
