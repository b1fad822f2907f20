/**
 * The dashboard (`DashboardModel`): its list of panels with their ids and
 * grid positions, the panel in edit and the panel in view, the meta flags,
 * and the operations that add, remove, duplicate, order and group panels.
 *
 * A panel object is seen here through the fields the dashboard reads and
 * writes; `ref` is the object's identity, so that two panels with equal
 * contents are still told apart the way `!==` tells apart two objects.
 */
module Dashboard {
  import opened Wrappers
  import opened JsonValue
  import JsNumber
  import Panel

  /** `GRID_COLUMN_COUNT`. */
  const GridColumnCount: int := 24

  /** The default position of a panel, which `getSaveModel` leaves out. */
  const DefaultGridPos: Panel.GridPos := Panel.GridPos(0, 0, 6, 3)

  datatype LibraryRef = LibraryRef(uid: string, name: string)

  /**
   * A panel as the dashboard sees it. `id` is the `id` getter's value, None
   * standing for NaN; `rowPanels` are the collapsed children of a row panel
   * (their positions), None when the panel has no `panels` property.
   */
  datatype DashPanel = DashPanel(
    ref: nat,
    id: Option<int>,
    title: string,
    panelType: string,
    gridPos: Panel.GridPos,
    configRev: nat,
    isViewing: bool,
    hasSavedPanelEditChange: Option<bool>,
    libraryPanel: Option<LibraryRef>,
    rowPanels: Option<seq<Panel.GridPos>>)

  datatype DashboardEvent = DashboardPanelsChanged | DashboardMetaChanged

  /** `a.id === b` for two numbers, where NaN equals nothing. */
  predicate SameId(a: Option<int>, b: Option<int>)
  {
    a.Some? && b.Some? && a.value == b.value
  }

  /** `new PanelModel(data)`: a new object whose runtime fields start afresh. */
  function NewPanel(data: DashPanel, ref: nat): (p: DashPanel)
    ensures p.ref == ref && p.configRev == 0 && !p.isViewing && p.hasSavedPanelEditChange.None?
    ensures p.id == data.id && p.gridPos == data.gridPos && p.panelType == data.panelType && p.title == data.title
  {
    data.(ref := ref, configRev := 0, isViewing := false, hasSavedPanelEditChange := None)
  }

  /** `map(data, (panelData) => new PanelModel(panelData))`, the objects numbered in order. */
  function Created(ds: seq<DashPanel>): (s: seq<DashPanel>)
    ensures |s| == |ds| && forall i :: 0 <= i < |ds| ==> s[i] == NewPanel(ds[i], i)
  {
    seq(|ds|, i requires 0 <= i < |ds| => NewPanel(ds[i], i))
  }

  // ---------------------------------------------------------------------
  // getNextPanelId
  // ---------------------------------------------------------------------

  /** The largest panel id, or 0 when it is larger; NaN ids never win `>`. */
  function MaxId(s: seq<DashPanel>): int
  {
    if |s| == 0 then 0
    else
      var m := MaxId(s[..|s| - 1]);
      var last := s[|s| - 1];
      if last.id.Some? && last.id.value > m then last.id.value else m
  }

  function NextPanelId(s: seq<DashPanel>): int
  {
    MaxId(s) + 1
  }

  /**
   * The next panel id is at least 1, exceeds every panel id, and is 1 or
   * one more than some panel's id.
   */
  lemma {:induction false} NextPanelIdFresh(s: seq<DashPanel>)
    ensures NextPanelId(s) >= 1
    ensures forall i :: 0 <= i < |s| && s[i].id.Some? ==> s[i].id.value < NextPanelId(s)
    ensures NextPanelId(s) == 1 || exists i :: 0 <= i < |s| && s[i].id == Some(NextPanelId(s) - 1)
  {
    if |s| > 0 {
      var init := s[..|s| - 1];
      NextPanelIdFresh(init);
      assert forall i :: 0 <= i < |init| ==> init[i] == s[i];
      if !(s[|s| - 1].id.Some? && s[|s| - 1].id.value > MaxId(init)) && MaxId(init) > 0 {
        var i :| 0 <= i < |init| && init[i].id == Some(NextPanelId(init) - 1);
        assert s[i].id == Some(NextPanelId(s) - 1);
      }
    }
  }

  // ---------------------------------------------------------------------
  // ensurePanelsHaveIds
  // ---------------------------------------------------------------------

  /** The number of panels without an id. */
  function Missing(s: seq<DashPanel>): nat
  {
    if |s| == 0 then 0
    else Missing(s[..|s| - 1]) + (if s[|s| - 1].id.None? then 1 else 0)
  }

  /**
   * The evidently intended `ensurePanelsHaveIds`: the panels without an id
   * get consecutive ids from `start` on, in list order.
   */
  function WithIds(s: seq<DashPanel>, start: int): (r: seq<DashPanel>)
    ensures |r| == |s|
  {
    seq(|s|, j requires 0 <= j < |s| =>
      if s[j].id.None? then s[j].(id := Some(start + Missing(s[..j]))) else s[j])
  }

  lemma MissingStep(s: seq<DashPanel>, i: nat)
    requires i < |s|
    ensures Missing(s[..i + 1]) == Missing(s[..i]) + (if s[i].id.None? then 1 else 0)
  {
    assert s[..i + 1][..i] == s[..i];
  }

  lemma {:induction false} MissingGrows(s: seq<DashPanel>, i: nat, j: nat)
    requires i < j <= |s| && s[i].id.None?
    ensures Missing(s[..i]) < Missing(s[..j])
  {
    if j == i + 1 {
      MissingStep(s, i);
    } else {
      MissingGrows(s, i, j - 1);
      MissingStep(s, j - 1);
    }
  }

  /**
   * After the corrected `ensurePanelsHaveIds` every panel has an id; a panel
   * that had one keeps it; the new ids are at least `start` and increase
   * along the list, so no two are equal.
   */
  lemma WithIdsAssigns(s: seq<DashPanel>, start: int)
    ensures forall j :: 0 <= j < |s| ==> WithIds(s, start)[j].id.Some?
    ensures forall j :: 0 <= j < |s| && s[j].id.Some? ==> WithIds(s, start)[j] == s[j]
    ensures forall j :: 0 <= j < |s| ==> WithIds(s, start)[j] == s[j].(id := WithIds(s, start)[j].id)
    ensures forall j :: 0 <= j < |s| && s[j].id.None? ==> WithIds(s, start)[j].id.value >= start
    ensures forall i, j :: 0 <= i < j < |s| && s[i].id.None? && s[j].id.None? ==>
      WithIds(s, start)[i].id.value < WithIds(s, start)[j].id.value
  {
    forall i, j | 0 <= i < j < |s| && s[i].id.None? && s[j].id.None?
      ensures WithIds(s, start)[i].id.value < WithIds(s, start)[j].id.value
    {
      MissingGrows(s, i, j);
    }
  }

  /**
   * Starting at the next panel id, the corrected numbering keeps the ids
   * distinct when the existing ones were.
   */
  lemma WithNextIdsDistinct(s: seq<DashPanel>)
    requires forall i, j :: 0 <= i < j < |s| && s[i].id.Some? && s[j].id.Some? ==> s[i].id != s[j].id
    ensures forall i, j :: 0 <= i < j < |s| ==> WithIds(s, NextPanelId(s))[i].id != WithIds(s, NextPanelId(s))[j].id
  {
    var r := WithIds(s, NextPanelId(s));
    WithIdsAssigns(s, NextPanelId(s));
    NextPanelIdFresh(s);
    forall i, j | 0 <= i < j < |s| ensures r[i].id != r[j].id {
      if s[i].id.Some? && s[j].id.None? {
        assert r[i].id.value < NextPanelId(s) <= r[j].id.value;
      } else if s[i].id.None? && s[j].id.Some? {
        assert r[j].id.value < NextPanelId(s) <= r[i].id.value;
      }
    }
  }

  /** `x ?? …` on the value of the `id` getter: a number, NaN included, is never nullish. */
  predicate NullishNumber(n: Option<int>)
  {
    false
  }

  /**
   * `ensurePanelsHaveIds` as written: `panel.id ??= nextPanelId++` assigns
   * only when the getter yields null or undefined, which `parseInt` never does.
   */
  function WithIdsAsWritten(s: seq<DashPanel>, start: int): (r: seq<DashPanel>)
    ensures |r| == |s|
  {
    seq(|s|, j requires 0 <= j < |s| =>
      if NullishNumber(s[j].id) then s[j].(id := Some(start + Missing(s[..j]))) else s[j])
  }

  /** As written, a panel without an id still has none afterwards. */
  lemma AsWrittenLeavesIdsMissing(s: seq<DashPanel>, start: int)
    ensures WithIdsAsWritten(s, start) == s
    ensures forall j :: 0 <= j < |s| && s[j].id.None? ==> WithIdsAsWritten(s, start)[j].id.None?
  {
  }

  // ---------------------------------------------------------------------
  // sortPanelsByGridPos
  // ---------------------------------------------------------------------

  /** The comparator of `sortPanelsByGridPos` is ≤ 0: by y, then by x. */
  predicate Before(a: Panel.GridPos, b: Panel.GridPos)
  {
    a.y < b.y || (a.y == b.y && a.x <= b.x)
  }

  predicate SortedByGridPos(s: seq<DashPanel>)
  {
    forall i, j :: 0 <= i < j < |s| ==> Before(s[i].gridPos, s[j].gridPos)
  }

  /** Puts `p` in front of the first panel it does not follow. */
  function Insert(p: DashPanel, s: seq<DashPanel>): seq<DashPanel>
  {
    if |s| == 0 || Before(p.gridPos, s[0].gridPos) then [p] + s
    else [s[0]] + Insert(p, s[1..])
  }

  /** The stable sort `Array.prototype.sort` performs with that comparator. */
  function SortByGridPos(s: seq<DashPanel>): seq<DashPanel>
  {
    if |s| == 0 then [] else Insert(s[0], SortByGridPos(s[1..]))
  }

  lemma {:induction false} InsertSorted(p: DashPanel, s: seq<DashPanel>)
    requires SortedByGridPos(s)
    ensures multiset(Insert(p, s)) == multiset(s) + multiset{p}
    ensures SortedByGridPos(Insert(p, s))
  {
    if |s| == 0 || Before(p.gridPos, s[0].gridPos) {
      var r := [p] + s;
      forall i, j | 0 <= i < j < |r| ensures Before(r[i].gridPos, r[j].gridPos) {
        if i == 0 && j > 1 {
          assert Before(s[0].gridPos, s[j - 1].gridPos);
        }
      }
    } else {
      InsertSorted(p, s[1..]);
      assert s == [s[0]] + s[1..];
      var t := Insert(p, s[1..]);
      var r := [s[0]] + t;
      forall i, j | 0 <= i < j < |r| ensures Before(r[i].gridPos, r[j].gridPos) {
        if i == 0 {
          assert r[j] in multiset(t);
          if r[j] != p {
            assert r[j] in multiset(s[1..]);
            var k :| 0 <= k < |s[1..]| && s[1..][k] == r[j];
            assert Before(s[0].gridPos, s[k + 1].gridPos);
          }
        }
      }
    }
  }

  /** Sorting yields the same panels, ordered by y and then x. */
  lemma {:induction false} SortByGridPosSorts(s: seq<DashPanel>)
    ensures multiset(SortByGridPos(s)) == multiset(s)
    ensures SortedByGridPos(SortByGridPos(s))
    ensures |SortByGridPos(s)| == |s|
  {
    if |s| > 0 {
      SortByGridPosSorts(s[1..]);
      InsertSorted(s[0], SortByGridPos(s[1..]));
      assert s == [s[0]] + s[1..];
    }
    assert |multiset(SortByGridPos(s))| == |multiset(s)|;
  }

  /** Panels already in grid order stay exactly as they are. */
  lemma {:induction false} SortByGridPosKeepsSorted(s: seq<DashPanel>)
    requires SortedByGridPos(s)
    ensures SortByGridPos(s) == s
  {
    if |s| > 0 {
      assert SortedByGridPos(s[1..]) by {
        forall i, j | 0 <= i < j < |s[1..]| ensures Before(s[1..][i].gridPos, s[1..][j].gridPos) {
          assert s[1..][i] == s[i + 1] && s[1..][j] == s[j + 1];
        }
      }
      SortByGridPosKeepsSorted(s[1..]);
      if |s| > 1 {
        assert Before(s[0].gridPos, s[1].gridPos);
      }
      assert s == [s[0]] + s[1..];
    }
  }

  /** Sorting twice is sorting once. */
  lemma SortByGridPosIdempotent(s: seq<DashPanel>)
    ensures SortByGridPos(SortByGridPos(s)) == SortByGridPos(s)
  {
    SortByGridPosSorts(s);
    SortByGridPosKeepsSorted(SortByGridPos(s));
  }

  // ---------------------------------------------------------------------
  // removePanel
  // ---------------------------------------------------------------------

  /** `panels.filter((item) => item !== panel)`. */
  function Without(s: seq<DashPanel>, ref: nat): seq<DashPanel>
  {
    if |s| == 0 then []
    else (if s[0].ref == ref then [] else [s[0]]) + Without(s[1..], ref)
  }

  /**
   * Removing drops exactly the panel object: a panel is kept iff it is a
   * different object, the removal distributes over concatenation (so the
   * kept panels stay in order), and removing an absent panel changes nothing.
   */
  lemma {:induction false} WithoutRemovesExactly(s: seq<DashPanel>, ref: nat)
    ensures forall p :: p in Without(s, ref) <==> p in s && p.ref != ref
    ensures (forall p :: p in s ==> p.ref != ref) ==> Without(s, ref) == s
    ensures |Without(s, ref)| <= |s|
  {
    if |s| > 0 {
      WithoutRemovesExactly(s[1..], ref);
      assert s == [s[0]] + s[1..];
    }
  }

  lemma {:induction false} WithoutConcat(a: seq<DashPanel>, b: seq<DashPanel>, ref: nat)
    ensures Without(a + b, ref) == Without(a, ref) + Without(b, ref)
  {
    if |a| > 0 {
      assert (a + b)[1..] == a[1..] + b;
      WithoutConcat(a[1..], b, ref);
    } else {
      assert a + b == b;
    }
  }

  // ---------------------------------------------------------------------
  // duplicatePanel
  // ---------------------------------------------------------------------

  /** Where the copy goes: to the right when two widths fit in the row, else below. */
  function DuplicatedPos(gp: Panel.GridPos): (r: Panel.GridPos)
    ensures gp.x + gp.w * 2 <= GridColumnCount ==> r == gp.(x := gp.x + gp.w)
    ensures gp.x + gp.w * 2 > GridColumnCount ==> r == gp.(y := gp.y + gp.h)
  {
    if gp.x + gp.w * 2 <= GridColumnCount then gp.(x := gp.x + gp.w) else gp.(y := gp.y + gp.h)
  }

  /** Two rectangles of the grid share a cell. */
  predicate Overlap(a: Panel.GridPos, b: Panel.GridPos)
  {
    a.x < b.x + b.w && b.x < a.x + a.w && a.y < b.y + b.h && b.y < a.y + a.h
  }

  /**
   * The copy of a panel with a positive size never covers the original, and
   * a copy placed to the right stays inside the 24 columns.
   */
  lemma DuplicateBesideOriginal(gp: Panel.GridPos)
    requires gp.w > 0 && gp.h > 0
    ensures !Overlap(gp, DuplicatedPos(gp))
    ensures gp.x + gp.w * 2 <= GridColumnCount ==> DuplicatedPos(gp).x + DuplicatedPos(gp).w <= GridColumnCount
  {
  }

  /**
   * `duplicatePanel` as written: the copy is the panel's save model, which
   * omits a grid position equal to the default, so `newPanel.gridPos.x +=`
   * reads through undefined and throws.
   */
  function DuplicatedPosAsWritten(gp: Panel.GridPos): Result<Panel.GridPos, Panel.PanelError>
  {
    if gp == DefaultGridPos then Failure(Panel.TypeError) else Success(DuplicatedPos(gp))
  }

  /** A panel at the default position cannot be duplicated as written. */
  lemma DuplicateAtDefaultPositionThrows()
    ensures DuplicatedPosAsWritten(Panel.GridPos(0, 0, 6, 3)) == Failure(Panel.TypeError)
    ensures DuplicatedPos(Panel.GridPos(0, 0, 6, 3)) == Panel.GridPos(6, 0, 6, 3)
  {
  }

  /** The copy `duplicatePanel` adds: same persisted contents, new id, new place. */
  function Duplicate(p: DashPanel, id: int): (c: DashPanel)
    ensures c.id == Some(id) && c.gridPos == DuplicatedPos(p.gridPos)
    ensures c.title == p.title && c.panelType == p.panelType && c.libraryPanel == p.libraryPanel
  {
    p.(id := Some(id), gridPos := DuplicatedPos(p.gridPos))
  }

  // ---------------------------------------------------------------------
  // Rows
  // ---------------------------------------------------------------------

  /** `Array.prototype.slice(start)`, negative starts counting from the end. */
  function SliceFrom(s: seq<DashPanel>, start: int): (r: seq<DashPanel>)
    ensures 0 <= start <= |s| ==> r == s[start..]
    ensures start > |s| ==> r == []
  {
    if start < 0 then (if |s| + start < 0 then s else s[|s| + start..])
    else if start > |s| then [] else s[start..]
  }

  /** `findIndex((p) => p.panelType === 'row')`, with -1 when there is none. */
  function FirstRow(s: seq<DashPanel>): (i: int)
    ensures -1 <= i < |s|
    ensures i >= 0 ==> s[i].panelType == "row" && forall j :: 0 <= j < i ==> s[j].panelType != "row"
    ensures i == -1 ==> forall j :: 0 <= j < |s| ==> s[j].panelType != "row"
  {
    if |s| == 0 then -1
    else if s[0].panelType == "row" then 0
    else
      var k := FirstRow(s[1..]);
      if k == -1 then -1 else k + 1
  }

  /** `getRowPanels(rowIndex)`. */
  function RowPanels(s: seq<DashPanel>, rowIndex: int): seq<DashPanel>
  {
    var below := SliceFrom(s, rowIndex + 1);
    var next := FirstRow(below);
    below[..if next >= 0 then next else |below|]
  }

  /**
   * The panels of the row at `rowIndex` are the ones right after it, up to
   * and excluding the next row panel, or up to the end when there is none.
   */
  lemma RowPanelsUpToNextRow(s: seq<DashPanel>, rowIndex: int)
    requires 0 <= rowIndex < |s|
    ensures var r := RowPanels(s, rowIndex);
      rowIndex + 1 + |r| <= |s|
      && r == s[rowIndex + 1 .. rowIndex + 1 + |r|]
      && (forall j :: 0 <= j < |r| ==> r[j].panelType != "row")
      && (rowIndex + 1 + |r| == |s| || s[rowIndex + 1 + |r|].panelType == "row")
  {
    var below := s[rowIndex + 1..];
    assert SliceFrom(s, rowIndex + 1) == below;
  }

  /** The lowest bottom edge, `y + h`, among the positions. */
  function MaxBottom(ps: seq<Panel.GridPos>): int
    requires |ps| > 0
  {
    if |ps| == 1 then ps[0].y + ps[0].h
    else
      var m := MaxBottom(ps[1..]);
      if ps[0].y + ps[0].h >= m then ps[0].y + ps[0].h else m
  }

  lemma {:induction false} MaxBottomIsMax(ps: seq<Panel.GridPos>)
    requires |ps| > 0
    ensures forall i :: 0 <= i < |ps| ==> ps[i].y + ps[i].h <= MaxBottom(ps)
    ensures exists i :: 0 <= i < |ps| && ps[i].y + ps[i].h == MaxBottom(ps)
  {
    if |ps| > 1 {
      MaxBottomIsMax(ps[1..]);
      var k :| 0 <= k < |ps[1..]| && ps[1..][k].y + ps[1..][k].h == MaxBottom(ps[1..]);
      assert ps[k + 1] == ps[1..][k];
      forall i | 1 <= i < |ps| ensures ps[i].y + ps[i].h <= MaxBottom(ps) {
        assert ps[i] == ps[1..][i - 1];
      }
      if ps[0].y + ps[0].h < MaxBottom(ps[1..]) {
        assert ps[k + 1].y + ps[k + 1].h == MaxBottom(ps);
      }
    } else {
      assert ps[0].y + ps[0].h == MaxBottom(ps);
    }
  }

  /** `getRowHeight(rowPanel)`. */
  function RowHeight(row: DashPanel): int
  {
    match row.rowPanels
    case None => 0
    case Some(ps) => if |ps| == 0 then 0 else MaxBottom(ps) - row.gridPos.y
  }

  /**
   * A row without children is 0 high; otherwise it reaches from its own y to
   * its lowest child's bottom edge: no child ends below it, and one ends there.
   */
  lemma RowHeightSpansChildren(row: DashPanel)
    ensures (row.rowPanels.None? || |row.rowPanels.value| == 0) ==> RowHeight(row) == 0
    ensures row.rowPanels.Some? && |row.rowPanels.value| > 0 ==>
      (forall i :: 0 <= i < |row.rowPanels.value| ==>
         row.rowPanels.value[i].y + row.rowPanels.value[i].h <= row.gridPos.y + RowHeight(row))
      && (exists i :: 0 <= i < |row.rowPanels.value|
           && row.rowPanels.value[i].y + row.rowPanels.value[i].h == row.gridPos.y + RowHeight(row))
  {
    if row.rowPanels.Some? && |row.rowPanels.value| > 0 {
      MaxBottomIsMax(row.rowPanels.value);
    }
  }

  // ---------------------------------------------------------------------
  // Unsaved changes and save models
  // ---------------------------------------------------------------------

  /** `hasUnsavedChanges`: some panel has `hasChanged`. */
  predicate AnyChanged(s: seq<DashPanel>)
  {
    exists i :: 0 <= i < |s| && s[i].configRev > 0
  }

  /** What `getPanelSaveModels` emits for one panel. */
  datatype SavedPanel =
    | LibraryStub(id: Option<int>, title: string, gridPos: Panel.GridPos, libraryPanel: LibraryRef)
      /** The save model (`getSaveModel`) of this panel object. */
    | SaveModel(of: DashPanel)

  function SavedOf(p: DashPanel, panelInEdit: Option<DashPanel>): SavedPanel
  {
    if p.libraryPanel.Some? then LibraryStub(p.id, p.title, p.gridPos, p.libraryPanel.value)
    else if panelInEdit.Some? && SameId(panelInEdit.value.id, p.id) then SaveModel(panelInEdit.value)
    else SaveModel(p)
  }

  /** `getPanelSaveModels()`. */
  function SaveModels(s: seq<DashPanel>, panelInEdit: Option<DashPanel>): seq<SavedPanel>
  {
    if |s| == 0 then []
    else (if s[0].panelType == "add-panel" then [] else [SavedOf(s[0], panelInEdit)]) + SaveModels(s[1..], panelInEdit)
  }

  /**
   * Every panel but an `add-panel` placeholder is saved, in order and
   * nothing else is: a library panel as its stub, the one being edited as
   * the edit copy's save model, the others as their own.
   */
  lemma {:induction false} SaveModelsCover(s: seq<DashPanel>, panelInEdit: Option<DashPanel>)
    ensures forall i :: 0 <= i < |s| && s[i].panelType != "add-panel" ==> SavedOf(s[i], panelInEdit) in SaveModels(s, panelInEdit)
    ensures forall x :: x in SaveModels(s, panelInEdit) ==>
      exists i :: 0 <= i < |s| && s[i].panelType != "add-panel" && x == SavedOf(s[i], panelInEdit)
    ensures |SaveModels(s, panelInEdit)| <= |s|
  {
    if |s| > 0 {
      SaveModelsCover(s[1..], panelInEdit);
      forall x | x in SaveModels(s, panelInEdit)
        ensures exists i :: 0 <= i < |s| && s[i].panelType != "add-panel" && x == SavedOf(s[i], panelInEdit)
      {
        if x !in SaveModels(s[1..], panelInEdit) {
          assert s[0].panelType != "add-panel" && x == SavedOf(s[0], panelInEdit);
        } else {
          var i :| 0 <= i < |s[1..]| && s[1..][i].panelType != "add-panel" && x == SavedOf(s[1..][i], panelInEdit);
          assert s[i + 1] == s[1..][i];
        }
      }
      forall i | 1 <= i < |s| && s[i].panelType != "add-panel"
        ensures SavedOf(s[i], panelInEdit) in SaveModels(s, panelInEdit)
      {
        assert s[1..][i - 1] == s[i];
      }
    }
  }

  /** No `add-panel` placeholder reaches the save models. */
  lemma {:induction false} SaveModelsSkipPlaceholders(s: seq<DashPanel>, panelInEdit: Option<DashPanel>)
    requires forall i :: 0 <= i < |s| ==> s[i].panelType == "add-panel"
    ensures SaveModels(s, panelInEdit) == []
  {
    if |s| > 0 {
      SaveModelsSkipPlaceholders(s[1..], panelInEdit);
    }
  }

  // ---------------------------------------------------------------------
  // Finding panels
  // ---------------------------------------------------------------------

  /** `panels.find((p) => p.id === id)`. */
  function FindById(s: seq<DashPanel>, id: Option<int>): (r: Option<DashPanel>)
    ensures r.Some? ==> r.value in s && SameId(r.value.id, id)
    ensures r.None? <==> forall p :: p in s ==> !SameId(p.id, id)
  {
    if |s| == 0 then None
    else if SameId(s[0].id, id) then Some(s[0])
    else FindById(s[1..], id)
  }

  /** `find` returns the first match. */
  lemma {:induction false} FindByIdFirst(s: seq<DashPanel>, id: Option<int>, i: nat)
    requires i < |s| && SameId(s[i].id, id) && forall j :: 0 <= j < i ==> !SameId(s[j].id, id)
    ensures FindById(s, id) == Some(s[i])
  {
    if i > 0 {
      FindByIdFirst(s[1..], id, i - 1);
    }
  }

  /** `getPanelById(id)`: the panel in edit when its id matches, else the first panel with it. */
  function PanelById(s: seq<DashPanel>, panelInEdit: Option<DashPanel>, id: Option<int>): (r: Option<DashPanel>)
    ensures panelInEdit.Some? && SameId(panelInEdit.value.id, id) ==> r == panelInEdit
    ensures !(panelInEdit.Some? && SameId(panelInEdit.value.id, id)) ==> r == FindById(s, id)
    ensures r.Some? ==> SameId(r.value.id, id)
    ensures id.None? ==> r.None?
  {
    if panelInEdit.Some? && SameId(panelInEdit.value.id, id) then panelInEdit else FindById(s, id)
  }

  /** `parseInt(panelUrlId ?? '0', 10)`. */
  function UrlPanelId(panelUrlId: Option<string>): Option<int>
  {
    JsNumber.ParseInt(panelUrlId.GetOr("0"))
  }

  /** Without a URL id, the id looked up is 0. */
  lemma UrlPanelIdDefault()
    ensures UrlPanelId(None) == Some(0)
  {
    assert JsNumber.ParseInt("0") == Some(0) by {
      JsNumber.ParseIntOfIntToString(0);
      assert JsNumber.IntToString(0) == "0";
    }
  }

  // ---------------------------------------------------------------------
  // meta
  // ---------------------------------------------------------------------

  function MetaGet(m: map<string, Value>, k: string): Value
  {
    if k in m then m[k] else Undefined
  }

  /** `meta.flag !== false`. */
  function NotFalse(m: map<string, Value>, k: string): Value
  {
    Bool(MetaGet(m, k) != Bool(false))
  }

  /** The meta keys `initMeta` writes are six different names. */
  lemma MetaKeys()
    ensures "canSave" != "canStar" && "canSave" != "canEdit" && "canSave" != "canDelete"
    ensures "canStar" != "canEdit" && "canStar" != "canDelete" && "canEdit" != "canDelete"
    ensures "showSettings" != "canSave" && "showSettings" != "canStar" && "showSettings" != "canEdit"
    ensures "showSettings" != "canDelete" && "hasUnsavedFolderChange" != "showSettings"
    ensures "hasUnsavedFolderChange" != "canSave" && "hasUnsavedFolderChange" != "canStar"
    ensures "hasUnsavedFolderChange" != "canEdit" && "hasUnsavedFolderChange" != "canDelete"
  {
  }

  /** `initMeta(meta)`. */
  function InitialMeta(meta: Option<map<string, Value>>): (r: map<string, Value>)
    ensures var m := meta.GetOr(map[]);
      && r.Keys == m.Keys + {"canSave", "canStar", "canEdit", "canDelete", "showSettings", "hasUnsavedFolderChange"}
      && r["canSave"] == Bool(MetaGet(m, "canSave") != Bool(false))
      && r["canStar"] == Bool(MetaGet(m, "canStar") != Bool(false))
      && r["canEdit"] == Bool(MetaGet(m, "canEdit") != Bool(false))
      && r["canDelete"] == Bool(MetaGet(m, "canDelete") != Bool(false))
      && r["showSettings"] == r["canEdit"]
      && r["hasUnsavedFolderChange"] == Bool(false)
      && forall k :: k in m && k !in {"canSave", "canStar", "canEdit", "canDelete", "showSettings", "hasUnsavedFolderChange"} ==> r[k] == m[k]
  {
    MetaKeys();
    var m := meta.GetOr(map[]);
    var canEdit := NotFalse(m, "canEdit");
    m["canSave" := NotFalse(m, "canSave")]["canStar" := NotFalse(m, "canStar")]["canEdit" := canEdit]
     ["canDelete" := NotFalse(m, "canDelete")]["showSettings" := canEdit]["hasUnsavedFolderChange" := Bool(false)]
  }

  /** A dashboard given no meta may be saved, starred, edited and deleted. */
  lemma NoMetaAllowsEverything()
    ensures var r := InitialMeta(None);
      r["canSave"] == Bool(true) && r["canStar"] == Bool(true) && r["canEdit"] == Bool(true)
      && r["canDelete"] == Bool(true) && r["showSettings"] == Bool(true)
  {
  }

  /** `canEditPanel(panel)`. */
  function CanEditPanel(meta: map<string, Value>, panel: Option<DashPanel>): bool
  {
    Truthy(MetaGet(meta, "canEdit")) && panel.Some? && panel.value.panelType != "row"
  }

  /** A row is never editable, whatever the meta says. */
  lemma RowNeverEditable(meta: map<string, Value>, panel: DashPanel)
    requires panel.panelType == "row"
    ensures !CanEditPanel(meta, Some(panel))
  {
  }

  /** Without a truthy `meta.canEdit` no panel is editable, and a missing panel never is. */
  lemma NothingEditableWithoutCanEdit(meta: map<string, Value>, panel: Option<DashPanel>)
    ensures !Truthy(MetaGet(meta, "canEdit")) ==> !CanEditPanel(meta, panel)
    ensures panel.None? ==> !CanEditPanel(meta, panel)
  {
  }

  /** With a truthy `meta.canEdit`, every panel that is not a row is editable. */
  lemma CanEditReachesEveryPanel(meta: map<string, Value>, panel: DashPanel)
    requires Truthy(MetaGet(meta, "canEdit")) && panel.panelType != "row"
    ensures CanEditPanel(meta, Some(panel))
  {
  }

  // ---------------------------------------------------------------------
  // View mode
  // ---------------------------------------------------------------------

  /** `panel.setIsViewing(b)` on the panel object `ref`, wherever it sits in the list. */
  function WithViewing(s: seq<DashPanel>, ref: nat, b: bool): (r: seq<DashPanel>)
    ensures |r| == |s|
    ensures forall i :: 0 <= i < |s| ==> r[i] == if s[i].ref == ref then s[i].(isViewing := b) else s[i]
  {
    seq(|s|, i requires 0 <= i < |s| => if s[i].ref == ref then s[i].(isViewing := b) else s[i])
  }

  /** Entering and leaving view mode brings a panel that was not viewing back to what it was. */
  lemma ViewRoundTrip(s: seq<DashPanel>, ref: nat)
    requires forall i :: 0 <= i < |s| && s[i].ref == ref ==> !s[i].isViewing
    ensures WithViewing(WithViewing(s, ref, true), ref, false) == s
  {
  }

  /** What `mergePanels` reports; computed by code outside this model. */
  datatype PanelMergeInfo = PanelMergeInfo(changed: bool, panels: Option<seq<DashPanel>>)

  class DashboardModel {
    var panels: seq<DashPanel>
    var panelInEdit: Option<DashPanel>
    /** The identity of the panel in view. */
    var panelInView: Option<nat>
    var meta: map<string, Value>
    /** Everything published on the dashboard's event bus, oldest first. */
    var events: seq<DashboardEvent>
    /** The identity the next `new PanelModel` receives. */
    var nextRef: nat

    /** The panels given to the constructor: `map(data.panels ?? [], …)`, then ids, meta and order. */
    constructor(data: Option<seq<DashPanel>>, meta: Option<map<string, Value>>)
      ensures var created := Created(data.GetOr([]));
        panels == SortByGridPos(WithIds(created, NextPanelId(created)))
      ensures this.meta == InitialMeta(meta)
      ensures panelInEdit.None? && panelInView.None? && events == [] && nextRef == |data.GetOr([])|
    {
      var ds := data.GetOr([]);
      panels := Created(ds);
      panelInEdit := None;
      panelInView := None;
      this.meta := map[];
      events := [];
      nextRef := |ds|;
      new;
      EnsurePanelsHaveIds();
      InitMeta(meta);
      SortPanelsByGridPos();
    }

    /** `initMeta(meta)`, one flag after the other. */
    method InitMeta(m0: Option<map<string, Value>>)
      modifies this
      ensures meta == InitialMeta(m0)
      ensures panels == old(panels) && panelInEdit == old(panelInEdit) && panelInView == old(panelInView)
      ensures events == old(events) && nextRef == old(nextRef)
    {
      var m := m0.GetOr(map[]);
      m := m["canSave" := NotFalse(m, "canSave")];
      m := m["canStar" := NotFalse(m, "canStar")];
      m := m["canEdit" := NotFalse(m, "canEdit")];
      m := m["canDelete" := NotFalse(m, "canDelete")];
      m := m["showSettings" := m["canEdit"]];
      m := m["hasUnsavedFolderChange" := Bool(false)];
      MetaKeys();
      meta := m;
    }

    /** `getNextPanelId()`. */
    method GetNextPanelId() returns (r: int)
      ensures r == NextPanelId(panels)
    {
      var max := 0;
      for i := 0 to |panels|
        invariant max == MaxId(panels[..i])
      {
        assert panels[..i + 1][..i] == panels[..i];
        if panels[i].id.Some? && panels[i].id.value > max {
          max := panels[i].id.value;
        }
      }
      assert panels[..|panels|] == panels;
      r := max + 1;
    }

    /** `ensurePanelsHaveIds()`, with the numbering the code evidently intends. */
    method EnsurePanelsHaveIds()
      modifies this
      ensures panels == WithIds(old(panels), NextPanelId(old(panels)))
      ensures panelInEdit == old(panelInEdit) && panelInView == old(panelInView) && meta == old(meta)
      ensures events == old(events) && nextRef == old(nextRef)
    {
      var start := GetNextPanelId();
      panels := NumberPanels(panels, start);
    }

    /** The loop of `ensurePanelsHaveIds`: `panel.id ??= nextPanelId++` for each panel. */
    static method NumberPanels(s: seq<DashPanel>, start: int) returns (q: seq<DashPanel>)
      ensures q == WithIds(s, start)
    {
      var nextPanelId := start;
      q := s;
      for i := 0 to |s|
        invariant |q| == |s|
        invariant forall j :: 0 <= j < i ==> q[j] == WithIds(s, start)[j]
        invariant forall j :: i <= j < |s| ==> q[j] == s[j]
        invariant nextPanelId == start + Missing(s[..i])
      {
        MissingStep(s, i);
        if q[i].id.None? {
          q := q[i := q[i].(id := Some(nextPanelId))];
          nextPanelId := nextPanelId + 1;
        }
      }
    }

    /** `getPanelById(id)`. */
    function GetPanelById(id: Option<int>): (r: Option<DashPanel>)
      reads this
      ensures r == PanelById(panels, panelInEdit, id)
    {
      PanelById(panels, panelInEdit, id)
    }

    /** `getPanelByUrlId(panelUrlId)`. */
    function GetPanelByUrlId(panelUrlId: Option<string>): (r: Option<DashPanel>)
      reads this
      ensures r == PanelById(panels, panelInEdit, UrlPanelId(panelUrlId))
    {
      GetPanelById(UrlPanelId(panelUrlId))
    }

    /** `canEditPanelById(id)`. */
    function CanEditPanelById(id: Option<int>): (b: bool)
      reads this
      ensures b ==> Truthy(MetaGet(meta, "canEdit")) && GetPanelById(id).Some? && GetPanelById(id).value.panelType != "row"
    {
      CanEditPanel(meta, GetPanelById(id))
    }

    /** `addPanel(panelData)`. */
    method AddPanel(panelData: DashPanel)
      modifies this
      ensures panels == SortByGridPos([NewPanel(panelData.(id := Some(NextPanelId(old(panels)))), old(nextRef))] + old(panels))
      ensures nextRef == old(nextRef) + 1
      ensures events == old(events) + [DashboardPanelsChanged]
      ensures panelInEdit == old(panelInEdit) && panelInView == old(panelInView) && meta == old(meta)
    {
      var id := GetNextPanelId();
      var p := NewPanel(panelData.(id := Some(id)), nextRef);
      nextRef := nextRef + 1;
      panels := [p] + panels;
      SortPanelsByGridPos();
      events := events + [DashboardPanelsChanged];
    }

    /** `sortPanelsByGridPos()`. */
    method SortPanelsByGridPos()
      modifies this
      ensures panels == SortByGridPos(old(panels))
      ensures SortedByGridPos(panels) && multiset(panels) == multiset(old(panels))
      ensures panelInEdit == old(panelInEdit) && panelInView == old(panelInView) && meta == old(meta)
      ensures events == old(events) && nextRef == old(nextRef)
    {
      SortByGridPosSorts(panels);
      panels := SortByGridPos(panels);
    }

    /** `updatePanels(panels)`, given what `mergePanels` reports. */
    method UpdatePanels(info: PanelMergeInfo) returns (r: PanelMergeInfo)
      modifies this
      ensures r == info
      ensures info.changed ==>
        panels == SortByGridPos(info.panels.GetOr([])) && SortedByGridPos(panels)
        && events == old(events) + [DashboardPanelsChanged]
      ensures !info.changed ==> panels == old(panels) && events == old(events)
      ensures panelInEdit == old(panelInEdit) && panelInView == old(panelInView) && meta == old(meta)
      ensures nextRef == old(nextRef)
    {
      if info.changed {
        panels := info.panels.GetOr([]);
        SortPanelsByGridPos();
        events := events + [DashboardPanelsChanged];
      }
      r := info;
    }

    /** `removePanel(panel)`. */
    method RemovePanel(panel: DashPanel)
      modifies this
      ensures panels == Without(old(panels), panel.ref)
      ensures events == old(events) + [DashboardPanelsChanged]
      ensures panelInEdit == old(panelInEdit) && panelInView == old(panelInView) && meta == old(meta)
      ensures nextRef == old(nextRef)
    {
      panels := Without(panels, panel.ref);
      events := events + [DashboardPanelsChanged];
    }

    /** `duplicatePanel(panel)`, placing the copy from the panel's own position. */
    method DuplicatePanel(panel: DashPanel) returns (newPanel: DashPanel)
      modifies this
      ensures newPanel == Duplicate(panel, NextPanelId(old(panels)))
      ensures panels == SortByGridPos([NewPanel(newPanel, old(nextRef))] + old(panels))
      ensures nextRef == old(nextRef) + 1
      ensures events == old(events) + [DashboardPanelsChanged]
      ensures panelInEdit == old(panelInEdit) && panelInView == old(panelInView) && meta == old(meta)
    {
      var id := GetNextPanelId();
      newPanel := Duplicate(panel, id);
      AddPanel(newPanel);
    }

    /** `getRowPanels(rowIndex)`. */
    function GetRowPanels(rowIndex: int): (r: seq<DashPanel>)
      reads this
      ensures r == RowPanels(panels, rowIndex)
    {
      RowPanels(panels, rowIndex)
    }

    /** `clearUnsavedChanges()`. */
    method ClearUnsavedChanges()
      modifies this
      ensures |panels| == |old(panels)|
      ensures forall i :: 0 <= i < |panels| ==> panels[i] == old(panels)[i].(configRev := 0)
      ensures !HasUnsavedChanges()
      ensures old(panelInEdit).None? ==> panelInEdit.None?
      ensures old(panelInEdit).Some? ==>
        panelInEdit == Some(old(panelInEdit).value.(hasSavedPanelEditChange := Some(old(panelInEdit).value.configRev > 0), configRev := 0))
      ensures panelInView == old(panelInView) && meta == old(meta) && events == old(events) && nextRef == old(nextRef)
    {
      panels := ZeroConfigRevs(panels);
      if panelInEdit.Some? {
        var e := panelInEdit.value;
        e := e.(hasSavedPanelEditChange := Some(e.configRev > 0));
        panelInEdit := Some(e.(configRev := 0));
      }
    }

    /** The loop of `clearUnsavedChanges`: `panel.configRev = 0` for each panel. */
    static method ZeroConfigRevs(s: seq<DashPanel>) returns (q: seq<DashPanel>)
      ensures |q| == |s| && forall j :: 0 <= j < |s| ==> q[j] == s[j].(configRev := 0)
    {
      q := s;
      for i := 0 to |s|
        invariant |q| == |s|
        invariant forall j :: 0 <= j < i ==> q[j] == s[j].(configRev := 0)
        invariant forall j :: i <= j < |s| ==> q[j] == s[j]
      {
        q := q[i := q[i].(configRev := 0)];
      }
    }

    /** `hasUnsavedChanges()`. */
    predicate HasUnsavedChanges()
      reads this
    {
      AnyChanged(panels)
    }

    /** `getPanelSaveModels()`. */
    function GetPanelSaveModels(): (r: seq<SavedPanel>)
      reads this
      ensures r == SaveModels(panels, panelInEdit)
    {
      SaveModels(panels, panelInEdit)
    }

    /** `initEditPanel(sourcePanel)`, given the panel's edit copy. */
    method InitEditPanel(editClone: DashPanel) returns (r: DashPanel)
      modifies this
      ensures r == editClone && panelInEdit == Some(editClone)
      ensures panels == old(panels) && panelInView == old(panelInView) && meta == old(meta)
      ensures events == old(events) && nextRef == old(nextRef)
    {
      panelInEdit := Some(editClone);
      r := editClone;
    }

    /** `exitPanelEditor()`. */
    method ExitPanelEditor()
      modifies this
      ensures panelInEdit.None?
      ensures panels == old(panels) && panelInView == old(panelInView) && meta == old(meta)
      ensures events == old(events) && nextRef == old(nextRef)
    {
      panelInEdit := None;
    }

    /** `initViewPanel(panel)`. */
    method InitViewPanel(panel: DashPanel)
      modifies this
      ensures panelInView == Some(panel.ref)
      ensures panels == WithViewing(old(panels), panel.ref, true)
      ensures panelInEdit == old(panelInEdit) && meta == old(meta) && events == old(events) && nextRef == old(nextRef)
    {
      panelInView := Some(panel.ref);
      panels := WithViewing(panels, panel.ref, true);
    }

    /** `exitViewPanel(panel)`. */
    method ExitViewPanel(panel: DashPanel)
      modifies this
      ensures panelInView.None?
      ensures panels == WithViewing(old(panels), panel.ref, false)
      ensures panelInEdit == old(panelInEdit) && meta == old(meta) && events == old(events) && nextRef == old(nextRef)
    {
      panelInView := None;
      panels := WithViewing(panels, panel.ref, false);
    }
  }

}
