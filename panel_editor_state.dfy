/**
 * The panel editor's state slice: which panel is being edited, whether the
 * editor is open and initialised, whether its changes are to be discarded,
 * and the editor's layout (pane sizes and display mode).
 *
 * The immer draft the reducers assign is the fields of a class; the
 * closures that hold the panels and the panel data are the objects they
 * return, by identity.
 */
module PanelEditorState {
  import opened Wrappers

  /** An object's identity (a panel model, the panel data). */
  type Ref = nat

  /** How the visualisation is sized (`DisplayMode`). */
  datatype DisplayMode = Fill | Fit | Exact

  datatype UIState = UIState(rightPaneSize: real, topPaneSize: real, mode: DisplayMode)

  /** A `Partial<PanelEditorUIState>`. */
  datatype UIPatch = UIPatch(rightPaneSize: Patch<real>, topPaneSize: Patch<real>, mode: Patch<DisplayMode>)

  const NoChange: UIPatch := UIPatch(Keep, Keep, Keep)

  const DefaultUIState: UIState := UIState(800.0, 0.45, Fill)

  const UIStateStorageKey: string := "grafana.dashboard.editor.ui"

  /** `{ ...ui, ...patch }`. */
  function Merged(ui: UIState, patch: UIPatch): (r: UIState)
    ensures patch.rightPaneSize.Keep? ==> r.rightPaneSize == ui.rightPaneSize
    ensures patch.topPaneSize.Keep? ==> r.topPaneSize == ui.topPaneSize
    ensures patch.mode.Keep? ==> r.mode == ui.mode
    ensures patch.rightPaneSize.Assign? ==> r.rightPaneSize == patch.rightPaneSize.value
    ensures patch.topPaneSize.Assign? ==> r.topPaneSize == patch.topPaneSize.value
    ensures patch.mode.Assign? ==> r.mode == patch.mode.value
  {
    UIState(Patched(ui.rightPaneSize, patch.rightPaneSize), Patched(ui.topPaneSize, patch.topPaneSize),
            Patched(ui.mode, patch.mode))
  }

  /** An empty patch changes nothing. */
  lemma MergeNothing(ui: UIState)
    ensures Merged(ui, NoChange) == ui
  {
  }

  /** Merging the same patch twice is merging it once. */
  lemma MergeIdempotent(ui: UIState, patch: UIPatch)
    ensures Merged(Merged(ui, patch), patch) == Merged(ui, patch)
  {
  }

  /** The patch that sets every key of `ui`. */
  function Whole(ui: UIState): UIPatch
  {
    UIPatch(Assign(ui.rightPaneSize), Assign(ui.topPaneSize), Assign(ui.mode))
  }

  /** A patch that sets every key replaces the whole layout. */
  lemma MergeWhole(ui: UIState, other: UIState)
    ensures Merged(ui, Whole(other)) == other
  {
  }

  class PanelEditor {
    var panel: Ref
    var sourcePanel: Ref
    var data: Option<Ref>
    var initDone: bool
    var shouldDiscardChanges: bool
    var isOpen: bool
    var ui: UIState

    /** The editor is open exactly when it has been initialised. */
    predicate Valid()
      reads this
    {
      isOpen == initDone
    }

    /**
     * `initialState()`: closed, with the stored layout over the default;
     * `stored` is the object kept under `UIStateStorageKey`, `None` when
     * there is none. `emptyPanel` and `emptySourcePanel` are the
     * placeholder panels; the panel data is not started (`None`).
     */
    constructor (stored: Option<UIPatch>, emptyPanel: Ref, emptySourcePanel: Ref)
      ensures Valid()
      ensures !initDone && !isOpen && !shouldDiscardChanges
      ensures ui == Merged(DefaultUIState, stored.GetOr(NoChange))
      ensures panel == emptyPanel && sourcePanel == emptySourcePanel && data == None
    {
      panel := emptyPanel;
      sourcePanel := emptySourcePanel;
      data := None;
      initDone := false;
      shouldDiscardChanges := false;
      isOpen := false;
      ui := Merged(DefaultUIState, stored.GetOr(NoChange));
    }

    /** `updateEditorInitState`: the editor opens on the given panels, its changes kept. */
    method UpdateEditorInitState(newPanel: Ref, newSourcePanel: Ref)
      modifies this
      ensures Valid()
      ensures panel == newPanel && sourcePanel == newSourcePanel
      ensures initDone && isOpen && !shouldDiscardChanges
      ensures data == old(data) && ui == old(ui)
    {
      panel := newPanel;
      sourcePanel := newSourcePanel;
      initDone := true;
      isOpen := true;
      shouldDiscardChanges := false;
    }

    /** `setEditorPanelData`. */
    method SetEditorPanelData(newData: Ref)
      requires Valid()
      modifies this
      ensures Valid()
      ensures data == Some(newData)
      ensures panel == old(panel) && sourcePanel == old(sourcePanel) && initDone == old(initDone)
      ensures isOpen == old(isOpen) && shouldDiscardChanges == old(shouldDiscardChanges) && ui == old(ui)
    {
      data := Some(newData);
    }

    /** `setDiscardChanges`: only the discard flag changes. */
    method SetDiscardChanges(discard: bool)
      requires Valid()
      modifies this
      ensures Valid()
      ensures shouldDiscardChanges == discard
      ensures panel == old(panel) && sourcePanel == old(sourcePanel) && data == old(data)
      ensures initDone == old(initDone) && isOpen == old(isOpen) && ui == old(ui)
    {
      shouldDiscardChanges := discard;
    }

    /** `setPanelEditorUIState`: the patch is spread over the layout. */
    method SetPanelEditorUIState(patch: UIPatch)
      requires Valid()
      modifies this
      ensures Valid()
      ensures ui == Merged(old(ui), patch)
      ensures panel == old(panel) && sourcePanel == old(sourcePanel) && data == old(data)
      ensures initDone == old(initDone) && isOpen == old(isOpen)
      ensures shouldDiscardChanges == old(shouldDiscardChanges)
    {
      ui := Merged(ui, patch);
    }

    /** `closeEditor`: closed and no longer initialised; layout and panels stay. */
    method CloseEditor()
      modifies this
      ensures Valid()
      ensures !isOpen && !initDone
      ensures ui == old(ui) && panel == old(panel) && sourcePanel == old(sourcePanel) && data == old(data)
      ensures shouldDiscardChanges == old(shouldDiscardChanges)
    {
      isOpen := false;
      initDone := false;
    }
  }
}
