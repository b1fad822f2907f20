/**
 * The panel inspector's tabs: which tabs `useInspectTabs` offers for a panel,
 * in which order. The inspector's tab enumeration is shared with the panel
 * menu, whose "Inspect" entries open these tabs.
 */
module InspectTabs {
  import opened Wrappers

  /** The inspector's tabs (`InspectTab`). */
  datatype InspectTab = Data | Stats | Json | Error | Actions | Query | Help

  /**
   * The tab's URL value. The enumeration is not part of this model; these
   * are the lower-case names its members stand for.
   */
  function TabValue(tab: InspectTab): string
  {
    match tab
    case Data => "data"
    case Stats => "stats"
    case Json => "json"
    case Error => "error"
    case Actions => "actions"
    case Query => "query"
    case Help => "help"
  }

  /** The tab's label (the untranslated default). */
  function Label(tab: InspectTab): string
  {
    match tab
    case Data => "Data"
    case Stats => "Stats"
    case Json => "JSON"
    case Error => "Error"
    case Actions => "Actions"
    case Query => "Query"
    case Help => "Help"
  }

  datatype TabOption = TabOption(text: string, value: InspectTab)

  /** A query error; its message may be absent. */
  datatype QueryError = QueryError(message: Option<string>)

  /**
   * The window's inspect-action supplier; `actionsForPanel` is the length of
   * what `getActions(panel)` returns, `None` when it returns nothing.
   */
  datatype ActionSupplier = ActionSupplier(actionsForPanel: Option<nat>)

  /** `error && error.message`: an error with a non-empty message. */
  predicate HasErrorMessage(error: Option<QueryError>)
  {
    error.Some? && error.value.message.Some? && error.value.message.value != ""
  }

  /** `supplier && supplier.getActions(panel)?.length`. */
  predicate HasActions(supplier: Option<ActionSupplier>)
  {
    supplier.Some? && supplier.value.actionsForPanel.Some? && supplier.value.actionsForPanel.value > 0
  }

  /** The labelled tabs, in order. */
  function Options(tabs: seq<InspectTab>): seq<TabOption>
  {
    seq(|tabs|, i requires 0 <= i < |tabs| => TabOption(Label(tabs[i]), tabs[i]))
  }

  /** The tabs `useInspectTabs` offers, in order. */
  function TabsFor(canEdit: bool, error: Option<QueryError>, supplier: Option<ActionSupplier>): seq<InspectTab>
  {
    [Data, Stats, Json]
    + (if HasErrorMessage(error) then [Error] else [])
    + (if HasActions(supplier) then [Actions] else [])
    + (if canEdit then [Query] else [])
  }

  /** Data, Stats and JSON always come first, in that order. */
  lemma FirstThree(canEdit: bool, error: Option<QueryError>, supplier: Option<ActionSupplier>)
    ensures var tabs := TabsFor(canEdit, error, supplier); |tabs| >= 3 && tabs[..3] == [Data, Stats, Json]
  {
  }

  lemma ErrorTab(canEdit: bool, error: Option<QueryError>, supplier: Option<ActionSupplier>)
    ensures Error in TabsFor(canEdit, error, supplier) <==> HasErrorMessage(error)
  {
  }

  lemma ActionsTab(canEdit: bool, error: Option<QueryError>, supplier: Option<ActionSupplier>)
    ensures Actions in TabsFor(canEdit, error, supplier) <==> HasActions(supplier)
  {
  }

  /** The query tab is offered exactly when the dashboard is editable, and then last. */
  lemma QueryTabLast(canEdit: bool, error: Option<QueryError>, supplier: Option<ActionSupplier>)
    ensures Query in TabsFor(canEdit, error, supplier) <==> canEdit
    ensures var tabs := TabsFor(canEdit, error, supplier); canEdit ==> tabs[|tabs| - 1] == Query
  {
  }

  /** No tab is offered twice, and the help tab never. */
  lemma TabsDistinct(canEdit: bool, error: Option<QueryError>, supplier: Option<ActionSupplier>)
    ensures var tabs := TabsFor(canEdit, error, supplier);
      Help !in tabs && forall i, j :: 0 <= i < j < |tabs| ==> tabs[i] != tabs[j]
  {
    var tabs := TabsFor(canEdit, error, supplier);
    forall i, j | 0 <= i < j < |tabs|
      ensures tabs[i] != tabs[j]
    {
      // Every tab's position is fixed by the tabs before it.
      assert forall k :: 3 <= k < |tabs| ==> tabs[k] in {Error, Actions, Query};
      assert forall k :: 3 <= k < |tabs| && tabs[k] == Actions ==> k == 3 + (if HasErrorMessage(error) then 1 else 0);
      assert forall k :: 3 <= k < |tabs| && tabs[k] == Error ==> k == 3;
      assert forall k :: 3 <= k < |tabs| && tabs[k] == Query ==> k == |tabs| - 1;
    }
  }

  /**
   * `useInspectTabs(panel, dashboard, error)`; `canEdit` is whether
   * `dashboard.meta.canEdit` is truthy.
   */
  method UseInspectTabs(canEdit: bool, error: Option<QueryError>, supplier: Option<ActionSupplier>)
    returns (tabs: seq<TabOption>)
    ensures tabs == Options(TabsFor(canEdit, error, supplier))
  {
    tabs := [TabOption(Label(Data), Data), TabOption(Label(Stats), Stats), TabOption(Label(Json), Json)];
    ghost var values := [Data, Stats, Json];
    assert tabs == Options(values);
    if HasErrorMessage(error) {
      OptionsPush(values, Error);
      tabs, values := tabs + [TabOption(Label(Error), Error)], values + [Error];
    }
    if HasActions(supplier) {
      OptionsPush(values, Actions);
      tabs, values := tabs + [TabOption(Label(Actions), Actions)], values + [Actions];
    }
    if canEdit {
      OptionsPush(values, Query);
      tabs, values := tabs + [TabOption(Label(Query), Query)], values + [Query];
    }
  }

  lemma OptionsPush(values: seq<InspectTab>, value: InspectTab)
    ensures Options(values + [value]) == Options(values) + [TabOption(Label(value), value)]
  {
  }
}
