# Fermions panel workflows and their host models, in Dafny

Fermions is a fork of Grafana. It is a web application of dashboards made of panels. Each panel can hold a workflow: a program in the Serverless Workflow 0.8 language that a panel runner executes in the browser, publishing events on the dashboard's event bus. This project models that runner and the code around it, and proves properties of the models:

- the objects that host the runner: the panel and the dashboard models;
- the front end's state slices, selectors and list builders;
- a set of back-end helpers written in Go.

Each core source file has a module. The workflow runner's file has five: WorkflowDefinition, WorkflowFilter, WorkflowSemantics, WorkflowRunner and WorkflowProperties, which holds the lemmas. Beside them are shared helper modules (Wrappers, Ascii, JsNumber, JsonValue, JsonText and NavLinks) for the JavaScript and Go library behaviour and the types that several files use. Each module follows its source's form:

- Where the source updates an object's fields, the model is a `class` whose methods state the new state (`modifies`, `old`).
- Where the source loops, the model is a `method` with its loop invariants.
- Where the source only computes, the model is a function proved against its contract and lemmas.

The workflow engine:

- `WorkflowDefinition` is the part of a workflow definition the runner reads: states by name, the start, transitions, ends and produced events.
- `WorkflowFilter` is the jq-like filter: the tokenizer and `JqFilter.run`.
- `WorkflowSemantics` is what the runner computes, as functions. `WorkflowRunner` is the `PanelWorkflowRunner` class, whose methods are proved to compute exactly those functions. `WorkflowProperties` holds the properties of the run over all inputs: the error order, termination, what a state touches and publication order.

The JavaScript base:

- `JsonValue` holds JavaScript values with ordered objects, plus lodash `merge`, `isEqual` and truthiness.
- `JsonText` is `JSON.stringify`/`JSON.parse` with their round trip.
- `JsNumber` is `String(n)` and `parseInt(s, 10)`.
- `Wrappers` holds `Option`, `Result` and `Patch`.

Host models:

- `Panel` is `PanelModel`: restoring, the save model, the grid position, plugin changes, queries, the workflow text and library panels.
- `Dashboard` is `DashboardModel`: ids, the grid order, rows, duplication, unsaved changes and the edit and view slots.

The front end:

- `RunRequest`: response packets;
- `FieldDisplay`: display-value alignment;
- `DatasourceOptions`: data source option updates;
- `AppChrome`: the chrome state service;
- `ContextService`: the signed-in user's roles and permissions;
- `Keybindings`: the keyboard shortcuts;
- `PanelMenu`, `InspectTabs`, `PanelEditorTabs`, `OptionOverrides` and `DashboardSettings`: list builders;
- `PanelEditorState`, `Profile` and `PluginsAdmin`: state slices;
- `Teams`: team selectors;
- `PublicDashboardPage`: the page's edit and view state;
- `InitDashboard`: the new-dashboard template;
- `Query` and `Routes`: URL predicates.

The back end:

- `Slugify` (together with `Ascii`): the URL slugifier;
- `DashboardPermissions` and `SqlBuilder`: the dashboard permission SQL filter and the SQL buffer;
- `FrontendSettings`: the plugin settings of the front-end settings map;
- `AuthMiddleware`: the authentication middleware;
- `StreamManager`: the live stream reconnect delay;
- `Plugins`: plugin predicates and paths;
- `NavLinks`, `NavTree` and `NavAdmin`: the navigation tree.

Clocks, storage, the network, translation and every service the source calls are inputs to the model (listed under "Left out").

## Model

| member | source | states |
|---|---|---|
| WorkflowDefinition.StatesByNameLastWins | public/app/features/workflow/state/PanelWorkflowRunner.ts:90-100 | A state name is in `statesByName` exactly when some state has it, and it then maps to the last state of that name |
| WorkflowSemantics.Publish | public/app/features/workflow/state/PanelWorkflowRunner.ts:255-263 | Producing events publishes one `{publish: eventRef, data}` payload per event definition, in order |
| WorkflowFilter.TokenizeSkips | public/app/features/workflow/state/PanelWorkflowRunner.ts:303-306 | A space, or any character other than a dot or a pipe, produces no token |
| WorkflowFilter.TokenizeIdentifier | public/app/features/workflow/state/PanelWorkflowRunner.ts:307-316 | `.` followed by a letter yields one identifier-index token holding the longest run of letters and digits, and scanning resumes after it |
| WorkflowFilter.TokenizeDots | public/app/features/workflow/state/PanelWorkflowRunner.ts:317-322 | `..` yields one dot-dot token and skips both characters; a lone `.` yields a dot token |
| WorkflowFilter.TokenizePipes | public/app/features/workflow/state/PanelWorkflowRunner.ts:323-331 | A pipe followed by `=` yields a pipe-equals token and skips both characters; a lone pipe yields a pipe token |
| WorkflowFilter.JqFilter.constructor | public/app/features/workflow/state/PanelWorkflowRunner.ts:291-293 | The filter's tokens are the tokenization of the whole filter text from index 0 |
| WorkflowFilter.JqFilter.Tokenizer | public/app/features/workflow/state/PanelWorkflowRunner.ts:295-335 | The index loop produces exactly the token sequence the tokenizer's rules define from `startAt` on |
| WorkflowFilter.JqFilter.ReadIdentifier | public/app/features/workflow/state/PanelWorkflowRunner.ts:310-316 | The inner loop stops at the first character that is not a letter or digit and returns the characters it passed |
| WorkflowFilter.JqFilter.Run | public/app/features/workflow/state/PanelWorkflowRunner.ts:337-347 | `run` keeps, in key order, each key equal to the first remaining token's value and shifts that token off; it throws when a key is visited with no token left, and the tokens left over are what the filter keeps afterwards |
| WorkflowFilter.IdentifierTokensAreNames | public/app/features/workflow/state/PanelWorkflowRunner.ts:307-316 | Every identifier token holds a letter followed by letters and digits |
| WorkflowFilter.PickConsumesKeptKeys | public/app/features/workflow/state/PanelWorkflowRunner.ts:338-344 | The kept entries are visited entries, in order, and their keys are exactly the identifier tokens consumed, one per kept key |
| WorkflowFilter.PickFailsIffExhausted | public/app/features/workflow/state/PanelWorkflowRunner.ts:338-344 | `run` throws exactly when some key is reached after the earlier keys have consumed every token |
| WorkflowFilter.NonIdentifierFirstKeepsNothing | public/app/features/workflow/state/PanelWorkflowRunner.ts:339 | A filter whose first token is not an identifier (a dot, two dots or a pipe) keeps nothing, consumes nothing and never throws |
| WorkflowFilter.FilterOfScalar | public/app/features/workflow/state/PanelWorkflowRunner.ts:337-347 | `undefined`, `null`, booleans and numbers filter to `{}` whatever the filter |
| WorkflowFilter.FilterThrowsAfterLastToken | public/app/features/workflow/state/PanelWorkflowRunner.ts:337-347 | `.a` over `{a: 1, b: 2}` throws: the only token is used up at `a` and visiting `b` reads `tokens[0].value` of nothing |
| WorkflowFilter.FilterKeepsNamedKey | public/app/features/workflow/state/PanelWorkflowRunner.ts:337-347 | `.a` over `{b: 2, a: 1}` keeps exactly `{a: 1}` |
| WorkflowProperties.FirstBadEvent | public/app/features/workflow/state/PanelWorkflowRunner.ts:73-88 | Finds the first Eventdef whose kind is not `consumed`, or reports that there is none |
| WorkflowProperties.EventsStopAtFirstBadKind | public/app/features/workflow/state/PanelWorkflowRunner.ts:67-88 | `events()` fails with the kind of the first Eventdef that is not `consumed`; each consumed Eventdef before it has subscribed once and plain names have not |
| WorkflowProperties.MissingStartAfterEvents | public/app/features/workflow/state/PanelWorkflowRunner.ts:56-62 | A workflow without a start fails with "Workflow without start" once the events are handled, unless an Eventdef of a bad kind failed first |
| WorkflowProperties.NoEndRunsNothing | public/app/features/workflow/state/PanelWorkflowRunner.ts:96-104 | When no end-capable state has a truthy `end`, the run fails with "States without end" before any state runs and nothing is published |
| WorkflowProperties.FinishedOnlyWhenTerminated | public/app/features/workflow/state/PanelWorkflowRunner.ts:107-119 | The loop only finishes with `terminate` set |
| WorkflowProperties.StepTouchesOwnEntry | public/app/features/workflow/state/PanelWorkflowRunner.ts:130-154 | Executing one state changes only the data stored under its own name, which then holds an object or array |
| WorkflowProperties.StateDataIsObject | public/app/features/workflow/state/PanelWorkflowRunner.ts:148-154 | What a state stores is always an object or array: `merge` and `pickBy` never return a primitive |
| WorkflowProperties.PublishedOnlyGrows | public/app/features/workflow/state/PanelWorkflowRunner.ts:107-119 | The published events only grow: what was published stays, in order, at the head |
| WorkflowProperties.StepPublishedGrows | public/app/features/workflow/state/PanelWorkflowRunner.ts:156-163 | One state appends exactly the events of its transition or end, and nothing else |
| WorkflowProperties.MoreFuelSameOutcome | public/app/features/workflow/state/PanelWorkflowRunner.ts:107-119 | A run that stopped within the model's step bound stops the same way with any larger bound |
| WorkflowProperties.SelfTransitionFails | public/app/features/workflow/state/PanelWorkflowRunner.ts:112-118 | A non-terminating state whose transition names itself fails with "don't have a trasition to next state" |
| WorkflowProperties.FoldKeepsObject | public/app/features/workflow/state/PanelWorkflowRunner.ts:183-187 | The sequential actions, started from an object, leave an object behind |
| WorkflowProperties.OperationResultsSurviveOnlyInPlace | public/app/features/workflow/state/PanelWorkflowRunner.ts:165-187 | Because `actionsSequential` returns nothing, an operation state stores `{}` when its data was undefined and the object the actions merged into when it was an object |
| WorkflowProperties.UseResultsFalseKeepsData | public/app/features/workflow/state/PanelWorkflowRunner.ts:214-216 | With `useResults: false` an action data filter returns its input untouched |
| WorkflowProperties.SingleInjectStoresPayload | public/app/features/workflow/state/PanelWorkflowRunner.ts:49-65 | A workflow of one inject state with `end: true` stores exactly its payload under its name, terminates and publishes nothing |
| WorkflowProperties.SingleInjectStoresArrayByIndex | public/app/features/workflow/state/PanelWorkflowRunner.ts:140-150 | A single inject state whose data is an array stores an object keyed by the array's indices, terminates and publishes nothing |
| WorkflowProperties.SwitchStateRejected | public/app/features/workflow/state/PanelWorkflowRunner.ts:137-146 | A switch state without an input filter fails with the uninterpolated "Invalid state type: '{state.type}'" message |
| WorkflowRunner.EventBus.Subscribe | public/app/features/workflow/state/PanelWorkflowRunner.ts:52-54 | Subscribing adds one subscription and publishes nothing |
| WorkflowRunner.EventBus.Publish | public/app/features/workflow/state/PanelWorkflowRunner.ts:262 | Publishing appends the event to what the bus has published |
| WorkflowRunner.PanelWorkflowRunner.constructor | public/app/features/workflow/state/PanelWorkflowRunner.ts:37-47 | A new runner has no state data, is not terminated and has no current state |
| WorkflowRunner.PanelWorkflowRunner.Start | public/app/features/workflow/state/PanelWorkflowRunner.ts:49-65 | `start()` subscribes its logger and one subscription per consumed Eventdef, checks the start, then runs the states; outcome, published events and final fields are those of the run's definition |
| WorkflowRunner.PanelWorkflowRunner.Events | public/app/features/workflow/state/PanelWorkflowRunner.ts:67-71 | The events loop makes one subscription per consumed Eventdef, stops with the first bad kind and publishes nothing |
| WorkflowRunner.PanelWorkflowRunner.Event | public/app/features/workflow/state/PanelWorkflowRunner.ts:73-88 | A consumed Eventdef subscribes, another kind fails with "Eventdef invalid kind", and a plain name only logs |
| WorkflowRunner.PanelWorkflowRunner.States | public/app/features/workflow/state/PanelWorkflowRunner.ts:90-120 | `states()` indexes the states, fails without an end, then runs the loop from the start name or `start.stateName` |
| WorkflowRunner.PanelWorkflowRunner.IndexStates | public/app/features/workflow/state/PanelWorkflowRunner.ts:91-100 | The first loop computes `statesByName` and `haveEnd` as defined |
| WorkflowRunner.PanelWorkflowRunner.RunLoop | public/app/features/workflow/state/PanelWorkflowRunner.ts:107-119 | The `while (!terminate)` loop fails on an unknown state or a state that neither terminates nor moves, and otherwise follows the run's definition |
| WorkflowRunner.PanelWorkflowRunner.RunState | public/app/features/workflow/state/PanelWorkflowRunner.ts:122-163 | One state rejects both transition and end, filters its input, runs operation or inject, merges, filters its output, stores the result and follows its transition or end; a failure publishes nothing |
| WorkflowRunner.PanelWorkflowRunner.StateOperation | public/app/features/workflow/state/PanelWorkflowRunner.ts:165-177 | Sequential actions run; parallel or another action mode fails with "Invalid state actionMode" |
| WorkflowRunner.PanelWorkflowRunner.StateInject | public/app/features/workflow/state/PanelWorkflowRunner.ts:179-181 | An inject state yields its declared data |
| WorkflowRunner.PanelWorkflowRunner.ActionsSequential | public/app/features/workflow/state/PanelWorkflowRunner.ts:183-187 | Each action's result is merged into the accumulator in turn |
| WorkflowRunner.PanelWorkflowRunner.RunAction | public/app/features/workflow/state/PanelWorkflowRunner.ts:189-205 | An action applies its `fromStateData` filter, calls its function, then applies its action data filter |
| WorkflowRunner.PanelWorkflowRunner.CallFunction | public/app/features/workflow/state/PanelWorkflowRunner.ts:207-209 | A function call yields the marker object `{function: "<ref>.start"}` |
| WorkflowRunner.PanelWorkflowRunner.ApplyActionDataFilter | public/app/features/workflow/state/PanelWorkflowRunner.ts:211-229 | `useResults: false` returns the data; otherwise the `results` filter applies and `toStateData` wraps the data under that key |
| WorkflowRunner.PanelWorkflowRunner.StateTransition | public/app/features/workflow/state/PanelWorkflowRunner.ts:231-241 | A name moves to that state; a Transition object moves to `nextState` and publishes its events |
| WorkflowRunner.PanelWorkflowRunner.StateEnd | public/app/features/workflow/state/PanelWorkflowRunner.ts:243-253 | A boolean end sets `terminate`; an End object publishes its events, then sets `terminate` |
| WorkflowRunner.PanelWorkflowRunner.ProduceEvents | public/app/features/workflow/state/PanelWorkflowRunner.ts:255-259 | Publishes every produced event, in order |
| WorkflowRunner.PanelWorkflowRunner.ProduceEventStep | public/app/features/workflow/state/PanelWorkflowRunner.ts:261-263 | Publishes one `{publish: eventRef, data}` event |
| WorkflowRunner.PanelWorkflowRunner.RunDataFilter | public/app/features/workflow/state/PanelWorkflowRunner.ts:269-272 | A data filter is a fresh JqFilter run over the data |
| Panel.Restored | public/app/features/dashboard/state/PanelModel.ts:175-204 | A restored panel holds only persisted properties: no runtime field, and no own `id`, `title` or `description`, since those go through their setters into the workflow |
| Panel.RestoredFrom | public/app/features/dashboard/state/PanelModel.ts:175-204 | `restoreModel` over persisted properties leaves persisted properties, whatever the model |
| Panel.DefaultProps | public/app/features/dashboard/state/PanelModel.ts:78-123 | The defaults alone are persisted properties |
| Panel.AssignAll | public/app/features/dashboard/state/PanelModel.ts:200-202 | A copy loop that skips at least the runtime fields keeps the properties persisted, also when an assignment throws part way |
| Panel.RestoreForgetsOldState | public/app/features/dashboard/state/PanelModel.ts:175-204 | When the panel's workflow, if it has one, can take a property, `restoreModel` forgets what the panel held before: it raises the same error as restoring over the defaults alone, and without an error yields the same properties |
| Panel.SameCopy | public/app/features/dashboard/state/PanelModel.ts:200-202 | Two panels that differ only in keys the model assigns, and whose workflows agree or can both take a property, end the copy loop with the same error, and alike when there is none |
| Panel.OldWorkflowCanBreakRestore | public/app/features/dashboard/state/PanelModel.ts:175-204 | The old state can show through: a panel whose workflow is a number throws a TypeError on a model that sets the title before the workflow |
| Panel.TitleBeforeWorkflowRestores | public/app/features/dashboard/state/PanelModel.ts:175-204 | The same model restored over the defaults alone raises nothing |
| Panel.PlainCopy | public/app/features/dashboard/state/PanelModel.ts:200-202 | Copying a model that lists persisted properties raises nothing and lays them over the panel's, the model winning |
| Panel.RestoredCopies | public/app/features/dashboard/state/PanelModel.ts:175-204 | Every plain property a model carries is restored to the model's value and every one it lacks is the default; the workflow too when no accessor writes into it |
| Panel.AssignAllKey | public/app/features/dashboard/state/PanelModel.ts:200-202 | After a copy that raised nothing, a key that is no accessor holds the model's value when the model has it and does not skip it, and the old value otherwise |
| Panel.AccessorsLandInWorkflow | public/app/features/dashboard/state/PanelModel.ts:480-502 | A model without its own workflow sends `id`, `title` and `description` through the setters (the copy loop at PanelModel.ts:200-202): no error, the workflow stays an object, each written field holds what its setter stores (`String(id)`, the title as `name`) and every other field is unchanged |
| Panel.IdEntryThroughSetter | public/app/features/dashboard/state/PanelModel.ts:480-486 | A model's `id` is written into the workflow through the setter, does not become an own property, and reads back through the getter |
| Panel.RestoredIdThroughSetter | public/app/features/dashboard/state/PanelModel.ts:175-204 | A panel restored from `{id: n}` has no own `id` and its id getter reads n |
| Panel.SaveRestoreRoundTrip | public/app/features/dashboard/state/PanelModel.ts:175-241 | Restoring a save model gives back every property up to deep equality, except those holding `undefined`, which read the same when absent; every other restored property is a default |
| Panel.FreshPanelSavesNothing | public/app/features/dashboard/state/PanelModel.ts:225-241 | A panel restored from an empty model saves as an empty model |
| Panel.MovedReadsBack | public/app/features/dashboard/state/PanelModel.ts:257-260 | A moved grid position reads back as the new one and keeps its other properties |
| Panel.ClearKeepsOnlyMustKeep | public/app/features/dashboard/state/PanelModel.ts:333-353 | After the clear only the must-keep properties, empty options and a field config with empty custom defaults remain; the kept ones are unchanged |
| Panel.RestoredKeeps | public/app/features/dashboard/state/PanelModel.ts:282-294 | Restoring cached options leaves the must-keep properties other than the field config as they were |
| Panel.RestoredBrings | public/app/features/dashboard/state/PanelModel.ts:282-294 | On a cleared panel, restoring a cache entry brings back exactly the cached properties |
| Panel.HandledTouchesOptions | public/app/features/dashboard/state/PanelModel.ts:356-365 | The handler is given the panel's properties to read; with a handler that writes nothing to the panel, the call changes only the options |
| Panel.SwitchedTouches | public/app/features/dashboard/state/PanelModel.ts:383-392 | Switching sets the type to the new plugin's id; only options, field config, plugin version and type change |
| Panel.PluginChangeKeeps | public/app/features/dashboard/state/PanelModel.ts:367-393 | A successful plugin change sets the type to the new plugin's id and leaves every kept property other than the field config and plugin version as it was |
| Panel.PluginChangeBringsBack | public/app/features/dashboard/state/PanelModel.ts:367-393 | Changing to a plugin whose options were remembered brings back exactly the remembered properties, apart from the options the new plugin may rewrite |
| Panel.SwitchBackRestoresOptions | public/app/features/dashboard/state/PanelModel.ts:367-393 | Switching to another plugin and back restores every persisted property the change removed, except the options |
| Panel.IdRoundTrip | public/app/features/dashboard/state/PanelModel.ts:480-486 | A panel id written through the setter (`String(value)`) reads back through the getter (`parseInt`) |
| Panel.TextRoundTrip | public/app/features/dashboard/state/PanelModel.ts:488-502 | A title or description written through its setter reads back through its getter |
| Panel.FreshPanelHasNoId | public/app/features/dashboard/state/PanelModel.ts:484-486 | The default workflow's empty id reads as NaN, so a new panel has no id |
| Panel.FreshPanelHasNoTitle | public/app/features/dashboard/state/PanelModel.ts:492-494 | A new panel's title is empty |
| Panel.FreshWorkflow | public/app/features/dashboard/state/PanelModel.ts:78-166 | A new panel holds the default workflow |
| Panel.WorkflowJsonRoundTrip | public/app/features/dashboard/state/PanelModel.ts:516-522 | Setting the workflow to its own JSON text leaves the panel as it was |
| Panel.LibraryPanelCopies | public/app/features/dashboard/state/PanelModel.ts:461-472 | When the copy raises nothing, linking a library panel copies every property of its model except `id`, `gridPos`, `libraryPanel`, the accessors and the runtime fields, and leaves every other property as it was; the workflow obeys the same rule when the model has no `title` or `description` |
| Panel.LibraryTitleLandsInWorkflow | public/app/features/dashboard/state/PanelModel.ts:461-472 | A library model's `title` and `description` reach the panel's workflow through the setters as `name` and `description`; its `id` is passed over, so the workflow's id is unchanged |
| Panel.PanelModel.constructor | public/app/features/dashboard/state/PanelModel.ts:134-171 | The field initialisers: a blank panel whose only property is a null `savedQueryLink`, not viewed or edited, with no changes, no cached options, no plugin, nothing published and the given key |
| Panel.PanelModel.Create | public/app/features/dashboard/state/PanelModel.ts:168-172 | `new PanelModel(model)`: when restoring the model over the defaults throws, no panel is made and that error escapes; otherwise a fresh valid panel holding exactly the restored properties and the initial runtime state |
| Panel.PanelModel.RestoreModel | public/app/features/dashboard/state/PanelModel.ts:175-204 | `restoreModel` replaces the persisted properties by the clean-up, defaults and copy of the model, reports the copy loop's error, and leaves runtime state alone |
| Panel.PanelModel.CleanUp | public/app/features/dashboard/state/PanelModel.ts:177-195 | The clean-up loop deletes each persisted property the model does not set truthily |
| Panel.PanelModel.FillDefaults | public/app/features/dashboard/state/PanelModel.ts:198 | `defaultsDeep` fills only missing properties |
| Panel.PanelModel.CopyModel | public/app/features/dashboard/state/PanelModel.ts:200-202 | The loop assigns each entry outside the skip set in order, the accessors through their setters, and stops at the first assignment that throws, as the copy-loop definition does |
| Panel.PanelModel.GetSaveModel | public/app/features/dashboard/state/PanelModel.ts:225-241 | The save model holds each persisted property that differs (by `isEqual`) from its default |
| Panel.PanelModel.UpdateOptions | public/app/features/dashboard/state/PanelModel.ts:218-223 | The options are replaced, `configRev` goes up by one, and an options-changed then a render event are published |
| Panel.PanelModel.SetProperty | public/app/features/dashboard/state/PanelModel.ts:448-451 | A persisted property is set, or an accessor goes through its setter; on success `configRev` goes up by one, and a setter that throws changes nothing |
| Panel.PanelModel.UpdateGridPos | public/app/features/dashboard/state/PanelModel.ts:247-264 | An unchanged position changes nothing; otherwise the four coordinates are written and `configRev` rises only when manually updated; a missing position throws |
| Panel.PanelModel.SetWorkflowText | public/app/features/dashboard/state/PanelModel.ts:520-522 | Text that parses replaces the workflow; text that does not throws a SyntaxError and changes nothing |
| Panel.PanelModel.UpdateQueries | public/app/features/dashboard/state/PanelModel.ts:395-411 | The saved-query link is written first; an unparsable workflow text throws with that link in place; otherwise the workflow and cache timeout are set, `configRev` rises and a queries-changed event is published |
| Panel.PanelModel.SetId | public/app/features/dashboard/state/PanelModel.ts:480-482 | The id setter writes `String(value)` into the workflow, and throws when the workflow is not an object |
| Panel.PanelModel.SetWorkflowField | public/app/features/dashboard/state/PanelModel.ts:488-498 | The title and description setters write the workflow's `name` or `description` |
| Panel.PanelModel.InitLibraryPanel | public/app/features/dashboard/state/PanelModel.ts:461-472 | A library panel or model that is null or undefined throws and changes nothing; otherwise the model's entries are copied as the copy loop does, and the link is stored only when no assignment threw |
| Panel.PanelModel.UnlinkLibraryPanel | public/app/features/dashboard/state/PanelModel.ts:474-478 | The link is deleted, `configRev` rises and a render event is published |
| Panel.PanelModel.ClearPropertiesBeforePluginChange | public/app/features/dashboard/state/PanelModel.ts:333-353 | Every property that is not must-keep is deleted, the options emptied and the custom field config cleared |
| Panel.PanelModel.RestorePanelOptions | public/app/features/dashboard/state/PanelModel.ts:282-294 | The cached properties of the plugin, when present, are written back and the custom override rules restored |
| Panel.PanelModel.ChangePlugin | public/app/features/dashboard/state/PanelModel.ts:367-393 | The current plugin's options are cached under its type, then the panel is cleared, restored, handed to the type-change handler and switched |
| Panel.PanelModel.SwitchPlugin | public/app/features/dashboard/state/PanelModel.ts:377-393 | After caching, the change follows the plugin-change definition |
| Panel.PanelModel.AdoptPlugin | public/app/features/dashboard/state/PanelModel.ts:378-393 | Once cleared, the panel restores cached options, runs the type-change handler and switches |
| Panel.PanelModel.CallPanelTypeChangeHandler | public/app/features/dashboard/state/PanelModel.ts:356-365 | The handler reads the panel's properties, and its result is assigned over the options; without a handler nothing changes. The frame (revision, plugin, other properties) holds for a handler that writes nothing to the panel |
| Panel.PanelModel.ApplyPluginOptionDefaults | public/app/features/dashboard/state/PanelModel.ts:296-306 | The options and field config become those the defaults give |
| Dashboard.NewPanel | public/app/features/dashboard/state/DashboardModel.ts:287-290 | A panel object made from panel data keeps its persisted contents and starts with no changes, not viewed and no saved edit |
| Dashboard.Created | public/app/features/dashboard/state/DashboardModel.ts:108 | The constructor makes one new panel object per panel data entry, in order |
| Dashboard.NextPanelIdFresh | public/app/features/dashboard/state/DashboardModel.ts:253-263 | The next panel id is at least 1, exceeds every panel's id, and is 1 or one more than some panel's id |
| Dashboard.WithIdsAssigns | public/app/features/dashboard/state/DashboardModel.ts:241-246 | With the evidently intended numbering every panel has an id afterwards, a panel with an id keeps it, and the new ids start at the next id and increase along the list |
| Dashboard.WithNextIdsDistinct | public/app/features/dashboard/state/DashboardModel.ts:241-246 | Starting from the next panel id, the intended numbering keeps ids distinct when the existing ones were |
| Dashboard.AsWrittenLeavesIdsMissing | public/app/features/dashboard/state/DashboardModel.ts:241-246 | As written, `panel.id ??= nextPanelId++` never assigns, because the id getter returns a number or NaN and never null; a panel without an id keeps none (see also PanelModel.ts:480-486) |
| Dashboard.SortByGridPosSorts | public/app/features/dashboard/state/DashboardModel.ts:302-310 | Sorting yields the same panels (a permutation), ordered by y and then x |
| Dashboard.SortByGridPosKeepsSorted | public/app/features/dashboard/state/DashboardModel.ts:302-310 | Panels already in grid order stay exactly as they are |
| Dashboard.SortByGridPosIdempotent | public/app/features/dashboard/state/DashboardModel.ts:302-310 | Sorting twice is sorting once |
| Dashboard.WithoutRemovesExactly | public/app/features/dashboard/state/DashboardModel.ts:340-343 | Removal keeps exactly the panels that are other objects, and removing an absent panel changes nothing |
| Dashboard.WithoutConcat | public/app/features/dashboard/state/DashboardModel.ts:340-343 | Removal distributes over concatenation, so the kept panels stay in order |
| Dashboard.DuplicatedPos | public/app/features/dashboard/state/DashboardModel.ts:354-360 | The copy goes to the right when two widths fit in the 24 columns, otherwise below |
| Dashboard.DuplicateBesideOriginal | public/app/features/dashboard/state/DashboardModel.ts:354-360 | The copy of a panel with a positive size never overlaps the original, and a copy placed to the right stays inside the grid |
| Dashboard.DuplicateAtDefaultPositionThrows | public/app/features/dashboard/state/DashboardModel.ts:350-364 | As written, a panel at the default grid position has no `gridPos` in its save model, so `newPanel.gridPos.x` throws; the corrected placement puts the copy at x = 6 (see also PanelModel.ts:225-241) |
| Dashboard.Duplicate | public/app/features/dashboard/state/DashboardModel.ts:350-364 | The duplicate has the next id, the new position, and the same title, type and library link |
| Dashboard.SliceFrom | public/app/features/dashboard/state/DashboardModel.ts:385 | `slice(start)` as JavaScript defines it for the starts that occur |
| Dashboard.FirstRow | public/app/features/dashboard/state/DashboardModel.ts:386 | `findIndex` of the first row panel, -1 when there is none |
| Dashboard.RowPanelsUpToNextRow | public/app/features/dashboard/state/DashboardModel.ts:384-392 | A row's panels are those right after it up to (excluding) the next row panel, or up to the end |
| Dashboard.MaxBottomIsMax | public/app/features/dashboard/state/DashboardModel.ts:335-336 | `maxBy` of the bottom edges is the largest, and some child attains it |
| Dashboard.RowHeightSpansChildren | public/app/features/dashboard/state/DashboardModel.ts:329-338 | A row without children is 0 high; otherwise it reaches from its y to its lowest child's bottom edge |
| Dashboard.SaveModelsCover | public/app/features/dashboard/state/DashboardModel.ts:175-201 | Every panel but an `add-panel` placeholder is saved, in order: a library panel as its stub, the panel in edit as its edit copy's save model, the others as themselves |
| Dashboard.SaveModelsSkipPlaceholders | public/app/features/dashboard/state/DashboardModel.ts:177 | No `add-panel` placeholder reaches the save models |
| Dashboard.FindById | public/app/features/dashboard/state/DashboardModel.ts:276 | `find` by id returns a panel with that id, or none when no panel has it |
| Dashboard.FindByIdFirst | public/app/features/dashboard/state/DashboardModel.ts:276 | `find` returns the first panel with the id |
| Dashboard.PanelById | public/app/features/dashboard/state/DashboardModel.ts:271-277 | The panel in edit wins when its id matches; otherwise the first panel with the id; no id finds nothing |
| Dashboard.UrlPanelIdDefault | public/app/features/dashboard/state/DashboardModel.ts:442-445 | Without a URL id the id looked up is `parseInt('0')` = 0 |
| Dashboard.InitialMeta | public/app/features/dashboard/state/DashboardModel.ts:120-132 | Each of canSave, canStar, canEdit, canDelete is true unless given as `false`; showSettings copies canEdit; hasUnsavedFolderChange is false; other keys are kept |
| Dashboard.NoMetaAllowsEverything | public/app/features/dashboard/state/DashboardModel.ts:120-128 | A dashboard given no meta may be saved, starred, edited and deleted, and shows its settings |
| Dashboard.RowNeverEditable | public/app/features/dashboard/state/DashboardModel.ts:279-281 | A row panel is never editable, whatever the meta grants |
| Dashboard.NothingEditableWithoutCanEdit | public/app/features/dashboard/state/DashboardModel.ts:279-281 | Without a truthy meta.canEdit no panel is editable, and a missing panel never is |
| Dashboard.CanEditReachesEveryPanel | public/app/features/dashboard/state/DashboardModel.ts:279-281 | With a truthy meta.canEdit every existing panel that is not a row is editable |
| Dashboard.WithViewing | public/app/features/dashboard/state/DashboardModel.ts:228-233 | `setIsViewing` changes only the viewing flag of that panel object |
| Dashboard.ViewRoundTrip | public/app/features/dashboard/state/DashboardModel.ts:226-234 | Entering and leaving view mode brings a panel back to what it was |
| Dashboard.DashboardModel.constructor | public/app/features/dashboard/state/DashboardModel.ts:88-118 | The panels are created from `data.panels ?? []`, numbered with the intended `WithIds` (not the source's `ensurePanelsHaveIds`, which numbers nothing; see Findings), sorted by grid position; the meta is initialised |
| Dashboard.DashboardModel.InitMeta | public/app/features/dashboard/state/DashboardModel.ts:120-132 | `initMeta` sets the meta to the initial meta and changes nothing else |
| Dashboard.DashboardModel.GetNextPanelId | public/app/features/dashboard/state/DashboardModel.ts:253-263 | The loop finds the largest panel id plus one |
| Dashboard.DashboardModel.EnsurePanelsHaveIds | public/app/features/dashboard/state/DashboardModel.ts:241-246 | With the intended numbering, panels without an id are numbered from the next id |
| Dashboard.DashboardModel.NumberPanels | public/app/features/dashboard/state/DashboardModel.ts:243-245 | The numbering loop gives each panel without an id the next number in turn |
| Dashboard.DashboardModel.GetPanelById | public/app/features/dashboard/state/DashboardModel.ts:271-277 | `getPanelById` is the lookup defined above on the current panels |
| Dashboard.DashboardModel.GetPanelByUrlId | public/app/features/dashboard/state/DashboardModel.ts:442-445 | The URL id is parsed (missing = '0') and looked up |
| Dashboard.DashboardModel.CanEditPanelById | public/app/features/dashboard/state/DashboardModel.ts:283-285 | Editable by id implies canEdit, a panel with the id, and not a row |
| Dashboard.DashboardModel.AddPanel | public/app/features/dashboard/state/DashboardModel.ts:287-295 | The new panel gets the next id, is put in front and the panels re-sorted; a panels-changed event is published |
| Dashboard.DashboardModel.SortPanelsByGridPos | public/app/features/dashboard/state/DashboardModel.ts:302-310 | The panels become their grid-order permutation |
| Dashboard.DashboardModel.UpdatePanels | public/app/features/dashboard/state/DashboardModel.ts:165-173 | When the merge changed something the merged panels are sorted in and an event published; otherwise nothing changes |
| Dashboard.DashboardModel.RemovePanel | public/app/features/dashboard/state/DashboardModel.ts:340-343 | The panel object is filtered out and an event published |
| Dashboard.DashboardModel.DuplicatePanel | public/app/features/dashboard/state/DashboardModel.ts:350-364 | The copy is added with the next id at the corrected position and returned |
| Dashboard.DashboardModel.GetRowPanels | public/app/features/dashboard/state/DashboardModel.ts:384-392 | `getRowPanels` is the row-panel selection defined above |
| Dashboard.DashboardModel.ClearUnsavedChanges | public/app/features/dashboard/state/DashboardModel.ts:312-327 | Every panel's `configRev` becomes 0, so nothing is unsaved; the panel in edit remembers whether it had changes |
| Dashboard.DashboardModel.ZeroConfigRevs | public/app/features/dashboard/state/DashboardModel.ts:313-315 | The loop zeroes each panel's `configRev` and changes nothing else |
| Dashboard.DashboardModel.GetPanelSaveModels | public/app/features/dashboard/state/DashboardModel.ts:175-201 | `getPanelSaveModels` is the save-model selection defined above |
| Dashboard.DashboardModel.InitEditPanel | public/app/features/dashboard/state/DashboardModel.ts:221-224 | The edit copy becomes the panel in edit and is returned |
| Dashboard.DashboardModel.ExitPanelEditor | public/app/features/dashboard/state/DashboardModel.ts:236-239 | No panel is in edit afterwards |
| Dashboard.DashboardModel.InitViewPanel | public/app/features/dashboard/state/DashboardModel.ts:226-229 | The panel becomes the one in view and is marked viewing |
| Dashboard.DashboardModel.ExitViewPanel | public/app/features/dashboard/state/DashboardModel.ts:231-234 | No panel is in view and the panel is unmarked |
| Dashboard.InsertSorted | public/app/features/dashboard/state/DashboardModel.ts:302-310 | Inserting a panel into grid-ordered panels keeps them grid-ordered and adds exactly that panel |
| Dashboard.WithIds | public/app/features/dashboard/state/DashboardModel.ts:241-246 | the evidently intended numbering keeps the number of panels; what it assigns is stated by `Dashboard.WithIdsAssigns` |
| Dashboard.WithIdsAsWritten | public/app/features/dashboard/state/DashboardModel.ts:241-246 | the numbering as written keeps the number of panels; that it assigns nothing is stated by `Dashboard.AsWrittenLeavesIdsMissing` |
| JsNumber.NatToString | public/app/features/dashboard/state/PanelModel.ts:480-482 | `String(n)` of a non-negative integer is a non-empty run of decimal digits with no leading zero unless it is 0 |
| JsNumber.IntToString | public/app/features/dashboard/state/PanelModel.ts:480-482 | `String(i)` starts with `-` exactly for a negative integer, and with a digit otherwise |
| JsNumber.DigitRun | public/app/features/dashboard/state/DashboardModel.ts:443 | `parseInt` reads the longest prefix of decimal digits, and stops at the first other character |
| JsNumber.DecimalValue | public/app/features/dashboard/state/PanelModel.ts:480-486 | The digits `String(n)` writes are read back as n |
| JsNumber.ParseIntOfIntToString | public/app/features/dashboard/state/PanelModel.ts:480-486 | `parseInt(String(i), 10) === i` for every integer, so the panel id setter and getter round-trip |
| JsNumber.DigitsOfNatToString | public/app/features/dashboard/state/PanelModel.ts:485 | The unsigned part of `parseInt` reads `String(m)` as m |
| JsNumber.ParseIntNoDigits | public/app/features/dashboard/state/DashboardModel.ts:443 | A string with no digit after its optional sign parses to NaN |
| JsNumber.ParseIntStopsAtNonDigit | public/app/features/dashboard/state/DashboardModel.ts:443 | Reading stops at the first non-digit, so `parseInt("0x1", 10)` is 0 |
| JsNumber.SkipSpace | public/app/features/dashboard/components/DashboardSettings/DashboardSettings.tsx:165 | Leading white space before the number is skipped |
| JsonValue.FindKey | public/app/features/dashboard/state/PanelModel.ts:233 | A property is found at its first entry with that key, and not found exactly when no entry has it |
| JsonValue.Get | public/app/features/dashboard/state/PanelModel.ts:233 | A property read yields the entry's value, or `undefined` for a missing key or a non-object (see also DashboardModel.ts:279-281) |
| JsonValue.OwnEntries | public/app/features/dashboard/state/PanelModel.ts:538 | `Object.entries` of an object is its entries in order; an array or string has one per index; other values have none |
| JsonValue.ToJsString | public/app/features/dashboard/state/PanelModel.ts:481 | `String(v)` of a string is itself, of a number its decimal form, of `undefined` the word undefined |
| JsonValue.SetEntry | public/app/features/dashboard/state/PanelModel.ts:469 | A property write replaces an existing key in place and appends a new key last |
| JsonValue.Put | public/app/features/dashboard/state/PanelModel.ts:469 | A property write changes an object and leaves a non-object as it is |
| JsonValue.GetAfterSetEntry | public/app/features/dashboard/state/PanelModel.ts:462-470 | After writing k, reading k gives the written value and every other key reads as before |
| JsonValue.MergeIntoFreshCopies | public/app/features/workflow/state/PanelWorkflowRunner.ts:265-267 | lodash `merge({}, s)` deep-copies s |
| JsonValue.MergeUndefinedTargetCopies | public/app/features/workflow/state/PanelWorkflowRunner.ts:265-267 | Merging an object into `undefined` old data yields that object |
| JsonValue.MergeEntriesGet | public/app/features/workflow/state/PanelWorkflowRunner.ts:265-267 | Key by key, a merge keeps the target's value where the source has no key and merges the slot where it has one |
| JsonValue.MergeEntriesHasKey | public/app/features/workflow/state/PanelWorkflowRunner.ts:265-267 | The merged object has a key exactly when the target or the rest of the source has it |
| JsonValue.MergePastEndLeavesHoles | public/app/features/workflow/state/PanelWorkflowRunner.ts:265-267 | An index past the end of an array target is written there with holes before it: `merge([1], {"2": 5})` is `[1, <hole>, 5]` |
| JsonValue.StoreItem | public/app/features/workflow/state/PanelWorkflowRunner.ts:265-267 | Writing index n keeps every other item, stores the value at n and leaves the skipped indices as holes |
| JsonValue.MergeArrayIntoFreshObject | public/app/features/workflow/state/PanelWorkflowRunner.ts:265-267 | An array merged into `undefined` or `{}` lands under its index keys: `merge(undefined, [a, b])` is `{"0": a, "1": b}` |
| JsonValue.SetEntryHasKey | public/app/features/dashboard/state/PanelModel.ts:469 | After a write the keys are the old keys plus the written one |
| JsonValue.MergeWellFormed | public/app/features/workflow/state/PanelWorkflowRunner.ts:265-267 | Merging values without repeated keys yields a value without repeated keys |
| JsonValue.DeepEqualReflexive | public/app/features/dashboard/state/PanelModel.ts:233 | lodash `isEqual` holds between a value and itself |
| JsonText.Indent | public/app/features/dashboard/state/PanelModel.ts:517 | The indentation at depth d is 2d spaces, the `2` passed to `JSON.stringify` |
| JsonText.EscapeChar | public/app/features/dashboard/state/PanelModel.ts:517 | Every character is written as at least one character |
| JsonText.Render | public/app/features/dashboard/state/PanelModel.ts:517 | A rendered value is never empty and starts with neither white space nor a closing bracket |
| JsonText.Stringify | public/app/features/dashboard/state/PanelModel.ts:516-518 | `JSON.stringify` gives no text exactly for `undefined` |
| JsonText.Parse | public/app/features/dashboard/state/PanelModel.ts:520-522 | A successful `JSON.parse` never yields `undefined` |
| JsonText.ParseValue | public/app/features/dashboard/state/PanelModel.ts:521 | A parsed value consumes input and is never `undefined` |
| JsonText.ParseArray | public/app/features/dashboard/state/PanelModel.ts:521 | An array parse yields an array and consumes input |
| JsonText.ParseObject | public/app/features/dashboard/state/PanelModel.ts:521 | An object parse yields an object and consumes input |
| JsonText.ParseMembersAt | public/app/features/dashboard/state/PanelModel.ts:521 | A member parse yields an object; a repeated key keeps its first place and takes the later value |
| JsonText.EscapeCharDecodes | public/app/features/dashboard/state/PanelModel.ts:517-521 | Each escape `JSON.stringify` writes is read back by `JSON.parse` as the character it came from; other characters stand for themselves |
| JsonText.StringRoundTrip | public/app/features/dashboard/state/PanelModel.ts:517-521 | A string written with its escapes and closing quote is read back as the same string |
| JsonText.HexRoundTrip | public/app/features/dashboard/state/PanelModel.ts:517-521 | The hex digit written for k is read as k, as the `\\u` escapes need |
| JsonText.NumberRoundTrip | public/app/features/dashboard/state/PanelModel.ts:517-521 | Every integer written by `JSON.stringify` is read back as the same number |
| JsonText.ValueRoundTrip | public/app/features/dashboard/state/PanelModel.ts:517-521 | Every JSON value rendered at any depth and followed by a terminator is read back as itself |
| JsonText.ArrayRoundTrip | public/app/features/dashboard/state/PanelModel.ts:517-521 | Every rendered array is read back as itself |
| JsonText.ObjectRoundTrip | public/app/features/dashboard/state/PanelModel.ts:517-521 | Every rendered object without repeated keys is read back as itself, members in order |
| JsonText.ItemsRoundTrip | public/app/features/dashboard/state/PanelModel.ts:517-521 | Array items from index i on, with the first i already read, complete the array |
| JsonText.MembersRoundTrip | public/app/features/dashboard/state/PanelModel.ts:517-521 | Object members from index i on, with the first i already read, complete the object |
| JsonText.StringifyParseRoundTrip | public/app/features/dashboard/state/PanelModel.ts:516-522 | `JSON.parse(JSON.stringify(v, undefined, 2))` gives back every JSON value, so setting the workflow text to its own rendering changes nothing |
| RunRequest.PacketKey | public/app/features/query/state/runRequest.ts:38 | The packet is stored under its own key when it has one, and under `A` when it has neither a key nor data |
| RunRequest.StoredReplacesOnlyItsKey | public/app/features/query/state/runRequest.ts:33-40 | Storing a packet makes its key read back that packet and every other key read back what it held; keys stay unique, and the map grows exactly when the key was new |
| RunRequest.KeysOfStored | public/app/features/query/state/runRequest.ts:33-40 | After storing, every key present is the packet's key or an earlier key |
| RunRequest.LookupAbsent | public/app/features/query/state/runRequest.ts:33-40 | A key no entry has reads as absent |
| RunRequest.LastErrorIsStored | public/app/features/query/state/runRequest.ts:47-53 | The error carried is none exactly when no stored packet has one; otherwise it is the error of the last stored packet that has one |
| RunRequest.SeriesConcat | public/app/features/query/state/runRequest.ts:55-59 | The series of two runs of packets is their two series joined |
| RunRequest.SeriesOne | public/app/features/query/state/runRequest.ts:55-59 | One packet contributes its data items, or nothing when it has none |
| RunRequest.Processed | public/app/features/query/state/runRequest.ts:31-70 | The panel data keeps the request of the state it was given |
| RunRequest.ProcessedState | public/app/features/query/state/runRequest.ts:31-70 | The new state is Error exactly when some stored packet or the new packet carries an error; otherwise it is the packet's state or Done, with no error; the packet is stored under its key |
| RunRequest.ErrorPacketGivesError | public/app/features/query/state/runRequest.ts:40-53 | A packet with an error always turns the panel data to Error and carries an error |
| RunRequest.LookupFound | public/app/features/query/state/runRequest.ts:47-48 | A key that reads back a packet reads one that is stored |
| RunRequest.ProcessResponsePacket | public/app/features/query/state/runRequest.ts:31-70 | The copy of the packets and the loop over them compute the processed state defined above |
| RunRequest.RunRequestStart | public/app/features/query/state/runRequest.ts:79-94 | A request without targets gets `endTime` now and is answered at once with Done and no data; one with targets goes to the query pipeline |
| Ascii.Lower | pkg/infra/slugify/slugify.go:81 | `strings.ToLower` maps A–Z to a–z and keeps every other character |
| Ascii.ToLower | pkg/infra/slugify/slugify.go:81 | Lower-casing maps each character in place and keeps the length |
| Ascii.ToLowerIdempotent | pkg/infra/slugify/slugify.go:81 | Lower-casing twice is lower-casing once |
| Slugify.TrimDashes | pkg/infra/slugify/slugify.go:104 | `strings.Trim(s, "-")` gives a piece of s that neither starts nor ends with `-` |
| Slugify.TrimDashesKeeps | pkg/infra/slugify/slugify.go:104 | Text without a `-` at either end is left as it is |
| Slugify.SlugOf | pkg/infra/slugify/slugify.go:80-105 | A slug never starts or ends with `-` |
| Slugify.Slugger | pkg/infra/slugify/slugify.go:80-105 | The scanning loop over the lower-cased text and the trim compute the slug defined above |
| Slugify.ValidTextUnchanged | pkg/infra/slugify/slugify.go:62-101 | Text of a–z and 0–9 with no mapped characters passes through the scan unchanged |
| Slugify.SlugOfValidText | pkg/infra/slugify/slugify.go:80-105 | Lower-case, slug-safe text is its own slug |
| Slugify.MappedCharacter | pkg/infra/slugify/slugify.go:88-92 | A mapped character writes its replacement and clears the invalid flag |
| Slugify.InvalidRunOneDash | pkg/infra/slugify/slugify.go:94-100 | A run of unmapped invalid characters writes one `-`, or none right after another invalid character, and leaves the flag set |
| Slugify.ScanShape | pkg/infra/slugify/slugify.go:84-101 | With plain replacements the scan writes only a–z, 0–9 and `-` and never two `-` in a row |
| Slugify.SlugShape | pkg/infra/slugify/slugify.go:80-105 | With plain replacements a slug is a–z and 0–9 words joined by single `-`, and does not start or end with `-` |
| Slugify.LegibleReplacementsArePlain | pkg/infra/slugify/slugify.go:107-111 | The replacements for the ASCII characters `&` and `@` (`and`, `at`) write only slug-safe characters |
| Slugify.SlugifyWith | pkg/infra/slugify/slugify.go:51-60 | The slug when it is not empty; else the base64url text when it is not empty and at most 50 long; else the name-based UUID |
| Slugify.SlugifyNeverEmpty | pkg/infra/slugify/slugify.go:51-60 | `Slugify` never returns the empty string |
| DashboardPermissions.NewFilter | pkg/services/sqlstore/permissions/dashboard.go:19-31 | Above view level the filter checks folder read and dashboard create, and dashboard read and write; at view level, folder read and dashboard read |
| DashboardPermissions.ToCheck | pkg/services/sqlstore/permissions/dashboard.go:47-93 | The actions to check are exactly the given actions none of whose scopes is a wildcard, in order |
| DashboardPermissions.InListMarks | pkg/services/sqlstore/permissions/dashboard.go:61-96 | Each `IN (?, …)` list has one placeholder per action to check |
| DashboardPermissions.WhereOf | pkg/services/sqlstore/permissions/dashboard.go:33-36 | A user without permissions in the organisation is filtered with `(1 = 0)` and no arguments |
| DashboardPermissions.WhereShape | pkg/services/sqlstore/permissions/dashboard.go:33-105 | For a filter from the constructor the fragment is the dashboard half and the folder half joined by ` OR ` in parentheses, the dashboard half's arguments first |
| DashboardPermissions.AllWildcards | pkg/services/sqlstore/permissions/dashboard.go:47-73 | When every action has a wildcard scope nothing is checked, and the half is the plain `is_folder` test |
| DashboardPermissions.NoneChecked | pkg/services/sqlstore/permissions/dashboard.go:47-58 | When every action has a wildcard scope no action is checked |
| DashboardPermissions.HasWildcard | pkg/services/sqlstore/permissions/dashboard.go:49-54 | The inner loop finds a wildcard exactly when some scope of the action is one |
| DashboardPermissions.CollectActionsToCheck | pkg/services/sqlstore/permissions/dashboard.go:47-58 | The outer loop collects the actions to check defined above |
| DashboardPermissions.Where | pkg/services/sqlstore/permissions/dashboard.go:33-106 | `Where()` builds the fragment and arguments defined above |
| SqlBuilder.SQLBuilder.constructor | pkg/services/sqlstore/sqlbuilder.go:12-14 | A new builder has empty text and no arguments |
| SqlBuilder.SQLBuilder.Write | pkg/services/sqlstore/sqlbuilder.go:22-28 | The text is appended, then the arguments |
| SqlBuilder.SQLBuilder.AddParams | pkg/services/sqlstore/sqlbuilder.go:38-40 | The arguments are appended and the text is unchanged |
| SqlBuilder.SQLBuilder.WriteDashboardPermissionFilter | pkg/services/sqlstore/sqlbuilder.go:42-46 | ` AND ` and the permission filter's fragment are appended, then its arguments |
| StreamManager.Pow2 | pkg/services/live/runstream/manager.go:151 | `math.Pow(2, n)` for a non-negative count is at least 1 |
| StreamManager.Pow2Monotone | pkg/services/live/runstream/manager.go:151 | More errors give a larger power of two |
| StreamManager.Pow2Add | pkg/services/live/runstream/manager.go:151 | Powers of two multiply by adding exponents |
| StreamManager.Pow2Of36 | pkg/services/live/runstream/manager.go:151 | 2 to the 36th, the power at which the product is about to pass the `int64` range |
| StreamManager.WrapInt64 | pkg/services/live/runstream/manager.go:151 | An `int64` product wraps around into the signed 64-bit range and is unchanged inside it |
| StreamManager.GetDelayAsWritten | pkg/services/live/runstream/manager.go:144-156 | The delay as written is defined for every count up to 62 |
| StreamManager.AsWrittenWrapsUnevenly | pkg/services/live/runstream/manager.go:144-156 | As written, the wrapped product is positive again at 38 errors (and capped at 5 s) and exactly 0 at 56 |
| StreamManager.AsWrittenWrapsAt37 | pkg/services/live/runstream/manager.go:144-156 | As written, 36 errors give the 5 s cap but 37 errors give a negative delay: the product wraps before the cap is compared |
| StreamManager.GetDelayBounds | pkg/services/live/runstream/manager.go:144-156 | No errors, no delay; otherwise between 0 and `maxDelay` |
| StreamManager.GetDelayExact | pkg/services/live/runstream/manager.go:151-155 | The delay is 100 ms times 2 to the number of errors while that is at most `maxDelay` |
| StreamManager.GetDelayMonotone | pkg/services/live/runstream/manager.go:144-156 | With the product capped, more errors never give a shorter delay |
| StreamManager.AsWrittenAgreesBelow37 | pkg/services/live/runstream/manager.go:144-156 | The code as written and the capped delay agree up to 36 errors |
| StreamManager.DatasourceKey | pkg/services/live/runstream/manager.go:97-99 | The key is the org id's decimal form, `_`, then the data source uid |
| StreamManager.NoUnderscore | pkg/services/live/runstream/manager.go:97-99 | An org id's decimal form has no `_` |
| StreamManager.DatasourceKeyInjective | pkg/services/live/runstream/manager.go:97-99 | Two different org and uid pairs never share a key |
| Plugins.IsValidTypeExactly | pkg/plugins/plugins.go:310-316 | A plugin type is valid exactly when it is `panel` or `app` |
| Plugins.ClassesExclusive | pkg/plugins/plugins.go:261-279 | A plugin is at most one of core, bundled and external, never both panel and app, and has a valid type exactly when it is a panel or an app |
| Plugins.DashboardIncludesOf | pkg/plugins/plugins.go:154-163 | The dashboard includes are exactly the includes of type dashboard |
| Plugins.DashboardIncludesInOrder | pkg/plugins/plugins.go:154-163 | The dashboard includes keep the order they had |
| Plugins.DashboardIncludesIdempotent | pkg/plugins/plugins.go:154-163 | Filtering the dashboard includes twice changes nothing |
| Plugins.DashboardIncludes | pkg/plugins/plugins.go:154-163 | The append loop computes the dashboard includes defined above |
| Plugins.ExecutableSuffix | pkg/plugins/plugins.go:214-224 | On Windows the executable path ends in `.exe`; elsewhere it ends in the lower-cased architecture |
| Plugins.StaticRouteOf | pkg/plugins/plugins.go:253-259 | A core plugin has no static route; any other has one for its directory and id |
| FrontendSettings.PanelSortUnlisted | pkg/api/frontendsettings.go:184-222 | A panel id that is not in the table sorts at 100 |
| FrontendSettings.PanelSortListed | pkg/api/frontendsettings.go:184-222 | A listed panel id sorts at its place in the table, from 1 for `timeseries` to 17 for `news` |
| FrontendSettings.Get | pkg/api/frontendsettings.go:229-235 | The lookup finds the plugin exactly when its type and id are listed, and otherwise returns an empty plugin and false |
| FrontendSettings.OtherSetting | pkg/api/frontendsettings.go:297-321 | A plugin without a setting gets the default one: enabled and not pinned, except that an app child is enabled only when its app has an enabled setting |
| FrontendSettings.WithAppsKeeps | pkg/api/frontendsettings.go:278-295 | The app loop never replaces a setting already there, and adds settings only for app ids |
| FrontendSettings.WithOthersKeeps | pkg/api/frontendsettings.go:297-321 | The last loop never replaces a setting already there, and every plugin ends up with one |
| FrontendSettings.StoredSettingsKeys | pkg/api/frontendsettings.go:271-275 | The database loop gives a setting for exactly the plugin ids it reads |
| FrontendSettings.StoredSettingsWin | pkg/api/frontendsettings.go:265-324 | A setting stored in the database reaches the result unchanged |
| FrontendSettings.AppWithoutSetting | pkg/api/frontendsettings.go:278-295 | The first app with an id that has no setting yet gets one with enabled and pinned both equal to `AutoEnabled` |
| FrontendSettings.NotYetThere | pkg/api/frontendsettings.go:278-295 | The app loop adds no setting for an id no app has |
| FrontendSettings.OtherWithoutSetting | pkg/api/frontendsettings.go:297-321 | The first plugin with an id that has no setting yet gets the default setting, judged on the settings made before it |
| FrontendSettings.AppChildFollowsApp | pkg/api/frontendsettings.go:312-318 | An app child gets its setting in the last loop and is enabled exactly when its app's setting is |
| FrontendSettings.PluginSettings | pkg/api/frontendsettings.go:265-324 | The three loops compute the plugin settings defined above |
| FrontendSettings.EnabledAppsExactly | pkg/api/frontendsettings.go:246-251 | An app is enabled exactly when some app with its id has a setting |
| FrontendSettings.EnabledAppsPinned | pkg/api/frontendsettings.go:246-251 | An enabled app carries its setting's `Pinned` flag |
| FrontendSettings.EnabledPanelsExactly | pkg/api/frontendsettings.go:255-260 | A panel is enabled exactly when some panel with its id has a setting |
| FrontendSettings.EnabledPanelsListed | pkg/api/frontendsettings.go:255-260 | An enabled panel is one of the listed panels, unchanged |
| FrontendSettings.EnabledPluginsOf | pkg/api/frontendsettings.go:237-263 | The app loop and the panel loop compute the enabled apps and panels defined above |
| FrontendSettings.FrontendPanels | pkg/api/frontendsettings.go:44-66 | Every enabled panel is sent except alpha ones when alpha plugins are off; each sorts as `getPanelSort` says; the flame graph is hidden unless its feature flag is on |
| FrontendSettings.PluginsToPreload | pkg/api/frontendsettings.go:33-42 | The loop appends, in the order the enabled-app map is visited, the module and version of each app that preloads: every preloading app gives an entry, every entry comes from one, and there are exactly as many entries as preloading apps (equal entries are kept) |
| FrontendSettings.PreloadsMembers | pkg/api/frontendsettings.go:33-42 | The entries are exactly the module and version pairs of the visited apps that preload |
| FrontendSettings.PreloadsOfIteration | pkg/api/frontendsettings.go:33-42 | Whatever order Go visits the enabled apps in, the entries are exactly those of the preloading apps, one per app |
| FrontendSettings.PreloadsCount | pkg/api/frontendsettings.go:33-42 | Over distinct keys there is one entry per preloading app, so two apps with the same module and version give two entries |
| FrontendSettings.BuildInfoOf | pkg/api/frontendsettings.go:68-78 | Anonymous users under `AnonymousHideVersion` see no version, commit or build stamp; everyone else sees them |
| AuthMiddleware.QueryGet | pkg/middleware/auth.go:117-166 | A query parameter reads as its first value, or as the empty string when it is absent |
| AuthMiddleware.ParseFormatBool | pkg/middleware/auth.go:166 | `strconv.ParseBool` reads back the text of either truth value |
| AuthMiddleware.ParseInt64 | pkg/middleware/auth.go:118 | `strconv.ParseInt(s, 10, 64)` only succeeds with a value inside the `int64` range |
| AuthMiddleware.ParseInt64OfIntToString | pkg/middleware/auth.go:117-119 | Every `int64` org id is read back from its decimal form |
| AuthMiddleware.ParseInt64RejectsNonDigits | pkg/middleware/auth.go:118 | Text with anything but digits after the sign fails to parse |
| AuthMiddleware.ShouldForceLogin | pkg/middleware/auth.go:164-172 | Login is forced exactly when `forceLogin` parses as true; text that does not parse counts as false |
| AuthMiddleware.RemoveForceLoginParams | pkg/middleware/auth.go:75-79 | Removing the matches of `&?forceLogin=true` never makes the text longer |
| AuthMiddleware.RemoveNothing | pkg/middleware/auth.go:75-79 | Text without `forceLogin=true` is left as it is |
| AuthMiddleware.AmpThenPlain | pkg/middleware/auth.go:75 | A match with its `&` contains the match without it |
| AuthMiddleware.RemoveStepAmp | pkg/middleware/auth.go:75-79 | A leftmost match with `&` is deleted whole |
| AuthMiddleware.RemoveStepPlain | pkg/middleware/auth.go:75-79 | A leftmost match without `&` is deleted whole |
| AuthMiddleware.RemoveStepOther | pkg/middleware/auth.go:75-79 | Where no match starts, the character is kept and the scan goes on |
| AuthMiddleware.RemoveDropsParam | pkg/middleware/auth.go:75-79 | A `&forceLogin=true` parameter disappears, and the text before and after it is cleaned separately |
| AuthMiddleware.RemoveBeforeMatch | pkg/middleware/auth.go:75-79 | No match spans the start of a parameter, so the text before it is cleaned on its own |
| AuthMiddleware.RedirectCookie | pkg/middleware/auth.go:60-73 | No cookie is written exactly when the target is `/`; otherwise the cookie is the `url.QueryEscape` of the target without `forceLogin=true`: it holds only characters safe in a cookie, and unescaping it gives back the target's UTF-8 bytes |
| AuthMiddleware.QueryEscape | pkg/middleware/auth.go:72 | `url.QueryEscape` writes only letters, digits, `-`, `_`, `.`, `~`, `+` and `%` |
| AuthMiddleware.EscapeByte | pkg/middleware/auth.go:72 | One byte becomes itself when unreserved, `+` when a space, and `%` with two upper-case hexadecimal digits otherwise |
| AuthMiddleware.QueryEscapeRoundTrip | pkg/middleware/auth.go:72 | `url.QueryUnescape` undoes `url.QueryEscape` on every byte string, so the escape loses nothing and two targets never share a cookie |
| AuthMiddleware.EscapeExample | pkg/middleware/auth.go:72 | `/a b` is written as `%2Fa+b` |
| AuthMiddleware.RedirectTarget | pkg/middleware/auth.go:61-64 | The target always starts with the sub-path, and a request URI already under it is kept as it is |
| AuthMiddleware.RedirectCookieKeepsCleanTarget | pkg/middleware/auth.go:60-73 | A target without `forceLogin=true` is written to the cookie as its own `url.QueryEscape`, which unescapes to the target's UTF-8 bytes |
| AuthMiddleware.AccessForbidden | pkg/middleware/auth.go:25-32 | An API request gets a 403 `Permission denied`; any other request is redirected to the sub-path root |
| AuthMiddleware.NotAuthorized | pkg/middleware/auth.go:34-42 | An API request gets a 401 `Unauthorized`; any other request gets the redirect cookie and goes to the login page |
| AuthMiddleware.TokenRevoked | pkg/middleware/auth.go:44-58 | An API request gets the token-revoked JSON with the session limit; any other request is treated like an unauthorized one |
| AuthMiddleware.Auth | pkg/middleware/auth.go:111-143 | A user who is not signed in, on a route that requires sign-in and needs a login, is refused (revoked token or unauthorized); otherwise a non-admin on an admin route is forbidden; anyone else passes. A login is needed without anonymous access, when forced, when the URL asks for another positive org, or when anonymous access is refused |
| AuthMiddleware.RoleAuth | pkg/middleware/auth.go:96-109 | A request passes exactly when its org role is one of those allowed; otherwise access is forbidden |
| NavLinks.Leaf | pkg/services/navtree/navtreeimpl/admin.go:19-27 | A node with only an id, a text and a url has no children |
| NavLinks.Push | pkg/services/navtree/navtreeimpl/admin.go:19-27 | `append` adds one link, and afterwards exactly the earlier ids and the new link's id are present |
| NavLinks.PushIf | pkg/services/navtree/navtreeimpl/admin.go:17-27 | A guarded `append` adds the link only when its condition holds |
| NavAdmin.OrgUsersLink | pkg/services/navtree/navtreeimpl/admin.go:17-27 | The org users page is listed exactly when topnav is off and org users may be read |
| NavAdmin.OrgTeamsAndPreferencesLinks | pkg/services/navtree/navtreeimpl/admin.go:28-47 | Teams and preferences are listed exactly when their permissions are granted |
| NavAdmin.ApiKeysLink | pkg/services/navtree/navtreeimpl/admin.go:49-65 | API keys are listed with access, unless hidden and there is none |
| NavAdmin.ServiceAccountsLink | pkg/services/navtree/navtreeimpl/admin.go:66-74 | Service accounts are listed exactly when service accounts may be accessed |
| NavAdmin.GetOrgAdminNode | pkg/services/navtree/navtreeimpl/admin.go:12-87 | An error from the API-key service is returned instead of the node; otherwise the node is the `cfg` Configuration node with the children above |
| NavAdmin.ServerUsersLink | pkg/services/navtree/navtreeimpl/admin.go:95-108 | Users are listed with global users read, or with topnav also with org users read |
| NavAdmin.ServerOrgsAndSettingsLinks | pkg/services/navtree/navtreeimpl/admin.go:109-119 | Organizations need the permission globally and the settings page needs it in the org |
| NavAdmin.LdapLink | pkg/services/navtree/navtreeimpl/admin.go:120-124 | LDAP is listed exactly when it is enabled and its status may be read |
| NavAdmin.GetServerAdminNode | pkg/services/navtree/navtreeimpl/admin.go:89-141 | The Server admin node has these children, and its url is its first child's, or empty when it has none |
| NavAdmin.EditorsCanAdminWidens | pkg/services/navtree/navtreeimpl/admin.go:143-145 | Letting editors administer teams only widens who may, only to editors, and never to viewers |
| NavTree.GetHomeNode | pkg/services/navtree/navtreeimpl/navtree.go:179-207 | The Home node goes to the configured home page when no home dashboard is set, to the home dashboard's url when it is set and found, and otherwise to the sub-path root |
| NavTree.Found | pkg/services/navtree/navtreeimpl/navtree.go:299-306 | The dashboards found are among those looked up, in lookup order; failed lookups are skipped |
| NavTree.Looked | pkg/services/navtree/navtreeimpl/navtree.go:292-298 | At most 51 stars are looked up (the counter breaks only once it passes 50), the first ones in iteration order |
| NavTree.LexLessAsymmetric | pkg/services/navtree/navtreeimpl/navtree.go:311 | Go's `<` on titles is asymmetric |
| NavTree.Insert | pkg/services/navtree/navtreeimpl/navtree.go:310-312 | Insertion adds one dashboard |
| NavTree.InsertSorted | pkg/services/navtree/navtreeimpl/navtree.go:310-312 | Inserting into title-sorted dashboards keeps them sorted and adds exactly that dashboard |
| NavTree.SortByTitle | pkg/services/navtree/navtreeimpl/navtree.go:310-312 | Sorting keeps the number of dashboards |
| NavTree.SortByTitleSorts | pkg/services/navtree/navtreeimpl/navtree.go:310-312 | `sort.Slice` by title gives a permutation sorted by title |
| NavTree.LinkOf | pkg/services/navtree/navtreeimpl/navtree.go:314-318 | A starred dashboard's link has its uid as id, its title as text and its url |
| NavTree.LinksOf | pkg/services/navtree/navtreeimpl/navtree.go:313-319 | One link per starred dashboard, in order |
| NavTree.LinksOfSorted | pkg/services/navtree/navtreeimpl/navtree.go:309-319 | Title-sorted dashboards give links sorted by text |
| NavTree.BuildStarredItemsNavLinks | pkg/services/navtree/navtreeimpl/navtree.go:279-323 | A star service error is returned; otherwise at most 51 links, sorted by text, one per dashboard found |
| NavTree.BrowseLink | pkg/services/navtree/navtreeimpl/navtree.go:329-333 | Browse is listed exactly when topnav is off |
| NavTree.LibraryPanelsLink | pkg/services/navtree/navtreeimpl/navtree.go:335-343 | Library panels are listed exactly for signed-in users |
| NavTree.ScenesLink | pkg/services/navtree/navtreeimpl/navtree.go:345-352 | Scenes are listed exactly when the scenes feature is on |
| NavTree.DividerLink | pkg/services/navtree/navtreeimpl/navtree.go:354-358 | The divider is listed exactly with edit permission and without topnav |
| NavTree.NewDashboardLink | pkg/services/navtree/navtreeimpl/navtree.go:360-366 | New dashboard is listed exactly with edit permission and dashboards create |
| NavTree.NewFolderLink | pkg/services/navtree/navtreeimpl/navtree.go:368-374 | New folder is listed exactly with edit permission, without topnav and with folders create |
| NavTree.ImportLink | pkg/services/navtree/navtreeimpl/navtree.go:368-382 | Import is listed exactly with edit permission, without topnav and with dashboards create |
| NavTree.BuildDashboardNavLinks | pkg/services/navtree/navtreeimpl/navtree.go:325-385 | The dashboards section lists the links above, at most seven |
| NavTree.DashboardChildren | pkg/services/navtree/navtreeimpl/navtree.go:325-385 | The dashboards section has at most seven children |
| NavTree.CreateLinksHiddenFromTabs | pkg/services/navtree/navtreeimpl/navtree.go:360-382 | Among the dashboards section's children exactly the divider, "New dashboard", "New folder" and "Import" are hidden from the page tabs |
| NavTree.SignOutLast | pkg/services/navtree/navtreeimpl/navtree.go:237-264 | The profile's first child is its preferences page, and Sign out is the last child unless the sign-out menu is disabled, in which case it is absent |
| NavTree.GetProfileNode | pkg/services/navtree/navtreeimpl/navtree.go:229-277 | The profile node shows the display name, with the login as subtitle only when it differs |
| NavTree.HelpVersionShown | pkg/services/navtree/navtreeimpl/navtree.go:211-214 | The help subtitle starts with the application name and ` v` unless anonymous users may not see the version, and then it is the plain name |
| NavTree.AddHelpLinks | pkg/services/navtree/navtreeimpl/navtree.go:209-227 | The Help section is appended exactly when help is enabled |
| NavTree.TopSectionIds | pkg/services/navtree/navtreeimpl/navtree.go:75-154 | The sections before the admin ones are home, starred with dashboards read, dashboards with read or create, the query library unless disabled, the profile when enabled for a signed-in user, connections and live behind their feature flags |
| NavTree.SectionIds | pkg/services/navtree/navtreeimpl/navtree.go:75-170 | All the sections are the top ones, the two admin nodes and help when it is enabled |
| NavTree.StarredSectionIff | pkg/services/navtree/navtreeimpl/navtree.go:77-92 | The starred section exists exactly when dashboards may be read |
| NavTree.DashboardsSectionIff | pkg/services/navtree/navtreeimpl/navtree.go:94-109 | The dashboards section exists exactly when dashboards may be read or created |
| NavTree.QueryLibrarySectionIff | pkg/services/navtree/navtreeimpl/navtree.go:111-121 | The query library section exists exactly when it is not disabled |
| NavTree.ProfileSectionIff | pkg/services/navtree/navtreeimpl/navtree.go:123-125 | The profile section exists exactly for signed-in users with profiles enabled |
| NavTree.ConnectionsSectionIff | pkg/services/navtree/navtreeimpl/navtree.go:127-129 | The connections section exists exactly when its feature flag is on |
| NavTree.LiveSectionIff | pkg/services/navtree/navtreeimpl/navtree.go:131-154 | The live section exists exactly when the live pipeline flag is on |
| NavTree.HelpSectionIff | pkg/services/navtree/navtreeimpl/navtree.go:170-227 | The help section exists exactly when help is enabled |
| NavTree.AdminSections | pkg/services/navtree/navtreeimpl/navtree.go:156-168 | The organisation and server admin sections are always present |
| NavTree.HomeFirst | pkg/services/navtree/navtreeimpl/navtree.go:75 | The home node comes first, and there are at least three sections |
| NavTree.BuildDashboardNodes | pkg/services/navtree/navtreeimpl/navtree.go:77-109 | The starred and dashboards nodes fail exactly when dashboards may be read and the star lookup fails |
| NavTree.BuildAdminNodes | pkg/services/navtree/navtreeimpl/navtree.go:156-168 | The admin nodes fail exactly when the API-key service fails, and are otherwise the `cfg` and `admin` nodes |
| NavTree.GetNavTree | pkg/services/navtree/navtreeimpl/navtree.go:71-177 | Each service error aborts the whole tree; otherwise the sections appear in the order above, followed by the app links |
| FieldDisplay.HasLinksIff | packages/grafana-data/src/field/fieldDisplay.ts:68-70 | A field has links exactly when its config has a non-empty links list |
| FieldDisplay.JsLength | packages/grafana-data/src/field/fieldDisplay.ts:84-97 | A string's `length` counts UTF-16 code units: at least its characters and at most twice as many |
| FieldDisplay.Longest | packages/grafana-data/src/field/fieldDisplay.ts:81-101 | Once a value is set for an attribute it stays set |
| FieldDisplay.LongestCountsCodeUnits | packages/grafana-data/src/field/fieldDisplay.ts:84-97 | Lengths are compared in UTF-16 code units: an emoji ties with "ab" (the earlier stays) and beats "a" |
| FieldDisplay.LongestBound | packages/grafana-data/src/field/fieldDisplay.ts:81-101 | The value kept for an attribute is at least as long as every value's attribute and as the starting one |
| FieldDisplay.LongestIsFirst | packages/grafana-data/src/field/fieldDisplay.ts:81-101 | A value that replaced the starting one is a truthy attribute of some value, and every earlier value's is strictly shorter |
| FieldDisplay.LongestTruthy | packages/grafana-data/src/field/fieldDisplay.ts:84-97 | Only truthy values are taken; unset and empty ones are skipped |
| FieldDisplay.AlignmentOfEmpty | packages/grafana-data/src/field/fieldDisplay.ts:73-79 | With no values the factors are empty texts and no prefix or suffix |
| FieldDisplay.AlignedText | packages/grafana-data/src/field/fieldDisplay.ts:84-86 | The text factor is at least as long as every text, and is the first text of its length |
| FieldDisplay.AlignedTitle | packages/grafana-data/src/field/fieldDisplay.ts:88-90 | The title factor is at least as long as every title, and is the first title of its length |
| FieldDisplay.AlignedPrefix | packages/grafana-data/src/field/fieldDisplay.ts:92-95 | The prefix is unset exactly when no value has a non-empty prefix; otherwise it is the first longest |
| FieldDisplay.AlignedSuffix | packages/grafana-data/src/field/fieldDisplay.ts:97-100 | The suffix is unset exactly when no value has a non-empty suffix; otherwise it is the first longest |
| FieldDisplay.GetDisplayValueAlignmentFactors | packages/grafana-data/src/field/fieldDisplay.ts:72-103 | The loop computes the alignment factors defined above |
| DatasourceOptions.Spread | packages/grafana-data/src/utils/datasource.ts:64-67 | Object spread with one key set yields an object |
| DatasourceOptions.SpreadGet | packages/grafana-data/src/utils/datasource.ts:64-67 | In `{...o, [k]: x}` the key k reads x and every other key reads what o had |
| DatasourceOptions.UpdateOptionChangesOnlyKey | packages/grafana-data/src/utils/datasource.ts:57-68 | Updating an option changes only that key, to the new value |
| DatasourceOptions.UpdateJsonDataOptionChangesOnlyKey | packages/grafana-data/src/utils/datasource.ts:70-84 | Only `jsonData[key]` changes; the rest of `jsonData` and of the settings is intact |
| DatasourceOptions.SecureJsonData | packages/grafana-data/src/utils/datasource.ts:95 | Missing secure data is taken as `{}` |
| DatasourceOptions.SecureJsonDataFromNothing | packages/grafana-data/src/utils/datasource.ts:86-100 | Without secure data, the update leaves secure data holding exactly the key |
| DatasourceOptions.UpdateSecureJsonDataOptionChangesOnlyKey | packages/grafana-data/src/utils/datasource.ts:86-100 | Only `secureJsonData[key]` changes; other secure keys and other options are intact |
| DatasourceOptions.ResetOptionClearsKey | packages/grafana-data/src/utils/datasource.ts:102-118 | A reset sets `secureJsonData[key]` to `''` and `secureJsonFields[key]` to false |
| DatasourceOptions.ResetOptionKeepsOthers | packages/grafana-data/src/utils/datasource.ts:102-118 | A reset leaves the other secure keys and the other stored flags untouched |
| DatasourceOptions.ResetOptionKeepsOtherOptions | packages/grafana-data/src/utils/datasource.ts:102-118 | A reset leaves every option other than the two secure ones untouched |
| DatasourceOptions.OnUpdateDatasourceOption | packages/grafana-data/src/utils/datasource.ts:9-13 | The input's value becomes the option, and no other option changes |
| DatasourceOptions.OnUpdateDatasourceJsonDataOption | packages/grafana-data/src/utils/datasource.ts:15-19 | The input's value goes into `jsonData[key]` |
| DatasourceOptions.OnUpdateDatasourceJsonDataOptionSelect | packages/grafana-data/src/utils/datasource.ts:30-34 | The chosen value goes into `jsonData[key]` |
| DatasourceOptions.OnUpdateDatasourceJsonDataOptionChecked | packages/grafana-data/src/utils/datasource.ts:36-40 | The checkbox state goes into `jsonData[key]` |
| DatasourceOptions.OnUpdateDatasourceSecureJsonDataOption | packages/grafana-data/src/utils/datasource.ts:21-28 | The input's value goes into `secureJsonData[key]` |
| DatasourceOptions.OnUpdateDatasourceSecureJsonDataOptionSelect | packages/grafana-data/src/utils/datasource.ts:42-49 | The chosen value goes into `secureJsonData[key]` |
| DatasourceOptions.OnUpdateDatasourceResetOption | packages/grafana-data/src/utils/datasource.ts:51-55 | A click resets the secret key: empty secure value and not stored |
| AppChrome.ChromelessFollowsRoute | public/app/core/components/AppChrome/AppChromeService.tsx:56-57 | After an update, the chrome always follows the current route |
| AppChrome.RouteChangeClears | public/app/core/components/AppChrome/AppChromeService.tsx:45-54 | After a route change, whatever the update does not set is cleared (actions, page nav) or reset (the section nav) |
| AppChrome.HandledKeeps | public/app/core/components/AppChrome/AppChromeService.tsx:39-62 | Once the route change is handled, whatever the update does not set stays as it was |
| AppChrome.UpdateIdempotent | public/app/core/components/AppChrome/AppChromeService.tsx:39-62 | Applying the same update again, with the route change handled, yields the same state |
| AppChrome.AppChromeService.constructor | public/app/core/components/AppChrome/AppChromeService.tsx:21-30 | The service starts chromeless, in the default section, with the search bar as stored |
| AppChrome.AppChromeService.SetMatchedRoute | public/app/core/components/AppChrome/AppChromeService.tsx:32-37 | A different route becomes current and re-arms the reset; the same route changes nothing |
| AppChrome.AppChromeService.Update | public/app/core/components/AppChrome/AppChromeService.tsx:39-62 | The new state is the update applied to the current one, and it is emitted exactly when it differs |
| AppChrome.AppChromeService.OnToggleMegaMenu | public/app/core/components/AppChrome/AppChromeService.tsx:69-71 | The mega menu flag is flipped by way of an update |
| AppChrome.AppChromeService.SetMegaMenu | public/app/core/components/AppChrome/AppChromeService.tsx:73-75 | The mega menu flag is set by way of an update |
| AppChrome.AppChromeService.OnToggleSearchBar | public/app/core/components/AppChrome/AppChromeService.tsx:77-81 | The search bar flag is flipped and the new value is stored |
| AppChrome.ToggleTwice | public/app/core/components/AppChrome/AppChromeService.tsx:69-71 | A mega menu toggled twice is back where it was, read as a flag |
| ContextService.HasPermissionInMetadata | public/app/core/services/context_srv.ts:116-118 | An object grants an action exactly when its own access-control record holds it as true |
| ContextService.AnyPermitted | public/app/core/services/context_srv.ts:155 | `actions.some(hasPermission)` holds exactly when some action is permitted |
| ContextService.NothingToGrant | public/app/core/services/context_srv.ts:153-161 | An empty list of actions is never granted |
| ContextService.IsAllowedInterval | public/app/core/services/context_srv.ts:130-135 | Without a configured minimum every interval is allowed; otherwise an interval is allowed when it is at least as long, and an unparseable interval throws |
| ContextService.GetValidInterval | public/app/core/services/context_srv.ts:137-142 | The valid interval is the interval itself when it is allowed, and otherwise the configured minimum |
| ContextService.ValidIntervalIsAllowed | public/app/core/services/context_srv.ts:130-142 | The valid interval is never shorter than the configured minimum |
| ContextService.GetValidIntervalIdempotent | public/app/core/services/context_srv.ts:137-142 | Making an interval valid twice is making it valid once |
| ContextService.User.constructor | public/app/core/services/context_srv.ts:32-56 | A user gets the defaults, overwritten by whatever the boot data sends |
| ContextService.ContextSrv.constructor | public/app/core/services/context_srv.ts:70-81 | The service copies the user's flags, and is an editor exactly when the org role is Editor or Admin |
| ContextService.ContextSrv.FetchUserPermissions | public/app/core/services/context_srv.ts:83-91 | The permissions the backend sends replace the user's, and a failed request changes nothing |
| ContextService.ContextSrv.SetLoggedOut | public/app/core/services/context_srv.ts:96-99 | Both signed-in flags drop and nothing else changes |
| ContextService.ContextSrv.HasRole | public/app/core/services/context_srv.ts:101-107 | `ServerAdmin` means the service's admin flag; any other role must be the user's org role |
| ContextService.ContextSrv.HasPermission | public/app/core/services/context_srv.ts:121-146 | A permission is held exactly when the user's permissions hold it as true |
| ContextService.ContextSrv.EvaluatePermission | public/app/core/services/context_srv.ts:153-161 | No rejection when some action is permitted; otherwise the single `Reject` marker |
| Keybindings.PartialQuery | public/app/core/services/keybindingSrv.ts:88-115 | `locationService.partial(query)` removes the keys the query sets to null or undefined, sets its other keys, and keeps the rest of the search |
| Keybindings.LocationService.constructor | public/app/core/services/keybindingSrv.ts:25 | The location starts at the given path and search |
| Keybindings.LocationService.Partial | public/app/core/services/keybindingSrv.ts:88-131 | A partial update changes the search as defined above and keeps the path |
| Keybindings.LocationService.Push | public/app/core/services/keybindingSrv.ts:95-97 | Pushing a path goes there with an empty search |
| Keybindings.AppEvents.constructor | public/app/core/services/keybindingSrv.ts:104 | Nothing has been published yet |
| Keybindings.AppEvents.Publish | public/app/core/services/keybindingSrv.ts:104-108 | Publishing appends the event |
| Keybindings.NoNavigationOnLogin | public/app/core/services/keybindingSrv.ts:30-39 | On the login page no navigation key is bound |
| Keybindings.NavigationOffLogin | public/app/core/services/keybindingSrv.ts:30-38 | Off the login page the navigation keys are bound to help, home, profile, search, absolute time and exit |
| Keybindings.EscIsGlobal | public/app/core/services/keybindingSrv.ts:37-51 | `esc` is bound twice, and the global binding is the one that stays |
| Keybindings.ThemeKeysAlways | public/app/core/services/keybindingSrv.ts:41-46 | The theme keys are bound everywhere, and the navigation toggle only in development |
| Keybindings.GlobalKeysOnly | public/app/core/services/keybindingSrv.ts:27-47 | Only the navigation, theme and toggle keys are bound |
| Keybindings.DashboardKeysBound | public/app/core/services/keybindingSrv.ts:197-271 | The dashboard keys are bound to the dashboard handlers, and every other key keeps its binding |
| Keybindings.ExitClearsFirstSet | public/app/core/services/keybindingSrv.ts:111-137 | `exit` closes exactly the first open view of the cascade (settings, inspector, editor, view, search) and nothing else |
| Keybindings.ExitWithNothingOpen | public/app/core/services/keybindingSrv.ts:111-137 | With no view open, `exit` leaves the location alone |
| Keybindings.ToggledFlips | public/app/core/services/keybindingSrv.ts:215-224 | The toggle opens the panel when the key is absent and removes the key otherwise; other keys are unchanged |
| Keybindings.ToggledTwice | public/app/core/services/keybindingSrv.ts:215-224 | Toggling twice from closed is back where it started |
| Keybindings.ToggledLegendChangesOnlyShowLegend | public/app/core/services/keybindingSrv.ts:228-235 | Only `legend.showLegend` changes, to the negation of its truthiness |
| Keybindings.ToggledLegendNeedsLegend | public/app/core/services/keybindingSrv.ts:230-232 | Options without a legend object make `p l` throw |
| Keybindings.IndexById | public/app/core/services/keybindingSrv.ts:251 | The index is the first panel's with that id, or none when no panel has it |
| Keybindings.AutofitHref | public/app/core/services/keybindingSrv.ts:265-270 | The reload URL gets `&autofitpanels` appended unless the flag is already set |
| Keybindings.KeybindingSrv.constructor | public/app/core/services/keybindingSrv.ts:24-25 | The service keeps its location service and starts with nothing bound |
| Keybindings.KeybindingSrv.Bind | public/app/core/services/keybindingSrv.ts:145-156 | Every key of the list is bound to the action |
| Keybindings.KeybindingSrv.BindGlobal | public/app/core/services/keybindingSrv.ts:158-169 | The key is bound to the action, also inside text inputs |
| Keybindings.KeybindingSrv.ClearAndInitGlobalBindings | public/app/core/services/keybindingSrv.ts:27-47 | Everything is unbound, then the global bindings defined above are made; `esc` is global off the login page |
| Keybindings.KeybindingSrv.OnExit | public/app/core/services/keybindingSrv.ts:111-137 | The search becomes its exit state and the path is unchanged |
| Keybindings.KeybindingSrv.OnGlobalEsc | public/app/core/services/keybindingSrv.ts:53-77 | An open typeahead keeps the key; a focused input is blurred; otherwise the search exits |
| Keybindings.KeybindingSrv.OnOpenSearch | public/app/core/services/keybindingSrv.ts:87-89 | The search parameter becomes `open` |
| Keybindings.KeybindingSrv.OnGoToHome | public/app/core/services/keybindingSrv.ts:95-97 | The location becomes `/` |
| Keybindings.KeybindingSrv.OnGoToProfile | public/app/core/services/keybindingSrv.ts:99-101 | The location becomes `/profile` |
| Keybindings.KeybindingSrv.OnMakeAbsoluteTime | public/app/core/services/keybindingSrv.ts:103-105 | An absolute-time event is published |
| Keybindings.KeybindingSrv.OnShowHelp | public/app/core/services/keybindingSrv.ts:107-109 | The help modal event is published |
| Keybindings.KeybindingSrv.SetupTimeRangeBindings | public/app/core/services/keybindingSrv.ts:179-195 | The zoom-out and shift keys are bound, remembering `updateUrl` |
| Keybindings.KeybindingSrv.OnTimeRangeKey | public/app/core/services/keybindingSrv.ts:180-194 | Zooming out publishes a zoom by 2; a shift publishes its direction, both with `updateUrl` |
| Keybindings.KeybindingSrv.SetupDashboardBindings | public/app/core/services/keybindingSrv.ts:197-271 | The dashboard keys are bound, including the time-range keys with `updateUrl` |
| Keybindings.KeybindingSrv.OnSave | public/app/core/services/keybindingSrv.ts:198-209 | The save drawer opens exactly when the dashboard may be saved |
| Keybindings.KeybindingSrv.OnEditPanel | public/app/core/services/keybindingSrv.ts:214-219 | The panel editor is toggled for an editable panel; otherwise nothing changes |
| Keybindings.KeybindingSrv.OnViewPanel | public/app/core/services/keybindingSrv.ts:222-225 | Viewing the panel is toggled |
| Keybindings.KeybindingSrv.OnInspect | public/app/core/services/keybindingSrv.ts:237-239 | The inspector opens on the panel |
| Keybindings.KeybindingSrv.OnToggleLegend | public/app/core/services/keybindingSrv.ts:228-235 | A missing panel throws; otherwise the legend is flipped and the options are handed to `updateOptions` once |
| Keybindings.KeybindingSrv.OnRemovePanel | public/app/core/services/keybindingSrv.ts:242-246 | Removal is asked for an editable panel exactly when no panel is in view or in edit |
| Keybindings.KeybindingSrv.OnDuplicatePanel | public/app/core/services/keybindingSrv.ts:249-254 | An editable panel is duplicated by its index; a panel that is only the panel in edit has no index and throws; otherwise nothing changes |
| Keybindings.KeybindingSrv.OnNewDashboard | public/app/core/services/keybindingSrv.ts:256-258 | The location becomes `/dashboard/new` |
| Keybindings.KeybindingSrv.OnDashboardSettings | public/app/core/services/keybindingSrv.ts:139-143 | The settings edit view opens (bound to `d s` at keybindingSrv.ts:260-262) |
| Keybindings.KeybindingSrv.OnAutofit | public/app/core/services/keybindingSrv.ts:265-270 | The page reloads at the autofit URL defined above |
| PanelMenu.Clicks | public/app/features/dashboard/utils/getPanelMenu.ts:74-194 | the actions of a menu, one per entry and in the entries' order |
| PanelMenu.MoreWhileEditing | public/app/features/dashboard/utils/getPanelMenu.ts:160-170 | while the panel is edited the "More..." submenu is emptied, so it holds at most "Get help", and that only for an editable panel with a plugin |
| PanelMenu.LibraryAction | public/app/features/dashboard/utils/getPanelMenu.ts:147-157 | for an editable panel neither viewed nor edited, the third "More..." entry unlinks a library panel and creates a library panel from any other |
| PanelMenu.ViewUnlessEditing | public/app/features/dashboard/utils/getPanelMenu.ts:76-84 | "View" is offered exactly when the panel is not being edited |
| PanelMenu.EditWhenEditable | public/app/features/dashboard/utils/getPanelMenu.ts:86-93 | "Edit" is offered exactly when the dashboard may edit the panel and it is not being edited |
| PanelMenu.InspectAlways | public/app/features/dashboard/utils/getPanelMenu.ts:121-130 | "Inspect" (with no tab) is offered on every menu |
| PanelMenu.MoreWhenNonEmpty | public/app/features/dashboard/utils/getPanelMenu.ts:172-181 | "More..." is offered exactly when its submenu has an entry |
| PanelMenu.RemoveLast | public/app/features/dashboard/utils/getPanelMenu.ts:183-192 | "Remove" is offered exactly when the panel is editable and neither edited nor viewed, and then it is the last entry, right after a divider |
| PanelMenu.InspectSubmenu | public/app/features/dashboard/utils/getPanelMenu.ts:95-119 | the inspect submenu ends with "Panel JSON"; it has "Data" exactly when the panel has a plugin and "Query" exactly when it also sits on an editable dashboard |
| PanelMenu.ClicksConcat | public/app/features/dashboard/utils/getPanelMenu.ts:74-194 | the actions of two menus joined are the actions of each, joined |
| PanelMenu.Pushed | public/app/features/dashboard/utils/getPanelMenu.ts:78-191 | pushing a well-formed entry keeps the menu well formed (submenus only on submenu entries, holding the inspect and "More..." actions) and appends exactly that entry's action |
| PanelMenu.GetPanelMenu | public/app/features/dashboard/utils/getPanelMenu.ts:16-195 | `getPanelMenu`: the menu's actions are exactly the specified sequence (view, edit, inspect, more, divider and remove under their conditions), the menu is well formed and its submenus hold the specified inspect and "More..." actions |
| PanelMenu.PanelMenuHead | public/app/features/dashboard/utils/getPanelMenu.ts:74-130 | the first pushes: "View" unless editing, "Edit" when editable and not editing, then "Inspect", with the inspect submenu attached |
| PanelMenu.InspectSubmenuOf | public/app/features/dashboard/utils/getPanelMenu.ts:95-119 | the inspect submenu's pushes yield exactly the specified inspect actions |
| PanelMenu.MoreSubmenuOf | public/app/features/dashboard/utils/getPanelMenu.ts:132-170 | the "More..." pushes and their truncation while editing yield exactly the specified "More..." actions |
| PanelMenu.ClickQuery | public/app/features/dashboard/utils/getPanelMenu.ts:20-53 | view, edit and inspect clicks send a location query and no other click does; an inspect click always sets `inspectTab`, to a nullish value exactly when no tab was named |
| InspectTabs.FirstThree | public/app/features/dashboard/components/Inspector/hooks.ts:19-23 | Data, Stats and JSON are always the first three tabs, in that order |
| InspectTabs.ErrorTab | public/app/features/dashboard/components/Inspector/hooks.ts:25-27 | the Error tab is offered exactly when there is an error with a non-empty message |
| InspectTabs.ActionsTab | public/app/features/dashboard/components/Inspector/hooks.ts:29-37 | the Actions tab is offered exactly when an action supplier is installed and returns a non-empty list of actions |
| InspectTabs.QueryTabLast | public/app/features/dashboard/components/Inspector/hooks.ts:39-41 | the Query tab is offered exactly when the dashboard is editable, and then it is last |
| InspectTabs.TabsDistinct | public/app/features/dashboard/components/Inspector/hooks.ts:19-42 | no tab is offered twice, and the Help tab is never offered |
| InspectTabs.UseInspectTabs | public/app/features/dashboard/components/Inspector/hooks.ts:13-44 | `useInspectTabs`: the tab options are those of the specified tab sequence, each labelled |
| InspectTabs.OptionsPush | public/app/features/dashboard/components/Inspector/hooks.ts:19-42 | pushing a tab appends exactly one labelled option for it |
| PanelEditorTabs.IdValueInjective | public/app/features/dashboard/components/PanelEditor/state/selectors.ts:14-41 | distinct panel editor tab ids have distinct values |
| PanelEditorTabs.Find | public/app/features/dashboard/components/PanelEditor/state/selectors.ts:43 | `tabs.find` by id: the first tab with that id, or none exactly when no tab has it |
| PanelEditorTabs.FoundAt | public/app/features/dashboard/components/PanelEditor/state/selectors.ts:43 | a tab with that id preceded by none gives the found index; none at all gives none |
| PanelEditorTabs.DefaultIsWorkflow | public/app/features/dashboard/components/PanelEditor/state/selectors.ts:14-43 | without a requested tab (undefined or empty) the Workflow tab is the active one |
| PanelEditorTabs.RequestedIsActive | public/app/features/dashboard/components/PanelEditor/state/selectors.ts:43-44 | a requested id that names a tab makes that tab the active one |
| PanelEditorTabs.UnknownIsFirst | public/app/features/dashboard/components/PanelEditor/state/selectors.ts:43 | a requested id naming no tab falls back to the first tab |
| PanelEditorTabs.ActivateOne | public/app/features/dashboard/components/PanelEditor/state/selectors.ts:44 | setting `active` on one tab of a list with none active yields the activated list |
| PanelEditorTabs.ExactlyOneActive | public/app/features/dashboard/components/PanelEditor/state/selectors.ts:43-46 | after activation exactly the chosen tab is active and the tabs are otherwise unchanged |
| PanelEditorTabs.NoneActiveYet | public/app/features/dashboard/components/PanelEditor/state/selectors.ts:15-41 | every tab is pushed inactive |
| PanelEditorTabs.ActiveIndexInRange | public/app/features/dashboard/components/PanelEditor/state/selectors.ts:43 | the active tab is always one of the four pushed |
| PanelEditorTabs.GetPanelEditorTabs | public/app/features/dashboard/components/PanelEditor/state/selectors.ts:7-47 | `getPanelEditorTabs`: no tabs without a plugin; otherwise Panels, Theme, Functions and Workflow with exactly the requested (or default, or first) tab active |
| PanelEditorState.Merged | public/app/features/dashboard/components/PanelEditor/state/reducers.ts:86 | spreading a partial layout over the layout: each of `rightPaneSize`, `topPaneSize` and `mode` is the patch's where the patch sets it and the old one where it does not |
| PanelEditorState.MergeNothing | public/app/features/dashboard/components/PanelEditor/state/reducers.ts:85-87 | an empty partial layout leaves the layout as it was |
| PanelEditorState.MergeIdempotent | public/app/features/dashboard/components/PanelEditor/state/reducers.ts:85-87 | applying the same partial layout twice is applying it once |
| PanelEditorState.MergeWhole | public/app/features/dashboard/components/PanelEditor/state/reducers.ts:56-87 | a patch that sets every key replaces the whole layout |
| PanelEditorState.PanelEditor.constructor | public/app/features/dashboard/components/PanelEditor/state/reducers.ts:11-61 | `initialState()`: not initialised, closed and not discarding; the layout is the stored one spread over the default (800, 0.45, fill); placeholder panels and no data |
| PanelEditorState.PanelEditor.UpdateEditorInitState | public/app/features/dashboard/components/PanelEditor/state/reducers.ts:72-78 | the editor holds the given panel and source panel, is initialised and open and keeps its changes; data and layout are unchanged |
| PanelEditorState.PanelEditor.SetEditorPanelData | public/app/features/dashboard/components/PanelEditor/state/reducers.ts:79-81 | only the panel data changes, to the payload |
| PanelEditorState.PanelEditor.SetDiscardChanges | public/app/features/dashboard/components/PanelEditor/state/reducers.ts:82-84 | only the discard flag changes, to the payload |
| PanelEditorState.PanelEditor.SetPanelEditorUIState | public/app/features/dashboard/components/PanelEditor/state/reducers.ts:85-87 | only the layout changes: to the old layout with the patch spread over it |
| PanelEditorState.PanelEditor.CloseEditor | public/app/features/dashboard/components/PanelEditor/state/reducers.ts:88-91 | the editor is closed and no longer initialised; layout, panels, data and discard flag are unchanged |
| OptionOverrides.SetsProperty | public/app/features/dashboard/components/PanelEditor/state/getOptionOverrides.ts:16 | a rule sets the option exactly when one of its properties has the option's id |
| OptionOverrides.AnyId | public/app/features/dashboard/components/PanelEditor/state/getOptionOverrides.ts:16 | `properties.some` by id: true exactly when some property has the id |
| OptionOverrides.OverrideRuleFound | public/app/features/dashboard/components/PanelEditor/state/getOptionOverrides.ts:15-17 | true exactly when some override rule sets the option |
| OptionOverrides.NoRulesNoOverride | public/app/features/dashboard/components/PanelEditor/state/getOptionOverrides.ts:15-17 | without override rules no rule is found |
| OptionOverrides.GetOptionOverrides | public/app/features/dashboard/components/PanelEditor/state/getOptionOverrides.ts:9-28 | `getOptionOverrides`: at most one marker; one exactly when some rule has a property with the option's id; the marker is of type "rule" with the rule tooltip as both description and tooltip |
| DashboardSettings.GeneralIffEditable | public/app/features/dashboard/components/DashboardSettings/DashboardSettings.tsx:77-84 | the General page is offered exactly when the dashboard is editable |
| DashboardSettings.VersionsIffSavable | public/app/features/dashboard/components/DashboardSettings/DashboardSettings.tsx:86-93 | the Versions page is offered exactly when the dashboard has an id and may be saved |
| DashboardSettings.PermissionsIffAdministrable | public/app/features/dashboard/components/DashboardSettings/DashboardSettings.tsx:95-103 | the Permissions page is offered exactly when the dashboard has an id and may be administered |
| DashboardSettings.JsonModelLast | public/app/features/dashboard/components/DashboardSettings/DashboardSettings.tsx:105-110 | the JSON Model page is always offered, last and only once |
| DashboardSettings.PageIdsDistinct | public/app/features/dashboard/components/DashboardSettings/DashboardSettings.tsx:74-113 | the offered pages have distinct ids, so `editview` names at most one |
| DashboardSettings.GetSettingsPages | public/app/features/dashboard/components/DashboardSettings/DashboardSettings.tsx:74-113 | `getSettingsPages`: the pages are exactly the specified ones for the truthiness of `canEdit`, the id, `canSave` and `canAdmin` |
| DashboardSettings.FindPage | public/app/features/dashboard/components/DashboardSettings/DashboardSettings.tsx:38 | `pages.find` by id: the first page with that id, or none exactly when none has it |
| DashboardSettings.CurrentPage | public/app/features/dashboard/components/DashboardSettings/DashboardSettings.tsx:38 | the current page is one of the pages: the one `editview` names, else the first |
| DashboardSettings.Reparented | public/app/features/dashboard/components/DashboardSettings/DashboardSettings.tsx:139-152 | the page navigation keeps its text, id, url and children and hangs under the section's node, directly or through its own parent |
| DashboardSettings.FirstActive | public/app/features/dashboard/components/DashboardSettings/DashboardSettings.tsx:158 | `children.find(x => x.active)`: the first active child, or none exactly when none is active |
| DashboardSettings.GetSectionNav | public/app/features/dashboard/components/DashboardSettings/DashboardSettings.tsx:115-160 | `getSectionNav`: a "Settings" item (icon apps, hidden from breadcrumbs) with one child per page, exactly the current one active, the re-parented page navigation as its parent, and the current child as the node |
| DashboardSettings.GetEditIndex | public/app/features/dashboard/components/DashboardSettings/DashboardSettings.tsx:162-168 | `getEditIndex`: undefined exactly when the query has no `editIndex` |
| DashboardSettings.EditIndexRoundTrip | public/app/features/dashboard/components/DashboardSettings/DashboardSettings.tsx:162-168 | an index written into the query as a decimal number is read back as that index |
| DashboardSettings.OnPostSave | public/app/features/dashboard/components/DashboardSettings/DashboardSettings.tsx:33-35 | `onPostSave`: the meta's `hasUnsavedFolderChange` becomes false and nothing else of the dashboard changes |
| PublicDashboardPage.CleanState | public/app/features/dashboard/containers/PublicDashboardPage.tsx:84-92 | `getCleanState()`: no panel in edit or view, no loading, not-found or access-denied flag, no scroll position and no navigation yet |
| PublicDashboardPage.EnteringEdit | public/app/features/dashboard/containers/PublicDashboardPage.tsx:184-197 | entering edit with a URL id: the panel in edit, with the scroll position remembered, when it is found and editable; access denied when it is found but not editable; not found when it is missing |
| PublicDashboardPage.LeavingEdit | public/app/features/dashboard/containers/PublicDashboardPage.tsx:198-202 | leaving edit: no panel in edit, and the remembered scroll position is restored |
| PublicDashboardPage.EnteringAndLeavingView | public/app/features/dashboard/containers/PublicDashboardPage.tsx:204-225 | entering view: the found panel in view, the scroll position remembered and the page scrolled to the top; leaving view: no panel in view and the remembered position restored |
| PublicDashboardPage.FlagsCleared | public/app/features/dashboard/containers/PublicDashboardPage.tsx:227-231 | a not-found flag, or an access denial once the URL drops the edit id, is cleared by the next derivation |
| PublicDashboardPage.Settled | public/app/features/dashboard/containers/PublicDashboardPage.tsx:172-231 | when the URL asks for no change of edit or view and no flag is raised, the derived state is the state given |
| PublicDashboardPage.UpdatePageNav | public/app/features/dashboard/containers/PublicDashboardPage.tsx:259-320 | `updateStatePageNavFromProps`: without a dashboard the same state; else the state with the page navigation rebuilt (title, folder, panel mode) and the route's section navigation |
| PublicDashboardPage.PanelModeNav | public/app/features/dashboard/containers/PublicDashboardPage.tsx:302-313 | in edit or view the page navigation reads "Edit panel" or "View panel", has no url, sits below the dashboard's item and is a new object each time |
| PublicDashboardPage.SameWhenUnchanged | public/app/features/dashboard/containers/PublicDashboardPage.tsx:266-313 | outside a panel, the same state object is returned exactly when neither the page navigation nor the section navigation changed |
| PublicDashboardPage.NavSettles | public/app/features/dashboard/containers/PublicDashboardPage.tsx:266-313 | deriving the navigation twice with the same inputs: the second derivation returns the same state object |
| PublicDashboardPage.GetDerivedStateFromProps | public/app/features/dashboard/containers/PublicDashboardPage.tsx:172-234 | `getDerivedStateFromProps`: the state itself without a dashboard; else the page navigation update of the state the URL's edit and view ids ask for, with the viewed panel marked in the dashboard |
| PublicDashboardPage.DeriveEdit | public/app/features/dashboard/containers/PublicDashboardPage.tsx:184-202 | the edit step: the state the URL's edit id asks for, from the panel it names and whether the dashboard may edit that panel |
| PublicDashboardPage.DeriveView | public/app/features/dashboard/containers/PublicDashboardPage.tsx:204-225 | the view step: the state the URL's view id asks for; the found panel is marked as viewed in the dashboard on entering, and unmarked on leaving |
| Query.IndexOfFrom | public/app/core/utils/query.ts:2 | `indexOf` from a position: the first occurrence at or after it, and -1 exactly when there is none |
| Query.IndexOf | public/app/core/utils/query.ts:2 | `indexOf`: -1 exactly when the text does not occur; otherwise the first place it occurs |
| Query.IsDataQuery | public/app/core/utils/query.ts:1-7 | `isDataQuery`: true exactly when the URL contains `api/datasources/proxy` or `api/ds/query` |
| Query.ContainsAppended | public/app/core/utils/query.ts:2 | what occurs in a URL still occurs after anything is appended to it |
| Query.DataQueryAppended | public/app/core/utils/query.ts:1-7 | appending to a data query URL (a query string, say) keeps it a data query |
| Query.IsLocalUrl | public/app/core/utils/query.ts:9-11 | `isLocalUrl`: true exactly when the URL does not start with "http" |
| Query.Schemes | public/app/core/utils/query.ts:9-11 | http and https URLs are not local; a path starting with "/" is |
| Query.OnlyPrefixMatters | public/app/core/utils/query.ts:9-11 | only the first four characters decide: "http" later in the URL is ignored |
| Routes.FindById | public/app/routes/utils.ts:6-7 | `find` by id: the first link with the id, or none exactly when no link has it |
| Routes.SomeRootPage | public/app/routes/utils.ts:8 | `some`: true exactly when some page's url ends with `/a/<pluginId>` |
| Routes.PluginHasRootPage | public/app/routes/utils.ts:3-10 | `pluginHasRootPage`: true exactly when the apps node has the plugin's node with children, one of which has a url ending in `/a/<pluginId>` |
| Routes.NoAppsNoRootPage | public/app/routes/utils.ts:6 | without an apps node no plugin has a root page |
| Routes.NoChildrenNoRootPage | public/app/routes/utils.ts:7-8 | without children under the apps node, or under the plugin's node, there is no root page |
| Routes.UndefinedUrlsNeverMatch | public/app/routes/utils.ts:8 | pages without a url never count as the root page |
| Routes.RootPageFound | public/app/routes/utils.ts:3-10 | a tree whose first apps node lists the plugin's node with a root page has a root page |
| InitDashboard.GetNewDashboardModelData | public/app/features/dashboard/state/initDashboard.ts:209-237 | `getNewDashboardModelData`: a new dashboard has exactly one panel |
| InitDashboard.TheOnePanel | public/app/features/dashboard/state/initDashboard.ts:222-228 | the panel has the requested type when one is given (an empty one is kept, as `??` does), else "add-panel"; it is 12 by 9 at the origin and titled "Panel Title" |
| InitDashboard.NewAndUnsaved | public/app/features/dashboard/state/initDashboard.ts:213-221 | the new dashboard is titled "New dashboard", cannot be starred or deleted and is marked new |
| InitDashboard.FolderFromUrl | public/app/features/dashboard/state/initDashboard.ts:218-234 | the folder is the URL's when it names a non-empty one, else the root; the folder never touches the dashboard |
| Teams.GetTeam | public/app/features/teams/state/selectors.ts:7-13 | `getTeam`: the loaded team exactly when its id is `parseInt(currentTeamId, 10)`, else null |
| Teams.GetTeamOwnId | public/app/features/teams/state/selectors.ts:7-13 | the team's own id, written as a decimal number, selects it |
| Teams.GetTeamOtherId | public/app/features/teams/state/selectors.ts:7-13 | any other id, written as a decimal number, selects nothing |
| Teams.AdminsAlwaysPass | public/app/features/teams/state/selectors.ts:43-50 | A Grafana admin or an organisation admin passes `isPermissionTeamAdmin` whatever their team permission and the editorsCanAdmin setting |
| Teams.TeamAdminPasses | public/app/features/teams/state/selectors.ts:43-50 | A team member holding the Admin permission passes |
| Teams.OthersRefusedWhenEditorsCanAdmin | public/app/features/teams/state/selectors.ts:43-50 | When editors may administer teams, a user who is no admin of any kind and lacks the Admin team permission is refused |
| Teams.EveryoneWithoutEditorsCanAdmin | public/app/features/teams/state/selectors.ts:49 | when `editorsCanAdmin` is off everyone passes |
| Teams.FindMember | public/app/features/teams/state/selectors.ts:31 | `members.find` by user id: the first membership of the user, or none exactly when they are not a member |
| Teams.IsSignedInUserTeamAdmin | public/app/features/teams/state/selectors.ts:29-35 | `isSignedInUserTeamAdmin`: the admin check on the user's first membership's permission, or on Member when they are not a member |
| Teams.NonMemberIsMember | public/app/features/teams/state/selectors.ts:31-34 | a non-member passes exactly when they are a Grafana or organisation admin, or `editorsCanAdmin` is off |
| Teams.TeamAdminMember | public/app/features/teams/state/selectors.ts:31-49 | a user whose first membership has the Admin permission passes |
| Profile.GroupsSplit | public/app/features/profile/state/reducers.ts:63 | the active and the inactive sessions together are exactly the sessions given |
| Profile.GroupsAreActiveAndInactive | public/app/features/profile/state/reducers.ts:63 | the active group holds only active sessions and the inactive group only inactive ones |
| Profile.ActiveFirstPermutes | public/app/features/profile/state/reducers.ts:63 | sorting active first is a permutation of the loaded sessions, so their number is kept |
| Profile.ActiveBeforeInactive | public/app/features/profile/state/reducers.ts:63 | after the sort no inactive session comes before an active one |
| Profile.ActivesOfGroups | public/app/features/profile/state/reducers.ts:63 | grouping distributes over joining session lists |
| Profile.ActivesIdempotent | public/app/features/profile/state/reducers.ts:63 | grouping the active (or inactive) sessions again changes nothing, and leaves the other group empty |
| Profile.ActiveFirstStable | public/app/features/profile/state/reducers.ts:63 | the sort is stable: within each group the sessions keep their loaded order |
| Profile.Displayed | public/app/features/profile/state/reducers.ts:64-75 | every session kept in place, with `seenAt` formatted relative to now and every other field unchanged |
| Profile.Revoked | public/app/features/profile/state/reducers.ts:79-81 | no kept session has the revoked id, every session without it is kept, nothing new appears and the list does not grow |
| Profile.RevokeUnknown | public/app/features/profile/state/reducers.ts:79-81 | revoking an id no session has changes nothing |
| Profile.RevokeIdempotent | public/app/features/profile/state/reducers.ts:79-81 | revoking the same id twice is revoking it once |
| Profile.UserSlice.constructor | public/app/features/profile/state/reducers.ts:21-33 | `initialUserState`: the boot user's organisation, time zone and week start, no user, teams, organisations or sessions, nothing loading or updating |
| Profile.UserSlice.SetUpdating | public/app/features/profile/state/reducers.ts:39-41 | only `isUpdating` changes, to the payload |
| Profile.UserSlice.UserLoaded | public/app/features/profile/state/reducers.ts:42-44 | only the user changes, to the loaded one |
| Profile.UserSlice.InitLoadTeams | public/app/features/profile/state/reducers.ts:45-47 | only `teamsAreLoading` changes, to true |
| Profile.UserSlice.TeamsLoaded | public/app/features/profile/state/reducers.ts:48-51 | the teams loaded, and teams no longer loading; nothing else changes |
| Profile.UserSlice.InitLoadOrgs | public/app/features/profile/state/reducers.ts:52-54 | only `orgsAreLoading` changes, to true |
| Profile.UserSlice.OrgsLoaded | public/app/features/profile/state/reducers.ts:55-58 | the organisations loaded, and organisations no longer loading; nothing else changes |
| Profile.UserSlice.InitLoadSessions | public/app/features/profile/state/reducers.ts:59-61 | only `sessionsAreLoading` changes, to true |
| Profile.UserSlice.SessionsLoaded | public/app/features/profile/state/reducers.ts:62-77 | the sessions become the loaded ones sorted active first and formatted for display, and sessions no longer loading; nothing else changes |
| Profile.UserSlice.UserSessionRevoked | public/app/features/profile/state/reducers.ts:78-83 | the sessions lose the revoked one and the update is over; nothing else changes |
| PluginsAdmin.InitialState | public/app/features/plugins/admin/state/reducer.ts:11-27 | `initialState`: no catalogue entries or requests, display mode "grid", no plugins, errors, dashboards or panels, an empty search, not fetched and not loading |
| PluginsAdmin.PluginsSlice.constructor | public/app/features/plugins/admin/state/reducer.ts:11-27 | the slice starts from `initialState` |
| PluginsAdmin.PluginsSlice.PanelPluginLoaded | public/app/features/plugins/admin/state/reducer.ts:37-39 | only the panels change: afterwards the loaded plugin is found under its `meta.id`, every other panel is as it was, and the ids gain only that one |
| PluginsAdmin.PluginsSlice.LoadPluginDashboardsPending | public/app/features/plugins/admin/state/reducer.ts:42-45 | loading the plugin's dashboards, with none yet; nothing else changes |
| PluginsAdmin.PluginsSlice.LoadPluginDashboardsFulfilled | public/app/features/plugins/admin/state/reducer.ts:48-52 | the dashboards loaded and loading over; nothing else changes |

## Left out

- Rendering: JSX, theming, translation (`t(...)` labels are the untranslated defaults) and icons are not modelled; in the navigation tree this includes `Icon`, `ShowIconInNavbar` and `IsCreateAction`. The panel menu, the tab lists and the settings pages are identified by what they do or by their ids.
- Concurrency and observables: the rxjs pipeline of `runRequest` beyond the request without targets, the stream manager's goroutines and tickers, and `EventBusSrv` subscriptions. The event bus is an append-only log of published payloads with a subscription count.
- I/O: local storage, the URL and history, `config.bootData`, the clock, the settings database, the plugin store and the access-control services are parameters of the operations that read them. Examples are how the stored panel editor layout, the boot user, `now`, `dateTimeFormatTimeAgo`, `rangeUtil.intervalToMs`, `locationUtil.getUrlForPartial`, the wildcard scopes and the role filter reach the model.
- `console.log` calls in the workflow runner are not modelled.
- WorkflowRunner.PanelWorkflowRunner.Start: the `while (!terminate)` loop of the source need not terminate (a cycle of transitions). The model runs at most `fuel` states and then reports `OutOfFuel`, so a run that goes on forever is not told apart from one longer than the bound.
- The Serverless Workflow SDK's validator and its `Specification` classes are not modelled. The runner reads a workflow already typed into state objects. A string the runner only tests for truthiness stands for both absent and empty.
- Floating point: numbers are integers throughout. This affects `JSON.parse` (a fraction or an exponent is a syntax error in the model), `Math.pow` in `getDelay` (exact for the counts where it matters), NaN (modelled as `parseInt` giving none) and `DashboardModel.autoFitPanels`.
- Dashboard.DashboardModel.constructor: `updateSchema(data)` (DashboardModel.ts:114), which runs the `DashboardMigrator` over dashboards with an older `schemaVersion`, is not modelled; the DashboardMigrator is not part of this model, so the panels are taken as already at the current schema. The scalar fields the constructor copies (`id`, `uid`, `title`, `tags`, `templating` and so on) are not modelled either: no modelled operation reads them.
- Lookups ignore inherited names: a JavaScript object lookup such as `name in statesByName` or `this.data[name]` (PanelWorkflowRunner.ts:106-130), `cachedPluginOptions[pluginId]` (PanelModel.ts:283) and `permissions?.[action]` (context_srv.ts:122) also finds names inherited from `Object.prototype` (`toString`, `constructor`, ...). The model's maps hold only own keys, so a transition to a state named `toString` fails with StateNotFound where the source fails with "Invalid state type".
- PanelEditorState.PanelEditor.constructor: the migration of a stored percentage string `topPaneSize` with `parseFloat(...) / 100` is not modelled. The stored layout is taken as already numeric.
- JsonText: a `\u` escape that names a UTF-16 surrogate is not decoded, and non-JSON values such as functions are outside the value type.
- lodash `merge` is modelled over `JsonValue`: the own keys of an object, array or string source (as `keysIn` lists them) are merged into an object or array target; an index past the end of an array target is stored there, and the indices it skips are holes, modelled as `undefined` items (which `JSON.stringify` also prints as `null`). Three cases are not modelled: objects with a numeric `length`, which lodash treats like arrays; named properties on an array, which the model drops because its arrays hold only items; and a number, string or boolean target, which lodash wraps with `Object(...)`, where the model starts from a fresh `{}`. `cloneDeep`, `defaultsDeep` and `pickBy` are written out over the same values.
- Panel.HandledTouchesOptions: the type-change handler receives the panel itself (PanelModel.ts:363) and may assign to any of its properties or fields; the model hands it the panel's properties to read but takes it to write nothing to the panel, so the frames of Panel.PanelModel.CallPanelTypeChangeHandler, AdoptPlugin, SwitchPlugin and ChangePlugin, and the lemmas on `TypeChangeHandled`, hold only for such a handler. A handler that replaces `panel.options` is not modelled either: `Object.assign` then writes into the options object read before the call.
- Panel.DefaultsFilled: `defaultsDeep` also fills the keys missing inside a nested object that the panel already holds; the model fills only missing top-level properties. After the clean-up a kept property is one the model sets truthily and that the copy loop then overwrites, so only a copy that throws part way can leave a difference.
- Panel.AssignAll: both copy loops (`restoreModel` and `initLibraryPanel`) skip keys that name runtime fields (`events`, `key`, `plugin`, `isViewing`, ... as in `notPersistedProperties`), where the source assigns them too. Those fields are typed fields of the panel class, not properties; a save model never holds them, because `getSaveModel` leaves them out. A model that is not an object (`null`, `undefined`, a primitive) is not modelled: the model is a list of entries.
- Panel.Restored: the `restoreModel` outcome copies no key that names a runtime field (see the Panel.AssignAll line above).
- Panel.PanelModel.RestoreModel: the accessors `id`, `title` and `description` go through their setters, but keys naming runtime fields are not copied (see the Panel.AssignAll line above).
- CopyModel: the same gap as Panel.AssignAll: it does not assign keys in its skip set, which always holds the runtime fields.
- InitLibraryPanel: skips `id`, `gridPos` and `libraryPanel` as the source does, and also the runtime fields (see the Panel.AssignAll line above).
- LibraryPanelCopies: states nothing about keys naming runtime fields, which the model does not copy (see the Panel.AssignAll line above).
- Panel.PanelModel.SetProperty: `setProperty` on a runtime field name is not modelled; its key must name a persisted property or an accessor.
- Objects keep insertion order. JavaScript's rule that integer-like keys are visited first by `for … in` is not modelled.
- Closures kept in state, such as the panel editor's `getPanel`, `getSourcePanel` and `getData`, are modelled by the object they return. Object identity is a reference number where the source compares objects with `===`.
- Parent back-links (`parentItem` pointing back from children to `main` in `getSectionNav`) are not modelled. Only the children and the page navigation's own parent chain are.
- PublicDashboardPage.UpdatePageNav: the slug-based page navigation of the `Path` route (PublicDashboardPage.tsx:292-297) and the navigation index lookup are not modelled. The section navigation the route selects is the parameter `routeSectionNav`, and the slug branch's result is never used by the source.
- Teams: the `getTeamMembers` selector (a case-insensitive regular expression over login, email and name) is not modelled, because it needs a regular expression engine.
- Profile.UserSlice.SessionsLoaded: `Array.prototype.sort` is modelled as the stable grouping ES2019 guarantees: the active sessions first, each group in its loaded order. The sort's in-place mutation of the payload array is not modelled.
- NavTree.SortByTitle: Go's `sort.Slice` is not stable. The model sorts by insertion and proves the result sorted and a permutation, which is what any unstable order also satisfies. It does not model which of two equal titles comes first.
- Values of enumerations whose defining files are not part of this model are taken as these lower-case names: the inspector's tabs (`data`, `stats`, `json`, `error`, `actions`, `query`, `help`), the panel editor's tab ids (`panel`, `theme`, `function`, `workflow`), and the dashboard permission actions (`dashboards:read`, `dashboards:write`, `dashboards:create`, `folders:read`). `DisplayMode` and `TeamPermissionLevel` are modelled only as constructors.
- Slugify.SlugifyWith: base64url encoding and UUIDv5 generation are parameters. The replacement table is a parameter too.
- Ascii.ToLower: Go's `strings.ToLower` also lower-cases letters outside ASCII; the model lower-cases only `A`–`Z`, so an upper-case letter of another script reaches the replacement table and the validity test unchanged.
- FrontendSettings.PluginsToPreload: Go visits a map in an order the runtime chooses; that order is a parameter, so the model proves what holds for every order and not which order a run sees.
- FieldDisplay.JsLength: a JavaScript string may hold a lone surrogate code unit, which a Dafny string cannot; every other string has the same `length` in the model.
- Plugins.ExecutableSuffix: the `filepath.Join` path cleaning is not modelled. The directory and the file name are joined with one separator.
- `dateTimeFormatTimeAgo`, `config.featureToggles`, `contextSrv` lookups and `Mousetrap` are not modelled. Each is an input value or a field of the modelled service: the key-binding library is a map from key to handler plus a set of keys that also fire in text inputs.

## Notes on the code

- `JqFilter.run` with `.a` over `{a: 1, b: 2}` throws: `a` uses up the only token, then `b` reads `tokens[0].value` from an empty list (PanelWorkflowRunner.ts:337-347). The model follows the code: `WorkflowFilter.PickFailsIffExhausted`, `WorkflowFilter.FilterThrowsAfterLastToken`.
- About `buildStarredItemsNavLinks`, the comment in navtree.go says it looks up at most 50 starred dashboards. The counter is checked after the increment with `> 50`, so up to 51 are looked up. The model follows the code: `NavTree.Looked`.

## Findings

| source | as written | input that shows it | evidently intended | confidence | as-written member | corrected member |
|---|---|---|---|---|---|---|
| public/app/features/dashboard/state/DashboardModel.ts:241-246 | `panel.id ??= nextPanelId++` assigns only when the `id` getter yields null or undefined, but the getter returns `parseInt(...)`, a number or NaN, never nullish (PanelModel.ts:480-486); so no panel is ever given an id | a panel without an id: it still has none afterwards | panels without an id get consecutive ids from the next free id, and the ids stay distinct | not executed | Dashboard.WithIdsAsWritten (shown by Dashboard.AsWrittenLeavesIdsMissing) | Dashboard.WithIds (Dashboard.WithIdsAssigns, Dashboard.WithNextIdsDistinct, used by Dashboard.DashboardModel.EnsurePanelsHaveIds) |
| public/app/features/dashboard/state/DashboardModel.ts:350-364 | the copy is `panel.getSaveModel()`, which omits a `gridPos` deep-equal to the default `{x: 0, y: 0, w: 6, h: 3}`, so `newPanel.gridPos.x += ...` throws a TypeError | duplicating a panel at `{x: 0, y: 0, w: 6, h: 3}` | the copy is placed at `{x: 6, y: 0, w: 6, h: 3}`, to the right of the original | not executed | Dashboard.DuplicatedPosAsWritten (shown by Dashboard.DuplicateAtDefaultPositionThrows) | Dashboard.DuplicatedPos (Dashboard.DuplicateBesideOriginal, used by Dashboard.Duplicate and Dashboard.DashboardModel.DuplicatePanel) |
| pkg/services/live/runstream/manager.go:144-156 | `coolDownDelay * time.Duration(math.Pow(2, n))` multiplies in signed 64-bit nanoseconds before the `maxDelay` cap; at 37 errors, and at many larger counts, the product wraps to a negative or zero duration, which passes the cap check (at 38 it is positive again and capped, and from 56 to 62 it is exactly 0). This is a latent defect of `getDelay` taken alone: its one caller, `runStream`, stops calling it once the delay reaches the cap at 6 errors (manager.go:179-184), so the wrap is not reached from there | 37 errors: 100 ms times 2 to the 37th is more than 2 to the 63rd nanoseconds | the delay stays at the 5 s cap for every error count from 36 on | not executed | StreamManager.GetDelayAsWritten (shown by StreamManager.AsWrittenWrapsAt37 and StreamManager.AsWrittenWrapsUnevenly) | StreamManager.GetDelay (StreamManager.GetDelayBounds, StreamManager.GetDelayMonotone) |
