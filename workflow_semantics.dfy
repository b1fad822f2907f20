/**
 * What the panel workflow runner computes, as functions of the workflow and
 * the runner's state: the data an action, an operation state or an inject
 * state produces, the effect of a transition or an end, one executed state,
 * and the whole `while (!terminate)` run.
 */
module WorkflowSemantics {
  import opened Wrappers
  import opened JsonValue
  import opened WorkflowFilter
  import opened WorkflowDefinition

  /** The errors the runner throws (a failed filter is a TypeError). */
  datatype WorkflowError =
    | WithoutStart
    | InvalidEventKind(kind: string)
    | StatesWithoutEnd
    | StateNotFound(name: string)
    | NoTransition(name: string)
    | BothTransitionAndEnd
    | InvalidStateType
    | InvalidActionMode(mode: string)
    | FilterFailed

  /** The message each error carries. */
  function Message(e: WorkflowError): string
  {
    match e
    case WithoutStart => "Workflow without start"
    case InvalidEventKind(k) => "Eventdef invalid kind: '" + k + "'"
    case StatesWithoutEnd => "States without end"
    case StateNotFound(n) => "State start not found: '" + n + "'"
    case NoTransition(n) => "The " + n + " don't have a trasition to next state."
    case BothTransitionAndEnd => "State can't defined both transition or end"
    case InvalidStateType => "Invalid state type: '{state.type}'"
    case InvalidActionMode(m) => "Invalid state actionMode: '" + m + "'"
    case FilterFailed => "Cannot read properties of undefined (reading 'value')"
  }

  /** `WorkflowRunnerEvent` payload `{publish, data}`. */
  datatype RunnerEvent = RunnerEvent(publish: string, data: Value)

  const RunnerEventType := "panels-workflow-event"

  /** The runner's fields and what it has published on the event bus. */
  datatype Config = Config(
    data: map<string, Value>,
    currentState: string,
    terminate: bool,
    published: seq<RunnerEvent>)

  function DataFilter(filter: string, data: Value): Result<Value, WorkflowError>
  {
    match Filter(filter, data)
    case Success(v) => Success(v)
    case Failure(_) => Failure(FilterFailed)
  }

  /** `this.function(ref)`: the marker object `{function: "<ref>.start"}`. */
  function FunctionCall(f: FunctionRef): (r: Value)
  {
    var name := match f
      case RefName(n) => n
      case RefObject(_) => "[object Object]";
    Obj([Entry("function", Str(name + ".start"))])
  }

  function ActionDataFilterResult(f: ActionDataFilter, data: Value): Result<Value, WorkflowError>
  {
    if f.useResults == Some(false) then Success(data)
    else
      var filtered := if f.results != "" then DataFilter(f.results, data) else Success(data);
      match filtered
      case Failure(e) => Failure(e)
      case Success(d) => Success(if f.toStateData != "" then Obj([Entry(f.toStateData, d)]) else d)
  }

  function ActionResult(a: Action, data: Value): Result<Value, WorkflowError>
  {
    var fromState :=
      if a.actionDataFilter.Some? && a.actionDataFilter.value.fromStateData != ""
      then DataFilter(a.actionDataFilter.value.fromStateData, data)
      else Success(data);
    match fromState
    case Failure(e) => Failure(e)
    case Success(d1) =>
      var d2 := if TruthyFunctionRef(a.functionRef) then FunctionCall(a.functionRef.value) else d1;
      if a.actionDataFilter.Some? then ActionDataFilterResult(a.actionDataFilter.value, d2)
      else Success(d2)
  }

  /** The accumulator of `actionsSequential` after the actions from `acc` on. */
  function ActionsFold(actions: seq<Action>, acc: Value): Result<Value, WorkflowError>
  {
    if actions == [] then Success(acc)
    else
      match ActionResult(actions[0], acc)
      case Failure(e) => Failure(e)
      case Success(r) => ActionsFold(actions[1..], Merge(acc, r))
  }

  /**
   * `stateOperation(state, data)`: the state data as the caller then sees
   * it, and the value returned. With actions, `actionsSequential` returns
   * nothing, so the returned value is `undefined` and the actions' results
   * survive only when `merge` mutated an existing object or array.
   */
  function OperationResult(st: State, data: Value): Result<(Value, Value), WorkflowError>
  {
    if st.actions.None? then Success((data, data))
    else if st.actionMode == "sequential" then
      match ActionsFold(st.actions.value, data)
      case Failure(e) => Failure(e)
      case Success(acc) => Success((if data.Obj? || data.Arr? then acc else data, Undefined))
    else Failure(InvalidActionMode(st.actionMode))
  }

  /** The data a state stores under its name, computed from what was stored before. */
  function StateData(st: State, stored: Value): Result<Value, WorkflowError>
  {
    var input := if InputFilterSet(st) then DataFilter(st.stateDataFilter.value.input, stored) else Success(stored);
    match input
    case Failure(e) => Failure(e)
    case Success(d) =>
      var produced :=
        if st.kind == Operation then OperationResult(st, d)
        else if st.kind == Inject then Success((d, st.data))
        else Failure(InvalidStateType);
      match produced
      case Failure(e) => Failure(e)
      case Success(p) =>
        var merged := Merge(p.0, p.1);
        if OutputFilterSet(st) then DataFilter(st.stateDataFilter.value.output, merged)
        else Success(merged)
  }

  function Publish(events: seq<ProduceEvent>): (r: seq<RunnerEvent>)
    ensures |r| == |events|
    ensures forall i :: 0 <= i < |events| ==> r[i] == RunnerEvent(events[i].eventRef, events[i].data)
  {
    if events == [] then [] else [RunnerEvent(events[0].eventRef, events[0].data)] + Publish(events[1..])
  }

  function ApplyTransition(c: Config, t: Transition): Config
  {
    match t
    case TransitionName(n) => c.(currentState := n)
    case TransitionDef(next, evs) => c.(currentState := next, published := c.published + Publish(evs))
  }

  function ApplyEnd(c: Config, e: End): Config
  {
    match e
    case EndFlag(b) => c.(terminate := b)
    case EndDef(term, evs) => c.(published := c.published + Publish(evs), terminate := term)
  }

  function Stored(data: map<string, Value>, name: string): Value
  {
    if name in data then data[name] else Undefined
  }

  /** `state(st)`: one state executed against the runner's fields. */
  function StepSpec(c: Config, st: State): Result<Config, WorkflowError>
  {
    if HasTransitionOrEnd(st.kind) && TruthyTransition(st.transition) && TruthyEnd(st.end) then
      Failure(BothTransitionAndEnd)
    else
      match StateData(st, Stored(c.data, st.name))
      case Failure(e) => Failure(e)
      case Success(d) =>
        var c1 := c.(data := c.data[st.name := d]);
        if !HasTransitionOrEnd(st.kind) then Success(c1)
        else if TruthyTransition(st.transition) then Success(ApplyTransition(c1, st.transition.value))
        else if TruthyEnd(st.end) then Success(ApplyEnd(c1, st.end.value))
        else Success(c1)
  }

  /** How a run stops. `OutOfFuel` marks a run cut short by the model's step bound. */
  datatype Outcome =
    | Finished(config: Config)
    | Failed(error: WorkflowError, published: seq<RunnerEvent>)
    | OutOfFuel(config: Config)

  /** The `while (!terminate)` loop of `states`, for at most `fuel` more states. */
  function RunSpec(byName: map<string, State>, c: Config, fuel: nat): Outcome
    decreases fuel
  {
    if c.terminate then Finished(c)
    else if fuel == 0 then OutOfFuel(c)
    else if c.currentState !in byName then Failed(StateNotFound(c.currentState), c.published)
    else
      match StepSpec(c, byName[c.currentState])
      case Failure(e) => Failed(e, c.published)
      case Success(c') =>
        if !c'.terminate && c'.currentState == c.currentState then
          Failed(NoTransition(c.currentState), c'.published)
        else RunSpec(byName, c', fuel - 1)
  }

  /** `states(states, start)` from the runner's current fields. */
  function StatesSpec(states: seq<State>, start: Start, c: Config, fuel: nat): Outcome
  {
    if !HaveEnd(states) then Failed(StatesWithoutEnd, c.published)
    else RunSpec(StatesByName(states), c.(currentState := StartStateName(start)), fuel)
  }

  /**
   * `events(events)`: how many `consumed` Eventdefs subscribed before the
   * loop ended, and the error of the first Eventdef of another kind, if any.
   */
  function EventsSpec(events: seq<EventItem>): (nat, Option<WorkflowError>)
  {
    if events == [] then (0, None)
    else
      var first := events[0];
      if first.EventDef? && first.kind != "consumed" then (0, Some(InvalidEventKind(first.kind)))
      else
        var rest := EventsSpec(events[1..]);
        (if first.EventDef? then rest.0 + 1 else rest.0, rest.1)
  }

  /** `start()`: handle the events, check the start, then run the states. */
  function StartSpec(wf: Workflow, c: Config, fuel: nat): Outcome
  {
    var ev := EventsSpec(wf.events);
    if ev.1.Some? then Failed(ev.1.value, c.published)
    else if MissingStart(wf.start) then Failed(WithoutStart, c.published)
    else StatesSpec(wf.states, wf.start.value, c, fuel)
  }

  /** The subscriptions `start()` makes: its own logger plus one per consumed Eventdef. */
  function StartSubscriptions(wf: Workflow): nat
  {
    1 + EventsSpec(wf.events).0
  }

  /** What the event bus holds once a run has stopped. */
  function OutcomePublished(o: Outcome): seq<RunnerEvent>
  {
    match o
    case Finished(c) => c.published
    case Failed(_, p) => p
    case OutOfFuel(c) => c.published
  }
}
