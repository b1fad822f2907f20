/**
 * The part of a Serverless Workflow 0.8 definition the panel runner reads,
 * after the SDK has turned it into typed state objects. A string property
 * the runner only tests for truthiness is modelled as `string`, with `""`
 * standing for both an absent and an empty value (the runner treats them
 * alike).
 */
module WorkflowDefinition {
  import opened Wrappers
  import opened JsonValue

  /** The SDK state classes, one per `type`. */
  datatype StateKind = Sleep | Event | Operation | Parallel | Switch | Inject | ForEach | Callback

  datatype ProduceEvent = ProduceEvent(eventRef: string, data: Value)

  /** `transition` is a state name or a Transition object. */
  datatype Transition =
    | TransitionName(name: string)
    | TransitionDef(nextState: string, produceEvents: seq<ProduceEvent>)

  /** `end` is a boolean or an End object (`terminate` read as a boolean). */
  datatype End =
    | EndFlag(flag: bool)
    | EndDef(terminate: bool, produceEvents: seq<ProduceEvent>)

  /** `functionRef` is a function name or a Functionref object. */
  datatype FunctionRef = RefName(name: string) | RefObject(refName: string)

  datatype ActionDataFilter = ActionDataFilter(
    fromStateData: string,
    useResults: Option<bool>,
    results: string,
    toStateData: string)

  datatype Action = Action(functionRef: Option<FunctionRef>, actionDataFilter: Option<ActionDataFilter>)

  datatype StateDataFilter = StateDataFilter(input: string, output: string)

  datatype State = State(
    name: string,
    kind: StateKind,
    stateDataFilter: Option<StateDataFilter>,
    transition: Option<Transition>,
    end: Option<End>,
    actionMode: string,
    actions: Option<seq<Action>>,
    data: Value)

  /** An entry of `events`: a plain string or an Eventdef. */
  datatype EventItem = EventName(name: string) | EventDef(kind: string, eventName: string)

  datatype Start = StartName(name: string) | StartDef(stateName: string)

  datatype Workflow = Workflow(events: seq<EventItem>, start: Option<Start>, states: seq<State>)

  /** `transitionOrEnd(state) !== null`: every state class except Switchstate. */
  predicate HasTransitionOrEnd(k: StateKind)
  {
    k != Switch
  }

  predicate TruthyTransition(t: Option<Transition>)
  {
    match t
    case None => false
    case Some(TransitionName(n)) => n != ""
    case Some(TransitionDef(_, _)) => true
  }

  predicate TruthyEnd(e: Option<End>)
  {
    match e
    case None => false
    case Some(EndFlag(b)) => b
    case Some(EndDef(_, _)) => true
  }

  predicate TruthyFunctionRef(f: Option<FunctionRef>)
  {
    match f
    case None => false
    case Some(RefName(n)) => n != ""
    case Some(RefObject(_)) => true
  }

  /** `!workflow.start`. */
  predicate MissingStart(s: Option<Start>)
  {
    s.None? || s == Some(StartName(""))
  }

  /** The name the run begins at: the string itself or `start.stateName`. */
  function StartStateName(s: Start): string
  {
    match s
    case StartName(n) => n
    case StartDef(n) => n
  }

  predicate InputFilterSet(st: State)
  {
    st.stateDataFilter.Some? && st.stateDataFilter.value.input != ""
  }

  predicate OutputFilterSet(st: State)
  {
    st.stateDataFilter.Some? && st.stateDataFilter.value.output != ""
  }

  /**
   * `statesByName`: each state stored under its name, a later state
   * overwriting an earlier one of the same name.
   */
  function StatesByName(states: seq<State>): (m: map<string, State>)
  {
    if states == [] then map[]
    else StatesByName(states[..|states| - 1])[states[|states| - 1].name := states[|states| - 1]]
  }

  /** The last state in `states` named `n`. */
  function LastNamed(states: seq<State>, n: string): Option<State>
  {
    if states == [] then None
    else if states[|states| - 1].name == n then Some(states[|states| - 1])
    else LastNamed(states[..|states| - 1], n)
  }

  /** A name is indexed iff some state has it, and it maps to the last state of that name. */
  lemma {:induction false} StatesByNameLastWins(states: seq<State>, n: string)
    ensures n in StatesByName(states) <==> exists i :: 0 <= i < |states| && states[i].name == n
    ensures n in StatesByName(states) ==> LastNamed(states, n) == Some(StatesByName(states)[n])
    ensures n !in StatesByName(states) ==> LastNamed(states, n) == None
  {
    if states != [] {
      var init := states[..|states| - 1];
      StatesByNameLastWins(init, n);
      assert forall i :: 0 <= i < |init| ==> init[i] == states[i];
      if states[|states| - 1].name != n && n in StatesByName(states) {
        var i :| 0 <= i < |init| && init[i].name == n;
        assert states[i].name == n;
      }
    }
  }

  /** `haveEnd`: some state that can end has a truthy `end`. */
  predicate HaveEnd(states: seq<State>)
  {
    exists i :: 0 <= i < |states| && HasTransitionOrEnd(states[i].kind) && TruthyEnd(states[i].end)
  }

  lemma HaveEndSnoc(states: seq<State>, i: nat)
    requires i < |states|
    ensures HaveEnd(states[..i + 1]) <==>
      HaveEnd(states[..i]) || (HasTransitionOrEnd(states[i].kind) && TruthyEnd(states[i].end))
  {
    var p := states[..i + 1];
    assert forall j :: 0 <= j < i ==> p[j] == states[..i][j];
    assert p[i] == states[i];
  }
}
