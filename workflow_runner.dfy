/**
 * `PanelWorkflowRunner`: the object that runs a panel's workflow. Its fields
 * `data`, `terminate` and `currentState` change as states execute, and
 * produced events are published on the event bus. Each method is proved to
 * do what the matching function of WorkflowSemantics describes.
 */
module WorkflowRunner {
  import opened Wrappers
  import opened JsonValue
  import opened WorkflowFilter
  import opened WorkflowDefinition
  import opened WorkflowSemantics

  /** The part of Grafana's event bus the runner uses: subscriptions and a log of published events. */
  class EventBus {
    var published: seq<RunnerEvent>
    var subscriptions: nat

    constructor()
      ensures published == [] && subscriptions == 0
    {
      published := [];
      subscriptions := 0;
    }

    method Subscribe()
      modifies this
      ensures subscriptions == old(subscriptions) + 1 && published == old(published)
    {
      subscriptions := subscriptions + 1;
    }

    method Publish(e: RunnerEvent)
      modifies this
      ensures published == old(published) + [e] && subscriptions == old(subscriptions)
    {
      published := published + [e];
    }
  }

  class PanelWorkflowRunner {
    const workflow: Workflow
    const eventBus: EventBus
    var data: map<string, Value>
    var terminate: bool
    var currentState: string

    /** The runner's fields together with the events published so far. */
    function Cfg(): Config
      reads this, eventBus
    {
      Config(data, currentState, terminate, eventBus.published)
    }

    constructor(workflow: Workflow, eventBus: EventBus)
      ensures this.workflow == workflow && this.eventBus == eventBus
      ensures data == map[] && !terminate && currentState == ""
    {
      this.workflow := workflow;
      this.eventBus := eventBus;
      data := map[];
      terminate := false;
      currentState := "";
    }

    /**
     * `start()`. The model stops after `fuel` executed states, because a
     * workflow whose transitions form a cycle never terminates.
     */
    method Start(fuel: nat) returns (outcome: Outcome)
      modifies this, eventBus
      ensures outcome == StartSpec(workflow, old(Cfg()), fuel)
      ensures eventBus.subscriptions == old(eventBus.subscriptions) + StartSubscriptions(workflow)
      ensures eventBus.published == OutcomePublished(outcome)
      ensures outcome.Finished? || outcome.OutOfFuel? ==> Cfg() == outcome.config
    {
      eventBus.Subscribe();
      var err := Events(workflow.events);
      if err.Some? {
        return Failed(err.value, eventBus.published);
      }
      if MissingStart(workflow.start) {
        return Failed(WithoutStart, eventBus.published);
      }
      outcome := States(workflow.states, workflow.start.value, fuel);
    }

    method Events(events: seq<EventItem>) returns (err: Option<WorkflowError>)
      modifies eventBus
      ensures err == EventsSpec(events).1
      ensures eventBus.subscriptions == old(eventBus.subscriptions) + EventsSpec(events).0
      ensures eventBus.published == old(eventBus.published)
    {
      var i := 0;
      while i < |events|
        invariant 0 <= i <= |events|
        invariant EventsSpec(events).1 == EventsSpec(events[i..]).1
        invariant eventBus.subscriptions + EventsSpec(events[i..]).0
          == old(eventBus.subscriptions) + EventsSpec(events).0
        invariant eventBus.published == old(eventBus.published)
        decreases |events| - i
      {
        assert events[i..][1..] == events[i + 1..];
        err := Event(events[i]);
        if err.Some? {
          return;
        }
        i := i + 1;
      }
      assert events[i..] == [];
      err := None;
    }

    /** `event(e)`: a consumed Eventdef subscribes, any other kind is an error; a plain name is only logged. */
    method Event(e: EventItem) returns (err: Option<WorkflowError>)
      modifies eventBus
      ensures err == EventsSpec([e]).1
      ensures eventBus.subscriptions == old(eventBus.subscriptions) + EventsSpec([e]).0
      ensures eventBus.published == old(eventBus.published)
    {
      match e
      case EventName(_) =>
        err := None;
      case EventDef(kind, _) =>
        if kind == "consumed" {
          eventBus.Subscribe();
          err := None;
        } else {
          err := Some(InvalidEventKind(kind));
        }
    }

    /** `states(states, start)`: index the states, check for an end, run the loop. */
    method States(states: seq<State>, start: Start, fuel: nat) returns (outcome: Outcome)
      modifies this, eventBus
      ensures outcome == StatesSpec(states, start, old(Cfg()), fuel)
      ensures eventBus.subscriptions == old(eventBus.subscriptions)
      ensures eventBus.published == OutcomePublished(outcome)
      ensures outcome.Finished? || outcome.OutOfFuel? ==> Cfg() == outcome.config
    {
      var statesByName, haveEnd := IndexStates(states);
      if !haveEnd {
        return Failed(StatesWithoutEnd, eventBus.published);
      }
      currentState := StartStateName(start);
      outcome := RunLoop(statesByName, fuel);
    }

    /** The first loop of `states`: `statesByName` and `haveEnd`. */
    method IndexStates(states: seq<State>) returns (statesByName: map<string, State>, haveEnd: bool)
      ensures statesByName == StatesByName(states)
      ensures haveEnd == HaveEnd(states)
    {
      statesByName := map[];
      haveEnd := false;
      for i := 0 to |states|
        invariant statesByName == StatesByName(states[..i])
        invariant haveEnd == HaveEnd(states[..i])
      {
        assert states[..i + 1][..i] == states[..i];
        statesByName := statesByName[states[i].name := states[i]];
        HaveEndSnoc(states, i);
        if HasTransitionOrEnd(states[i].kind) && TruthyEnd(states[i].end) {
          haveEnd := true;
        }
      }
      assert states[..|states|] == states;
    }

    /** The `while (!this.terminate)` loop of `states`, stopped after `fuel` states. */
    method RunLoop(statesByName: map<string, State>, fuel: nat) returns (outcome: Outcome)
      modifies this, eventBus
      ensures outcome == RunSpec(statesByName, old(Cfg()), fuel)
      ensures eventBus.subscriptions == old(eventBus.subscriptions)
      ensures eventBus.published == OutcomePublished(outcome)
      ensures outcome.Finished? || outcome.OutOfFuel? ==> Cfg() == outcome.config
    {
      var steps := 0;
      while !terminate && steps < fuel
        invariant 0 <= steps <= fuel
        invariant RunSpec(statesByName, Cfg(), fuel - steps) == RunSpec(statesByName, old(Cfg()), fuel)
        invariant eventBus.subscriptions == old(eventBus.subscriptions)
        decreases fuel - steps
      {
        if currentState !in statesByName {
          return Failed(StateNotFound(currentState), eventBus.published);
        }
        var lastStateExecuted := currentState;
        var step := RunState(statesByName[currentState]);
        if step.Failure? {
          return Failed(step.error, eventBus.published);
        }
        if !terminate && lastStateExecuted == currentState {
          return Failed(NoTransition(lastStateExecuted), eventBus.published);
        }
        steps := steps + 1;
      }
      if terminate {
        outcome := Finished(Cfg());
      } else {
        outcome := OutOfFuel(Cfg());
      }
    }

    /** `state(st)`: compute and store the state's data, then follow its transition or end. */
    method RunState(st: State) returns (r: Result<(), WorkflowError>)
      modifies this, eventBus
      ensures StepSpec(old(Cfg()), st).Success? ==> r.Success? && Cfg() == StepSpec(old(Cfg()), st).value
      ensures StepSpec(old(Cfg()), st).Failure? ==>
        r == Failure(StepSpec(old(Cfg()), st).error) && eventBus.published == old(eventBus.published)
      ensures eventBus.subscriptions == old(eventBus.subscriptions)
    {
      var canEnd := HasTransitionOrEnd(st.kind);
      if canEnd && TruthyTransition(st.transition) && TruthyEnd(st.end) {
        return Failure(BothTransitionAndEnd);
      }
      var d := Stored(data, st.name);
      var newData: Value;
      if InputFilterSet(st) {
        var f := RunDataFilter(st.stateDataFilter.value.input, d);
        if f.Failure? {
          return Failure(f.error);
        }
        d := f.value;
      }
      if st.kind == Operation {
        var o := StateOperation(st, d);
        if o.Failure? {
          return Failure(o.error);
        }
        d, newData := o.value.0, o.value.1;
      } else if st.kind == Inject {
        newData := StateInject(st, d);
      } else {
        return Failure(InvalidStateType);
      }
      d := Merge(d, newData);
      if OutputFilterSet(st) {
        var f := RunDataFilter(st.stateDataFilter.value.output, d);
        if f.Failure? {
          return Failure(f.error);
        }
        d := f.value;
      }
      data := data[st.name := d];
      if canEnd {
        if TruthyTransition(st.transition) {
          StateTransition(st.transition.value);
        } else if TruthyEnd(st.end) {
          StateEnd(st.end.value);
        }
      }
      r := Success(());
    }

    /**
     * `stateOperation(st, data)`: the state data as the caller sees it
     * afterwards (mutated in place by the sequential actions when it is an
     * object or array) and the value returned, `undefined` once actions ran.
     */
    method StateOperation(st: State, data: Value) returns (r: Result<(Value, Value), WorkflowError>)
      ensures r == OperationResult(st, data)
    {
      if st.actions.Some? {
        if st.actionMode == "sequential" {
          var acc := ActionsSequential(st.actions.value, data);
          if acc.Failure? {
            return Failure(acc.error);
          }
          var visible := if data.Obj? || data.Arr? then acc.value else data;
          return Success((visible, Undefined));
        } else if st.actionMode == "parallel" {
          return Failure(InvalidActionMode(st.actionMode));
        } else {
          return Failure(InvalidActionMode(st.actionMode));
        }
      }
      r := Success((data, data));
    }

    /** `stateInject(st, data)` returns the state's declared data. */
    method StateInject(st: State, data: Value) returns (r: Value)
      ensures r == st.data
    {
      r := st.data;
    }

    /** The `for` loop of `actionsSequential`: the accumulator `merge` leaves behind. */
    method ActionsSequential(actions: seq<Action>, data: Value) returns (r: Result<Value, WorkflowError>)
      ensures r == ActionsFold(actions, data)
    {
      var acc := data;
      var i := 0;
      while i < |actions|
        invariant 0 <= i <= |actions|
        invariant ActionsFold(actions[i..], acc) == ActionsFold(actions, data)
        decreases |actions| - i
      {
        assert actions[i..][1..] == actions[i + 1..];
        var res := RunAction(actions[i], acc);
        if res.Failure? {
          return Failure(res.error);
        }
        acc := Merge(acc, res.value);
        i := i + 1;
      }
      assert actions[i..] == [];
      r := Success(acc);
    }

    /** `action(a, data)`: input filter, function call, then the action data filter. */
    method RunAction(a: Action, data: Value) returns (r: Result<Value, WorkflowError>)
      ensures r == ActionResult(a, data)
    {
      var d := data;
      if a.actionDataFilter.Some? && a.actionDataFilter.value.fromStateData != "" {
        var f := RunDataFilter(a.actionDataFilter.value.fromStateData, d);
        if f.Failure? {
          return Failure(f.error);
        }
        d := f.value;
      }
      if TruthyFunctionRef(a.functionRef) {
        d := CallFunction(a.functionRef.value, d);
      }
      if a.actionDataFilter.Some? {
        r := ApplyActionDataFilter(a.actionDataFilter.value, d);
      } else {
        r := Success(d);
      }
    }

    /** `function(ref, data)`: the marker object naming the started function. */
    method CallFunction(f: FunctionRef, data: Value) returns (r: Value)
      ensures r == FunctionCall(f)
    {
      var name := if f.RefName? then f.name else "[object Object]";
      r := Obj([Entry("function", Str(name + ".start"))]);
    }

    /** `actionDataFilter(f, data)`. */
    method ApplyActionDataFilter(f: ActionDataFilter, data: Value) returns (r: Result<Value, WorkflowError>)
      ensures r == ActionDataFilterResult(f, data)
    {
      if f.useResults.Some? && !f.useResults.value {
        return Success(data);
      }
      var d := data;
      if f.results != "" {
        var x := RunDataFilter(f.results, d);
        if x.Failure? {
          return Failure(x.error);
        }
        d := x.value;
      }
      if f.toStateData != "" {
        d := Obj([Entry(f.toStateData, d)]);
      }
      r := Success(d);
    }

    /** `stateTransition(t)`. */
    method StateTransition(t: Transition)
      modifies this, eventBus
      ensures Cfg() == ApplyTransition(old(Cfg()), t)
      ensures eventBus.subscriptions == old(eventBus.subscriptions)
    {
      match t
      case TransitionName(n) =>
        currentState := n;
      case TransitionDef(next, evs) =>
        currentState := next;
        ProduceEvents(evs);
    }

    /** `stateEnd(e)`: an End object publishes its events before setting `terminate`. */
    method StateEnd(e: End)
      modifies this, eventBus
      ensures Cfg() == ApplyEnd(old(Cfg()), e)
      ensures eventBus.subscriptions == old(eventBus.subscriptions)
    {
      match e
      case EndFlag(b) =>
        terminate := b;
      case EndDef(term, evs) =>
        ProduceEvents(evs);
        terminate := term;
    }

    method ProduceEvents(evs: seq<ProduceEvent>)
      modifies eventBus
      ensures eventBus.published == old(eventBus.published) + Publish(evs)
      ensures eventBus.subscriptions == old(eventBus.subscriptions)
    {
      for i := 0 to |evs|
        invariant eventBus.published == old(eventBus.published) + Publish(evs[..i])
        invariant eventBus.subscriptions == old(eventBus.subscriptions)
      {
        ProduceEventStep(evs[i]);
        PublishPrefix(evs, i);
      }
      assert evs[..|evs|] == evs;
    }

    /** `produceEvent(ev)`: publish `{publish: eventRef, data}`. */
    method ProduceEventStep(ev: ProduceEvent)
      modifies eventBus
      ensures eventBus.published == old(eventBus.published) + [RunnerEvent(ev.eventRef, ev.data)]
      ensures eventBus.subscriptions == old(eventBus.subscriptions)
    {
      eventBus.Publish(RunnerEvent(ev.eventRef, ev.data));
    }

    /** `dataFilter(filter, data)` = `new JqFilter(filter).run(data)`. */
    method RunDataFilter(filter: string, data: Value) returns (r: Result<Value, WorkflowError>)
      ensures r == DataFilter(filter, data)
    {
      var jq := new JqFilter(filter);
      var x := jq.Run(data);
      if x.Failure? {
        return Failure(FilterFailed);
      }
      r := Success(x.value);
    }
  }

  lemma PublishPrefix(evs: seq<ProduceEvent>, i: nat)
    requires i < |evs|
    ensures Publish(evs[..i + 1]) == Publish(evs[..i]) + [RunnerEvent(evs[i].eventRef, evs[i].data)]
  {
    var a := Publish(evs[..i + 1]);
    var b := Publish(evs[..i]) + [RunnerEvent(evs[i].eventRef, evs[i].data)];
    assert |a| == |b|;
    forall j | 0 <= j < |a| ensures a[j] == b[j] {
      if j < i { assert evs[..i + 1][j] == evs[..i][j]; }
    }
  }
}
