/** Properties of the workflow runner's semantics, each over all inputs. */
module WorkflowProperties {
  import opened Wrappers
  import opened JsonValue
  import opened WorkflowFilter
  import opened WorkflowDefinition
  import opened WorkflowSemantics

  /** Index of the first Eventdef whose kind is not `consumed`, if any. */
  function FirstBadEvent(events: seq<EventItem>): (r: Option<nat>)
    ensures r.Some? ==> r.value < |events| && events[r.value].EventDef? && events[r.value].kind != "consumed"
    ensures r.Some? ==> forall i :: 0 <= i < r.value ==> !(events[i].EventDef? && events[i].kind != "consumed")
    ensures r.None? ==> forall i :: 0 <= i < |events| ==> !(events[i].EventDef? && events[i].kind != "consumed")
  {
    if events == [] then None
    else if events[0].EventDef? && events[0].kind != "consumed" then Some(0)
    else match FirstBadEvent(events[1..])
      case None => None
      case Some(j) => Some(j + 1)
  }

  function CountDefs(events: seq<EventItem>): nat
  {
    if events == [] then 0 else (if events[0].EventDef? then 1 else 0) + CountDefs(events[1..])
  }

  /**
   * `events()` fails with the kind of the first Eventdef that is not
   * `consumed`; every Eventdef before it has subscribed, and plain names
   * have not.
   */
  lemma {:induction false} EventsStopAtFirstBadKind(events: seq<EventItem>)
    ensures FirstBadEvent(events).None? ==> EventsSpec(events) == (CountDefs(events), None)
    ensures FirstBadEvent(events).Some? ==>
      var i := FirstBadEvent(events).value;
      EventsSpec(events) == (CountDefs(events[..i]), Some(InvalidEventKind(events[i].kind)))
  {
    if events != [] {
      EventsStopAtFirstBadKind(events[1..]);
      if !(events[0].EventDef? && events[0].kind != "consumed") {
        match FirstBadEvent(events[1..])
        case None =>
        case Some(j) =>
          assert events[..j + 1][1..] == events[1..][..j];
          assert events[..j + 1][0] == events[0];
      } else {
        assert events[..0] == [];
      }
    }
  }

  /**
   * A workflow without a start fails with "Workflow without start" only once
   * every event has been handled; a bad Eventdef kind is reported instead.
   */
  lemma MissingStartAfterEvents(wf: Workflow, c: Config, fuel: nat)
    requires MissingStart(wf.start)
    ensures FirstBadEvent(wf.events).None? ==> StartSpec(wf, c, fuel) == Failed(WithoutStart, c.published)
    ensures FirstBadEvent(wf.events).Some? ==>
      StartSpec(wf, c, fuel) == Failed(InvalidEventKind(wf.events[FirstBadEvent(wf.events).value].kind), c.published)
  {
    EventsStopAtFirstBadKind(wf.events);
  }

  /** Without an end-capable state that has a truthy `end`, no state runs. */
  lemma NoEndRunsNothing(states: seq<State>, start: Start, c: Config, fuel: nat)
    requires forall i :: 0 <= i < |states| ==> states[i].kind == Switch || !TruthyEnd(states[i].end)
    ensures StatesSpec(states, start, c, fuel) == Failed(StatesWithoutEnd, c.published)
  {
  }

  /** The run reports `Finished` only with `terminate` set. */
  lemma {:induction false} FinishedOnlyWhenTerminated(byName: map<string, State>, c: Config, fuel: nat)
    ensures RunSpec(byName, c, fuel).Finished? ==> RunSpec(byName, c, fuel).config.terminate
    decreases fuel
  {
    if !c.terminate && fuel > 0 && c.currentState in byName {
      match StepSpec(c, byName[c.currentState])
      case Failure(_) =>
      case Success(c') =>
        if c'.terminate || c'.currentState != c.currentState {
          FinishedOnlyWhenTerminated(byName, c', fuel - 1);
        }
    }
  }

  /** One state changes only the data entry under its own name, which then holds an object or array. */
  lemma StepTouchesOwnEntry(c: Config, st: State)
    requires StepSpec(c, st).Success?
    ensures var c' := StepSpec(c, st).value;
      c'.data.Keys == c.data.Keys + {st.name}
      && (forall n :: n in c.data && n != st.name ==> c'.data[n] == c.data[n])
      && (c'.data[st.name].Obj? || c'.data[st.name].Arr?)
  {
    var d := StateData(st, Stored(c.data, st.name)).value;
    StateDataIsObject(st, Stored(c.data, st.name));
  }

  /** What a state stores is always an object or an array: `merge` and `pickBy` never return a primitive. */
  lemma StateDataIsObject(st: State, stored: Value)
    requires StateData(st, stored).Success?
    ensures StateData(st, stored).value.Obj? || StateData(st, stored).value.Arr?
  {
  }

  /** The published log only grows: the events already published stay, in order, at its head. */
  lemma {:induction false} PublishedOnlyGrows(byName: map<string, State>, c: Config, fuel: nat)
    ensures c.published <= OutcomePublished(RunSpec(byName, c, fuel))
    decreases fuel
  {
    if !c.terminate && fuel > 0 && c.currentState in byName {
      match StepSpec(c, byName[c.currentState])
      case Failure(_) =>
      case Success(c') =>
        StepPublishedGrows(c, byName[c.currentState]);
        if c'.terminate || c'.currentState != c.currentState {
          PublishedOnlyGrows(byName, c', fuel - 1);
        }
    }
  }

  /** A state appends the events of its transition or end, and nothing else. */
  lemma StepPublishedGrows(c: Config, st: State)
    requires StepSpec(c, st).Success?
    ensures c.published <= StepSpec(c, st).value.published
    ensures StepSpec(c, st).value.published == c.published + StepEvents(st)
  {
  }

  /** The events state `st` publishes when it completes. */
  function StepEvents(st: State): seq<RunnerEvent>
  {
    if !HasTransitionOrEnd(st.kind) then []
    else if TruthyTransition(st.transition) then
      (match st.transition.value
       case TransitionName(_) => []
       case TransitionDef(_, evs) => Publish(evs))
    else if TruthyEnd(st.end) then
      (match st.end.value
       case EndFlag(_) => []
       case EndDef(_, evs) => Publish(evs))
    else []
  }

  /** A run that stopped without exhausting its step bound stops the same way with any larger bound. */
  lemma {:induction false} MoreFuelSameOutcome(byName: map<string, State>, c: Config, fuel: nat, more: nat)
    requires !RunSpec(byName, c, fuel).OutOfFuel?
    ensures RunSpec(byName, c, fuel + more) == RunSpec(byName, c, fuel)
    decreases fuel
  {
    if !c.terminate && fuel > 0 && c.currentState in byName {
      match StepSpec(c, byName[c.currentState])
      case Failure(_) =>
      case Success(c') =>
        if c'.terminate || c'.currentState != c.currentState {
          MoreFuelSameOutcome(byName, c', fuel - 1, more);
        }
    }
  }

  /** A state whose transition names itself is rejected as having no transition. */
  lemma SelfTransitionFails(byName: map<string, State>, c: Config, fuel: nat)
    requires fuel > 0 && !c.terminate && c.currentState in byName
    requires var st := byName[c.currentState];
      HasTransitionOrEnd(st.kind) && st.transition == Some(TransitionName(c.currentState))
      && c.currentState != "" && StepSpec(c, st).Success?
    ensures RunSpec(byName, c, fuel).Failed?
    ensures RunSpec(byName, c, fuel).error == NoTransition(c.currentState)
  {
  }

  /** An operation state's actions, started from an object, leave an object behind. */
  lemma {:induction false} FoldKeepsObject(actions: seq<Action>, acc: Value)
    requires acc.Obj?
    requires ActionsFold(actions, acc).Success?
    ensures ActionsFold(actions, acc).value.Obj?
  {
    if actions != [] {
      var r := ActionResult(actions[0], acc).value;
      FoldKeepsObject(actions[1..], Merge(acc, r));
    }
  }

  /**
   * `actionsSequential` returns nothing: when the state's data was not yet an
   * object, the actions merge into a throw-away object and the state stores
   * `{}`; when it was an object, it stores the object the actions merged into.
   */
  lemma OperationResultsSurviveOnlyInPlace(st: State, stored: Value)
    requires st.kind == Operation && st.actions.Some? && st.actionMode == "sequential"
    requires st.stateDataFilter.None?
    requires ActionsFold(st.actions.value, stored).Success?
    ensures stored.Undefined? ==> StateData(st, stored) == Success(Obj([]))
    ensures stored.Obj? ==> StateData(st, stored) == Success(ActionsFold(st.actions.value, stored).value)
  {
    if stored.Obj? {
      FoldKeepsObject(st.actions.value, stored);
    }
  }

  /** With `useResults: false` an action's data filter hands back its input untouched. */
  lemma UseResultsFalseKeepsData(f: ActionDataFilter, data: Value)
    requires f.useResults == Some(false)
    ensures ActionDataFilterResult(f, data) == Success(data)
  {
  }

  /** A single inject state ending the workflow stores exactly its payload and publishes nothing. */
  lemma SingleInjectStoresPayload(name: string, payload: Value)
    requires name != "" && payload.Obj? && WellFormed(payload)
    ensures var st := State(name, Inject, None, None, Some(EndFlag(true)), "sequential", None, payload);
      var wf := Workflow([], Some(StartName(name)), [st]);
      StartSpec(wf, Config(map[], "", false, []), 1) == Finished(Config(map[name := payload], name, true, []))
  {
    var st := State(name, Inject, None, None, Some(EndFlag(true)), "sequential", None, payload);
    assert HaveEnd([st]) by { assert [st][0] == st; }
    assert StatesByName([st]) == map[name := st] by { assert [st][..0] == []; }
    MergeUndefinedTargetCopies(payload);
    assert StateData(st, Undefined) == Success(payload);
  }

  /**
   * An inject state whose data is an array stores an object keyed by the
   * array's indices: `merge(undefined, [1, 2])` is `{"0": 1, "1": 2}`.
   */
  lemma SingleInjectStoresArrayByIndex(name: string, payload: Value)
    requires name != "" && payload.Arr? && WellFormed(payload)
    ensures var st := State(name, Inject, None, None, Some(EndFlag(true)), "sequential", None, payload);
      var wf := Workflow([], Some(StartName(name)), [st]);
      StartSpec(wf, Config(map[], "", false, []), 1) == Finished(Config(map[name := Obj(OwnEntries(payload))], name, true, []))
  {
    var st := State(name, Inject, None, None, Some(EndFlag(true)), "sequential", None, payload);
    assert HaveEnd([st]) by { assert [st][0] == st; }
    assert StatesByName([st]) == map[name := st] by { assert [st][..0] == []; }
    MergeArrayIntoFreshObject(payload);
    assert StateData(st, Undefined) == Success(Obj(OwnEntries(payload)));
  }

  /** A switch state is never executed: it fails with the uninterpolated "Invalid state type" message. */
  lemma SwitchStateRejected(c: Config, st: State)
    requires st.kind == Switch && !InputFilterSet(st)
    ensures StepSpec(c, st) == Failure(InvalidStateType)
    ensures Message(InvalidStateType) == "Invalid state type: '{state.type}'"
  {
  }
}
