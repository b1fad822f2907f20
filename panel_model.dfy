/**
 * A dashboard panel (`PanelModel`): the own properties it persists, the
 * runtime fields kept beside them, and the operations that rewrite them —
 * restoring from a saved model, producing the save model, moving on the
 * grid, switching the panel plugin, editing the queries and the panel's
 * serverless workflow, linking to a library panel.
 *
 * The persisted properties are a map from property name to value; the
 * runtime fields are fields of their own.
 */
module Panel {
  import opened Wrappers
  import opened JsonValue
  import JsNumber
  import JsonText

  /** The errors the panel's operations raise: a TypeError or a JSON SyntaxError. */
  datatype PanelError = TypeError | SyntaxError

  /** Runtime fields: never saved and never taken from a saved model. */
  const NotPersisted: set<string> :=
    {"events", "isViewing", "isEditing", "isInView", "cachedPluginOptions", "plugin",
     "queryRunner", "configRev", "hasSavedPanelEditChange", "key"}

  /** Properties that survive a change of panel plugin. */
  const MustKeep: set<string> :=
    {"gridPos", "type", "minSpan", "panels", "targets", "isEditing", "events", "cacheTimeout",
     "cachedPluginOptions", "pluginVersion", "queryRunner", "fieldConfig", "libraryPanel",
     "configRev", "key", "workflow"}

  /** The workflow a new panel runs: one operation state calling `start`, then terminate. */
  const DefaultWorkflow: Value := Obj([
    Entry("id", Str("")),
    Entry("version", Str("1.0")),
    Entry("specVersion", Str("0.8")),
    Entry("name", Str("")),
    Entry("description", Str("")),
    Entry("start", Str("start")),
    Entry("functions", Arr([Obj([Entry("name", Str("start")),
                                 Entry("operation", Str("http://fhub.dev/start"))])])),
    Entry("states", Arr([Obj([
      Entry("name", Str("start")),
      Entry("type", Str("operation")),
      Entry("actions", Arr([Obj([Entry("functionRef", Str("start"))])])),
      Entry("end", Obj([Entry("terminate", Bool(true)),
                        Entry("produceEvents", Arr([Obj([Entry("eventRef", Str("PanelState"))])]))]))
    ])]))
  ])

  /** The values a restored panel starts from. */
  const Defaults: map<string, Value> := map[
    "gridPos" := Obj([Entry("x", Num(0)), Entry("y", Num(0)), Entry("h", Num(3)), Entry("w", Num(6))]),
    "targets" := Arr([Obj([Entry("refId", Str("A"))])]),
    "cachedPluginOptions" := Obj([]),
    "options" := Obj([]),
    "fieldConfig" := Obj([Entry("defaults", Obj([])), Entry("overrides", Arr([]))]),
    "savedQueryLink" := Null,
    "workflow" := DefaultWorkflow
  ]

  /** `defaults[property]`. */
  function DefaultOf(k: string): Value
  {
    if k in Defaults then Defaults[k] else Undefined
  }

  /** `this[k]` for a persisted property. */
  function Prop(p: map<string, Value>, k: string): Value
  {
    if k in p then p[k] else Undefined
  }

  /**
   * The accessors of the panel class. They are not own properties:
   * assigning to one runs its setter, which writes into the workflow.
   */
  const Accessors: set<string> := {"id", "title", "description"}

  /** No runtime field and no accessor among the persisted properties. */
  predicate Persisted(p: map<string, Value>)
  {
    forall k :: k in p ==> k !in NotPersisted && k !in Accessors
  }

  /** The persisted properties the operations write are neither runtime fields nor accessors. */
  lemma OrdinaryKeys()
    ensures "options" !in NotPersisted && "fieldConfig" !in NotPersisted && "type" !in NotPersisted
    ensures "workflow" !in NotPersisted && "gridPos" !in NotPersisted && "libraryPanel" !in NotPersisted
    ensures "savedQueryLink" !in NotPersisted && "cacheTimeout" !in NotPersisted
    ensures "pluginVersion" !in NotPersisted
    ensures "options" !in MustKeep && "savedQueryLink" !in MustKeep
    ensures "fieldConfig" in MustKeep && "type" in MustKeep && "pluginVersion" in MustKeep
    ensures "workflow" in MustKeep && "gridPos" in MustKeep && "libraryPanel" in MustKeep
    ensures "cacheTimeout" in MustKeep
    ensures "options" !in Accessors && "savedQueryLink" !in Accessors && "workflow" !in Accessors
    ensures "type" !in Accessors && "pluginVersion" !in Accessors && "libraryPanel" !in Accessors
    ensures "fieldConfig" !in Accessors && "gridPos" !in Accessors && "cacheTimeout" !in Accessors
  {
  }

  /** The accessors are neither runtime fields, nor kept across a plugin change, nor defaulted. */
  lemma AccessorKeys()
    ensures forall k :: k in Accessors ==> k !in MustKeep && k !in NotPersisted && k !in Defaults
  {
  }

  lemma StrippedPersisted(p: map<string, Value>, rules: FieldConfigRules)
    requires Persisted(p)
    ensures Persisted(Stripped(p))
    ensures Cleared(p, rules).Success? ==> Persisted(Cleared(p, rules).value)
  {
    OrdinaryKeys();
  }

  // ---------------------------------------------------------------------
  // Assignment, and the loops that copy a model onto the panel
  // ---------------------------------------------------------------------

  /** The workflow field an accessor's setter writes: `id`, `name` or `description`. */
  function AccessorField(k: string): string
  {
    if k == "title" then "name" else k
  }

  /** What an accessor's setter stores: `String(value)` for `id`, the value itself otherwise. */
  function AccessorValue(k: string, v: Value): Value
  {
    if k == "id" then Str(ToJsString(v)) else v
  }

  /** `workflow[field] = x`. */
  function WithWorkflowField(p: map<string, Value>, field: string, x: Value): Result<map<string, Value>, PanelError>
  {
    var w :- WriteProp(WorkflowOf(p), field, x);
    Success(p["workflow" := w])
  }

  /**
   * `this[k] = v` on the panel: an accessor runs its setter, which writes
   * into the workflow and throws where the workflow cannot hold a property;
   * any other key becomes an own property.
   */
  function AssignProp(p: map<string, Value>, k: string, v: Value): Result<map<string, Value>, PanelError>
  {
    if k in Accessors then WithWorkflowField(p, AccessorField(k), AccessorValue(k, v))
    else Success(p[k := v])
  }

  /** The properties an operation leaves and the error it raised, if any. */
  datatype Outcome = Outcome(props: map<string, Value>, error: Option<PanelError>)

  /**
   * A copy loop over a model's entries in order (`for (const property in
   * model)` in `restoreModel`, `Object.entries(libPanel.model)` in
   * `initLibraryPanel`): each entry whose key is not in `skip` is
   * assigned, and the first assignment that throws ends the loop, leaving
   * the properties written so far.
   */
  function AssignAll(p: map<string, Value>, es: seq<Entry>, skip: set<string>): (o: Outcome)
    ensures Persisted(p) && NotPersisted <= skip ==> Persisted(o.props)
    decreases |es|
  {
    if es == [] then Outcome(p, None)
    else if es[0].key in skip then AssignAll(p, es[1..], skip)
    else match AssignProp(p, es[0].key, es[0].val)
      case Failure(e) => Outcome(p, Some(e))
      case Success(q) => AssignAll(q, es[1..], skip)
  }

  /** The keys of a sequence of entries. */
  function KeySet(es: seq<Entry>): set<string>
  {
    set i | 0 <= i < |es| :: es[i].key
  }

  predicate DistinctKeys(es: seq<Entry>)
  {
    forall i, j :: 0 <= i < j < |es| ==> es[i].key != es[j].key
  }

  lemma KeySetCons(es: seq<Entry>)
    requires es != []
    ensures KeySet(es) == {es[0].key} + KeySet(es[1..])
  {
    forall k | k in KeySet(es) ensures k in {es[0].key} + KeySet(es[1..]) {
      var i :| 0 <= i < |es| && es[i].key == k;
      if i > 0 {
        assert es[1..][i - 1] == es[i];
      }
    }
    forall k | k in KeySet(es[1..]) ensures k in KeySet(es) {
      var i :| 0 <= i < |es[1..]| && es[1..][i] == es[i + 1] && es[1..][i].key == k;
    }
  }

  /** Dropping the first entry keeps the keys distinct, and the first key is not among the rest. */
  lemma DistinctTail(es: seq<Entry>)
    requires es != [] && DistinctKeys(es)
    ensures DistinctKeys(es[1..]) && es[0].key !in KeySet(es[1..])
    ensures KeySet(es) == {es[0].key} + KeySet(es[1..])
    ensures forall a :: a in KeySet(es[1..]) ==> ModelProp(es, a) == ModelProp(es[1..], a)
  {
    var rest := es[1..];
    KeySetCons(es);
    forall i, j | 0 <= i < j < |rest| ensures rest[i].key != rest[j].key {
      assert rest[i] == es[i + 1] && rest[j] == es[j + 1];
    }
    forall i | 0 <= i < |rest| ensures rest[i].key != es[0].key {
      assert rest[i] == es[i + 1];
    }
  }

  /** `model[k]` for a model given by its entries. */
  function ModelProp(model: seq<Entry>, k: string): Value
  {
    Get(Obj(model), k)
  }

  lemma ModelPropCons(es: seq<Entry>, k: string)
    requires es != [] && es[0].key != k
    ensures ModelProp(es, k) == ModelProp(es[1..], k)
  {
  }

  lemma ModelPropAbsent(es: seq<Entry>, k: string)
    requires k !in KeySet(es)
    ensures ModelProp(es, k) == Undefined
  {
  }

  // ---------------------------------------------------------------------
  // restoreModel: clean-up, defaults, copy
  // ---------------------------------------------------------------------

  /** The clean-up: a property stays only where the model gives it a truthy value. */
  function CleanedUp(p: map<string, Value>, model: seq<Entry>): map<string, Value>
  {
    map k | k in p && (k in NotPersisted || Truthy(ModelProp(model, k))) :: p[k]
  }

  /** `defaultsDeep`: every missing persisted property gets its default. */
  function DefaultsFilled(p: map<string, Value>): map<string, Value>
  {
    map k | k in p.Keys + (Defaults.Keys - NotPersisted) :: if k in p then p[k] else Defaults[k]
  }

  /** The properties of a panel that holds the defaults and nothing else. */
  function DefaultProps(): (p: map<string, Value>)
    ensures Persisted(p)
  {
    OrdinaryKeys();
    DefaultsFilled(map[])
  }

  /** `restoreModel(model)` on a panel whose persisted properties are `p`. */
  function RestoredFrom(p: map<string, Value>, model: seq<Entry>): (o: Outcome)
    ensures Persisted(p) ==> Persisted(o.props)
  {
    AssignAll(DefaultsFilled(CleanedUp(p, model)), model, NotPersisted)
  }

  /** The model restored over the defaults alone. */
  function Restored(model: seq<Entry>): (o: Outcome)
    ensures Persisted(o.props)
  {
    AssignAll(DefaultProps(), model, NotPersisted)
  }

  /** `this.workflow[...] = ...` succeeds exactly on an object or an array. */
  predicate Writable(v: Value)
  {
    v.Obj? || v.Arr?
  }

  predicate AgreeOn(a: map<string, Value>, b: map<string, Value>, k: string)
  {
    (k in a <==> k in b) && (k in a ==> a[k] == b[k])
  }

  /**
   * Two panels that differ only in keys the model still assigns, and whose
   * workflows agree or can both take a property, end the copy loop alike.
   */
  lemma {:induction false} SameCopy(a: map<string, Value>, b: map<string, Value>, es: seq<Entry>)
    requires Persisted(a) && Persisted(b)
    requires forall k :: k !in KeySet(es) ==> AgreeOn(a, b, k)
    requires AgreeOn(a, b, "workflow") || (Writable(Prop(a, "workflow")) && Writable(Prop(b, "workflow")))
    ensures AssignAll(a, es, NotPersisted).error == AssignAll(b, es, NotPersisted).error
    ensures AssignAll(a, es, NotPersisted).error.None? ==> AssignAll(a, es, NotPersisted) == AssignAll(b, es, NotPersisted)
    decreases |es|
  {
    if es == [] {
      forall k | k in a ensures k in b && a[k] == b[k] {
        assert AgreeOn(a, b, k);
      }
      forall k | k in b ensures k in a {
        assert AgreeOn(a, b, k);
      }
      assert a == b;
    } else {
      var e := es[0];
      var rest := es[1..];
      KeySetCons(es);
      if e.key in NotPersisted {
        forall k | k !in KeySet(rest) ensures AgreeOn(a, b, k) {
          if k == e.key {
            assert k !in a && k !in b;
          }
        }
        SameCopy(a, b, rest);
      } else if e.key in Accessors {
        OrdinaryKeys();
        var f := AccessorField(e.key);
        var x := AccessorValue(e.key, e.val);
        var wa := WriteProp(Prop(a, "workflow"), f, x);
        var wb := WriteProp(Prop(b, "workflow"), f, x);
        if wa.Success? && wb.Success? {
          var a' := a["workflow" := wa.value];
          var b' := b["workflow" := wb.value];
          assert AssignProp(a, e.key, e.val) == Success(a');
          assert AssignProp(b, e.key, e.val) == Success(b');
          forall k | k !in KeySet(rest) ensures AgreeOn(a', b', k) {
            if k == e.key {
              assert k !in a' && k !in b';
            } else if k == "workflow" {
              assert k !in KeySet(es);
              assert Prop(a, k) == Prop(b, k);
              assert wa == wb;
            } else {
              assert k !in KeySet(es);
              assert AgreeOn(a, b, k);
            }
          }
          if !AgreeOn(a, b, "workflow") {
            assert Writable(wa.value) && Writable(wb.value);
          }
          SameCopy(a', b', rest);
        } else {
          assert AgreeOn(a, b, "workflow");
        }
      } else {
        var a' := a[e.key := e.val];
        var b' := b[e.key := e.val];
        forall k | k !in KeySet(rest) ensures AgreeOn(a', b', k) {
          if k != e.key {
            assert k !in KeySet(es);
            assert AgreeOn(a, b, k);
          }
        }
        SameCopy(a', b', rest);
      }
    }
  }

  /**
   * The three steps of `restoreModel` together forget whatever the panel
   * held before, as long as its workflow, if it has one, can take a
   * property: the outcome depends on the model alone. The error, if one is
   * raised, is the same either way.
   */
  lemma RestoreForgetsOldState(p: map<string, Value>, model: seq<Entry>)
    requires Persisted(p)
    requires "workflow" in p ==> Writable(p["workflow"])
    ensures RestoredFrom(p, model).error == Restored(model).error
    ensures Restored(model).error.None? ==> RestoredFrom(p, model) == Restored(model)
  {
    OrdinaryKeys();
    var d := DefaultsFilled(CleanedUp(p, model));
    forall k | k !in KeySet(model) ensures AgreeOn(d, DefaultProps(), k) {
      ModelPropAbsent(model, k);
    }
    assert Writable(Prop(d, "workflow"));
    assert Writable(Prop(DefaultProps(), "workflow"));
    SameCopy(d, DefaultProps(), model);
  }

  /**
   * Without that condition the old state shows through: a panel whose
   * workflow is a number throws on a model that sets the title before the
   * workflow, where a panel holding only the defaults restores it.
   */
  lemma OldWorkflowCanBreakRestore()
    ensures RestoredFrom(map["workflow" := Num(1)], [Entry("title", Str("T")), Entry("workflow", Obj([]))]).error == Some(TypeError)
  {
    var model := [Entry("title", Str("T")), Entry("workflow", Obj([]))];
    OrdinaryKeys();
    assert FindKey(model, "workflow") == Some(1);
    assert Prop(DefaultsFilled(CleanedUp(map["workflow" := Num(1)], model)), "workflow") == Num(1);
  }

  /** The same model restored over the defaults alone raises nothing. */
  lemma TitleBeforeWorkflowRestores()
    ensures Restored([Entry("title", Str("T")), Entry("workflow", Obj([]))]).error.None?
  {
    OrdinaryKeys();
    assert Prop(DefaultProps(), "workflow") == DefaultWorkflow;
  }

  /** A model of plain properties with distinct keys stands for the map `m`. */
  predicate Lists(es: seq<Entry>, m: map<string, Value>)
  {
    DistinctKeys(es)
    && (forall i :: 0 <= i < |es| ==> es[i].key in m && m[es[i].key] == es[i].val)
    && (forall k :: k in m ==> k in KeySet(es))
  }

  lemma ListsTail(es: seq<Entry>, m: map<string, Value>)
    requires Lists(es, m) && es != []
    ensures es[0].key in m && m[es[0].key] == es[0].val
    ensures Lists(es[1..], m - {es[0].key})
  {
    var rest := es[1..];
    var m' := m - {es[0].key};
    KeySetCons(es);
    forall i, j | 0 <= i < j < |rest| ensures rest[i].key != rest[j].key {
      assert rest[i] == es[i + 1] && rest[j] == es[j + 1];
    }
    forall i | 0 <= i < |rest| ensures rest[i].key in m' && m'[rest[i].key] == rest[i].val {
      assert rest[i] == es[i + 1];
    }
  }

  /** Copying a model without runtime keys and accessors lays its properties over the panel's. */
  lemma {:induction false} PlainCopy(q: map<string, Value>, es: seq<Entry>, m: map<string, Value>)
    requires Lists(es, m) && Persisted(m)
    ensures AssignAll(q, es, NotPersisted) == Outcome(q + m, None)
    decreases |es|
  {
    if es == [] {
      assert m == map[];
    } else {
      var e := es[0];
      var m' := m - {e.key};
      ListsTail(es, m);
      var q' := q[e.key := e.val];
      assert e.key !in NotPersisted && e.key !in Accessors;
      assert AssignAll(q, es, NotPersisted) == AssignAll(q', es[1..], NotPersisted);
      PlainCopy(q', es[1..], m');
      UpdateThenUnion(q, m, e.key);
    }
  }

  lemma UpdateThenUnion(q: map<string, Value>, m: map<string, Value>, k: string)
    requires k in m
    ensures q[k := m[k]] + (m - {k}) == q + m
  {
  }

  /**
   * Every plain property a model carries is copied in; every other one is
   * the default.
   */
  lemma RestoredCopies(model: seq<Entry>, k: string)
    requires DistinctKeys(model) && k !in Accessors && k !in NotPersisted
    requires k == "workflow" ==> NoAccessors(model, NotPersisted)
    requires Restored(model).error.None?
    ensures k in KeySet(model) ==> k in Restored(model).props && Restored(model).props[k] == ModelProp(model, k)
    ensures k !in KeySet(model) ==> AgreeOn(Restored(model).props, DefaultProps(), k)
  {
    AssignAllKey(DefaultProps(), model, NotPersisted, k);
  }

  // ---------------------------------------------------------------------
  // What the accessors write
  // ---------------------------------------------------------------------

  /** The workflow fields the accessors among `es` (and not in `skip`) write. */
  function WrittenFields(es: seq<Entry>, skip: set<string>): set<string>
  {
    set a | a in Accessors && a !in skip && a in KeySet(es) :: AccessorField(a)
  }

  lemma WrittenFieldsCons(es: seq<Entry>, skip: set<string>)
    requires es != []
    ensures WrittenFields(es, skip) == WrittenFields(es[1..], skip)
      + (if es[0].key in Accessors && es[0].key !in skip then {AccessorField(es[0].key)} else {})
  {
    KeySetCons(es);
  }

  /**
   * A model without a workflow of its own sends its `id`, `title` and
   * `description` through the setters into the panel's workflow object:
   * each written field holds what its setter stores, every other field of
   * the workflow is left as it was.
   */
  lemma {:induction false} AccessorsLandInWorkflow(p: map<string, Value>, es: seq<Entry>, skip: set<string>)
    requires WorkflowOf(p).Obj? && "workflow" !in KeySet(es) && DistinctKeys(es)
    ensures AssignAll(p, es, skip).error.None?
    ensures WorkflowOf(AssignAll(p, es, skip).props).Obj?
    ensures forall a :: a in Accessors && a !in skip && a in KeySet(es) ==>
      Get(WorkflowOf(AssignAll(p, es, skip).props), AccessorField(a)) == AccessorValue(a, ModelProp(es, a))
    ensures forall f :: f !in WrittenFields(es, skip) ==>
      Get(WorkflowOf(AssignAll(p, es, skip).props), f) == Get(WorkflowOf(p), f)
    decreases |es|
  {
    if es != [] {
      var e := es[0];
      var rest := es[1..];
      DistinctTail(es);
      WrittenFieldsCons(es, skip);
      if e.key in skip {
        AccessorsLandInWorkflow(p, rest, skip);
      } else if e.key in Accessors {
        var f := AccessorField(e.key);
        var x := AccessorValue(e.key, e.val);
        var w := WorkflowOf(p);
        var q := p["workflow" := Put(w, f, x)];
        assert AssignProp(p, e.key, e.val) == Success(q);
        PutReads(w, f, x);
        AccessorsLandInWorkflow(q, rest, skip);
        assert f !in WrittenFields(rest, skip);
      } else {
        var q := p[e.key := e.val];
        AccessorsLandInWorkflow(q, rest, skip);
      }
    }
  }

  /** An `id` entry goes through the setter into the workflow and reads back through the getter. */
  lemma IdEntryThroughSetter(p: map<string, Value>, n: int)
    requires WorkflowOf(p).Obj? && "id" !in p
    ensures AssignAll(p, [Entry("id", Num(n))], NotPersisted).error.None?
    ensures "id" !in AssignAll(p, [Entry("id", Num(n))], NotPersisted).props
    ensures PanelId(AssignAll(p, [Entry("id", Num(n))], NotPersisted).props) == Success(Some(n))
  {
    var es := [Entry("id", Num(n))];
    IdRoundTrip(p, n);
    var q := WithId(p, n).value;
    AccessorKeys();
    assert "id" in Accessors;
    assert AssignProp(p, "id", Num(n)) == Success(q);
    assert es[1..] == [];
    assert AssignAll(p, es, NotPersisted) == AssignAll(q, [], NotPersisted);
  }

  /** One accessor of the model, as `AccessorsLandInWorkflow` states it. */
  lemma AccessorLands(p: map<string, Value>, es: seq<Entry>, skip: set<string>, a: string)
    requires WorkflowOf(p).Obj? && "workflow" !in KeySet(es) && DistinctKeys(es)
    requires a in Accessors && a !in skip && a in KeySet(es)
    ensures Get(WorkflowOf(AssignAll(p, es, skip).props), AccessorField(a)) == AccessorValue(a, ModelProp(es, a))
  {
    AccessorsLandInWorkflow(p, es, skip);
  }

  /** One workflow field no accessor of the model writes, as `AccessorsLandInWorkflow` states it. */
  lemma FieldUntouched(p: map<string, Value>, es: seq<Entry>, skip: set<string>, f: string)
    requires WorkflowOf(p).Obj? && "workflow" !in KeySet(es) && DistinctKeys(es)
    requires f !in WrittenFields(es, skip)
    ensures Get(WorkflowOf(AssignAll(p, es, skip).props), f) == Get(WorkflowOf(p), f)
  {
    AccessorsLandInWorkflow(p, es, skip);
  }

  /** A model's `id` never becomes a property of its own: it lands in the workflow. */
  lemma RestoredIdThroughSetter(n: int)
    ensures Restored([Entry("id", Num(n))]).error.None?
    ensures "id" !in Restored([Entry("id", Num(n))]).props
    ensures PanelId(Restored([Entry("id", Num(n))]).props) == Success(Some(n))
  {
    FreshWorkflow();
    IdEntryThroughSetter(DefaultProps(), n);
  }

  // ---------------------------------------------------------------------
  // getSaveModel
  // ---------------------------------------------------------------------

  /** The save model: every persisted property that differs from its default. */
  function SaveModelOf(p: map<string, Value>): map<string, Value>
  {
    map k | k in p && k !in NotPersisted && !DeepEqual(p[k], DefaultOf(k)) :: p[k]
  }

  lemma DeepEqualUndefined(v: Value)
    requires DeepEqual(v, Undefined)
    ensures v == Undefined
  {
  }

  /**
   * Restoring a save model, listed in any order, gives back every
   * property (up to deep equality), except properties holding
   * `undefined`, which read the same when absent; everything else restored
   * is a default.
   */
  lemma SaveRestoreRoundTrip(p: map<string, Value>, es: seq<Entry>)
    requires Persisted(p) && Lists(es, SaveModelOf(p))
    ensures Restored(es).error.None?
    ensures forall k :: k in p ==>
      (k in Restored(es).props && DeepEqual(p[k], Restored(es).props[k]))
      || (k !in Restored(es).props && p[k] == Undefined)
    ensures forall k :: k in Restored(es).props ==> k in p || (k in Defaults && Restored(es).props[k] == Defaults[k])
  {
    var s := SaveModelOf(p);
    PlainCopy(DefaultProps(), es, s);
    var r := Restored(es).props;
    assert r == DefaultProps() + s;
    forall k | k in r && k !in p ensures k in Defaults && r[k] == Defaults[k] {
      assert k in DefaultProps();
    }
    forall k | k in p
      ensures (k in r && DeepEqual(p[k], r[k])) || (k !in r && p[k] == Undefined)
    {
      if k in s {
        DeepEqualReflexive(p[k]);
      } else if k !in Defaults {
        DeepEqualUndefined(p[k]);
      }
    }
  }

  /** A panel restored from an empty model saves as an empty model. */
  lemma FreshPanelSavesNothing()
    ensures SaveModelOf(Restored([]).props) == map[]
  {
    var r := Restored([]).props;
    forall k | k in r ensures DeepEqual(r[k], DefaultOf(k)) {
      DeepEqualReflexive(r[k]);
    }
  }

  // ---------------------------------------------------------------------
  // updateGridPos
  // ---------------------------------------------------------------------

  datatype GridPos = GridPos(x: int, y: int, w: int, h: int)

  /** The four coordinates of the stored position equal (`===`) the new ones. */
  predicate SamePos(gp: Value, pos: GridPos)
  {
    Get(gp, "x") == Num(pos.x) && Get(gp, "y") == Num(pos.y)
    && Get(gp, "h") == Num(pos.h) && Get(gp, "w") == Num(pos.w)
  }

  /** The stored position with x, y, w and h written in that order. */
  function Moved(gp: Value, pos: GridPos): Value
  {
    Put(Put(Put(Put(gp, "x", Num(pos.x)), "y", Num(pos.y)), "w", Num(pos.w)), "h", Num(pos.h))
  }

  lemma PutReads(v: Value, k: string, x: Value)
    requires v.Obj?
    ensures Put(v, k, x).Obj?
    ensures forall k2 :: Get(Put(v, k, x), k2) == if k2 == k then x else Get(v, k2)
  {
    forall k2 ensures Get(Put(v, k, x), k2) == if k2 == k then x else Get(v, k2) {
      GetAfterSetEntry(v.entries, k, x, k2);
    }
  }

  /** A moved position reads back as the new one and keeps its other properties. */
  lemma MovedReadsBack(gp: Value, pos: GridPos)
    requires gp.Obj?
    ensures SamePos(Moved(gp, pos), pos)
    ensures forall k :: k != "x" && k != "y" && k != "w" && k != "h" ==> Get(Moved(gp, pos), k) == Get(gp, k)
  {
    var g1 := Put(gp, "x", Num(pos.x));
    PutReads(gp, "x", Num(pos.x));
    var g2 := Put(g1, "y", Num(pos.y));
    PutReads(g1, "y", Num(pos.y));
    var g3 := Put(g2, "w", Num(pos.w));
    PutReads(g2, "w", Num(pos.w));
    var g4 := Put(g3, "h", Num(pos.h));
    PutReads(g3, "h", Num(pos.h));
    assert Moved(gp, pos) == g4;
    assert "x" != "y" && "x" != "w" && "x" != "h" && "y" != "w" && "y" != "h" && "w" != "h";
    assert Get(g4, "x") == Get(g1, "x") == Num(pos.x);
    assert Get(g4, "y") == Get(g2, "y") == Num(pos.y);
    assert Get(g4, "w") == Num(pos.w);
  }

  // ---------------------------------------------------------------------
  // Changing the panel plugin
  // ---------------------------------------------------------------------

  /** The remembered properties and field config of a plugin the panel had. */
  datatype PanelOptionsCache = PanelOptionsCache(properties: map<string, Value>, fieldConfig: Value)

  /** What `getPanelOptionsWithDefaults` returns. */
  datatype OptionsWithDefaults = OptionsWithDefaults(options: Value, fieldConfig: Value)

  /**
   * The parts of a panel plugin the panel reads: its id and version,
   * whether it migrates panel options, its type-change handler (the
   * panel's properties, previous plugin id, previous options and current
   * field config to options to merge)
   * and its defaults (current options and field config to new ones).
   */
  datatype PanelPlugin = PanelPlugin(
    id: string,
    version: string,
    hasMigration: bool,
    onTypeChanged: Option<(map<string, Value>, Value, Value, Value) -> Value>,
    withDefaults: (Value, Value) -> OptionsWithDefaults)

  /**
   * `filterFieldConfigOverrides(overrides, isStandardFieldProp)` and
   * `restoreCustomOverrideRules(current, previous)`, from outside the panel.
   */
  datatype FieldConfigRules = FieldConfigRules(
    filterOverrides: Value -> Value,
    restoreRules: (Value, Value) -> Value)

  /** `getOptionsToRemember`: everything a plugin change does not keep. */
  function OptionsToRemember(p: map<string, Value>): map<string, Value>
  {
    map k | k in p && k !in NotPersisted && k !in MustKeep :: p[k]
  }

  /** The cache key of the current plugin: `String(this.type)`. */
  function TypeKey(p: map<string, Value>): string
  {
    ToJsString(Prop(p, "type"))
  }

  /** What a plugin change records for the plugin left. */
  function Remembered(p: map<string, Value>): PanelOptionsCache
  {
    PanelOptionsCache(OptionsToRemember(p), Prop(p, "fieldConfig"))
  }

  /** A cache entry holds only properties a plugin change removes. */
  predicate CacheEntryValid(c: PanelOptionsCache)
  {
    forall k :: k in c.properties ==> k !in NotPersisted && k !in MustKeep && k !in Accessors
  }

  /** The deletions and `options = {}` that start the clear. */
  function Stripped(p: map<string, Value>): map<string, Value>
  {
    (map k | k in p && k in MustKeep :: p[k])["options" := Obj([])]
  }

  /** `{ ...defaults, custom: {} }`. */
  function WithEmptyCustom(d: Value): Value
  {
    Obj(SetEntry(OwnEntries(d), "custom", Obj([])))
  }

  /** The field config the clear leaves; reading through a missing one is a TypeError. */
  function ClearedFieldConfig(fc: Value, rules: FieldConfigRules): Result<Value, PanelError>
  {
    if Nullish(fc) then Failure(TypeError)
    else Success(Obj([Entry("defaults", WithEmptyCustom(Get(fc, "defaults"))),
                      Entry("overrides", rules.filterOverrides(Get(fc, "overrides")))]))
  }

  /** `clearPropertiesBeforePluginChange`. */
  function Cleared(p: map<string, Value>, rules: FieldConfigRules): Result<map<string, Value>, PanelError>
  {
    var fc :- ClearedFieldConfig(Prop(p, "fieldConfig"), rules);
    Success(Stripped(p)["fieldConfig" := fc])
  }

  /**
   * After a successful clear only the kept properties, empty options and a
   * field config whose custom defaults are empty remain; the kept ones are
   * unchanged.
   */
  lemma ClearKeepsOnlyMustKeep(p: map<string, Value>, rules: FieldConfigRules)
    requires Cleared(p, rules).Success?
    ensures forall k :: k in Cleared(p, rules).value ==> k in MustKeep || k == "options"
    ensures forall k :: k in MustKeep && k != "fieldConfig" ==>
      (k in Cleared(p, rules).value <==> k in p)
      && (k in p ==> Cleared(p, rules).value[k] == p[k])
    ensures Cleared(p, rules).value["options"] == Obj([])
    ensures Get(Get(Cleared(p, rules).value["fieldConfig"], "defaults"), "custom") == Obj([])
  {
    OrdinaryKeys();
    var fc := Prop(p, "fieldConfig");
    var d := Get(fc, "defaults");
    GetAfterSetEntry(OwnEntries(d), "custom", Obj([]), "custom");
    var c := ClearedFieldConfig(fc, rules).value;
    assert FindKey(c.entries, "defaults") == Some(0);
  }

  /** A cleared default keeps its other properties. */
  lemma WithEmptyCustomKeeps(d: Value, k: string)
    requires d.Obj? && k != "custom"
    ensures Get(WithEmptyCustom(d), k) == Get(d, k)
  {
    GetAfterSetEntry(d.entries, "custom", Obj([]), k);
  }

  /** `restorePanelOptions(pluginId)`, given the cache entry of that plugin. */
  function OptionsRestored(p: map<string, Value>, cached: Option<PanelOptionsCache>, rules: FieldConfigRules): map<string, Value>
  {
    match cached
    case None => p
    case Some(c) =>
      var q := p + c.properties;
      q["fieldConfig" := rules.restoreRules(Prop(q, "fieldConfig"), c.fieldConfig)]
  }

  /** `Object.assign(target, patch)` onto the options: a missing target is a TypeError. */
  function Assigned(target: Value, patch: Value): Result<Value, PanelError>
  {
    if Nullish(target) then Failure(TypeError)
    else if target.Obj? then Success(Obj(AssignEntries(target.entries, OwnEntries(patch))))
    else Success(target)
  }

  function AssignEntries(es: seq<Entry>, src: seq<Entry>): seq<Entry>
    decreases |src|
  {
    if src == [] then es else AssignEntries(SetEntry(es, src[0].key, src[0].val), src[1..])
  }

  /**
   * `callPanelTypeChangeHandler(newPlugin, oldPluginId, oldOptions)`. The
   * handler reads the panel's properties; it is taken to write nothing to
   * the panel itself, so only its result reaches the options.
   */
  function TypeChangeHandled(p: map<string, Value>, np: PanelPlugin, oldPluginId: Value,
                             oldOptions: map<string, Value>): Result<map<string, Value>, PanelError>
  {
    match np.onTypeChanged
    case None => Success(p)
    case Some(handler) =>
      var o :- Assigned(Prop(p, "options"), handler(p, oldPluginId, Prop(oldOptions, "options"), Prop(p, "fieldConfig")));
      Success(p["options" := o])
  }

  /** `applyPluginOptionDefaults(plugin, true)`. */
  function WithPluginDefaults(p: map<string, Value>, np: PanelPlugin): map<string, Value>
  {
    var d := np.withDefaults(Prop(p, "options"), Prop(p, "fieldConfig"));
    p["fieldConfig" := d.fieldConfig]["options" := d.options]
  }

  /** `getPluginVersion`: the plugin's version, or the build's when it has none. */
  function PluginVersion(np: PanelPlugin, buildVersion: string): string
  {
    if np.version != "" then np.version else buildVersion
  }

  /** The switch itself: the new type, the plugin's defaults and, for a migrating plugin, its version. */
  function Switched(h: map<string, Value>, np: PanelPlugin, buildVersion: string): map<string, Value>
  {
    var d := WithPluginDefaults(h["type" := Str(np.id)], np);
    if np.hasMigration then d["pluginVersion" := Str(PluginVersion(np, buildVersion))] else d
  }

  /**
   * `changePlugin` after the old plugin's options are cached: clear,
   * restore the new plugin's cached options, let the new plugin adapt the
   * options, then switch. `cache` already holds the entry for the plugin
   * left.
   */
  function PluginChange(p: map<string, Value>, cache: map<string, PanelOptionsCache>, np: PanelPlugin,
                        rules: FieldConfigRules, buildVersion: string): Outcome
  {
    match Cleared(p, rules)
    case Failure(e) => Outcome(Stripped(p), Some(e))
    case Success(c) => Adopted(c, cache, np, Prop(p, "type"), OptionsToRemember(p), rules, buildVersion)
  }

  /** The rest of `changePlugin` once the panel is cleared. */
  function Adopted(c: map<string, Value>, cache: map<string, PanelOptionsCache>, np: PanelPlugin,
                   oldPluginId: Value, oldOptions: map<string, Value>,
                   rules: FieldConfigRules, buildVersion: string): Outcome
  {
    var restored := OptionsRestored(c, CacheLookup(cache, np.id), rules);
    match TypeChangeHandled(restored, np, oldPluginId, oldOptions)
    case Failure(e) => Outcome(restored, Some(e))
    case Success(h) => Outcome(Switched(h, np, buildVersion), None)
  }

  /** `cachedPluginOptions[pluginId]`. */
  function CacheLookup(cache: map<string, PanelOptionsCache>, id: string): Option<PanelOptionsCache>
  {
    if id in cache then Some(cache[id]) else None
  }

  lemma RememberedValid(p: map<string, Value>)
    requires Persisted(p)
    ensures CacheEntryValid(Remembered(p))
  {
  }

  lemma PluginChangeAtClear(p: map<string, Value>, cache: map<string, PanelOptionsCache>, np: PanelPlugin,
                            rules: FieldConfigRules, buildVersion: string)
    requires Cleared(p, rules).Failure?
    ensures PluginChange(p, cache, np, rules, buildVersion) == Outcome(Stripped(p), Some(Cleared(p, rules).error))
  {
  }

  lemma AdoptedAtHandler(c: map<string, Value>, cache: map<string, PanelOptionsCache>, np: PanelPlugin,
                         oldPluginId: Value, oldOptions: map<string, Value>,
                         rules: FieldConfigRules, buildVersion: string, restored: map<string, Value>)
    requires restored == OptionsRestored(c, CacheLookup(cache, np.id), rules)
    ensures TypeChangeHandled(restored, np, oldPluginId, oldOptions).Failure? ==>
      Adopted(c, cache, np, oldPluginId, oldOptions, rules, buildVersion)
        == Outcome(restored, Some(TypeChangeHandled(restored, np, oldPluginId, oldOptions).error))
    ensures TypeChangeHandled(restored, np, oldPluginId, oldOptions).Success? ==>
      Adopted(c, cache, np, oldPluginId, oldOptions, rules, buildVersion)
        == Outcome(Switched(TypeChangeHandled(restored, np, oldPluginId, oldOptions).value, np, buildVersion), None)
  {
  }

  lemma RestoredKeeps(c: map<string, Value>, cached: Option<PanelOptionsCache>, rules: FieldConfigRules)
    requires cached.Some? ==> CacheEntryValid(cached.value)
    ensures forall k :: k in MustKeep && k != "fieldConfig" ==>
      (k in OptionsRestored(c, cached, rules) <==> k in c)
      && (k in c ==> OptionsRestored(c, cached, rules)[k] == c[k])
  {
    OrdinaryKeys();
  }

  lemma RestoredBrings(c: map<string, Value>, entry: PanelOptionsCache, rules: FieldConfigRules)
    requires CacheEntryValid(entry)
    requires forall k :: k in c ==> k in MustKeep || k == "options"
    ensures forall k :: k !in MustKeep && k != "options" ==>
      (k in OptionsRestored(c, Some(entry), rules) <==> k in entry.properties)
      && (k in entry.properties ==> OptionsRestored(c, Some(entry), rules)[k] == entry.properties[k])
  {
    OrdinaryKeys();
  }

  lemma HandledTouchesOptions(p: map<string, Value>, np: PanelPlugin, oldPluginId: Value, oldOptions: map<string, Value>)
    requires TypeChangeHandled(p, np, oldPluginId, oldOptions).Success?
    ensures forall k :: k != "options" ==>
      (k in TypeChangeHandled(p, np, oldPluginId, oldOptions).value <==> k in p)
      && (k in p ==> TypeChangeHandled(p, np, oldPluginId, oldOptions).value[k] == p[k])
  {
    OrdinaryKeys();
  }

  lemma SwitchedTouches(h: map<string, Value>, np: PanelPlugin, buildVersion: string)
    ensures "type" in Switched(h, np, buildVersion) && Switched(h, np, buildVersion)["type"] == Str(np.id)
    ensures forall k :: k != "options" && k != "fieldConfig" && k != "pluginVersion" && k != "type" ==>
      (k in Switched(h, np, buildVersion) <==> k in h)
      && (k in h ==> Switched(h, np, buildVersion)[k] == h[k])
  {
    OrdinaryKeys();
  }

  lemma SwitchedPersisted(p: map<string, Value>, np: PanelPlugin, oldPluginId: Value,
                          oldOptions: map<string, Value>, buildVersion: string)
    requires Persisted(p)
    requires TypeChangeHandled(p, np, oldPluginId, oldOptions).Success?
    ensures Persisted(Switched(TypeChangeHandled(p, np, oldPluginId, oldOptions).value, np, buildVersion))
  {
    OrdinaryKeys();
  }

  /**
   * A successful plugin change sets the type to the new plugin's id; every
   * kept property other than the field config and the plugin version is
   * left as it was.
   */
  lemma PluginChangeKeeps(p: map<string, Value>, cache: map<string, PanelOptionsCache>, np: PanelPlugin,
                          rules: FieldConfigRules, buildVersion: string)
    requires forall id :: id in cache ==> CacheEntryValid(cache[id])
    requires PluginChange(p, cache, np, rules, buildVersion).error.None?
    ensures "type" in PluginChange(p, cache, np, rules, buildVersion).props
    ensures PluginChange(p, cache, np, rules, buildVersion).props["type"] == Str(np.id)
    ensures TypeKey(PluginChange(p, cache, np, rules, buildVersion).props) == np.id
    ensures forall k :: k in MustKeep && k != "type" && k != "fieldConfig" && k != "pluginVersion" ==>
      (k in PluginChange(p, cache, np, rules, buildVersion).props <==> k in p)
      && (k in p ==> PluginChange(p, cache, np, rules, buildVersion).props[k] == p[k])
  {
    OrdinaryKeys();
    var cached := if np.id in cache then Some(cache[np.id]) else None;
    assert Cleared(p, rules).Success?;
    var c := Cleared(p, rules).value;
    ClearKeepsOnlyMustKeep(p, rules);
    var restored := OptionsRestored(c, cached, rules);
    RestoredKeeps(c, cached, rules);
    assert TypeChangeHandled(restored, np, Prop(p, "type"), OptionsToRemember(p)).Success?;
    var h := TypeChangeHandled(restored, np, Prop(p, "type"), OptionsToRemember(p)).value;
    HandledTouchesOptions(restored, np, Prop(p, "type"), OptionsToRemember(p));
    SwitchedTouches(h, np, buildVersion);
    assert PluginChange(p, cache, np, rules, buildVersion).props == Switched(h, np, buildVersion);
  }

  /**
   * Coming back to a plugin whose options were remembered brings back
   * exactly the remembered properties, apart from the options, which the
   * new plugin may rewrite.
   */
  lemma PluginChangeBringsBack(p: map<string, Value>, cache: map<string, PanelOptionsCache>, np: PanelPlugin,
                               rules: FieldConfigRules, buildVersion: string)
    requires np.id in cache && CacheEntryValid(cache[np.id])
    requires PluginChange(p, cache, np, rules, buildVersion).error.None?
    ensures forall k :: k !in MustKeep && k != "options" ==>
      (k in PluginChange(p, cache, np, rules, buildVersion).props <==> k in cache[np.id].properties)
      && (k in cache[np.id].properties ==> PluginChange(p, cache, np, rules, buildVersion).props[k] == cache[np.id].properties[k])
  {
    OrdinaryKeys();
    assert Cleared(p, rules).Success?;
    var c := Cleared(p, rules).value;
    ClearKeepsOnlyMustKeep(p, rules);
    var restored := OptionsRestored(c, Some(cache[np.id]), rules);
    RestoredBrings(c, cache[np.id], rules);
    assert TypeChangeHandled(restored, np, Prop(p, "type"), OptionsToRemember(p)).Success?;
    var h := TypeChangeHandled(restored, np, Prop(p, "type"), OptionsToRemember(p)).value;
    HandledTouchesOptions(restored, np, Prop(p, "type"), OptionsToRemember(p));
    SwitchedTouches(h, np, buildVersion);
    assert PluginChange(p, cache, np, rules, buildVersion).props == Switched(h, np, buildVersion);
  }

  /**
   * Switching from one plugin to another and back restores every
   * persisted property that the plugin change removes, except the options.
   */
  lemma SwitchBackRestoresOptions(p: map<string, Value>, cache: map<string, PanelOptionsCache>,
                                  other: PanelPlugin, back: PanelPlugin,
                                  rules: FieldConfigRules, buildVersion: string)
    requires Persisted(p) && forall id :: id in cache ==> CacheEntryValid(cache[id])
    requires other.id != TypeKey(p) && back.id == TypeKey(p)
    requires PluginChange(p, cache[TypeKey(p) := Remembered(p)], other, rules, buildVersion).error.None?
    requires
      var p1 := PluginChange(p, cache[TypeKey(p) := Remembered(p)], other, rules, buildVersion).props;
      PluginChange(p1, cache[TypeKey(p) := Remembered(p)][TypeKey(p1) := Remembered(p1)], back, rules, buildVersion).error.None?
    ensures
      var p1 := PluginChange(p, cache[TypeKey(p) := Remembered(p)], other, rules, buildVersion).props;
      var p2 := PluginChange(p1, cache[TypeKey(p) := Remembered(p)][TypeKey(p1) := Remembered(p1)], back, rules, buildVersion).props;
      forall k :: k !in MustKeep && k !in NotPersisted && k != "options" ==>
        (k in p2 <==> k in p) && (k in p ==> p2[k] == p[k])
  {
    OrdinaryKeys();
    var cache1 := cache[TypeKey(p) := Remembered(p)];
    var p1 := PluginChange(p, cache1, other, rules, buildVersion).props;
    PluginChangeKeeps(p, cache1, other, rules, buildVersion);
    assert TypeKey(p1) == other.id;
    var cache2 := cache1[TypeKey(p1) := Remembered(p1)];
    assert cache2[back.id] == Remembered(p);
    PluginChangeBringsBack(p1, cache2, back, rules, buildVersion);
  }

  // ---------------------------------------------------------------------
  // The workflow: id, title, description and its JSON text
  // ---------------------------------------------------------------------

  function WorkflowOf(p: map<string, Value>): Value
  {
    Prop(p, "workflow")
  }

  /** `v[k]`: reading through `undefined` or `null` is a TypeError. */
  function ReadProp(v: Value, k: string): Result<Value, PanelError>
  {
    if Nullish(v) then Failure(TypeError) else Success(Get(v, k))
  }

  /**
   * `v[k] = x` in strict mode: a TypeError on `undefined`, `null`, a
   * boolean, a number or a string; an array is left as it is.
   */
  function WriteProp(v: Value, k: string, x: Value): Result<Value, PanelError>
  {
    if v.Obj? then Success(Put(v, k, x))
    else if v.Arr? then Success(v)
    else Failure(TypeError)
  }

  /** The `id` getter: `parseInt(workflow.id, 10)`, None standing for NaN. */
  function PanelId(p: map<string, Value>): Result<Option<int>, PanelError>
  {
    var id :- ReadProp(WorkflowOf(p), "id");
    Success(JsNumber.ParseInt(ToJsString(id)))
  }

  /** The `id` setter: `workflow.id = String(n)`. */
  function WithId(p: map<string, Value>, n: int): Result<map<string, Value>, PanelError>
  {
    WithWorkflowField(p, "id", Str(JsNumber.IntToString(n)))
  }

  /** The `title` and `description` getters: `workflow[field] || ""`. */
  function WorkflowText(p: map<string, Value>, field: string): Result<Value, PanelError>
  {
    var v :- ReadProp(WorkflowOf(p), field);
    Success(if Truthy(v) then v else Str(""))
  }

  /** The `title` and `description` setters: `workflow[field] = s`. */
  function WithWorkflowText(p: map<string, Value>, field: string, s: string): Result<map<string, Value>, PanelError>
  {
    WithWorkflowField(p, field, Str(s))
  }

  /** A panel id written through the setter reads back through the getter. */
  lemma IdRoundTrip(p: map<string, Value>, n: int)
    requires WorkflowOf(p).Obj?
    ensures WithId(p, n).Success?
    ensures PanelId(WithId(p, n).value) == Success(Some(n))
  {
    var w := WorkflowOf(p);
    var x := Str(JsNumber.IntToString(n));
    var q := p["workflow" := Put(w, "id", x)];
    assert WithId(p, n) == Success(q);
    GetAfterSetEntry(w.entries, "id", x, "id");
    assert ReadProp(WorkflowOf(q), "id") == Success(x);
    JsNumber.ParseIntOfIntToString(n);
  }

  /** A title or description written through its setter reads back through its getter. */
  lemma TextRoundTrip(p: map<string, Value>, field: string, s: string)
    requires WorkflowOf(p).Obj?
    ensures WithWorkflowText(p, field, s).Success?
    ensures WorkflowText(WithWorkflowText(p, field, s).value, field) == Success(Str(s))
  {
    GetAfterSetEntry(WorkflowOf(p).entries, field, Str(s), field);
  }

  /** The default workflow has an empty id, which `parseInt` reads as NaN. */
  lemma FreshPanelHasNoId()
    ensures PanelId(Restored([]).props) == Success(None)
  {
    FreshWorkflow();
    FindKeyAt(DefaultWorkflow.entries, "id", 0);
    assert ReadProp(DefaultWorkflow, "id") == Success(Str(""));
    assert ToJsString(Str("")) == "";
    assert JsNumber.ParseInt("") == None;
  }

  /** The default workflow has an empty name, so a new panel's title is empty. */
  lemma FreshPanelHasNoTitle()
    ensures WorkflowText(Restored([]).props, "name") == Success(Str(""))
  {
    FreshWorkflow();
    FindKeyAt(DefaultWorkflow.entries, "name", 3);
    assert ReadProp(DefaultWorkflow, "name") == Success(Str(""));
  }

  lemma FreshWorkflow()
    ensures WorkflowOf(Restored([]).props) == DefaultWorkflow
  {
    OrdinaryKeys();
    assert Restored([]) == Outcome(DefaultProps(), None);
    assert "workflow" in Defaults;
  }

  /** `getWorkflowText`: `JSON.stringify(workflow, undefined, 2)`. */
  function WorkflowJson(p: map<string, Value>): Option<string>
  {
    JsonText.Stringify(WorkflowOf(p))
  }

  /** `setWorkflowText`: `workflow = JSON.parse(text)`. */
  function WithWorkflowJson(p: map<string, Value>, text: string): Result<map<string, Value>, PanelError>
  {
    match JsonText.Parse(text)
    case Failure(_) => Failure(SyntaxError)
    case Success(w) => Success(p["workflow" := w])
  }

  /** Setting the workflow to its own JSON text leaves the panel as it was. */
  lemma WorkflowJsonRoundTrip(p: map<string, Value>)
    requires "workflow" in p && JsonText.IsJson(p["workflow"])
    ensures WorkflowJson(p).Some?
    ensures WithWorkflowJson(p, WorkflowJson(p).value) == Success(p)
  {
    JsonText.StringifyParseRoundTrip(p["workflow"]);
    assert p["workflow" := p["workflow"]] == p;
  }

  // ---------------------------------------------------------------------
  // Library panels
  // ---------------------------------------------------------------------

  /** Keys of a library panel's model that `initLibraryPanel` does not copy. */
  const LibrarySkipped: set<string> := {"id", "gridPos", "libraryPanel"}

  /** The keys the copy loop of `initLibraryPanel` passes over. */
  const LibrarySkip: set<string> := LibrarySkipped + NotPersisted

  /** No entry of `es` outside `skip` names an accessor. */
  predicate NoAccessors(es: seq<Entry>, skip: set<string>)
  {
    forall i :: 0 <= i < |es| ==> es[i].key !in Accessors || es[i].key in skip
  }

  /**
   * What a copy loop that raised nothing leaves under a key that is not an
   * accessor: the model's value where the model has the key and does not
   * skip it, the old value otherwise. The workflow obeys the same rule when
   * no accessor writes into it.
   */
  lemma {:induction false} AssignAllKey(p: map<string, Value>, es: seq<Entry>, skip: set<string>, k: string)
    requires DistinctKeys(es) && k !in Accessors
    requires k == "workflow" ==> NoAccessors(es, skip)
    requires AssignAll(p, es, skip).error.None?
    ensures k !in skip && k in KeySet(es) ==>
      k in AssignAll(p, es, skip).props && AssignAll(p, es, skip).props[k] == ModelProp(es, k)
    ensures k in skip || k !in KeySet(es) ==> AgreeOn(AssignAll(p, es, skip).props, p, k)
    decreases |es|
  {
    if es != [] {
      var e := es[0];
      var rest := es[1..];
      DistinctTail(es);
      assert k == "workflow" ==> NoAccessors(rest, skip) by {
        if k == "workflow" {
          forall i | 0 <= i < |rest| ensures rest[i].key !in Accessors || rest[i].key in skip {
            assert rest[i] == es[i + 1];
          }
        }
      }
      if e.key != k {
        ModelPropCons(es, k);
      }
      if e.key in skip {
        AssignAllKey(p, rest, skip, k);
      } else {
        var q := AssignProp(p, e.key, e.val).value;
        AssignAllKey(q, rest, skip, k);
      }
    }
  }

  /**
   * Linking a library panel whose copy raised nothing copies every property
   * of its model except the id, the grid position and the link itself (and
   * runtime fields); every other property is left as it was. The workflow
   * is copied too when the model has no `title` or `description`, as a
   * saved model never has.
   */
  lemma LibraryPanelCopies(p: map<string, Value>, m: Value)
    requires m.Obj? && DistinctKeys(m.entries)
    requires AssignAll(p, m.entries, LibrarySkip).error.None?
    ensures forall k :: (k !in LibrarySkip && k !in Accessors && HasKey(m, k)
      && (k == "workflow" ==> NoAccessors(m.entries, LibrarySkip))) ==>
      k in AssignAll(p, m.entries, LibrarySkip).props && AssignAll(p, m.entries, LibrarySkip).props[k] == Get(m, k)
    ensures forall k :: (k !in Accessors && (k in LibrarySkip || !HasKey(m, k))
      && (k == "workflow" ==> NoAccessors(m.entries, LibrarySkip))) ==>
      AgreeOn(AssignAll(p, m.entries, LibrarySkip).props, p, k)
  {
    forall k | k !in Accessors && (k == "workflow" ==> NoAccessors(m.entries, LibrarySkip))
      ensures k !in LibrarySkip && HasKey(m, k) ==>
        k in AssignAll(p, m.entries, LibrarySkip).props && AssignAll(p, m.entries, LibrarySkip).props[k] == Get(m, k)
      ensures k in LibrarySkip || !HasKey(m, k) ==> AgreeOn(AssignAll(p, m.entries, LibrarySkip).props, p, k)
    {
      AssignAllKey(p, m.entries, LibrarySkip, k);
      if HasKey(m, k) {
        assert m.entries[FindKey(m.entries, k).value].key in KeySet(m.entries);
      } else {
        ModelPropAbsent(m.entries, k);
      }
    }
  }

  /**
   * A library panel's `title` and `description` reach the panel's
   * workflow through the setters; its `id` is passed over.
   */
  lemma LibraryTitleLandsInWorkflow(p: map<string, Value>, m: Value)
    requires m.Obj? && DistinctKeys(m.entries) && WorkflowOf(p).Obj? && !HasKey(m, "workflow")
    ensures AssignAll(p, m.entries, LibrarySkip).error.None?
    ensures HasKey(m, "title") ==>
      Get(WorkflowOf(AssignAll(p, m.entries, LibrarySkip).props), "name") == Get(m, "title")
    ensures HasKey(m, "description") ==>
      Get(WorkflowOf(AssignAll(p, m.entries, LibrarySkip).props), "description") == Get(m, "description")
    ensures Get(WorkflowOf(AssignAll(p, m.entries, LibrarySkip).props), "id") == Get(WorkflowOf(p), "id")
  {
    var es := m.entries;
    ModelPropAbsent(es, "workflow");
    assert "workflow" !in KeySet(es);
    AccessorKeys();
    AccessorsLandInWorkflow(p, es, LibrarySkip);
    if HasKey(m, "title") {
      assert es[FindKey(es, "title").value].key in KeySet(es);
      AccessorLands(p, es, LibrarySkip, "title");
    }
    if HasKey(m, "description") {
      assert es[FindKey(es, "description").value].key in KeySet(es);
      AccessorLands(p, es, LibrarySkip, "description");
    }
    assert "id" !in WrittenFields(es, LibrarySkip);
    FieldUntouched(p, es, LibrarySkip, "id");
  }

  // ---------------------------------------------------------------------
  // The panel object
  // ---------------------------------------------------------------------

  /** What the panel's own event bus publishes. */
  datatype PanelEvent = PanelOptionsChanged | PanelQueriesChanged | WorkflowRender

  /** The query and workflow settings the query editor submits. */
  datatype QueryOptions = QueryOptions(savedQueryUid: Value, workflow: string, cacheTimeout: Value)

  /** The saved-query link `updateQueries` stores for a uid. */
  function SavedQueryLink(uid: Value): Value
  {
    if Truthy(uid) then Obj([Entry("ref", Obj([Entry("uid", uid)]))]) else Null
  }

  class PanelModel {
    /** The persisted own properties, by name. */
    var props: map<string, Value>
    var isViewing: bool
    var isEditing: bool
    var isInView: bool
    /** Increments when the configuration changes. */
    var configRev: nat
    var hasSavedPanelEditChange: Option<bool>
    var cachedPluginOptions: map<string, PanelOptionsCache>
    var plugin: Option<PanelPlugin>
    /** Unique in application state; set by the caller. */
    var key: string
    /** Everything published on the panel's event bus, oldest first. */
    var published: seq<PanelEvent>

    ghost predicate Valid()
      reads this
    {
      Persisted(props)
      && forall id :: id in cachedPluginOptions ==> CacheEntryValid(cachedPluginOptions[id])
    }

    /** `hasChanged`. */
    predicate HasChanged()
      reads this
    {
      configRev > 0
    }

    /** The field initialisers: a blank panel before `restoreModel` runs. */
    constructor(key: string)
      ensures Valid()
      ensures props == map["savedQueryLink" := Null]
      ensures !isViewing && !isEditing && !isInView && configRev == 0
      ensures hasSavedPanelEditChange.None? && cachedPluginOptions == map[] && plugin.None?
      ensures this.key == key && published == []
    {
      props := map["savedQueryLink" := Null];
      isViewing := false;
      isEditing := false;
      isInView := false;
      configRev := 0;
      hasSavedPanelEditChange := None;
      cachedPluginOptions := map[];
      plugin := None;
      this.key := key;
      published := [];
    }

    /**
     * `new PanelModel(model)`: the blank panel restored from the model. An
     * error `restoreModel` raises escapes the constructor, so no panel is
     * made; it is the error restoring over the defaults alone raises.
     */
    static method Create(model: seq<Entry>, key: string) returns (r: Result<PanelModel, PanelError>)
      ensures Restored(model).error.Some? ==> r == Failure(Restored(model).error.value)
      ensures Restored(model).error.None? ==> r.Success? && fresh(r.value) && r.value.Valid()
      ensures r.Success? ==> var panel := r.value;
        panel.props == Restored(model).props
        && !panel.isViewing && !panel.isEditing && !panel.isInView && panel.configRev == 0
        && panel.hasSavedPanelEditChange.None? && panel.cachedPluginOptions == map[] && panel.plugin.None?
        && panel.key == key && panel.published == []
    {
      var panel := new PanelModel(key);
      OrdinaryKeys();
      RestoreForgetsOldState(panel.props, model);
      var res := panel.RestoreModel(model);
      match res
      case Failure(e) =>
        r := Failure(e);
      case Success(_) =>
        r := Success(panel);
    }

    /** `restoreModel(model)`: the clean-up, the defaults, then the copy loop, which may throw. */
    method RestoreModel(model: seq<Entry>) returns (r: Result<(), PanelError>)
      requires Valid()
      modifies this
      ensures Valid()
      ensures props == RestoredFrom(old(props), model).props
      ensures r == if RestoredFrom(old(props), model).error.None? then Success(())
        else Failure(RestoredFrom(old(props), model).error.value)
      ensures isViewing == old(isViewing) && isEditing == old(isEditing) && isInView == old(isInView)
        && hasSavedPanelEditChange == old(hasSavedPanelEditChange) && cachedPluginOptions == old(cachedPluginOptions) && key == old(key) && configRev == old(configRev)
      ensures plugin == old(plugin) && published == old(published)
    {
      var q := CleanUp(props, model);
      q := FillDefaults(q);
      var o := CopyModel(q, model, NotPersisted);
      assert o == RestoredFrom(props, model);
      assert Persisted(o.props);
      props := o.props;
      r := if o.error.None? then Success(()) else Failure(o.error.value);
    }

    /** The clean-up loop of `restoreModel`. */
    static method CleanUp(p: map<string, Value>, model: seq<Entry>) returns (q: map<string, Value>)
      ensures q == CleanedUp(p, model)
    {
      q := p;
      var todo := q.Keys;
      while todo != {}
        invariant todo <= p.Keys
        invariant forall k :: k in q <==> k in p && (k in todo || k in CleanedUp(p, model))
        invariant forall k :: k in q ==> q[k] == p[k]
        decreases todo
      {
        var k :| k in todo;
        if !(k in NotPersisted || Truthy(ModelProp(model, k))) {
          q := q - {k};
        }
        todo := todo - {k};
      }
    }

    /** `defaultsDeep(this, defaults)`: only missing properties are filled. */
    static method FillDefaults(p: map<string, Value>) returns (q: map<string, Value>)
      ensures q == DefaultsFilled(p)
    {
      q := p;
      var todo := Defaults.Keys - NotPersisted;
      while todo != {}
        invariant todo <= Defaults.Keys - NotPersisted
        invariant forall k :: k in q <==> k in p || (k in Defaults.Keys - NotPersisted && k !in todo)
        invariant forall k :: k in q ==> q[k] == if k in p then p[k] else Defaults[k]
        decreases todo
      {
        var k :| k in todo;
        if k !in q {
          q := q[k := Defaults[k]];
        }
        todo := todo - {k};
      }
    }

    /**
     * A copy loop over a model's entries (`restoreModel`, `initLibraryPanel`):
     * each key outside `skip` is assigned through `this[key] = value`, and
     * the first assignment that throws ends the loop.
     */
    static method CopyModel(p: map<string, Value>, model: seq<Entry>, skip: set<string>) returns (o: Outcome)
      ensures o == AssignAll(p, model, skip)
    {
      var q := p;
      var i := 0;
      while i < |model|
        invariant 0 <= i <= |model|
        invariant AssignAll(q, model[i..], skip) == AssignAll(p, model, skip)
      {
        var e := model[i];
        assert model[i..][0] == e && model[i..][1..] == model[i + 1..];
        if e.key !in skip {
          match AssignProp(q, e.key, e.val)
          case Failure(err) =>
            return Outcome(q, Some(err));
          case Success(q') =>
            q := q';
        }
        i := i + 1;
      }
      o := Outcome(q, None);
    }

    /** `getSaveModel()`: the save model as a list of properties. */
    method GetSaveModel() returns (m: seq<Entry>)
      ensures Lists(m, SaveModelOf(props))
    {
      m := [];
      var todo := props.Keys;
      while todo != {}
        invariant todo <= props.Keys
        invariant DistinctKeys(m)
        invariant forall i :: 0 <= i < |m| ==> m[i].key !in todo
        invariant forall i :: 0 <= i < |m| ==> m[i].key in SaveModelOf(props) && SaveModelOf(props)[m[i].key] == m[i].val
        invariant forall k :: k in SaveModelOf(props) && k !in todo ==> k in KeySet(m)
        decreases todo
      {
        var k :| k in todo;
        if !(k in NotPersisted || DeepEqual(props[k], DefaultOf(k))) {
          assert KeySet(m + [Entry(k, props[k])]) == KeySet(m) + {k} by {
            assert (m + [Entry(k, props[k])])[|m|].key == k;
            forall x | x in KeySet(m) ensures x in KeySet(m + [Entry(k, props[k])]) {
              var i :| 0 <= i < |m| && m[i].key == x;
              assert (m + [Entry(k, props[k])])[i] == m[i];
            }
          }
          m := m + [Entry(k, props[k])];
        }
        todo := todo - {k};
      }
    }

    /** `updateOptions(options)`. */
    method UpdateOptions(options: Value)
      requires Valid()
      modifies this
      ensures Valid()
      ensures props == old(props)["options" := options]
      ensures configRev == old(configRev) + 1 && HasChanged()
      ensures published == old(published) + [PanelOptionsChanged, WorkflowRender]
      ensures isViewing == old(isViewing) && isEditing == old(isEditing) && isInView == old(isInView)
        && hasSavedPanelEditChange == old(hasSavedPanelEditChange) && cachedPluginOptions == old(cachedPluginOptions) && key == old(key) && plugin == old(plugin)
    {
      OrdinaryKeys();
      props := props["options" := options];
      configRev := configRev + 1;
      published := published + [PanelOptionsChanged];
      published := published + [WorkflowRender];
    }

    /**
     * `setProperty(key, value)` for a persisted property or an accessor:
     * an accessor whose setter throws leaves `configRev` as it was.
     */
    method SetProperty(k: string, value: Value) returns (r: Result<(), PanelError>)
      requires Valid() && k !in NotPersisted
      modifies this
      ensures Valid()
      ensures AssignProp(old(props), k, value).Success? ==>
        r == Success(()) && props == AssignProp(old(props), k, value).value
        && configRev == old(configRev) + 1 && HasChanged()
      ensures AssignProp(old(props), k, value).Failure? ==>
        r == Failure(TypeError) && props == old(props) && configRev == old(configRev)
      ensures isViewing == old(isViewing) && isEditing == old(isEditing) && isInView == old(isInView)
        && hasSavedPanelEditChange == old(hasSavedPanelEditChange) && cachedPluginOptions == old(cachedPluginOptions) && key == old(key) && plugin == old(plugin) && published == old(published)
    {
      OrdinaryKeys();
      match AssignProp(props, k, value)
      case Failure(e) =>
        r := Failure(e);
      case Success(q) =>
        props := q;
        configRev := configRev + 1;
        r := Success(());
    }

    /** `updateGridPos(newPos, manuallyUpdated)`. */
    method UpdateGridPos(newPos: GridPos, manuallyUpdated: bool) returns (r: Result<(), PanelError>)
      requires Valid()
      modifies this
      ensures Valid()
      ensures var gp := Prop(old(props), "gridPos");
        if Nullish(gp) || (!SamePos(gp, newPos) && (gp.Bool? || gp.Num? || gp.Str?)) then
          r == Failure(TypeError) && props == old(props) && configRev == old(configRev)
        else if SamePos(gp, newPos) then
          r == Success(()) && props == old(props) && configRev == old(configRev)
        else
          r == Success(()) && props == old(props)["gridPos" := Moved(gp, newPos)]
          && configRev == old(configRev) + (if manuallyUpdated then 1 else 0)
      ensures isViewing == old(isViewing) && isEditing == old(isEditing) && isInView == old(isInView)
        && hasSavedPanelEditChange == old(hasSavedPanelEditChange) && cachedPluginOptions == old(cachedPluginOptions) && key == old(key) && plugin == old(plugin) && published == old(published)
    {
      OrdinaryKeys();
      var gp := Prop(props, "gridPos");
      if Nullish(gp) {
        return Failure(TypeError);
      }
      if SamePos(gp, newPos) {
        return Success(());
      }
      if gp.Bool? || gp.Num? || gp.Str? {
        return Failure(TypeError);
      }
      props := props["gridPos" := Moved(gp, newPos)];
      if manuallyUpdated {
        configRev := configRev + 1;
      }
      r := Success(());
    }

    /** `setWorkflowText(text)`. */
    method SetWorkflowText(text: string) returns (r: Result<(), PanelError>)
      requires Valid()
      modifies this
      ensures Valid()
      ensures WithWorkflowJson(old(props), text).Success? ==>
        r == Success(()) && props == WithWorkflowJson(old(props), text).value
      ensures WithWorkflowJson(old(props), text).Failure? ==>
        r == Failure(SyntaxError) && props == old(props)
      ensures configRev == old(configRev)
      ensures isViewing == old(isViewing) && isEditing == old(isEditing) && isInView == old(isInView)
        && hasSavedPanelEditChange == old(hasSavedPanelEditChange) && cachedPluginOptions == old(cachedPluginOptions) && key == old(key) && plugin == old(plugin) && published == old(published)
    {
      OrdinaryKeys();
      match WithWorkflowJson(props, text)
      case Failure(e) =>
        r := Failure(e);
      case Success(q) =>
        props := q;
        r := Success(());
    }

    /**
     * `updateQueries(options)`: the saved-query link is written first, so a
     * workflow text that does not parse leaves the new link in place.
     */
    method UpdateQueries(options: QueryOptions) returns (r: Result<(), PanelError>)
      requires Valid()
      modifies this
      ensures Valid()
      ensures var linked := old(props)["savedQueryLink" := SavedQueryLink(options.savedQueryUid)];
        match WithWorkflowJson(linked, options.workflow)
        case Failure(e) =>
          r == Failure(e) && props == linked
          && configRev == old(configRev) && published == old(published)
        case Success(q) =>
          r == Success(()) && props == q["cacheTimeout" := options.cacheTimeout]
          && configRev == old(configRev) + 1 && published == old(published) + [PanelQueriesChanged]
      ensures isViewing == old(isViewing) && isEditing == old(isEditing) && isInView == old(isInView)
        && hasSavedPanelEditChange == old(hasSavedPanelEditChange) && cachedPluginOptions == old(cachedPluginOptions) && key == old(key) && plugin == old(plugin)
    {
      OrdinaryKeys();
      props := props["savedQueryLink" := SavedQueryLink(options.savedQueryUid)];
      r := SetWorkflowText(options.workflow);
      if r.Failure? {
        return;
      }
      props := props["cacheTimeout" := options.cacheTimeout];
      configRev := configRev + 1;
      published := published + [PanelQueriesChanged];
    }

    /** The `id` setter. */
    method SetId(n: int) returns (r: Result<(), PanelError>)
      requires Valid()
      modifies this
      ensures Valid()
      ensures WithId(old(props), n).Success? ==> r == Success(()) && props == WithId(old(props), n).value
      ensures WithId(old(props), n).Failure? ==> r == Failure(TypeError) && props == old(props)
      ensures configRev == old(configRev)
      ensures isViewing == old(isViewing) && isEditing == old(isEditing) && isInView == old(isInView)
        && hasSavedPanelEditChange == old(hasSavedPanelEditChange) && cachedPluginOptions == old(cachedPluginOptions) && key == old(key) && plugin == old(plugin) && published == old(published)
    {
      OrdinaryKeys();
      match WithId(props, n)
      case Failure(e) =>
        r := Failure(e);
      case Success(q) =>
        props := q;
        r := Success(());
    }

    /** The `title` (field `name`) and `description` setters. */
    method SetWorkflowField(field: string, s: string) returns (r: Result<(), PanelError>)
      requires Valid() && (field == "name" || field == "description")
      modifies this
      ensures Valid()
      ensures WithWorkflowText(old(props), field, s).Success? ==>
        r == Success(()) && props == WithWorkflowText(old(props), field, s).value
      ensures WithWorkflowText(old(props), field, s).Failure? ==>
        r == Failure(TypeError) && props == old(props)
      ensures configRev == old(configRev)
      ensures isViewing == old(isViewing) && isEditing == old(isEditing) && isInView == old(isInView)
        && hasSavedPanelEditChange == old(hasSavedPanelEditChange) && cachedPluginOptions == old(cachedPluginOptions) && key == old(key) && plugin == old(plugin) && published == old(published)
    {
      OrdinaryKeys();
      match WithWorkflowText(props, field, s)
      case Failure(e) =>
        r := Failure(e);
      case Success(q) =>
        props := q;
        r := Success(());
    }

    /**
     * `initLibraryPanel(libPanel)`: the model's entries are copied through
     * `this[key] = val`, then the link is stored. An assignment that throws
     * leaves what was copied before it, and no link.
     */
    method InitLibraryPanel(libPanel: Value) returns (r: Result<(), PanelError>)
      requires Valid()
      modifies this
      ensures Valid()
      ensures Nullish(libPanel) || Nullish(Get(libPanel, "model")) ==>
        r == Failure(TypeError) && props == old(props)
      ensures !Nullish(libPanel) && !Nullish(Get(libPanel, "model")) ==>
        var o := AssignAll(old(props), OwnEntries(Get(libPanel, "model")), LibrarySkip);
        if o.error.None? then r == Success(()) && props == o.props["libraryPanel" := libPanel]
        else r == Failure(o.error.value) && props == o.props
      ensures configRev == old(configRev)
      ensures isViewing == old(isViewing) && isEditing == old(isEditing) && isInView == old(isInView)
        && hasSavedPanelEditChange == old(hasSavedPanelEditChange) && cachedPluginOptions == old(cachedPluginOptions) && key == old(key) && plugin == old(plugin) && published == old(published)
    {
      OrdinaryKeys();
      if Nullish(libPanel) {
        return Failure(TypeError);
      }
      var model := Get(libPanel, "model");
      if Nullish(model) {
        return Failure(TypeError);
      }
      var o := CopyModel(props, OwnEntries(model), LibrarySkip);
      if o.error.Some? {
        props := o.props;
        return Failure(o.error.value);
      }
      props := o.props["libraryPanel" := libPanel];
      r := Success(());
    }

    /** `unlinkLibraryPanel()`. */
    method UnlinkLibraryPanel()
      requires Valid()
      modifies this
      ensures Valid()
      ensures props == old(props) - {"libraryPanel"}
      ensures configRev == old(configRev) + 1 && HasChanged()
      ensures published == old(published) + [WorkflowRender]
      ensures isViewing == old(isViewing) && isEditing == old(isEditing) && isInView == old(isInView)
        && hasSavedPanelEditChange == old(hasSavedPanelEditChange) && cachedPluginOptions == old(cachedPluginOptions) && key == old(key) && plugin == old(plugin)
    {
      OrdinaryKeys();
      props := props - {"libraryPanel"};
      configRev := configRev + 1;
      published := published + [WorkflowRender];
    }

    /**
     * `clearPropertiesBeforePluginChange()`: the runtime fields that are
     * not kept (viewing, in view, saved edit, plugin) are removed too.
     */
    method ClearPropertiesBeforePluginChange(rules: FieldConfigRules) returns (r: Result<(), PanelError>)
      requires Valid()
      modifies this
      ensures Valid()
      ensures Cleared(old(props), rules).Success? ==> r == Success(()) && props == Cleared(old(props), rules).value
      ensures Cleared(old(props), rules).Failure? ==> r == Failure(TypeError) && props == Stripped(old(props))
      ensures !isViewing && !isInView && hasSavedPanelEditChange.None? && plugin.None?
      ensures isEditing == old(isEditing) && cachedPluginOptions == old(cachedPluginOptions) && key == old(key)
      ensures configRev == old(configRev) && published == old(published)
    {
      OrdinaryKeys();
      var fc := Prop(props, "fieldConfig");
      StrippedPersisted(props, rules);
      props := Stripped(props);
      isViewing := false;
      isInView := false;
      hasSavedPanelEditChange := None;
      plugin := None;
      match ClearedFieldConfig(fc, rules)
      case Failure(e) =>
        r := Failure(e);
      case Success(c) =>
        props := props["fieldConfig" := c];
        r := Success(());
    }

    /** `restorePanelOptions(pluginId)`. */
    method RestorePanelOptions(pluginId: string, rules: FieldConfigRules)
      requires Valid()
      modifies this
      ensures Valid()
      ensures props == OptionsRestored(old(props), CacheLookup(cachedPluginOptions, pluginId), rules)
      ensures configRev == old(configRev) && isViewing == old(isViewing) && isEditing == old(isEditing) && isInView == old(isInView)
        && hasSavedPanelEditChange == old(hasSavedPanelEditChange) && cachedPluginOptions == old(cachedPluginOptions) && key == old(key)
      ensures plugin == old(plugin) && published == old(published)
    {
      OrdinaryKeys();
      if pluginId !in cachedPluginOptions {
        return;
      }
      var prev := cachedPluginOptions[pluginId];
      props := props + prev.properties;
      props := props["fieldConfig" := rules.restoreRules(Prop(props, "fieldConfig"), prev.fieldConfig)];
    }

    /** `changePlugin(newPlugin)`: remember the current plugin's options, then switch. */
    method ChangePlugin(np: PanelPlugin, rules: FieldConfigRules, buildVersion: string) returns (r: Result<(), PanelError>)
      requires Valid()
      modifies this
      ensures Valid()
      ensures cachedPluginOptions == old(cachedPluginOptions)[TypeKey(old(props)) := Remembered(old(props))]
      ensures var o := PluginChange(old(props), cachedPluginOptions, np, rules, buildVersion);
        props == o.props && (r.Failure? <==> o.error.Some?) && (r.Failure? ==> r.error == o.error.value)
      ensures r.Success? ==> configRev == old(configRev) + 1 && HasChanged() && plugin == Some(np)
      ensures r.Failure? ==> configRev == old(configRev) && plugin.None?
      ensures !isViewing && !isInView && hasSavedPanelEditChange.None?
      ensures isEditing == old(isEditing) && key == old(key) && published == old(published)
    {
      RememberedValid(props);
      cachedPluginOptions := cachedPluginOptions[TypeKey(props) := Remembered(props)];
      r := SwitchPlugin(np, rules, buildVersion);
    }

    /** The part of `changePlugin` after the old plugin's options are cached. */
    method SwitchPlugin(np: PanelPlugin, rules: FieldConfigRules, buildVersion: string) returns (r: Result<(), PanelError>)
      requires Valid()
      modifies this
      ensures Valid()
      ensures cachedPluginOptions == old(cachedPluginOptions)
      ensures var o := PluginChange(old(props), cachedPluginOptions, np, rules, buildVersion);
        props == o.props && (r.Failure? <==> o.error.Some?) && (r.Failure? ==> r.error == o.error.value)
      ensures r.Success? ==> configRev == old(configRev) + 1 && HasChanged() && plugin == Some(np)
      ensures r.Failure? ==> configRev == old(configRev) && plugin.None?
      ensures !isViewing && !isInView && hasSavedPanelEditChange.None?
      ensures isEditing == old(isEditing) && key == old(key) && published == old(published)
    {
      var oldOptions := OptionsToRemember(props);
      var oldPluginId := Prop(props, "type");
      ghost var p := props;
      r := ClearPropertiesBeforePluginChange(rules);
      if r.Failure? {
        PluginChangeAtClear(p, cachedPluginOptions, np, rules, buildVersion);
        return;
      }
      r := AdoptPlugin(np, oldPluginId, oldOptions, rules, buildVersion);
    }

    /** The rest of `changePlugin` once the panel is cleared. */
    method AdoptPlugin(np: PanelPlugin, oldPluginId: Value, oldOptions: map<string, Value>,
                       rules: FieldConfigRules, buildVersion: string) returns (r: Result<(), PanelError>)
      requires Valid()
      modifies this
      ensures Valid()
      ensures cachedPluginOptions == old(cachedPluginOptions)
      ensures var o := Adopted(old(props), cachedPluginOptions, np, oldPluginId, oldOptions, rules, buildVersion);
        props == o.props && (r.Failure? <==> o.error.Some?) && (r.Failure? ==> r.error == o.error.value)
      ensures r.Success? ==> configRev == old(configRev) + 1 && HasChanged() && plugin == Some(np)
      ensures r.Failure? ==> configRev == old(configRev) && plugin == old(plugin)
      ensures isViewing == old(isViewing) && isInView == old(isInView)
      ensures hasSavedPanelEditChange == old(hasSavedPanelEditChange)
      ensures isEditing == old(isEditing) && key == old(key) && published == old(published)
    {
        ghost var c := props;
      OrdinaryKeys();
      RestorePanelOptions(np.id, rules);
      AdoptedAtHandler(c, cachedPluginOptions, np, oldPluginId, oldOptions, rules, buildVersion, props);
      r := CallPanelTypeChangeHandler(np, oldPluginId, oldOptions);
      if r.Failure? {
        return;
      }
      props := props["type" := Str(np.id)];
      plugin := Some(np);
      configRev := configRev + 1;
      ApplyPluginOptionDefaults(np);
      if np.hasMigration {
        props := props["pluginVersion" := Str(PluginVersion(np, buildVersion))];
      }
    }

    /** `callPanelTypeChangeHandler(newPlugin, oldPluginId, oldOptions)`. */
    method CallPanelTypeChangeHandler(np: PanelPlugin, oldPluginId: Value, oldOptions: map<string, Value>)
      returns (r: Result<(), PanelError>)
      requires Valid()
      modifies this
      ensures Valid()
      ensures TypeChangeHandled(old(props), np, oldPluginId, oldOptions).Success? ==>
        r == Success(()) && props == TypeChangeHandled(old(props), np, oldPluginId, oldOptions).value
      ensures TypeChangeHandled(old(props), np, oldPluginId, oldOptions).Failure? ==>
        r == Failure(TypeChangeHandled(old(props), np, oldPluginId, oldOptions).error) && props == old(props)
      ensures configRev == old(configRev) && plugin == old(plugin)
      ensures isViewing == old(isViewing) && isEditing == old(isEditing) && isInView == old(isInView)
        && hasSavedPanelEditChange == old(hasSavedPanelEditChange) && cachedPluginOptions == old(cachedPluginOptions) && key == old(key)
      ensures published == old(published)
    {
      OrdinaryKeys();
      match TypeChangeHandled(props, np, oldPluginId, oldOptions)
      case Failure(e) =>
        r := Failure(e);
      case Success(h) =>
        props := h;
        r := Success(());
    }

    /** `applyPluginOptionDefaults(plugin, true)`. */
    method ApplyPluginOptionDefaults(np: PanelPlugin)
      requires Valid()
      modifies this
      ensures Valid()
      ensures props == WithPluginDefaults(old(props), np)
      ensures configRev == old(configRev) && plugin == old(plugin)
      ensures isViewing == old(isViewing) && isEditing == old(isEditing) && isInView == old(isInView)
        && hasSavedPanelEditChange == old(hasSavedPanelEditChange) && cachedPluginOptions == old(cachedPluginOptions) && key == old(key)
      ensures published == old(published)
    {
      OrdinaryKeys();
      var d := np.withDefaults(Prop(props, "options"), Prop(props, "fieldConfig"));
      props := props["fieldConfig" := d.fieldConfig];
      props := props["options" := d.options];
    }
  }
}
