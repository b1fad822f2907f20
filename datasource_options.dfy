/**
 * The data source settings editors' update helpers. Each one calls the
 * editor's `onOptionsChange` callback once, with a copy of the settings in
 * which one option is replaced; the model returns that argument. The
 * settings object itself is never changed.
 */
module DatasourceOptions {
  import opened JsonValue

  /** `{...o, [k]: x}`: the own entries of `o`, then `k` set to `x`. */
  function Spread(o: Value, k: string, x: Value): (r: Value)
    ensures r.Obj?
  {
    Obj(SetEntry(OwnEntries(o), k, x))
  }

  /** Reading a spread object: the new key gives the new value, any other key what `o` had. */
  lemma SpreadGet(o: Value, k: string, x: Value, k2: string)
    requires o.Obj? || o.Undefined? || o.Null?
    ensures Get(Spread(o, k, x), k2) == if k2 == k then x else Get(o, k2)
  {
    GetAfterSetEntry(OwnEntries(o), k, x, k2);
    if o.Obj? {
      assert Obj(OwnEntries(o)) == o;
    }
  }

  /** `updateDatasourcePluginOption`: the settings with `key` set to `val`. */
  function UpdateOption(options: Value, key: string, val: Value): (r: Value)
  {
    Spread(options, key, val)
  }

  /** Only `key` changes, and to `val`. */
  lemma UpdateOptionChangesOnlyKey(options: Value, key: string, val: Value, k: string)
    requires options.Obj?
    ensures Get(UpdateOption(options, key, val), key) == val
    ensures k != key ==> Get(UpdateOption(options, key, val), k) == Get(options, k)
  {
    SpreadGet(options, key, val, key);
    SpreadGet(options, key, val, k);
  }

  /** `updateDatasourcePluginJsonDataOption`: `jsonData[key]` set to `val`. */
  function UpdateJsonDataOption(options: Value, key: string, val: Value): (r: Value)
  {
    Spread(options, "jsonData", Spread(Get(options, "jsonData"), key, val))
  }

  /** Only `jsonData[key]` changes; the rest of `jsonData` and of the settings is intact. */
  lemma UpdateJsonDataOptionChangesOnlyKey(options: Value, key: string, val: Value, k: string)
    requires options.Obj?
    requires Get(options, "jsonData").Obj? || Get(options, "jsonData").Undefined?
    ensures Get(Get(UpdateJsonDataOption(options, key, val), "jsonData"), key) == val
    ensures k != key ==>
      Get(Get(UpdateJsonDataOption(options, key, val), "jsonData"), k) == Get(Get(options, "jsonData"), k)
    ensures k != "jsonData" ==> Get(UpdateJsonDataOption(options, key, val), k) == Get(options, k)
  {
    var jd := Get(options, "jsonData");
    SpreadGet(options, "jsonData", Spread(jd, key, val), "jsonData");
    SpreadGet(options, "jsonData", Spread(jd, key, val), k);
    SpreadGet(jd, key, val, key);
    SpreadGet(jd, key, val, k);
  }

  /** `config.secureJsonData ? config.secureJsonData : {}`. */
  function SecureJsonData(options: Value): (r: Value)
    ensures !Truthy(Get(options, "secureJsonData")) ==> r == Obj([])
  {
    var s := Get(options, "secureJsonData");
    if Truthy(s) then s else Obj([])
  }

  /** `updateDatasourcePluginSecureJsonDataOption`: `secureJsonData[key]` set to `val`. */
  function UpdateSecureJsonDataOption(options: Value, key: string, val: Value): (r: Value)
  {
    Spread(options, "secureJsonData", Spread(SecureJsonData(options), key, val))
  }

  /** Absent secure data is treated as `{}`: afterwards it holds exactly `key`. */
  lemma SecureJsonDataFromNothing(options: Value, key: string, val: Value)
    requires options.Obj? && !Truthy(Get(options, "secureJsonData"))
    ensures Get(UpdateSecureJsonDataOption(options, key, val), "secureJsonData") == Obj([Entry(key, val)])
  {
    SpreadGet(options, "secureJsonData", Spread(Obj([]), key, val), "secureJsonData");
  }

  /** Only `secureJsonData[key]` changes; other secure keys and other options are intact. */
  lemma UpdateSecureJsonDataOptionChangesOnlyKey(options: Value, key: string, val: Value, k: string)
    requires options.Obj? && SecureJsonData(options).Obj?
    ensures Get(Get(UpdateSecureJsonDataOption(options, key, val), "secureJsonData"), key) == val
    ensures k != key ==>
      Get(Get(UpdateSecureJsonDataOption(options, key, val), "secureJsonData"), k) == Get(SecureJsonData(options), k)
    ensures k != "secureJsonData" ==> Get(UpdateSecureJsonDataOption(options, key, val), k) == Get(options, k)
  {
    var sd := SecureJsonData(options);
    SpreadGet(options, "secureJsonData", Spread(sd, key, val), "secureJsonData");
    SpreadGet(options, "secureJsonData", Spread(sd, key, val), k);
    SpreadGet(sd, key, val, key);
    SpreadGet(sd, key, val, k);
  }

  /**
   * `updateDatasourcePluginResetOption`: the secret is emptied and marked
   * as not stored.
   */
  function ResetOption(options: Value, key: string): (r: Value)
  {
    var withSecure := Spread(options, "secureJsonData", Spread(SecureJsonData(options), key, Str("")));
    Spread(withSecure, "secureJsonFields", Spread(Get(options, "secureJsonFields"), key, Bool(false)))
  }

  /** Reset sets `secureJsonData[key]` to '' and `secureJsonFields[key]` to false. */
  lemma ResetOptionClearsKey(options: Value, key: string)
    requires options.Obj? && SecureJsonData(options).Obj?
    requires Get(options, "secureJsonFields").Obj? || Get(options, "secureJsonFields").Undefined?
    ensures Get(Get(ResetOption(options, key), "secureJsonData"), key) == Str("")
    ensures Get(Get(ResetOption(options, key), "secureJsonFields"), key) == Bool(false)
  {
    var sd := SecureJsonData(options);
    var sf := Get(options, "secureJsonFields");
    var withSecure := Spread(options, "secureJsonData", Spread(sd, key, Str("")));
    SpreadGet(withSecure, "secureJsonFields", Spread(sf, key, Bool(false)), "secureJsonData");
    SpreadGet(withSecure, "secureJsonFields", Spread(sf, key, Bool(false)), "secureJsonFields");
    SpreadGet(options, "secureJsonData", Spread(sd, key, Str("")), "secureJsonData");
    SpreadGet(sd, key, Str(""), key);
    SpreadGet(sf, key, Bool(false), key);
  }

  /** Reset leaves the other secure keys, the other stored-flags and the other options untouched. */
  lemma ResetOptionKeepsOthers(options: Value, key: string, k: string)
    requires options.Obj? && SecureJsonData(options).Obj?
    requires Get(options, "secureJsonFields").Obj? || Get(options, "secureJsonFields").Undefined?
    requires k != key
    ensures Get(Get(ResetOption(options, key), "secureJsonData"), k) == Get(SecureJsonData(options), k)
    ensures Get(Get(ResetOption(options, key), "secureJsonFields"), k) == Get(Get(options, "secureJsonFields"), k)
  {
    var sd := SecureJsonData(options);
    var sf := Get(options, "secureJsonFields");
    var withSecure := Spread(options, "secureJsonData", Spread(sd, key, Str("")));
    SpreadGet(withSecure, "secureJsonFields", Spread(sf, key, Bool(false)), "secureJsonData");
    SpreadGet(withSecure, "secureJsonFields", Spread(sf, key, Bool(false)), "secureJsonFields");
    SpreadGet(options, "secureJsonData", Spread(sd, key, Str("")), "secureJsonData");
    SpreadGet(sd, key, Str(""), k);
    SpreadGet(sf, key, Bool(false), k);
  }

  lemma ResetOptionKeepsOtherOptions(options: Value, key: string, k: string)
    requires options.Obj?
    requires k != "secureJsonData" && k != "secureJsonFields"
    ensures Get(ResetOption(options, key), k) == Get(options, k)
  {
    var withSecure := Spread(options, "secureJsonData", Spread(SecureJsonData(options), key, Str("")));
    SpreadGet(withSecure, "secureJsonFields", Spread(Get(options, "secureJsonFields"), key, Bool(false)), k);
    SpreadGet(options, "secureJsonData", Spread(SecureJsonData(options), key, Str("")), k);
  }

  // ---------------------------------------------------------------------
  // The event handlers
  // ---------------------------------------------------------------------

  /** The parts of an input event the handlers read: `currentTarget.value` and `.checked`. */
  datatype InputEvent = InputEvent(value: Value, checked: bool)

  /** A select's choice: `selected.value`. */
  datatype Selectable = Selectable(value: Value)

  /** `onUpdateDatasourceOption(props, key)(event)`: the input's value becomes the option. */
  function OnUpdateDatasourceOption(options: Value, key: string, event: InputEvent): (r: Value)
    requires options.Obj?
    ensures Get(r, key) == event.value
    ensures forall k :: k != key ==> Get(r, k) == Get(options, k)
  {
    var r := UpdateOption(options, key, event.value);
    assert forall k :: Get(r, k) == if k == key then event.value else Get(options, k) by {
      forall k ensures Get(r, k) == if k == key then event.value else Get(options, k) {
        UpdateOptionChangesOnlyKey(options, key, event.value, k);
      }
    }
    r
  }

  /** `onUpdateDatasourceJsonDataOption`: the input's value into `jsonData[key]`. */
  function OnUpdateDatasourceJsonDataOption(options: Value, key: string, event: InputEvent): (r: Value)
    requires options.Obj? && (Get(options, "jsonData").Obj? || Get(options, "jsonData").Undefined?)
    ensures Get(Get(r, "jsonData"), key) == event.value
  {
    UpdateJsonDataOptionChangesOnlyKey(options, key, event.value, key);
    UpdateJsonDataOption(options, key, event.value)
  }

  /** `onUpdateDatasourceJsonDataOptionSelect`: the choice's value into `jsonData[key]`. */
  function OnUpdateDatasourceJsonDataOptionSelect(options: Value, key: string, selected: Selectable): (r: Value)
    requires options.Obj? && (Get(options, "jsonData").Obj? || Get(options, "jsonData").Undefined?)
    ensures Get(Get(r, "jsonData"), key) == selected.value
  {
    UpdateJsonDataOptionChangesOnlyKey(options, key, selected.value, key);
    UpdateJsonDataOption(options, key, selected.value)
  }

  /** `onUpdateDatasourceJsonDataOptionChecked`: the checkbox state into `jsonData[key]`. */
  function OnUpdateDatasourceJsonDataOptionChecked(options: Value, key: string, event: InputEvent): (r: Value)
    requires options.Obj? && (Get(options, "jsonData").Obj? || Get(options, "jsonData").Undefined?)
    ensures Get(Get(r, "jsonData"), key) == Bool(event.checked)
  {
    UpdateJsonDataOptionChangesOnlyKey(options, key, Bool(event.checked), key);
    UpdateJsonDataOption(options, key, Bool(event.checked))
  }

  /** `onUpdateDatasourceSecureJsonDataOption`: the input's value into `secureJsonData[key]`. */
  function OnUpdateDatasourceSecureJsonDataOption(options: Value, key: string, event: InputEvent): (r: Value)
    requires options.Obj? && SecureJsonData(options).Obj?
    ensures Get(Get(r, "secureJsonData"), key) == event.value
  {
    UpdateSecureJsonDataOptionChangesOnlyKey(options, key, event.value, key);
    UpdateSecureJsonDataOption(options, key, event.value)
  }

  /** `onUpdateDatasourceSecureJsonDataOptionSelect`: the choice's value into `secureJsonData[key]`. */
  function OnUpdateDatasourceSecureJsonDataOptionSelect(options: Value, key: string, selected: Selectable): (r: Value)
    requires options.Obj? && SecureJsonData(options).Obj?
    ensures Get(Get(r, "secureJsonData"), key) == selected.value
  {
    UpdateSecureJsonDataOptionChangesOnlyKey(options, key, selected.value, key);
    UpdateSecureJsonDataOption(options, key, selected.value)
  }

  /** `onUpdateDatasourceResetOption`: the click resets the secret `key`. */
  function OnUpdateDatasourceResetOption(options: Value, key: string): (r: Value)
    requires options.Obj? && SecureJsonData(options).Obj?
    requires Get(options, "secureJsonFields").Obj? || Get(options, "secureJsonFields").Undefined?
    ensures Get(Get(r, "secureJsonData"), key) == Str("")
    ensures Get(Get(r, "secureJsonFields"), key) == Bool(false)
  {
    ResetOptionClearsKey(options, key);
    ResetOption(options, key)
  }
}
