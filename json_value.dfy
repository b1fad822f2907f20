/**
 * JavaScript values as the front-end code handles them: plain objects keep
 * their insertion order (the order `for … in`, `Object.keys` and lodash's
 * `pickBy` visit keys in), arrays are sequences, numbers are integers.
 * Also the three lodash primitives the core relies on: `merge`, `isEqual`
 * and property lookup with JavaScript truthiness.
 */
module JsonValue {
  import opened Wrappers
  import JsNumber

  datatype Value =
    | Undefined
    | Null
    | Bool(b: bool)
    | Num(n: int)
    | Str(s: string)
    | Arr(items: seq<Value>)
    | Obj(entries: seq<Entry>)

  datatype Entry = Entry(key: string, val: Value)

  /** JavaScript truthiness (`if (x)`, `x || y`, `!x`); NaN is not modelled. */
  predicate Truthy(v: Value)
  {
    match v
    case Undefined => false
    case Null => false
    case Bool(b) => b
    case Num(n) => n != 0
    case Str(s) => s != ""
    case _ => true
  }

  /** `x ?? y` treats exactly these as missing. */
  predicate Nullish(v: Value)
  {
    v.Undefined? || v.Null?
  }

  function KeysOf(es: seq<Entry>): (ks: seq<string>)
    ensures |ks| == |es|
    ensures forall i :: 0 <= i < |es| ==> ks[i] == es[i].key
  {
    if es == [] then [] else [es[0].key] + KeysOf(es[1..])
  }

  /** No key occurs twice in one object, at any depth. */
  predicate WellFormed(v: Value)
  {
    match v
    case Arr(items) => forall i :: 0 <= i < |items| ==> WellFormed(items[i])
    case Obj(es) =>
      (forall i, j :: 0 <= i < j < |es| ==> es[i].key != es[j].key)
      && (forall i :: 0 <= i < |es| ==> WellFormed(es[i].val))
    case _ => true
  }

  /** Index of the entry holding `k`, if any. */
  function FindKey(es: seq<Entry>, k: string): (r: Option<nat>)
    ensures r.Some? ==> (r.value < |es| && es[r.value].key == k
                         && forall j :: 0 <= j < r.value ==> es[j].key != k)
    ensures r.None? ==> forall j :: 0 <= j < |es| ==> es[j].key != k
  {
    if es == [] then None
    else if es[0].key == k then Some(0)
    else match FindKey(es[1..], k)
      case None => None
      case Some(j) => Some(j + 1)
  }

  predicate HasKey(v: Value, k: string)
  {
    v.Obj? && FindKey(v.entries, k).Some?
  }

  /** Property read `v[k]`: `undefined` for a missing key or a non-object. */
  function Get(v: Value, k: string): (r: Value)
    ensures HasKey(v, k) ==> r == v.entries[FindKey(v.entries, k).value].val
    ensures !HasKey(v, k) ==> r == Undefined
  {
    if v.Obj? then
      match FindKey(v.entries, k)
      case Some(j) => v.entries[j].val
      case None => Undefined
    else Undefined
  }

  /**
   * The own enumerable (key, value) pairs of a value, as `Object.entries`,
   * object spread and lodash's `pickBy` visit them: an object's entries in
   * order, the indices of an array or a string; `undefined`, `null`,
   * booleans and numbers have none.
   */
  function OwnEntries(v: Value): (es: seq<Entry>)
    ensures v.Obj? ==> es == v.entries
    ensures v.Arr? ==> (|es| == |v.items|
      && forall i :: 0 <= i < |v.items| ==> es[i] == Entry(JsNumber.NatToString(i), v.items[i]))
    ensures v.Str? ==> (|es| == |v.s|
      && forall i :: 0 <= i < |v.s| ==> es[i] == Entry(JsNumber.NatToString(i), Str([v.s[i]])))
    ensures !(v.Obj? || v.Arr? || v.Str?) ==> es == []
  {
    match v
    case Obj(es) => es
    case Arr(xs) => seq(|xs|, i requires 0 <= i < |xs| => Entry(JsNumber.NatToString(i), xs[i]))
    case Str(s) => seq(|s|, i requires 0 <= i < |s| => Entry(JsNumber.NatToString(i), Str([s[i]])))
    case _ => []
  }

  /**
   * `String(v)`: what a value becomes where JavaScript needs a string (a
   * property key, the argument of `parseInt`); array items that are
   * `undefined` or `null` are written as nothing.
   */
  function ToJsString(v: Value): (s: string)
    ensures v.Str? ==> s == v.s
    ensures v.Num? ==> s == JsNumber.IntToString(v.n)
    ensures v.Undefined? ==> s == "undefined"
  {
    match v
    case Undefined => "undefined"
    case Null => "null"
    case Bool(b) => if b then "true" else "false"
    case Num(n) => JsNumber.IntToString(n)
    case Str(s) => s
    case Arr(items) => JoinItems(items)
    case Obj(_) => "[object Object]"
  }

  /** `items.join(",")`. */
  function JoinItems(items: seq<Value>): string
    decreases items
  {
    if items == [] then ""
    else
      var head := if Nullish(items[0]) then "" else ToJsString(items[0]);
      if |items| == 1 then head else head + "," + JoinItems(items[1..])
  }

  /** Property write `o[k] = x`: an existing key keeps its place, a new key goes last. */
  function SetEntry(es: seq<Entry>, k: string, x: Value): (r: seq<Entry>)
    ensures FindKey(es, k).Some? ==> r == es[FindKey(es, k).value := Entry(k, x)]
    ensures FindKey(es, k).None? ==> r == es + [Entry(k, x)]
  {
    match FindKey(es, k)
    case Some(j) => es[j := Entry(k, x)]
    case None => es + [Entry(k, x)]
  }

  /** `o[k] = x` on an object value (a non-object is left as it is). */
  function Put(v: Value, k: string, x: Value): (r: Value)
    ensures v.Obj? ==> r == Obj(SetEntry(v.entries, k, x))
    ensures !v.Obj? ==> r == v
  {
    if v.Obj? then Obj(SetEntry(v.entries, k, x)) else v
  }

  lemma {:induction false} GetAfterSetEntry(es: seq<Entry>, k: string, x: Value, k2: string)
    ensures Get(Obj(SetEntry(es, k, x)), k2) == if k2 == k then x else Get(Obj(es), k2)
  {
    var r := SetEntry(es, k, x);
    match FindKey(es, k)
    case Some(j) =>
      assert r == es[j := Entry(k, x)];
      if k2 == k {
        assert FindKey(r, k) == Some(j) by { FindKeyAt(r, k, j); }
      } else {
        FindKeyUnaffected(es, j, Entry(k, x), k2);
      }
    case None =>
      assert r == es + [Entry(k, x)];
      if k2 == k {
        assert FindKey(r, k) == Some(|es|) by { FindKeyAt(r, k, |es|); }
      } else {
        FindKeyAppend(es, Entry(k, x), k2);
      }
  }

  lemma FindKeyAt(es: seq<Entry>, k: string, j: nat)
    requires j < |es| && es[j].key == k
    requires forall i :: 0 <= i < j ==> es[i].key != k
    ensures FindKey(es, k) == Some(j)
  {
  }

  lemma FindKeyUnaffected(es: seq<Entry>, j: nat, e: Entry, k2: string)
    requires j < |es| && e.key == es[j].key && k2 != e.key
    ensures FindKey(es[j := e], k2) == FindKey(es, k2)
  {
    var r := es[j := e];
    match FindKey(es, k2)
    case Some(m) => FindKeyAt(r, k2, m);
    case None =>
  }

  lemma FindKeyAppend(es: seq<Entry>, e: Entry, k2: string)
    requires k2 != e.key
    ensures FindKey(es + [e], k2) == FindKey(es, k2)
  {
    var r := es + [e];
    match FindKey(es, k2)
    case Some(m) => FindKeyAt(r, k2, m);
    case None =>
  }

  // ---------------------------------------------------------------------
  // lodash `merge(target, source)`
  // ---------------------------------------------------------------------

  /**
   * `merge(target, source)` with one source: a target that is neither an
   * object nor an array is replaced by a fresh `{}` (`Object(undefined)`), a
   * falsy source is skipped, and any other source is merged deeply into the
   * target.
   */
  function Merge(target: Value, source: Value): (r: Value)
  {
    var base := if target.Obj? || target.Arr? then target else Obj([]);
    if !Truthy(source) then base else MergeInto(base, source)
  }

  /**
   * `baseMerge(base, src)`: lodash walks the source's own enumerable keys
   * (`keysIn`: an object's keys in order, the indices of an array or of a
   * string, as `OwnEntries` lists them) and merges each one into the
   * target: into an object under the same key, into an array at the index
   * the key names. A number or a boolean source has no keys.
   */
  function MergeInto(base: Value, src: Value): (r: Value)
    requires base.Obj? || base.Arr?
    decreases src, 1, 0
  {
    if base.Obj? then Obj(MergeEntries(base.entries, src, 0))
    else Arr(MergeItems(base.items, src, 0))
  }

  /** Source entries `i` onwards merged into the entries `t` of an object. */
  function MergeEntries(t: seq<Entry>, src: Value, i: nat): (r: seq<Entry>)
    requires i <= |OwnEntries(src)|
    decreases src, 0, |OwnEntries(src)| - i
  {
    if i == |OwnEntries(src)| then t
    else
      var e := OwnEntries(src)[i];
      var found := FindKey(t, e.key);
      // a string's characters are plain values; MergeSlot would return them unchanged
      var slot := if src.Str? then e.val else MergeSlot(found.Some?, Get(Obj(t), e.key), e.val);
      MergeEntries(SetEntry(t, e.key, slot), src, i + 1)
  }

  /** One past the largest array index JavaScript allows: 2^32 - 1. */
  const MaxArrayLength: nat := 0xFFFF_FFFF

  /**
   * A canonical array index: decimal digits without a leading zero, naming
   * a value below 2^32 - 1; any other key is a named property.
   */
  function ArrayIndex(k: string): (r: Option<nat>)
    ensures r.Some? ==> r.value < MaxArrayLength
  {
    if k != [] && (forall j :: 0 <= j < |k| ==> JsNumber.IsDecimal(k[j])) && (k[0] != '0' || |k| == 1)
       && JsNumber.RunValue(k) < MaxArrayLength
    then Some(JsNumber.RunValue(k))
    else None
  }

  /**
   * The items after writing `x` at index `n`: in place below the length,
   * and past the end with the skipped indices left as holes, which read
   * (and stringify) as `undefined`.
   */
  function StoreItem(t: seq<Value>, n: nat, x: Value): (r: seq<Value>)
    ensures |r| == if n < |t| then |t| else n + 1
    ensures r[n] == x
    ensures forall j :: 0 <= j < |r| && j != n ==> r[j] == if j < |t| then t[j] else Undefined
  {
    if n < |t| then t[n := x] else t + seq(n - |t|, _ => Undefined) + [x]
  }

  /**
   * Source entries `i` onwards merged into the items `t` of an array: index
   * `n` of an array or a string is slot `n`; an object's key counts when it
   * is a canonical index, and one past the end leaves holes before it.
   * Arrays here have no named properties, so any other key is dropped.
   */
  function MergeItems(t: seq<Value>, src: Value, i: nat): (r: seq<Value>)
    requires i <= |OwnEntries(src)|
    decreases src, 0, |OwnEntries(src)| - i
  {
    if i == |OwnEntries(src)| then t
    else
      var e := OwnEntries(src)[i];
      var n := if src.Obj? then ArrayIndex(e.key) else Some(i);
      if n.None? then MergeItems(t, src, i + 1)
      else
        var present := n.value < |t|;
        var prev := if present then t[n.value] else Undefined;
        var slot := if src.Str? then e.val else MergeSlot(present, prev, e.val);
        MergeItems(StoreItem(t, n.value, slot), src, i + 1)
  }

  /**
   * The value one key of the target holds after merging source value `sv`
   * into it (`baseMergeDeep` and `assignMergeValue`): an object source is
   * merged into the existing object or array (or a fresh object), an array
   * source into the existing array (or a fresh one), an `undefined` source
   * keeps an existing key, anything else overwrites.
   */
  function MergeSlot(present: bool, prev: Value, sv: Value): (r: Value)
    decreases sv, 2, 0
  {
    if sv.Obj? then
      MergeInto(if present && (prev.Obj? || prev.Arr?) then prev else Obj([]), sv)
    else if sv.Arr? then
      MergeInto(if present && prev.Arr? then prev else Arr([]), sv)
    else if sv.Undefined? && present then prev
    else sv
  }

  /** Merging into a fresh object copies the source: `merge({}, s)` deep-equals `s`. */
  lemma {:induction false} MergeIntoFreshCopies(s: Value)
    requires WellFormed(s)
    ensures MergeSlot(false, Undefined, s) == s
    decreases s, 2
  {
    match s
    case Obj(es) =>
      CopyEntries(s, 0);
      assert s.entries[..0] == [];
    case Arr(xs) =>
      CopyItems(s, 0);
      assert s.items[..0] == [];
    case _ =>
  }

  lemma {:induction false} CopyEntries(s: Value, i: nat)
    requires WellFormed(s) && s.Obj? && i <= |s.entries|
    ensures MergeEntries(s.entries[..i], s, i) == s.entries
    decreases s, 1, |s.entries| - i
  {
    if i < |s.entries| {
      var t := s.entries[..i];
      var e := s.entries[i];
      assert OwnEntries(s)[i] == e;
      assert FindKey(t, e.key).None? by {
        forall j | 0 <= j < |t| ensures t[j].key != e.key { }
      }
      assert e.val < s;
      MergeIntoFreshCopies(e.val);
      assert SetEntry(t, e.key, e.val) == s.entries[..i + 1];
      CopyEntries(s, i + 1);
    } else {
      assert s.entries[..i] == s.entries;
    }
  }

  lemma {:induction false} CopyItems(s: Value, i: nat)
    requires WellFormed(s) && s.Arr? && i <= |s.items|
    ensures MergeItems(s.items[..i], s, i) == s.items
    decreases s, 1, |s.items| - i
  {
    if i < |s.items| {
      assert OwnEntries(s)[i].val == s.items[i];
      assert s.items[i] < s;
      MergeIntoFreshCopies(s.items[i]);
      assert StoreItem(s.items[..i], i, s.items[i]) == s.items[..i + 1];
      CopyItems(s, i + 1);
    } else {
      assert s.items[..i] == s.items;
    }
  }

  /** Corollary: `merge(undefined, s)` for an object source is a copy of `s`. */
  lemma MergeUndefinedTargetCopies(s: Value)
    requires WellFormed(s) && s.Obj?
    ensures Merge(Undefined, s) == s
  {
    MergeIntoFreshCopies(s);
  }

  /** Distinct indices have distinct keys. */
  lemma IndexKeysDistinct(i: nat, j: nat)
    requires i != j
    ensures JsNumber.NatToString(i) != JsNumber.NatToString(j)
  {
    JsNumber.DecimalValue(i);
    JsNumber.DecimalValue(j);
  }

  /**
   * An array merged into `undefined` (or into `{}`) lands under its index
   * keys: `merge(undefined, [a, b])` is `{"0": a, "1": b}`.
   */
  lemma MergeArrayIntoFreshObject(s: Value)
    requires s.Arr? && WellFormed(s)
    ensures Merge(Undefined, s) == Obj(OwnEntries(s))
    ensures Merge(Obj([]), s) == Obj(OwnEntries(s))
  {
    CopyIndexEntries(s, 0);
    assert OwnEntries(s)[..0] == [];
  }

  /**
   * An index past the end of an array target is stored there, with holes
   * before it: `merge([1], {"2": 5})` is `[1, <hole>, 5]`.
   */
  lemma MergePastEndLeavesHoles()
    ensures Merge(Arr([Num(1)]), Obj([Entry("2", Num(5))])) == Arr([Num(1), Undefined, Num(5)])
  {
    assert OwnEntries(Obj([Entry("2", Num(5))])) == [Entry("2", Num(5))];
    assert ArrayIndex("2") == Some(2);
    assert StoreItem([Num(1)], 2, Num(5)) == [Num(1), Undefined, Num(5)];
  }

  lemma {:induction false} CopyIndexEntries(s: Value, i: nat)
    requires WellFormed(s) && s.Arr? && i <= |s.items|
    ensures MergeEntries(OwnEntries(s)[..i], s, i) == OwnEntries(s)
    decreases |s.items| - i
  {
    var es := OwnEntries(s);
    if i < |s.items| {
      var t := es[..i];
      var e := es[i];
      assert e == Entry(JsNumber.NatToString(i), s.items[i]);
      assert FindKey(t, e.key).None? by {
        forall j | 0 <= j < |t| ensures t[j].key != e.key {
          assert t[j] == Entry(JsNumber.NatToString(j), s.items[j]);
          IndexKeysDistinct(i, j);
        }
      }
      MergeIntoFreshCopies(s.items[i]);
      assert SetEntry(t, e.key, e.val) == es[..i + 1];
      CopyIndexEntries(s, i + 1);
    } else {
      assert es[..i] == es;
    }
  }

  /**
   * Key-wise meaning of merging source object `src` into object `t`: a key the
   * source lacks keeps the target's value, a key it has gets the merged slot.
   */
  lemma {:induction false} MergeEntriesGet(t: seq<Entry>, src: Value, i: nat, k: string)
    requires src.Obj? && WellFormed(src) && i <= |src.entries|
    ensures Get(Obj(MergeEntries(t, src, i)), k) ==
      match FindKey(src.entries[i..], k)
      case None => Get(Obj(t), k)
      case Some(j) => MergeSlot(FindKey(t, k).Some?, Get(Obj(t), k), src.entries[i + j].val)
    decreases |src.entries| - i
  {
    if i < |src.entries| {
      var e := src.entries[i];
      assert OwnEntries(src)[i] == e;
      var slot := MergeSlot(FindKey(t, e.key).Some?, Get(Obj(t), e.key), e.val);
      var t' := SetEntry(t, e.key, slot);
      MergeEntriesGet(t', src, i + 1, k);
      GetAfterSetEntry(t, e.key, slot, k);
      var rest := src.entries[i..];
      assert rest[0] == e;
      assert rest[1..] == src.entries[i + 1..];
      if k == e.key {
        assert FindKey(rest, k) == Some(0);
        var after := src.entries[i + 1..];
        assert FindKey(after, k).None? by {
          forall j | 0 <= j < |after| ensures after[j].key != k {
            assert after[j] == src.entries[i + 1 + j];
          }
        }
      } else {
        SetEntryHasKey(t, e.key, slot, k);
      }
    } else {
      assert src.entries[i..] == [];
    }
  }

  /** The merged entries hold a key exactly when the target or the rest of the source does. */
  lemma {:induction false} MergeEntriesHasKey(t: seq<Entry>, src: Value, i: nat, k: string)
    requires src.Obj? && WellFormed(src) && i <= |src.entries|
    ensures FindKey(MergeEntries(t, src, i), k).Some? <==>
      (FindKey(t, k).Some? || FindKey(src.entries[i..], k).Some?)
    decreases |src.entries| - i
  {
    if i < |src.entries| {
      var e := src.entries[i];
      assert OwnEntries(src)[i] == e;
      var slot := MergeSlot(FindKey(t, e.key).Some?, Get(Obj(t), e.key), e.val);
      var t' := SetEntry(t, e.key, slot);
      MergeEntriesHasKey(t', src, i + 1, k);
      SetEntryHasKey(t, e.key, slot, k);
      var rest := src.entries[i..];
      assert rest[0] == e;
      assert rest[1..] == src.entries[i + 1..];
    } else {
      assert src.entries[i..] == [];
    }
  }

  lemma SetEntryHasKey(es: seq<Entry>, k: string, x: Value, k2: string)
    ensures FindKey(SetEntry(es, k, x), k2).Some? <==> (k2 == k || FindKey(es, k2).Some?)
  {
    var r := SetEntry(es, k, x);
    match FindKey(es, k)
    case Some(j) =>
      if k2 == k { FindKeyAt(r, k, j); } else { FindKeyUnaffected(es, j, Entry(k, x), k2); }
    case None =>
      if k2 == k {
        if FindKey(es, k2).None? { FindKeyAt(r, k, |es|); }
      } else { FindKeyAppend(es, Entry(k, x), k2); }
  }

  /** Merging well-formed values yields a well-formed value (no duplicate keys). */
  lemma {:induction false} MergeWellFormed(target: Value, source: Value)
    requires WellFormed(target) && WellFormed(source)
    ensures WellFormed(Merge(target, source))
  {
    var base := if target.Obj? || target.Arr? then target else Obj([]);
    if Truthy(source) { IntoWellFormed(base, source); }
  }

  lemma {:induction false} IntoWellFormed(base: Value, src: Value)
    requires (base.Obj? || base.Arr?) && WellFormed(base) && WellFormed(src)
    ensures WellFormed(MergeInto(base, src))
    decreases src, 1, 0
  {
    if base.Obj? {
      EntriesWellFormed(base.entries, src, 0);
    } else {
      ItemsWellFormed(base.items, src, 0);
    }
  }

  /** The values of a well-formed value's own entries are well formed and smaller. */
  lemma OwnEntryWellFormed(src: Value, i: nat)
    requires WellFormed(src) && i < |OwnEntries(src)|
    ensures WellFormed(OwnEntries(src)[i].val)
    ensures !src.Str? ==> OwnEntries(src)[i].val < src
  {
    if src.Obj? {
      assert OwnEntries(src)[i] == src.entries[i];
    } else if src.Arr? {
      assert OwnEntries(src)[i].val == src.items[i];
    }
  }

  lemma {:induction false} EntriesWellFormed(t: seq<Entry>, src: Value, i: nat)
    requires i <= |OwnEntries(src)| && WellFormed(Obj(t)) && WellFormed(src)
    ensures WellFormed(Obj(MergeEntries(t, src, i)))
    decreases src, 0, |OwnEntries(src)| - i
  {
    if i < |OwnEntries(src)| {
      var e := OwnEntries(src)[i];
      var found := FindKey(t, e.key);
      var prev := Get(Obj(t), e.key);
      OwnEntryWellFormed(src, i);
      assert found.Some? ==> prev == t[found.value].val;
      var slot := if src.Str? then e.val else MergeSlot(found.Some?, prev, e.val);
      if !src.Str? {
        SlotWellFormed(found.Some?, prev, e.val);
      }
      assert MergeEntries(t, src, i) == MergeEntries(SetEntry(t, e.key, slot), src, i + 1);
      SetEntryWellFormed(t, e.key, slot);
      EntriesWellFormed(SetEntry(t, e.key, slot), src, i + 1);
    }
  }

  lemma SetEntryWellFormed(t: seq<Entry>, k: string, x: Value)
    requires WellFormed(Obj(t)) && WellFormed(x)
    ensures WellFormed(Obj(SetEntry(t, k, x)))
  {
  }

  lemma {:induction false} ItemsWellFormed(t: seq<Value>, src: Value, i: nat)
    requires i <= |OwnEntries(src)| && WellFormed(Arr(t)) && WellFormed(src)
    ensures WellFormed(Arr(MergeItems(t, src, i)))
    decreases src, 0, |OwnEntries(src)| - i
  {
    if i < |OwnEntries(src)| {
      var e := OwnEntries(src)[i];
      var n := if src.Obj? then ArrayIndex(e.key) else Some(i);
      if n.None? {
        ItemsWellFormed(t, src, i + 1);
      } else {
        var present := n.value < |t|;
        var prev := if present then t[n.value] else Undefined;
        OwnEntryWellFormed(src, i);
        var slot := if src.Str? then e.val else MergeSlot(present, prev, e.val);
        if !src.Str? {
          SlotWellFormed(present, prev, e.val);
        }
        SetItemWellFormed(t, n.value, slot);
        ItemsWellFormed(StoreItem(t, n.value, slot), src, i + 1);
      }
    }
  }

  lemma SetItemWellFormed(t: seq<Value>, n: nat, x: Value)
    requires WellFormed(Arr(t)) && WellFormed(x)
    ensures WellFormed(Arr(StoreItem(t, n, x)))
  {
  }

  lemma {:induction false} SlotWellFormed(present: bool, prev: Value, sv: Value)
    requires (present ==> WellFormed(prev)) && WellFormed(sv)
    ensures WellFormed(MergeSlot(present, prev, sv))
    decreases sv, 2, 0
  {
    if sv.Obj? {
      IntoWellFormed(if present && (prev.Obj? || prev.Arr?) then prev else Obj([]), sv);
    } else if sv.Arr? {
      IntoWellFormed(if present && prev.Arr? then prev else Arr([]), sv);
    }
  }

  // ---------------------------------------------------------------------
  // lodash `isEqual`: deep equality, blind to object key order
  // ---------------------------------------------------------------------

  predicate DeepEqual(a: Value, b: Value)
    decreases a, 1
  {
    match a
    case Arr(xs) =>
      b.Arr? && |xs| == |b.items|
      && forall i :: 0 <= i < |xs| ==> DeepEqual(xs[i], b.items[i])
    case Obj(es) =>
      b.Obj? && |es| == |b.entries|
      && forall i :: 0 <= i < |es| ==> HasEqualEntry(a, i, b)
    case _ => a == b
  }

  /** Entry `i` of object `a` has a deep-equal counterpart under the same key in `b`. */
  predicate HasEqualEntry(a: Value, i: nat, b: Value)
    requires a.Obj? && i < |a.entries| && b.Obj?
    decreases a, 0
  {
    exists j :: 0 <= j < |b.entries| && b.entries[j].key == a.entries[i].key
      && DeepEqual(a.entries[i].val, b.entries[j].val)
  }

  lemma {:induction false} DeepEqualReflexive(v: Value)
    ensures DeepEqual(v, v)
  {
    match v
    case Arr(xs) =>
      forall i | 0 <= i < |xs| ensures DeepEqual(xs[i], xs[i]) {
        DeepEqualReflexive(xs[i]);
      }
    case Obj(es) =>
      forall i | 0 <= i < |es| ensures HasEqualEntry(v, i, v) {
        DeepEqualReflexive(es[i].val);
        assert v.entries[i].key == es[i].key && DeepEqual(es[i].val, v.entries[i].val);
      }
    case _ =>
  }
}
