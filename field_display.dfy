/**
 * Field display helpers: whether a field has data links, and the alignment
 * factors of a list of display values (the longest text, title, prefix and
 * suffix, so that values render aligned).
 *
 * `DisplayValue` keeps only the formatted parts the alignment reads; the
 * numeric value, colour and percentage are not part of this model.
 */
module FieldDisplay {
  import opened Wrappers

  /** A field's configuration; `links` is absent when not configured. */
  datatype FieldConfig = FieldConfig(links: Option<seq<string>>)

  /** `hasLinks`: some link is configured. */
  predicate HasLinks(config: Option<FieldConfig>)
  {
    config.Some? && config.value.links.Some? && |config.value.links.value| > 0
  }

  lemma HasLinksIff(config: Option<FieldConfig>)
    ensures HasLinks(config) <==> exists c, ls :: config == Some(c) && c.links == Some(ls) && ls != []
  {
    if HasLinks(config) {
      assert config == Some(config.value) && config.value.links == Some(config.value.links.value);
    }
  }

  /** What the alignment reads of a display value (text is always present). */
  datatype DisplayValue = DisplayValue(text: string, title: Option<string>, prefix: Option<string>,
                                       suffix: Option<string>)

  /** The alignment factors: `title` and `text` start empty, `prefix` and `suffix` unset. */
  datatype AlignmentFactors = AlignmentFactors(title: string, text: string, prefix: Option<string>,
                                               suffix: Option<string>)

  /** A present, non-empty string (JavaScript truthiness of a string). */
  predicate Truthy(s: Option<string>)
  {
    s.Some? && |s.value| > 0
  }

  /** The four attributes the alignment compares. */
  datatype Attribute = Title | Text | Prefix | Suffix

  function Get(v: DisplayValue, a: Attribute): Option<string>
  {
    match a
    case Title => v.title
    case Text => Some(v.text)
    case Prefix => v.prefix
    case Suffix => v.suffix
  }

  /**
   * JavaScript's `length` of a string: its UTF-16 code units, so a
   * character outside the Basic Multilingual Plane counts twice.
   */
  function JsLength(s: string): (n: nat)
    ensures |s| <= n <= 2 * |s|
  {
    if s == [] then 0
    else JsLength(s[..|s| - 1]) + if s[|s| - 1] as int >= 0x1_0000 then 2 else 1
  }

  /** The length the loop compares against: 0 while unset. */
  function LengthOf(s: Option<string>): nat
  {
    if s.Some? then JsLength(s.value) else 0
  }

  /**
   * The part of the loop for one attribute: the first truthy value strictly
   * longer than all before it wins.
   */
  function Longest(vs: seq<DisplayValue>, a: Attribute, init: Option<string>): (r: Option<string>)
    ensures init.Some? ==> r.Some?
  {
    if |vs| == 0 then init
    else
      var before := Longest(vs[..|vs| - 1], a, init);
      var s := Get(vs[|vs| - 1], a);
      if Truthy(s) && JsLength(s.value) > LengthOf(before) then s else before
  }

  /** The longest is at least as long as every value, and is the initial value or one of them. */
  lemma {:induction false} LongestBound(vs: seq<DisplayValue>, a: Attribute, init: Option<string>)
    ensures forall k :: 0 <= k < |vs| && Get(vs[k], a).Some? ==> JsLength(Get(vs[k], a).value) <= LengthOf(Longest(vs, a, init))
    ensures LengthOf(init) <= LengthOf(Longest(vs, a, init))
  {
    if |vs| > 0 {
      var prefix := vs[..|vs| - 1];
      LongestBound(prefix, a, init);
      forall k | 0 <= k < |vs| && Get(vs[k], a).Some?
        ensures JsLength(Get(vs[k], a).value) <= LengthOf(Longest(vs, a, init))
      {
        if k < |vs| - 1 {
          assert vs[k] == prefix[k];
        }
      }
    }
  }

  /**
   * First among equals: when the longest is not the initial value, it is
   * the attribute of some value, truthy, and every earlier value's is
   * strictly shorter.
   */
  lemma {:induction false} LongestIsFirst(vs: seq<DisplayValue>, a: Attribute, init: Option<string>)
    requires Longest(vs, a, init) != init
    ensures exists k :: (0 <= k < |vs| && Get(vs[k], a) == Longest(vs, a, init) && Truthy(Get(vs[k], a))
      && forall j :: 0 <= j < k && Get(vs[j], a).Some? ==> JsLength(Get(vs[j], a).value) < LengthOf(Longest(vs, a, init)))
  {
    var prefix := vs[..|vs| - 1];
    var before := Longest(prefix, a, init);
    var last := Get(vs[|vs| - 1], a);
    if Truthy(last) && JsLength(last.value) > LengthOf(before) {
      LongestBound(prefix, a, init);
      var k := |vs| - 1;
      forall j | 0 <= j < k && Get(vs[j], a).Some? ensures JsLength(Get(vs[j], a).value) < LengthOf(Longest(vs, a, init)) {
        assert vs[j] == prefix[j];
      }
    } else {
      LongestIsFirst(prefix, a, init);
      var k :| (0 <= k < |prefix| && Get(prefix[k], a) == before && Truthy(Get(prefix[k], a))
        && forall j :: 0 <= j < k && Get(prefix[j], a).Some? ==> JsLength(Get(prefix[j], a).value) < LengthOf(before));
      assert vs[k] == prefix[k];
      forall j | 0 <= j < k && Get(vs[j], a).Some? ensures JsLength(Get(vs[j], a).value) < LengthOf(Longest(vs, a, init)) {
        assert vs[j] == prefix[j];
      }
    }
  }

  /** Only truthy values are ever taken: unset or empty ones are skipped. */
  lemma {:induction false} LongestTruthy(vs: seq<DisplayValue>, a: Attribute, init: Option<string>)
    requires init == None || init == Some("")
    ensures Longest(vs, a, init) == init || Truthy(Longest(vs, a, init))
  {
    if |vs| > 0 {
      LongestTruthy(vs[..|vs| - 1], a, init);
    }
  }

  /**
   * Lengths are UTF-16 code units: an emoji is as long as two letters, so
   * it does not replace an earlier "ab" but does replace an earlier "a".
   */
  lemma LongestCountsCodeUnits()
    ensures Longest([DisplayValue("ab", None, None, None), DisplayValue("\U{1F600}", None, None, None)], Text, Some(""))
      == Some("ab")
    ensures Longest([DisplayValue("a", None, None, None), DisplayValue("\U{1F600}", None, None, None)], Text, Some(""))
      == Some("\U{1F600}")
  {
    assert "ab"[..1] == "a";
    assert JsLength("\U{1F600}") == 2;
    var two := [DisplayValue("ab", None, None, None), DisplayValue("\U{1F600}", None, None, None)];
    assert two[..1][..0] == [];
    var one := [DisplayValue("a", None, None, None), DisplayValue("\U{1F600}", None, None, None)];
    assert one[..1][..0] == [];
  }

  /** The alignment factors of `vs`, attribute by attribute. */
  function AlignmentOf(vs: seq<DisplayValue>): AlignmentFactors
  {
    AlignmentFactors(Longest(vs, Title, Some("")).value, Longest(vs, Text, Some("")).value,
                     Longest(vs, Prefix, None), Longest(vs, Suffix, None))
  }

  /** With no values the factors are empty texts and no prefix or suffix. */
  lemma AlignmentOfEmpty()
    ensures AlignmentOf([]) == AlignmentFactors("", "", None, None)
  {
  }

  /** The text factor is at least as long as every value's text, and is the first of its length. */
  lemma AlignedText(vs: seq<DisplayValue>)
    ensures forall k :: 0 <= k < |vs| ==> JsLength(vs[k].text) <= JsLength(AlignmentOf(vs).text)
    ensures AlignmentOf(vs).text == "" || exists k :: (0 <= k < |vs| && vs[k].text == AlignmentOf(vs).text
      && forall j :: 0 <= j < k ==> JsLength(vs[j].text) < JsLength(AlignmentOf(vs).text))
  {
    LongestBound(vs, Text, Some(""));
    forall k | 0 <= k < |vs| ensures JsLength(vs[k].text) <= JsLength(AlignmentOf(vs).text) {
      assert Get(vs[k], Text) == Some(vs[k].text);
    }
    if Longest(vs, Text, Some("")) != Some("") {
      LongestIsFirst(vs, Text, Some(""));
    }
  }

  /** The title factor: at least as long as every title, and the first of its length. */
  lemma AlignedTitle(vs: seq<DisplayValue>)
    ensures forall k :: 0 <= k < |vs| && vs[k].title.Some? ==> JsLength(vs[k].title.value) <= JsLength(AlignmentOf(vs).title)
    ensures AlignmentOf(vs).title == "" || exists k :: (0 <= k < |vs| && vs[k].title == Some(AlignmentOf(vs).title)
      && forall j :: 0 <= j < k && vs[j].title.Some? ==> JsLength(vs[j].title.value) < JsLength(AlignmentOf(vs).title))
  {
    LongestBound(vs, Title, Some(""));
    if Longest(vs, Title, Some("")) != Some("") {
      LongestIsFirst(vs, Title, Some(""));
    }
  }

  /** The prefix factor is unset or the first longest non-empty prefix. */
  lemma AlignedPrefix(vs: seq<DisplayValue>)
    ensures forall k :: 0 <= k < |vs| && vs[k].prefix.Some? ==> JsLength(vs[k].prefix.value) <= LengthOf(AlignmentOf(vs).prefix)
    ensures AlignmentOf(vs).prefix == None <==> forall k :: 0 <= k < |vs| ==> !Truthy(vs[k].prefix)
    ensures AlignmentOf(vs).prefix.Some? ==> exists k :: (0 <= k < |vs| && vs[k].prefix == AlignmentOf(vs).prefix
      && |vs[k].prefix.value| > 0
      && forall j :: 0 <= j < k && vs[j].prefix.Some? ==> JsLength(vs[j].prefix.value) < JsLength(AlignmentOf(vs).prefix.value))
  {
    LongestBound(vs, Prefix, None);
    LongestTruthy(vs, Prefix, None);
    if Longest(vs, Prefix, None) != None {
      LongestIsFirst(vs, Prefix, None);
    }
  }

  /** The suffix factor is unset or the first longest non-empty suffix. */
  lemma AlignedSuffix(vs: seq<DisplayValue>)
    ensures forall k :: 0 <= k < |vs| && vs[k].suffix.Some? ==> JsLength(vs[k].suffix.value) <= LengthOf(AlignmentOf(vs).suffix)
    ensures AlignmentOf(vs).suffix == None <==> forall k :: 0 <= k < |vs| ==> !Truthy(vs[k].suffix)
    ensures AlignmentOf(vs).suffix.Some? ==> exists k :: (0 <= k < |vs| && vs[k].suffix == AlignmentOf(vs).suffix
      && |vs[k].suffix.value| > 0
      && forall j :: 0 <= j < k && vs[j].suffix.Some? ==> JsLength(vs[j].suffix.value) < JsLength(AlignmentOf(vs).suffix.value))
  {
    LongestBound(vs, Suffix, None);
    LongestTruthy(vs, Suffix, None);
    if Longest(vs, Suffix, None) != None {
      LongestIsFirst(vs, Suffix, None);
    }
  }

  /** One more value: the loop's step for one attribute. */
  lemma LongestStep(vs: seq<DisplayValue>, i: nat, a: Attribute, init: Option<string>)
    requires i < |vs|
    ensures Longest(vs[..i + 1], a, init) ==
      if Truthy(Get(vs[i], a)) && JsLength(Get(vs[i], a).value) > LengthOf(Longest(vs[..i], a, init))
      then Get(vs[i], a) else Longest(vs[..i], a, init)
  {
    assert vs[..i + 1][..i] == vs[..i];
  }

  /** `getDisplayValueAlignmentFactors`. */
  method GetDisplayValueAlignmentFactors(values: seq<DisplayValue>) returns (info: AlignmentFactors)
    ensures info == AlignmentOf(values)
  {
    info := AlignmentFactors("", "", None, None);
    var prefixLength := 0;
    var suffixLength := 0;
    for i := 0 to |values|
      invariant Some(info.text) == Longest(values[..i], Text, Some(""))
      invariant Some(info.title) == Longest(values[..i], Title, Some(""))
      invariant info.prefix == Longest(values[..i], Prefix, None) && prefixLength == LengthOf(info.prefix)
      invariant info.suffix == Longest(values[..i], Suffix, None) && suffixLength == LengthOf(info.suffix)
    {
      var v := values[i];
      LongestStep(values, i, Text, Some(""));
      LongestStep(values, i, Title, Some(""));
      LongestStep(values, i, Prefix, None);
      LongestStep(values, i, Suffix, None);
      if |v.text| > 0 && JsLength(v.text) > JsLength(info.text) {
        info := info.(text := v.text);
      }
      if v.title.Some? && |v.title.value| > 0 && JsLength(v.title.value) > JsLength(info.title) {
        info := info.(title := v.title.value);
      }
      if v.prefix.Some? && |v.prefix.value| > 0 && JsLength(v.prefix.value) > prefixLength {
        info := info.(prefix := v.prefix);
        prefixLength := JsLength(v.prefix.value);
      }
      if v.suffix.Some? && |v.suffix.value| > 0 && JsLength(v.suffix.value) > suffixLength {
        info := info.(suffix := v.suffix);
        suffixLength := JsLength(v.suffix.value);
      }
    }
    assert values[..|values|] == values;
  }
}
