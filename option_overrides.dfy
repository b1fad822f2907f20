/**
 * The override markers of a panel option (`getOptionOverrides`): an option
 * shows one "rule" marker when some field-override rule sets it.
 */
module OptionOverrides {
  /** A property an override rule sets; only its id is read. */
  datatype DynamicConfigValue = DynamicConfigValue(id: string)

  /** A field-override rule; its matcher is not read. */
  datatype OverrideRule = OverrideRule(properties: seq<DynamicConfigValue>)

  datatype OverrideInfo = OverrideInfo(infoType: string, description: string, tooltip: string)

  const OverrideRuleTooltipDescription: string := "An override rule exists for this property"

  /** `rule.properties.some(prop => prop.id === id)`. */
  function SetsProperty(rule: OverrideRule, id: string): (r: bool)
    ensures r <==> exists j :: 0 <= j < |rule.properties| && rule.properties[j].id == id
  {
    AnyId(rule.properties, id)
  }

  function AnyId(props: seq<DynamicConfigValue>, id: string): (r: bool)
    ensures r <==> exists j :: 0 <= j < |props| && props[j].id == id
  {
    if props == [] then false
    else props[0].id == id || AnyId(props[1..], id)
  }

  /** `overrides.some(rule => ...)`: some rule sets the option with this id. */
  function OverrideRuleFound(overrides: seq<OverrideRule>, id: string): (r: bool)
    ensures r <==> exists i :: 0 <= i < |overrides| && SetsProperty(overrides[i], id)
  {
    if overrides == [] then false
    else SetsProperty(overrides[0], id) || OverrideRuleFound(overrides[1..], id)
  }

  /** Without override rules there is nothing to find. */
  lemma NoRulesNoOverride(id: string)
    ensures !OverrideRuleFound([], id)
  {
  }

  /**
   * `getOptionOverrides(fieldOption, fieldConfig)`: one rule marker, whose
   * description is its tooltip, exactly when some rule sets the option.
   */
  method GetOptionOverrides(fieldOptionId: string, overrides: seq<OverrideRule>) returns (infoDots: seq<OverrideInfo>)
    ensures |infoDots| <= 1
    ensures |infoDots| == 1 <==> exists i, j :: 0 <= i < |overrides| && 0 <= j < |overrides[i].properties|
                                                && overrides[i].properties[j].id == fieldOptionId
    ensures forall k :: 0 <= k < |infoDots| ==>
      infoDots[k] == OverrideInfo("rule", OverrideRuleTooltipDescription, OverrideRuleTooltipDescription)
  {
    infoDots := [];
    var overrideRuleFound := OverrideRuleFound(overrides, fieldOptionId);
    if overrideRuleFound {
      infoDots := infoDots + [OverrideInfo("rule", OverrideRuleTooltipDescription, OverrideRuleTooltipDescription)];
    }
  }
}
