/**
 From a GrowthbookFeature to the document the controller wants stored. Number parsing is a parameter:
 strconv.ParseFloat with its error dropped.
 */
module FeatureTranslation {
  import opened Wrappers
  import opened Documents
  import opened Resources
  import opened FeatureMerge

  type Parse = string -> real

  function Parsed(text: Option<string>, parse: Parse): Option<real> {
    if text.Some? then Some(parse(text.value)) else None
  }

  /** The rule is translated without a nil dereference. */
  predicate Translatable(rule: RuleSpec) {
    rule.bucketVersion.Some? ==> rule.minBucketVersion.Some?
  }

  function StoredValue(v: ValueSpec, parse: Parse): ExperimentValue {
    ExperimentValue("", v.value, parse(v.weight), v.name)
  }

  function StoredValues(values: seq<ValueSpec>, parse: Parse): (stored: seq<ExperimentValue>)
    ensures |stored| == |values| && forall i | 0 <= i < |values| :: stored[i] == StoredValue(values[i], parse)
  {
    seq(|values|, i requires 0 <= i < |values| => StoredValue(values[i], parse))
  }

  function ParsedAll(texts: seq<string>, parse: Parse): (numbers: seq<real>)
    ensures |numbers| == |texts| && forall i | 0 <= i < |texts| :: numbers[i] == parse(texts[i])
  {
    seq(|texts|, i requires 0 <= i < |texts| => parse(texts[i]))
  }

  function StoredNamespace(n: Option<NamespaceSpec>, parse: Parse): Option<NamespaceValue> {
    if n.None? then None
    else Some(NamespaceValue(n.value.enabled, n.value.name, ParsedAll(n.value.range, parse)))
  }

  /** A rule with no ID, and neither experiment reference nor variations. */
  function StoredRule(rule: RuleSpec, parse: Parse): FeatureRule {
    FeatureRule(
      "",
      rule.ruleType,
      rule.description,
      rule.condition,
      rule.enabled,
      rule.scheduleRules,
      rule.savedGroups,
      rule.prerequisites,
      rule.value,
      parse(rule.coverage),
      rule.hashAttribute,
      rule.trackingKey,
      rule.fallbackAttribute,
      rule.disableStickyBucketing,
      Parsed(rule.bucketVersion, parse),
      if rule.bucketVersion.Some? then Parsed(rule.minBucketVersion, parse) else None,
      StoredNamespace(rule.namespace, parse),
      StoredValues(rule.values, parse),
      "",
      [])
  }

  function StoredRules(rules: seq<RuleSpec>, parse: Parse): (stored: seq<FeatureRule>)
    ensures |stored| == |rules|
    ensures forall i | 0 <= i < |rules| :: stored[i] == StoredRule(rules[i], parse)
    ensures Unowned(stored)
  {
    seq(|rules|, i requires 0 <= i < |rules| => StoredRule(rules[i], parse))
  }

  function StoredSetting(e: Environment, parse: Parse): (s: EnvironmentSetting)
    ensures SpecSetting(s)
  {
    EnvironmentSetting(e.enabled, Sliced(StoredRules(e.rules, parse)))
  }

  /** Later environments of the same name replace earlier ones. */
  function StoredSettings(environments: seq<Environment>, parse: Parse): Settings {
    if environments == [] then map[]
    else
      var n := |environments| - 1;
      StoredSettings(environments[..n], parse)[environments[n].name := StoredSetting(environments[n], parse)]
  }

  predicate Translates(environments: seq<Environment>) {
    forall e | e in environments :: forall r | r in e.rules :: Translatable(r)
  }

  /** The document for a feature, or None where the translation panics. */
  function Translated(o: Object, owner: string, organization: string, parse: Parse): Option<Feature>
    requires o.spec.FeatureSpec?
  {
    if Translates(o.spec.environments)
    then Some(Feature(o.Id(), owner, o.spec.description, Items(o.spec.tags), o.spec.defaultValue, o.spec.valueType, organization,
                      Items([]), Some(StoredSettings(o.spec.environments, parse)), 0, 0, false, 0))
    else None
  }

  /** The map holds exactly the listed names, and for each the last listed environment of that name. */
  lemma {:induction false} LastEnvironmentWins(environments: seq<Environment>, parse: Parse, i: nat)
    requires i < |environments|
    requires forall j | i < j < |environments| :: environments[j].name != environments[i].name
    ensures StoredSettings(environments, parse).Keys == set e | e in environments :: e.name
    ensures StoredSettings(environments, parse)[environments[i].name] == StoredSetting(environments[i], parse)
    decreases |environments|
  {
    StoredNames(environments, parse);
    var n := |environments| - 1;
    if i < n {
      LastEnvironmentWins(environments[..n], parse, i);
      assert environments[n].name != environments[i].name;
    }
  }

  lemma {:induction false} StoredNames(environments: seq<Environment>, parse: Parse)
    ensures StoredSettings(environments, parse).Keys == set e | e in environments :: e.name
    decreases |environments|
  {
    if environments != [] {
      var n := |environments| - 1;
      StoredNames(environments[..n], parse);
      assert environments == environments[..n] + [environments[n]];
    }
  }

  /** What FromV1beta1 promises every later merge: no rule carries an ID, and no rule list is empty but non-nil. */
  lemma {:induction false} StoredSettingsAreSpec(environments: seq<Environment>, parse: Parse)
    ensures SpecSettings(StoredSettings(environments, parse))
    decreases |environments|
  {
    if environments != [] {
      StoredSettingsAreSpec(environments[..|environments| - 1], parse);
    }
  }

  lemma TranslatedIsSpec(o: Object, owner: string, organization: string, parse: Parse)
    requires o.spec.FeatureSpec?
    ensures var f := Translated(o, owner, organization, parse); f.Some? ==> SpecFeature(f.value)
  {
    StoredSettingsAreSpec(o.spec.environments, parse);
  }

  function FormattedAll(numbers: seq<real>, format: real -> string): (texts: seq<string>)
    ensures |texts| == |numbers| && forall i | 0 <= i < |numbers| :: texts[i] == format(numbers[i])
  {
    seq(|numbers|, i requires 0 <= i < |numbers| => format(numbers[i]))
  }

  function ValuesBack(values: seq<ExperimentValue>, format: real -> string): (back: seq<ValueSpec>)
    ensures |back| == |values|
    ensures forall i | 0 <= i < |values| :: back[i] == ValueSpec(values[i].value, format(values[i].weight), values[i].name)
  {
    seq(|values|, i requires 0 <= i < |values| => ValueSpec(values[i].value, format(values[i].weight), values[i].name))
  }

  /** The declaration a stored rule came from, as far as it can be told. */
  function ReadBack(r: FeatureRule, format: real -> string): RuleSpec {
    RuleSpec(
      r.ruleType, r.description, r.condition, r.enabled, r.scheduleRules, r.savedGroups, r.prerequisites, r.value,
      format(r.coverage), r.hashAttribute, r.trackingKey, r.fallbackAttribute, r.disableStickyBucketing,
      if r.bucketVersion.Some? then Some(format(r.bucketVersion.value)) else None,
      if r.minBucketVersion.Some? then Some(format(r.minBucketVersion.value)) else None,
      if r.namespace.None? then None
      else Some(NamespaceSpec(r.namespace.value.enabled, r.namespace.value.name,
                              FormattedAll(r.namespace.value.range, format))),
      ValuesBack(r.values, format),
      r.experimentId, r.variations)
  }

  /** The numbers a rule is written with. */
  function Numbers(rule: RuleSpec): set<string> {
    {rule.coverage}
    + (if rule.bucketVersion.Some? then {rule.bucketVersion.value} else {})
    + (if rule.minBucketVersion.Some? then {rule.minBucketVersion.value} else {})
    + (if rule.namespace.Some? then (set t | t in rule.namespace.value.range) else {})
    + (set v | v in rule.values :: v.weight)
  }

  /** Reading back restores every number exactly if each survives parsing and formatting. */
  ghost predicate Survive(texts: set<string>, parse: Parse, format: real -> string) {
    forall t | t in texts :: format(parse(t)) == t
  }

  lemma RangeReadBack(range: seq<string>, parse: Parse, format: real -> string)
    ensures FormattedAll(ParsedAll(range, parse), format) == range <==> Survive((set t | t in range), parse, format)
  {
    var back := FormattedAll(ParsedAll(range, parse), format);
    if back == range {
      forall t | t in range
        ensures format(parse(t)) == t
      {
        var i :| 0 <= i < |range| && range[i] == t;
        assert back[i] == format(parse(range[i]));
      }
    } else {
      var i :| 0 <= i < |range| && back[i] != range[i];
      assert range[i] in range;
    }
  }

  lemma ValuesReadBack(values: seq<ValueSpec>, parse: Parse, format: real -> string)
    ensures ValuesBack(StoredValues(values, parse), format) == values <==> Survive((set v | v in values :: v.weight), parse, format)
  {
    var back := ValuesBack(StoredValues(values, parse), format);
    if back == values {
      forall v | v in values
        ensures format(parse(v.weight)) == v.weight
      {
        var i :| 0 <= i < |values| && values[i] == v;
        assert back[i].weight == format(parse(values[i].weight));
      }
    } else {
      var i :| 0 <= i < |values| && back[i] != values[i];
      assert values[i] in values;
    }
  }

  /** The translation loses nothing exactly when the rule names no experiment, has no variations and no minimal
      bucket version without a bucket version, and every number it is written with survives. */
  lemma TranslationRoundTrip(rule: RuleSpec, parse: Parse, format: real -> string)
    requires Translatable(rule)
    ensures ReadBack(StoredRule(rule, parse), format) == rule <==>
            && rule.experimentId == "" && rule.variations == [] && (rule.bucketVersion.None? ==> rule.minBucketVersion.None?)
            && Survive(Numbers(rule), parse, format)
  {
    var back := ReadBack(StoredRule(rule, parse), format);
    ValuesReadBack(rule.values, parse, format);
    if rule.namespace.Some? {
      RangeReadBack(rule.namespace.value.range, parse, format);
    }
    NumbersSurvive(rule, parse, format);
  }

  lemma NumbersSurvive(rule: RuleSpec, parse: Parse, format: real -> string)
    ensures Survive(Numbers(rule), parse, format) <==>
            && format(parse(rule.coverage)) == rule.coverage
            && (rule.bucketVersion.Some? ==> format(parse(rule.bucketVersion.value)) == rule.bucketVersion.value)
            && (rule.minBucketVersion.Some? ==> format(parse(rule.minBucketVersion.value)) == rule.minBucketVersion.value)
            && (rule.namespace.Some? ==> Survive((set t | t in rule.namespace.value.range), parse, format))
            && Survive((set v | v in rule.values :: v.weight), parse, format)
  {
    var numbers := Numbers(rule);
    assert rule.coverage in numbers;
    assert rule.bucketVersion.Some? ==> rule.bucketVersion.value in numbers;
    assert rule.minBucketVersion.Some? ==> rule.minBucketVersion.value in numbers;
    assert rule.namespace.Some? ==> (set t | t in rule.namespace.value.range) <= numbers;
    assert (set v | v in rule.values :: v.weight) <= numbers;
  }

  method TranslateRule(rule: RuleSpec, parse: Parse) returns (stored: Option<FeatureRule>)
    ensures stored == if Translatable(rule) then Some(StoredRule(rule, parse)) else None
  {
    var scheduleRules: seq<ScheduleRule> := [];
    for i := 0 to |rule.scheduleRules|
      invariant scheduleRules == rule.scheduleRules[..i]
    {
      scheduleRules := scheduleRules + [ScheduleRule(rule.scheduleRules[i].timestamp, rule.scheduleRules[i].enabled)];
    }
    var savedGroups: seq<SavedGroupTargeting> := [];
    for i := 0 to |rule.savedGroups|
      invariant savedGroups == rule.savedGroups[..i]
    {
      savedGroups := savedGroups + [SavedGroupTargeting(rule.savedGroups[i].match_, rule.savedGroups[i].ids)];
    }
    var prerequisites: seq<FeaturePrerequisite> := [];
    for i := 0 to |rule.prerequisites|
      invariant prerequisites == rule.prerequisites[..i]
    {
      prerequisites := prerequisites + [FeaturePrerequisite(rule.prerequisites[i].id, rule.prerequisites[i].condition)];
    }
    var values: seq<ExperimentValue> := [];
    for i := 0 to |rule.values|
      invariant |values| == i
      invariant forall j | 0 <= j < i :: values[j] == StoredValue(rule.values[j], parse)
    {
      var v := rule.values[i];
      values := values + [ExperimentValue("", v.value, parse(v.weight), v.name)];
    }
    var bucketVersion, minBucketVersion := None, None;
    if rule.bucketVersion.Some? {
      bucketVersion := Some(parse(rule.bucketVersion.value));
      if rule.minBucketVersion.None? {
        return None;
      }
      minBucketVersion := Some(parse(rule.minBucketVersion.value));
    }
    var namespace := None;
    if rule.namespace.Some? {
      var range := ParseAll(rule.namespace.value.range, parse);
      namespace := Some(NamespaceValue(rule.namespace.value.enabled, rule.namespace.value.name, range));
    }
    assert values == StoredValues(rule.values, parse);
    assert scheduleRules == rule.scheduleRules && savedGroups == rule.savedGroups && prerequisites == rule.prerequisites;
    stored := Some(FeatureRule(
      "", rule.ruleType, rule.description, rule.condition, rule.enabled, scheduleRules, savedGroups, prerequisites, rule.value,
      parse(rule.coverage), rule.hashAttribute, rule.trackingKey, rule.fallbackAttribute, rule.disableStickyBucketing,
      bucketVersion, minBucketVersion, namespace, values, "", []));
  }

  method ParseAll(texts: seq<string>, parse: Parse) returns (numbers: seq<real>)
    ensures numbers == ParsedAll(texts, parse)
  {
    numbers := [];
    for i := 0 to |texts|
      invariant |numbers| == i
      invariant forall j | 0 <= j < i :: numbers[j] == parse(texts[j])
    {
      numbers := numbers + [parse(texts[i])];
    }
  }

  /** The loop over the rules of one environment. */
  method TranslateRules(rules: seq<RuleSpec>, parse: Parse) returns (stored: Option<seq<FeatureRule>>)
    ensures stored == if forall r | r in rules :: Translatable(r) then Some(StoredRules(rules, parse)) else None
  {
    var result: seq<FeatureRule> := [];
    for j := 0 to |rules|
      invariant |result| == j
      invariant forall k | 0 <= k < j :: Translatable(rules[k]) && result[k] == StoredRule(rules[k], parse)
    {
      var rule := TranslateRule(rules[j], parse);
      if rule.None? {
        assert rules[j] in rules;
        return None;
      }
      result := result + [rule.value];
    }
    assert result == StoredRules(rules, parse);
    stored := Some(result);
  }

  /** FromV1beta1: the loop over environments around the one over their rules. */
  method FromV1beta1(o: Object, owner: string, organization: string, parse: Parse) returns (f: Option<Feature>)
    requires o.spec.FeatureSpec?
    ensures f == Translated(o, owner, organization, parse)
  {
    var settings: Settings := map[];
    var environments := o.spec.environments;
    for i := 0 to |environments|
      invariant settings == StoredSettings(environments[..i], parse)
      invariant Translates(environments[..i])
    {
      var env := environments[i];
      var rules := TranslateRules(env.rules, parse);
      if rules.None? {
        assert env in environments;
        return None;
      }
      var setting := EnvironmentSetting(env.enabled, Nil);
      if env.rules != [] {
        setting := setting.(rules := Items(rules.value));
      }
      settings := settings[env.name := setting];
      assert environments[..i + 1][..i] == environments[..i];
    }
    assert environments[..|environments|] == environments;
    f := Some(Feature(o.Id(), owner, o.spec.description, Items(o.spec.tags), o.spec.defaultValue, o.spec.valueType, organization,
                      Items([]), Some(settings), 0, 0, false, 0));
  }

  /** No experiment value of a translated rule carries an ID either. */
  ghost predicate ValuesCarryNoId(s: EnvironmentSetting) {
    forall r, v | r in s.rules.All() && v in r.values :: v.id == ""
  }

  lemma StoredSettingValues(e: Environment, parse: Parse)
    ensures ValuesCarryNoId(StoredSetting(e, parse))
  {
    forall r, v | r in StoredSetting(e, parse).rules.All() && v in r.values
      ensures v.id == ""
    {
      var i :| 0 <= i < |e.rules| && r == StoredRule(e.rules[i], parse);
      assert r.values == StoredValues(e.rules[i].values, parse);
    }
  }

  lemma {:induction false} StoredValuesCarryNoId(environments: seq<Environment>, parse: Parse)
    ensures forall env | env in StoredSettings(environments, parse) :: ValuesCarryNoId(StoredSettings(environments, parse)[env])
    decreases |environments|
  {
    forall env | env in StoredSettings(environments, parse)
      ensures ValuesCarryNoId(StoredSettings(environments, parse)[env])
    {
      var n := |environments| - 1;
      StoredSettingValues(environments[n], parse);
      if env != environments[n].name {
        StoredValuesCarryNoId(environments[..n], parse);
        assert env in StoredSettings(environments[..n], parse);
      }
    }
  }
}
