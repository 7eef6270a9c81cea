/**
 Merging a declared feature into the stored one. Rules that carry an ID were written by other people and
 are kept; rules without one are the controller's and are replaced.
 */
module FeatureMerge {
  import opened Wrappers
  import opened Documents

  /** The rules other people wrote, in order. */
  function Foreign(rules: seq<FeatureRule>): (kept: seq<FeatureRule>)
    ensures |kept| <= |rules|
  {
    if rules == [] then []
    else (if rules[0].id != "" then [rules[0]] else []) + Foreign(rules[1..])
  }

  predicate Unowned(rules: seq<FeatureRule>) {
    forall r | r in rules :: r.id == ""
  }

  /** append on a nil slice yields nil unless there is something to append. */
  function Sliced<T>(items: seq<T>): Slice<T> {
    if items == [] then Nil else Items(items)
  }

  function Merged(existing: Slice<FeatureRule>, spec: Slice<FeatureRule>): Slice<FeatureRule> {
    Sliced(Foreign(existing.All()) + spec.All())
  }

  method MergeRules(existing: Slice<FeatureRule>, spec: Slice<FeatureRule>) returns (rules: Slice<FeatureRule>)
    ensures rules == Merged(existing, spec)
  {
    var kept: seq<FeatureRule> := [];
    var all := existing.All();
    for i := 0 to |all|
      invariant kept == Foreign(all[..i])
    {
      ForeignSnoc(all, i);
      if all[i].id != "" {
        kept := kept + [all[i]];
      }
    }
    assert all[..|all|] == all;
    var joined := kept + spec.All();
    rules := if joined == [] then Nil else Items(joined);
  }

  lemma ForeignSnoc(rules: seq<FeatureRule>, i: nat)
    requires i < |rules|
    ensures Foreign(rules[..i + 1]) == if rules[i].id != "" then Foreign(rules[..i]) + [rules[i]] else Foreign(rules[..i])
  {
    assert rules[..i + 1] == rules[..i] + [rules[i]];
    ForeignAppend(rules[..i], [rules[i]]);
    assert [rules[i]][1..] == [];
  }

  lemma {:induction false} ForeignAppend(a: seq<FeatureRule>, b: seq<FeatureRule>)
    ensures Foreign(a + b) == Foreign(a) + Foreign(b)
  {
    if a == [] {
      assert a + b == b;
    } else {
      assert (a + b)[1..] == a[1..] + b;
      ForeignAppend(a[1..], b);
    }
  }

  lemma {:induction false} ForeignOfUnowned(rules: seq<FeatureRule>)
    requires Unowned(rules)
    ensures Foreign(rules) == []
  {
    if rules != [] {
      ForeignOfUnowned(rules[1..]);
    }
  }

  lemma {:induction false} ForeignOfForeign(rules: seq<FeatureRule>)
    ensures Foreign(Foreign(rules)) == Foreign(rules)
    ensures forall r | r in Foreign(rules) :: r.id != "" && r in rules
  {
    if rules != [] {
      ForeignOfForeign(rules[1..]);
      ForeignAppend(if rules[0].id != "" then [rules[0]] else [], Foreign(rules[1..]));
    }
  }

  /** A merge keeps every foreign rule, in order, and follows them with exactly the spec's rules. */
  lemma MergeKeepsForeign(existing: Slice<FeatureRule>, spec: Slice<FeatureRule>)
    requires Unowned(spec.All())
    ensures Foreign(Merged(existing, spec).All()) == Foreign(existing.All())
    ensures Merged(existing, spec).All() == Foreign(existing.All()) + spec.All()
  {
    ForeignAppend(Foreign(existing.All()), spec.All());
    ForeignOfForeign(existing.All());
    ForeignOfUnowned(spec.All());
    assert Foreign(existing.All()) + [] == Foreign(existing.All());
  }

  /** Merging the same rules twice is merging them once exactly when the spec names no ID; with one, the
      second merge duplicates it. */
  lemma MergeIdempotent(existing: Slice<FeatureRule>, spec: Slice<FeatureRule>)
    ensures Merged(Merged(existing, spec), spec) == Merged(existing, spec) <==> Unowned(spec.All())
  {
    var kept, own := Foreign(existing.All()), spec.All();
    var extra := Foreign(own);
    ForeignAppend(kept, own);
    ForeignOfForeign(existing.All());
    assert Merged(Merged(existing, spec), spec) == Sliced(kept + extra + own);
    if Unowned(own) {
      ForeignOfUnowned(own);
      assert kept + extra == kept;
    } else {
      SomeForeign(own);
      assert |kept + extra + own| > |kept + own|;
    }
  }

  lemma {:induction false} SomeForeign(rules: seq<FeatureRule>)
    requires !Unowned(rules)
    ensures Foreign(rules) != []
  {
    if rules[0].id == "" {
      SomeForeign(rules[1..]);
    }
  }

  function MergedSetting(existing: Option<EnvironmentSetting>, spec: EnvironmentSetting): EnvironmentSetting {
    if existing.Some? then EnvironmentSetting(spec.enabled, Merged(existing.value.rules, spec.rules)) else spec
  }

  function Setting(settings: Settings, env: string): Option<EnvironmentSetting> {
    if env in settings then Some(settings[env]) else None
  }

  /** The environment settings after a merge: the spec's keys, each merged if it was there before. */
  function MergedSettings(existing: Settings, spec: Settings): Settings {
    map env | env in spec :: MergedSetting(Setting(existing, env), spec[env])
  }

  /** The two range loops of the update, visiting the keys of either map in any order; the second deletes
      from the map it ranges over. The result does not depend on the order. */
  method MergeEnvironments(existing: Settings, spec: Settings) returns (settings: Settings)
    ensures settings == MergedSettings(existing, spec)
  {
    settings := existing;
    var todo := spec.Keys;
    while todo != {}
      invariant todo <= spec.Keys
      invariant settings.Keys == existing.Keys + (spec.Keys - todo)
      invariant forall env | env in settings ::
                  settings[env] == if env in todo || env !in spec then existing[env] else MergedSettings(existing, spec)[env]
    {
      var env :| env in todo;
      if env in settings {
        var rules := MergeRules(settings[env].rules, spec[env].rules);
        settings := settings[env := settings[env].(enabled := spec[env].enabled, rules := rules)];
      } else {
        settings := settings[env := EnvironmentSetting(spec[env].enabled, spec[env].rules)];
      }
      todo := todo - {env};
    }
    var visit := settings.Keys;
    while visit != {}
      invariant spec.Keys <= settings.Keys <= spec.Keys + visit
      invariant forall env | env in settings && env in spec :: settings[env] == MergedSettings(existing, spec)[env]
      decreases visit
    {
      var env :| env in visit;
      if env !in spec {
        settings := settings - {env};
      }
      visit := visit - {env};
    }
  }

  /** The stored feature after a merge, before its date is touched. Owner, organization, creation date,
      archive flag and revision are the stored ones. */
  function MergedFeature(existing: Feature, spec: Feature): Feature {
    existing.(
      id := spec.id,
      description := spec.description,
      defaultValue := spec.defaultValue,
      valueType := spec.valueType,
      tags := spec.tags,
      environments := spec.environments,
      environmentSettings := Some(MergedSettings(SettingsOf(existing), SettingsOf(spec))))
  }

  function SettingsOf(f: Feature): Settings {
    if f.environmentSettings.Some? then f.environmentSettings.value else map[]
  }

  /** A setting FromV1beta1 can produce: no rule has an ID, and the rules are nil or there is one. */
  ghost predicate SpecSetting(s: EnvironmentSetting) {
    Unowned(s.rules.All()) && (s.rules.Items? ==> s.rules.items != [])
  }

  ghost predicate SpecSettings(s: Settings) {
    forall env | env in s :: SpecSetting(s[env])
  }

  ghost predicate SpecFeature(f: Feature) {
    f.environmentSettings.Some? && SpecSettings(f.environmentSettings.value)
  }

  lemma MergedSettingStable(existing: Option<EnvironmentSetting>, spec: EnvironmentSetting)
    requires SpecSetting(spec)
    ensures MergedSetting(Some(MergedSetting(existing, spec)), spec) == MergedSetting(existing, spec)
    ensures MergedSetting(Some(spec), spec) == spec
  {
    MergeIdempotent(if existing.Some? then existing.value.rules else Nil, spec.rules);
    ForeignOfUnowned(spec.rules.All());
    assert [] + spec.rules.All() == spec.rules.All();
  }

  lemma MergedSettingsStable(s: Settings, existing: Settings)
    requires SpecSettings(s)
    requires existing.Keys == s.Keys
    requires forall env | env in s :: exists e :: existing[env] == MergedSetting(e, s[env])
    ensures MergedSettings(existing, s) == existing
  {
    forall env | env in s
      ensures MergedSettings(existing, s)[env] == existing[env]
    {
      var e :| existing[env] == MergedSetting(e, s[env]);
      MergedSettingStable(e, s[env]);
    }
  }

  /** Merging the same spec again changes nothing, nor does merging it into what an insert stored. */
  lemma MergedFeatureIdempotent(existing: Feature, spec: Feature)
    requires SpecFeature(spec)
    ensures MergedFeature(MergedFeature(existing, spec), spec) == MergedFeature(existing, spec)
    ensures MergedFeature(spec, spec) == spec
  {
    var e, s := SettingsOf(existing), SettingsOf(spec);
    MergedSettingsStable(s, MergedSettings(e, s));
    assert forall env | env in s :: s[env] == MergedSetting(None, s[env]);
    MergedSettingsStable(s, s);
  }
}
