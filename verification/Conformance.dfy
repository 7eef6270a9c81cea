/**
 What it means for a stored document to be what its resource declares, and exactly when an upsert brings it
 there. Three declared fields are only taken over by an insert.
 */
module Conformance {
  import opened Wrappers
  import opened Documents
  import opened Selectors
  import opened Resources
  import opened FeatureMerge
  import opened FeatureTranslation
  import opened Upserts
  import opened Worlds
  import opened Pass
  import opened Demands
  import PasswordHash
  import KeyGenerator

  /** The stored hash is one of the password. */
  predicate Verifies(hash: string, password: string, scrypt: PasswordHash.Derivation) {
    var salt := PasswordHash.SaltOf(hash);
    hash == salt + ":" + PasswordHash.Hex(scrypt(password, salt))
  }

  ghost predicate UserConforms(p: Params, secrets: Secrets, o: Object, u: User)
    requires o.spec.UserSpec? && SecretGiven(secrets, o)
  {
    && u.id == DeclaredId(o)
    && u.email == o.spec.email
    && u.name == UserName(secrets, o)
    && Verifies(u.passwordHash, Password(secrets, o), p.scrypt)
  }

  ghost predicate OrganizationConforms(members: seq<Member>, o: Object, g: Organization)
    requires o.spec.OrganizationSpec?
  {
    && g.id == DeclaredId(o)
    && g.ownerEmail == o.spec.ownerEmail
    && g.name == DeclaredName(o)
    && (members != [] ==> g.members == Items(members))
  }

  /** The rules nobody else wrote. */
  function Own(rules: seq<FeatureRule>): seq<FeatureRule> {
    if rules == [] then []
    else if rules[0].id == "" then [rules[0]] + Own(rules[1..])
    else Own(rules[1..])
  }

  /** One setting per declared name, switched as its last declaration says, with exactly the declared rules as
      its own. */
  ghost predicate SettingsConform(p: Params, declared: seq<Environment>, s: Settings) {
    && s.Keys == (set e | e in declared :: e.name)
    && forall i | 0 <= i < |declared| && (forall j | i < j < |declared| :: declared[j].name != declared[i].name) ::
         && s[declared[i].name].enabled == declared[i].enabled
         && Own(s[declared[i].name].rules.All()) == StoredRules(declared[i].rules, p.parse)
  }

  ghost predicate FeatureConforms(p: Params, organization: string, o: Object, f: Feature)
    requires o.spec.FeatureSpec?
  {
    && f.id == DeclaredId(o)
    && f.organization == organization
    && f.description == o.spec.description
    && f.tags == Items(o.spec.tags)
    && f.defaultValue == o.spec.defaultValue
    && f.valueType == o.spec.valueType
    && f.environments == Items([])
    && SettingsConform(p, o.spec.environments, SettingsOf(f))
  }

  ghost predicate ConnectionConforms(secrets: Secrets, organization: string, o: Object, c: SDKConnection)
    requires o.spec.ClientSpec? && TokenGiven(secrets, o)
  {
    && c.id == DeclaredId(o)
    && c.key == ConnectionKey(secrets, o)
    && c.name == DeclaredName(o)
    && c.organization == organization
    && c.languages == Items(o.spec.languages)
    && c.environment == o.spec.environment
    && c.project == o.spec.project
    && c.encryptPayload == o.spec.encryptPayload
    && c.includeVisualExperiments == o.spec.includeVisualExperiments
    && c.includeDraftExperiments == o.spec.includeDraftExperiments
    && c.includeExperimentNames == o.spec.includeExperimentNames
  }

  /** A user conforms after its upsert exactly if it was inserted or its stored hash already was one of the
      password: a changed password is never stored. */
  lemma UserUpsertConforms(p: Params, secrets: Secrets, organization: string, members: seq<Member>, o: Object, existing: Option<User>, e: Entropy)
    requires o.spec.UserSpec? && SecretGiven(secrets, o)
    ensures var d := if existing.Some? then Some(UserDoc(existing.value)) else None;
            var r := Computed(p, secrets, organization, members, o, d, e);
            && r.Some? && r.value.doc.UserDoc?
            && (UserConforms(p, secrets, o, r.value.doc.user) <==>
                existing.None? || Verifies(existing.value.passwordHash, Password(secrets, o), p.scrypt))
  {
    var password := Password(secrets, o);
    var salt := PasswordHash.Hex(e.salt);
    PasswordHash.HexHasNoColon(e.salt);
    PasswordHash.SplitAt(salt, ':', PasswordHash.Hex(p.scrypt(password, salt)));
    if existing.None? {
      assert Verifies(PasswordHash.HashFor(None, password, e.salt, p.scrypt), password, p.scrypt);
    }
  }

  /** Preparing a document fails exactly if something the resource asks for is missing. */
  lemma PreparesExactly(p: Params, secrets: Secrets, organization: string, members: seq<Member>, o: Object, existing: Option<Doc>, e: Entropy)
    ensures Computed(p, secrets, organization, members, o, existing, e).Some? <==>
            match o.spec
            case UserSpec(_, _, _, _) => SecretGiven(secrets, o)
            case OrganizationSpec(_, _, _, _, _) => true
            case FeatureSpec(_, _, _, _, _, _) => VersionsPaired(o)
            case ClientSpec(_, _, _, _, _, _, _, _, _, _) => TokenGiven(secrets, o)
  {
  }

  lemma KeyIsConnectionKey(secrets: Secrets, o: Object)
    requires o.spec.ClientSpec? && TokenGiven(secrets, o)
    ensures ClientKey(secrets, o.spec.tokenSecret) == Some(ConnectionKey(secrets, o))
  {
    var token := secrets[o.spec.tokenSecret.value.name][TokenFieldOf(o)];
    assert token[..4] == "sdk-" <==> "sdk-" <= token;
  }

  lemma OrganizationUpsertConforms(p: Params, secrets: Secrets, organization: string, members: seq<Member>, o: Object, existing: Option<Doc>, e: Entropy)
    requires o.spec.OrganizationSpec?
    ensures var r := Computed(p, secrets, organization, members, o, existing, e);
            r.Some? && r.value.doc.OrganizationDoc? && OrganizationConforms(members, o, r.value.doc.organization)
  {
  }

  /** A client conforms after its upsert exactly if it was inserted or already included experiment names as
      declared. */
  lemma ConnectionConformsAfter(secrets: Secrets, organization: string, o: Object, existing: Option<SDKConnection>, c: SDKConnection, now: Time, key1: string, key2: string)
    requires o.spec.ClientSpec? && TokenGiven(secrets, o) && ConnectionConforms(secrets, organization, o, c)
    ensures ConnectionConforms(secrets, organization, o, UpsertConnection(existing, c, now, key1, key2).doc) <==>
            existing.None? || existing.value.includeExperimentNames == o.spec.includeExperimentNames
  {
  }

  lemma ClientUpsertConforms(p: Params, secrets: Secrets, organization: string, members: seq<Member>, o: Object, existing: Option<SDKConnection>, e: Entropy)
    requires o.spec.ClientSpec? && TokenGiven(secrets, o)
    ensures var d := if existing.Some? then Some(ConnectionDoc(existing.value)) else None;
            var r := Computed(p, secrets, organization, members, o, d, e);
            && r.Some? && r.value.doc.ConnectionDoc?
            && (ConnectionConforms(secrets, organization, o, r.value.doc.connection) <==>
                existing.None? || existing.value.includeExperimentNames == o.spec.includeExperimentNames)
  {
    KeyIsConnectionKey(secrets, o);
    ConnectionConformsAfter(secrets, organization, o, existing, ConnectionOf(secrets, o, organization).value, e.now,
                            KeyGenerator.GenerateKey("", e.key1), KeyGenerator.GenerateKey("", e.key2));
  }

  /** The key has the prefix and is the token but for it; a secret that holds the key gives the same key. */
  lemma ClientKeyHasPrefix(secrets: Secrets, ref: TokenReference, token: string)
    requires Field(secrets, ref.name, if ref.tokenField == "" then "token" else ref.tokenField) == Some(token)
    ensures ClientKey(secrets, Some(ref)).Some? <==> |token| >= 4
    ensures |token| >= 4 ==>
              var key := ClientKey(secrets, Some(ref)).value;
              && "sdk-" <= key && (if "sdk-" <= token then key == token else key[4..] == token)
              && ClientKey(map["s" := map["token" := key]], Some(TokenReference("s", ""))) == Some(key)
  {
    if |token| >= 4 {
      var key := ClientKey(secrets, Some(ref)).value;
      assert token[..4] == "sdk-" <==> "sdk-" <= token;
      assert ("sdk-" + token)[..4] == "sdk-" && ("sdk-" + token)[4..] == token;
      assert Field(map["s" := map["token" := key]], "s", "token") == Some(key);
    }
  }

  lemma {:induction false} OwnAppend(a: seq<FeatureRule>, b: seq<FeatureRule>)
    ensures Own(a + b) == Own(a) + Own(b)
  {
    if a == [] {
      assert a + b == b;
    } else {
      assert (a + b)[1..] == a[1..] + b;
      OwnAppend(a[1..], b);
    }
  }

  lemma {:induction false} OwnOfForeign(rules: seq<FeatureRule>)
    ensures Own(Foreign(rules)) == []
  {
    if rules != [] {
      OwnOfForeign(rules[1..]);
      OwnAppend(if rules[0].id != "" then [rules[0]] else [], Foreign(rules[1..]));
    }
  }

  lemma {:induction false} OwnOfUnowned(rules: seq<FeatureRule>)
    requires Unowned(rules)
    ensures Own(rules) == rules
  {
    if rules != [] {
      OwnOfUnowned(rules[1..]);
    }
  }

  /** A merged environment has exactly the spec's rules as its own. */
  lemma OwnOfMerged(existing: Option<EnvironmentSetting>, spec: EnvironmentSetting)
    requires SpecSetting(spec)
    ensures Own(MergedSetting(existing, spec).rules.All()) == spec.rules.All() && MergedSetting(existing, spec).enabled == spec.enabled
  {
    OwnOfUnowned(spec.rules.All());
    if existing.Some? {
      OwnOfForeign(existing.value.rules.All());
      OwnAppend(Foreign(existing.value.rules.All()), spec.rules.All());
    }
  }

  lemma MergedSettingConforms(p: Params, existing: Settings, declared: seq<Environment>, i: nat)
    requires i < |declared| && forall j | i < j < |declared| :: declared[j].name != declared[i].name
    ensures var s := MergedSettings(existing, StoredSettings(declared, p.parse));
            && declared[i].name in s
            && s[declared[i].name].enabled == declared[i].enabled
            && Own(s[declared[i].name].rules.All()) == StoredRules(declared[i].rules, p.parse)
  {
    LastEnvironmentWins(declared, p.parse, i);
    OwnOfMerged(Setting(existing, declared[i].name), StoredSetting(declared[i], p.parse));
  }

  lemma MergedSettingsConform(p: Params, existing: Settings, declared: seq<Environment>)
    ensures SettingsConform(p, declared, MergedSettings(existing, StoredSettings(declared, p.parse)))
  {
    var s := MergedSettings(existing, StoredSettings(declared, p.parse));
    StoredNames(declared, p.parse);
    forall i | 0 <= i < |declared| && (forall j | i < j < |declared| :: declared[j].name != declared[i].name)
      ensures && s[declared[i].name].enabled == declared[i].enabled
              && Own(s[declared[i].name].rules.All()) == StoredRules(declared[i].rules, p.parse)
    {
      MergedSettingConforms(p, existing, declared, i);
    }
  }

  /** The settings an upsert leaves: merged into what was there, or as they are. */
  lemma UpsertedSettings(existing: Option<Feature>, f: Feature, now: Time, reordered: bool)
    requires SpecFeature(f)
    ensures var doc := UpsertFeature(existing, f, now, reordered).doc;
            && SettingsOf(doc) == MergedSettings(if existing.Some? then SettingsOf(existing.value) else map[], SettingsOf(f))
            && doc.id == f.id && doc.description == f.description && doc.tags == f.tags
            && doc.defaultValue == f.defaultValue && doc.valueType == f.valueType
            && doc.organization == (if existing.Some? then existing.value.organization else f.organization)
  {
  }

  lemma FeatureConformsAfter(p: Params, organization: string, o: Object, existing: Option<Feature>, now: Time, reordered: bool)
    requires o.spec.FeatureSpec? && VersionsPaired(o)
    ensures var f := Translated(o, OWNER, organization, p.parse);
            && f.Some?
            && var doc := UpsertFeature(existing, f.value, now, reordered).doc;
               && (FeatureConforms(p, organization, o, doc) <==> existing.None? || existing.value.organization == organization)
               && (existing.Some? ==> FeatureConforms(p, existing.value.organization, o, doc))
  {
    var f := Translated(o, OWNER, organization, p.parse).value;
    TranslatedIsSpec(o, OWNER, organization, p.parse);
    UpsertedSettings(existing, f, now, reordered);
    MergedSettingsConform(p, if existing.Some? then SettingsOf(existing.value) else map[], o.spec.environments);
  }

  /** A feature conforms after its upsert exactly if it was inserted or already belonged to the organization;
      its environments, their switches and the rules without an ID always do. */
  lemma FeatureUpsertConforms(p: Params, secrets: Secrets, organization: string, members: seq<Member>, o: Object, existing: Option<Feature>, e: Entropy)
    requires o.spec.FeatureSpec? && VersionsPaired(o)
    ensures var d := if existing.Some? then Some(FeatureDoc(existing.value)) else None;
            var r := Computed(p, secrets, organization, members, o, d, e);
            && r.Some? && r.value.doc.FeatureDoc?
            && (FeatureConforms(p, organization, o, r.value.doc.feature) <==> existing.None? || existing.value.organization == organization)
  {
    FeatureConformsAfter(p, organization, o, existing, e.now, e.reordered);
  }
}
