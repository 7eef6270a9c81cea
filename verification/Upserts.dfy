/**
 The find-merge-write upserts, one per collection: what is stored afterwards and whether anything was
 written. All of them compare before they touch a date.
 */
module Upserts {
  import opened Wrappers
  import opened Documents
  import opened FeatureMerge

  datatype Upserted<+T> = Upserted(doc: T, wrote: bool)

  /** An existing user keeps its password hash. */
  function MergedUser(existing: User, user: User): User {
    existing.(id := user.id, email := user.email, name := user.name)
  }

  function UpsertUser(existing: Option<User>, user: User): Upserted<User> {
    if existing.None? then Upserted(user, true)
    else
      var merged := MergedUser(existing.value, user);
      Upserted(merged, merged != existing.value)
  }

  /** Members are taken over only if any were found. */
  function MergedOrganization(existing: Organization, org: Organization): Organization {
    existing.(id := org.id, ownerEmail := org.ownerEmail, name := org.name,
              members := if org.members.Nil? then existing.members else org.members)
  }

  function UpsertOrganization(existing: Option<Organization>, org: Organization, now: Time): Upserted<Organization> {
    if existing.None? then
      Upserted(org.(dateCreated := now, members := if org.members.Nil? then Items([]) else org.members), true)
    else
      var merged := MergedOrganization(existing.value, org);
      Upserted(merged, merged != existing.value)
  }

  /** Two encodings of equal features may still differ when the map encoder visits two or more environments
      in different orders. */
  function UpsertFeature(existing: Option<Feature>, f: Feature, now: Time, reordered: bool): Upserted<Feature> {
    if existing.None? then Upserted(f.(dateCreated := now, dateUpdated := now), true)
    else
      var merged := MergedFeature(existing.value, f);
      if merged == existing.value && !(reordered && |SettingsOf(merged)| >= 2) then Upserted(existing.value, false)
      else Upserted(merged.(dateUpdated := now), true)
  }

  /** An existing connection keeps its keys, and whether experiment names are included. */
  function MergedConnection(existing: SDKConnection, c: SDKConnection): SDKConnection {
    existing.(
      id := c.id,
      key := c.key,
      languages := c.languages,
      name := c.name,
      environment := c.environment,
      encryptPayload := c.encryptPayload,
      organization := c.organization,
      project := c.project,
      includeVisualExperiments := c.includeVisualExperiments,
      includeDraftExperiments := c.includeDraftExperiments)
  }

  function UpsertConnection(existing: Option<SDKConnection>, c: SDKConnection, now: Time, encryptionKey: string, signingKey: string)
    : Upserted<SDKConnection>
  {
    if existing.None? then
      Upserted(c.(dateCreated := now, dateUpdated := now, encryptionKey := encryptionKey, signingKey := signingKey), true)
    else
      var merged := MergedConnection(existing.value, c);
      if merged == existing.value then Upserted(existing.value, false)
      else Upserted(merged.(dateUpdated := now), true)
  }

  /** One computation of an organization's document by a pass. */
  datatype OrganizationCall = OrganizationCall(org: Organization, now: Time)

  function OrganizationRun(existing: Option<Organization>, calls: seq<OrganizationCall>): Option<Organization>
    decreases |calls|
  {
    if calls == [] then existing
    else
      var n := |calls| - 1;
      Some(UpsertOrganization(OrganizationRun(existing, calls[..n]), calls[n].org, calls[n].now).doc)
  }

  /** Over any run the members are those of the last call that found any; before one they are the
      pre-existing ones, or the empty list if the run inserted the document. */
  lemma {:induction false} MembershipOverRuns(existing: Option<Organization>, calls: seq<OrganizationCall>, last: int)
    requires calls != []
    requires -1 <= last < |calls|
    requires last >= 0 ==> calls[last].org.members.Items?
    requires forall i | last < i < |calls| :: calls[i].org.members.Nil?
    ensures OrganizationRun(existing, calls).Some?
    ensures OrganizationRun(existing, calls).value.members ==
            if last >= 0 then calls[last].org.members
            else if existing.Some? then existing.value.members
            else Items([])
    decreases |calls|
  {
    var n := |calls| - 1;
    if last < n && n > 0 {
      MembershipOverRuns(existing, calls[..n], last);
    } else if n > 0 && last == n {
      MembershipOverRunsExist(existing, calls[..n]);
    }
  }

  lemma {:induction false} MembershipOverRunsExist(existing: Option<Organization>, calls: seq<OrganizationCall>)
    requires calls != []
    ensures OrganizationRun(existing, calls).Some?
  {
  }

  /** One UpdateFeature call on a stored feature. */
  datatype FeatureCall = FeatureCall(spec: Feature, now: Time, reordered: bool)

  function FeatureRun(existing: Feature, calls: seq<FeatureCall>): Feature
    decreases |calls|
  {
    if calls == [] then existing
    else
      var n := |calls| - 1;
      UpsertFeature(Some(FeatureRun(existing, calls[..n])), calls[n].spec, calls[n].now, calls[n].reordered).doc
  }

  /** Through any sequence of calls with changing specs, as long as an environment stays in every spec its
      foreign rules survive in order and are followed by exactly the last spec's rules. */
  lemma {:induction false} ForeignRulesSurviveRuns(existing: Feature, calls: seq<FeatureCall>, env: string)
    requires env in SettingsOf(existing)
    requires forall c | c in calls :: SpecFeature(c.spec) && env in SettingsOf(c.spec)
    ensures env in SettingsOf(FeatureRun(existing, calls))
    ensures var rules := SettingsOf(FeatureRun(existing, calls))[env].rules.All();
            && Foreign(rules) == Foreign(SettingsOf(existing)[env].rules.All())
            && (calls != [] ==>
                  rules == Foreign(SettingsOf(existing)[env].rules.All()) + SettingsOf(calls[|calls| - 1].spec)[env].rules.All())
    decreases |calls|
  {
    if calls != [] {
      var n := |calls| - 1;
      var before := FeatureRun(existing, calls[..n]);
      ForeignRulesSurviveRuns(existing, calls[..n], env);
      assert calls[n] in calls;
      CallMergesSettings(before, calls[n], env);
    }
  }

  /** One call on an environment that is there before and in the spec. */
  lemma CallMergesSettings(before: Feature, c: FeatureCall, env: string)
    requires env in SettingsOf(before) && SpecFeature(c.spec) && env in SettingsOf(c.spec)
    ensures var after := UpsertFeature(Some(before), c.spec, c.now, c.reordered).doc;
            && env in SettingsOf(after)
            && SettingsOf(after)[env].rules.All() == Foreign(SettingsOf(before)[env].rules.All()) + SettingsOf(c.spec)[env].rules.All()
            && Foreign(SettingsOf(after)[env].rules.All()) == Foreign(SettingsOf(before)[env].rules.All())
  {
    var after := UpsertFeature(Some(before), c.spec, c.now, c.reordered).doc;
    assert SettingsOf(after) == MergedSettings(SettingsOf(before), SettingsOf(c.spec));
    MergeKeepsForeign(SettingsOf(before)[env].rules, SettingsOf(c.spec)[env].rules);
  }

  /** The foreign rules of an environment, none if there is no such environment. */
  function ForeignIn(f: Feature, env: string): seq<FeatureRule> {
    if env in SettingsOf(f) then Foreign(SettingsOf(f)[env].rules.All()) else []
  }

  lemma CallForgets(before: Feature, c: FeatureCall, env: string)
    requires SpecFeature(c.spec)
    ensures ForeignIn(UpsertFeature(Some(before), c.spec, c.now, c.reordered).doc, env) ==
            if env in SettingsOf(c.spec) then ForeignIn(before, env) else []
  {
    var after := UpsertFeature(Some(before), c.spec, c.now, c.reordered).doc;
    assert SettingsOf(after) == MergedSettings(SettingsOf(before), SettingsOf(c.spec));
    if env in SettingsOf(c.spec) {
      if env in SettingsOf(before) {
        CallMergesSettings(before, c, env);
      } else {
        ForeignOfUnowned(SettingsOf(c.spec)[env].rules.All());
      }
    }
  }

  /** Over every run the foreign rules of an environment are kept exactly if there were none or the environment
      is in every spec; otherwise none is left, whatever the specs after the one that dropped it. */
  lemma {:induction false} ForeignRulesKeptExactly(existing: Feature, calls: seq<FeatureCall>, env: string)
    requires forall c | c in calls :: SpecFeature(c.spec)
    ensures var before, after := ForeignIn(existing, env), ForeignIn(FeatureRun(existing, calls), env);
            && (after == before <==> before == [] || forall c | c in calls :: env in SettingsOf(c.spec))
            && (after == before || after == [])
    decreases |calls|
  {
    if calls != [] {
      var n := |calls| - 1;
      ForeignRulesKeptExactly(existing, calls[..n], env);
      CallForgets(FeatureRun(existing, calls[..n]), calls[n], env);
      assert calls == calls[..n] + [calls[n]];
    }
  }

  /** What an update never changes, in each collection. */
  ghost predicate SameIdentity(before: Doc, after: Doc) {
    match (before, after)
    case (UserDoc(b), UserDoc(a)) => b.passwordHash == a.passwordHash && b.revision == a.revision
    case (OrganizationDoc(b), OrganizationDoc(a)) => b.dateCreated == a.dateCreated && b.revision == a.revision
    case (FeatureDoc(b), FeatureDoc(a)) =>
      b.dateCreated == a.dateCreated && b.revision == a.revision && b.owner == a.owner && b.organization == a.organization && b.archived == a.archived
    case (ConnectionDoc(b), ConnectionDoc(a)) =>
      b.dateCreated == a.dateCreated && b.revision == a.revision && b.encryptionKey == a.encryptionKey && b.signingKey == a.signingKey
    case _ => false
  }
}
