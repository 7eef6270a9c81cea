/**
 The documents the controller keeps in MongoDB.

 Comparing two BSON encodings is modelled as comparing two of these values. A Go slice that is nil is
 stored as null and an empty one as [], so where the difference reaches the store the field is a Slice.
 Fields tagged omitempty drop both forms, and are plain sequences.
 */
module Documents {
  import opened Wrappers

  datatype Slice<+T> = Nil | Items(items: seq<T>) {
    function All(): seq<T> {
      if Nil? then [] else items
    }
  }

  type Time = int

  datatype User = User(id: string, email: string, name: string, passwordHash: string, revision: int)

  datatype Member = Member(id: string, role: string)

  datatype Organization = Organization(
    id: string, ownerEmail: string, name: string, dateCreated: Time, members: Slice<Member>, revision: int)

  datatype ScheduleRule = ScheduleRule(timestamp: string, enabled: bool)
  datatype SavedGroupTargeting = SavedGroupTargeting(match_: string, ids: seq<string>)
  datatype FeaturePrerequisite = FeaturePrerequisite(id: string, condition: string)
  datatype ExperimentValue = ExperimentValue(id: string, value: string, weight: real, name: Option<string>)
  datatype NamespaceValue = NamespaceValue(enabled: bool, name: string, range: seq<real>)
  datatype Variation = Variation(variationId: string, value: string)

  datatype FeatureRule = FeatureRule(
    id: string,
    ruleType: string,
    description: string,
    condition: string,
    enabled: bool,
    scheduleRules: seq<ScheduleRule>,
    savedGroups: seq<SavedGroupTargeting>,
    prerequisites: seq<FeaturePrerequisite>,
    value: string,
    coverage: real,
    hashAttribute: string,
    trackingKey: string,
    fallbackAttribute: Option<string>,
    disableStickyBucketing: Option<bool>,
    bucketVersion: Option<real>,
    minBucketVersion: Option<real>,
    namespace: Option<NamespaceValue>,
    values: seq<ExperimentValue>,
    experimentId: string,
    variations: seq<Variation>)

  datatype EnvironmentSetting = EnvironmentSetting(enabled: bool, rules: Slice<FeatureRule>)

  type Settings = map<string, EnvironmentSetting>

  datatype Feature = Feature(
    id: string,
    owner: string,
    description: string,
    tags: Slice<string>,
    defaultValue: string,
    valueType: string,
    organization: string,
    environments: Slice<string>,
    environmentSettings: Option<Settings>,
    dateCreated: Time,
    dateUpdated: Time,
    archived: bool,
    revision: int)

  datatype SDKConnection = SDKConnection(
    id: string,
    key: string,
    languages: Slice<string>,
    name: string,
    environment: string,
    encryptPayload: bool,
    encryptionKey: string,
    organization: string,
    project: string,
    includeVisualExperiments: bool,
    includeDraftExperiments: bool,
    includeExperimentNames: bool,
    dateCreated: Time,
    dateUpdated: Time,
    signingKey: string,
    revision: int)

  /** A response GrowthBook cached for the SDKs of one environment of one organization. */
  datatype Payload = Payload(environment: string, organization: string, stamp: nat)

  datatype Kind = UserKind | OrganizationKind | FeatureKind | ClientKind

  /** A document together with the collection it lives in. */
  datatype Doc =
    | UserDoc(user: User)
    | OrganizationDoc(organization: Organization)
    | FeatureDoc(feature: Feature)
    | ConnectionDoc(connection: SDKConnection)
  {
    function Key(): DocKey {
      match this
      case UserDoc(u) => DocKey(UserKind, u.id)
      case OrganizationDoc(o) => DocKey(OrganizationKind, o.id)
      case FeatureDoc(f) => DocKey(FeatureKind, f.id)
      case ConnectionDoc(c) => DocKey(ClientKind, c.id)
    }
  }

  /** The filter every upsert and every delete uses: a collection and an id. */
  datatype DocKey = DocKey(kind: Kind, id: string)

  type Docs = map<DocKey, Doc>

  /** Documents are filed under their own key. */
  ghost predicate Filed(docs: Docs) {
    forall k | k in docs :: docs[k].Key() == k
  }

  function Get(docs: Docs, key: DocKey): Option<Doc> {
    if key in docs then Some(docs[key]) else None
  }

  function AsUser(d: Option<Doc>): Option<User> {
    if d.Some? && d.value.UserDoc? then Some(d.value.user) else None
  }

  function AsOrganization(d: Option<Doc>): Option<Organization> {
    if d.Some? && d.value.OrganizationDoc? then Some(d.value.organization) else None
  }

  function AsFeature(d: Option<Doc>): Option<Feature> {
    if d.Some? && d.value.FeatureDoc? then Some(d.value.feature) else None
  }

  function AsConnection(d: Option<Doc>): Option<SDKConnection> {
    if d.Some? && d.value.ConnectionDoc? then Some(d.value.connection) else None
  }
}
