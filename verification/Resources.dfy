/** The custom resources of the API group, as the controller reads them. */
module Resources {
  import opened Wrappers
  import opened Documents
  import opened Selectors

  datatype ValueSpec = ValueSpec(value: string, weight: string, name: Option<string>)
  datatype NamespaceSpec = NamespaceSpec(enabled: bool, name: string, range: seq<string>)

  datatype RuleSpec = RuleSpec(
    ruleType: string,
    description: string,
    condition: string,
    enabled: bool,
    scheduleRules: seq<ScheduleRule>,
    savedGroups: seq<SavedGroupTargeting>,
    prerequisites: seq<FeaturePrerequisite>,
    value: string,
    coverage: string,
    hashAttribute: string,
    trackingKey: string,
    fallbackAttribute: Option<string>,
    disableStickyBucketing: Option<bool>,
    bucketVersion: Option<string>,
    minBucketVersion: Option<string>,
    namespace: Option<NamespaceSpec>,
    values: seq<ValueSpec>,
    experimentId: string,
    variations: seq<Variation>)

  datatype Environment = Environment(name: string, enabled: bool, rules: seq<RuleSpec>)

  datatype Binding = Binding(selector: Option<LabelSelector>, role: string)

  datatype SecretReference = SecretReference(name: string, userField: string, passwordField: string)
  datatype TokenReference = TokenReference(name: string, tokenField: string)

  datatype Spec =
    | UserSpec(id: string, name: string, email: string, secret: Option<SecretReference>)
    | OrganizationSpec(id: string, name: string, ownerEmail: string, bindings: seq<Binding>, resourceSelector: Option<LabelSelector>)
    | FeatureSpec(id: string, description: string, tags: seq<string>, defaultValue: string, valueType: string, environments: seq<Environment>)
    | ClientSpec(id: string, name: string, languages: seq<string>, environment: string, encryptPayload: bool, project: string,
                 includeVisualExperiments: bool, includeDraftExperiments: bool, includeExperimentNames: bool,
                 tokenSecret: Option<TokenReference>)

  /** A custom resource. The uid tells apart objects that bear the same name one after the other. */
  datatype Object = Object(uid: nat, name: string, labels: Labels, finalizers: seq<string>, deleting: bool, spec: Spec)
  {
    function Kind(): Kind {
      match spec
      case UserSpec(_, _, _, _) => UserKind
      case OrganizationSpec(_, _, _, _, _) => OrganizationKind
      case FeatureSpec(_, _, _, _, _, _) => FeatureKind
      case ClientSpec(_, _, _, _, _, _, _, _, _, _) => ClientKind
    }

    function Id(): string {
      if spec.id == "" then name else spec.id
    }

    /** All kinds but features let their spec override the name. */
    function GetName(): string {
      if spec.FeatureSpec? || spec.name == "" then name else spec.name
    }

    function Key(): DocKey {
      DocKey(Kind(), Id())
    }
  }

  /** An entry of the instance's sub resource catalog. The API version is the same for all. */
  datatype Ref = Ref(kind: Kind, name: string)

  /** The entry an object gets: under the name its kind reports, which need not be the name it is stored under. */
  function RefOf(o: Object): Ref {
    Ref(o.Kind(), o.GetName())
  }
}
