/**
 What resources ask for, read off the resource and the secrets directly: which id, name, password and token they
 mean, and when everything is there.
 */
module Demands {
  import opened Wrappers
  import opened Resources
  import opened Worlds

  /** The id a resource is filed under. */
  function DeclaredId(o: Object): string {
    if o.spec.id != "" then o.spec.id else o.name
  }

  /** The name a resource goes by, unless a secret names a user. */
  function DeclaredName(o: Object): string
    requires !o.spec.FeatureSpec?
  {
    if o.spec.name != "" then o.spec.name else o.name
  }

  /** Reference, secret and password field are there; the user field may be missing. */
  predicate SecretGiven(secrets: Secrets, o: Object)
    requires o.spec.UserSpec?
  {
    && o.spec.secret.Some?
    && o.spec.secret.value.name in secrets
    && o.spec.secret.value.passwordField in secrets[o.spec.secret.value.name]
  }

  function Password(secrets: Secrets, o: Object): string
    requires o.spec.UserSpec? && SecretGiven(secrets, o)
  {
    secrets[o.spec.secret.value.name][o.spec.secret.value.passwordField]
  }

  /** The secret's user name if it has one, else the declared name. */
  function UserName(secrets: Secrets, o: Object): string
    requires o.spec.UserSpec? && SecretGiven(secrets, o)
  {
    var fields, field := secrets[o.spec.secret.value.name], o.spec.secret.value.userField;
    if field in fields && fields[field] != "" then fields[field] else DeclaredName(o)
  }

  function TokenFieldOf(o: Object): string
    requires o.spec.ClientSpec? && o.spec.tokenSecret.Some?
  {
    if o.spec.tokenSecret.value.tokenField != "" then o.spec.tokenSecret.value.tokenField else "token"
  }

  /** Reference, secret and field are there, and the token is long enough to look for a prefix. */
  predicate TokenGiven(secrets: Secrets, o: Object)
    requires o.spec.ClientSpec?
  {
    && o.spec.tokenSecret.Some?
    && o.spec.tokenSecret.value.name in secrets
    && TokenFieldOf(o) in secrets[o.spec.tokenSecret.value.name]
    && |secrets[o.spec.tokenSecret.value.name][TokenFieldOf(o)]| >= 4
  }

  /** The token, with the prefix if it has none. */
  function ConnectionKey(secrets: Secrets, o: Object): string
    requires o.spec.ClientSpec? && TokenGiven(secrets, o)
  {
    var token := secrets[o.spec.tokenSecret.value.name][TokenFieldOf(o)];
    if "sdk-" <= token then token else "sdk-" + token
  }

  /** No rule has a bucket version without a minimal one. */
  predicate VersionsPaired(o: Object)
    requires o.spec.FeatureSpec?
  {
    forall e | e in o.spec.environments :: forall r | r in e.rules :: r.bucketVersion.Some? ==> r.minBucketVersion.Some?
  }
}
