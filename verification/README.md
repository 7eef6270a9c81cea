# A verified model of the GrowthBook controller

The controller keeps Kubernetes resources (users, organizations, features and clients of a `GrowthbookInstance`)
and MongoDB documents in step. One pass lists the resources an instance selects, puts a finalizer on each, upserts
one document per live resource, deletes the documents of deleting ones if pruning is on, and takes the finalizers
off again. A pass can stop at any call to either store and is retried from the start. This project models that pass
together with the four find-merge-write upserts it drives, and proves what holds over whole runs.

## How it is laid out

| file | content |
|---|---|
| `Documents`, `Resources`, `Selectors` | stored documents, custom resources, label selectors and the watch handlers |
| `FeatureMerge`, `FeatureTranslation`, `KeyGenerator`, `PasswordHash`, `FinalizerNames` | the pure cores, with the loops of the original proved against them |
| `Upserts`, `Database` | what each upsert stores; the document store as a class whose methods find, merge, compare and write |
| `Worlds`, `Pass` | both stores and everybody else's acts; the pass as a function of a schedule |
| `Reconciler` | the cluster and the reconciler as classes, each method proved equal to its function in `Pass` |
| `NoOrphans`, `NoStrands`, `Isolation` | safety: documents are backed by finalizers, finalizers by the instance, other instances are left alone |
| `Demands`, `Effects`, `Quiet`, `Target`, `Finalizers`, `Conformance`, `Declarations` | what resources ask for, and what a complete pass leaves of every document and every object |
| `Identity`, `Restart`, `Completion`, `Fixpoint`, `Rewrites` | what an insert gives and no pass changes, retries, when a pass completes, repetition |
| `Suspension`, `Faults`, `Deletion` | passes that have nothing to do, calls that fail, objects that are going |
| `Membership`, `Catalog`, `CacheFreshness` | members over runs, the catalog in the status, the payload cache |
| `Scenarios` | runs that reach what the theorems speak of |

A *schedule* is a list of ticks, one for every call to a store. A tick holds what others do just before the call
(create, delete or edit resources, change other finalizers, create or delete the instance, write or remove
documents, cache payloads, change secrets, change the order lists come in), whether the call fails, and what the call draws from clock, random
source and map order. A pass that runs out of ticks has crashed. A call that fails after taking effect is the same
as a failure of the next one, so the worlds a pass can be caught in are exactly its results over all schedules.
A *run* is any sequence of such passes with acts of others in between.

## What is assumed

- One namespace, seen from one instance. Other instances are others; `Isolation` lets them take turns pass by pass.
- `FindOne` fails only when there is no document, since the code reads every error as absence.
- The find and the write of one upsert, with the secret it reads, are one step with respect to others. Acts on
  cluster objects commute with it; a document somebody else writes between find and write is not modelled.
- A patch replaces the finalizer list by the one computed from the listed object. Two parties patching one object
  at the same moment are interleaved patch by patch, and nobody else touches this instance's finalizer.
- `List` returns a consistent snapshot, in an order that may change between any two calls: another order is an act
  of somebody else, so an undisturbed pass is one during which lists also keep their order. The results on what such
  passes leave are stated for them; safety results need no order, and `Rewrites.FurtherPassesWriteNothingExactly`
  says what a new order changes.
- The syntax of label keys and values is not checked, only which operators take values. The finalizer in `Params` stands
  for `FinalizerNames.FinalizerName` of the instance.
- Ids stay distinct within a kind; ids, labels and selectors do not change during a run; nor does the instance's spec.
- Comparing two BSON encodings is comparing the values, nil and empty slices told apart, except that a map with two
  or more entries may be encoded in two orders; a tick says when that happens.
- `scrypt` and `strconv.ParseFloat` are arbitrary functions; floating point numbers are `real`.

## Where the code falls short of the obvious claim

- The catalog files a resource under the name its kind reports, so resources with the same `spec.name` share an entry;
  it has one for each exactly if no two of a kind report the same name (`Catalog.OneEntryEachExactly`).
- A client selected by two listed organizations is rewritten by every pass, and a feature with two or more
  environments or an organization whose members are listed in another order may be; otherwise nothing is
  (`Rewrites.FurtherPassesWriteNothingExactly`, `Scenarios.ContestedClientIsRewritten`).
- A cache clear that fails after the write is not made good, by the retry or by later passes that find nothing to write
  (`CacheFreshness.FaultBeforeClearStrandsPayloads`, `StrandedPayloadsStay`).
- A changed password, a changed choice about experiment names and a changed organization of a feature never reach a
  document that exists (`Declarations.CompletePassHashes`, `Conformance.ClientUpsertConforms`, `FeatureUpsertConforms`).
- After the last pass of an instance a finalizer stays exactly on the carrying objects no listing reaches, such as
  features whose organization went first (`Isolation.OnlyUnreachableStrand`, `Scenarios.OrganizationFirstStrands`).
- Features and clients are listed by their organization's selector alone: the result of `selector.Add` is dropped.
  The watch handlers use the instance's labels, so a feature can be reconciled that enqueues nothing when it changes
  (`Scenarios.ReconciledButNotTriggered`).
- Rules other people wrote are kept over a run exactly if there were none or their environment is in every spec
  (`Upserts.ForeignRulesKeptExactly`).
- Merging rules twice is merging them once exactly if the declared rules carry no ID (`FeatureMerge.MergeIdempotent`).
- A generated key can be as short as one character (`KeyGenerator.KeyBoundsAreTight`).

## Model

| member | source | states |
|---|---|---|
| `NoOrphans.NoOrphanedDocuments` | internal/controllers/instance_controller.go:385-436 | With prune on, in every run with faults at any call and acts of others between any two, every document the controller wrote last is backed by an existing object that carries the instance's finalizer |
| `NoOrphans.ReconcileIsSafe` | internal/controllers/instance_controller.go:232-369 | The same for one pass on any schedule, complete or cut short at any call |
| `NoOrphans.PutIsSafe` | internal/controllers/instance_controller.go:554-570 | The upsert of an object that still exists and carries the finalizer keeps every document backed, its own included |
| `NoOrphans.RetireIsSafe` | internal/controllers/instance_controller.go:571-581 | Deleting the document before the finalizer comes off keeps every document backed, wherever it stops |
| `NoOrphans.MarkAllEvolves` | internal/controllers/instance_controller.go:385-395 | After a completed first loop every listed object that was not being deleted exists and carries the finalizer |
| `NoOrphans.OwnedExactly` | internal/controllers/instance_controller.go:554-570 | The controller owns the documents it wrote last: an upsert adds its own, somebody else's write or removal takes one |
| `NoStrands.NoStrandedFinalizers` | internal/controllers/instance_controller.go:256-291 | In every run in which no organization is deleted on its own an object carries the instance's finalizer only while the instance exists and carries its own |
| `NoStrands.DeletingPassReleasesAll` | internal/controllers/instance_controller.go:313-369 | A pass of a deleting instance makes no object start to carry, and none carries after a successful one |
| `Isolation.OnlyUnreachableStrand` | internal/controllers/instance_controller.go:356-366 | After an undisturbed successful pass of a deleting instance an object carries the finalizer if and only if it did before and no listing of that pass reaches it |
| `Finalizers.FinalizersAfterPass` | internal/controllers/instance_controller.go:502-522 | After a complete undisturbed pass an object is gone if and only if it was listed, deleting and kept by this finalizer alone; one that is there carries if and only if it was listed and is live, or was not listed and carried before |
| `Finalizers.InstanceAfterPass` | internal/controllers/instance_controller.go:255-291 | After it a live instance has its own finalizer on, a deleting one has it off and is gone if it had no other |
| `Finalizers.MarksExactly` | internal/controllers/instance_controller.go:502-513 | On every schedule putting the finalizer on a live listed object succeeds if and only if the call does not fail, the object is still there, and it was not deleted meanwhile without having all these finalizers; it then has those of the listing and this one, and nothing else has changed |
| `Finalizers.ReleasesExactly` | internal/controllers/instance_controller.go:515-522 | Taking it off fails likewise; the object then has the other finalizers of the listing, and is gone if and only if it is being deleted and there are none |
| `Suspension.SuspendedPass` | internal/controllers/instance_controller.go:251-253 | On every schedule a pass of a suspended instance is one read: nothing but what others do before it happens, to no object, no finalizer, no document, no payload, no catalog entry, and at most one call is made |
| `Suspension.SuspendedRun` | internal/controllers/instance_controller.go:251-253 | Any run of a suspended instance is the others' acts alone |
| `Suspension.OrphanedPass` | internal/controllers/instance_controller.go:239-249 | The same for one pass that finds no instance |
| `Faults.FirstFaultEndsThePass` | internal/controllers/instance_controller.go:524-585 | On every schedule, whatever others do, a pass makes no call after one that failed and then reports failure; a pass that reports success made no call that failed |
| `Scenarios.OrganizationFirstStrands` | internal/controllers/instance_controller.go:356-366 | A run of complete passes from an empty cluster, organization and feature created, organization deleted, instance deleted, that ends with the instance gone and the live feature still carrying |
| `Target.CompletePassReachesTarget` | internal/controllers/instance_controller.go:313-369 | After a complete undisturbed pass every object's document is its merge with the translated spec, absent if retired under prune; documents of unlisted objects, of retiring ones without prune and of no object are the very same, and without prune a deleting instance's pass changes none |
| `Target.ReconcileProgress` | internal/controllers/instance_controller.go:313-369 | A pass cut short leaves every document as it was or at a stage of its own merge, and drops only objects whose target was reached |
| `Completion.PassCompletesExactly` | internal/controllers/instance_controller.go:313-369 | An undisturbed pass completes only if everything it lists is fit: selectors convert, features translate, live resources have the secret they ask for; and with enough calls, none of which fails, if and only if |
| `Declarations.CompletePassDeclares` | internal/controllers/instance_controller.go:397-424 | After a complete pass every live listed resource finds its declaration in its document field by field, id, name and secrets read off the resource itself, with the exact exceptions for fields only an insert stores; an inserted document has revision 0, an inserted feature the controller as owner and is not archived; the first selecting organization counts for features, the last for clients; an organization without found members keeps those stored |
| `Declarations.CompletePassHashes` | internal/growthbook/user.go:36-125 | After a complete pass a live listed user's document is as declared, password included, if and only if it was inserted or the stored hash was one of the password |
| `Declarations.FoldedIsLast` | internal/controllers/instance_controller.go:621-642 | Of several organizations that select a client the last listed one determines the document |
| `Declarations.AssignedExactly` | internal/controllers/instance_controller.go:401-419 | The members are exactly the users some binding selects, each in that binding's role |
| `Declarations.AssignedInOrder` | internal/controllers/instance_controller.go:401-419 | Members of earlier bindings come before those of later ones |
| `Conformance.UserUpsertConforms` | internal/growthbook/user.go:85-125 | A user's document has the declared id and email, the name the secret gives or else the declared one, and a hash of the secret's password, if and only if it was inserted or its hash already was one of the password |
| `Conformance.FeatureUpsertConforms` | internal/growthbook/feature.go:241-316 | A feature's document has exactly the declared environments, switches and rules without an ID, and no other environment list; it conforms if and only if it was inserted or already belonged to the organization |
| `Conformance.ClientUpsertConforms` | internal/growthbook/sdkconnection.go:119-129 | A connection is as declared if and only if it was inserted or already had the declared choice about experiment names |
| `Conformance.PreparesExactly` | internal/controllers/instance_controller.go:745-775 | Preparing a document fails if and only if a user's reference, secret or password field is missing, a client's reference, secret or token field is missing or the token has fewer than four characters, or a feature has a bucket version without a minimal one |
| `Conformance.ClientKeyHasPrefix` | internal/controllers/instance_controller.go:634-638 | A token of four characters or more gives a key with the prefix, prepended only where it was missing; a shorter one fails |
| `Restart.RestartConfluence` | internal/controllers/instance_controller.go:313-369 | With nobody else acting and no organization deleting, any number of passes cut short anywhere and then a complete one leave what one complete pass leaves: documents that were there at the start agree but for the date of the last change, new ones but for dates, random keys and salts, and each new user's hash is of its password |
| `Identity.IdentityOverRuns` | internal/growthbook/feature.go:250-315 | Without prune, in every run with faults at any call and acts of others on everything but documents, every document that was there is there with the same creation date, revision, keys, hash, owner and organization |
| `Identity.DocumentsAreOldOrBorn` | internal/growthbook/feature.go:250-253 | With prune or without, over every such run a document that is there at the end has the identity it had at the start, or was born of one call of the run: creation date, owner, not archived, revision 0, keys and salt from what that call drew |
| `Identity.InsertedConnectionsHaveKeys` | internal/growthbook/sdkconnection.go:89-102 | Over every such run a connection that was not there before has two alphanumeric keys of 1 to 43 characters, both made by one call of the run |
| `Identity.InsertIsBorn` | internal/growthbook/sdkconnection.go:85-108 | An upsert without a stored document writes one with creation and update date of the call, revision 0, the base64 letters and digits of the call's two random strings as keys, its salt in the hash, owner growthbook-controller, not archived |
| `Identity.UpdateDates` | internal/growthbook/sdkconnection.go:136-150 | An upsert of a stored document moves the update date if and only if it writes, and to the date of the call |
| `Restart.IdentityOverQuietRuns` | internal/growthbook/sdkconnection.go:110-155 | Over undisturbed passes, complete or not, a document that was there keeps creation date, revision, keys, hash, owner and organization, or belongs to a retiring object under prune and is gone or untouched |
| `Completion.SoundClusterConfluence` | internal/controllers/instance_controller.go:313-369 | On a cluster where everything listed is fit both passes of restart confluence do complete, given calls that do not fail |
| `Effects.ComputedErases` | internal/growthbook/sdkconnection.go:85-155 | What an upsert stores depends on clock, random source and map order only in dates, random keys and the password hash |
| `Effects.FoldedRestart` | internal/controllers/instance_controller.go:356-366 | Going through the organizations again from the start, after any prefix of them, ends where going through once does |
| `Fixpoint.WholePassFixpoint` | internal/growthbook/feature.go:260-305 | With nothing deleting, one organization per client, lists that keep their order and encoding orders that cannot matter, after a complete pass no number of further passes, complete or not, writes anything: documents, dates and cached payloads stay |
| `Fixpoint.SpuriousRewrite` | internal/growthbook/feature.go:296-315 | An unchanged feature is written again exactly if two or more environments are encoded in another order, and then only its date changes |
| `Fixpoint.TwoOwnersNeverSettle` | internal/growthbook/sdkconnection.go:114-138 | Two upserts of one client both write nothing if and only if nothing was to change and the organizations are the same |
| `Rewrites.SecondPassWritesNothingExactly` | internal/growthbook/sdkconnection.go:114-140 | After a complete pass a second one on the unchanged cluster writes nothing if and only if no client is selected by two listed organizations, where encoding orders cannot matter |
| `Rewrites.FurtherPassesWriteNothingExactly` | internal/growthbook/feature.go:296-315 | After a complete pass, with lists in any given order from then on, no further pass writes anything in any encoding order if and only if no client has two owners, no listed feature two environments, and every listed organization's members come in the order they came in |
| `Rewrites.UnwrittenAgrees` | internal/growthbook/sdkconnection.go:136-138 | An upsert that writes nothing leaves the stored document, and shows it has the organization of the call, the members found, or one environment if its encoding was another |
| `Scenarios.ContestedClientIsRewritten` | internal/controllers/instance_controller.go:621-642 | On a cluster whose client two organizations select, two passes complete and the second writes although nothing changed |
| `Scenarios.PassesThereAre` | internal/controllers/instance_controller.go:313-369 | On a cluster with an organization, a feature and a client every calm pass completes, after any undisturbed ones, and none after a complete one writes |
| `Isolation.PassKeepsOtherFinalizers` | internal/controllers/instance_controller.go:502-522 | A pass, complete or cut short, keeps every other finalizer on every object in order and changes nothing else of an object; one that somebody else holds survives |
| `Isolation.SharedObjectsSurvive` | internal/controllers/instance_controller.go:502-522 | Through any sequence of passes of other instances a shared object survives with labels and spec while a finalizer of an instance without a turn is on it |
| `Deletion.DeletionIsForGood` | internal/controllers/instance_controller.go:502-513 | Over every run an object being deleted stays so until it goes, keeps its key and labels, and gains no finalizer |
| `Isolation.OtherInstanceKeepsBacking` | internal/controllers/instance_controller.go:373 | A pass of an instance with another name or namespace keeps a document backed for this one |
| `FinalizerNames.FinalizersAreInjective` | internal/controllers/instance_controller.go:373 | As namespaces hold no dot, equal finalizers mean the same name and namespace |
| `FinalizerNames.FinalizerShape` | internal/controllers/instance_controller.go:373 | The finalizer is the domain, a slash, the instance's name, a dot and its namespace |
| `Catalog.CatalogIsExact` | internal/controllers/instance_controller.go:344-366 | Whatever the catalog was before, after a complete pass it holds exactly the references, kind and reported name, of the live listed resources, each once, in order of first occurrence; a pass cut short leaves a prefix of it, a deleting instance an empty one |
| `Catalog.CataloguedIsMarked` | internal/controllers/instance_controller.go:538-548 | On every schedule, wherever the first loop stops, what it added to the catalog are references of live listed objects that exist and carry the finalizer by then |
| `Catalog.OneEntryEachExactly` | api/v1beta1/growthbookuser_types.go:43-49 | The catalog has one entry for each live listed resource if and only if no two of one kind report the same name, which the spec may override for all kinds but features |
| `Catalog.NamesakesShareEntry` | internal/controllers/instance_controller.go:697-709 | Two users of different resource names and the same spec name share an entry |
| `Catalog.DeduplicatedExactly` | internal/controllers/instance_controller.go:697-709 | Appending what is not yet contained leaves each reference once, none missing or made up, ordered by first occurrence |
| `CacheFreshness.NoStalePayloads` | internal/growthbook/sdkconnection.go:66-156 | In runs without faults, whatever is cached in between, no payload for a connection's environment and organization predates the controller's last write of it |
| `CacheFreshness.FaultBeforeClearStrandsPayloads` | internal/growthbook/sdkconnection.go:136-155 | After a fault between write and clear a retry succeeds and touches nothing, so the cache is fresh if and only if it held no payload for the connection |
| `CacheFreshness.StrandedPayloadsStay` | internal/growthbook/sdkconnection.go:136-155 | If the failed clear followed the last write the cluster needed, no number of further passes removes a payload, so the cache stays fresh or stale as it was |
| `CacheFreshness.LostClearIsNotRetried` | internal/growthbook/sdkconnection.go:136-155 | Repeating an upsert that wrote writes nothing, so clears nothing |
| `DatabaseModel.ClearedExactly` | internal/growthbook/sdkconnection.go:72-80 | A clear removes exactly the payloads of the environment and organization |
| `DatabaseModel.RunsKeepIdsUnique` | internal/growthbook/feature.go:241-316 | From at most one document per id no run of upserts and deletes creates a second one, and the list behaves as a map from ids |
| `DatabaseModel.Inserting` | internal/storage/storage.go:13-19 | Inserting under an absent id adds exactly that document and keeps ids unique |
| `DatabaseModel.Replacing` | internal/storage/storage.go:13-19 | An update changes exactly the document with the id |
| `DatabaseModel.Removing` | internal/storage/storage.go:13-19 | A delete removes exactly the document with the id |
| `DatabaseModel.Database.FindOne` | internal/storage/storage.go:14 | Returns the document with the id, if there is one |
| `DatabaseModel.Database.InsertOne` | internal/storage/storage.go:16 | Appends the document; everything else stays |
| `DatabaseModel.Database.UpdateOne` | internal/storage/storage.go:17 | Replaces the document with the id in place; everything else stays |
| `DatabaseModel.Database.DeleteOne` | internal/storage/storage.go:15 | Removes the document with the id, or nothing |
| `DatabaseModel.Database.DeleteMany` | internal/storage/storage.go:18 | Removes exactly the cached payloads of the environment and organization |
| `DatabaseModel.Database.UpdateUser` | internal/growthbook/user.go:85-125 | Find, merge, compare, write: stores the specified user and reports whether it wrote; no write leaves the store as it is |
| `DatabaseModel.Database.UpdateOrganization` | internal/growthbook/organization.go:43-94 | The same for organizations, members taken over only if any were found |
| `DatabaseModel.Database.UpdateFeature` | internal/growthbook/feature.go:241-316 | The same for features, environments merged in place in any map order, the date touched only on a difference |
| `DatabaseModel.Database.WriteSDKConnection` | internal/growthbook/sdkconnection.go:82-153 | The same for connections, with two fresh keys on insert (what they are and that inserts store them: `Identity.InsertIsBorn`); the result says whether the cache is to be cleared |
| `Upserts.ForeignRulesSurviveRuns` | internal/growthbook/feature.go:276-288 | Through any sequence of upserts with changing specs, while an environment stays in every spec its rules with an ID stay the same in order, followed by exactly the last spec's rules |
| `Upserts.ForeignRulesKeptExactly` | internal/growthbook/feature.go:276-294 | Over any sequence of upserts an environment's rules with an ID are kept if and only if there were none or the environment is in every spec; otherwise none is left |
| `Upserts.MembershipOverRuns` | internal/growthbook/organization.go:52-78 | Over any run the stored members are those of the last call that found any; before one the pre-existing ones, or the empty list on insert |
| `Membership.MembershipOverPasses` | internal/controllers/instance_controller.go:397-424 | Over any run of complete passes with anything in between, the stored members are what the last pass that found any found, unless deleted or rewritten since; before one what was there, or the empty list once inserted |
| `FeatureMerge.MergeRules` | internal/growthbook/feature.go:318-327 | The loop computes the foreign rules in order followed by the spec's |
| `FeatureMerge.MergeKeepsForeign` | internal/growthbook/feature.go:318-327 | A merge keeps exactly the rules with an ID, in order, followed by exactly the spec's rules |
| `FeatureMerge.MergeIdempotent` | internal/growthbook/feature.go:318-327 | Merging the same rules twice is merging them once if and only if they carry no ID |
| `FeatureMerge.MergeEnvironments` | internal/growthbook/feature.go:272-294 | In whatever order the two loops visit their keys, the result is one map over exactly the spec's environments, each merged or taken from the spec |
| `FeatureMerge.MergedFeatureIdempotent` | internal/growthbook/feature.go:265-294 | Merging a translated feature again, or into what its insert stored, changes nothing |
| `FeatureTranslation.FromV1beta1` | internal/growthbook/feature.go:117-230 | The nested loops compute the elementwise translation, or panic exactly on a bucket version without a minimal one |
| `FeatureTranslation.TranslateRules` | internal/growthbook/feature.go:134-216 | The loop over one environment's rules translates them elementwise, or fails exactly if one has a bucket version without a minimal one |
| `FeatureTranslation.TranslateRule` | internal/growthbook/feature.go:135-215 | The inner loops translate a rule elementwise at every level, in order |
| `FeatureTranslation.TranslationRoundTrip` | internal/growthbook/feature.go:182-213 | A rule that translates can be read back if and only if it names no experiment, has no variations, has no minimal bucket version without a bucket version, and each of its numbers is restored by formatting what parsing made of it |
| `FeatureTranslation.LastEnvironmentWins` | internal/growthbook/feature.go:132-227 | The map holds exactly the listed names, each with the last listed environment of that name |
| `FeatureTranslation.StoredSettingsAreSpec` | internal/growthbook/feature.go:182-224 | No translated rule carries an ID, and no rule list is empty but not nil |
| `FeatureTranslation.StoredValuesCarryNoId` | internal/growthbook/feature.go:160-168 | No experiment value of a translated rule carries an ID |
| `KeyGenerator.GeneratedKeyBounds` | internal/growthbook/sdkconnection.go:158-167 | For every 32 bytes the three replacements are one filter, and the key is alphanumeric with 1 to 43 characters |
| `KeyGenerator.DeletionsAreOneFilter` | internal/growthbook/sdkconnection.go:166 | On base64 text the three chained replacements keep exactly the letters and digits |
| `KeyGenerator.Base64Shape` | internal/growthbook/sdkconnection.go:165 | Length and alphabet of base64, and that a padded last group always keeps a character |
| `KeyGenerator.Base64Decodes` | internal/growthbook/sdkconnection.go:165 | Decoding the encoded bytes group by group gives them back |
| `KeyGenerator.KeyBoundsAreTight` | internal/growthbook/sdkconnection.go:158-167 | Both bounds are reached |
| `PasswordHash.SetPassword` | internal/growthbook/user.go:36-74 | Chooses the stored salt if there is one, else a random one, and writes salt, colon and key in hex |
| `PasswordHash.FreshHash` | internal/growthbook/user.go:52-71 | A first hash has 161 characters and splits at its colon into exactly salt and key |
| `PasswordHash.HexDecodes` | internal/growthbook/user.go:59-71 | Reading the lower-case hex digits back in pairs gives the bytes |
| `PasswordHash.HashIsAFixpoint` | internal/growthbook/user.go:45-71 | On a stored hash the same password gives the same hash and any password keeps the salt |
| `Selectors.Matches` | internal/controllers/instance_controller.go:808-827 | The nested loops decide whether every pair of the selector is among the labels, true for a nil selector |
| `Selectors.PairsSelectExactly` | internal/controllers/instance_controller.go:528-533 | A pair selects the objects with that value under that key; an empty selector selects all, a nil one none |
| `Selectors.InSelectsExactly` | internal/controllers/instance_controller.go:528-533 | In with one value selects what the pair selects, with more what any of them does, with none nothing |
| `Selectors.OperatorsSelectExactly` | internal/controllers/instance_controller.go:528-533 | Exists selects what has the key; NotIn and DoesNotExist are the complements of In and Exists |
| `Selectors.SelectorsIntersect` | internal/controllers/instance_controller.go:528-533 | A selector selects what each of its pairs and each of its expressions alone selects |
| `Selectors.ConvertsExactly` | internal/controllers/instance_controller.go:528-531 | A selector converts if and only if In and NotIn have values, Exists and DoesNotExist have none, and there is no other operator |
| `Worlds.ListsExactly` | internal/controllers/instance_controller.go:375-380 | A list holds exactly the objects of its kind that have every pair and that every expression alone selects |
| `Worlds.ListsInOrder` | internal/controllers/instance_controller.go:533 | A list comes in the order of the cluster: what a first part of the order names before what the rest names |
| `Worlds.ListInIsListPair` | internal/controllers/instance_controller.go:528-533 | A list by an expression that asks for one value is the list by the pair |
| `Selectors.RequestsForChangeBySelector` | internal/controllers/instance_controller.go:214-229 | The handler returns the matching instances of the namespace in order |
| `Selectors.RequestsInOrder` | internal/controllers/instance_controller.go:214-229 | Requests come in list order: those of a first part of the instances before those of the rest |
| `Selectors.TriggerCompleteness` | internal/controllers/instance_controller.go:214-229 | Every instance whose pass would list a labelled object is enqueued, and exactly the instances the test accepts are |
| `Scenarios.ReachedIsTriggeredExactly` | internal/controllers/instance_controller.go:214-229 | Of the resources a pass reaches, a change enqueues the instance if and only if it is a user or organization or has the instance's own label pairs |
| `Scenarios.ReconciledButNotTriggered` | internal/controllers/instance_controller.go:454-457 | A pass reaches a feature with its organization's labels alone and stores its document, but a change of it enqueues nothing |
| `Worlds.WithKeepsPrefix` | internal/controllers/instance_controller.go:507 | A finalizer that is put on goes to the end unless it is there; the others stay in place |
| `ReconcilerModel.Cluster.PatchFinalizers` | internal/controllers/instance_controller.go:777-788 | The API server refuses new finalizers on a deleting object and drops one left with none |
| `ReconcilerModel.Cluster.List` | internal/controllers/instance_controller.go:533 | Returns the objects of the kind the selector picks, in order; which these are is said by `Worlds.ListsExactly` |
| `ReconcilerModel.Reconciler.AddFinalizer` | internal/controllers/instance_controller.go:502-513 | Patches the finalizer onto a listed object that was not deleting |
| `ReconcilerModel.Reconciler.RemoveFinalizer` | internal/controllers/instance_controller.go:515-522 | Patches the finalizer off the listed object |
| `ReconcilerModel.Reconciler.UpdateResourceCatalog` | internal/controllers/instance_controller.go:697-709 | Appends the kind and reported name unless the catalog holds them |
| `ReconcilerModel.Reconciler.Gather` | internal/controllers/instance_controller.go:401-419 | Lists the users of each binding in turn and collects members in binding order and then list order |
| `ReconcilerModel.Reconciler.Put` | internal/growthbook/sdkconnection.go:66-156 | An upsert is one write, followed for a connection that changed by the clear of its payloads |
| `ReconcilerModel.Reconciler.UpsertUser` | internal/controllers/instance_controller.go:555-570 | Credentials, name, salted hash and upsert compute the specified document, or fail without a write |
| `ReconcilerModel.Reconciler.UpsertFeature` | internal/controllers/instance_controller.go:475-485 | Translation and upsert compute the specified document, or fail without a write |
| `ReconcilerModel.Reconciler.UpsertConnection` | internal/controllers/instance_controller.go:622-642 | Token, prefix and upsert compute the specified document, or fail without a write |
| `ReconcilerModel.Reconciler.MarkAll` | internal/controllers/instance_controller.go:538-548 | The first loop refines its specification step by step on every schedule |
| `ReconcilerModel.Reconciler.SettleOne` | internal/controllers/instance_controller.go:397-435 | The second loop's body: upsert, or delete under prune and then release, on every schedule |
| `ReconcilerModel.Reconciler.ReconcileKind` | internal/controllers/instance_controller.go:524-585 | List, mark, settle refine their specification on every schedule and return the listing |
| `ReconcilerModel.Reconciler.ReconcileAll` | internal/controllers/instance_controller.go:344-368 | Users, organizations, then per listed organization features and clients |
| `ReconcilerModel.Reconciler.Reconcile` | internal/controllers/instance_controller.go:232-311 | A call of Reconcile, with the instance's finalizer put on first and taken off last, refines the specification on every schedule |
| `ReconcilerModel.Reconciler.Attempt` | internal/controllers/instance_controller.go:232-311 | One attempt on any schedule keeps documents backed under prune and finalizers unstranded while organizations stay, and is nothing but one read while the instance is suspended |

## Left out

- Concurrent merge patches of two clients on one object inside a single patch: the outcome depends on library details.
- A document written by somebody else between the find and the write of one upsert, and the second find of a user between password and upsert.
- Decoding errors, and fields of stored documents the controller does not know; a stored document of a collection always decodes.
- Status conditions, observed generation, events, timeouts, requeueing and the patch of the status: the catalog is modelled as computed, not as stored.
- Connecting to MongoDB and the instance's own credentials; a failure there ends a pass before its first write.
- The watch handler for secrets and its index (`requestsForChangeByField`).
- The API version in a catalog reference: it is the same for all.
- The overwritten `filter` variable of `UpdateSDKConnection`: the write comes before the clear, so the model gives each its own key.
- The four `reconcileUsers`, `reconcileOrganizations`, `reconcileFeatures` and `reconcileClients` methods are one method here, parametrised by the kind; the kinds differ only in the body of an upsert.
- Informer caches: a list is a consistent snapshot of the moment it is taken.
- Floating point rounding in weights, coverage and versions, and strings as bytes: numbers are `real`, strings are sequences of characters.
- `NoStrands.NoStrandedFinalizers`: does not cover runs in which an organization is deleted on its own, because then finalizers do stay behind; `Isolation.OnlyUnreachableStrand` says exactly which.
- `Restart.RestartConfluence`: of documents a run inserts it leaves out dates, random keys and salts, which an insert draws anew.
- `Declarations.CompletePassDeclares`: says nothing of a user's password hash, which `Declarations.CompletePassHashes` does.
- `Membership.MembershipOverPasses`: speaks of complete passes only; one cut short leaves the members as they were or as a complete one would (`Target.ReconcileProgress`).
