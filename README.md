# Contentful Terraform provider: reconcilers, payload mappers and error translation

This project models the resource logic of the Terraform provider for
Contentful. Seven resources are covered: space, environment, locale, API key,
webhook, entry and asset. For each one the model follows the same steps as
the provider:

- build the payload the provider sends from the declared attributes;
- call the Contentful management client (Get, Upsert, Process, Publish,
  Unpublish, Archive, Unarchive, Delete);
- write the returned `Sys` fields and attributes back into Terraform's
  resource data;
- return diagnostics, produced by the error translator `parseError`.

Modules:

- `Errors` (errors.dfy) is the closed error type of the client and
  `parseError`.
  - Errors are an API error response with details, a NotFound error, or any
    other error.
  - `ParseError` builds the diagnostic list with the two loops of the source.
  - It is proved equal to the function `Translate`, and the lemmas about
    `Translate` pin down the list's length, order, severities and summary
    texts.
- `Remote` (store.dfy) stands in for one collection of the management API.
  - It is an in-memory class `Collection<T>` holding a map from id to entity.
  - A fault can be injected per verb, and every call the provider makes is
    logged.
  - Upsert with version 0 creates. Any other version is an optimistic update
    that fails on a version mismatch.
  - Publish, unpublish, archive and unarchive bump the version. The store
    never holds an entity that is both published and archived.
  - The `Consistent` invariant is kept by every call.
- `Attributes` (resource_data.dfy) is Terraform's resource data: a schema, a
  local id and an attribute map.
  - `Set` fails, as the SDK does, for a key the schema lacks or a value of the
    wrong kind.
  - A sequence of writes that stops at the first failure is the function
    `Apply`. Its lemmas say exactly when a write-back succeeds, what lands,
    and what it leaves alone.
- `Lifecycle` (lifecycle.dfy) is the publish/archive step of entries and
  assets.
  - It is a state machine over one snapshot: at most one publish-side call,
    then at most one archive-side call.
  - The entry variant returns the last call's error. The asset variant stops
    at the first failure.
- `Assoc` (assoc.dfy) is the "later key wins" map built by a loop over pairs.
  The entry field map, the asset title and description maps and the webhook
  header map all build their maps this way.
- `Entries`, `Assets`, `Webhooks`, `Locales`, `ApiKeys`, `Environments` and
  `Spaces` hold one resource each.
  - They contain the payload mappers, the `set*Properties` write-back and the
    Create, Read, Update and Delete reconcilers.
  - Each reconciler is a method whose postcondition gives the new store
    contents, the new local attributes and id, and the returned diagnostics,
    on every path including each error path.

The JSON decoder used by `parseContentValue` is a parameter
`decode: string -> Option<Json>`. Every call into the Contentful client goes
through `Collection`.

## Model

| member | source | states |
|---|---|---|
| `Errors.ParseError` | contentful/errors.go:11-34 | nested loops over details and path segments build exactly `Translate(err)` |
| `Errors.WarningsForAt` | contentful/errors.go:17-28 | one warning per detail, in input order, each the formatted warning of that detail |
| `Errors.TranslateNil` | contentful/errors.go:12-13 | a nil error yields no diagnostics |
| `Errors.TranslateOther` | contentful/errors.go:12-13 | an error that is not an API error response yields exactly one Error carrying its message |
| `Errors.TranslateResponse` | contentful/errors.go:16-33 | n details yield n+1 diagnostics: warning i is `detail (path joined by .)`, and the last is an Error with the top-level message |
| `Errors.TranslateHasOneTerminalError` | contentful/errors.go:16-33 | the list is empty iff there is no error, and otherwise its only Error is its last element |
| `Errors.AbsentPathRendersEmpty` | contentful/errors.go:19-26 | a missing or empty path renders as `detail ()` |
| `Errors.TranslateExamples` | contentful/errors_test.go:11-30 | the nil, plain-error and detail-free response cases of the tests |
| `Errors.TranslateExampleWithoutPath` | contentful/errors_test.go:32-49 | a detail without path gives `error detail ()` then the Error |
| `Errors.TranslateExampleWithPath` | contentful/errors_test.go:51-68 | a detail with path ["path","to","error"] gives `error detail (path.to.error)` then the Error |
| `Assoc.FromPairsAppend` | contentful/resource_contentful_webhook.go:168-170 | one more loop iteration stores its pair over what came before |
| `Assoc.FromPairsCons` | contentful/resource_contentful_webhook.go:168-170 | a pair in front is overridden by any later pair with the same key |
| `Assoc.FromPairsKeys` | contentful/resource_contentful_webhook.go:168-170 | the keys of the built map are exactly the keys that occur in the list |
| `Assoc.FromPairsLastWins` | contentful/resource_contentful_webhook.go:168-170 | a key's value is that of its last occurrence in the list |
| `Assoc.FromPairsOfEnumeration` | contentful/resource_contentful_webhook.go:210-221 | a list that enumerates a map once per key rebuilds exactly that map |
| `Remote.Collection.constructor` | contentful/resource_contentful_entry.go:94 | a fresh store holds nothing, logs nothing and is consistent |
| `Remote.Collection.Get` | contentful/resource_contentful_entry.go:117 | the reply is `GetReply` (NotFound unless the id is filed in that space), and the call is logged |
| `Remote.Collection.Upsert` | contentful/resource_contentful_entry.go:94 | the store moves to `UpsertReply` (create at version 0, optimistic update otherwise), stays consistent, and logs the call |
| `Remote.Collection.Transition` | contentful/resource_contentful_entry.go:159 | a lifecycle verb moves the store to `TransitionReply` and logs the call |
| `Remote.Collection.Delete` | contentful/resource_contentful_entry.go:203 | the store moves to `DeleteReply` and logs the call |
| `Remote.Collection.Process` | contentful/resource_contentful_asset.go:216 | the reply is `ProcessReply`; nothing stored changes |
| `Remote.ConsistentAt` | contentful/resource_contentful_entry.go:117 | any stored entity is filed under its own non-empty id, no longer than the id counter, at a positive version, and is never both published and archived |
| `Remote.ConsistentUpdate` | contentful/resource_contentful_entry.go:94 | replacing one well-filed entity keeps the store consistent |
| `Remote.UpsertKeepsConsistent` | contentful/resource_contentful_entry.go:94 | every upsert reply leaves a consistent store, and the id counter never goes back |
| `Remote.TransitionKeepsConsistent` | contentful/resource_contentful_entry.go:159-167 | every lifecycle reply leaves a consistent store |
| `Remote.TransitionedKeepsFlags` | contentful/resource_contentful_entry.go:158-168 | a transition keeps id and space, bumps the version, and never makes an entity both published and archived |
| `Remote.DeleteKeepsConsistent` | contentful/resource_contentful_entry.go:203 | every delete reply leaves a consistent store |
| `Remote.CreateFilesUnderNewId` | contentful/resource_contentful_asset.go:174-178 | a version-0 upsert succeeds iff its id is empty or unused, files the body under that id or a new server id, and sets version 1 |
| `Remote.UpdateIsOptimistic` | contentful/resource_contentful_asset.go:269-273 | an update whose version differs from the stored one fails with a version mismatch and changes nothing; otherwise it bumps the version |
| `Remote.SavedThenReadBack` | contentful/resource_contentful_asset.go:212-233 | what an upsert saved is what a later Get returns, and a Delete then makes Get report NotFound |
| `Attributes.SetError` | contentful/resource_contentful_entry.go:211-225 | `d.Set` fails iff the key is not in the schema or the value has the wrong kind |
| `Attributes.ResourceData.Set` | contentful/resource_contentful_entry.go:212 | one `d.Set` is the one-write `Apply`, and it keeps values well-typed |
| `Attributes.ResourceData.SetId` | contentful/resource_contentful_entry.go:103 | `d.SetId` replaces the local id |
| `Attributes.ResourceData.constructor` | contentful/resource_contentful_entry.go:75 | resource data with the given schema, id and attributes |
| `Attributes.ApplyAccepted` | contentful/resource_contentful_entry.go:211-225 | writes the schema accepts all land, later keys over earlier ones, with no error |
| `Attributes.ApplyStopsAtFirstRejected` | contentful/resource_contentful_entry.go:211-225 | the first rejected write returns its error; only the writes before it land |
| `Attributes.ApplySucceedsIffAccepted` | contentful/resource_contentful_entry.go:211-225 | a write-back reports no error iff the schema accepts every write |
| `Attributes.ApplyConforms` | contentful/resource_contentful_entry.go:211-225 | a write-back never stores a value of the wrong kind |
| `Attributes.ApplyFirst` | contentful/resource_contentful_entry.go:212-214 | the first `d.Set` either fails and stops, or lands and the rest follow |
| `Attributes.ApplyTouchesOnlyWritten` | contentful/resource_contentful_entry.go:211-225 | an attribute no write names is left exactly as it was |
| `Attributes.ApplyLands` | contentful/resource_contentful_entry.go:211-225 | after a successful write-back with distinct keys, each written value is stored |
| `Attributes.ApplyStoredChangesNothing` | contentful/resource_contentful_locale.go:166-198 | writing back values already held is a successful no-op |
| `Lifecycle.PublishStep` | contentful/resource_contentful_entry.go:158-162 | a publish-side call happens iff the target differs from the snapshot, and it is Publish when publishing, Unpublish otherwise |
| `Lifecycle.ArchiveStep` | contentful/resource_contentful_entry.go:164-168 | an archive-side call happens iff the target differs from the snapshot, and it is Archive when archiving, Unarchive otherwise |
| `Lifecycle.ArchiveFlagSurvivesPublishStep` | contentful/resource_contentful_entry.go:158-164 | the publish step leaves the archive flag and id of the snapshot as they were |
| `Lifecycle.EntryCallsFromSnapshot` | contentful/resource_contentful_entry.go:156-168 | both calls are decided from the one snapshot: at most one of Publish/Unpublish, then at most one of Archive/Unarchive, all on the snapshot's id |
| `Lifecycle.AssetCallsFromSnapshot` | contentful/resource_contentful_asset.go:333-353 | the same for assets, except that a failed first call means no second call |
| `Lifecycle.InTargetMakesNoCalls` | contentful/resource_contentful_entry.go:158-168 | when the targets already match, neither pass makes a call or changes anything |
| `Lifecycle.EntryArchiveMasksPublishError` | contentful/resource_contentful_entry.go:158-170 | the entry pass returns the archive call's error whenever it ran, so a successful archive masks a failed publish |
| `Lifecycle.AssetStopsAtFirstFailure` | contentful/resource_contentful_asset.go:335-343 | a failed publish-side call ends the asset pass with its error, before any archive-side call |
| `Lifecycle.StepSucceeds` | contentful/resource_contentful_asset.go:335-353 | without faults, any step except publishing an archived entity succeeds and applies its transition in the store |
| `Lifecycle.PassesReachTarget` | contentful/resource_contentful_entry.go:156-170 | without faults and from a reachable snapshot, both passes agree, reach both targets, and bump the version once per call |
| `Lifecycle.TransitionedFlags` | contentful/resource_contentful_entry.go:159-167 | the flags each lifecycle verb leaves, and a version bump |
| `Lifecycle.SecondPassIsQuiet` | contentful/resource_contentful_entry.go:156-170 | a second entry pass after a successful one makes no call |
| `Lifecycle.BothTargetsEndArchived` | contentful/resource_contentful_entry.go:156-170 | without faults and from a snapshot that is not archived, asking for both flags publishes if needed and then archives in one pass; both passes agree, report nothing, and leave the entity archived and unpublished; a draft sees Publish then Archive |
| `Lifecycle.BothTargetsRepeatFails` | contentful/resource_contentful_entry.go:156-170 | a second pass with both flags after that asks to publish the archived entity, which the store refuses, with no archive call and no change; both passes report that refusal |
| `Lifecycle.EntryMasksPublishOfArchived` | contentful/resource_contentful_entry.go:158-170 | publishing and unarchiving an archived entry: the publish fails, the unarchive succeeds and the pass reports no error |
| `Lifecycle.AssetReportsPublishOfArchived` | contentful/resource_contentful_asset.go:335-338 | in the same case the asset pass reports the publish error and makes no unarchive call |
| `Lifecycle.Perform` | contentful/resource_contentful_entry.go:159 | one lifecycle call, as the step function says, logged |
| `Lifecycle.RunStep` | contentful/resource_contentful_entry.go:158-162 | an optional lifecycle call, as the step function says, logged |
| `Lifecycle.RunEntryPass` | contentful/resource_contentful_entry.go:156-170 | runs exactly `EntryPass`: its store, error, calls and final entity |
| `Lifecycle.RunAssetPass` | contentful/resource_contentful_asset.go:333-353 | runs exactly `AssetPass`, returning at the first failure |
| `Entries.ParseContentValue` | contentful/resource_contentful_entry.go:227-235 | the decoded value when the text decodes, the text unchanged otherwise; never an error |
| `Entries.BuildFields` | contentful/resource_contentful_entry.go:78-84 | the loop builds exactly the field map `FieldsOf` |
| `Entries.FieldsOfKeys` | contentful/resource_contentful_entry.go:80-84 | the field map has exactly the ids of the triples as keys |
| `Entries.FieldsOfLastWins` | contentful/resource_contentful_entry.go:82-83 | each id maps to a one-key locale map, that of its last triple: earlier locales are dropped |
| `Entries.CreateKeepsEntryId` | contentful/resource_contentful_entry.go:86-94 | Create saves the entry under the caller's entry_id at version 1, with the declared locale and fields |
| `Entries.UpdateKeepsFetchedSys` | contentful/resource_contentful_entry.go:117-133 | Update replaces locale and fields, and keeps the fetched Sys except its version, which goes up by one |
| `Entries.SetEntryProperties` | contentful/resource_contentful_entry.go:211-225 | writes space_id, version, contenttype_id in order, stopping at the first failure |
| `Entries.EntryWritesKeys` | contentful/resource_contentful_entry.go:211-225 | the write-back names exactly space_id, version and contenttype_id, once each |
| `Entries.EntryPropertiesLand` | contentful/resource_contentful_entry.go:211-225 | under the entry schema the write-back succeeds and stores those three values |
| `Entries.AfterEntryProperties` | contentful/resource_contentful_entry.go:99-105 | after the write-back, the lifecycle pass reads the saved space and the unchanged targets |
| `Entries.SetEntryState` | contentful/resource_contentful_entry.go:151-171 | one Get of the snapshot, then exactly the entry pass from it |
| `Entries.CreateEntry` | contentful/resource_contentful_entry.go:75-110 | upsert failure reported with nothing changed; otherwise the write-back, then the local id and the entry pass; the calls made are the Upsert, then, after a successful write-back, the snapshot Get and the pass's lifecycle calls |
| `Entries.ReadEntry` | contentful/resource_contentful_entry.go:173-191 | NotFound clears the id with no diagnostics; otherwise the write-back from the fetched entry; the only call made is one Get |
| `Entries.UpdateEntry` | contentful/resource_contentful_entry.go:112-149 | Get failure reported; then the fetched entry with new locale and fields is upserted, the local id set, written back and passed; the calls made are the Get, the Upsert with the fetched id and version, then, after a successful write-back, the snapshot Get and the pass's lifecycle calls |
| `Entries.DeleteEntry` | contentful/resource_contentful_entry.go:193-209 | a Get failure, NotFound included, is reported and no Delete is made; otherwise the Delete's error is reported |
| `Assets.BuildLocalized` | contentful/resource_contentful_asset.go:152-164 | each loop builds exactly the localized map `LocalizedOf` |
| `Assets.LocalizedKeys` | contentful/resource_contentful_asset.go:152-164 | one entry per distinct locale |
| `Assets.LocalizedLastWins` | contentful/resource_contentful_asset.go:154-157 | a later block with the same locale overwrites the earlier one |
| `Assets.FileOf` | contentful/resource_contentful_asset.go:183-210 | file name and content type are copied; URL, UploadURL and UploadFrom are set iff their input is non-empty, and equal it; no details |
| `Assets.DescribeFile` | contentful/resource_contentful_asset.go:183-210 | the in-place updates build exactly `FileOf` |
| `Assets.AssetPayload` | contentful/resource_contentful_asset.go:150-210 | no payload iff the file list is empty; otherwise asset_id, the given version, locale, both maps, and a file map with the single key `locale` |
| `Assets.BuildPayload` | contentful/resource_contentful_asset.go:150-210 | the loops and in-place updates build exactly `AssetPayload` |
| `Assets.SetAssetProperties` | contentful/resource_contentful_asset.go:397-407 | writes space_id then version, stopping at the first failure |
| `Assets.AssetPropertiesLand` | contentful/resource_contentful_asset.go:397-407 | under the asset schema both values land with no error |
| `Assets.AfterAssetProperties` | contentful/resource_contentful_asset.go:220-228 | after the write-back, the lifecycle pass reads the saved space and the unchanged targets |
| `Assets.SetAssetState` | contentful/resource_contentful_asset.go:328-357 | one Get of the snapshot, the asset pass from it; on failure nothing more, on success the write-back from the pass's final entity |
| `Assets.SaveAsset` | contentful/resource_contentful_asset.go:212-232 | Upsert, then Process; either failure stops it, before the local id is set; then the id, the write-back and the state pass; the calls made are Upsert, Process, then, after a successful write-back, the snapshot Get and the pass's lifecycle calls |
| `Assets.CreateAsset` | contentful/resource_contentful_asset.go:147-233 | an empty file list gives "file block not defined in asset" before any client call; otherwise the version-0 payload is saved; the only calls are those of SaveAsset, none when the file list is empty |
| `Assets.UpdateAsset` | contentful/resource_contentful_asset.go:235-326 | Get failure reported; the fetched asset is discarded and the payload carries the locally stored version; the calls made are the Get, then the calls of SaveAsset |
| `Assets.StaleLocalVersionIsRejected` | contentful/resource_contentful_asset.go:269-273 | a stale local version makes the update fail with a version mismatch and leaves the store unchanged |
| `Assets.ReadAsset` | contentful/resource_contentful_asset.go:359-377 | NotFound clears the id with no diagnostics; otherwise the write-back from the fetched asset; the only call made is one Get |
| `Assets.DeleteAsset` | contentful/resource_contentful_asset.go:379-395 | Get and Delete failures are both reported, NotFound included |
| `Webhooks.TransformHeaders` | contentful/resource_contentful_webhook.go:210-221 | one header per map key, keys distinct, each with the map's value, in some order |
| `Webhooks.HeadersRoundTrip` | contentful/resource_contentful_webhook.go:167-170 | converting the transformed headers back reproduces the original map |
| `Webhooks.HeadersLastWins` | contentful/resource_contentful_webhook.go:168-170 | a later duplicate key overwrites an earlier one |
| `Webhooks.CollectHeaders` | contentful/resource_contentful_webhook.go:167-170 | the loop builds exactly `HeadersMap` |
| `Webhooks.TransformTopics` | contentful/resource_contentful_webhook.go:223-231 | the topics keep their length and order |
| `Webhooks.SetWebhookProperties` | contentful/resource_contentful_webhook.go:166-208 | writes headers, space_id, version, name, url, username, topics in order, stopping at the first failure |
| `Webhooks.WebhookWritesKeys` | contentful/resource_contentful_webhook.go:166-208 | those seven keys exactly, once each |
| `Webhooks.PasswordNeverWritten` | contentful/resource_contentful_webhook.go:197-206 | the password attribute is never written back |
| `Webhooks.WebhookPropertiesLand` | contentful/resource_contentful_webhook.go:166-208 | under the webhook schema the write-back succeeds and stores the rebuilt headers and the other values |
| `Webhooks.BuildBody` | contentful/resource_contentful_webhook.go:68-75 | the body carries name, url, topics, the headers map, username and password from local state |
| `Webhooks.SaveWebhook` | contentful/resource_contentful_webhook.go:77-89 | upsert failure reported; otherwise the write-back, and the local id only after it succeeded; the only call made is one Upsert |
| `Webhooks.CreateWebhook` | contentful/resource_contentful_webhook.go:64-90 | an unsaved payload carrying the six attributes is saved; the only call made is one Upsert of the unsaved payload |
| `Webhooks.UpdateWebhook` | contentful/resource_contentful_webhook.go:92-122 | Get failure reported; otherwise the fetched Sys with all six attributes overwritten is saved; the calls made are one Get, then, if it succeeded, one Upsert carrying the fetched id and version |
| `Webhooks.ReadWebhook` | contentful/resource_contentful_webhook.go:124-146 | NotFound clears the id with no diagnostics; another error is reported before anything is written; the only call made is one Get |
| `Webhooks.DeleteWebhook` | contentful/resource_contentful_webhook.go:148-164 | a Get failure is reported; a NotFound or no error from Delete yields no diagnostics |
| `Locales.SetLocaleProperties` | contentful/resource_contentful_locale.go:166-198 | writes the six attributes in order, stopping at the first failure |
| `Locales.LocaleWritesKeys` | contentful/resource_contentful_locale.go:166-198 | the write-back names exactly the six attributes |
| `Locales.LocaleNeverWritesVersion` | contentful/resource_contentful_locale.go:166-198 | version and space_id are never written back |
| `Locales.LocaleRoundTrip` | contentful/resource_contentful_locale.go:65-84 | a locale built from local state and saved unchanged writes back exactly what local state held |
| `Locales.CreateLocale` | contentful/resource_contentful_locale.go:61-87 | all six attributes are sent; after the write-back the local id becomes the saved Sys.ID; the only call made is one Upsert of the unsaved payload |
| `Locales.ReadLocale` | contentful/resource_contentful_locale.go:89-111 | NotFound clears the id with no diagnostics; another error is reported before anything is written; the only call made is one Get |
| `Locales.Reconfigure` | contentful/resource_contentful_locale.go:123-128 | the fetched locale with all six attributes taken from local state and its Sys untouched |
| `Locales.UpdateLocale` | contentful/resource_contentful_locale.go:113-141 | the six attributes overwrite the fetched locale, whose Sys is kept; the local id is left alone; the calls made are one Get, then, if it succeeded, one Upsert carrying the fetched id and version |
| `Locales.DeleteLocale` | contentful/resource_contentful_locale.go:143-164 | a Get failure is reported; a NotFound from Delete is success |
| `ApiKeys.SetApiKeyProperties` | contentful/resource_contentful_apikey.go:135-157 | writes space_id, version, name, description, access_token in order, stopping at the first failure |
| `ApiKeys.ApiKeyWriteBackStopsAtName` | contentful/resource_contentful_apikey.go:135-157 | a rejected name ends the write-back with that error after space_id and version landed |
| `ApiKeys.ApiKeyPropertiesLand` | contentful/resource_contentful_apikey.go:135-157 | under the API key schema all five values land with no error |
| `ApiKeys.UpdateKeepsAccessToken` | contentful/resource_contentful_apikey.go:75-83 | an update keeps the fetched access token, sets name and description, and keeps the fetched Sys except its version, which goes up by one |
| `ApiKeys.SaveApiKey` | contentful/resource_contentful_apikey.go:83-94 | upsert failure reported; otherwise the write-back, and the local id only after it succeeded; the only call made is one Upsert |
| `ApiKeys.CreateApiKey` | contentful/resource_contentful_apikey.go:48-68 | a new key with name and description; the local id becomes the server's Sys.ID; the only call made is one Upsert of the unsaved payload |
| `ApiKeys.UpdateApiKey` | contentful/resource_contentful_apikey.go:70-95 | Get failure reported; otherwise name and description overwrite the fetched key; the calls made are one Get, then, if it succeeded, one Upsert carrying the fetched id and version |
| `ApiKeys.ReadApiKey` | contentful/resource_contentful_apikey.go:97-115 | NotFound clears the id with no diagnostics; otherwise the write-back from the fetched key; the only call made is one Get |
| `ApiKeys.DeleteApiKey` | contentful/resource_contentful_apikey.go:117-133 | Get and Delete failures are both reported, NotFound included |
| `Environments.SetEnvironmentProperties` | contentful/resource_contentful_environment.go:124-138 | writes space_id, version, name in order, stopping at the first failure |
| `Environments.EnvironmentWritesOnlyThree` | contentful/resource_contentful_environment.go:124-138 | any attribute other than those three is left as it was |
| `Environments.EnvironmentPropertiesLand` | contentful/resource_contentful_environment.go:124-138 | under the environment schema all three values land with no error |
| `Environments.CreateEnvironment` | contentful/resource_contentful_environment.go:39-58 | a new environment with its name; after the write-back the local id becomes the name; the only call made is one Upsert of the unsaved payload |
| `Environments.CreatedIdIsName` | contentful/resource_contentful_environment.go:55 | the created environment carries the configured name while the store files it under a new server id |
| `Environments.UpdateEnvironment` | contentful/resource_contentful_environment.go:60-84 | Get failure reported; only the name changes on the fetched environment; the local id becomes its Sys.ID; the calls made are one Get, then, if it succeeded, one Upsert carrying the fetched id and version |
| `Environments.ReadEnvironment` | contentful/resource_contentful_environment.go:86-104 | NotFound clears the id with no diagnostics; otherwise the write-back from the fetched environment; the only call made is one Get |
| `Environments.DeleteEnvironment` | contentful/resource_contentful_environment.go:106-122 | Get and Delete failures are both reported, NotFound included |
| `Spaces.UpdateSpaceProperties` | contentful/resource_contentful_space.go:121-133 | writes version then name, stopping at the first failure |
| `Spaces.DefaultLocaleNeverWritten` | contentful/resource_contentful_space.go:121-133 | default_locale is never written back |
| `Spaces.SpacePropertiesLand` | contentful/resource_contentful_space.go:121-133 | under the space schema both values land with no error |
| `Spaces.UpdateKeepsDefaultLocale` | contentful/resource_contentful_space.go:84-91 | an update keeps the fetched default locale, sets the name, and keeps the fetched Sys except its version, which goes up by one |
| `Spaces.CreateSpace` | contentful/resource_contentful_space.go:43-64 | name and default locale are sent; after the write-back the local id becomes the server's Sys.ID; the only call made is one Upsert of the unsaved payload |
| `Spaces.ReadSpace` | contentful/resource_contentful_space.go:66-78 | NotFound clears the id; otherwise the translated read error, empty on success, and nothing is written; the only call made is one Get |
| `Spaces.UpdateSpace` | contentful/resource_contentful_space.go:80-102 | Get failure reported; only the name overwrites the fetched space; the local id is left alone; the calls made are one Get, then, if it succeeded, one Upsert carrying the fetched id and version |
| `Spaces.DeleteSpace` | contentful/resource_contentful_space.go:104-119 | a Get failure is reported; a NotFound from Delete yields no diagnostics, other Delete errors are translated |

## Left out

- contentful/provider.go: provider configuration and client construction are not part of this model.
- The schema declarations in the `resourceContentful*()` functions are data. Each resource's schema is a constant map from attribute name to value kind.
- HTTP transport, authentication and the real client library are not modelled.
  - `Collection` is an abstraction of the server with chosen, coherent semantics: ids, versions, optimistic updates, lifecycle flags and per-verb faults.
  - The Contentful service may behave differently in details the provider does not rely on.
  - Space calls are modelled with an empty space scope.
- The `time.Sleep` before the asset state pass is timing only and is not modelled.
- JSON decoding is the parameter `decode`. The `%v` rendering of non-string path segments is left out: path segments arrive as strings.
- Go's `errors.As` distinction between pointer and value error types is not modelled. The error type is closed, and NotFound is recognised by its constructor.
- Entries.ReadEntry, Assets.ReadAsset, ApiKeys.ReadApiKey and Environments.ReadEnvironment require the Get to succeed or report NotFound. Their sources dereference a nil entity on any other error.
- Entries.SetEntryState and Assets.SetAssetState require the snapshot Get to succeed, because the source ignores its error and dereferences the result.
  - Entries.CreateEntry, Assets.SaveAsset and Assets.CreateAsset therefore require that Get is not faulted.
  - Assets.CreateAsset and Assets.UpdateAsset require a field block (for Update, once the first Get succeeds). Both index element 0 of `fields` unguarded (contentful/resource_contentful_asset.go:150 in Create); the schema marks `fields` as required (contentful/resource_contentful_asset.go:40), which is why the requirement is met.
- A nil `Details` list in an API error response is modelled as an empty list.
- The asset `file_details` key is not in the asset schema, so the `*contentful.FileDetails` type assertion never succeeds and no details are forwarded. `FileOf` states this.
- Webhooks.TransformHeaders: Go's map iteration order is unspecified.
  - The method picks keys nondeterministically.
  - Its contract states the header list as an enumeration of the map, not a fixed order.
  - Webhooks.CreateWebhook and Webhooks.UpdateWebhook therefore describe the payload they send through a ghost result.
- Environments.CreateEnvironment: the client's choice of id for a new environment is outside this model.
  - The store assigns a fresh id.
  - The model states that the local id is the configured name, as the source sets it, without relating it to the stored id.
- API key access tokens are generated by the server. The store keeps the body as sent, so a created key's token is the empty string the payload carries.
- The version check that the real client performs on Delete is not modelled: Delete removes by id.
- The error text the Terraform SDK returns from a failing `d.Set` is modelled as `Invalid address to set: <key>`.
- `context.Context` parameters are not modelled.
