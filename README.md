# payload-dub: a Dafny model of the reconciliation hooks

payload-dub is a Payload CMS plugin that mirrors content documents as short
links on the Dub link service. This project models the plugin's
reconciliation engine and proves properties of it:

- the **link reconciler** (`createDubHook`), an after-change hook on every
  enabled collection. It finds or creates the collection's Dub folder, looks
  up the document's `dubLinks` mapping record, and short-circuits when the
  record is already up to date. Otherwise it creates the record lazily,
  derives the external id, upserts the link, and writes the external id and
  short link back to the record.
- the **mapping-record hooks** (`manageLinks`). Before a `dubLinks` record
  is saved, the remote link is updated, or created when it is missing and a
  URL is given. After the record is deleted, the remote link is deleted.
- the **name-matching tag hooks** (`createDubTagHooks`), which are attached
  to the `dubTags` collection. After a change, the remote tag is found by
  the previous or the current name, then created or updated. After a
  delete, the remote tag is deleted unless the links listing is an array in
  which some link's `tagIds` is an array holding the tag's id.
- the **stored-id tag hooks** (`manageTags`). Before a save, the tag is
  updated by the stored `tagID`, or created when there is none, and the
  record takes the id. After a delete, the tag with that id is deleted.
- the **plugin transform** (`payloadDub`). It appends the `dubLinks` and
  `dubTags` collections and attaches the link reconciler to each enabled
  collection.

How the model is built:

- **World.** Each hook works against a `World` (module `Effects`). A world
  holds:
  - the remote state: folders, tags, links, and an id counter;
  - the local records: mapping records and tag records;
  - the log of Dub calls, the log of repository calls, and the logger's
    entries;
  - two fault plans, sets of call numbers.
- **Faults.** Call number `k` of a service throws exactly when `k` is in
  that service's fault plan. A call that throws changes nothing except the
  call log. This stands in for every network or database error the
  hooks' `try`/`catch` blocks absorb.
- **Runs and hooks.** Every hook run is a function from the world before
  it to an `Outcome`: the stage the run reached and the world after it.
  Every hook is also an imperative `method` over three classes: the Dub
  client (`DubService.DubClient`), the Payload repository
  (`PayloadStore.Repository`) and the logger (`PayloadStore.Logger`). Each
  hook method is proved to end in exactly the state its run function
  describes. The properties are lemmas about the run functions.
- **Service classes.** The three classes model the external services'
  assumed behaviour. They are not part of the plugin's source, so they
  have no rows below. Neither do the functions that only describe one
  service update (`DubService.WithFolder`, `WithTag`, `Retagged`,
  `Patched`, `PatchedLinks`, `PayloadStore.WrittenBackFields`): the hook
  lemmas state what the hooks make of them.

The async/await sequencing is modelled as the order of calls in the logs.
The Dub token and the `Dub` constructor are parameters: hooks receive the
client. So are the `req.payload` handle and the logged error objects: only
the log level and message are kept.

## Model

| member | source | states |
|---|---|---|
| Common.FindFirst | src/hooks/createLink.ts:39 | `Array.prototype.find` answers nothing exactly when no element satisfies the callback; otherwise it answers the element at the first index where the callback holds |
| Common.FindAt | src/hooks/createTag.ts:30 | the element at the first index satisfying the callback is the one `find` answers |
| Common.TrimIsEmptyIffBlank | src/hooks/createLink.ts:123 | `s.trim() === ''` holds exactly when every character of `s` is ECMAScript white space or a line terminator |
| DubTypes.ColorValue | src/types.ts:208-216 | every `DubColors` value is a non-empty lower-case ASCII word |
| DubTypes.ParseColor | src/types.ts:208-216 | a string parses to the colour whose value it is, and to nothing exactly when no colour has that value |
| DubTypes.AllColorsEnumerates | src/types.ts:208-216 | `Object.values(DubColors)` lists each of the seven colours once, and distinct colours have distinct values |
| DubService.WithoutTag | src/hooks/createTag.ts:69 | after `tags.delete(id)` exactly the tags with other ids remain |
| DubService.WithoutLink | src/hooks/manageLinks.ts:80 | after `links.delete(externalId)` exactly the links with other external ids remain |
| DubService.UpsertMirrorsPayload | src/hooks/createLink.ts:117 | after `links.upsert` the link stored under the external id is the answer; the answer carries the payload's external id, URL, tag ids (as an array), folder, domain and tenant; an existing link keeps its short link; no other link, folder or tag is lost |
| DubService.UpsertIdempotent | src/hooks/createLink.ts:117 | upserting the same payload again changes nothing and gets the same answer |
| PayloadStore.RecordForIs | src/hooks/createLink.ts:57-68 | the mapping-record lookup answers the first record whose `source.value` is the document id |
| LinkSync.RecordSharedAcrossCollections | src/hooks/createLink.ts:57-68 | the lookup matches the document id alone, so a document whose id is the source of another collection's record works on that record and creates none of its own |
| PayloadStore.RecordForAppended | src/hooks/createLink.ts:80-91 | a record created for a document that had none is the one the next lookup finds |
| PayloadStore.RecordForWrittenBack | src/hooks/createLink.ts:126-135 | after a write-back to the record found for a document, the lookup finds that record holding the values written |
| PayloadStore.TagRecordsIn | src/hooks/manageLinks.ts:30-41 | the `dubTags` query answers at most `limit` records, each stored and requested; when it answers fewer, every requested stored record is among them |
| LinkSync.NormalizeTenantShape | src/hooks/createLink.ts:45-55 | a tenant is sent exactly when a truthy tenant id is configured; it starts with `user_` and ends with the configured id; an id that already starts with `user_` is sent unchanged |
| LinkSync.NormalizeTenantIdempotent | src/hooks/createLink.ts:47-52 | normalising a tenant id twice is normalising it once |
| LinkSync.ExternalIdPrecedence | src/hooks/createLink.ts:98-104 | the stored external id wins, even an empty one, because `??` only skips null; otherwise `ext_<slug>_<record id>` when the record id is truthy; otherwise `ext_<slug>_<document id>` |
| LinkSync.ExternalIdStable | src/hooks/createLink.ts:101-104 | once an external id is stored, every later derivation gives it back, whatever the slug and ids are then |
| LinkSync.DerivedExternalIdRoundTrip | src/hooks/createLink.ts:98-99 | a derived id starts with `ext_<slug>_`, and the rest of it is the id it was derived from |
| LinkSync.WithoutTrailingSlash | src/hooks/createLink.ts:106 | `replace(/\/$/, '')` drops exactly one trailing slash, if there is one |
| LinkSync.DestinationUrlShape | src/hooks/createLink.ts:106 | the destination URL is the site URL, less at most one trailing slash, followed by `/<collection slug>/<document slug>` |
| LinkSync.DestinationUrlExample | src/hooks/createLink.ts:106 | site `https://x.io`, with or without a trailing slash, collection `blog` and document `hello` give `https://x.io/blog/hello` |
| LinkSync.ShortCircuitIsOrderSensitive | src/hooks/createLink.ts:71-76 | the short-circuit compares the two JSON texts, so reordering two distinct tags of a document that was up to date makes it no longer up to date |
| LinkSync.IdUpdateOnlyWhenMissing | src/hooks/createLink.ts:119-120 | because a stored id always wins, the external id needs writing exactly when the record has no truthy external id |
| LinkSync.LinkUpdateCases | src/hooks/createLink.ts:122-123 | the short link needs writing exactly when the stored one is missing, blank, or not the one the upsert answered |
| LinkSync.FolderStepEnsuresFolder | src/hooks/createLink.ts:38-43 | after the folder step, the first folder named after the collection has the resolved id; a folder is created only when none had the name, and only the folders change |
| LinkSync.FolderRunResolves | src/hooks/createLink.ts:38-43 | the folder step succeeds exactly when its calls do; it then yields the resolved folder id and makes the list call, plus a create call only when needed; when it fails, the service is unchanged |
| LinkSync.UpsertRunFacts | src/hooks/createLink.ts:108-136 | one upsert of the desired link is sent, and it fails exactly when its call throws; on success the service holds the upserted link; the record is written, with the hook-skipping flag, exactly when the external id or the short link needs it; a failed write-back leaves the records unchanged |
| LinkSync.UpsertRunSynced | src/hooks/createLink.ts:117-136 | an upsert step that succeeds leaves the document's record holding the external id sent and the short link answered, whether or not it had to write them |
| LinkSync.UpsertRunStages | src/hooks/createLink.ts:117-139 | the upsert step ends in a failed upsert, a failed write-back or success, and in nothing else |
| LinkSync.ReconcileRunStops | src/hooks/createLink.ts:57-91 | the run stops exactly when the lookup throws, the record short-circuits, or creating a missing record throws; each of these touches only the repository's call log |
| LinkSync.ReconcileRunContinues | src/hooks/createLink.ts:78-104 | past the lookup and the record step, the rest of the run is the upsert step on the record found or lazily created, and that record is now the one the lookup finds |
| LinkSync.SyncGuards | src/hooks/createLink.ts:32-36 | the run is skipped exactly when `skipDubHook` is set; it does nothing exactly when the operation is not a published create or update; both leave the world unchanged |
| LinkSync.UpsertRunLogs | src/hooks/createLink.ts:117-139 | the upsert step only appends calls, and it logs the error exactly once exactly when a call throws |
| LinkSync.ReconcileRunLogs | src/hooks/createLink.ts:57-139 | from the lookup on, the run only appends calls and logs the error exactly once exactly when a call throws |
| LinkSync.SyncRunLogs | src/hooks/createLink.ts:32-142 | a whole run catches every error: it logs `Error creating/updating Dub link` once exactly when a call throws, logs nothing otherwise, and only appends calls |
| LinkSync.UpToDateTouchesNoLink | src/hooks/createLink.ts:68-76 | the run short-circuits exactly when the folder step and the lookup succeed and the record is up to date; then no record changes, and only the folder step has touched the service |
| LinkSync.RepoCallsShapeAllows | src/hooks/createLink.ts:57-135 | each shape of repository calls a run can add holds only the allowed calls, each at its allowed position |
| LinkSync.UpsertRunRepoCalls | src/hooks/createLink.ts:125-136 | the upsert step adds no repository call, or exactly one: a flagged write-back of the derived external id to the working record |
| LinkSync.ReconcileRunRepoCalls | src/hooks/createLink.ts:57-136 | from the lookup on, the repository calls a run adds have one of the allowed shapes |
| LinkSync.RunRepoCalls | src/hooks/createLink.ts:32-142 | a run makes at most one lookup, first; at most one record creation, second, and only for a document without a record; at most one write-back, to the record found or created, flagged so that it does not re-trigger the hook and never changing a stored external id; it makes no tag-record query |
| LinkSync.SyncedRunResult | src/hooks/createLink.ts:36-136 | a successful run leaves the service as the folder step and the upsert of the desired link say, and leaves the document's record holding the external id sent and the short link answered |
| LinkSync.SyncedRecordMatchesLink | src/hooks/createLink.ts:36-136 | after a successful run, the record names a link the service keeps under its external id, with the same short link; that link points at the document's URL, carries its tag ids as an array and sits in the collection's folder |
| LinkSync.SecondRunChangesNothing | src/hooks/createLink.ts:36-136 | running the hook again on the same document right after a successful run changes neither the service nor the records, provided no call throws and the record's external id is non-empty and its short link non-blank; the second run short-circuits or finds nothing to write |
| LinkSync.ResolveFolder | src/hooks/createLink.ts:38-43 | the folder step through the client ends as the folder-step function says |
| LinkSync.UpsertAndWriteBack | src/hooks/createLink.ts:108-139 | the upsert and write-back through the client and repository end as the upsert-step function says |
| LinkSync.Reconcile | src/hooks/createLink.ts:57-139 | the lookup, record creation and upsert through the client and repository end as the reconcile function says |
| LinkSync.AfterChange | src/hooks/createLink.ts:26-143 | the hook returns the document it was given; the service, the records, the call logs and the logger end exactly as the whole-run function says |
| LinkRecords.RefIdsContents | src/hooks/manageLinks.ts:26-28 | mapping `dubTags` succeeds exactly when no entry is null/undefined; it then yields at most one id per entry, and exactly the truthy ids the entries name |
| LinkRecords.PayloadTagIdsExample | src/hooks/manageLinks.ts:26-28 | falsy ids are dropped and order is kept (`["a", {id: null}, "", {id: "b"}]` gives `["a", "b"]`); a null entry throws; a non-array gives no ids |
| LinkRecords.RemoteTagIdsContents | src/hooks/manageLinks.ts:43 | `docs.map((tag) => tag.tagID).filter(Boolean)` yields exactly the non-empty `tagID`s of the found records |
| LinkRecords.UpdateKeepsUnsentFields | src/hooks/manageLinks.ts:45-51 | the update sends the short link only when it is truthy and the tag ids only when there are some; a link updated with it takes the tag ids sent, keeps its own short link, and keeps every other field |
| LinkRecords.RemoteIdsForContents | src/hooks/manageLinks.ts:30-43 | every remote id sent is the non-empty `tagID` of a stored tag record the references name; when the query answers fewer records than there are ids, every such `tagID` is sent |
| LinkRecords.TagLookupRunFacts | src/hooks/manageLinks.ts:30-43 | the tag-record query is made exactly when there are ids, with those ids and their count as the limit; it fails only when that call throws, and it never writes |
| LinkRecords.WriteRunFacts | src/hooks/manageLinks.ts:50-65 | an existing link gets one update; a missing link with a URL gets one create; a missing link without a URL gets the warning and no call; a call that throws changes nothing and logs `Dub link update failed` |
| LinkRecords.WriteRunTouchesOnlyItsLink | src/hooks/manageLinks.ts:50-65 | the write changes the service only at its external id: every other link is kept and no link appears under another id |
| LinkRecords.ChangeRunFacts | src/hooks/manageLinks.ts:24-71 | past the guards a run probes the link by external id first, then maps the tag references, looks them up, and writes, each step only when the one before succeeded |
| LinkRecords.BeforeChangeDubCalls | src/hooks/manageLinks.ts:13-65 | no Dub call when a guard stops the run; otherwise the probe, then an update when the probe found the link or a create when it did not and a URL is given; the missing-URL warning is reached exactly when the probe finds nothing, the tags map and look up, and there is no URL |
| LinkRecords.BeforeChangeRepoCalls | src/hooks/manageLinks.ts:30-41 | the repository is only read: the tag records are queried exactly when the references name some ids, with those ids and that limit |
| LinkRecords.BeforeChangeTouchesOnlyItsLink | src/hooks/manageLinks.ts:13-71 | whatever happens, the run keeps every folder, every tag and every link with another external id |
| LinkRecords.ExistingLinkIsUpdated | src/hooks/manageLinks.ts:50-51 | when the probe finds the link, the run never creates one: it stops at a tag failure or sends the probe and then one update with the record's `updateData`, and a successful update patches the links with that external id |
| LinkRecords.CreatedLinkCarriesData | src/hooks/manageLinks.ts:52-64 | a link is created only when the probe found none and a URL is given; the new link has the external id, that URL and the tag ids sent, and the service's own fresh short link |
| LinkRecords.BeforeChangeLogs | src/hooks/manageLinks.ts:53-71 | errors are caught: exactly the failing stages log `Dub link update failed`, a missing URL logs the warning `Missing URL for link creation: <externalId>`, and nothing else is logged |
| LinkRecords.AfterDeleteRemovesExactly | src/hooks/manageLinks.ts:74-84 | without an external id nothing happens; otherwise one delete is sent, and afterwards no link with that external id is left and every other link is kept; a throwing delete changes nothing and logs `Dub link delete failed` |
| LinkRecords.LookUpTags | src/hooks/manageLinks.ts:30-43 | the tag-record query through the repository ends as the lookup function says |
| LinkRecords.WriteLink | src/hooks/manageLinks.ts:50-65 | the update or create through the client ends as the write function says |
| LinkRecords.BeforeChange | src/hooks/manageLinks.ts:7-72 | the hook returns the record it was given; the service, repository calls and logger end exactly as the whole-run function says |
| LinkRecords.AfterDelete | src/hooks/manageLinks.ts:74-84 | the delete hook through the client ends as the delete function says |
| TagSync.MatchedTagIsNamed | src/hooks/createTag.ts:26-31 | the matched tag is a listed tag carrying the previous name or the current one; it is the previous name's tag whenever that tag exists; there is no match exactly when neither name is listed |
| TagSync.NeedsUpdateMeansDiffers | src/hooks/createTag.ts:41-42 | an update is needed exactly when the tag lacks the record's name, or lacks its colour when the record has one; after the update the tag needs no further update and keeps its id |
| TagSync.AfterChangeCalls | src/hooks/createTag.ts:19-52 | no call when skipped; otherwise the list call, then one create when nothing matched, one update of the matched tag when it differs, and nothing else; `Dub tag sync failed` is logged exactly when a call throws |
| TagSync.AfterChangeEffect | src/hooks/createTag.ts:33-48 | links and folders are never touched; a created tag carries the record's name and colour and is the tag of that name; an update renames the matched tag and recolours it only when the record has a colour; otherwise the tags are kept |
| TagSync.RerunAfterCreateIsUnchanged | src/hooks/createTag.ts:24-48 | once a run has created the tag, a second run for the same record, whose previous name is now its name, finds that tag and sends nothing more |
| TagSync.TagInUseIsNeverDeleted | src/hooks/createTag.ts:55-80 | a tag that an array answer of `links.list()` shows in some link's array of `tagIds` is never deleted; only the tag matched by name can go; every link and folder is kept |
| TagSync.UnlistedUseDoesNotProtect | src/hooks/createTag.ts:63-69 | when the links answer is not an array the tag is never reported in use, and it is deleted whenever the tag is matched and the calls succeed |
| TagSync.TextTagIdsDoNotProtect | src/hooks/createTag.ts:63-69 | a link whose `tagIds` is the tag's id as a bare string refers to the tag, yet the tag is deleted |
| TagSync.AfterDeleteDecides | src/hooks/createTag.ts:55-80 | the tags are listed; when no tag has the name nothing more happens; otherwise the links are listed, and the tag is deleted exactly when the answer is not an array or no link's array of `tagIds` holds its id, and the calls succeed; a tag in use is reported with the `Skipped Dub tag delete` notice and kept; failures log `Dub tag delete failed` |
| TagSync.ApplyTag | src/hooks/createTag.ts:33-48 | the create-or-update step through the client ends as its function says |
| TagSync.AfterChange | src/hooks/createTag.ts:13-53 | the hook returns the document it was given and ends exactly as the after-change run function says |
| TagSync.AfterDelete | src/hooks/createTag.ts:55-80 | the delete hook through the client ends exactly as the after-delete run function says |
| TagRecords.TagData.constructor | src/hooks/manageTags.ts:13-19 | a tag record starts with the given name, colour and `tagID` |
| TagRecords.BeforeChangeDecides | src/hooks/manageTags.ts:13-44 | no call when skipped or when the name is not a non-empty string; with a stored `tagID`, one update by that id, which keeps the id on success; otherwise one create, and the record takes the new tag's id; a throwing call assigns nothing and logs `Tag create/update failed` |
| TagRecords.AssignedIdNamesRemoteTag | src/hooks/manageTags.ts:24-41 | after a run that assigned an id, the service holds a tag with that id, the record's name and, when given, its colour; a created tag is the only addition; links and folders are unchanged |
| TagRecords.AfterDeleteRemovesById | src/hooks/manageTags.ts:48-58 | without a `tagID` nothing happens; otherwise one delete by that id, which removes exactly the tags with that id even when links still use them; a throwing delete changes nothing and logs `Tag delete failed` |
| TagRecords.BeforeChange | src/hooks/manageTags.ts:7-46 | the hook returns the record it was given, assigns `tagID` as the run function says, keeps the name and colour, and leaves the service and logger as that function says |
| TagRecords.AfterDelete | src/hooks/manageTags.ts:48-58 | the delete hook through the client ends as the after-delete run function says |
| Plugin.AnyEnablesIff | src/index.ts:127-129 | a collection is enabled exactly when some entry names its slug, either as a string or as `docs` |
| Plugin.ColorOptionsShape | src/index.ts:101-104 | there is one colour option per colour, in order; each option's value is the colour, and its label is the colour's value with the first letter upper-cased |
| Plugin.ColorOptionsCover | src/index.ts:101-104 | every listed colour has its option, labelled with its capitalised value |
| Plugin.TagColorOptions | src/index.ts:98-106 | the tags collection offers exactly seven options, one for every colour there is |
| Plugin.FirstColorOption | src/index.ts:101-104 | the first option is labelled `Blue` for `blue` |
| Plugin.SourceCollectionsAre | src/index.ts:50-55 | the `source` relationship may point at exactly the enabled collections, in the order they are listed |
| Plugin.AttachAll | src/index.ts:126-151 | mapping over the collections keeps their number |
| Plugin.AttachAllAt | src/index.ts:126-151 | the collection at each position of the result is the one at that position, with the reconciler attached when enabled |
| Plugin.AttachKeeps | src/index.ts:126-151 | attaching keeps the slug and the body; an enabled collection keeps its `afterChange` hooks in order with the reconciler for its own slug last, and keeps its `afterDelete` hooks; any other collection is returned as it was |
| Plugin.DisabledIsIdentity | src/index.ts:22-24 | without `collections`, or when `disabled` is set, the plugin returns the configuration unchanged |
| Plugin.CollectionsAppended | src/index.ts:118-156 | when switched on, the incoming collections keep their order, slugs and bodies; the links collection and then `dubTags` are appended; nothing outside the collections changes |
| Plugin.HooksAttachedSelectively | src/index.ts:118-151 | every collection of the result, the plugin's own ones included, gets the reconciler as its last `afterChange` hook exactly when an enabled entry names its slug; every other collection is left as it was |
| Plugin.LinksSlugDefault | src/index.ts:60 | the links collection is called `dubLinks` unless the overrides give a non-empty slug |

## Left out

- What `createDubHook` does not do, and the model does not either:
  - it has no backfill step that adopts a remote link found under the legacy id;
  - it uses the legacy id `ext_<slug>_<document id>` only as a fallback for a record without a truthy id;
  - it has no plan-dependent gating;
  - its short-circuit compares tag lists in order, not as sets;
  - it sends the document's local tag ids as the link's `tagIds`, without looking up remote ids;
  - it fetches no remote state for change detection.
- `index.ts:159-363` repeats `createDubHook` and `createDubTagHooks` with the same text as the hook files. They are modelled once, by `LinkSync` and `TagSync`.
- `manageLinks` and `manageTags` are not attached anywhere in `src/index.ts`. They are modelled as hooks a site could attach, and `Plugin` attaches only what the transform attaches.
- Field schemas, access rules, admin options and labels are left out. So are the `required` flags and the repository validation they imply: the lazy record create at `createLink.ts:80-91` omits the required `shortLink` and `externalId`, and the model lets it succeed unless the fault plan says otherwise.
- The overrides `fields` function is user code. The model records only whether one is given.
- `Plugin.PayloadDub`, `Plugin.LinksCollection`: `overrides.access` and `overrides.admin` are left out. So are the remaining override keys spread into both collections, except `slug` and `hooks`. Override hooks survive in the links collection, and the tags collection's own `hooks` replace them.
- `Plugin.PayloadDub`: the code reads `pluginConfig.overrides`, while the config type declares `dubCollection.overrides`. The model follows the code.
- `DubTypes.DubCollection`: `slugOverride` is carried but never read, as in the code.
- `Plugin.UpperChar`: `toUpperCase` is modelled for ASCII letters only. The colour values need nothing more.
- `DubService.DubClient.ListLinks`: `links.list()` pagination is not modelled. The first page is taken to be every link.
- `LinkRecords.BeforeChangeRun`: a `links.get` that throws is treated as a missing link, as the code's `.catch(() => null)` does. The create that follows may then conflict with an existing link; the model reports that as a failed create.
- `LinkRecords.TagRef`: a `dubTags` entry that is a tag object without an `id` is dropped. A `null` entry throws inside the `try`, and the model logs that as the update error.
- The remote service's uniqueness of tag names and folder names is not enforced. `find` picks the first match, as the code does.
- `LinkSync.SecondRunChangesNothing`: the precondition excludes a stored external id `""`. `??` keeps such an id, but the truthiness test at `createLink.ts:119-120` then rewrites it on every run.
- The `!newLink` branch at `createLink.ts:93-96` cannot be reached: a create that throws goes to the `catch`, and a create that succeeds answers a record. The model therefore has no stage for it.
- `createDubHook` never writes the mapping record's `tags`. Unless something else sets them, only a document whose `tags` field is absent can short-circuit.
- The client, the repository and the logger model external services. They are proved consistent with the `World` functions, but their behaviour is an assumption of this model, not code of this repository.
- `DubService.Patched`, `LinkRecords.CreatedLinkCarriesData`: the hooks send a `shortLink` in link update and create bodies, but the link body type in `src/types.ts` has no such field. The model's service ignores it, so an updated link keeps its short link and a created link gets the service's own. A service that honoured the sent short link is not modelled.
- `LinkSync.SyncRun`: the mapping-record lookup, create and update name the collection `dubLinks` (`createLink.ts:58`, `82`, `128`), while `index.ts:60` lets `overrides.slug` rename the links collection. With a renamed collection those calls would fail and the hook would only log the error. The model's repository calls name no collection, so it does not capture that failure.
- `PayloadStore.RecordFor`: the lookup matches `source.value` alone, so documents with the same id in two enabled collections share one mapping record and one link (`LinkSync.RecordSharedAcrossCollections`). The model keeps this behaviour.
- `LinkRecords.TagRef`, `PayloadStore.DocTag`, `LinkSync.ShortCircuits`, `LinkSync.TemplateText`: a `dubTags` entry that is neither a string nor an object (a number, say) names no id at `manageLinks.ts:27` and is dropped; the model has no such entry. A document tag always holds an id, so an unpopulated tag, for which `createLink.ts:111` sends `undefined`, is not modelled. `null` is modelled as absent, yet `JSON.stringify(null)` is `"null"` and a `null` document slug renders as `null` in the URL; those cases are not distinguished.
