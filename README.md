# Tangerine sync and reporting core, in Dafny

This project models four parts of Tangerine and proves properties of the model:

- **The client sync engine** (`SyncCouchdbService.sync()`). It checks the device's sync locations,
  picks batch sizes, and runs a session request. Then it runs an incremental push retry loop and
  handles a change of the device's sync locations with a forced push. It ends with a pull retry loop
  and a loop that pulls the issues and documents assigned to the device, persisting the checkpoints
  `sync-push-last_seq`, `sync-pull-last_seq` and `previousDeviceSyncLocations` along the way. It also
  builds the push and pull replication options and the pull selector, and turns each replication's
  result into a status record.
- **The sync service around it** (`SyncService`). Its `sync()` wraps the engine's status and then
  indexes views. It also covers comparison sync (`compareDocs` and its paging through `allDocs` or a
  `find` selector), the view list of `indexViews`, and `deleteArchivedDocs`.
- **The server's MySQL reporting outputs.** `generateDatabase` expands one document into ordered
  output records. `generateFlatResponse` builds a form response's flat record. `pushResponse` and
  `saveFlatResponse` normalise keys and upsert into a keyed store. `flatten`, `getItemValue` and
  `getLocationByKeys` are the small helpers.
- **The editor's event-form eligibility** (`event-forms-for-participant`). It decides which event form
  definitions a participant may create, whether the event has any for the participant's role, the
  participant's listed forms and the link to add a form.

## How it is modelled

JavaScript values are the datatype `JsonValues.Json`. It covers `undefined`, `null`, booleans,
integers, `NaN`, strings, arrays and objects. An object is a sequence of key/value pairs, in the order the
properties were added. JavaScript lists integer-like keys first, in ascending order; the model does not. Truthiness, `typeof … === 'object'`, `+`, string conversion and
`JSON.stringify` are written out over it. A function that can throw a `TypeError` returns an `Option`,
where `None` is the throw.

The sync engine is an imperative class, `SyncCouchdb.SyncCouchdbService`. Its fields are:

- `cancelling`, `fullSync`, the three batch sizes and `retryCount`
- the variable store, a map
- the replications it started, the cancelled statuses it emitted, and its sleeps and database
  reinstalls

Each method's contract says its new state (`State()`) and its result equal a function of the old
state in `SyncEngine`. That module is the specification of `sync()`, phase by phase.
`SyncProperties` and `SyncCall` prove what those functions promise.

Every replication attempt is an abstract result taken from a script in the inputs:

- complete with `docs_written`, `doc_write_failures`, `last_seq` and the completion errors
- a transport error
- for a pull, the changes seen before it ends

A cancel request can arrive during the session request or during any attempt. The source retries
without bound. When a script runs out while the engine would retry again, the model stops with
`StillRetrying`.

The remaining layers:

- **`SyncService.SyncService`** is a class too. It holds the batch sizes and limit of comparison sync,
  the last replication status, and logs of the replications started, the telemetry reports sent, the
  views queried and those that failed.
- **`ReportingStore.ReportingDb`** is the reporting database as a class whose records are a map from
  `_id` to record. The output loops of `generateDatabase` are methods over it. They are proved to leave
  the store as `Run` of the list of steps (`Steps`) that the document expands to.
- **`SyncService.LocalDb`** is the client's local database as such a map.
- **Event-form eligibility** is a small class holding the component's fields. Its filters are
  functions.

### Where the code does not do what its names promise

The model follows the code in each of these cases:

- `syncLocationsDontMatch(A, B)` takes the deepest node of `A` twice and never looks at `B`. It is
  false for every `A` with a non-empty path, and throws when `A`'s path is empty. So
  `syncLocationConfigsDontMatch` never reports a change: two different locations "match"
  (`SyncLocations.DifferentLocationsMatch`). `sync()` therefore sees a location change only when no
  `previousDeviceSyncLocations` is stored.
- The incremental push loop ends only on a successful attempt or on a cancel, and a cancel returns
  before the location check. So when the location-change branch runs, `hadPushSuccess` is already true,
  and the forced-push loop makes no attempt.
- A push whose completion errors are exactly `[""]` joins to the empty message. `_push` rejects with
  `pushError: ''`, so `push()` leaves `error` undefined, and building the retry text from
  `error.message` throws (`Replication.PushStatus` is `None`).
- After a transport error, `info` is the empty string, so `docs_written += info.docs_written` makes the
  total `NaN` from then on (`SyncProperties.WrittenAfterFailure`).
- `newFormLink` uses the loaded case's `_id`, not the component's `caseId` input.
- `generateFlatResponse` writes `'blank'` into an empty `form.id` of the document it is given, and
  `reportingOutputs` hands that same document to the sanitised pass. So an exclusion of `'blank'`
  skips a blank-form document in the sanitised database but not in the full one
  (`ReportingOutputs.BlankFormExclusion`).

## Model

| member | source | states |
|---|---|---|
| SyncLocations.SyncLocationsDontMatch | client/src/app/sync/sync-couchdb.service.ts:46-52 | throws exactly when the first config's path is empty; otherwise the answer is always false, whatever the second config is |
| SyncLocations.SomeFromBIs | client/src/app/sync/sync-couchdb.service.ts:58 | the inner `some` over B throws iff some config in B has an empty path, and is false otherwise |
| SyncLocations.SomeWithFirstIs | client/src/app/sync/sync-couchdb.service.ts:65 | the inner `some` of the second pass throws iff A is non-empty and the B config has an empty path, and is false otherwise |
| SyncLocations.FirstPassIs | client/src/app/sync/sync-couchdb.service.ts:56-61 | the first loop throws iff A is non-empty and B holds an empty path; otherwise it leaves the flag as it was |
| SyncLocations.SecondPassIs | client/src/app/sync/sync-couchdb.service.ts:63-68 | the second loop throws under the same condition and otherwise leaves the flag unchanged |
| SyncLocations.ConfigsDontMatchAsWritten | client/src/app/sync/sync-couchdb.service.ts:54-70 | both loops together throw iff A is non-empty and some B path is empty, and otherwise answer false: no change is ever reported |
| SyncLocations.DifferentLocationsMatch | client/src/app/sync/sync-couchdb.service.ts:46-70 | a device moved from region r1 to region r2 is reported as unchanged |
| SyncLocations.SyncLocationConfigsDontMatch | client/src/app/sync/sync-couchdb.service.ts:54-70 | the two flag-setting loops compute the reference `ConfigsDontMatch` |
| PullSelector.DeepestNode | client/src/app/sync/sync-couchdb.service.ts:623 | the last node of a location path, and a throw exactly when the path is empty |
| PullSelector.LocationClausesShape | client/src/app/sync/sync-couchdb.service.ts:620-628 | a location-filtered form gets one `location.<level>` clause per location, in order, on each location's deepest node; it throws iff some path is empty |
| PullSelector.IssueClausesForShape | client/src/app/sync/sync-couchdb.service.ts:640-656 | two issue clauses per location, in order: one for all devices, then one for this device id |
| PullSelector.IssueClausesShape | client/src/app/sync/sync-couchdb.service.ts:639-662 | with no locations there is exactly the one client-context issue clause; otherwise two per location |
| PullSelector.FormClausesForCases | client/src/app/sync/sync-couchdb.service.ts:607-637 | a form not enabled for pull adds nothing; `user-profile` with filtering disabled adds one unscoped clause; a location-filtered form with locations adds one clause per location; any other pulled form adds one `form.id` clause |
| PullSelector.FormClausesAppend | client/src/app/sync/sync-couchdb.service.ts:607-638 | form clauses follow the order of the form list: the clauses of a concatenation are the concatenated clauses |
| PullSelector.FormClausesTotal | client/src/app/sync/sync-couchdb.service.ts:607-638 | with no empty location path, building the form clauses never throws |
| PullSelector.NotPulledFormsContributeNothing | client/src/app/sync/sync-couchdb.service.ts:608 | forms not enabled for pull contribute no clause at all |
| PullSelector.GetPullSelectorShape | client/src/app/sync/sync-couchdb.service.ts:604-666 | the `$or` list is the form clauses followed by the issue clauses, and it throws iff some location path is empty |
| Replication.Merge | client/src/app/sync/sync-couchdb.service.ts:192 | `{...a, ...b}`: each key has b's value when b has it, otherwise a's |
| Replication.RetryText | client/src/app/sync/sync-couchdb.service.ts:445 | the retry message starts with the error text it reports |
| Replication.PushSettleRejects | client/src/app/sync/sync-couchdb.service.ts:295-306 | `_push` rejects iff the replication errored or its completion carries errors, and then the message is the errors joined by `'; '` |
| Replication.PushStatusFacts | client/src/app/sync/sync-couchdb.service.ts:378-450 | the push status throws iff the joined errors are empty. Otherwise it is a success iff the attempt was clean, and an error iff there was a transport error, a completion error or a write failure. It also gives its `docs_written`, `info` and the initial and current push sequences |
| Replication.PushStatusResolved | client/src/app/sync/sync-couchdb.service.ts:420-441 | a completed push without errors is a success iff nothing was written and nothing failed, and an error iff some write failed; its info is the completion's |
| Replication.PushStatusRejected | client/src/app/sync/sync-couchdb.service.ts:429-446 | a completion with errors is never a success and always an error, unless its only error is empty, in which case it throws |
| Replication.PushStatusFailed | client/src/app/sync/sync-couchdb.service.ts:429-446 | a transport error gives an error status with an empty info, no `docs_written` and no current sequence |
| Replication.PushInfoFields | client/src/app/sync/sync-couchdb.service.ts:295-300 | the completion info carries `docs_written`, `doc_write_failures` and `last_seq` of the replication |
| Replication.JoinEmpty | client/src/app/sync/sync-couchdb.service.ts:302 | joined errors are empty iff the only error is the empty string |
| Replication.PushFilterIsDesignPrefix | client/src/app/sync/sync-couchdb.service.ts:413-415 | the push filter keeps a document iff its id does not start with `_design` |
| Replication.PushOptions | client/src/app/sync/sync-couchdb.service.ts:405-416 | `since` is present iff PouchDB sequence tracking is off; the push uses the engine's batch sizes and one batch, checkpoints at the source, and filters design documents |
| Replication.PullOptions | client/src/app/sync/sync-couchdb.service.ts:563-572 | `since` is present iff tracking is off; a pull uses the batch, write-batch and changes sizes, checkpoints at the target, and carries the given selector or document ids |
| Replication.PullStatusFacts | client/src/app/sync/sync-couchdb.service.ts:532-602 | the pull status throws iff the pull rejected with no error. A completed pull is the success case, carrying `last_seq` in `info`, `pulled` = `docs_written` and no `pullError`. The status always records the initial pull sequence and the batch size |
| Replication.PullStatusComplete | client/src/app/sync/sync-couchdb.service.ts:577-593 | a completed pull gives a status with its `last_seq`, its `docs_written` as `pulled`, and no `pullError` |
| Replication.PullStatusRejected | client/src/app/sync/sync-couchdb.service.ts:585-597 | a rejected pull is never a success; it throws iff the error is null or undefined |
| SyncCouchdb.SyncCouchdbService.constructor | client/src/app/sync/sync-couchdb.service.ts:79-91 | a fresh engine: not cancelling, no full sync, batch sizes 200/50/25, `retryCount` 0, the given variable store and nothing started |
| SyncCouchdb.SyncCouchdbService.Cancel | client/src/app/sync/sync-couchdb.service.ts:104-106 | `cancel()` only sets `cancelling` |
| SyncCouchdb.SyncCouchdbService.FinishCancelling | client/src/app/sync/sync-couchdb.service.ts:108-114 | clears `cancelling` and emits the status with `cancelled: true`; the properties are `SyncCall.FinishCancellingFacts` |
| SyncCouchdb.SyncCouchdbService.Configure | client/src/app/sync/sync-couchdb.service.ts:132-144 | the new fields are `SyncEngine.Configure` of the old ones; the chosen sizes are `SyncCall.ConfigureBatchSizes` |
| SyncCouchdb.SyncCouchdbService.StartPush | client/src/app/sync/sync-couchdb.service.ts:378-421 | records one push replication started with the options of `SyncEngine.PushRunOptions` |
| SyncCouchdb.SyncCouchdbService.SettlePush | client/src/app/sync/sync-couchdb.service.ts:173-188 | the three branches after a push attempt, as `SyncEngine.SettlePush` |
| SyncCouchdb.SyncCouchdbService.PushStep | client/src/app/sync/sync-couchdb.service.ts:172-188 | one incremental push attempt, as `SyncEngine.PushStep`; its meaning is `SyncProperties.PushStepFacts` |
| SyncCouchdb.SyncCouchdbService.PushLoop | client/src/app/sync/sync-couchdb.service.ts:166-189 | the `while` loop leaves the state and result of `SyncEngine.PushLoop`; its meaning is `SyncProperties.PushLoopFacts` |
| SyncCouchdb.SyncCouchdbService.SettleForcedPush | client/src/app/sync/sync-couchdb.service.ts:209-215 | the two branches after a forced push attempt, as `SyncEngine.SettleForcedPush` |
| SyncCouchdb.SyncCouchdbService.ForcedPushStep | client/src/app/sync/sync-couchdb.service.ts:208-215 | one forced push attempt, as `SyncEngine.ForcedPushStep`; see `SyncProperties.ForcedPushStepFacts` |
| SyncCouchdb.SyncCouchdbService.ForcedPushLoop | client/src/app/sync/sync-couchdb.service.ts:205-216 | the forced push loop, as `SyncEngine.ForcedPushLoop`; see `SyncProperties.ForcedPushLoopFacts` |
| SyncCouchdb.SyncCouchdbService.ApplyChanges | client/src/app/sync/sync-couchdb.service.ts:473-485 | the change handler persists each change's `last_seq` as the pull checkpoint; see `SyncProperties.ApplyChangesFacts` |
| SyncCouchdb.SyncCouchdbService.StartPull | client/src/app/sync/sync-couchdb.service.ts:463-485 | records one pull started with the given options and applies its changes to the store |
| SyncCouchdb.SyncCouchdbService.SettlePull | client/src/app/sync/sync-couchdb.service.ts:239-253 | success, retry and throw after a pull attempt, as `SyncEngine.SettlePull`; see `SyncProperties.SettlePullFacts` |
| SyncCouchdb.SyncCouchdbService.PullStep | client/src/app/sync/sync-couchdb.service.ts:237-253 | one pull attempt, as `SyncEngine.PullStep`; see `SyncProperties.PullStepFacts` |
| SyncCouchdb.SyncCouchdbService.PullLoop | client/src/app/sync/sync-couchdb.service.ts:232-254 | the pull loop, as `SyncEngine.PullLoop`; see `SyncProperties.PullLoopFacts` |
| SyncCouchdb.SyncCouchdbService.SettleIssue | client/src/app/sync/sync-couchdb.service.ts:268-278 | success or retry after an assigned-documents pull, as `SyncEngine.SettleIssue` |
| SyncCouchdb.SyncCouchdbService.IssueStep | client/src/app/sync/sync-couchdb.service.ts:266-278 | one `pullFormResponses` attempt, as `SyncEngine.IssueStep`; see `SyncProperties.IssueStepFacts` |
| SyncCouchdb.SyncCouchdbService.IssueLoop | client/src/app/sync/sync-couchdb.service.ts:263-279 | the assigned-documents loop, as `SyncEngine.IssueLoop`; see `SyncProperties.IssueLoopFacts` |
| SyncCouchdb.SyncCouchdbService.PushPhase | client/src/app/sync/sync-couchdb.service.ts:165-194 | the push section of `sync()`, as `SyncEngine.PushPhase`; see `SyncCall.PushPhaseFacts` |
| SyncCouchdb.SyncCouchdbService.LocationsChangedPhase | client/src/app/sync/sync-couchdb.service.ts:204-226 | the location-change branch, as `SyncEngine.LocationsChangedPhase`; see `SyncCall.LocationsChangedFacts` |
| SyncCouchdb.SyncCouchdbService.LocationPhase | client/src/app/sync/sync-couchdb.service.ts:201-229 | location-change detection and the first-sync write, as `SyncEngine.LocationPhase`; see `SyncCall.LocationPhaseFacts` |
| SyncCouchdb.SyncCouchdbService.PullPhases | client/src/app/sync/sync-couchdb.service.ts:231-288 | the pull and assigned-documents sections, as `SyncEngine.PullPhases`; see `SyncCall.PullPhasesFacts` |
| SyncCouchdb.SyncCouchdbService.SyncAfterPush | client/src/app/sync/sync-couchdb.service.ts:196-288 | everything after the push, as `SyncEngine.SyncAfterPush`; see `SyncCall.SyncAfterPushFacts` |
| SyncCouchdb.SyncCouchdbService.SyncAfterSession | client/src/app/sync/sync-couchdb.service.ts:160-288 | everything after the session request, as `SyncEngine.SyncAfterSession` |
| SyncCouchdb.SyncCouchdbService.Sync | client/src/app/sync/sync-couchdb.service.ts:123-289 | one `sync()` call leaves the state and result of `SyncEngine.Sync`; see `SyncCall.SyncFacts`, `SyncCall.SessionFailed` and `SyncCall.CancelledAfterSession` |
| SyncProperties.PushStepFacts | client/src/app/sync/sync-couchdb.service.ts:171-188 | one push attempt starts exactly one push and touches only the loop's fields. It ends the loop with success iff it was clean, writing `last_seq` to `sync-push-last_seq`; it throws iff its only error is empty. Otherwise it leaves the store alone, counts one retry, sleeps iff there was an error or a write failure, and adds its `docs_written` |
| SyncProperties.PushStepRuns | client/src/app/sync/sync-couchdb.service.ts:172 | each attempt starts exactly one push replication, with the engine's current options |
| SyncProperties.PushStepClean | client/src/app/sync/sync-couchdb.service.ts:173-180 | a clean attempt ends the loop successfully and writes its `last_seq` as the push checkpoint, without a retry or a sleep |
| SyncProperties.PushStepThrows | client/src/app/sync/sync-couchdb.service.ts:434-445 | an attempt whose only completion error is empty makes `sync()` throw |
| SyncProperties.PushStepRetries | client/src/app/sync/sync-couchdb.service.ts:181-188 | any other unclean attempt goes round again: the store is unchanged, `retryCount` goes up by one, it sleeps iff errored, and `docs_written` grows by the attempt's |
| SyncProperties.PushLoopFacts | client/src/app/sync/sync-couchdb.service.ts:166-191 | over the whole loop, every attempt before the last was unclean, `retryCount` counts them, and the sleeps count those that errored. The total `docs_written` is the sum over those attempts. The push checkpoint is written only by a successful last attempt, and the loop stops without success only when cancelled |
| SyncProperties.WrittenAfterFailure | client/src/app/sync/sync-couchdb.service.ts:181-187 | once an attempt failed in transport, the `docs_written` total is NaN |
| SyncProperties.ApplyChangesFacts | client/src/app/sync/sync-couchdb.service.ts:473-485 | the change events change only the checkpoints: the push checkpoint stays, and after some change the pull checkpoint is the last one's `last_seq` |
| SyncProperties.ForcedPushStepFacts | client/src/app/sync/sync-couchdb.service.ts:207-216 | a forced push attempt starts one push and never writes the store; it ends the loop only on success (marked `hadPushSuccess`) or a throw |
| SyncProperties.SettleForcedPushFacts | client/src/app/sync/sync-couchdb.service.ts:209-211 | a forced push attempt ends the loop only with a status marked `hadPushSuccess` |
| SyncProperties.ForcedPushLoopFacts | client/src/app/sync/sync-couchdb.service.ts:207-216 | with `hadPushSuccess` already true the loop changes nothing; it never writes the store, starts only pushes, and unless cancelled ends on a success |
| SyncProperties.StartPullFacts | client/src/app/sync/sync-couchdb.service.ts:463-484 | starting a pull adds one pull run and changes the store only through its change events' checkpoints |
| SyncProperties.SettlePullFacts | client/src/app/sync/sync-couchdb.service.ts:237-253 | the pull loop ends iff the attempt succeeded, having written `info.last_seq` to the pull checkpoint. A thrown pull writes the local sequence into the push checkpoint and sleeps without a retry count; an unsuccessful status counts a retry and sleeps |
| SyncProperties.PullStepFacts | client/src/app/sync/sync-couchdb.service.ts:236-254 | a pull attempt starts only pulls, changes only the checkpoints, and ends the loop only after persisting the pull's `last_seq` |
| SyncProperties.PullLoopFacts | client/src/app/sync/sync-couchdb.service.ts:236-254 | unless cancelled, the pull loop ends with a status whose `last_seq` is the stored pull checkpoint |
| SyncProperties.IssueStepFacts | client/src/app/sync/sync-couchdb.service.ts:265-278 | an assigned-documents attempt starts one pull, applies its change events, and ends the loop iff it succeeded |
| SyncProperties.IssueLoopFacts | client/src/app/sync/sync-couchdb.service.ts:265-279 | the assigned-documents loop starts only pulls, never changes the push checkpoint, and unless cancelled ends with a status |
| SyncCall.ConfigureBatchSizes | client/src/app/sync/sync-couchdb.service.ts:135-139 | `batchSize` is the initial size on a first sync or a full pull, otherwise 10 when reducing, otherwise the configured size when set and non-zero, otherwise the current one. `writeBatchSize` and `changesBatchSize` follow the same pattern with 10 and 1 |
| SyncCall.FinishCancellingFacts | client/src/app/sync/sync-couchdb.service.ts:108-114 | `finishCancelling` clears the flag and emits exactly one status with `cancelled: true` over the given status, changing nothing else |
| SyncCall.SessionFailed | client/src/app/sync/sync-couchdb.service.ts:147-158 | a failed session request resolves to a status holding only `pushError`, with no replication started and no variable written |
| SyncCall.CancelledAfterSession | client/src/app/sync/sync-couchdb.service.ts:160-163 | a cancel seen after the session resolves to `undefined` and emits one cancelled status, with nothing replicated or stored |
| SyncCall.PushPhaseFacts | client/src/app/sync/sync-couchdb.service.ts:165-194 | a first sync skips the push; otherwise the push loop ran as `PushLoopRan` says, and `pushed` is the sum of `docs_written` over the attempts |
| SyncCall.LocationsChangedAsWritten | client/src/app/sync/sync-couchdb.service.ts:202-203 | a change is detected whenever no previous locations are stored; with stored locations it is never detected, and the check can throw |
| SyncCall.LocationsChangedFacts | client/src/app/sync/sync-couchdb.service.ts:204-226 | the change branch sets `fullSync` to push. With `hadPushSuccess` it starts no replication, and `retryCount` is 1. When it goes on, it stores the new locations, sets `sync-pull-last_seq` to 0 and reinstalls the database once |
| SyncCall.LocationPhaseFacts | client/src/app/sync/sync-couchdb.service.ts:201-229 | a first sync stores the locations unconditionally. A later sync with nothing stored takes the change branch; one with stored locations changes nothing; a throw rejects |
| SyncCall.PullPhasesFacts | client/src/app/sync/sync-couchdb.service.ts:231-281 | the pull sections start only pulls, keep the batch sizes, and leave every variable except the two checkpoints alone |
| SyncCall.SyncAfterPushFacts | client/src/app/sync/sync-couchdb.service.ts:196-288 | after the push the batch sizes are kept; a first sync starts only pulls and stores the device's locations |
| SyncCall.SyncFacts | client/src/app/sync/sync-couchdb.service.ts:123-289 | a whole `sync()` keeps the batch sizes it chose; a first sync replicates only by pulling and, when the location check succeeds, stores the device's locations |
| Paging.PageAllDocs | client/src/app/sync/sync.service.ts:508-560 | `allDocs` paging with a withheld last id as the next `startkey` collects `AllDocsCollected`; for strictly increasing ids and a limit of at least 2 that is every id once, in order |
| Paging.AllDocsPage | client/src/app/sync/sync.service.ts:530-541 | one `allDocs` page keeps the paging invariant and either stops or moves the start key forward |
| Paging.PageFind | client/src/app/sync/sync.service.ts:522-553 | `find` paging appends every page up to the first empty one, and sends each page's bookmark with the next request |
| Paging.FindCollectsAll | client/src/app/sync/sync.service.ts:522-553 | when no page is empty, every returned doc is collected |
| Paging.FindStopsAtEmptyPage | client/src/app/sync/sync.service.ts:551-553 | paging stops at the first empty page, and nothing after it is read |
| CompareDocs.KeyCount | client/src/app/sync/sync.service.ts:366 | `Object.keys(v).length`: it throws iff `v` is null or undefined, and counts own keys of objects and arrays |
| CompareDocs.FindInitialProfile | client/src/app/sync/sync.service.ts:365-366 | finds the first `user-profile` with an empty location, skipping the others before it, or reports a throw on a null location |
| CompareDocs.FirstIndex | client/src/app/sync/sync.service.ts:369 | the index of the first occurrence of an id |
| CompareDocs.RemoveFirstFacts | client/src/app/sync/sync.service.ts:367-373 | `splice` removes exactly the first occurrence of the profile id, keeping the rest in order; an absent id changes nothing |
| CompareDocs.IdsToSyncMembers | client/src/app/sync/sync.service.ts:392-406 | an id is a candidate iff it is a source id that is not in the target and does not contain `_design` |
| CompareDocs.IdsToSyncAppend | client/src/app/sync/sync.service.ts:392-406 | candidates keep source order |
| CompareDocs.IdsToSyncSingle | client/src/app/sync/sync.service.ts:395-398 | one source id is kept iff it is a candidate |
| CompareDocs.CompareFacts | client/src/app/sync/sync.service.ts:364-406 | comparison succeeds iff the direction is push or pull and the profile search does not throw. The local list loses the initial profile. For push the candidates are local ids missing remotely, for pull remote ids missing locally, never design docs |
| CompareDocs.CompareOptionsFor | client/src/app/sync/sync.service.ts:412-431 | the options carry `doc_ids` = the candidates and the batch size, and are push options iff the direction is push |
| CompareDocs.ComparedStatus | client/src/app/sync/sync.service.ts:407-456 | with no candidates the status is the initial one with `pushed` 0; otherwise it is the replicator's status |
| CompareDocs.CountedNumbers | client/src/app/sync/sync.service.ts:435-446 | a counted number is kept and a missing one counts as 0 |
| CompareDocs.CompareReportFacts | client/src/app/sync/sync.service.ts:461-477 | the report records `localDocsCount`, `remoteDocsCount` and `idsToSyncCount` and keeps the other status fields |
| IndexViews.ForInKeys | client/src/app/sync/sync.service.ts:263 | `for … in` over an object visits its keys in order |
| IndexViews.ViewNameOfDesignDoc | client/src/app/sync/sync.service.ts:264 | a design document's view is named `<ddoc name without _design/>/<viewId>` |
| IndexViews.RowViews | client/src/app/sync/sync.service.ts:262-266 | a design document contributes one name per view, or none when it has no views |
| IndexViews.RowViewsMembers | client/src/app/sync/sync.service.ts:262-266 | a name comes from a design document iff it names one of its views |
| IndexViews.DesignDocViewsMembers | client/src/app/sync/sync.service.ts:260-267 | the non-case-home list holds exactly the views of all design documents |
| IndexViews.WithoutExcludedMembers | client/src/app/sync/sync.service.ts:269-271 | the `doNotOptimize` filter keeps exactly the views that are not excluded |
| IndexViews.WithoutExcludedAppend | client/src/app/sync/sync.service.ts:270 | the filter keeps the list's order |
| IndexViews.FailedViewsMembers | client/src/app/sync/sync.service.ts:289-298 | the failures logged are exactly the queried views that fail; a failure does not stop the loop |
| IndexViews.CaseHomeOrder | client/src/app/sync/sync.service.ts:243-257 | on case-home the list is `search`, `case-events-by-all-days`, `tangy-form/responsesByFormId`, then the custom query ids |
| IndexViews.ViewsToIndexMembers | client/src/app/sync/sync.service.ts:241-271 | a view is indexed iff it is in the built list and not excluded by an array `doNotOptimize` |
| SyncService.WrappedStatus | client/src/app/sync/sync.service.ts:124-146 | the wrapped status resets `pullConflicts` to `[]`, records `fullSync` only when given, and adds the form stats when asked; every other field is the engine's |
| SyncService.Wrapped | client/src/app/sync/sync.service.ts:124-161 | a rejected or still-retrying engine stays so. An `undefined` status rejects when `fullSync` is given or form stats are asked for. Any other status is wrapped, and a telemetry failure does not change it |
| SyncService.ArchivedBound | client/src/app/sync/sync.service.ts:566-586 | no more docs are removed than there are changes |
| SyncService.SyncService.constructor | client/src/app/sync/sync.service.ts:54-59 | comparison sync starts at batch size 200, write batch size 50 and limit 150, with nothing recorded |
| SyncService.SyncService.Sync | client/src/app/sync/sync.service.ts:71-174 | the engine ends as `SyncEngine.Sync` says, and the outcome is its wrapped result. The telemetry report is sent iff there is a status and telemetry does not fail. The views are indexed iff the sync resolved and it is a first sync or indexing is not limited to first syncs |
| SyncService.SyncService.AfterEngine | client/src/app/sync/sync.service.ts:108-174 | the post-processing of `sync()`: wrap, record, report and index as above |
| SyncService.SyncService.AfterResolved | client/src/app/sync/sync.service.ts:124-174 | once the engine resolved: the status in `replicationStatus` becomes the wrapped status, it is reported unless telemetry fails, and the views are indexed iff `SyncIndexes` holds |
| SyncService.SyncService.IndexAfterSync | client/src/app/sync/sync.service.ts:163-172 | indexes `ViewsToIndex` iff `SyncIndexes` holds, and logs exactly the failing ones |
| SyncService.SyncService.RecordStatus | client/src/app/sync/sync.service.ts:124-161 | stores the wrapped status and sends it as telemetry unless telemetry fails |
| SyncService.SyncService.CompareDocs | client/src/app/sync/sync.service.ts:322-498 | sets the comparison sizes, pages the local ids, and builds the pull selector; when that throws on an empty location path, nothing is replicated, recorded or indexed. Otherwise it pages the remote ids and compares them. It replicates iff there are candidates, with options carrying exactly them, and reports the counts. A throw changes nothing further |
| SyncService.SyncService.ConfigureComparison | client/src/app/sync/sync.service.ts:332-335 | the reduced sizes 10/10/10 when reducing; otherwise each configured value when set, else the current one |
| SyncService.SyncService.Candidates | client/src/app/sync/sync.service.ts:364-406 | the `forEach`/`push` loop and the profile `splice` compute `Compare` |
| SyncService.SyncService.SelectCandidates | client/src/app/sync/sync.service.ts:392-406 | the `forEach` loop over the source ids computes `IdsToSync`, the candidates in source order |
| SyncService.SyncService.ReplicateCandidates | client/src/app/sync/sync.service.ts:407-497 | replicates iff there are candidates, reports the comparison's counts, and indexes unless indexing is limited to first syncs |
| SyncService.SyncService.IndexViews | client/src/app/sync/sync.service.ts:233-301 | queries `ViewsToIndex` in order and logs exactly the failing views |
| SyncService.SyncService.QueryViews | client/src/app/sync/sync.service.ts:289-298 | queries each view in order, logging those that fail, never stopping early |
| SyncService.SyncService.BuildViewList | client/src/app/sync/sync.service.ts:241-268 | the `push` loops build `ViewList`, whose members `IndexViews.DesignDocViewsMembers` and `IndexViews.CaseHomeOrder` describe |
| SyncService.SyncService.PushAll | client/src/app/sync/sync.service.ts:254-256 | appends the query ids in order |
| SyncService.SyncService.PushRowViews | client/src/app/sync/sync.service.ts:263-265 | appends one design document's views in order |
| SyncService.SyncService.DeleteArchivedDocs | client/src/app/sync/sync.service.ts:566-586 | returns 0 and removes nothing when `initialPushLastSeq` is falsy. Otherwise it removes exactly the changed local docs with a truthy `archived` and returns how many; changed ids not stored locally are skipped |
| SyncService.ArchivedStep | client/src/app/sync/sync.service.ts:572-582 | one change adds its doc to the removed set iff it is stored, archived and not yet removed |
| ReportingFlat.OrEmpty | server/src/modules/mysql/index.js:263-269 | a truthy value is kept, and anything falsy becomes `''` |
| ReportingFlat.BlankFormId | server/src/modules/mysql/index.js:255-257 | the form id is never empty afterwards, and a non-empty one is kept |
| ReportingFlat.BaseFieldsColumns | server/src/modules/mysql/index.js:258-270 | the flat record starts with `_id`, `formId`, `formTitle`, `startUnixtime`, `endUnixtime`, `buildId`, `buildChannel`, `deviceId`, `groupId`, `complete`, `archived`, in that order |
| ReportingFlat.BaseFieldsFormId | server/src/modules/mysql/index.js:255-260 | the record's `formId` is the document's form id, `'blank'` when it was empty |
| ReportingFlat.BaseFieldsDefined | server/src/modules/mysql/index.js:263-269 | the defaulted columns are never undefined, while `complete` is copied as it is |
| ReportingFlat.OptionalColumnsDefined | server/src/modules/mysql/index.js:263-267 | each of `endUnixtime`, `buildId`, `buildChannel`, `deviceId` and `groupId` is defined |
| ReportingFlat.SelectedOption | server/src/modules/mysql/index.js:318 | a radio value maps to the first option with a truthy `value`, or to none when no option's value is truthy |
| ReportingFlat.GroupCalls | server/src/modules/mysql/index.js:328-331 | an array input sets `name.<group.name>` to each element's `value`, in order, and throws iff some element is null or undefined |
| ReportingFlat.KeyCalls | server/src/modules/mysql/index.js:332-336 | an object input sets `name.<key>` to each property's value, in order |
| ReportingFlat.InputCallsOwnInput | server/src/modules/mysql/index.js:272-337 | every variable set for an input is that input's |
| ReportingFlat.GenerateFlatResponse | server/src/modules/mysql/index.js:254-342 | the nested loops build `FlatOf`, and the document passed in has its empty form id replaced by `'blank'` |
| ReportingFlat.ItemInputsCalls | server/src/modules/mysql/index.js:272-339 | the inner loop over one item's inputs collects `InputsCalls` |
| ReportingFlat.InputsCallsVisible | server/src/modules/mysql/index.js:273-279 | every variable set comes from an input of the item that is not hidden by sanitising |
| ReportingFlat.SanitizedHidesIdentifiers | server/src/modules/mysql/index.js:273-279 | in a sanitised record no variable comes from an input with a truthy `identifier` |
| ReportingFlat.SanitizedIsUnidentified | server/src/modules/mysql/index.js:271-340 | sanitising an item is the same as dropping its identifying inputs first |
| ReportingFlat.SanitizedItemsUnidentified | server/src/modules/mysql/index.js:271-340 | the same, over all items |
| ReportingFlat.SanitizedFlatIsUnidentified | server/src/modules/mysql/index.js:254-342 | the sanitised flat record is the full flat record of the response with its identifying inputs removed |
| ReportingFlat.TagMapping | server/src/modules/mysql/index.js:317-337 | photo captures map to `'true'`/`'false'`; strings and numbers are kept; a radio array with nothing selected maps to `''`; plain objects map to `name.<key>`; other scalars set nothing |
| ReportingFlat.AssignItemsLookup | server/src/modules/mysql/index.js:236-241 | after the `reduce`, a name has the value of its last input across all items, or keeps its old value |
| ReportingFlat.GetItemValueIsLast | server/src/modules/mysql/index.js:235-243 | `getItemValue` returns the value of the last input with that name: a later input overrides an earlier one |
| ReportingFlat.FlattenFlat | server/src/modules/mysql/index.js:415-429 | an object without plain-object values flattens to itself; arrays are leaves |
| ReportingFlat.FlattenUnderRoot | server/src/modules/mysql/index.js:424-428 | a nested object's leaves are keyed `<key>.<leafKey>` |
| ReportingFlat.FlattenNested | server/src/modules/mysql/index.js:415-429 | a one-level nested object flattens to its dot-joined leaves |
| ReportingFlat.FlattenIgnoresSeparator | server/src/modules/mysql/index.js:415-426 | without roots the separator never appears in a key, so any separator gives the same result |
| ReportingFlat.GetLocationByKeys | server/src/modules/mysql/index.js:405-412 | the loop picks the top location by the first key and then follows `children` by the other keys, throwing on a null level |
| ReportingFlat.DescendAppend | server/src/modules/mysql/index.js:408-410 | descending along two parts of a path is descending along each in turn |
| ReportingStore.Converted | server/src/modules/mysql/index.js:354-356 | a converted value is never an object, and non-objects are kept |
| ReportingStore.NormalizeStep | server/src/modules/mysql/index.js:348-359 | one reduction step drops the empty key and otherwise assigns the lower-cased key the converted value |
| ReportingStore.NormalizeShape | server/src/modules/mysql/index.js:385-396 | a normalised record has unique, non-empty, lower-case keys and no object values |
| ReportingStore.NormalizeLookup | server/src/modules/mysql/index.js:385-396 | a normalised key holds the converted value of the last property that lower-cases to it: on a collision the later one wins |
| ReportingStore.NormalizeIdempotent | server/src/modules/mysql/index.js:385-396 | normalising twice is normalising once |
| ReportingStore.OwnEntries | server/src/modules/mysql/index.js:348 | `Object.keys` of an object are its properties, and a scalar has none |
| ReportingStore.PushResponse | server/src/modules/mysql/index.js:344-380 | the store after `pushResponse` is `AfterPush`, and it resolves iff the upsert is accepted |
| ReportingStore.UpsertedOthers | server/src/modules/mysql/index.js:361-378 | no record under another id changes, appears or disappears |
| ReportingStore.UpsertedRefused | server/src/modules/mysql/index.js:361-378 | an upsert is refused iff the id is not a string |
| ReportingStore.WithNormalizedDataLookup | server/src/modules/mysql/index.js:347-360 | normalising `data` leaves every other field alone |
| ReportingStore.StoredLookup | server/src/modules/mysql/index.js:362-378 | an overwrite carries the existing `_rev`, a new record has no `_rev`, and every other field is the record's |
| ReportingStore.StoredRecord | server/src/modules/mysql/index.js:361-378 | an accepted upsert stores exactly one record under the document's id |
| ReportingStore.UpsertedRecord | server/src/modules/mysql/index.js:344-380 | the stored record has the stored `_rev` when the id existed and none otherwise, its `data` normalised, and every other field from the document |
| ReportingStore.TopDoc | server/src/modules/mysql/index.js:398-399 | the top document keeps exactly the non-object fields of the doc |
| ReportingStore.SaveFlatResponse | server/src/modules/mysql/index.js:382-403 | a throwing flat response changes nothing; otherwise the saved record is upserted as `pushResponse` does |
| ReportingStore.SavedData | server/src/modules/mysql/index.js:382-403 | the saved `data` is the normalised flat record |
| ReportingOutputs.Excluded | server/src/modules/mysql/index.js:94 | a falsy exclusion list excludes nothing; an array excludes exactly its listed form ids; a non-string, non-array truthy value throws |
| ReportingOutputs.RunAppend | server/src/modules/mysql/index.js:93-147 | the records are written in sequence: the second list runs only if the first did not throw |
| ReportingOutputs.RunFailures | server/src/modules/mysql/index.js:124-130 | a failure inside the event-form `try` is swallowed; one outside it stops `generateDatabase` |
| ReportingOutputs.ParticipantSteps | server/src/modules/mysql/index.js:102-115 | one record per participant, in order |
| ReportingOutputs.EventFormSteps | server/src/modules/mysql/index.js:121-131 | one guarded record per event form, in order |
| ReportingOutputs.EventsStepsAppend | server/src/modules/mysql/index.js:118-142 | events emit in order: the records of a concatenation are the concatenated records |
| ReportingOutputs.EventFormTurn | server/src/modules/mysql/index.js:124-130 | writing one event form never makes `generateDatabase` fail |
| ReportingOutputs.OutputEventForms | server/src/modules/mysql/index.js:120-131 | the event-form loop writes as `EventFormSteps` and never fails |
| ReportingOutputs.OutputEvent | server/src/modules/mysql/index.js:119-141 | one event writes its event forms and then its case-event record, as `EventSteps` |
| ReportingOutputs.OutputEvents | server/src/modules/mysql/index.js:118-142 | the events loop writes as `EventsSteps`, stopping at the first failure |
| ReportingOutputs.ParticipantTurn | server/src/modules/mysql/index.js:102-114 | writes one participant record |
| ReportingOutputs.OutputParticipants | server/src/modules/mysql/index.js:102-115 | the participants loop writes as `ParticipantSteps` |
| ReportingOutputs.OutputCaseRest | server/src/modules/mysql/index.js:101-142 | after the flat record, a case writes its participants and then its events |
| ReportingOutputs.OutputFlat | server/src/modules/mysql/index.js:99-144 | writes the flat record as `saveFlatResponse` does |
| ReportingOutputs.GenerateDatabase | server/src/modules/mysql/index.js:93-147 | the store after `generateDatabase` is `Run` of `Steps`: nothing for an excluded form; for a case, the flat record, one record per participant, then per event its event forms and its case event; for any other doc, the flat record alone |
| ReportingOutputs.ReportingOutputsHook | server/src/modules/mysql/index.js:149-173 | the full database gets the unsanitised records; only if that succeeded does the sanitised database get the sanitised records of the same (form-id-updated) doc |
| ReportingOutputs.ExclusionsSkip | server/src/modules/mysql/index.js:94-95 | an excluded form writes nothing and resolves; a throwing exclusion check writes nothing and rejects |
| ReportingOutputs.BlankFormExclusion | server/src/modules/mysql/index.js:149-173 | a blank-form doc is written to the full database even when `'blank'` is excluded, and then skipped in the sanitised one |
| ReportingOutputs.SanitizedStepsUnidentified | server/src/modules/mysql/index.js:93-147 | the sanitised expansion is the full expansion of the doc without its identifying inputs |
| ReportingOutputs.EventsStepsGuards | server/src/modules/mysql/index.js:118-142 | only event-form writes are guarded; case-event and other failures are not swallowed |
| ReportingOutputs.ParticipantRecordFields | server/src/modules/mysql/index.js:107-114 | a participant record is the participant with `_id` = `participant.id` (or `<case _id>-<id>` with multi-participant schema), `caseId`, `participantId`, `type` `participant` and `archived` = the doc's `archived`, or `''` when it is falsy |
| ReportingOutputs.EventCloneLookup | server/src/modules/mysql/index.js:137-140 | the case-event clone drops `eventForms` and keeps every other field |
| ReportingOutputs.CaseEventRecordFields | server/src/modules/mysql/index.js:137-141 | a case-event record has `_id` = `event.id`, `type` `case-event`, `archived` unchanged from the doc, no `eventForms`, and the event's other fields |
| EventForms.Filter | editor/src/app/case/components/event-forms-for-participant/event-forms-for-participant.component.ts:103-106 | `filter` keeps exactly the elements that satisfy the predicate |
| EventForms.Find | editor/src/app/case/components/event-forms-for-participant/event-forms-for-participant.component.ts:101 | `find` returns the first element that satisfies the predicate, or none iff no element does |
| EventForms.RoleList | editor/src/app/case/components/event-forms-for-participant/event-forms-for-participant.component.ts:103 | the roles are the comma-separated parts of `forCaseRole`, each trimmed |
| EventForms.RoleListJoined | editor/src/app/case/components/event-forms-for-participant/event-forms-for-participant.component.ts:103 | a role list written with commas reads back as the same roles |
| EventForms.ForJoinedRoles | editor/src/app/case/components/event-forms-for-participant/event-forms-for-participant.component.ts:103 | a definition is for a role iff the role is one of those listed in its `forCaseRole` |
| EventForms.AnyForRoleIff | editor/src/app/case/components/event-forms-for-participant/event-forms-for-participant.component.ts:127 | `caseEventHasEventFormsForParticipantsRole` is true iff some definition lists the participant's role |
| EventForms.AnyOfDefinition | editor/src/app/case/components/event-forms-for-participant/event-forms-for-participant.component.ts:107-109 | the `reduce` is true iff some form is of that definition |
| EventForms.HasFormIff | editor/src/app/case/components/event-forms-for-participant/event-forms-for-participant.component.ts:105-109 | a participant has a form of a definition iff one of the event's forms is theirs and of that definition |
| EventForms.OfferIsFilter | editor/src/app/case/components/event-forms-for-participant/event-forms-for-participant.component.ts:104-113 | the accumulating `reduce` is a filter on repeatable or not yet created |
| EventForms.CanCreateIff | editor/src/app/case/components/event-forms-for-participant/event-forms-for-participant.component.ts:100-114 | a definition is offered iff it is listed, its role matches, and it is repeatable or this participant has no form of it |
| EventForms.CanCreateOrder | editor/src/app/case/components/event-forms-for-participant/event-forms-for-participant.component.ts:102-113 | the offer keeps the order of `eventFormDefinitions` |
| EventForms.OtherParticipantsForms | editor/src/app/case/components/event-forms-for-participant/event-forms-for-participant.component.ts:105-106 | another participant's form never changes what this participant is offered |
| EventForms.CanCreateNeedsRole | editor/src/app/case/components/event-forms-for-participant/event-forms-for-participant.component.ts:102-103 | without a definition for the participant's role nothing is offered |
| EventForms.FormInfosSpec | editor/src/app/case/components/event-forms-for-participant/event-forms-for-participant.component.ts:129-139 | the infos are exactly this participant's forms, archived ones only with `showArchived`, in order, each paired with the first definition of its id |
| EventForms.NewFormLinkSegments | editor/src/app/case/components/event-forms-for-participant/event-forms-for-participant.component.ts:126 | the link is `/case/event/form-add/<caseId>/<eventId>/<participantId>`, split into its segments |
| EventForms.CanCreateFor | editor/src/app/case/components/event-forms-for-participant/event-forms-for-participant.component.ts:100-114 | `eventFormsParticipantCanCreate` throws iff there is no event definition, or the participant is missing while there are definitions, or the event is missing while one definition matches the role; otherwise it is `CanCreate`, empty for a missing participant |
| EventForms.ParticipantInfoOf | editor/src/app/case/components/event-forms-for-participant/event-forms-for-participant.component.ts:116-140 | the info is built iff the participant exists, their role is defined, and the event and its definition were found |
| EventForms.ParticipantInfoCanCreate | editor/src/app/case/components/event-forms-for-participant/event-forms-for-participant.component.ts:117-128 | the info carries the participant's id, the offer of `eventFormsParticipantCanCreate` and the new-form link |
| EventForms.EventFormsForParticipant.constructor | editor/src/app/case/components/event-forms-for-participant/event-forms-for-participant.component.ts:32-45 | the inputs are stored and nothing is loaded yet |
| EventForms.EventFormsForParticipant.EventFormsParticipantCanCreate | editor/src/app/case/components/event-forms-for-participant/event-forms-for-participant.component.ts:100-114 | throws without an event definition; with the event, its definition and the participant found it is `CanCreate` over them |
| EventForms.EventFormsForParticipant.GetParticipantInfo | editor/src/app/case/components/event-forms-for-participant/event-forms-for-participant.component.ts:116-142 | assigns `participantInfo` iff the info can be built, changing no other field |
| EventForms.EventFormsForParticipant.Render | editor/src/app/case/components/event-forms-for-participant/event-forms-for-participant.component.ts:66-82 | finds the event by id and its definition by the event's definition id, then builds the participant info and sets `loaded`. A missing event throws: when its definition id is read, or, with no event definitions, inside `getParticipantInfo` after the definition became undefined; the info and `loaded` stay as they were |
| Strings.Split | editor/src/app/case/components/event-forms-for-participant/event-forms-for-participant.component.ts:103 | `split` gives at least one part, none containing the separator |
| Strings.SplitJoin | editor/src/app/case/components/event-forms-for-participant/event-forms-for-participant.component.ts:103 | joining the parts with the separator gives the string back |
| Strings.JoinSplit | editor/src/app/case/components/event-forms-for-participant/event-forms-for-participant.component.ts:103 | splitting parts joined by a separator they lack gives the parts back |
| Strings.Trim | editor/src/app/case/components/event-forms-for-participant/event-forms-for-participant.component.ts:103 | `trim` gives a slice of the string with only whitespace before and after it, and no whitespace left at either end |
| Strings.TrimTrimmed | editor/src/app/case/components/event-forms-for-participant/event-forms-for-participant.component.ts:103 | trimming an already trimmed role changes nothing |
| Strings.Lower | server/src/modules/mysql/index.js:354 | lower-cases the ASCII letters `A`-`Z` and keeps every other character, which is `toLowerCase` on ASCII keys only (see "## Left out") |
| Strings.LowerIdempotent | server/src/modules/mysql/index.js:391 | lower-casing twice is lower-casing once |
| Strings.IndexOf | client/src/app/sync/sync.service.ts:396 | the first position where the pattern occurs, or none iff it never occurs |
| Strings.ReplacePrefix | client/src/app/sync/sync.service.ts:264 | replacing a leading `_design/` leaves the rest of the id |
| JsonValues.Stringify | server/src/modules/mysql/index.js:355 | `JSON.stringify` is undefined iff its argument is, and otherwise a non-empty string |
| JsonValues.Add | client/src/app/sync/sync-couchdb.service.ts:182 | `+` adds two numbers, and gives NaN when one side is undefined |
| JsonValues.SpreadLookup | server/src/modules/mysql/index.js:349-358 | after `{...a, ...b}` a key has b's value when b has it, otherwise a's |
| JsonValues.ObjSetLookup | server/src/modules/mysql/index.js:238 | after `obj[k] = v`, `k` reads `v` and every other key is unchanged |
| JsonValues.ObjRemoveLookup | server/src/modules/mysql/index.js:140 | after `delete obj[k]`, `k` reads undefined and every other key is unchanged |
| JsonValues.Member | server/src/modules/mysql/index.js:318 | reading a property throws exactly on null or undefined |

## Left out

- Database and network I/O: creating, destroying and connecting to PouchDB/CouchDB databases and the
  session request. The session's locations, the replications' results and the local docs are inputs.
- The device and user services (`getDevice`, `reinstallSharedUserDatabase`, `getUserDatabase`). A
  reinstall is only counted.
- The `replicate` event plumbing of `_push`/`_pull` (`checkpoint`, `active`, `paused`, `denied`, the
  progress messages sent to `syncMessage$`) and the `Subject` streams. Only the status each attempt
  settles with and the `last_seq` of each `change` event are kept.
- `sleep`/`retryDelay` timers, which are only counted, plus `Date`/moment durations,
  `addDeviceSyncMetadata`, `navigator.connection` and the Cordova storage stats. These are timing and
  device metadata.
- The unbounded retry loops, which are scripted: a script that runs out ends in `StillRetrying`,
  which the source never reaches.
- The indexing `percentComplete` computation in `indexViews`, which uses floating point and `Math.round`.
- `calculateLocalDocsForLocation` and `createSyncFormIndex`. Their result, the form stats, is an
  input.
- The `eval` of `queries.js`, whose query ids are an input, and of the role's `templateListItem`,
  whose `renderedListItem` is not modelled.
- `window['t']` translations, which are three strings in the inputs.
- The component's event emitters and click handlers (`onDeleteFormClick`, `onArchiveFormClick`,
  `onUnarchiveFormClick`, `exitRoutes`), `ngOnInit`, `detectChanges`, and `caseService.load`. The
  loaded case and case definition are parameters.
- Document revisions: `_rev` values are opaque JSON values.
- Id order and length: Dafny's `char` is a Unicode scalar value, while JavaScript and PouchDB order and
  count strings by UTF-16 code units. `Paging.IdLess`, `Paging.StrictlySorted` and `CompareDocs.KeyCount`
  on strings therefore disagree with the source for characters beyond U+FFFF. The two orders differ only
  when such a character is compared with one in U+E000-U+FFFF.
- ReportingStore.UpsertedRefused: the store refuses only a non-string `_id`; PouchDB's refusal of an
  empty or `_`-prefixed string `_id` is database behaviour that is not modelled.
- Strings.Lower: key normalisation lowers only the ASCII letters `A`-`Z`. JavaScript's `toLowerCase`
  follows the full Unicode case table (`É` to `é`, `İ` to two characters, which changes the length).
  `NormalizeShape`, `NormalizeLookup` and `LowerIdempotent` are stated about the ASCII mapping.
- JsonValues.ObjSet: property order ignores JavaScript's rule that integer-like keys are listed first, in
  ascending order, and new keys are appended instead. So for a flat record or normalised data with keys
  such as `"2"` and `"b"`, the model's key order and its `JSON.stringify` text can differ from the
  source's. This affects `KeyCalls`, `Normalize`, `Converted` and `Stringify`.
- Paging.PageAllDocs, Paging.PageFind: a failing `allDocs` or `find` request is caught, logged and issued
  again (client/src/app/sync/sync.service.ts:554-556), which loops forever while the failure lasts. The
  model takes every request as answered, so it always returns.
- SyncService.SyncService.DeleteArchivedDocs: a failing `db.remove` is swallowed and not counted
  (client/src/app/sync/sync.service.ts:579-581). The model takes every removal of an archived doc that is
  still present as successful and counts it.
- CompareDocs replication: `replicationFunction` is an unbound `this._push`/`this._pull`
  (client/src/app/sync/sync.service.ts:384,390), so `this` is undefined inside it. The model takes the
  replications' results as inputs and does not model that call.
- `getItemValue`: property names inherited from `Object.prototype` are not modelled.
- String and object values where the code iterates with `for … of`, `forEach` or `map`: the model
  treats these as throws, while JavaScript would iterate a string's characters.
- The `TANGY-LOCATION` branch of `generateFlatResponse`. It calls `tangyModules`, `path` and `groupId`,
  none of which the file defines. The model records it as one opaque `Location` call for the input.
- `tangyModules.setVariable` is assumed to assign `obj[key] = value` when the flat record is saved.
- Reading the group's exclusions from the groups database. The exclusions are a parameter.
- The `T_MYSQL_MULTI_PARTICIPANT_SCHEMA` setting, which is the parameter `multi`.
- The MySQL module's `boot`, `enable`, `groupNew` and `clearReportingCache` hooks,
  `insertGroupReportingViews`, `removeGroupForMySQL`, `initializeGroupForMySQL` and
  `startTangerineToMySQL`. These are shell commands, process spawning and file writing.
- Call order and timing of asynchronous work: every `await` is a sequential step.
- `client/src/app/core/sync-records/sync-records/sync-records.component.ts` is not part of this model.
  It is UI state with float percentages and a concurrent fan-out.
- `server/src/reporting/data-processing.js` is not part of this model. It is a promise wrapper around
  the database read and the module hook.
- `client/src/app/shared/_classes/app-config.class.ts` is not part of this model beyond its defaults.
  The configuration values it declares are inputs.
