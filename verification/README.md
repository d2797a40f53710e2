# Verified model of the Computer client

The application manages Computers: profiles with connection targets and Manager bindings, MCP
configuration and input definitions, runtimes, and their connections. A Rust backend changes
persistent stores under short locks, and does slow work between them; a TypeScript front end merges
replies and events that arrive in any order. This project models the protocols that hold the two
together, and proves what they promise over every run.

- `ContextDeparture`, with `ManagerBindings`: the cleanup of a departing Manager Context,
  interleaved with Computer duplication. Cleanups publish a tombstone and take a runtime list under
  the membership lease, then visit each Computer under its own gate; duplications copy with no lock
  held and read source and tombstones again when they publish.
- `ConfigImport`, with `InputDefinitions` and `InputText`: an import into two stores with a redo
  journal, where every write may fail, may fail after landing, or may be cut short by a crash, also
  during recovery and compensation.
- `ConnectionTargets`, with `ConnectionReservations`, `ConnectionRuns`, `ConnectionExample` and
  `ManualTargets`: the two-phase SMCP connect with in-memory reservations, a conflict check that reads
  one Computer at a time, network work outside all locks, and a commit that compares what it captured
  with what is stored, one read at a time under the Computer's gate and the target lock.
- `RuntimeObservations`: the versioned store of runtime snapshots and connection authority, with
  deletion and retirement fences, and the projections fed from it.
- `ComputerList`, with `ComputerListStore`: overlapping list, create, rename, delete, start, connect
  and metadata calls over the list of Computers, each `await` a yield point.
- `ComputerDeletion`: deleting a Computer with its input values, secrets, storage, profile and
  runtime, and the compensations when a part fails.
- `NoticeCounters`: buffered notice counters that are written in batches and answered in any order.
- `OAuthRows`: the OAuth status of the listed servers, from events and from overlapping lists.
- `AuthRetry`: the reconnect credential's retry loop and its seeded first answer.
- `CommandPreview`: truncation of a command's output to whole UTF-8 characters.
- `BridgeSessions`: reference-counted bridge sessions with asynchronous start and shutdown.

A protocol is a `State`, a `Step` datatype with `Enabled` and `Apply`, an invariant that every step
keeps, and run lemmas over `IsRun`, a finite sequence of steps from an initial state. Code that
changes fields in place is a class; its methods are proved against the functions that the
protocol's steps use. A write or call that may fail is a branch taken at will. Clocks, the network
and the SDK are such branches or parameters.

## Model

| member | source | states |
|---|---|---|
| ManagerBindings.DepartureEndsUse | src-tauri/src/commands/manager.rs:268-321 | the departure of a Context ends its use by a profile, begins the use of none, leaves auto-connection to other Contexts and the target alone, and is idempotent |
| ManagerBindings.UsesEndedByDeparture | src-tauri/src/commands/manager.rs:285-318 | exactly which uses of another Context a departure ends: the single binding that gives way when the profile targets the departing Context |
| ManagerBindings.DepartureKeepsRest | src-tauri/src/commands/manager.rs:268-321 | a departure loses nothing but the use: an unmentioned profile is unchanged, a binding for the Context stays as it is but dormant, and a target without such a binding gets a dormant one of its own employee and account |
| ManagerBindings.DeparturesEndUse | src-tauri/src/commands/computer.rs:606-614 | making every departing Context of a list dormant ends the use of each and begins none |
| ManagerBindings.ComputerInstance.MakeDormant | src-tauri/src/commands/manager.rs:268-321 | the edit in place is the profile function, and reports a change exactly when the profile mentions the Context |
| ManagerBindings.ProfileStore.PersistDormant | src-tauri/src/commands/manager.rs:126-177 | no diagnostic means dormant in store and runtime; a diagnostic with a working compensation means the stored profile is as before; other Computers are untouched |
| ContextDeparture.RefreshAuthority | src-tauri/src/commands/computer.rs:574-614 | the publication's loop sheds exactly the inherited Contexts with a tombstone from the refreshed copy, and what it leaves is the copy described by `RefreshedIsCopy` |
| ContextDeparture.RefreshedIsCopy | src-tauri/src/commands/computer.rs:571-614 | what is published has the target asked for or else the source's, auto-connects as the source does, or as it did when a target was asked for, unless its target is departing, and has the source's binding if that was to be copied, dormant if it is for a departing Context |
| ContextDeparture.RefreshSheds | src-tauri/src/commands/computer.rs:565-614 | a refreshed copy uses no Context that the latest source does not use, and none with a tombstone |
| ContextDeparture.RefreshIsFit | src-tauri/src/commands/computer.rs:531-614 | under the membership lease and the source's gate, what is about to be published uses nothing departed and nothing that an unfailed cleanup is removing |
| ContextDeparture.StepKeepsPublished | src-tauri/src/commands/manager.rs:179-248 | every step keeps published Computers free of departed Contexts, and of departing ones except where a cleanup still has to visit |
| ContextDeparture.StepKeepsTombstones | src-tauri/src/commands/manager.rs:213-248 | a running cleanup's Context has its tombstone, or has departed through another cleanup, or the cleanup has failed |
| ContextDeparture.NoAuthorityAfterCleanup | src-tauri/src/commands/manager.rs:213-248 | in every run, from the end of a cleanup without diagnostics until the Context is selected again, no published Computer is actively bound to it or auto-connects into it, duplicates included |
| ContextDeparture.PublicationIsCopy | src-tauri/src/commands/computer.rs:531-614 | in every run, the profile of a duplicate when it is published is such a copy of its source as the source is at that moment, for the tombstones of that moment |
| ContextDeparture.CleanupMarksExactly | src-tauri/src/commands/manager.rs:213-248 | a cleanup marks its Context and takes every published Computer; it unmarks the Context when it ends, if it has no diagnostic |
| ContextDeparture.VisitTouchesOneProfile | src-tauri/src/commands/manager.rs:126-177 | a visit that persists takes its own Computer's profile to the one without the Context, and no other profile is touched |
| InputDefinitions.ArgumentsRoundTripExactly | src-tauri/src/commands/inputs.rs:142-153 | decoding gives back every argument list of a length, in order, exactly when the length is at most 1,000,000 |
| InputDefinitions.ArgumentsRoundTrip | src-tauri/src/commands/inputs.rs:179-186 | six-digit zero-padded keys sort as numbers, so up to a million arguments come back in order |
| InputDefinitions.MillionthKeyMisplaced | src-tauri/src/commands/inputs.rs:149-149 | the key after the last six-digit one sorts before others: the concrete failure beyond the limit |
| InputDefinitions.ArgumentKeyWrites | src-tauri/src/commands/inputs.rs:151-151 | below a million, the key of an argument is six digits that write its index |
| InputDefinitions.ToSdkCarries | src-tauri/src/commands/inputs.rs:107-156 | the SDK input has the id, default, password, options, command and arguments under their keys, and as its text the first of label, description and id that is not blank |
| InputDefinitions.FromSdkCarries | src-tauri/src/commands/inputs.rs:158-195 | the definition read back has everything the SDK input has, its text as the label, and the arguments in the order of their keys |
| InputDefinitions.EncodingIsStable | src-tauri/src/commands/inputs.rs:107-204 | encoding, decoding and encoding again gives the first encoding, for every kind of definition with at most a million arguments |
| InputDefinitions.EncodingIsStableExactly | src-tauri/src/commands/inputs.rs:142-186 | a second encoding of an argument list gives the first one again, for every list of a length, exactly when the length is at most 1,000,000 |
| InputDefinitions.PrepareOne | src-tauri/src/commands/inputs.rs:221-286 | one definition is normalized, or refused for the reason its normal form has |
| InputText.TrimRemovesWhite | src-tauri/src/commands/inputs.rs:215-279 | trimming removes white space at the two ends, all of it, and nothing else |
| InputDefinitions.NormalizedKeeps | src-tauri/src/commands/inputs.rs:222-285 | normalizing trims optional texts, option labels and the command, drops blank texts, and keeps ids, passwords, option values, the default of a choice and arguments |
| InputDefinitions.AcceptedExactly | src-tauri/src/commands/inputs.rs:222-285 | exactly which definitions are accepted, said of the definition as it was given: no password with a default, options with labels and values and a default among them, a command and portable arguments |
| InputDefinitions.AcceptableExactly | src-tauri/src/commands/inputs.rs:207-290 | a list is accepted exactly when its ids are different, not empty and without white space at their ends, and no definition is refused by itself |
| InputDefinitions.PreparePortable | src-tauri/src/commands/inputs.rs:207-290 | a list is accepted exactly when no definition is refused given the ids before it, accepted lists are normalized, and an error is that of the first refused definition |
| InputDefinitions.PrepareIdempotent | src-tauri/src/commands/inputs.rs:207-290 | preparing what was prepared changes nothing |
| InputDefinitions.StoredDefinitionSurvives | src-tauri/src/commands/inputs.rs:158-195 | an accepted definition, read back from storage, is accepted again and stored as the same SDK input |
| InputDefinitions.StoredDefinitionSurvivesExactly | src-tauri/src/commands/inputs.rs:107-195 | read back and stored again, every accepted definition with a number of arguments is stored the same exactly when that number is at most 1,000,000 |
| InputDefinitions.Merge | src-tauri/src/commands/config_io.rs:206-211 | the loop that removes and appends by id is the merge by id |
| InputDefinitions.MergeIsReplacement | src-tauri/src/commands/config_io.rs:206-211 | merging distinct definitions keeps the others in order and appends the incoming ones in order |
| InputDefinitions.ImportKeepsOrder | src-tauri/src/commands/config_io.rs:198-214 | an import leaves a document with every argument list within the key width exactly when the lists it leaves alone and the lists it brings are |
| InputDefinitions.ImportReplays | src-tauri/src/commands/config_io.rs:458-473 | storing the same import again stores the same document, whatever the length of the imported lists |
| InputDefinitions.ImportReplaysExactly | src-tauri/src/commands/config_io.rs:458-473 | a replay changes nothing, for every document and import, exactly when the stored argument lists that the import leaves alone have at most 1,000,000 arguments |
| InputDefinitions.ImportedDocumentExists | src-tauri/src/commands/inputs.rs:1213-1214 | an accepted import is refused by a document exactly when the definitions it would leave alone are refused by themselves |
| ConfigImport.UpsertTwice | src-tauri/src/commands/config_io.rs:474-476 | importing the same servers by name again changes nothing, whatever subset had arrived |
| ConfigImport.UpsertHoldsServers | src-tauri/src/commands/config_io.rs:264-267 | after the upsert the names are the old ones and the imported ones, each imported name has the body of its last server, and every other name its old body |
| ConfigImport.AppliedHolds | src-tauri/src/commands/config_io.rs:455-476 | an applied transaction leaves its servers stored by name, and a document of the definitions left alone followed by the imported ones, each encoded |
| ConfigImport.ComputerFiles.ImportServers | src-tauri/src/commands/config_io.rs:264-267 | all servers stored by name, or none; nothing changes when it reports a failure |
| ConfigImport.RedoAbsorbs | src-tauri/src/commands/config_io.rs:434-486 | from any state in which each store is as before or as after, redoing the transaction gives exactly the transaction applied to the state before |
| ConfigImport.ComputerFiles.ReplaceInputs | src-tauri/src/commands/inputs.rs:1208-1239 | the four outcomes of replacing the document: replaced with its snapshot, unchanged, reverted, or uncertain |
| ConfigImport.ApplicableExactly | src-tauri/src/commands/config_io.rs:455-473 | a journaled transaction cannot be applied exactly when the stored definitions it would leave alone are refused by themselves |
| ConfigImport.ComputerFiles.Recover | src-tauri/src/commands/config_io.rs:434-486 | recovery interrupted or failed anywhere never changes what recovery leads to; completed, it leaves exactly that and no pending journal, with every server of the transaction stored by name and its definitions after the others; with a transaction that cannot be applied it never completes, and changes nothing |
| ConfigImport.ComputerFiles.Abort | src-tauri/src/commands/config_io.rs:337-357 | a recorded rollback leads to the stores as before; an unrecorded one to before or after |
| ConfigImport.ComputerFiles.Finish | src-tauri/src/commands/config_io.rs:359-376 | whether or not the phase is recorded or the journal removed, recovery leads to the whole import |
| ConfigImport.ComputerFiles.WriteServers | src-tauri/src/commands/config_io.rs:262-292 | the second store's failure is compensated in the first, or the journal is retained and redoes the whole import |
| ConfigImport.ComputerFiles.WriteInputs | src-tauri/src/commands/config_io.rs:236-260 | the first store written, reverted, or left uncertain, with a journal that leads to before or after accordingly |
| ConfigImport.ComputerFiles.Import | src-tauri/src/commands/config_io.rs:175-302 | crash-atomic: recovery leads to the stores as before or to the whole import, to the whole import after success, and to the stores as before after a refusal or a recorded rollback; after success each imported name has the body of its last server and each other name its old one, and the definitions imported follow those left alone; a journal that cannot be recovered is left only by an unrecorded rollback, an unprepared journal or a crash, of inputs the document refuses, and every later import is then rejected with nothing changed |
| ConfigImport.InOrderSessionReplayable | src-tauri/src/commands/config_io.rs:175-302 | a document and requests within a million arguments a list make a session in which every import finds what it needs to be replayed |
| ConfigImport.ComputerFiles.Session | src-tauri/src/commands/config_io.rs:175-302 | over any session of imports with failures, crashes and recoveries, the stores are as if a subset of the imports, including all that reported success and none refused or rolled back, had happened completely and in order; right after each import that reported success, its servers and definitions are in the stores |
| ConnectionReservations.KeysMeet | src-tauri/src/commands/connection.rs:2478-2480 | two attempts share a reservation key exactly when they share the target or the office; a target key is never an office key |
| ConnectionReservations.ReservationMap.Reserve | src-tauri/src/commands/connection.rs:2472-2500 | reserves both keys or none, exactly when neither is taken; a refusal names the owner of a taken key |
| ConnectionReservations.ReservationMap.Drop | src-tauri/src/commands/connection.rs:2441-2453 | frees the reservation's keys as far as they are its owner's, and nothing else |
| ConnectionRuns.StepKeepsReservations | src-tauri/src/commands/connection.rs:2434-2500 | the map is exactly the union of the live reservations, each key under its owner and held by one attempt only |
| ConnectionRuns.LiveReservationsDisjoint | src-tauri/src/commands/connection.rs:2478-2492 | two attempts that hold reservations compete neither for a target nor for an office |
| ConnectionRuns.LearntIsClear | src-tauri/src/commands/connection.rs:708-754 | what the check has found out about another Computer, reading lifecycle and connection apart, is true when found |
| ConnectionRuns.ReservingExactly | src-tauri/src/commands/connection.rs:2472-2500 | reserving starts the check of every Computer, unless the target or the office is taken; then nothing is reserved and the attempt fails |
| ConnectionRuns.BlocksExactly | src-tauri/src/commands/connection.rs:744-754 | a connection blocks in the states a runtime can be connected in, save that a Computer that is only started is not blocked by its own |
| ConnectionRuns.ReadingDecides | src-tauri/src/commands/connection.rs:2406-2432 | what reading a Computer's connection decides: its own to the wanted target ends a manual attempt and leaves a Manager's its commit; its own to another target, or another's to the same target or office, makes the attempt clear up; otherwise the check goes on |
| ConnectionRuns.StepKeepsClear | src-tauri/src/commands/connection.rs:521-538 | a conflict check made under a reservation stays valid until the install, whatever other Computers do |
| ConnectionRuns.NoDoubleBooking | src-tauri/src/commands/connection.rs:521-574 | in every run, two connected Computers have different targets and different offices |
| ConnectionRuns.StepKeepsLocks | src-tauri/src/commands/connection.rs:661-662 | a committing attempt holds its Computer's gate, and a manual one the target lock, until it lets them go itself |
| ConnectionRuns.CommitKeepsOtherComparisons | src-tauri/src/commands/connection.rs:661-662 | what one commit has compared is untouched by every step of another commit, which writes under another gate |
| ConnectionRuns.StepKeepsComparisons | src-tauri/src/commands/connection.rs:661-697 | record, API key and profile stay as compared while the commit goes on: catalog changes wait for the target lock, profile edits and removals for the gate |
| ConnectionRuns.ApplicationIsCommit | src-tauri/src/commands/connection.rs:690-706 | at the last step of a commit, everything it compared several steps before is still what is stored |
| ConnectionRuns.ApplicationKeepsCatalog | src-tauri/src/commands/connection.rs:652-706 | the last step of a commit leaves a connection whose target is in the catalog and that no running deletion has passed over |
| ConnectionRuns.StepKeepsCatalog | src-tauri/src/commands/connection.rs:252-299 | every step, the deletion's separate reads included, keeps the targets of committed connections in the catalog |
| ConnectionRuns.CommittedTargetExists | src-tauri/src/commands/connection.rs:248-303 | in every run, a committed manual connection's target is in the catalog as long as the connection lasts |
| ConnectionRuns.SuccessExplained | src-tauri/src/commands/connection.rs:521-609 | every attempt that succeeds was made with exactly the record, API key and profile stored at the last step of its commit, or is a manual one that found its own Computer already connected to the wanted target |
| ConnectionRuns.CompletedAsStored | src-tauri/src/commands/connection.rs:661-706 | an attempt that succeeds without having found itself connected was made with exactly what was stored at the last step of its commit |
| ConnectionRuns.SuccessHasConnection | src-tauri/src/commands/connection.rs:521-563 | every attempt that succeeds, manual or a Manager's, installed its own connection for what it wanted, or read its own Computer as connected to the wanted target |
| ConnectionRuns.RefusedNeverSucceeds | src-tauri/src/commands/connection.rs:2415-2422 | an attempt refused by its check, in particular one whose own Computer is connected to another target, never succeeds |
| ConnectionRuns.CommittedProfile | src-tauri/src/commands/connection.rs:2389-2399 | the stored profile after a commit: the attempt's own target, a Manager's own binding, and the rest as captured |
| ConnectionRuns.BeginningCaptures | src-tauri/src/commands/connection.rs:453-499 | an attempt starts with the record, API key and profile stored at that moment, and owns its Computer's operation |
| ConnectionRuns.CommitAloneExactly | src-tauri/src/commands/connection.rs:652-706 | a commit that nothing interrupts succeeds if and only if operation, record, API key and profile are as captured; its profile is then stored and its locks are free again |
| ConnectionRuns.AbandonmentRestores | src-tauri/src/commands/connection.rs:696-704 | an abandoned commit frees its locks and changes no other Computer; if its profile was saved and the restoration works, the captured profile is back |
| ConnectionRuns.ClearingDisconnects | src-tauri/src/commands/connection.rs:602-606 | clearing up, while the operation is the attempt's and there is a transport, disconnects its Computer and no other |
| ConnectionRuns.SettlingFrees | src-tauri/src/commands/connection.rs:610-623 | an attempt that settles gives its operation back; a failed one leaves no connection |
| ConnectionRuns.CatalogStepsExactly | src-tauri/src/commands/connection.rs:180-303 | a save stores the record and key asked for, a deletion without a fault removes both, and no other target is touched |
| ConnectionRuns.CommittedAsStored | src-tauri/src/commands/connection.rs:540-609 | every connection that is committed in any state of any run was made with exactly what was stored when it committed, and its record is still the stored one unless another was saved since |
| ConnectionExample.SuccessOnEditedTarget | src-tauri/src/commands/connection.rs:470-478 | a run in which a second connect reports success on a committed connection whose record has been edited: the check compares target ids only |
| ManualTargets.TargetStore.Save | src-tauri/src/commands/connection.rs:180-238 | success stores the record with the key asked for; an error leaves the catalog, and the key too unless its own write or its restoration failed |
| ManualTargets.TargetStore.Delete | src-tauri/src/commands/connection.rs:248-303 | refused exactly while a runtime is connected to it; success removes record and key; an error leaves the record, and the key too unless its deletion or restoration failed |
| RuntimeObservations.ShouldAccept | src/stores/runtimeSnapshot.ts:155-170 | the branches accept exactly a first snapshot or one greater by (incarnation, generation, revision) |
| RuntimeObservations.KeepsCurrent | src/stores/connectionAuthority.ts:103-128 | the rejection test keeps the current authority exactly when the incoming one is not greater by (incarnation, connection revision, generation, snapshot revision) |
| RuntimeObservations.RunKeepsFencesAndAgreement | src/stores/runtimeStore.ts:178-304 | after every operation of a run, the live, retired and deleted maps are disjoint, the shown snapshot is the authoritative one, and the status shows, field by field, the authority of the live incarnation, or a plain disconnected status when there is none of it, or nothing when nothing is live |
| RuntimeObservations.AgreementShows | src/stores/connectionStore.ts:60-95 | a projected status shows the authority of the live incarnation field by field, connected exactly when it says so, and otherwise a plain disconnected status |
| RuntimeObservations.AdmissionExactly | src/stores/runtimeSnapshot.ts:196-224 | a snapshot is accepted exactly when it is past both fences and newer than the live one; acceptance lifts the fences, and rejection changes nothing |
| RuntimeObservations.EvictionExactly | src/stores/runtimeStore.ts:280-291 | the deletion fence is the greatest incarnation known of the id, and nothing else stays |
| RuntimeObservations.ForgettingExactly | src/stores/runtimeStore.ts:293-304 | forgetting retires the live incarnation, or keeps the fences as they are |
| RuntimeObservations.ProposalDescribes | src/stores/connectionAuthority.ts:96-154 | the authority proposed has every observed field, or those derived from the runtime for the older form of input, and the runtime's version |
| RuntimeObservations.RejectionChangesNothing | src/stores/runtimeSnapshot.ts:196-224 | given disjoint fences, a rejected snapshot leaves snapshot and fences as they were |
| RuntimeObservations.RejectionOpensOverlappingFence | src/stores/runtimeSnapshot.ts:202-215 | with both fences in place, a rejected rediscovery would open the deletion fence: why disjointness is needed |
| RuntimeObservations.FenceLiftedOnlyByAcceptance | src/stores/runtimeSnapshot.ts:202-223 | a deletion fence is lifted only by accepting a trusted rediscovery with a strictly newer incarnation |
| RuntimeObservations.AcceptedVersionsIncrease | src/stores/runtimeSnapshot.ts:196-280 | over any run, the versions accepted for an id strictly increase, across forgetting and eviction |
| RuntimeObservations.ObservationsExplained | src/stores/runtimeStore.ts:178-278 | after any sequence of observations, the snapshot is the greatest eligible one and the authority the greatest eligible one in its own order |
| RuntimeObservations.Convergence | src/stores/runtimeStore.ts:178-278 | the same observations, from events, lists and the dashboard, in any order and with any repetition, end in the same state, from any state the store can be in |
| RuntimeObservations.MixedTrustCommutesExactly | src/stores/runtimeSnapshot.ts:202-216 | behind a deletion fence, a trusted rediscovery and an event commute exactly when the event is no news after it, by snapshot or by connection: why trust has to be uniform there |
| RuntimeObservations.MixedDashboardCommutesExactly | src/stores/dashboardStore.ts:124-129 | the same for the dashboard, whose connection counts in either order: they commute exactly when its snapshot is not the newer one |
| RuntimeObservations.RecordsConverge | src/stores/runtimeStore.ts:306-372 | the same for each instance of a mixed stream of records |
| RuntimeObservations.RuntimeStores.Accept | src/stores/runtimeSnapshot.ts:196-224 | the update of the three maps is the admission function, and touches no other id |
| RuntimeObservations.RuntimeStores.SetAuthority | src/stores/connectionAuthority.ts:89-155 | the authority kept or replaced; a new one has the observed fields and the runtime's version, with context only when present and operation target only during an operation |
| RuntimeObservations.RuntimeStores.ApplyConnectionAuthority | src/stores/runtimeStore.ts:142-156 | the authority is set exactly when no fence and no newer live incarnation is in the way |
| RuntimeObservations.RuntimeStores.ReceiveSnapshot | src/stores/runtimeStore.ts:178-216 | acceptance, authority, shown snapshot and status after one snapshot, the status field by field as the authority of the live incarnation has it, and nothing of other ids |
| RuntimeObservations.RuntimeStores.EvictSnapshot | src/stores/runtimeStore.ts:280-291 | a deletion fence at the greatest incarnation known, and nothing else kept of the id |
| RuntimeObservations.RuntimeStores.ForgetSnapshot | src/stores/runtimeStore.ts:293-304 | a retirement fence at the incarnation forgotten, and the deletion fence kept |
| RuntimeObservations.RuntimeStores.ReceiveRecords | src/stores/runtimeStore.ts:361-372 | the loop over a list of records is, for each id, its observations in order |
| ComputerList.StepKeepsFences | src/stores/computerStore.ts:271-388 | every step keeps fenced ids without a row, and every fence at or above the Computer's first incarnation |
| ComputerList.StepKeepsFence | src/stores/computerStore.ts:285-302 | only a list issued after the deletion was confirmed, with an incarnation above the fence, opens it: no event, mutation response, creation or earlier list does |
| ComputerList.DeletionPutsUpFence | src/stores/computerStore.ts:651-655 | the fence is no lower than the shown, live, retired and previously deleted incarnations |
| ComputerList.DeletedStaysAway | src/stores/computerStore.ts:629-678 | in every run, from the moment a deletion takes effect the Computer is absent from the list until it is rediscovered above its fence |
| ComputerList.AppliedListIsFresh | src/stores/computerStore.ts:390-461 | a list that takes effect was issued and read no earlier than every mutation response applied and every deletion confirmed |
| ComputerList.ListIsNoOlderThanResponse | src/stores/computerStore.ts:390-520 | a list that takes effect after a mutation response was read no earlier than that response |
| ComputerList.OvertakenListIsDropped | src/stores/computerStore.ts:390-427 | in every run, a list in flight when another list begins, or a mutation of profiles, never changes the rows |
| ComputerList.SupersededAnswerIsDropped | src/stores/computerStore.ts:484-498 | in every run, an answer about a Computer's profile that is in flight when a newer mutation, metadata reading or deletion of that Computer begins, or its deletion is confirmed, never settles on its row |
| ComputerList.StepKeepsTimes | src/stores/computerStore.ts:394-401 | a call whose completion and deletion revisions are still current was issued after everything applied or confirmed |
| ComputerList.StepKeepsCounters | src/stores/computerStore.ts:545-552 | the pending counter is the number of mutations in flight, the clamp at zero never acts, and `loading` is on while it is positive and otherwise only for the latest list |
| ComputerList.RowsMoveForward | src/stores/computerStore.ts:310-388 | no step shows an older runtime snapshot of a row that stays |
| ComputerList.SettledListIsShown | src/stores/computerStore.ts:372-447 | a current list that settles shows exactly the reported ids without a deletion fence, each with the reported name and policy and the newest of the shown, reported and live snapshots; an overtaken one changes nothing |
| ComputerList.SettledMutationIsShown | src/stores/computerStore.ts:353-370 | a mutation's answer shows the reported row, or for a runtime action its snapshot only, and no other row changes; a superseded profile mutation changes nothing |
| ComputerList.MetadataIsShown | src/stores/computerStore.ts:484-498 | metadata changes the policy of its row only, and only for the newest request of the newest mutation |
| ComputerList.DeletionIsShown | src/stores/computerStore.ts:651-663 | a deletion takes its row away and touches no other Computer |
| ComputerList.ListIsAnswered | src/stores/computerStore.ts:408-420 | a list still current when answered goes on, first to forget exactly the rows it does not report |
| ComputerList.ListIsTakenIn | src/stores/computerStore.ts:412-428 | a current list forgets the missing ids, then takes in every status as trusted to rediscover; an overtaken one changes nothing |
| ComputerList.AnswerIsTakenIn | src/stores/computerStore.ts:271-283 | a mutation's answer goes through the observation store of its id, where only a creation may open a fence, and a row there shows what has become live |
| ComputerList.EventIsTakenIn | src/stores/runtimeStore.ts:218-262 | a runtime event goes through the store of its id and shows in its row if there is one; no other id changes |
| ComputerListStore.UpsertedListShows | src/stores/computerStore.ts:353-359 | upserting in the ordered list is upserting in the map of rows |
| ComputerListStore.FindInReconciled | src/stores/computerStore.ts:372-388 | reconciling in the backend's order without deleted ids is reconciling the map of rows |
| ComputerListStore.ReconciledOrder | src/stores/computerStore.ts:372-385 | the ids of the reconciled list are the backend's, in its order, without the fenced ones |
| ComputerListStore.IngestedAllGrows | src/stores/computerStore.ts:294-301 | receiving one more status of a list is the step from its shorter to its longer prefix, in whatever order |
| ComputerListStore.ComputerStore.ReceiveStatus | src/stores/computerStore.ts:271-283 | one status through the runtime store, and its announcement to the rows |
| ComputerListStore.ComputerStore.IngestStatuses | src/stores/computerStore.ts:285-302 | every status of a current list is received; of a list no longer current, none |
| ComputerListStore.ComputerStore.ForgetMissing | src/stores/computerStore.ts:412-422 | exactly the ids the list no longer reports are forgotten |
| ComputerListStore.ComputerStore.ReconcileInstances | src/stores/computerStore.ts:427-447 | after a list takes effect the rows are the reported ids without a fence, in the backend's order, each with the reported name and policy and the newest snapshot known; and the selection |
| ComputerListStore.ComputerStore.UpsertInstance | src/stores/computerStore.ts:353-359 | after a mutation response the row has the reported name and policy and the newest snapshot known, unless the id is fenced; other rows stay |
| ComputerListStore.ComputerStore.RemoveInstance | src/stores/computerStore.ts:653-663 | the fence put up, the row removed and the selection moved after a deletion |
| ComputerDeletion.StoredComputer.SnapshotInputs | src-tauri/src/commands/computer.rs:874-926 | one snapshot for every entry, of what its own store holds |
| ComputerDeletion.AdoptionKeeps | src-tauri/src/commands/computer.rs:899-905 | the migration before the listing keeps values, SDK files and every entry, and makes each value without an entry a plain one |
| ComputerDeletion.StoredComputer.DeleteInputs | src-tauri/src/commands/computer.rs:928-945 | success deletes every value and secret named; a failure midway touches nothing that is not named |
| ComputerDeletion.StoredComputer.RestoreInputs | src-tauri/src/commands/computer.rs:947-972 | success makes every value and secret named what its snapshot holds, present or absent |
| ComputerDeletion.RestoredIsSame | src-tauri/src/commands/computer.rs:928-972 | however many values were deleted, a complete restoration gives back the same map |
| ComputerDeletion.StoredComputer.RestoreStorage | src-tauri/src/commands/computer.rs:800-836 | the quarantined storage first and the inputs into it, going on after a failure |
| ComputerDeletion.StoredComputer.RemoveParts | src-tauri/src/commands/computer.rs:776-860 | from the first deletion on, everything snapshotted is gone or everything is back, unless a compensation failed |
| ComputerDeletion.StoredComputer.Delete | src-tauri/src/commands/computer.rs:760-860 | an error leaves profile, storage, values, secrets and runtime as they were, with every old entry and each value without one made a plain entry, unless it reports, exactly when one did, that a compensation failed as well; success leaves no profile, storage, runtime or value, and of the secrets exactly those that no entry named |
| NoticeCounters.StepKeepsAccounts | src/stores/uiNoticeStore.ts:51-78 | events at the start and recorded, and those applied twice, are those pending, in flight and counted by the server |
| NoticeCounters.StepKeepsDisplay | src/stores/uiNoticeStore.ts:82-97 | no more is shown than is counted, in flight or pending |
| NoticeCounters.StepKeepsCatchingUp | src/stores/uiNoticeStore.ts:144-208 | what is counted but not shown is still pending, or an answer in flight will show it or put it back |
| NoticeCounters.NeverShowsMore | src/stores/uiNoticeStore.ts:131-208 | in every run, no counter shows more than the events of all time and those applied twice |
| NoticeCounters.QuietIsExact | src/stores/uiNoticeStore.ts:131-208 | with nothing pending or in flight and one answer merged, the display is the server's count, which is every event and every event applied twice, for any order of answers and any failures |
| NoticeCounters.SendingTakes | src/stores/uiNoticeStore.ts:51-68 | a flush sends everything pending, and a dismissal what is pending of its notice, and exactly that is gone from the buffer |
| NoticeCounters.AnswersSettle | src/stores/uiNoticeStore.ts:71-97 | an answer is merged count by count as the greater, a failure puts back what was sent, and the server adds what it is sent |
| NoticeCounters.NoticeStore.TakePending | src/stores/uiNoticeStore.ts:51-59 | one notice's counters are taken and gone from the buffer |
| NoticeCounters.NoticeStore.TakeAllPending | src/stores/uiNoticeStore.ts:61-68 | everything pending is taken, count by count, and no notice without events is sent |
| NoticeCounters.NoticeStore.RestorePending | src/stores/uiNoticeStore.ts:71-78 | a failed batch is added back to what came in since |
| NoticeCounters.NoticeStore.MergeServerEntries | src/stores/uiNoticeStore.ts:82-97 | every counter becomes the greater of the two sides |
| NoticeCounters.NoticeStore.RecordImpression | src/stores/uiNoticeStore.ts:176-185 | one impression more, buffered and shown, of one notice only |
| NoticeCounters.NoticeStore.RecordHelpClick | src/stores/uiNoticeStore.ts:187-196 | one help click more, buffered and shown, of one notice only |
| OAuthRows.StepKeepsRequests | src/stores/mcpStore.ts:206-217 | a reply that will be listed is no older than the events delivered before its request, and for later ones the store remembers the newer status |
| OAuthRows.StepKeepsRows | src/stores/mcpStore.ts:233-300 | every step keeps each row between the last delivered event and the backend's status |
| OAuthRows.RowsNeverOlderThanEvents | src/stores/mcpStore.ts:422-442 | in every run, no row of the active Computer is older than the last event delivered for its bundle |
| OAuthRows.RowsConverge | src/stores/mcpStore.ts:206-300 | once all events are delivered, every row shows the current status, even with lists still in flight |
| OAuthRows.ListedTakesEffect | src/stores/mcpStore.ts:206-263 | an applied list has exactly the fetched bundles in order, each with the fetched status or that of an event newer than the request; any other reply changes nothing |
| OAuthRows.ReceivedTakesEffect | src/stores/mcpStore.ts:422-442 | an event of the active Computer sets the status of the rows of its bundle and is remembered; it adds, removes and moves no row |
| OAuthRows.FetchingKeepsRows | src/stores/mcpStore.ts:233-248 | a request for the active Computer keeps its rows and memory, a switch clears both |
| OAuthRows.McpStore.FetchServers | src/stores/mcpStore.ts:233-250 | the switch of Computer clears rows and remembered events; what the continuation compares is captured |
| OAuthRows.McpStore.ReceiveServers | src/stores/mcpStore.ts:251-266 | a reply takes effect only for the newest request of the active Computer: the rows are then the fetched ones in order, a newer event's status kept; a full request ends loading, a rehydration does not |
| OAuthRows.McpStore.FailServers | src/stores/mcpStore.ts:267-275 | a failed reply settles the flags only of the newest full request, and no row |
| OAuthRows.McpStore.ApplyOAuthStatusEvent | src/stores/mcpStore.ts:422-442 | an event of the active Computer updates every row of its bundle and is remembered under a new epoch; another Computer's changes nothing |
| AuthRetry.Retry | src-tauri/src/commands/connection.rs:1960-2132 | a token is returned exactly when the first exchange that is not transient succeeds; the n-th wait has its closed form; exactly the attempts at powers of two warn, floor(log2 n) + 1 of the first n |
| AuthRetry.WaitIsCapped | src-tauri/src/commands/connection.rs:2107-2108 | with an initial delay within the maximum, the n-th wait is the initial delay doubled n times, capped |
| AuthRetry.DoublingStep | src-tauri/src/commands/connection.rs:2107-2108 | saturating doubling and capping, iterated, is the closed form |
| AuthRetry.PowerOfTwoIsPow2 | src-tauri/src/commands/connection.rs:59-61 | the sampling test is being a power of two |
| AuthRetry.LogStepsAtPowers | src-tauri/src/commands/connection.rs:2065-2088 | the number of warnings grows exactly at the powers of two |
| AuthRetry.SeedSuppliedOnce | src-tauri/src/commands/connection.rs:2134-2187 | over any number of calls the seed is supplied exactly once, and first |
| CommandPreview.Utf8IsEncoding | src-tauri/src/commands/inputs.rs:1126-1136 | the byte syntax of RFC 3629 section 4 admits exactly the encodings of section 3 |
| CommandPreview.BoundariesArePrefixes | src-tauri/src/commands/inputs.rs:1132-1132 | in valid text, a character boundary is exactly the end of a valid prefix |
| CommandPreview.BoundaryNearby | src-tauri/src/commands/inputs.rs:1131-1134 | there is a boundary within any four consecutive places, so the loop neither underflows nor drops more than three bytes |
| CommandPreview.Truncate | src-tauri/src/commands/inputs.rs:1126-1136 | the longest valid prefix of at most 65536 bytes, at most three bytes short of the limit when cut, and truncation reported exactly when something was cut |
| BridgeSessions.ReferencesAreExact | src/services/managerTokenBridge.ts:281-323 | in every run, a session's references are its waiting calls and undisposed handles, and never run below zero |
| BridgeSessions.OneListeningSession | src/services/managerTokenBridge.ts:251-323 | in every run, at most one session has listeners |
| BridgeSessions.HandlesAreServed | src/services/managerTokenBridge.ts:299-321 | an undisposed handle's session is the active one, has all its listeners and is not shutting down |
| BridgeSessions.NoListenerSurvives | src/services/runtimeInputBridge.ts:50-121 | no listener survives a shutdown or a failed start |
| BridgeSessions.StepKeepsSession | src/services/runtimeInputBridge.ts:78-121 | every step, failures of the start included, keeps the session invariant |
| BridgeSessions.BridgeModule.Initialize | src/services/managerTokenBridge.ts:281-288 | waits for a running shutdown, or joins the active session, or creates one under a new lease |
| BridgeSessions.BridgeModule.StartRejected | src/services/managerTokenBridge.ts:289-297 | the reference is given back, and the last one gives up the active session |
| BridgeSessions.BridgeModule.Dispose | src/services/managerTokenBridge.ts:299-321 | the last reference starts the shutdown; disposing again does nothing |

## Left out

- ContextDeparture: tombstones live in memory, so the runs are those of one process; a Computer copied but not yet published when the application stops, and loaded at the next start, is outside them. Commands that select a Context while it is being cleaned up are excluded, as the Manager generation commit excludes them.
- ContextDeparture: of a profile only the connection policy and the Manager binding are kept; the file tree copy is one slow step that may fail.
- ConfigImport: the SDK's server import is one atomic step; its preparation and its preflight are branches that may refuse; other edits between a retained journal and its recovery are not fenced by the code and are not part of the runs.
- ConfigImport.ComputerFiles.Import: requires that the stored argument lists it leaves alone have at most a million arguments; `InputDefinitions.ImportReplaysExactly` shows that this is exactly where a replay stops being harmless.
- ConfigImport.ComputerFiles.Session: requires the same of each import in it, whatever was included before; `InOrderSessionReplayable` gives the simple condition.
- ConfigImport.RedoAbsorbs: requires the same of the document it starts from.
- ConfigImport.ComputerFiles.Recover: the preparation and the preflight of servers are branches that may refuse.
- InputDefinitions.StoredDefinitionSurvives: requires an argument list of at most a million; `StoredDefinitionSurvivesExactly` shows that this is the exact limit.
- InputDefinitions.ImportReplays: requires the same of the stored lists the import leaves alone.
- InputDefinitions: portability of command arguments is a parameter, any predicate on the list.
- ConnectionTargets: a runtime that leaves the states in which it can be connected loses its connection, and a runtime is current until its Computer is removed; lifecycle, disconnect and loss of an operation are steps of the environment at any time.
- ConnectionRuns.CompletedAsStored: speaks of attempts that did not find their own Computer connected to the target; those that did report success without a comparison, and `ConnectionExample.SuccessOnEditedTarget` is a run where the connection is not as stored.
- ConnectionTargets: the Manager generation lock around a Manager connect is not modelled: its steps interleave freely.
- ConnectionTargets: a deletion's two writes, and a save's, are one step each under the target lock; `ManualTargets` has them one by one.
- ManualTargets: normalisation of a target and the choice of its id happen before the model begins.
- RuntimeObservations.RuntimeStores.ReceiveSnapshot: the refresh of consumers that follow configuration and capability revisions.
- RuntimeObservations: the global clear, the event history kept for display, and resubscription after a lost event stream.
- ComputerListStore.ComputerStore.UpsertInstance: the connection fields of a row, and the selection of a created Computer.
- ComputerListStore.ComputerStore.ReconcileInstances: the connection fields of rows.
- ComputerList: of a row only name, connection policy and runtime snapshot are kept; connection fields of rows, error texts, form normalisation and the ends of calls that throw after taking effect are left out. A Computer is created once under a fresh id, and its creation is answered with its first incarnation.
- ComputerList: the ordered list is related to the map of rows in `ComputerListStore`; the run lemmas speak of the map.
- ComputerDeletion.StoredComputer.SnapshotInputs: the legacy migration before the listing is `AdoptValues`, for plain values only.
- ComputerDeletion.StoredComputer.Delete: legacy secrets without an entry, and the obsolete input sidecar, are outside its promise.
- ComputerDeletion: of the legacy migration, only the adoption of plain values that no entry owns is kept; legacy secrets are not part of it. Restoring the profile after a failed removal of the runtime restores the profile record; the obsolete input sidecar, which comes back empty, is not part of a profile here.
- NoticeCounters.NoticeStore.MergeServerEntries: first-seen and dismissal times, which the server's value wins.
- NoticeCounters: dismissal times, the first-seen time and the limit on the number of notices; the flush threshold only decides when a flush happens, and a flush may happen at any time here.
- OAuthRows.McpStore.FetchServers: the error text.
- OAuthRows: events arrive in order and none is dropped; the resynchronisation after dropped events is a list request like any other.
- AuthRetry: time is not modelled, delays are numbers of nanoseconds; the attempt counter is unbounded, and so never overflows.
- BridgeSessions: token sources, completion of single requests, and unlisten functions that throw.
- Activity and audit records, log text and redaction, the component tree, and the single-counter stores (activity, debug, settings, desktop, navigation): they would add easy members only.
