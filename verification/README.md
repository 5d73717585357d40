# Alvyn: a verified model of the event store

Alvyn keeps event streams in PostgreSQL. Writers reserve global positions before they
commit; projections, subscriptions and page readers walk those positions with cursors, and
must never step over a position that can still appear. This project models that protocol
and the parts of the store that lean on it, and proves what they promise. Verify it with
`dafny verify dfyconfig.toml`.

## What is modelled

**The commit-order protocol** (`CommitOrder*.dfy`) is a transition system. Any number of
write transactions append any number of times to any streams, statement by statement and row
by row; any number of certifiers run `computeSafeWatermark` between those steps. The state
holds the position counter, the committed events, idempotency keys and outbox, the certified
watermark, the stream locks (by hash, so two streams may share a lock), the position fence
and the certifiers' lock. READ COMMITTED means that a statement sees the committed rows and
those of its own transaction; COMMIT publishes rows and releases locks in one step; a step
that would have to wait is not enabled. A call that throws before it wrote anything may be
caught by the caller, whose transaction goes on; a failed statement leaves only ROLLBACK.
`CommitOrderSafety` holds the invariant, `CommitOrderSteps` and `CommitOrderCertificates`
show that every step keeps it, `CommitOrderTheorems` draws the conclusions. `AppendRuns` says what
becomes of a call that nobody stands in the way of. `AppendCalls*.dfy` put `EventStore.append` on
top: the call for the events and the snapshot appends behind it, in the store's own transaction
or its caller's; its runs are runs of the protocol.

**Projections and subscriptions** (`Consumers*.dfy`) run beside that system, each with any
certificate returned so far, however stale, and with competing runners, failing handlers and
subscribers that stop anywhere. `ConsumersProgress` shows that they get on.

**Cursor paging** (`Enumeration`, `StableSort`, `ReadEventsPage`, `PagingOverRuns`): per-stream
top-k, merge, global top-k under a frozen (watermark, snapshot) boundary, and the same over runs
of the protocol. The stream sets of cursor and request are compared as copies sorted stably with
`localeCompare`, which may be any consistent comparison.

**Field encryption** (`FieldPaths`, `JsonTree`, `JsonErasure`, `JsonNodes`, `FieldEncryptor`,
`FieldDecryption`): get, set and remove by dot path, as functions on trees and in place on an
object graph that they are proved equal on, with arrays that grow, are cut by their length and carry
further properties; the overlap check; encryption, decryption and redaction with entries coming
back in any order. The cipher is an ideal sealed box over key, additional data and plaintext.

**Events and keys** (`EventRows`, `CryptoKeys`, `KeyEnvelope`, `KeyLifecycle*.dfy`): preparing
and reading a row, the key rows shared by replicas with different secrets and current
versions, and what every stored event reads as in every reachable state. A writer may go on
after an append that could not lock a key or prepare an event. `KeyLifecycleProgress` shows that
keys can be created, used and revoked, and what that leads to.

**Snapshots** (`Snapshots`, `SnapshotBound`, `SnapshotRegistries`): when a load equals replay of
the whole stream, and exactly which registries keep the number of replayed events below the
quota. A snapshot event reads back as what JSON makes of the state it stored.

**Upcasters, outbox, filters, lock order** (`UpcasterRegistry`, `OutboxInsert`, `EventInsert`,
`OutboxRelay`, `SubjectFilter`, `LockOrder`).

Events are identified with their positions in a table `map<position, row>`; `Select` is the
`WHERE ... ORDER BY global_position` read. `Runs` and `After` say that a sequence of steps is
possible from a state and where it ends; `IsReachable` is reachability from the empty store.

## Model

| member | source | states |
|---|---|---|
| CommitOrderTheorems.WatermarkFinality | src/stream/compute-safe-watermark.ts:41-75 | from every reachable state, over every continuation with any writers, rollbacks and certifiers, no row at or below a returned or stored certificate is ever added or changed, and the stored certificate never decreases |
| CommitOrderTheorems.CertificatesNeverDecrease | src/stream/compute-safe-watermark.ts:51-71 | values returned by completed certifications ascend, also when a certifier rolls back after setval |
| CommitOrderTheorems.QuietCertification | src/stream/compute-safe-watermark.ts:57-68 | with no transaction holding the fence, one certification returns and stores the highest committed position: finality is not bought by never advancing |
| CommitOrderTheorems.LocksHaveHolders | src/stream/compute-safe-watermark.ts:41-75 | in every reachable state the certifiers' lock and the whole fence are held by certifiers still running, however others ended |
| CommitOrderTheorems.StreamIntegrity | src/stream/append-to-stream.ts:216-303 | in every reachable state each stream's committed versions are exactly 1..n and the v-th version sits at the stream's v-th position, whatever locks collide |
| CommitOrderTheorems.ValidationIsExact | src/stream/append-to-stream.ts:50-78 | the version check lets an append through if and only if its expected version names the true head (or -1 an empty stream), and no other running transaction holds uncommitted events of that stream |
| CommitOrderTheorems.CommittedAppendFollowsHead | src/stream/append-to-stream.ts:229-302 | every committed append stands in its stream as one contiguous block with its events in order; with expectedVersion N > 0 exactly N events precede it, with -1 none |
| CommitOrderTheorems.InsertsNeverClash | src/stream/append-to-stream.ts:115-144 | in every reachable state the unique (stream, version) constraint is not hit by the next insert and no insert has to wait for another transaction's row |
| CommitOrderTheorems.CommittedRowsHaveOneAppend | src/stream/append-to-stream.ts:216-303 | every committed row was written by exactly one committed call of appendToStream that returned: calls of it that threw and rolled back transactions leave nothing |
| AppendRuns.AppendSucceeds | src/stream/append-to-stream.ts:216-303 | from every reachable state in which nobody holds the stream's lock or an uncommitted equal key and no certifier the fence, a transaction with an append of any n events, with a new key or none and the true head expected, runs statement by statement and commits, and leaves exactly those n rows at versions head + 1 to head + n, their outbox rows, the key's record and one answer |
| AppendRuns.CallAppends | src/stream/append-to-stream.ts:229-302 | the same for one call in a transaction with any calls behind it, whose own rows and keys count |
| AppendRuns.CallRefused | src/stream/append-to-stream.ts:50-78 | with another head than expected, or a key stored for another stream or request, the call is refused; a caller that catches that has its transaction as it was, with one more lock |
| AppendRuns.CallAnswered | src/stream/idempotency.ts:70-108 | with its own key stored the call is answered what is stored and nothing else changes but the lock |
| AppendCallsProgress.AppendResolves | src/event-store.ts:137-161 | append resolves and is committed, in the store's own transaction and in its caller's, from every reachable state in which nothing stands in its way |
| AppendCallsProgress.SnapshotAppended | src/event-store.ts:163-184 | a snapshot append behind the events that expects the head goes through in the same transaction and append goes on |
| AppendCallsSafety.RejectedAppendLeaves | src/event-store.ts:137-161 | in every reachable state an append that was rejected has left committed rows if and only if its events had been written, so that a snapshot update failed, and its caller's own transaction has committed; then the whole batch is there as the answer of a committed call |
| AppendCallsSafety.StoreIsReachable | src/event-store.ts:143-160 | every run of appends with their snapshot appends is a run of the commit-order protocol, so that all its guarantees hold of append |
| AppendCallsProgress.RejectedAppendWithRows | src/event-store.ts:149-159 | whatever is appended, the run in which a snapshot handler throws, the caller catches the error and commits: append was rejected and its whole batch stays |
| CommitOrderTheorems.IdempotentEffect | src/stream/idempotency.ts:70-159 | over all committed calls given one key, concurrent or retried: one stream, one request, the same versions and positions in every answer, those events exist, and at most one of the calls appended |
| CommitOrderTheorems.RepeatedCallIsAnswered | src/stream/append-to-stream.ts:231-242 | whatever was answered to a key, by any committed transaction or earlier in the same one, every later call with that key gets the same versions and positions and changes nothing else; with another stream or request it is refused |
| CommitOrderTheorems.OutboxConservation | src/stream/append-to-stream.ts:201-213 | the committed outbox is the concatenation, in append order, of events x topics rows for every committed append and nothing for duplicates |
| Consumers.ProcessRows | src/projection/run-projection.ts:150-167 | the batch loop handles exactly the events not ignored, in order, and ends at the last position read; it fails at the first failing handler |
| ConsumersSafety.ProjectionExactlyOnce | src/projection/run-projection.ts:129-176 | over all interleavings with writers, competing runners and failing handlers, the committed handler applications of a projection are its non-ignored committed events up to the checkpoint, each once, ascending |
| ConsumersProgress.ProjectionProgress | src/projection/run-projection.ts:104-176 | from every reachable state one run whose handlers succeed moves the checkpoint past the next k committed events, or all up to the certificate if they are fewer, onto the last of them, and exactly those of them that are not ignored have been handled now |
| ConsumersProgress.FailedRunChangesNothing | src/projection/run-projection.ts:150-167 | a run whose handler throws at an event of its batch leaves checkpoint and applications as they were |
| ConsumersProgress.ProjectionReachesCertificate | src/event-store-maintenance.ts:87-107 | runs can be repeated, with any batch size, until every committed event up to the certificate that is not ignored has been handled |
| ConsumersSafety.CheckpointLocksHaveHolders | src/projection/run-projection.ts:16-31 | in every reachable state a locked checkpoint is held by a run of its projection still going on, however others ended |
| ConsumersSafety.ProjectionNeverSkips | src/event-store-maintenance.ts:87-107 | whatever is committed later, no event at or below today's checkpoint appears that was not handled; applications are never undone or repeated |
| ConsumersSafety.SubscriptionGapFree | src/subscription/subscribe.ts:130-218 | what a subscriber has emitted is, judged by the log of any later state, exactly the filtered events from its lower bound (none, exclusive or inclusive) to where it stands, strictly ascending |
| ConsumersProgress.PumpYields | src/subscription/subscribe.ts:130-183 | one pump yields the first batchSize matching events above the cursor up to the certificate and moves the cursor to the last of them, whatever else is going on |
| ConsumersProgress.SubscriptionReadsAll | src/subscription/subscribe.ts:195-218 | a new subscription, with any filter, lower bound and batch size, comes to have emitted exactly the committed matching events from the bound up to the certificate, ascending |
| ConsumersProgress.SubscriberReachesCertificate | src/subscription/subscribe.ts:204-214 | so does every subscriber of a reachable state that stands between two batches |
| ConsumersSafety.ResumedSubscription | src/subscription/subscribe.ts:64-71 | a second subscriber that starts where a stopped one stands, or inclusively at its last event, carries the emission on without gap or further repetition |
| ConsumersSafety.ResumeExclusive | src/subscription/subscribe.ts:64-71 | resuming with an exclusive bound anywhere gives the same overall sequence |
| ConsumersSafety.ResumeInclusive | src/subscription/subscribe.ts:68-70 | resuming with an inclusive bound repeats exactly the last event |
| Consumers.PumpBatch | src/subscription/subscribe.ts:130-183 | one batch yields the first batchSize matching events above the cursor and moves the cursor to the last of them; it is caught up if and only if fewer were there |
| Consumers.Drain | src/subscription/subscribe.ts:204-214 | with writers quiet the loop ends, for every batch size, having yielded every matching event above the start |
| Enumeration.TopKPushdown | src/stream/read-events-page.ts:195-230 | taking the first k of every stream and then the first k of their union is taking the first k of the whole |
| ReadEventsPage.TupleAfterIsKeyOrder | src/stream/read-events-page.ts:195-213 | for a cursor on an existing row the tuple comparison agrees with comparing positions, in both directions and for any collation |
| ReadEventsPage.QueryIsNextSlice | src/stream/read-events-page.ts:187-231 | the page query returns the next limit + 1 elements of the frozen sorted list, whatever the stream set and direction |
| ReadEventsPage.PageIsNextSlice | src/stream/read-events-page.ts:259-288 | a page is the next slice of the frozen list and its cursor names its last row if and only if something is left |
| ReadEventsPage.ReorderingsAccepted | src/stream/read-events-page.ts:134-142 | every reordering of the streams is accepted with a cursor if and only if localeCompare tells the distinct stream ids apart |
| ReadEventsPage.EqualIdsRefused | src/stream/read-events-page.ts:144-160 | two distinct ids that compare equal, such as canonically equivalent spellings: the other order is refused |
| StableSort.SortedIsStable | src/stream/read-events-page.ts:139-140 | elements that are not out of order keep their order in the sorted copy |
| ReadEventsPage.PagingPartitions | src/stream/read-events-page.ts:322-368 | following cursors, with streams reordered in any accepted way, limits changed at will and any boundary to be captured by the later fetches, reads a prefix of the list the first fetch froze, all of it at nextCursor null, and gets there in at most as many fetches as there are events |
| PagingOverRuns.BoundaryIsFrozen | src/stream/read-events-page.ts:88-114 | a row of any later state lies inside the captured boundary if and only if it had been committed at capture, also when lower positions commit late |
| PagingOverRuns.PagesPartitionTheCapturedEvents | src/stream/read-events-page.ts:322-368 | pages read from any later states of the protocol partition exactly the sorted events of the streams that were committed when the first page captured its boundary, whatever the later pages could capture |
| PagingOverRuns.EventIdsAreUnique | src/stream/prepare-event-row.ts:75 | an event id of stream and version belongs to one committed event in every reachable state, whatever slashes stream names hold |
| FieldPaths.StringsOverlapIsPathOverlap | src/crypto/field-encryptor.ts:76-82 | the startsWith test on strings is the prefix relation on path segments |
| FieldPaths.AssertDistinctFieldPaths | src/crypto/field-encryptor.ts:72-88 | a field list is accepted if and only if all paths are valid and pairwise apart |
| JsonNodes.Node.GetNestedField | src/crypto/field-encryptor.ts:36-51 | the pointer walk finds what the tree holds at the path; only a hole, which the tree shows as null, is not found |
| JsonNodes.Node.SetNestedField | src/crypto/field-encryptor.ts:128-149 | the in-place walk throws exactly when the set on the tree does and otherwise leaves a tree whose value is the set of the old value, creating objects and growing arrays on the way, and touches only its own nodes |
| JsonNodes.Node.RemoveNestedField | src/crypto/field-encryptor.ts:155-165 | the in-place delete leaves the removal of the old value, with array holes reading as null, and throws exactly on an array's length |
| JsonTree.EditsCommute | src/crypto/field-encryptor.ts:128-165 | set and remove at paths apart commute on every tree |
| JsonTree.EditElsewhere | src/crypto/field-encryptor.ts:128-165 | an edit is invisible at every path apart from it |
| JsonTree.RemoveIsEdit | src/crypto/field-encryptor.ts:155-165 | removing a present path throws if and only if it names the length of an array |
| FieldEncryptor.EncryptFields | src/crypto/field-encryptor.ts:175-217 | succeeds if and only if the version and paths are valid, the paths apart and no present field names an array's length; then the clean tree is the data with the present fields erased and each entry seals its field's original value |
| FieldDecryption.DecryptFields | src/crypto/field-encryptor.ts:243-287 | succeeds if and only if every entry opens for this event, key id, field and version and every plaintext can be set at its path (only an array's length can refuse one), and then the result is the data with all of them set in turn |
| FieldDecryption.RedactFields | src/crypto/field-encryptor.ts:220-233 | succeeds if and only if every field path is valid and null can be set at each, and then the result is the data with all of them set in turn |
| FieldDecryption.RoundTrip | src/crypto/field-encryptor.ts:175-287 | for every tree, every accepted field list and every order of the entries, decrypting what was encrypted gives the original tree |
| FieldDecryption.NothingLeftBehind | src/crypto/field-encryptor.ts:189-216 | after encryption nothing is found at any encrypted path of the clean tree (an emptied array slot reads as null) and every path apart from them is unchanged |
| FieldDecryption.OpensOnlyAsSealed | src/crypto/field-encryptor.ts:100-115 | an entry opens if and only if field, version, key, event id and key id are all those it was sealed with |
| FieldDecryption.Redaction | src/crypto/field-encryptor.ts:220-233 | the redacted clean tree is the original tree with null at exactly the encrypted paths and every path apart from them unchanged |
| FieldDecryption.RedactionAnyOrder | src/crypto/field-encryptor.ts:228-231 | every order of the entries redacts to the same tree |
| FieldDecryption.ArrayLengthRefused | src/crypto/field-encryptor.ts:164 | a valid distinct field list that encryption nevertheless refuses: the length of an array |
| EventRows.PrepareEventRow | src/stream/prepare-event-row.ts:94-142 | accepts an event if and only if it has no encrypted fields or a usable key and encryptable data; the row is sealed under that key, or plain when no field was there, and only a stale envelope is rewrapped |
| EventRows.ProcessRow | src/stream/event-row-processor.ts:157-198 | a plain row shows what the upcasters make of its type, version and data, an encrypted one what they make of the decrypted data, or their error; a revoked one is a tombstone that is not upcast, and everything else an error; the cache only gains keys looked up now |
| EventRows.ResolvedKeyIsMinted | src/stream/event-row-processor.ts:102-119 | a key that is answered, from the cache or from the table, is the one minted for its id, whichever secret wraps it by now; the cache stays truthful, and a revoked key outside the cache is answered with none |
| EventRows.ProcessRows | src/stream/read-events-page.ts:233-257 | however the key table changes during one read, all its rows are read under one assignment of keys, each looked up once in the table of some row; it fails only if some row cannot be read so |
| EventRows.PayloadData | src/stream/outbox-insert.ts:45-64 | the payload carries the stored data as it is, or with null at every encrypted field, and building it fails only on an invalid path or one that null cannot be set at |
| EventRows.PayloadIsTombstoneData | src/stream/outbox-insert.ts:56-64 | the outbox payload of an encrypted event is the data its reader sees after revocation, though the two list the entries in different orders |
| CryptoKeys.KeyTable.CreateKey | src/crypto/crypto-key-manager.ts:71-82 | a new key opens for its creator as the entity key it was given; a key that is there, live or revoked, reads as before, and no other row appears |
| CryptoKeys.KeyTable.GetKeyForEncryption | src/crypto/crypto-key-manager.ts:125-146 | gives the stored entity key, which the writer then reads under the later of the envelope's version and its own; every failure leaves the table alone |
| CryptoKeys.KeyTable.RevokeKey | src/crypto/crypto-key-manager.ts:153-167 | afterwards no replica reads the key, whatever secrets it holds, and every other key reads for every replica as before; an unknown key is reported and nothing changes |
| CryptoKeys.RewrappedContinues | src/crypto/crypto-key-manager.ts:133-145 | rewrapping keeps the entity key, seals it under the later of the envelope's version and the writer's, and leaves other rows alone |
| CryptoKeys.StoredKeyOfRow | src/crypto/crypto-key-manager.ts:170-195 | a replica reads the minted key, nothing after revocation, and an error exactly when it lacks the envelope's secret |
| KeyEnvelope.EnvelopeRoundTrip | src/crypto/crypto-key-manager.ts:210-240 | decoding inverts encoding for every version and accepts no byte string that encoding does not produce |
| KeyLifecycleTheorems.KeyHistory | src/crypto/crypto-key-manager.ts:71-167 | over every run of creations, appends (also ones that throw and are caught) and revocations by replicas with different secrets and versions: revocation is final, the entity key never changes, the version never decreases, and nothing sealed under a revoked key is ever added |
| KeyLifecycleTheorems.StoredEventsRead | src/stream/event-row-processor.ts:157-198 | in every reachable state each stored event reads as what the upcasters make of the original's type, version and data before revocation, fails exactly for readers without the envelope's secret, and reads as its un-upcast redaction afterwards |
| KeyLifecycleTheorems.CachedKeyKeepsReading | src/stream/event-row-processor.ts:109-118 | a cached key reads the upcast original of every event of every later state |
| KeyLifecycleProgress.EventIsStored | src/stream/prepare-event-row.ts:94-142 | from every reachable state an event with nothing to encrypt, or whose key is live, unlocked and readable by the writer and whose data can be encrypted, is stored by its transaction; its key's row is then sealed under the later of its version and the writer's and no other row changes |
| KeyLifecycleProgress.WrittenIsRead | src/stream/event-row-processor.ts:157-198 | whoever wrote an event reads it back as its upcast original |
| KeyLifecycleProgress.RefusedEventKeepsRewrap | src/crypto/crypto-key-manager.ts:125-146 | an event whose data cannot be encrypted is not stored, but its key stays rewrapped when the caller catches the error and commits |
| KeyLifecycleProgress.CreatedKeyIsUsable | src/crypto/crypto-key-manager.ts:71-82 | a key id that is new has, once created, a key its creator can write under |
| KeyLifecycleProgress.RevocationTakesEffect | src/crypto/crypto-key-manager.ts:153-167 | once a key is revoked no replica can lock it, every event under it reads as its redaction for every replica, and other keys are as before |
| UpcasterRegistry.Registry.Register | src/upcaster/upcaster-registry.ts:24-52 | accepts exactly well-formed upcasters from a version not yet taken, adds just that entry to its type's chain and keeps every chain strictly sorted |
| UpcasterRegistry.RegistrationOrderIrrelevant | src/upcaster/upcaster-registry.ts:48-51 | two chains with the same entries are the same chain, in whatever order they were registered |
| UpcasterRegistry.OnePassFollowsEdges | src/upcaster/upcaster-registry.ts:83-91 | the single ascending pass ends where any full path of edges from the stored version ends, with the data taken along that path |
| UpcasterRegistry.FullPathUnique | src/upcaster/upcaster-registry.ts:83-91 | there is one full path from a version |
| UpcasterRegistry.CompleteMeansArrived | src/upcaster/upcaster-registry.ts:102-115 | the completeness check passes if and only if the path ends at the later of the stored and the latest version |
| UpcasterRegistry.Registry.Upcast | src/upcaster/upcaster-registry.ts:72-100 | gives the data along the full path if and only if every upcast on it succeeds and it is complete |
| UpcasterRegistry.Registry.GetLatestVersion | src/upcaster/upcaster-registry.ts:122-141 | gives the end of the same path under the same completeness condition |
| Snapshots.LoadSnapshotState | src/snapshot/define-snapshot.ts:99-157 | reports the head version, the base version and how many source events were replayed after it |
| Snapshots.Store.UpdateAfterAppend | src/snapshot/define-snapshot.ts:159-208 | writes a snapshot exactly when the quota is filled, at the version just loaded, so that it cannot conflict |
| Snapshots.Store.Append | src/event-store.ts:137-161 | refuses empty and reserved batches; otherwise appends and then updates the registered snapshots in order; a duplicate changes nothing |
| Snapshots.LoadIsReplay | src/snapshot/define-snapshot.ts:115-143 | a load equals full replay when snapshot events are faithful, and also when the latest one reads as a tombstone |
| Snapshots.SnapshotRefinesReplay | src/snapshot/define-snapshot.ts:99-157 | after any history of appends, with any snapshots registered at any time, loading gives the fold of the whole stream from the initial state, if the definition does not handle its own snapshots, whatever writes its name to the stream folds alike, and JSON keeps the states |
| Snapshots.SharedNameBreaksReplay | src/snapshot/define-snapshot.ts:25 | two definitions under one name: loading one starts from a state of the other |
| Snapshots.OwnHandlerBreaksReplay | src/snapshot/define-snapshot.ts:124-143 | a definition that handles its own snapshot events: replay counts them and a load does not |
| Snapshots.JsonLossBreaksReplay | src/snapshot/define-snapshot.ts:192-207 | a state that JSON does not keep: a load goes on from what was stored |
| SnapshotBound.ReplayBound | src/snapshot/define-snapshot.ts:181-207 | with a snapshot registered from the start fewer than `every` source events lie beyond it after every append, whatever the batches, if the snapshots it handles stand before it and have no source event of their own |
| SnapshotBound.PrivateSourceBreaksBound | src/event-store.ts:257-265 | in any registry and for all quotas, a handled snapshot with a source event for which the definition gets no turn makes the events to replay grow past every number |
| SnapshotRegistries.BoundWithOtherBehind | src/event-store.ts:257-265 | for fixed quotas, with another definition registered behind, the bound is kept if and only if the other's snapshots are not handled, or never written, or the two have equal quotas above one, the same source events and handle each other |
| SnapshotRegistries.BoundWithOtherBefore | src/event-store.ts:257-265 | with the other one registered before, the bound is kept if and only if its snapshots are not handled, or never written, or it has no source event of its own |
| SnapshotRegistries.BoundForAllQuotas | src/event-store.ts:257-265 | in a registry of any size a definition keeps its bound for all quotas if and only if whatever writes snapshots that it handles stands before it and has no source event of its own |
| SnapshotRegistries.SnapshotSourcesBreakBound | src/event-store.ts:257-265 | one registry that misses the bound and keeps it with the two definitions exchanged |
| SnapshotRegistries.TwinsKeepBound | src/event-store.ts:257-265 | one registry that keeps the bound although a handled snapshot stands behind |
| EventInsert.BuildChunkQuery | src/stream/append-to-stream.ts:80-113 | bound to its parameters, the i-th VALUES tuple stores every column of the i-th row, within the parameter limit |
| EventInsert.InsertEventChunks | src/stream/append-to-stream.ts:115-144 | chunking is invisible: every row is stored once, in order, under the position returned for it, and positions ascend although other writers take positions between chunks |
| OutboxInsert.OutboxRowsAligned | src/stream/outbox-insert.ts:74-93 | row i x topics + j carries event i's position and payload to topic j |
| OutboxInsert.OutboxRowsCount | src/stream/outbox-insert.ts:74-93 | there are exactly events x topics rows |
| OutboxInsert.BuildOutboxRows | src/stream/outbox-insert.ts:80-92 | the nested loops produce that list of rows |
| OutboxInsert.OutboxTable.InsertOutboxChunks | src/stream/outbox-insert.ts:95-124 | all rows arrive once and in order, no statement is empty or above 65535 parameters |
| OutboxRelay.EachEntryMarkedOnce | src/outbox/outbox-processor.ts:23-47 | over all interleavings of competing relays every entry is in exactly one committed batch or still pending, and open batches are disjoint |
| OutboxRelay.PollTakesTheFirst | src/outbox/outbox-relay.ts:20-42 | a poll takes pending unlocked entries in ascending order, at most its limit, and one that it leaves out comes behind a full batch |
| OutboxRelay.RelayRun | src/outbox/outbox-processor.ts:23-51 | a run whose handler succeeds marks exactly the batch it polled, beside any other relays; one whose handler fails leaves everything as it was |
| OutboxRelay.CommittedWasHandled | src/outbox/outbox-processor.ts:34-44 | every batch committed in any run is one a handler has succeeded on |
| OutboxRelay.FailureLeavesPending | src/outbox/outbox-processor.ts:45-48 | a failed or rolled back run leaves its entries pending and free to be polled |
| OutboxRelay.CommittedGrows | src/outbox/outbox-processor.ts:38-44 | committed batches are never taken back, no inserted entry is lost, and an entry leaves pending only into a new batch |
| OutboxRelay.Outbox.ProcessOutbox | src/outbox/outbox-processor.ts:15-51 | marks exactly the polled batch when the handler succeeds, nothing otherwise, and reports its size |
| SubjectFilter.EscapedIsPrefixTest | src/subscription/subject-filter.ts:31-59 | under LIKE with backslash escape the escaped subject and a percent sign match exactly the texts that start with the subject |
| SubjectFilter.BuildSubjectFilter | src/subscription/subject-filter.ts:41-73 | spliced behind any other parameters, the numbered clauses select exactly the wanted rows |
| LockOrder.SortedDistinctIsSorted | src/crypto/crypto-key-manager.ts:94-96 | the key ids are locked in strictly ascending order, each once |
| LockOrder.PlanAscends | src/stream/append-to-stream.ts:229-292 | every transaction asks for its locks in ascending rank |
| LockOrder.PlanAsksFor | src/stream/append-to-stream.ts:229-292 | an append asks for exactly its stream, every key of its encrypted events, the fence and its idempotency key; a revocation for its key; a certification for the certifiers' lock and the whole fence |
| LockOrder.LocksExclude | src/crypto/crypto-key-manager.ts:88-108 | in every reachable state a finished transaction holds whatever it waited for, and no two transactions hold conflicting locks |
| LockOrder.NoWaitCycle | src/crypto/crypto-key-manager.ts:88-108 | in every reachable state no chain of waiting transactions returns to its start |
| LockOrder.NoDeadlock | src/stream/append-to-stream.ts:229-292 | while transactions are running one of them can go on |
| LockOrder.CertifierNeverWaitsForWriter | src/stream/compute-safe-watermark.ts:43-50 | whoever a certifier waits for is a certifier |

## Where the code is narrower than its promise

- Encryption of a valid, distinct field list fails when a present field names the length of an
  array, because the delete throws; `EncryptFields` has the exact condition and
  `ArrayLengthRefused` an input.
- Snapshot loads equal replay for every definition that does not handle its own snapshot events
  and whose name writes one fold to the stream, over states that JSON keeps.
  `SharedNameBreaksReplay`, `OwnHandlerBreaksReplay` and `JsonLossBreaksReplay` show an input
  outside each condition; nothing in the code rejects them. For arbitrary handler functions the
  conditions are sufficient only, as two folds may happen to agree.
- The replay bound fails for some definitions that handle another snapshot's events, and only
  for such. `BoundForAllQuotas` has the exact condition on a registry of any size over all
  quotas, `BoundWithOtherBehind` and `BoundWithOtherBefore` that of two definitions with fixed
  ones, `SnapshotSourcesBreakBound` an input.
- An append that was rejected may leave its events: exactly when updating a snapshot failed in a
  transaction that belongs to the caller, who then commits it. `RejectedAppendLeaves` has the
  condition, `RejectedAppendWithRows` a run.
- A page cursor accepts every order of its streams exactly when `localeCompare` tells the ids
  apart; `EqualIdsRefused` shows two that it does not.

## Left out

- SQL text, connection pools, NOTIFY and sleeping: statements are atomic reads and writes, and a poll can happen at any time.
- AES-GCM, scrypt, SHA-256, random bytes and base64: an ideal sealed box, and equality of requests in place of equality of digests.
- Cursor text, JSON text and the canonical JSON of the request digest; which ids a locale's collation calls equal; keys such as `toString` that objects inherit from their prototype.
- Numbers in JSON are literals; a value that is not JSON never reaches the store.
- JsonTree.Assign: which length JavaScript makes of a value assigned to an array's length is a parameter; everything else about arrays is modelled.
- FieldEncryptor.EncryptFields: the loops over fields run on tree values, and the in-place operations they call are proved equal to the value operations in `JsonNodes`; aliasing does not arise because the tree was just parsed.
- Waiting and fairness: what a call, a run or a pump leads to is stated from states in which nothing makes it wait.
- Savepoints a caller sets itself, and callers that do not await an append before they go on.
- Idempotency keys are never cleaned up, so the window of the guarantee is unbounded; the batched delete loops of the cleanup jobs only bound that window.
- Transaction ids are given at BEGIN rather than at the first write; either way the rows of a transaction that was running or had no id when a snapshot was taken are invisible to it.
- Consumers: a run or a poll may use any certificate returned so far; the data a handler sees is the subject of `EventRows`, and events a handler appends are not part of the same step.
- KeyLifecycle: key rows and events only; positions and versions are the subject of `CommitOrder`, and the values of encrypted snapshot events are not followed.
- AppendCalls: which appends a snapshot update makes and what makes it fail is left open there; `Snapshots` says what is written when none fails.
- SnapshotBound.ReplayBound: for fixed quotas and more than two definitions the condition is sufficient, and necessary as far as `PrivateSourceBreaksBound` goes.
- Snapshots.SnapshotRefinesReplay: one stream's accepted appends in order, which `CommitOrder` gives, and histories without revocation; after one, a load whose latest snapshot is a tombstone replays everything, which `LoadIsReplay` covers.
- LockOrder: one append without encrypted snapshots, one revocation or one certification per transaction, as several appends in one transaction can deadlock; queueing among waiters for one row is not modelled.
- Building a row's base context, error classes, input validation, secret parsing, schema-name checks and DDL other than the fence trigger and the uniqueness constraints.
- Type-level code, thin handles of aggregates and projections, the website, examples and load tests.
