# FOTA crash-safety model

A Dafny 4.11 model of the part of the FOTA client that has to stay correct when the process
stops between two durable writes, when the cloud answers anything, and when threads interleave.
`dafny verify dfyconfig.toml` checks it.

What is modelled, bottom up:

- **Canonical encoding and fingerprints.** `CanonicalEncoding` is the byte format with a parser for
  it, `CanonicalEncoderClass` the encoder that appends to a buffer and patches the count at the end,
  `EcuOrder` the sort with duplicate rejection, `InventoryFingerprint` the four preimages. `EcuListing`
  and `PreimageContents` tell order and preimages in bytes, numbers and names. SHA-256 is an
  arbitrary function. The header comment of the encoder says that list items carry no domain; the
  code writes a zero length for their empty domain, and the model follows the code.
- **State serializer.** `Envelope` is the 28-byte header, `StateSerializer` the four runtime states,
  their JSON and the chain of payload migrations, `FormatSteps` what each step does to the members of
  any object and `StateTexts` which objects are read. Printing and parsing JSON text is a parameter that
  is assumed to read back what it prints; JSON values, their conversions and errors are concrete.
- **Runtime store and recovery.** `StateStoreSpec`, `StateStoreClass`, `SequenceHistory`,
  `StateRecoverySpec`, `RecoveryCrashes`, `StateRecoveryMethods`. They are proved for every sound
  codec; `StateCodec.CodecIsSound` shows that the serializer is one. `StoreFlags`,
  `SequenceAllocation`, `RecoveryMeaning` and `RecoveryFlags` say on records, flags and failures alone
  which records are flagged, when a number is handed out and what a start decides.
- **Cloud state and migration.** `CloudState` and `CloudStateStore` are the typed records over one
  flat key space, `LegacyRevision`, `RevisionTexts`, `LegacyRecords` and `LegacyTexts` the old formats, `StateMigrationSpec`,
  `MigrationCrashes` and `StateMigrationMethods` the migration, `MigratedContents` and
  `MigrationOutcome` what it leaves in each new key, told on the old JSON.
- **Orchestrator.** `OrchestratorSpec` says what each operation does to memory, disk and the outside;
  `OrchestratorClass` is the object with its fields, each method proved equal to the specification.
  `OrchestratorInvariants`, `OrchestratorHistory` and `OrchestratorBoundaries` say what holds with a
  stop at any write. `OrchestratorPromises` turns what a single operation does to a promise into an
  if-and-only-if over all histories; `OrchestratorPermits`, `OrchestratorRetries` and
  `OrchestratorControls` use it to say exactly which stops break the promises about permits, results
  and controls, and `OrchestratorReports` does the same for the final number. `OrchestratorTwins` is
  about restarts between operations, `OrchestratorSessions` about one process, `OrchestratorCounters`
  about a process up to its first execution, and `OrchestratorLimits` gives histories in which each
  promise fails. What single steps and answers come to is told on stored records, log and answers, not
  through the specification: `OrchestratorTurns` and `OrchestratorResults` how an execution turns and
  what a final result makes of it (`OrchestratorRollbacks` has the histories in which a rollback is
  recorded otherwise), `OrchestratorStages` the plan of a task, `OrchestratorGates` permit and start,
  `OrchestratorAnswers` detection, consent and controls, `OrchestratorSending` the events,
  `OrchestratorDownloads` the packages. `MigratedStart` joins the migration to the orchestrator's first start.
- **Transport.** `InflightTable` and `DownlinkQueue` are state machines over the locked sections, run
  under every interleaving; `TransportClass` is the object, each locked section one step.
  `InflightListing`, `DownlinkDelivery` and `TransportOutcomes` say what table, queue and outcomes mean
  on the steps and messages alone.

How crashes are modelled: `DurableStore.Store` saves one key atomically and records every durable
content in a trace, and a crash is a cut of the trace. The orchestrator's history records the disk
after every write and at every call that matters, and a stop keeps any beginning of what an
operation does. Store failures are inputs: a save or removal may fail with or without effect, a read
may fail (`SaveFault`, `ReadFault`, `StateMigrationSpec.Faults`). `CrashSchedules` states once that
what no single write changes, no schedule of crashes changes.

What the theorems assume, each visible as a precondition:

- The orchestrator reconciles at start, its calls are serialised, a task received has some field
  set, and a download that succeeds carries a stage result (`OrchestratorInvariants.EnvOK`). Events the
  installer produces outside its start arrive as operations of their own.
- Concurrent requests of the transport have distinct message ids (`InflightTable.Enabled`); what a reused
  id does is `InflightTable.ReusedIdIsTakenOver`.
- Texts stay below 4 GiB where the 32-bit length of the envelope matters (`Fits`, `Roomy`, `fits`).
- Snapshot sequence histories: no other component writes the sequence key.

Where the code and its comments differ the model follows the code: the header of the transport lists
the cancelled subscription before the workers' stop, the code joins the workers first.

## Model

| member | source | states |
|---|---|---|
| CanonicalEncoderClass.CanonicalEncoder.constructor | src/fingerprint/canonical_encoder.cpp:20-27 | a new encoder holds the domain with its length and four bytes reserved for the count |
| CanonicalEncoderClass.CanonicalEncoder.WriteStringField | src/fingerprint/canonical_encoder.cpp:66-71 | one present field is appended to the record, whose bytes grow by exactly that field |
| CanonicalEncoderClass.CanonicalEncoder.WriteOptionalStringField | src/fingerprint/canonical_encoder.cpp:73-84 | a missing value becomes a missing field, a present one, even empty, a present field |
| CanonicalEncoderClass.CanonicalEncoder.WriteEnumField | src/fingerprint/canonical_encoder.cpp:86-91 | an enumeration code is a present field of four bytes |
| CanonicalEncoderClass.CanonicalEncoder.WriteField | src/fingerprint/canonical_encoder.cpp:93-98 | a byte field appends its header and bytes and counts once |
| CanonicalEncoderClass.CanonicalEncoder.WriteListField | src/fingerprint/canonical_encoder.cpp:100-113 | the two loops write the count and all items, under a length cast item by item |
| CanonicalEncoderClass.CanonicalEncoder.Finalize | src/fingerprint/canonical_encoder.cpp:115-123 | patching the reserved bytes in place gives exactly the encoding of the domain and fields written |
| CanonicalEncoding.SelfDelimiting | src/fingerprint/canonical_encoder.cpp:20-123 | whatever bytes follow an encoding, a parser gives back the domain, the fields and those bytes if and only if every length fits 32 bits |
| CanonicalEncoding.ParseRecordPrints | src/fingerprint/canonical_encoder.cpp:20-123 | every byte string the parser accepts is the encoding of what it returns |
| CanonicalEncoding.EncodingIsPrefixFree | src/fingerprint/canonical_encoder.cpp:20-123 | no encoding is a proper prefix of another, so nested records need no item length |
| CanonicalEncoding.EncodingIsInjective | src/fingerprint/canonical_encoder.cpp:20-123 | equal bytes mean equal domain and equal fields |
| CanonicalEncoding.DomainsAreSeparated | src/fingerprint/canonical_encoder.cpp:20-27 | encodings under different domains never coincide |
| CanonicalEncoding.ParseListReads | src/fingerprint/canonical_encoder.cpp:100-113 | a list stored as bare concatenated records is recovered item by item |
| PreimageContents.RecordInBytes | src/fingerprint/canonical_encoder.cpp:20-123 | a record of two short fields, byte by byte |
| PreimageContents.ListInBytes | src/fingerprint/canonical_encoder.cpp:100-113 | a list of two short items, byte by byte |
| EcuOrder.SortEcuIndices | src/fingerprint/inventory_fingerprint.cpp:92-125 | returns the sorted indices, and throws if and only if two different entries share (ecu_id, part or "", sw or ""); the order is spelled out by `EcuListing.ListingAscends` |
| EcuOrder.StableSort | src/fingerprint/inventory_fingerprint.cpp:96-112 | the sort yields the one order the index tie-break determines |
| EcuOrder.SortIndicesSorts | src/fingerprint/inventory_fingerprint.cpp:96-112 | the order is a permutation of all indices and sorted by key |
| EcuOrder.AdjacentCheckIsComplete | src/fingerprint/inventory_fingerprint.cpp:113-123 | comparing neighbours only finds a duplicate if and only if there is one anywhere |
| EcuOrder.IncreasingListingIsUnique | src/fingerprint/inventory_fingerprint.cpp:92-125 | a set of entries has one strictly increasing listing |
| EcuOrder.OrderIsPermutationInvariant | src/fingerprint/inventory_fingerprint.cpp:92-125 | any permutation of the ECU list has the same duplicates and the same sorted entries |
| EcuListing.ListingAscends | src/fingerprint/inventory_fingerprint.cpp:96-107 | of two entries listed one after the other the ids are equal or the first is smaller at the first byte that differs or ends there, and on equal ids the same holds for part number and then software version |
| EcuListing.EqualLengthsAscendByValue | src/fingerprint/inventory_fingerprint.cpp:96-107 | ids of equal length are listed in the order of their value as big-endian numbers |
| EcuListing.DuplicatesHaveSameTexts | src/fingerprint/inventory_fingerprint.cpp:109-122 | entries are rejected as repeated if and only if two of them share all three texts |
| InventoryFingerprint.EncodeVersionEcu | src/fingerprint/inventory_fingerprint.cpp:128-136 | an ECU sub-record of four fields, under an empty domain |
| InventoryFingerprint.EncodeSnapshotEcu | src/fingerprint/inventory_fingerprint.cpp:138-150 | an ECU sub-record of seven fields, under an empty domain |
| InventoryFingerprint.BuildVersionPreimage | src/fingerprint/inventory_fingerprint.cpp:168-183 | throws if and only if keys repeat; otherwise the bytes are the version record of the sorted list |
| InventoryFingerprint.BuildSnapshotPreimage | src/fingerprint/inventory_fingerprint.cpp:188-210 | throws if and only if keys repeat; otherwise the snapshot record, the VIN as a digest only |
| InventoryFingerprint.BuildDedupePreimage | src/fingerprint/inventory_fingerprint.cpp:215-224 | the record of destination, canonicalization and digest |
| InventoryFingerprint.BuildIdentifierPreimage | src/fingerprint/inventory_fingerprint.cpp:229-236 | the record of a value under the domain of its identifier kind |
| InventoryFingerprint.NormalizeVin | src/fingerprint/inventory_fingerprint.cpp:74-82 | upper-cases ASCII letters and changes nothing else |
| InventoryFingerprint.VersionPreimageIsInjective | src/fingerprint/inventory_fingerprint.cpp:128-136 | version bytes agree if and only if baseline source, baseline id, registry version and the set of (ecu, part, sw, hw) agree, missing and empty kept apart |
| InventoryFingerprint.SnapshotPreimageIsInjective | src/fingerprint/inventory_fingerprint.cpp:138-210 | snapshot bytes agree if and only if also result, sources, statuses, error codes and VIN digest agree |
| InventoryFingerprint.VersionPreimageIgnoresOrder | src/fingerprint/inventory_fingerprint.cpp:168-183 | throw-or-bytes of the version fingerprint is the same for every permutation of the ECU list |
| InventoryFingerprint.SnapshotPreimageIgnoresOrder | src/fingerprint/inventory_fingerprint.cpp:188-210 | throw-or-bytes of the snapshot fingerprint is the same for every permutation of the ECU list |
| InventoryFingerprint.DedupePreimageIsInjective | src/fingerprint/inventory_fingerprint.cpp:215-224 | dedupe keys have the same preimage only for equal destination, canonicalization and digest |
| InventoryFingerprint.IdentifierPreimageIsInjective | src/fingerprint/inventory_fingerprint.cpp:229-236 | identifier preimages agree if and only if kind and value agree |
| InventoryFingerprint.VinPreimageIgnoresCaseOnly | src/fingerprint/inventory_fingerprint.cpp:74-82 | two VINs share a preimage if and only if they differ at most in letter case |
| InventoryFingerprint.PreimagesAreDomainSeparated | src/fingerprint/inventory_fingerprint.cpp:168-236 | preimages of the four kinds of digest never coincide |
| PreimageContents.VersionPreimageSays | src/fingerprint/inventory_fingerprint.cpp:168-183 | the version record holds baseline source, baseline id and registry version, and the list of the sorted ECUs |
| PreimageContents.VersionEcusSay | src/fingerprint/inventory_fingerprint.cpp:128-136 | each of its ECUs is id, part number and the two versions, in this order |
| PreimageContents.SnapshotPreimageSays | src/fingerprint/inventory_fingerprint.cpp:188-210 | the snapshot record holds VIN digest, VIN source, baseline, registry version and result, and the list of the sorted ECUs |
| PreimageContents.SnapshotEcusSay | src/fingerprint/inventory_fingerprint.cpp:138-150 | each of its ECUs adds source, status and error code |
| PreimageContents.DedupePreimageSays | src/fingerprint/inventory_fingerprint.cpp:215-224 | the dedupe record holds destination, canonicalization and digest |
| PreimageContents.IdentifierPreimageSays | src/fingerprint/inventory_fingerprint.cpp:229-236 | the identifier record holds the value alone |
| PreimageContents.VersionDomain | include/cgw/fota/fingerprint/inventory_fingerprint.hpp:48 | the name version digests are computed under |
| PreimageContents.SnapshotDomain | include/cgw/fota/fingerprint/inventory_fingerprint.hpp:49 | the name snapshot digests are computed under |
| PreimageContents.DedupeDomain | include/cgw/fota/fingerprint/inventory_fingerprint.hpp:50 | the name dedupe keys are computed under |
| PreimageContents.VinDomain | include/cgw/fota/fingerprint/inventory_fingerprint.hpp:51 | the name VIN digests are computed under |
| Envelope.PutU32Le | src/store/fota_state_serializer.cpp:26-31 | appends the four little-endian bytes whose value is the argument |
| Envelope.PutU64Le | src/store/fota_state_serializer.cpp:33-38 | the loop appends the eight bytes of the value cast to unsigned |
| Envelope.GetU64Le | src/store/fota_state_serializer.cpp:47-53 | the loop reads back the signed value of eight bytes |
| Envelope.BuildEnvelope | src/store/fota_state_serializer.cpp:245-256 | builds the 28-byte header and the payload |
| Envelope.ParseHeader | src/store/fota_state_serializer.cpp:258-282 | an accepted byte string is as long as header and payload length say |
| Envelope.EncodeParsesBack | src/store/fota_state_serializer.cpp:245-286 | parse and extract undo encode for every version, time and payload, if and only if the payload is below 4 GiB |
| Envelope.ParseIffRendered | src/store/fota_state_serializer.cpp:258-282 | the parser accepts exactly the rendered headers with a readable minimum version |
| Envelope.ParsedIsRendered | src/store/fota_state_serializer.cpp:258-286 | every accepted byte string is its parsed header and payload re-encoded |
| StateSerializer.DecodeState | src/store/fota_state_serializer.cpp:308-330 | the version loop of the decoders computes the chain of payload migrations |
| StateSerializer.JsonReadsBack | src/store/fota_state_serializer.cpp:63-240 | each of the four states read from its own JSON is that state |
| StateSerializer.EncodedDecodes | src/store/fota_state_serializer.cpp:291-338 | decode undoes encode for each of the four well-formed states |
| StateSerializer.DecodedIsWellFormed | src/store/fota_state_serializer.cpp:376-412 | whatever decodes has the current version, valid fingerprints and matching sequence numbers |
| StateSerializer.UpgradeKeepsMeaning | src/store/fota_state_serializer.cpp:298-580 | decode(encode(decode(old))) is decode(old) for every decodable record of every version |
| StateSerializer.OldFormatsKeepTheirMeaning | src/store/fota_state_serializer.cpp:352-532 | a state written in the form of any older version, with any texts as its single fingerprints, decodes to that state, with unknown fingerprints and defaults where the form had none |
| FormatSteps.SequenceStepTells | src/store/fota_state_serializer.cpp:298-306 | the step adds version and time where they are missing and keeps every other member of any object |
| FormatSteps.LastSuccessStepTells | src/store/fota_state_serializer.cpp:352-374 | the first step adds version and fingerprint, the second drops the fingerprint for five unknown ones unless they are there; every other member stays |
| FormatSteps.DedupeFirstStepTells | src/store/fota_state_serializer.cpp:429-440 | the bound takes its new name only when that is free; version and time-to-live are added where missing |
| FormatSteps.DedupeSecondStepTells | src/store/fota_state_serializer.cpp:441-458 | every entry loses its single fingerprint and has the five, and the step fails if and only if an entry is no object |
| FormatSteps.ActiveJobStepTells | src/store/fota_state_serializer.cpp:511-533 | the first step adds version and idempotency key, the second the five fingerprints; every other member stays |
| StateTexts.ReadsIff | src/store/fota_state_serializer.cpp:316-560 | a payload is read as its state if and only if its version, if it says one, is the current one and each member has the kind or the name it needs; a last success must carry the number of its snapshot |
| StateSerializer.TriggerReasonReadsBack | src/store/fota_state_serializer.cpp:496-560 | every stored trigger name is read back as its trigger |
| StateSerializer.JobPhaseReadsBack | src/store/fota_state_serializer.cpp:496-560 | every stored phase name is read back as its phase |
| StateCodec.CodecIsSound | src/store/fota_state_serializer.cpp:291-580 | the serializer returns well-formed states of supported versions and decodes what it encodes, up to 4 GiB |
| StateStoreClass.FotaStateStore.Open | src/store/fota_state_store.cpp:47-91 | opening runs the four upgrades in order and sets each flag from what it met; the writes are listed one by one |
| StateStoreClass.FotaStateStore.MigrateOne | src/store/fota_state_store.cpp:99-155 | reads, checks and classifies one key; without an upgrade nothing is written |
| StateStoreClass.FotaStateStore.BackUpAndRewrite | src/store/fota_state_store.cpp:157-200 | backup, rewrite and verify with every possible failure of each save |
| StateStoreClass.FotaStateStore.AllocateSnapshotSeq | src/store/fota_state_store.cpp:205-271 | a number is returned only after it is durable; every failure blocks |
| StateStoreClass.FotaStateStore.LoadLastSuccess | src/store/fota_state_store.cpp:286-301 | a failed load makes the record unavailable |
| StateStoreClass.FotaStateStore.LoadDedupe | src/store/fota_state_store.cpp:316-350 | an unreadable window counts as empty, under the configured bounds |
| StateStoreClass.FotaStateStore.SaveDedupe | src/store/fota_state_store.cpp:352-360 | a successful save makes the window available again |
| StateStoreClass.FotaStateStore.LoadActiveJob | src/store/fota_state_store.cpp:365-379 | a failed load marks the job corrupted and returns none |
| StateStoreSpec.UpgradeIsRecoverable | src/store/fota_state_store.cpp:157-192 | wherever an upgrade is cut off, the record or its backup holds the original bytes and no other key has changed |
| StateStoreSpec.UpgradeIsAlwaysRecoverable | src/store/fota_state_store.cpp:157-192 | however often an upgrade is cut off or fails and is started again, the key or its backup holds the original text |
| StateStoreSpec.UpgradeKeepsState | src/store/fota_state_store.cpp:157-192 | at no crash point does an upgrade change what any record decodes to |
| StateStoreSpec.UpgradeIsIdempotent | src/store/fota_state_store.cpp:99-192 | after a completed upgrade the next open writes nothing |
| StateStoreSpec.CorruptMeansUndecodable | src/store/fota_state_store.cpp:99-192 | without I/O faults a key is flagged if and only if there is a record and it does not decode |
| StateStoreSpec.OpenKeepsState | src/store/fota_state_store.cpp:47-91 | opening the store, cut off at any write, keeps what every record decodes to |
| StoreFlags.UpgradeFlagsIff | src/store/fota_state_store.cpp:99-200 | under every failure of the store a record is flagged if and only if it cannot be read or decoded, or it is older and backup, rewrite or verification fails |
| StoreFlags.UpgradeWritesIff | src/store/fota_state_store.cpp:99-170 | a key is written if and only if its record is older and could be loaded, and the first write is its text under the backup key |
| StoreFlags.OpenFlagsIff | src/store/fota_state_store.cpp:47-91 | opening sets each of the four flags for the reasons of its own record only |
| SequenceHistory.NumbersStrictlyIncrease | src/store/fota_state_store.cpp:72-271 | over any history of opens, allocations, failed saves, crashes and other writes, the numbers returned strictly increase |
| SequenceHistory.NumbersNeverRepeat | src/store/fota_state_store.cpp:205-271 | every step keeps all returned numbers at or below the durable highest |
| SequenceHistory.AllocateAdvances | src/store/fota_state_store.cpp:238-270 | a returned number is one above the durable highest and is durable itself |
| SequenceAllocation.AllocatesIff | src/store/fota_state_store.cpp:205-271 | a number is handed out if and only if the store is not blocked, the record can be read and is below the last number, and the save works; what each other case leaves on disk and in the flag |
| SequenceHistory.ExhaustedStaysExhausted | src/store/fota_state_store.cpp:228-247 | an undecodable record or the last number blocks allocation for good and is never reset |
| StateStoreClass.FotaStateStore.RemoveActiveJob | src/store/fota_state_store.cpp:390-397 | removes the job, or throws with the key gone or still there |
| StateRecoveryMethods.RecoverStore | src/store/fota_state_recovery.cpp:29-89 | the plan, the flags and every durable write of a recovery; what the plan means is `RecoveryMeaning.BlockedIff` and `RecoveryMeaning.StartDecides` |
| StateRecoveryMethods.ResumeJob | src/store/fota_state_recovery.cpp:91-151 | the plan by phase of the job found |
| StateRecoveryMethods.ReconcileCompleted | src/store/fota_state_recovery.cpp:157-177 | reconciliation goes on only for a matching last success |
| StateRecoveryMethods.CompleteJob | src/store/fota_state_recovery.cpp:178-201 | the window is durable before the job is removed |
| StateRecoveryMethods.Evict | src/store/fota_state_recovery.cpp:192-194 | dropping from the front while too many keeps the newest entries |
| StateRecoveryMethods.ContainsEntry | src/store/fota_state_recovery.cpp:171-178 | finds an entry with this report id and sequence number if there is one |
| RecoveryCrashes.JobIsDroppedOnlyWhenConfirmed | src/store/fota_state_recovery.cpp:121-201 | under any faults of reads, saves and the removal, and at any write, `active_job` is gone only if last success matches and the stored window holds the entry |
| RecoveryCrashes.RecoveryIsCrashIdempotent | src/store/fota_state_recovery.cpp:29-201 | starts cut off at any write or failing at the save of the window or the removal of the job, then a complete one, give the same action, job and stored meaning as one start |
| RecoveryCrashes.FailedLoadForgetsWindow | src/store/fota_state_recovery.cpp:169-196 | a window that cannot be read is replaced by the new entry alone; nothing is lost by that if and only if the stored window holds that entry only, or does not hold it and is empty or bounded to one entry |
| RecoveryCrashes.BootDecides | src/store/fota_state_recovery.cpp:29-201 | a start is decided by what the records mean, and none of its writes changes what the next start decides |
| RecoveryCrashes.RunningAgainDecidesTheSame | src/store/fota_state_recovery.cpp:157-201 | stopped half-way or at the end, the next run takes the same action and ends the same |
| RecoveryCrashes.WindowKeepsNewest | src/store/fota_state_recovery.cpp:190-195 | the saved window is a suffix ending in the new entry, of the bound or everything if shorter |
| RecoveryMeaning.BlockedIff | src/store/fota_state_recovery.cpp:36-62 | an undisturbed start is blocked if and only if the sequence does not load or the last success carries a number above the highest made durable |
| RecoveryMeaning.ReturnedNumberNeverBlocks | src/store/fota_state_recovery.cpp:50-62 | over every history of the store that leaves the sequence readable, a last success that carries a returned number blocks no start |
| RecoveryMeaning.StartDecides | src/store/fota_state_recovery.cpp:64-151 | what an undisturbed start that is not blocked does about the job, by its phase, its number and the last success |
| RecoveryMeaning.ConfirmedJobIsRecorded | src/store/fota_state_recovery.cpp:157-201 | a confirmed job is gone after the start and its entry, with times and result, is in the saved window |
| RecoveryMeaning.OtherStartsKeepRecords | src/store/fota_state_recovery.cpp:91-201 | every other undisturbed start leaves every record as it was |
| RecoveryFlags.BlockedIff | src/store/fota_state_recovery.cpp:36-62 | with any flags and any failures, a start is blocked, and writes nothing, if and only if the sequence is flagged or a last success that is found is ahead of a sequence that is found |
| RecoveryFlags.FlagsDecide | src/store/fota_state_recovery.cpp:64-119 | without a job it does nothing, or collects afresh if the job is flagged or does not load; what does not load is flagged and nothing is unflagged |
| RecoveryFlags.FinishedDecides | src/store/fota_state_recovery.cpp:121-168 | a finished job is collected again, and nothing written, unless the last success is found at both loads and names it |
| RecoveryFlags.ConfirmedFlags | src/store/fota_state_recovery.cpp:169-201 | a confirmed one succeeds if and only if the window already names it or its save works, and the removal works; and when the window is flagged as available then |
| StateRecoverySpec.KeepNewest | src/store/fota_state_recovery.cpp:192-194 | eviction keeps a suffix with the last entry, within the bound unless the bound is 0 |
| CloudState.KeysAreInjective | include/cgw/fota/store/fota_cloud_state.hpp:40-57 | two records share a key if and only if they are in the same slot: item keys are injective and apart from every fixed key |
| CloudState.KeyShowsKind | include/cgw/fota/store/fota_cloud_state.hpp:41-51 | the category can be read off the characters of the key |
| CloudState.MarkerIsNoRecord | include/cgw/fota/store/fota_cloud_state.hpp:51 | the migration marker shares its key with no record |
| CloudStateStore.FotaCloudStateStore.Load | src/store/fota_cloud_state_store.cpp:18-21 | a load reads its own key: absent, unreadable or the record |
| CloudStateStore.FotaCloudStateStore.Save | src/store/fota_cloud_state_store.cpp:22-24 | a save sets its own slot and changes no other |
| CloudStateStore.FotaCloudStateStore.Remove | src/store/fota_cloud_state_store.cpp:25-27 | a remove empties its own slot and changes no other |
| CloudStateStore.FlatRefinesTyped | src/store/fota_cloud_state_store.cpp:14-136 | any run of saves and removes on the flat keys acts as on independent typed maps |
| RecordText.EnvelopedIsLawful | src/store/fota_cloud_state_serializer.cpp:53-74 | records in the envelope read back, and reading does not depend on the time written |
| Decimals.NumberOfDecimal | include/cgw/fota/store/fota_cloud_state.hpp:54-55 | the decimal text of a number denotes that number |
| LegacyRevision.ConvertRevision | src/store/fota_state_migration.cpp:91-107 | a numeric text that converts completely is its value, any other text its hash |
| LegacyRevision.FnvHash | src/store/fota_state_migration.cpp:100-106 | the loop computes the hash of the whole string |
| LegacyRevision.RevisionInvertsDecimal | src/store/fota_state_migration.cpp:91-99 | converting undoes decimal printing for every number below 2^64 |
| LegacyRevision.CanonicalRevisionsStayDistinct | src/store/fota_state_migration.cpp:91-107 | distinct canonical decimal revisions stay distinct |
| LegacyRevision.DigitRevisionsCollideByValue | src/store/fota_state_migration.cpp:91-99 | two digit strings below 2^64 share a revision if and only if they have the same value |
| LegacyRevision.LeadingZeroCollides | src/store/fota_state_migration.cpp:91-99 | "7" and "07" are different texts with the same revision |
| RevisionTexts.NumeralsAreRead | src/store/fota_state_migration.cpp:91-99 | white space, a sign and digits up to the first NUL are their value modulo 2^64, unless the digits reach 2^64 |
| RevisionTexts.OthersAreHashed | src/store/fota_state_migration.cpp:91-107 | every other text is its hash, but one that begins with a NUL is 0 |
| RevisionTexts.HashGoesThrough | src/store/fota_state_migration.cpp:100-106 | the hash takes the text byte by byte, from its first value on |
| LegacyRecords.DistinctControlsKeepDistinctKeys | src/store/fota_state_migration.cpp:564-583 | old controls with canonical revisions get the same key if and only if the revisions are equal |
| LegacyTexts.ReadableIff | src/store/fota_state_migration.cpp:61-78 | an old text is readable if and only if it has version 1 and its payload is JSON |
| LegacyTexts.KeyConvertsIff | src/store/fota_state_migration.cpp:122-369 | an old key converts if and only if its text is readable and its object, or each item of its list, does |
| LegacyTexts.TaskConvertsIff | src/store/fota_state_migration.cpp:122-140 | which members of which kind an old task needs |
| LegacyTexts.InventoryConvertsIff | src/store/fota_state_migration.cpp:145-162 | the same for the inventory |
| LegacyTexts.ConsentConvertsIff | src/store/fota_state_migration.cpp:167-185 | the same for the consent |
| LegacyTexts.DownloadConvertsIff | src/store/fota_state_migration.cpp:191-205 | the same for a download |
| LegacyTexts.ExecutionConvertsIff | src/store/fota_state_migration.cpp:229-255 | the same for the execution |
| LegacyTexts.EventConvertsIff | src/store/fota_state_migration.cpp:260-277 | the same for an event |
| LegacyTexts.ControlConvertsIff | src/store/fota_state_migration.cpp:298-311 | the same for a control |
| LegacyTexts.PolicyConvertsIff | src/store/fota_state_migration.cpp:325-338 | the same for the policy |
| LegacyTexts.LogJobConvertsIff | src/store/fota_state_migration.cpp:342-353 | the same for a log job |
| StateMigrationMethods.MigrateOtaToFota | src/store/fota_state_migration.cpp:412-643 | all writes of a migration in order under any store failures, when it throws, and the keys it reports cleaned |
| StateMigrationMethods.WriteAll | src/store/fota_state_migration.cpp:446-613 | the ten steps write exactly the planned records, up to the first read, conversion or save that fails |
| StateMigrationMethods.MoveKey | src/store/fota_state_migration.cpp:449-464 | one old key: read, convert, write what it becomes; a failure stops the run |
| StateMigrationMethods.WriteEventRecords | src/store/fota_state_migration.cpp:516-560 | the event counters are those of the outbox if there is one, else of the execution, else the first; what they load as is `MigratedContents.OutboxCountersAreCarried` |
| StateMigrationMethods.CheckConsistency | src/store/fota_state_migration.cpp:615-623 | passes if and only if every fixed key present can be read back |
| StateMigrationMethods.MarkAndClean | src/store/fota_state_migration.cpp:625-636 | the marker is saved before the first removal; what is durable when the save or a removal fails |
| StateMigrationMethods.CleanOld | src/store/fota_state_migration.cpp:632-636 | removes the old keys up to the first removal that fails, and counts those that were there |
| StateMigrationMethods.ReadMarker | src/store/fota_state_migration.cpp:430-434 | whether a completed marker is there; a read failure or an undecodable marker throws |
| MigrationFormats.MarkerReadsBack | src/store/fota_state_migration.cpp:371-386 | a marker is read back as it was written |
| MigrationFormats.FormatsReadBack | src/store/fota_state_migration.cpp:61-386 | the formats of this repository meet the assumption of the crash theorems |
| MigrationCrashes.MigrationIsCrashIndependent | src/store/fota_state_migration.cpp:412-643 | runs cut off at any write or thrown out by any store failure, then a full run, return or throw and end as one undisturbed run, without old keys on success |
| MigrationCrashes.WriteContinues | src/store/fota_state_migration.cpp:446-636 | no single write, whatever fails in the run, changes what the next full run ends with |
| MigrationCrashes.MarkerStopsMigration | src/store/fota_state_migration.cpp:429-444 | once the completed marker is durable no later run writes a record; only old keys go |
| MigrationCrashes.ThrowingRunKeepsOldKeys | src/store/fota_state_migration.cpp:423-636 | a run that throws has left every old key and the marker as they were if and only if its marker had not become durable and it had removed no leftover of an earlier run |
| MigrationCrashes.EarlyFailureTouchesNothing | src/store/fota_state_migration.cpp:446-630 | before the marker is durable no write of a run, throwing or not, touches an old key or the marker |
| MigrationCrashes.LateFailuresThrow | src/store/fota_state_migration.cpp:630-636 | on every disk that converts, a late failure of the save of the marker or of the last removal throws with the marker durable, and the latter with the other old keys gone |
| MigrationCrashes.MigratedRecordsLoad | src/store/fota_state_migration.cpp:446-636 | after success each slot loads the last record planned for it, or what it held before |
| MigratedContents.StepDecidesSlot | src/store/fota_state_migration.cpp:446-613 | after a successful run each slot loads the last record its own step planned, or what it held |
| MigratedContents.FixedKeyIsCarried | src/store/fota_state_migration.cpp:449-613 | the records of task, inventory, consent, execution and policy load with every member of the old JSON in its place |
| MigratedContents.ItemsAreCarried | src/store/fota_state_migration.cpp:495-613 | a download, event, control or log job that an old item names loads with every member of the last such item in its place |
| MigratedContents.UnnamedSlotIsKept | src/store/fota_state_migration.cpp:495-613 | a slot that no old item names is as it was |
| MigratedContents.AbsentKeyChangesNothing | src/store/fota_state_migration.cpp:449-613 | an old key that is not there changes none of its slots |
| MigratedContents.OutboxCountersAreCarried | src/store/fota_state_migration.cpp:540-560 | the counters load with next and accepted number of the old outbox |
| MigratedContents.ExecutionCountersAreCarried | src/store/fota_state_migration.cpp:514-560 | without an old outbox, with those of the old execution |
| MigratedContents.CountersStartOver | src/store/fota_state_migration.cpp:515-560 | without either, with 1 and 0 |
| MigratedContents.NextNumberIsFree | src/store/fota_state_migration.cpp:540-560 | if all old events are numbered below the old next number, no event is migrated to the number the next emit takes |
| MigrationOutcome.MigrationSucceedsIff | src/store/fota_state_migration.cpp:412-643 | under every failure of the store, a migration that is due succeeds if and only if each old key that is there can be loaded and converted, each of the six single records can then be read, and every save and removal works |
| MigrationOutcome.EverythingConvertsIff | src/store/fota_state_migration.cpp:446-613 | reading and converting goes through if and only if it does for each old key that is there |
| MigrationOutcome.DetectIff | src/store/fota_state_migration.cpp:420-425 | an old key is found if and only if the store does not fail before it |
| MigrationOutcome.MarkerTells | src/store/fota_state_migration.cpp:378-386 | only a marker that says so is a completed one |
| MigrationOutcome.SuccessMeans | src/store/fota_state_migration.cpp:615-643 | after a success no old key is left, the marker is complete with the number of records and the time, and the six single records load |
| MigrationOutcome.OldKeysAreNamed | src/store/fota_state_migration.cpp:46-54 | the nine old keys by name |
| MigrationCrashes.RewritingAbsorbs | src/store/fota_state_migration.cpp:446-613 | writing part of a plan and then all of it is writing all of it |
| MigratedStart.MigratedTaskHasNoSnapshot | src/store/fota_state_migration.cpp:446-464 | after a successful migration of an old vehicle task the new record loads, without the frozen task |
| MigratedStart.MigrationRestartsCounters | src/ota/fota_orchestrator.cpp:96-169 | the first process on a migrated task starts from nothing; whatever it does, its first stored execution puts the accepted number back to 0, and keeps the next number if and only if an emit got through before it or the number was 1 |
| OrchestratorClass.FotaOrchestrator.constructor | src/ota/fota_orchestrator.cpp:26-32 | a new object starts from what the store restores |
| OrchestratorClass.FotaOrchestrator.ReconcileOnStart | src/ota/fota_orchestrator.cpp:96-139 | restores task, execution, permit and counters; a stored task without snapshot resets them |
| OrchestratorClass.FotaOrchestrator.PersistVehicleTask | src/ota/fota_orchestrator.cpp:52-64 | one write of the frozen task and its state |
| OrchestratorClass.FotaOrchestrator.StoreExecution | src/ota/fota_orchestrator.cpp:66-94 | two separate writes: execution, then counters |
| OrchestratorClass.FotaOrchestrator.EmitEvent | src/ota/fota_orchestrator.cpp:144-169 | record first, counter second; refuses if and only if the outbox is full |
| OrchestratorClass.FotaOrchestrator.DoStep | src/ota/fota_orchestrator.cpp:174-209 | dispatch by state, with the two states that change before the work |
| OrchestratorClass.FotaOrchestrator.DoCheckTask | src/ota/fota_orchestrator.cpp:214-276 | the writes of task detection for every answer of the cloud |
| OrchestratorClass.FotaOrchestrator.DoConsent | src/ota/fota_orchestrator.cpp:281-331 | only the effective status moves the state |
| OrchestratorClass.FotaOrchestrator.DoDownload | src/ota/fota_orchestrator.cpp:336-440 | the loop over the packages, its early exits and its verdict |
| OrchestratorClass.FotaOrchestrator.FetchPackage | src/ota/fota_orchestrator.cpp:355-428 | what one package record becomes, and whether it holds the others back |
| OrchestratorClass.FotaOrchestrator.DoPermit | src/ota/fota_orchestrator.cpp:445-495 | window, guards and answer decide; otherwise nothing is written |
| OrchestratorClass.FotaOrchestrator.AcceptPermit | src/ota/fota_orchestrator.cpp:497-504 | the permit is durable, in three writes, before anything starts |
| OrchestratorClass.FotaOrchestrator.DoExecute | src/ota/fota_orchestrator.cpp:524-542 | start once, record it, then send |
| OrchestratorClass.FotaOrchestrator.SendPending | src/ota/fota_orchestrator.cpp:544-575 | the loop over all numbers below the next one |
| OrchestratorClass.FotaOrchestrator.SendEvent | src/ota/fota_orchestrator.cpp:548-574 | one number: skipped, marked as sent, acknowledged or kept for later |
| OrchestratorClass.FotaOrchestrator.SendOutbox | src/ota/fota_orchestrator.cpp:576-590 | watermark and execution are stored, and only without open events comes the final result |
| OrchestratorClass.FotaOrchestrator.DoFinalize | src/ota/fota_orchestrator.cpp:592-647 | report, and on acceptance close execution and task; the states they close with are `OrchestratorResults.ResultIsTaken` |
| OrchestratorClass.FotaOrchestrator.HandleControl | src/ota/fota_orchestrator.cpp:712-736 | stored before it is applied; a stored revision is a duplicate |
| OrchestratorClass.FotaOrchestrator.Confirm | src/ota/fota_orchestrator.cpp:737-761 | an applied control gets the next acknowledgement number and leaves the pending list |
| OrchestratorClass.FotaOrchestrator.RemoveId | src/ota/fota_orchestrator.cpp:743-745 | removes every occurrence of the id and nothing else |
| OrchestratorState.StateNamesReadBack | src/ota/state/vehicle_task_state.cpp:70-107 | every state name of tasks and executions is read back as its state |
| OrchestratorInvariants.StepKeeps | src/ota/fota_orchestrator.cpp:174-209 | every step, for all answers, keeps the invariant and extends a sound history |
| OrchestratorInvariants.EmitKeeps | src/ota/fota_orchestrator.cpp:144-169 | an emit keeps the invariant |
| OrchestratorInvariants.ApplyControlKeeps | src/ota/fota_orchestrator.cpp:712-763 | a control keeps the invariant |
| OrchestratorInvariants.DownloadKeeps | src/ota/fota_orchestrator.cpp:336-440 | READY is reached only with every package record ready |
| OrchestratorInvariants.RestartKeeps | src/ota/fota_orchestrator.cpp:96-137 | loading from any disk a history can leave gives back the invariant |
| OrchestratorHistory.HistoryIsSound | src/ota/fota_orchestrator.cpp:144-763 | over any history with crashes at any moment the invariant holds and the past is never changed |
| OrchestratorHistory.OutboxIsAppendOnly | src/ota/fota_orchestrator.cpp:144-169 | every number below next has its record, payloads below it never change, next never decreases, next-1 never exceeds the bound |
| OrchestratorHistory.EmittedIsKept | src/ota/fota_orchestrator.cpp:144-169 | an emit that returned true keeps its record in every later history |
| OrchestratorHistory.StartIsGated | src/ota/fota_orchestrator.cpp:529-539 | whenever the installer is started, consent is accepted if required, every package record is ready and an allowed permit was received; which one is said by `OrchestratorPermits.StartsOnLastPermitIff` |
| OrchestratorHistory.FinalIsGated | src/ota/fota_orchestrator.cpp:582-616 | the final result is reported only when every event with a payload is acknowledged |
| OrchestratorHistory.WatermarkNamesAcknowledged | src/ota/fota_orchestrator.cpp:576-580 | a durable watermark other than 0 names an acknowledged event below next |
| OrchestratorHistory.AppliedAtMostOnce | src/ota/fota_orchestrator.cpp:715-734 | with crashes at any write no control revision is applied twice |
| OrchestratorTurns.OperationMoves | src/ota/fota_orchestrator.cpp:52-763 | every operation moves the stored task and the stored execution only as one law on neighbouring moments allows |
| OrchestratorResults.ExecutionTurns | src/ota/fota_orchestrator.cpp:497-646 | over every history with stops anywhere, what each turn of the stored execution follows: FAILED if and only if the task stored is RETRY_PENDING, ROLLED_BACK from ROLLBACK and SUCCEEDED from any other begun state, each after a report that says so |
| OrchestratorResults.ResultIsTaken | src/ota/fota_orchestrator.cpp:592-646 | a final result that is accepted stores the state of the reply, or COMPLETED, then the execution it closes, and nothing else; any other changes nothing |
| OrchestratorResults.RollbacksAreAskedForIff | src/ota/fota_orchestrator.cpp:190-208 | over every history with stops anywhere, each result reported or due as a rollback follows one asked for since the last permit, if and only if no stop fell between the state and the execution of a permit given over a rollback |
| OrchestratorResults.RolledBackWasAskedFor | src/ota/fota_orchestrator.cpp:592-646 | in particular, without such a stop an execution turns ROLLED_BACK only after a rollback asked for since the last permit |
| OrchestratorResults.SucceededAfterRollbackIff | src/ota/fota_orchestrator.cpp:592-646 | an execution turns SUCCEEDED after a rollback asked for since the last permit if and only if that rollback was recorded before and the execution went on |
| OrchestratorRollbacks.RollbackEndsSucceeded | src/ota/fota_orchestrator.cpp:592-646 | a history without stops in which that happens |
| OrchestratorRollbacks.LostPermitReportsRollback | src/ota/fota_orchestrator.cpp:497-646 | a history in which a retry that was allowed is due to be reported as the rollback before it |
| OrchestratorStages.TaskFollowsPlan | src/ota/fota_orchestrator.cpp:174-646 | over every history with stops anywhere, the stored task moves only along its plan, and the frozen task is replaced only when one is detected |
| OrchestratorAnswers.AnswersAreStored | src/ota/fota_orchestrator.cpp:214-331 | after every history, what a step stores for each answer to task detection and to consent, and when it stores nothing |
| OrchestratorAnswers.ControlIsHandled | src/ota/fota_orchestrator.cpp:712-763 | every write and call for a control, and what is remembered of it |
| OrchestratorAnswers.OthersStay | src/ota/fota_orchestrator.cpp:743-745 | removing an id goes through the ids one by one and keeps the order of those it leaves |
| OrchestratorAnswers.OneIdStays | src/ota/fota_orchestrator.cpp:743-745 | of a single id it leaves nothing if and only if it is that id |
| OrchestratorGates.PermitIsGivenIff | src/ota/fota_orchestrator.cpp:445-495 | after every history a step is given a permit if and only if the stored task waits for one, its window is open, the guards pass and the cloud allows it |
| OrchestratorGates.PermitIsStored | src/ota/fota_orchestrator.cpp:497-504 | the four moments of a permit, with every field of it in the execution record |
| OrchestratorGates.InstallerIsStartedIff | src/ota/fota_orchestrator.cpp:529-541 | after every history a step starts the installer if and only if the stored task executes an installation not begun and the installer is prepared; it is handed the stored permit |
| OrchestratorSending.EmitIsRefusedIff | src/ota/fota_orchestrator.cpp:144-169 | after every history an emit is refused if and only if the next number has passed the bound; any other stores a pending event under it |
| OrchestratorSending.SendingTells | src/ota/fota_orchestrator.cpp:544-598 | after every history a step that sends makes of each event what the answer to it says, stores the largest number accepted, and reports it as final if and only if no event with a payload was refused |
| OrchestratorDownloads.PackagesAreFetched | src/ota/fota_orchestrator.cpp:336-440 | after every history each write of a step to the package records is what one package, not ready before, has become by what the step was told |
| OrchestratorDownloads.FetchIsAs | src/ota/fota_orchestrator.cpp:355-428 | offset, entity tag, revision, verification and stage result of a package after one attempt |
| OrchestratorDownloads.ReadyIsForGood | src/ota/fota_orchestrator.cpp:343-352 | over every history with stops anywhere, the record of a package that is ready never changes again |
| OrchestratorBoundaries.HistoryAgrees | src/ota/fota_orchestrator.cpp:52-763 | between the operations of every history, with stops anywhere, memory agrees with the disk |
| OrchestratorBoundaries.HistoryStaysCovered | src/ota/fota_orchestrator.cpp:544-580 | with stops between operations only, every acknowledged event has a payload and is within the watermark |
| OrchestratorBoundaries.RestartIsEquivalent | src/ota/fota_orchestrator.cpp:52-137 | after every history, with stops anywhere, a restart restores what the next step works on |
| OrchestratorBoundaries.RestartRestores | src/ota/fota_orchestrator.cpp:52-137 | a new object has the same task, execution, permit as it reads, event numbers and phase |
| OrchestratorPermits.CutKeepsPermitLeftIff | src/ota/fota_orchestrator.cpp:503-542 | a stop inside an operation leaves a permit for every start if and only if it does not fall between a start on the last permit and the record of it |
| OrchestratorPermits.StartsWithinPermitsIff | src/ota/fota_orchestrator.cpp:497-542 | over every history with stops anywhere, starts have never outnumbered permits and the next one has a permit left, if and only if no stop fell there |
| OrchestratorPermits.StartsNeverOutnumberPermits | src/ota/fota_orchestrator.cpp:497-542 | successful starts never outnumber allowed permits, with stops between operations |
| OrchestratorPermits.CutKeepsPermitCurrentIff | src/ota/fota_orchestrator.cpp:497-504 | a stop leaves the next start on the last permit allowed if and only if it does not fall between the stored state and the stored execution of a different permit |
| OrchestratorPermits.StartsOnLastPermitIff | src/ota/fota_orchestrator.cpp:497-542 | over every history with stops anywhere, every start was handed the last permit allowed and one still to come will be, if and only if no stop fell there |
| OrchestratorPermits.StartUsesLastPermit | src/ota/fota_orchestrator.cpp:535 | in particular, at each start of a history without such a stop |
| OrchestratorRetries.CutSkipsStartIff | src/ota/fota_orchestrator.cpp:497-504 | stopped anywhere while a permit is taken, the next process goes on to report a result if and only if the stop falls between the stored state and the stored execution and the earlier execution was started |
| OrchestratorRetries.ResultsFollowStartsIff | src/ota/fota_orchestrator.cpp:497-616 | over every history with stops anywhere, every result reported, and one still due, follows a successful start made since the last permit, if and only if no stop fell there |
| OrchestratorRetries.CutRetrySkipsStart | src/ota/fota_orchestrator.cpp:503-604 | after such a stop the next step whose events get through reports a result without a start |
| OrchestratorRetries.BegunIff | src/ota/fota_orchestrator.cpp:497-542 | what the tally says of a start since the last permit is what the log of calls shows |
| OrchestratorReports.FinalNumberIsLastIff | src/ota/fota_orchestrator.cpp:544-598 | over every history with stops anywhere, the number reported is next-1 if and only if the last event counts, which is read from memory, disk and the payloads to be emitted before the step |
| OrchestratorReports.WatermarkIsLastIff | src/ota/fota_orchestrator.cpp:544-575 | after sending, the watermark is the last number if and only if there is no event, it was there already, or the last event has a payload and was not acknowledged |
| OrchestratorReports.FinalNumberIsLast | src/ota/fota_orchestrator.cpp:544-598 | with stops between operations, the number reported is next-1 if and only if there is no event or the last one has a payload |
| OrchestratorTwins.StepTwins | src/ota/fota_orchestrator.cpp:174-209 | from equivalent memories the next step makes the same writes and calls |
| OrchestratorTwins.RestartsAreInvisible | src/ota/fota_orchestrator.cpp:52-209 | restarts inserted between operations change no record, no call and no phase, up to acknowledgement numbers |
| OrchestratorSessions.AcksStrictlyIncrease | src/ota/fota_orchestrator.cpp:737-761 | within one process the acknowledgement numbers strictly increase, whatever else happens |
| OrchestratorSessions.AppliedIsNotPending | src/ota/fota_orchestrator.cpp:731-745 | after the call the control id is pending if and only if the control was not applied |
| OrchestratorSessions.PendingIsUnacknowledged | src/ota/fota_orchestrator.cpp:719-745 | within one process every pending id belongs to a stored control without an acknowledgement |
| OrchestratorSessions.StepQuiet | src/ota/fota_orchestrator.cpp:174-209 | no step applies or acknowledges a control or touches the control bookkeeping, at any of its moments |
| OrchestratorControls.StoredIsAppliedIff | src/ota/fota_orchestrator.cpp:715-734 | over every history with stops anywhere, a stored control was handed to the installer at some moment if and only if no stop fell between its record and that call |
| OrchestratorControls.CrashBeforeApplyDropsControl | src/ota/fota_orchestrator.cpp:715-734 | after such a stop the control stays stored and is never applied, whatever follows |
| OrchestratorControls.AckNumbersRepeat | src/ota/fota_orchestrator.cpp:737-761 | after any history, two processes that each apply a new control send the same acknowledgement number |
| OrchestratorCounters.RestartKeepsNumberIff | src/ota/fota_orchestrator.cpp:96-112 | a restart keeps the next number if and only if the stored task has a snapshot, there is none, or nothing is numbered yet; and the accepted one likewise |
| OrchestratorCounters.FirstExecutionKeepsNumberIff | src/ota/fota_orchestrator.cpp:96-169 | whatever a process does until its first permit, the execution it then stores keeps the next number on disk if and only if the task it loaded had a snapshot, the number was 1, or an emit got through before |
| OrchestratorLimits.ReadyIffStaged | src/ota/fota_orchestrator.cpp:391-437 | a download step that reaches READY leaves every package ready if and only if each package not ready before comes with a stage result |
| OrchestratorLimits.UnstagedDownloadIsNotReady | src/ota/fota_orchestrator.cpp:391-437 | two steps from an empty store reach READY with an unready package when the download succeeds without a stage result |
| OrchestratorLimits.DefaultTaskLosesEvent | src/ota/fota_orchestrator.cpp:103-169 | a history from an empty store with a task without any field set: the number on disk goes from 2 back to 1, and the next emit overwrites event 1 |
| OrchestratorLimits.LostStartIsRepeated | src/ota/fota_orchestrator.cpp:535-541 | once a stop has lost a start, the next one that succeeds is one more than the permits |
| OrchestratorLimits.CrashAfterStartStartsAgain | src/ota/fota_orchestrator.cpp:535-541 | a history from an empty store in which two starts share one permit |
| OrchestratorLimits.CrashBeforePermitStartsWithout | src/ota/fota_orchestrator.cpp:503-535 | a history from an empty store in which the installer is handed an empty permit |
| OrchestratorLimits.CrashInRetryReportsUnstarted | src/ota/fota_orchestrator.cpp:503-604 | a history from an empty store in which a result is reported for an attempt that was allowed and never started |
| OrchestratorLimits.CrashBeforeWatermarkMisreports | src/ota/fota_orchestrator.cpp:563-598 | a history from an empty store in which the final number is 0 although event 1 was acknowledged |
| TransportClass.SomeIpVehicleMessageTransport.EvictExpired | src/ota/someip_vehicle_message_transport.cpp:230-236 | the loop keeps exactly the entries whose deadline is still ahead |
| TransportClass.SomeIpVehicleMessageTransport.ReserveInflight | src/ota/someip_vehicle_message_transport.cpp:215-223 | one locked step: evict, then insert if and only if the id is free and there is room |
| TransportClass.SomeIpVehicleMessageTransport.ReleaseInflight | src/ota/someip_vehicle_message_transport.cpp:225-228 | one locked step: the entry and the request are gone |
| TransportClass.SomeIpVehicleMessageTransport.Exchange | src/ota/someip_vehicle_message_transport.cpp:246-312 | on every path the own entry is gone; accepted only with a matching, valid response, which is returned |
| TransportClass.SomeIpVehicleMessageTransport.CallReserved | src/ota/someip_vehicle_message_transport.cpp:268-285 | each of the three ways on, too large, timed out and answered, releases the request exactly once |
| TransportClass.SomeIpVehicleMessageTransport.CheckAnswer | src/ota/someip_vehicle_message_transport.cpp:287-311 | what a released answer comes to: its failure code, or the checks of the response |
| TransportClass.SomeIpVehicleMessageTransport.CheckArrival | src/ota/someip_vehicle_message_transport.cpp:407-422 | an event is passed on only if valid and before the stop; which messages those are is `DownlinkDelivery.OnlyArrivalsGetIn` |
| TransportClass.SomeIpVehicleMessageTransport.EnqueueChecked | src/ota/someip_vehicle_message_transport.cpp:424-433 | one locked step: discarded after the stop flag, dropped and counted when full, else admitted |
| TransportClass.SomeIpVehicleMessageTransport.WorkerTurn | src/ota/someip_vehicle_message_transport.cpp:391-402 | a woken worker takes the oldest message, or exits if and only if the queue is empty |
| TransportClass.SomeIpVehicleMessageTransport.StopQueue | src/ota/someip_vehicle_message_transport.cpp:176-180 | the second stop flag follows the first |
| TransportClass.SomeIpVehicleMessageTransport.ClearInflight | src/ota/someip_vehicle_message_transport.cpp:201-205 | the end of stop empties the table |
| InflightTable.InFlightIsBoundedIff | src/ota/someip_vehicle_message_transport.cpp:215-236 | under any interleaving the requests in flight stay within the bound if and only if none is begun while the bound is reached and one of them has lapsed |
| InflightTable.StepExceedsIff | src/ota/someip_vehicle_message_transport.cpp:215-236 | a step takes the requests in flight beyond the bound if and only if it reserves in such a state |
| InflightTable.ReserveExceedsIff | src/ota/someip_vehicle_message_transport.cpp:215-236 | while the table lists exactly the requests in flight: if and only if it is full and one of its entries has expired |
| InflightTable.TimelyRunsMatch | src/ota/someip_vehicle_message_transport.cpp:215-236 | while nothing expires the table lists exactly the requests in flight |
| InflightTable.ExpiryLetsMoreIn | src/ota/someip_vehicle_message_transport.cpp:215-236 | a run that goes beyond the bound |
| InflightTable.ReusedIdIsTakenOver | src/ota/someip_vehicle_message_transport.cpp:219-228 | after any interleaving, an id still in the table is reserved again if and only if its deadline has passed, and then the first release erases the second entry |
| InflightTable.TableIsBounded | src/ota/someip_vehicle_message_transport.cpp:215-228 | under any interleaving the table stays within its bound, holds only requests in flight, and is empty when none is |
| InflightListing.BeginsIff | src/ota/someip_vehicle_message_transport.cpp:215-223 | a request is begun exactly by a reservation of an id not in flight that finds fewer entries with a later deadline than allowed |
| InflightListing.TableListsIff | src/ota/someip_vehicle_message_transport.cpp:215-236 | after any interleaving the table lists a request with a deadline if and only if it was begun with it and has since been neither released, nor cleared, nor met by a reservation at or after the deadline |
| InflightListing.InFlightIff | src/ota/someip_vehicle_message_transport.cpp:215-228 | a request is in flight if and only if it was begun and not released since |
| TransportOutcomes.RefusalsTell | src/ota/someip_vehicle_message_transport.cpp:246-258 | a request goes on if and only if it is a named request for this service and protocol, not expired and not too large; what each refusal means |
| TransportOutcomes.WaitIsAskedOrAllowed | src/ota/someip_vehicle_message_transport.cpp:260-262 | a call is waited for as long as asked, or as long as allowed if that is shorter or nothing positive was asked |
| TransportOutcomes.OutcomesTell | src/ota/someip_vehicle_message_transport.cpp:267-313 | what acceptance, a large payload, a timeout, a stop and an unknown or unavailable peer say about the answer |
| TransportOutcomes.MixedOutcomesTell | src/ota/someip_vehicle_message_transport.cpp:286-313 | what a version mismatch, a protocol error and a rejection say about the call or the response |
| DownlinkQueue.QueueIsFaithful | src/ota/someip_vehicle_message_transport.cpp:388-435 | under any interleaving: bounded, first in first out, and what came before the stop flag is what was admitted and dropped |
| DownlinkQueue.StopDrains | src/ota/someip_vehicle_message_transport.cpp:171-185 | when all workers, at least one, have exited, everything admitted has been taken |
| DownlinkQueue.WithoutWorkersNothingDrains | src/ota/someip_vehicle_message_transport.cpp:158-160 | with no worker configured nothing is ever taken |
| DownlinkDelivery.OnlyArrivalsGetIn | src/ota/someip_vehicle_message_transport.cpp:409-440 | in every run what is checked, queued, taken, dropped or late is exactly what arrived before the stop as an event for this service and protocol, not expired and not too large |
| DownlinkDelivery.RunStops | src/ota/someip_vehicle_message_transport.cpp:163-170 | calls are refused if and only if a stop has begun |
| DownlinkDelivery.RunCloses | src/ota/someip_vehicle_message_transport.cpp:163-176 | the queue is closed if and only if its flag was set after the first one |
| DownlinkDelivery.LockDecides | src/ota/someip_vehicle_message_transport.cpp:424-435 | under the lock a message is late, dropped or queued by the flag and the room there is |
| DownlinkDelivery.WorkerDecides | src/ota/someip_vehicle_message_transport.cpp:386-405 | a worker takes the oldest message or exits |
| DownlinkDelivery.WorkersDrain | src/ota/someip_vehicle_message_transport.cpp:386-405 | as long as a worker is left, turns of workers alone empty the queue, and every arrival is then accounted for |

## Left out

- The framework libraries: store internals, SOME/IP client, SHA-256, hex and logging; the contracts assumed of them are in `DurableStore`, `ExchangeEnv` and the function parameters.
- Text of JSON and of protobuf messages: both are assumed to read back what they print; floating-point JSON numbers do not occur.
- The field-by-field serializers of the cloud records, which add only easy round trips; `RecordText` states what is needed of them.
- The orchestrator's records hold states, tasks and permits as values instead of names and hex texts; `OrchestratorState.StateNamesReadBack` and `CloudStateStore.FlatRefinesTyped` connect the two levels.
- Labels, display texts and time stamps of the orchestrator's records, the contents of its requests apart from permit, control and the number and result of the final report, and the outcome record `step` returns to its caller.
- `doLogUpload` and its record, `syncPolicy`, the terms identity of a consent, and the rechecks after a permit is stored, which only set an error text.
- Data races between the timer thread and several downlink workers on the orchestrator: calls are serialised.
- Exceptions of the framework store during orchestration: such a failure is a stop at that write, and a failed save that was durable all the same is a stop after it.
- RecoveryCrashes.RecoveryIsCrashIdempotent: reads that fail, and saves that fail while the store is opened; such a start may decide otherwise, and a window it cannot read is forgotten (`RecoveryCrashes.FailedLoadForgetsWindow`).
- CloudStateStore.FotaCloudStateStore.Remove: failures of the framework store, which its methods pass on unchanged; the same holds for its loads and saves.
- The overflow of completion time plus time-to-live is undefined in C++; the model wraps around.
- `strtoull` on a text without digits is taken to leave `errno` unset, as the GNU library does.
- `std::stable_sort` is an insertion sort here: with the index as tie-break the result is the same.
- The buffer a finalized encoder is left with: the code moves it away, the model leaves it empty.
- `start` and `publish` of the transport, its subscriptions and the dispatch to handlers, the wait for in-flight requests during `stop`, and the restart of a stopped transport.
- TransportClass.SomeIpVehicleMessageTransport.Exchange: one call without other threads in between; the interleaving of its locked sections with others is in `InflightTable`.
- The sequence number of 64 bits that would wrap around after 2^64 events; the outbox bound of 32 bits is reached first.
- Configuration checks, address resolution, the daemon, `main`, signals and the diagnostic client.
