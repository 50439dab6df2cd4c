# OpenTag Station: a verified model

OpenTag Station is the firmware of a filament station: it weighs spools, reads
and writes OpenPrintTag NFC tags, looks spools up in Spoolman, and updates itself
over the air. This project models the parts of it that must hold up under power
cuts, lost tags, lost converters and threads that interleave, and proves what they
promise. `dafny verify dfyconfig.toml` checks everything.

**Form.** Code that changes state step by step is modelled twice: as a class or
method with the same statements, and as functions on values that specify it. The
method's `ensures` equates the two; invariants and theorems over whole runs are
lemmas about the functions. A foreign call (flash, otadata, record store, reader,
backend, converter) is answered by a sequence that the environment chooses freely,
so a theorem over every sequence covers every failure and every power cut.

**Firmware update** (`OtaModel`, `OtaSteps`, `OtaInvariant`, `OtaRuns`,
`OtaTheorems`, `OtaImages`, `OtaRecords`, `OtaForward`, `OtaAnswers`, `OtaInstalls`,
`OtaUnsafeRuns`, `OtaReachedStates`, `UpdateManager`). Two
slots with bytes and bootloader states, the boot selection, the slot rejected last,
the durable record and the manager's memory. Assumed of the bootloader:
a reset runs the selected slot; a new image becomes pending when it runs; an image
still pending at the next reset is aborted, remembered as the last invalid one until
its slot is selected again, and the other slot runs; a slot is selected, and a staged
image accepted, only if its image passes a check, which is an arbitrary predicate on
the bytes. A call may take effect, be refused, take effect and still report an error,
or be the point at which power is lost; a failed save has no effect. SHA-256 is an
arbitrary function of the bytes.

The central result is that a large invariant holds in every run, and that three
guards, which the code does not have, are exactly what it needs: a call keeps the
invariant under every environment if and only if its guard holds (`GuardExact`), and
under one given environment if and only if its guard holds or the environment does
not do the particular damage (`SafeCallExact`). Runs are safe when each call is, so a
retry whose save succeeds belongs to them. `OtaUnsafeRuns` says what the
lack of each guard costs in every state that violates it, and `OtaReachedStates`
gives safe runs from a new station into such states:

- `activate` retried after a selection that took effect unseen (the platform reported
  an error and did not answer afterwards) clears the in-memory intent when its save
  fails; `cancel` is then let through, and the selected, whole and validated image is
  rolled back at its first boot.
- `recover_rollback_seed` decides by the boot selection last read, with the same
  consequence. (`activate` refreshes it first.)
- `begin_upload` erases the slot before its record is saved. If the store still
  claims a staged image there, because a cancellation could not be saved, a cut right
  after the erase leaves a record that claims a validated image in an empty slot. The
  next boot may offer that image; the bootloader's check refuses every activation of
  it, and it can be cancelled.

What a call reports means what it says: under every answer, success is an achieved
result (`SuccessMeans`) and failure leaves what runs as it was (`FailureMeans`); when
everything outside answers, a call succeeds exactly if it is due
(`WorkingCallSucceeds`), and so every image that the bootloader accepts can be
installed (`EveryImageInstalls`).

Two more promises hold on a condition. A staged image survives a reset unless its
slot is the one the bootloader rejected last (`StagedImageSurvives`; the test at
test/test_ota_core/test_main.cpp:640 resets without such a slot); an ordinary run, a rolled-back candidate followed by
the next upload, loses its image that way (`LostImageIsReached`). No boot on a valid
image is a dead end unless the record is a rollback record of an image that was never
validated and whose slot is selected although another one runs
(`WayForwardUnlessStranded`). No run gets there, with or without the guards: in this
model a boot always runs the selected slot, and a bootloader that cannot load the
selected image and runs the other one is not part of it.

**Record checksum** (`Crc32`, `RecordChecksum`, `RecordCoverage`): the CRC in
bit-vectors, equal to section 8 of RFC 1952, the corruption it always detects, and
that no field of the record escapes it.

**Command slots** (`SlotPool`, `SlotProgress`, `OtaWorker`): any number of callers, with timeouts,
around the owner task, four slots and a queue of four.

**Tag writing** (`TagPlan`, `TagWriter`, `TagSuccess`, `OpenPrintTagWriter`,
`JournalCodec`): the order of block commits, the journal saved before the first of them, classification
and resumption, and the journal's bytes in three versions. Single block writes are
all or nothing; a commit may report the opposite of what it did. The codec is an
arbitrary function whose main section starts at byte 4 or later and leaves room for
the identity; the journal checksum is an arbitrary function.

**Scale** (`ScaleFilter`, `RuntimeZero`, `ScaleLoop`, `ScaleReceipts`, `ScaleTask`): the trimmed mean
over reals, the slow zero correction, and measurement sessions under reconfiguration
and ADC loss, with 32-bit timers that wrap.

**Reading and lookup** (`TagReading`, `ReadOnlyService`, `SpoolLookup`,
`StationWorkflow`): stabilizing polls, the chunked memory copy, and the lookup that
runs while tags change.

**Weigh sessions** (`WeighSessions`, `WeighSync`), **scan list** (`ScanResults`),
**receipts** (`OperationRegistry`) and **version policy** (`VersionPolicy`). A
receipt identifier can repeat in one way: `reserve_ids_above` restarts a counter that
stopped after the last 64-bit identifier, and `ReserveIdsAbove` says exactly when
identifiers stay unique. Versions are the texts of well-formed versions, which is
what the pattern accepts.

## Model

| member | source | states |
|---|---|---|
| `OtaRuns.RunKeeps` | src/ota/update_manager.cpp:451-1216 | in every run of safe calls, waits and resets from a never-updated station, with power cut at any single save or flash call, the invariant holds: what the record, the slots, the boot selection and the manager's memory promise each other |
| `OtaRuns.SafeCallExact` | src/ota/update_manager.cpp:650-970 | a call that meets given answers keeps the invariant if and only if its guard holds or these answers spare it: the erase is followed by a successful save, the retry's intent is saved or power fails at it, the recovery's save fails |
| `OtaRuns.GuardExact` | src/ota/update_manager.cpp:650-970 | a call keeps the invariant under every answer of store and platform if and only if its guard holds: no upload while the store still claims the slot's image, no activation retry while a selection nobody saw is in effect, no seed recovery while the other slot is selected |
| `OtaRuns.GuardedCallKeeps` | src/ota/update_manager.cpp:650-1216 | each call of the manager keeps the invariant for every environment when its guard holds |
| `OtaRuns.UploadExact` | src/ota/update_manager.cpp:650-737 | an upload over a slot the store still claims keeps the invariant if and only if it does not end with the slot erased and nothing saved after that |
| `OtaRuns.RetryExact` | src/ota/update_manager.cpp:871-970 | an activation retried while an unseen selection is in effect keeps the invariant unless the platform answers and the save of its intent is refused: then the intent is forgotten although the target is selected |
| `OtaRuns.RecoveryExact` | src/ota/update_manager.cpp:405-449 | the seed recovery, which trusts the boot selection last read, clears the durable intent of a selection that took effect exactly when its save succeeds |
| `OtaInvariant.RebootRestores` | src/ota/update_manager.cpp:451-455 | whatever a power cut leaves behind, the bootloader hands over a device whose boot selection is the running slot and whose pending image has a matching record |
| `OtaInvariant.InitializeKeeps` | src/ota/update_manager.cpp:451-643 | a boot re-establishes the invariant whatever store and platform answer and wherever power fails again inside it |
| `OtaInvariant.ActivateKeeps` | src/ota/update_manager.cpp:871-970 | activation, with its recovery, intent save, selection and reconciliation of an ambiguous failure, keeps the invariant unless an unseen selection is in effect |
| `OtaInvariant.SelectTargetKeeps` | src/ota/update_manager.cpp:927-969 | once the intent is durable, selecting the target keeps the invariant whether the platform reports success, failure, or failure after taking effect |
| `OtaInvariant.PlatformActivateKeeps` | src/platform/ota/esp32_ota_platform.cpp:433-489 | seeding the running image and selecting the other slot keep the invariant at every cut and for every ambiguous answer |
| `OtaInvariant.WriteChunkKeeps` | src/ota/update_manager.cpp:739-785 | a chunk keeps bytes received, bytes written and bytes hashed equal, or ends the upload |
| `OtaInvariant.FinishUploadKeeps` | src/ota/update_manager.cpp:787-869 | only an image of the declared length and digest becomes staged |
| `OtaInvariant.CancelKeeps` | src/ota/update_manager.cpp:1022-1049 | cancelling keeps the invariant although both of its saves may fail |
| `OtaInvariant.ConfirmCandidateKeeps` | src/ota/update_manager.cpp:1080-1149 | confirming keeps the invariant when the bootloader call is ambiguous or the save fails |
| `OtaInvariant.RollbackCandidateKeeps` | src/ota/update_manager.cpp:1151-1216 | rolling back keeps the invariant although its record may not be saved |
| `OtaTheorems.EveryBootResolves` | src/ota/update_manager.cpp:451-643 | after any safe run, at whatever point it was cut, a boot with an answering store ends in the one phase that the record and the running slot dictate: a pending target is the candidate, a pending old image keeps the update staged; on a settled image an interrupted upload has failed, a rejected target is rolled back, a running valid target is confirmed, a selection that never ran has failed, a staged image stays staged; the selection and the images stay and no image is given up |
| `OtaTheorems.SelectionIsVerified` | src/ota/update_manager.cpp:871-970 | in every safe run the boot selection leaves the running slot only for a slot holding exactly image_size bytes with the declared SHA-256 that the bootloader accepts, while the running image is valid |
| `OtaTheorems.UploadIsConserved` | src/ota/update_manager.cpp:739-785 | during an upload bytes received = bytes written = bytes hashed, and the store claims nothing about the slot |
| `OtaImages.CandidateWaitsThirtySeconds` | src/ota/update_manager.cpp:1080-1149 | in every safe run, whatever call, wait or boot comes next and wherever it is cut, the image in a slot becomes valid only by its confirmation as the running candidate 30000 ms or more after its boot, or as the old firmware, running, whose otadata was being seeded for an update of the other slot; the timer wrap is covered |
| `OtaImages.BootMarks` | src/ota/update_manager.cpp:451-643 | a boot, under every answer and cut, marks at most the running image valid, and only on a seed record for the other slot |
| `OtaImages.OnlyFourCallsTouchImages` | src/ota/update_manager.cpp:650-1078 | upload, cancel, reboot request and stabilizing never change the boot selection or an image state, whatever fails |
| `OtaForward.BootNeverReturnsRebootPending` | src/ota/update_manager.cpp:542-642 | for every record, platform state and store answer, a successful boot is never in reboot_pending |
| `OtaForward.WayForwardUnlessStranded` | test/test_ota_core/test_main.cpp:1574-1720 | on a valid running image, for every record the manager can write and every boot and last-invalid position, the boot leaves an upload, a cancel, or activate and reboot possible, if and only if the record is not a never-validated rollback record whose slot is selected again |
| `OtaRecords.RunWrites` | src/ota/update_manager.cpp:223-254 | in every run, guarded or not, the store holds only records the manager itself would write |
| `OtaForward.EveryRunHasAWayForward` | src/ota/update_manager.cpp:542-642 | in every run, guarded or not, every boot onto a valid image leaves an upload, a cancel, or activate and reboot possible |
| `OtaForward.StagedImageSurvives` | test/test_ota_core/test_main.cpp:640-680 | a reset keeps a staged image, record and bytes, if and only if its slot is not the one the bootloader rejected last; else the update reads as rolled back |
| `OtaAnswers.SuccessMeans` | src/ota/update_manager.cpp:650-1216 | whatever store and platform answer, success is an achieved result: the upload is open for the announced image; the chunk is written, hashed, counted and recorded at its milestones; the staged image has the declared digest and passed every platform check; the target is selected with a durable intent; the confirmed candidate is the running target and valid for the bootloader; a rollback runs the known-good image |
| `OtaAnswers.FailureMeans` | src/ota/update_manager.cpp:309-330 | in every state and under every answer, a failed call leaves the phase or one that names the failure, claims no validated image when failed, and never changes what runs |
| `OtaAnswers.WorkingCallSucceeds` | src/ota/update_manager.cpp:650-1216 | when every outside call answers, each call of the manager succeeds if and only if it is due; a confirmation is due for a validated candidate, 30000 ms after its boot, with its image pending or valid |
| `OtaAnswers.ConfirmationRefused` | src/ota/update_manager.cpp:1125-1134 | a confirmation that the bootloader refuses fails, keeps the candidate in validating_candidate and its image pending |
| `OtaInstalls.EveryImageInstalls` | src/ota/update_manager.cpp:650-1149 | when nothing fails, any image the bootloader accepts, sent in any chunks from any state that may begin an upload, ends as the confirmed running firmware, byte for byte, with the old one kept in the other slot |
| `OtaInstalls.UploadStages` | src/ota/update_manager.cpp:650-869 | an image sent whole, in any pieces, is staged |
| `OtaInstalls.StagedIsSelected` | src/ota/update_manager.cpp:871-1020 | a staged image is selected and its reset recorded, the running image untouched |
| `OtaInstalls.SelectedBoots` | src/ota/update_manager.cpp:499-563 | the reset after a selection runs the new image as the candidate, pending, with its evidence |
| `OtaInstalls.CandidateIsKept` | src/ota/update_manager.cpp:1080-1149 | thirty seconds after its boot a candidate is confirmed on request and becomes valid |
| `OtaUnsafeRuns.UnguardedRetry` | src/ota/update_manager.cpp:911-960 | in every state with an unseen selection: a retry whose save fails, a cancellation and a reset roll the whole, validated image back and end with the old one |
| `OtaUnsafeRuns.UnguardedRecovery` | src/ota/update_manager.cpp:405-449 | in every state with an unseen selection: a seed recovery on the cached selection and a reset do the same |
| `OtaUnsafeRuns.UnguardedUpload` | src/ota/update_manager.cpp:650-737 | in every state in which the store claims the slot an upload may erase: after a cut with nothing saved the next boot ends the record, or, exactly if it is staged, not activated and not rejected, offers a validated image over the empty slot, which no activation selects and which a cancellation clears on a valid running image |
| `OtaUnsafeRuns.UnbootableIsRefused` | src/platform/ota/esp32_ota_platform.cpp:433-489 | while the other slot fails the bootloader's check, every activation under every answer is refused and leaves the boot selection and the slot as they are |
| `OtaReachedStates.SelectionGuardsCanFail` | src/ota/update_manager.cpp:927-960 | an upload and one ambiguous activation, a safe run from a new station, reach a state in which retry and recovery need their guards |
| `OtaReachedStates.UploadGuardCanFail` | src/ota/update_manager.cpp:1022-1049 | an upload and a cancellation that cannot be saved reach a state in which the next upload needs its guard |
| `OtaReachedStates.LostImageIsReached` | src/ota/update_manager.cpp:565-585 | a rolled-back candidate followed by the next upload: a safe run after which a reset reports the staged, validated image as rolled back |
| `UpdateManager.Manager.InitializeFromBoot` | src/ota/update_manager.cpp:451-540 | the boot, statement by statement, does to the whole world what the step function says |
| `UpdateManager.Manager.Reconcile` | src/ota/update_manager.cpp:499-563 | the record is reconciled with the running image as the step function says |
| `UpdateManager.Manager.EndRecord` | src/ota/update_manager.cpp:565-642 | interrupted, rejected, hopeless and settled records end as the step function says |
| `UpdateManager.Manager.RollBackUnreconciled` | src/ota/update_manager.cpp:332-386 | a pending image without evidence is recorded when possible and rolled back in any case |
| `UpdateManager.Manager.RecoverSeed` | src/ota/update_manager.cpp:405-443 | the seed recovery confirms, clears the intent and restores it when the save fails |
| `UpdateManager.Manager.Fail` | src/ota/update_manager.cpp:309-330 | failing closes the writer, drops the hash and records the failure |
| `UpdateManager.Manager.BeginUpload` | src/ota/update_manager.cpp:650-706 | the upload request is refused or numbered and opened as the step function says |
| `UpdateManager.Manager.OpenUpload` | src/ota/update_manager.cpp:706-737 | hash, erase and first save, each ending the upload when it fails |
| `UpdateManager.Manager.WriteChunk` | src/ota/update_manager.cpp:739-785 | a chunk is checked, written, hashed and its progress recorded at the milestones |
| `UpdateManager.Manager.FinishUpload` | src/ota/update_manager.cpp:787-826 | length check, durable validating state and digest check |
| `UpdateManager.Manager.Stage` | src/ota/update_manager.cpp:824-869 | the writer is closed, the image judged, and the staged state saved |
| `UpdateManager.Manager.Activate` | src/ota/update_manager.cpp:871-925 | owner check, recovery, idempotent retry and durable intent |
| `UpdateManager.Manager.SelectTarget` | src/ota/update_manager.cpp:927-969 | selection and the reconciliation of its failure |
| `UpdateManager.Manager.MarkRebootPending` | src/ota/update_manager.cpp:972-996 | the reboot mark is taken back when it cannot be saved |
| `UpdateManager.Manager.Cancel` | src/ota/update_manager.cpp:1022-1049 | an upload or a staged, not intended image is cleared |
| `UpdateManager.Manager.Stabilize` | src/ota/update_manager.cpp:1051-1073 | the stabilizing decision is recorded once |
| `UpdateManager.Manager.ConfirmCandidate` | src/ota/update_manager.cpp:1080-1149 | evidence, window, identity and bootloader state are checked before confirming, and the answer is that of the step function, whose two outcomes `OtaAnswers.SuccessMeans` and `ConfirmationRefused` fix |
| `UpdateManager.Manager.RollbackCandidate` | src/ota/update_manager.cpp:1151-1185 | the rollback is offered only for the running target with a known-good image |
| `Crc32.StepReversible` | src/ota/update_manager.cpp:28-33 | no two register states step to the same one |
| `Crc32.StepLinear` | src/ota/update_manager.cpp:28-33 | the bit step distributes over exclusive or |
| `Crc32.EightLinear` | src/ota/update_manager.cpp:28-33 | a whole byte step is linear |
| `Crc32.CrcIsRfc1952` | src/ota/update_manager.cpp:28-33 | the bit-serial register equals the table-driven one of section 8 of RFC 1952 for every byte stream |
| `Crc32.WordAtOnce` | src/ota/update_manager.cpp:28-33 | four bytes act on the register as one 32-bit word under an injective map |
| `Crc32.WindowDetected` | src/ota/update_manager.cpp:28-42 | two streams of equal length that differ only within four consecutive bytes never share a checksum |
| `RecordChecksum.ChecksumIsRfc1952` | src/ota/update_manager.cpp:174-194 | the record checksum is the CRC-32 of RFC 1952, complements included |
| `RecordChecksum.CorruptionRejected` | src/ota/update_manager.cpp:196-212 | an accepted record corrupted within four consecutive bytes of its stream is rejected |
| `RecordChecksum.StatusIsProtected` | test/test_ota_core/test_main.cpp:788-813 | no change of state, flags and reserved together leaves a record acceptable |
| `RecordChecksum.LengthIsProtected` | src/ota/update_manager.cpp:174-212 | no change of the declared length leaves a record acceptable |
| `RecordChecksum.SealedIsAccepted` | src/ota/update_manager.cpp:223-250 | a record sealed by the manager passes the check made on loading it |
| `RecordCoverage.EveryFieldIsCovered` | src/ota/update_manager.cpp:174-194 | two records with the same checksummed stream differ at most in the stored checksum: no field of the record is left out |
| `RecordCoverage.DamageIsRejected` | src/ota/update_manager.cpp:174-212 | an accepted record changed in any way within four consecutive bytes of its stream is rejected |
| `RecordCoverage.FieldIsProtected` | src/ota/update_manager.cpp:174-212 | a change within four consecutive bytes of any one number, digest or text is rejected |
| `RecordCoverage.SmallFieldsAreProtected` | src/ota/update_manager.cpp:52-57 | no change of the target's address, size or subtype, of the bytes received or of a timestamp leaves a record acceptable |
| `RecordChecksum.FeedByte` | src/ota/update_manager.cpp:28-33 | the eight-step loop over one byte |
| `RecordChecksum.FeedUnsigned` | src/ota/update_manager.cpp:35-42 | an unsigned value enters as its little-endian bytes |
| `RecordChecksum.FeedText` | src/ota/update_manager.cpp:44-50 | a bounded text enters as its length and its whole buffer |
| `RecordChecksum.UpdateRecordChecksum` | src/ota/update_manager.cpp:174-194 | the accumulated value is the checksum of the serialized record, in which `RecordCoverage.EveryFieldIsCovered` finds every field |
| `SlotPool.NobodyIsTurnedAway` | src/application/ota_worker.cpp:213-260 | in every interleaving no caller finds the queue full, none is left without a result, and each result answers the caller's own command |
| `SlotPool.BusySlotsAreNotReused` | src/application/ota_worker.cpp:181-203 | a slot that is queued or with the owner is released by nobody but the owner and never handed out; the pending count never falls below the queue |
| `SlotPool.EveryReservationEndsOnce` | src/application/ota_worker.cpp:221-306 | each reservation is released exactly once and its result goes to exactly one of caller and owner |
| `SlotPool.NothingLeaks` | src/application/ota_worker.cpp:181-306 | when all callers have returned and the owner is idle, every slot is free and every reservation released |
| `SlotProgress.EverySlotComesBack` | src/application/ota_worker.cpp:181-306 | after any interleaving callers and owner can go on until every caller has returned, every slot is free and every reservation is released |
| `SlotProgress.SomeStepHelps` | src/application/ota_worker.cpp:181-306 | in every state but rest some caller or the owner can take a step that brings the end nearer, so nothing waits in a circle |
| `SlotPool.RunSound` | src/application/ota_worker.cpp:181-306 | the pool's invariant holds after any interleaving of callers, timeouts and owner |
| `SlotPool.QueueHasRoom` | src/application/ota_worker.cpp:213-219 | a slot about to be queued finds room, because queued slots are distinct |
| `OtaWorker.Worker.ReserveSlot` | src/application/ota_worker.cpp:181-203 | the first free slot, in order, is drained, cleared and reserved |
| `OtaWorker.Worker.EnqueueSlot` | src/application/ota_worker.cpp:213-219 | the pending count is raised before the send and lowered, and the slot freed, when the queue is full |
| `OtaWorker.Worker.CollectResult` | src/application/ota_worker.cpp:227-241 | a woken caller takes its result and frees the slot |
| `OtaWorker.Worker.ResolveTimeout` | src/application/ota_worker.cpp:243-260 | after a timeout a late result is taken and the semaphore drained, or the slot is abandoned |
| `OtaWorker.Worker.ReceiveCommand` | src/application/ota_worker.cpp:805-811 | the owner takes the oldest command and lowers the count |
| `OtaWorker.Worker.CompleteSlot` | src/application/ota_worker.cpp:262-306 | a waiting caller's result is stored before the wakeup; an abandoned one stays with the owner |
| `OtaWorker.Worker.FinishLate` | src/application/ota_worker.cpp:298-301 | an abandoned slot is freed only after the owner's late work |
| `TagPlan.PlanIsExact` | src/nfc/openprinttag_writer.cpp:234-266 | a plan holds exactly the usable blocks that differ, each once, block 0 last |
| `TagPlan.IdentityAfterPayload` | src/nfc/openprinttag_writer.cpp:244-262 | every other payload block is committed before any identity block and before the header |
| `TagPlan.WriteOrderIsComplete` | src/nfc/openprinttag_writer.cpp:244-262 | the write order names each of the 78 usable blocks once |
| `TagPlan.MakePlan` | src/nfc/openprinttag_writer.cpp:234-266 | the two loops and the header test produce the plan, or refuse a target that touches blocks 78-79 or does not decode |
| `TagPlan.MakeClearPlan` | src/nfc/openprinttag_writer.cpp:218-233 | the clear plan blanks the usable blocks and ends with the header |
| `TagWriter.WritesAPrefix` | src/nfc/openprinttag_writer.cpp:286-316 | wherever it stops, an execution has committed a prefix of its plan, one effective commit per block, all of it on success |
| `TagWriter.NeverTorn` | src/nfc/openprinttag_writer.cpp:154-176 | over any number of interrupted writes and clears a read never finds a block the journal does not know, and without a journal the tag holds the image it began with, the target of the last finished plan, or what the user accepted by discarding a journal |
| `TagWriter.AssociatesTheTarget` | src/services/tag_writer_service.cpp:1386-1423 | in every run, when an association drops the journal the tag is the verified plan's target, which is the journal's target |
| `TagWriter.RunsConserve` | src/nfc/openprinttag_writer.cpp:267-355 | toward one target, effective commits plus blocks still differing is constant: at most 78 commits in all, and the difference never grows |
| `TagWriter.ResumePlansTheRest` | src/nfc/openprinttag_writer.cpp:234-266 | a resumed write plans exactly the blocks that still differ; success means the whole tag is the target |
| `TagWriter.HeaderAndIdentityLast` | src/nfc/openprinttag_writer.cpp:244-262 | interrupted anywhere, the header changed only if the whole target is on the tag, an identity block only if the other payload is |
| `TagWriter.TailIsPreserved` | src/nfc/openprinttag_writer.cpp:234-241 | blocks 78-79 keep their contents in every run |
| `TagWriter.RunKeeps` | src/services/tag_writer_service.cpp:1476-1520 | journal, plan and tag agree after any previews, confirmations, resets and discards |
| `TagSuccess.SuccessMeans` | src/nfc/openprinttag_writer.cpp:267-355 | an execution that succeeds leaves its target on the tag, decodable and identified after a write, blank after a clear; the plan is verified exactly then |
| `TagSuccess.WorkingExecution` | src/nfc/openprinttag_writer.cpp:267-355 | when every call works, a plan made for the tag as it is leaves the target on the tag, and succeeds if and only if the target decodes and is identified, or is blank for a clear |
| `TagSuccess.WriteGoesThrough` | src/services/tag_writer_service.cpp:1386-1522 | after any run, interrupted or not, preview, confirmation and association with working calls leave the target on the tag and no journal; a target that is none is refused and the tag left alone |
| `TagSuccess.ClearGoesThrough` | src/services/tag_writer_service.cpp:1386-1522 | after any run every readable tag can likewise be cleared |
| `TagSuccess.WhatIsReadable` | src/nfc/openprinttag_writer.cpp:98-204 | in every run a tag can be read if and only if it is blank, or declares no write protection and is decodable or under an unfinished journal |
| `TagSuccess.RefusalOwesNothing` | src/services/tag_writer_service.cpp:1476-1522 | a write refused before its first commit leaves no journal and the tag as it was |
| `OpenPrintTagWriter.Writer.FullRead` | src/nfc/openprinttag_writer.cpp:77-97 | every block is read once in order behind its own fence |
| `OpenPrintTagWriter.Writer.CommitBlock` | src/nfc/openprinttag_writer.cpp:301-304 | the single way a tag block changes |
| `OpenPrintTagWriter.Writer.WriteAll` | src/nfc/openprinttag_writer.cpp:286-316 | the commit loop |
| `OpenPrintTagWriter.Writer.VerifyAll` | src/nfc/openprinttag_writer.cpp:317-354 | the closing read, comparison and decode, whose verdict `TagSuccess.SuccessMeans` and `WorkingExecution` fix |
| `OpenPrintTagWriter.Writer.Execute` | src/nfc/openprinttag_writer.cpp:267-355 | the whole execution in source order; when it succeeds and what success means are `TagSuccess.WorkingExecution` and `SuccessMeans` |
| `OpenPrintTagWriter.ClassifyBlocks` | src/nfc/openprinttag_writer.cpp:154-176 | the tag is target, original, a mixture, or unknown, judged block by block |
| `JournalCodec.DecodeEncode` | src/nfc/writer_journal_codec.hpp:21-87 | decoding the encoding of a plan gives the plan back, signed fields, flags and optional instance included, if and only if the plan is legal |
| `JournalCodec.DecodesVersion1` | src/nfc/writer_journal_codec.hpp:42-87 | a version 1 record, laid out field by field, restores tag, both images, spool and backend as a write without previous owner, if and only if that is legal |
| `JournalCodec.DecodesVersion2` | src/nfc/writer_journal_codec.hpp:42-87 | a version 2 record restores the previous owner as well |
| `JournalCodec.OldRecordsReproduce` | src/nfc/writer_journal_codec.hpp:42-87 | an accepted record of an older version is byte for byte what that version wrote for the plan it restores |
| `JournalCodec.WhatARecordPermits` | src/nfc/writer_journal_codec.hpp:78-86 | only a current record permits a clear, and only toward a blank image that keeps the tag's last eight bytes; a write needs a spool that is not its own previous owner; nothing decodes as verified but a pending cleanup |
| `JournalCodec.MigrationKeepsThePlan` | src/nfc/writer_journal_codec.hpp:42-87 | any accepted record of version 1, 2 or 3, rewritten as version 3, decodes to the same plan, whose UID and images lie at offsets 8, 161 and 481; the older two are writes |
| `JournalCodec.EncodeDecode` | src/nfc/writer_journal_codec.hpp:21-41 | rewriting an accepted version 3 record reproduces its bytes exactly unless it stores an instance it does not announce |
| `JournalCodec.GetPut` | src/nfc/writer_journal_codec.hpp:11-20 | a stored word reads back |
| `JournalCodec.JournalPut` | src/nfc/writer_journal_codec.hpp:11-14 | a word is written little-endian at its offset and nothing else changes |
| `JournalCodec.JournalGet` | src/nfc/writer_journal_codec.hpp:15-20 | the four bytes at an offset as a word |
| `JournalCodec.EncodeWriterJournal` | src/nfc/writer_journal_codec.hpp:21-41 | the buffer ends as the encoding of the plan |
| `JournalCodec.DecodeWriterJournal` | src/nfc/writer_journal_codec.hpp:42-87 | the result is the decoding of the bytes, or none, in all three layouts |
| `ScaleFilter.FifthMayBeWrong` | src/services/scale_service.cpp:295-312 | with at most a fifth of the window arbitrary, the trimmed mean and both ends stay within the range of the other samples |
| `ScaleFilter.TrimmedMeanIsExact` | src/services/scale_service.cpp:295-312 | the mean times the count is the sum of what is left when the lowest and the highest fifth of the samples, rounded down, are cut off; minimum and maximum are its ends |
| `ScaleFilter.TrimmedMeanIsRobust` | src/services/scale_service.cpp:295-312 | the same from counts of samples below and above a range |
| `ScaleFilter.OneMoreIsTooMany` | src/services/scale_service.cpp:302 | the fifth is tight: two wrong samples of five can move the mean |
| `ScaleFilter.Filter.PushSample` | src/services/scale_service.cpp:533-537 | the ring holds the last samples, at most a window of them, after every sample |
| `ScaleFilter.Filter.FilterStatistics` | src/services/scale_service.cpp:295-312 | the statistics describe exactly the last samples since the reset |
| `RuntimeZero.UpdateIsBounded` | src/services/scale_service.cpp:332-404 | the correction stays within the maximum in counts and moves at most one step, only after a full dwell near zero |
| `RuntimeZero.StepsPerDwell` | src/services/scale_service.cpp:363-372 | over any time the correction moves at most one step for each full dwell, timer wrap included |
| `RuntimeZero.ConvergesExactly` | src/services/scale_service.cpp:374-404 | on a constant quiet reading the distance to the target shrinks by one step per dwell, so it is reached after distance divided by step adjustments, rounded up, and kept |
| `RuntimeZero.RestsAtTarget` | src/services/scale_service.cpp:385-396 | at the target nothing moves |
| `RuntimeZero.Tracker.UpdateRuntimeZero` | src/services/scale_service.cpp:332-404 | the update in place |
| `ScaleLoop.NoSessionIsOrphaned` | src/application/application.cpp:572-637 | in every run of the loop, ADC loss, re-initialization and hardware changes included, an active command has a settling session of its own kind younger than measurement plus sample timeout, and every command has exactly one terminal receipt or one place |
| `ScaleReceipts.ReceiptsAreHonest` | src/application/scale_command_queue.cpp:91-194 | in every run a receipt reports success exactly for a command whose own session settled and was finished; expired, refused, rejected, timed-out and failed commands are reported as failed |
| `ScaleReceipts.ActiveCommandEnds` | src/application/scale_command_queue.cpp:91-150 | the measured command fails when settings change, the converter breaks, samples stop or its time is up; with a settled sample it ends as its finishing does; else it stays |
| `ScaleReceipts.QueuedCommandStarts` | src/application/scale_command_queue.cpp:150-194 | the oldest command starts if and only if it waited at most ten seconds, is not refused and its session can begin; else it fails |
| `ScaleReceipts.ZeroFollowsTheSession` | src/services/scale_service.cpp:670-783 | a tare that ends otherwise than by being finished leaves no zero; a finished one leaves a zero, a finished calibration a zero and a calibration |
| `ScaleReceipts.ServiceComesAndGoes` | src/application/application.cpp:607-625 | the fifth failed poll in a row takes the service down, no earlier one; it comes back exactly when five seconds have passed since the last attempt and the converter answers, with what the store holds |
| `ScaleLoop.RunHolds` | src/application/application.cpp:572-637 | the session and receipt invariants hold after every iteration |
| `ScaleLoop.IterateKeeps` | src/services/scale_service.cpp:149-281 | one iteration keeps them: a session ended by new settings or a lost ADC stays visible until its command has its receipt |
| `ScaleLoop.PollActive` | src/services/scale_service.cpp:479-531 | a poll leaves a session settling only while samples keep coming and its time is not up |
| `ScaleTask.ScaleService.Reconfigure` | src/services/scale_service.cpp:149-169 | new settings fail a running session visibly |
| `ScaleTask.ScaleService.Initialize` | src/services/scale_service.cpp:193-281 | initialization keeps a failed session visible |
| `ScaleTask.ScaleService.Poll` | src/services/scale_service.cpp:636-668 | samples, missing samples and errors |
| `ScaleTask.ScaleService.AdvanceMeasurement` | src/services/scale_service.cpp:479-531 | ready, completed or timed out |
| `ScaleTask.ScaleService.BeginMeasurement` | src/services/scale_service.cpp:406-477 | which sessions may start |
| `ScaleTask.ScaleService.Tare` | src/services/scale_service.cpp:670-706 | the zero is captured or the session fails |
| `ScaleTask.ScaleService.Calibrate` | src/services/scale_service.cpp:708-783 | the calibration is stored or the session fails |
| `ScaleTask.ScaleCommandQueue.Submit` | src/application/scale_command_queue.cpp:13-34 | a command is queued, or ends at once when the queue is full |
| `ScaleTask.ScaleCommandQueue.ProcessOne` | src/application/scale_command_queue.cpp:91-194 | the active command ends with its session; else the oldest queued one expires, is refused or starts; what each receipt reports is `ScaleReceipts.ActiveCommandEnds` and `QueuedCommandStarts` |
| `ScaleTask.ScaleCommandQueue.Iterate` | src/application/application.cpp:572-637 | one iteration of the task |
| `TagReading.PublicationsAreStable` | src/nfc/read_only_service.cpp:126-171 | every completed read, blank, unsupported or published, was of a tag seen alone on three or more polls in a row, took two identical full reads, and has a generation of its own; what is published is the last of them |
| `TagReading.PublicationIsEarned` | src/nfc/read_only_service.cpp:226-310 | whatever a poll newly publishes was read twice alike in that poll, from the UID that this poll and the two or more before it found alone, under a generation no earlier read had |
| `TagReading.ThirdPollReads` | src/nfc/read_only_service.cpp:264-296 | after any run, a new tag that stays is read on the third poll and not before, and published if it decodes |
| `TagReading.FailedReadsAreRepeated` | src/nfc/read_only_service.cpp:281-296 | a failed read is repeated on the next poll; only the third failure in a row ends in an error |
| `TagReading.WhatAPollShows` | src/nfc/read_only_service.cpp:172-262 | a working poll shows several tags, none, or a tag of the second technology as it finds them; a tag that was there is given one more poll, a new one of the second technology a new generation |
| `TagReading.SurvivesOneEmptyAnswer` | src/nfc/read_only_service.cpp:226-310 | a published tag outlives a poll if and only if the reader worked and found it alone or found nothing for the first time |
| `TagReading.RunKeeps` | src/nfc/read_only_service.cpp:214-310 | the reader's invariant holds after any polls and invalidations |
| `ReadOnlyService.ReadImage` | src/nfc/read_only_service.cpp:100-125 | the copy ends, takes every block in order in chunks of at most eight, none across blocks 255/256, equals the memory on success, and fails only after a failed read or confirmation |
| `ReadOnlyService.EveryBlockOnce` | src/nfc/read_only_service.cpp:100-125 | the chunks of a copy hold every block below their end exactly once |
| `ReadOnlyService.Service.Leave` | src/nfc/read_only_service.cpp:79-91 | what was read is withdrawn under a new generation |
| `ReadOnlyService.Service.ReadTag` | src/nfc/read_only_service.cpp:126-171 | two reads are compared before anything is published |
| `ReadOnlyService.Service.SeeOne` | src/nfc/read_only_service.cpp:264-296 | stabilizing, reading and the bounded retries |
| `ReadOnlyService.Service.PollNfca` | src/nfc/read_only_service.cpp:172-213 | the second technology's turn |
| `ReadOnlyService.Service.Poll` | src/nfc/read_only_service.cpp:214-310 | one poll |
| `SpoolLookup.ReadySpoolMatchesTheTag` | src/services/station_workflow.cpp:86-188 | in every interleaving a ready or assigned spool was looked up for the UID recorded with it |
| `SpoolLookup.LookupsAreSpaced` | src/services/nfc_workflow_handoff.hpp:26-86 | a placement makes at most four lookup attempts, spaced at least 10, 30 and 90 s, never two under way |
| `SpoolLookup.LookupsWriteOnlyTheirOwn` | src/services/station_workflow.cpp:95-188 | a lookup or an assignment changes the workflow only for its own generation |
| `SpoolLookup.ChangedTagDiscardsTheResult` | src/services/station_workflow.cpp:63-84 | a tag that changes while a lookup runs keeps its own state |
| `SpoolLookup.LookupIdentifies` | src/services/station_workflow.cpp:86-188 | after any run, a tag put down and looked up undisturbed ends in the stage of the lookup's outcome, with its own UID, spool and weight |
| `SpoolLookup.UnreachableIsRetried` | src/services/nfc_workflow_handoff.hpp:72-84 | a lookup that could not reach the backend is repeated once a probe answers and ten seconds have passed, and then means the same; one that failed otherwise is not |
| `SpoolLookup.LaterWeightIsKept` | src/services/station_workflow.cpp:190-201 | a weight that settles while the lookup runs is kept with the spool, once |
| `SpoolLookup.AssignmentIsVerified` | src/services/station_workflow.cpp:375-394 | a spool counts as assigned exactly when the assignment is verified; else the workflow is as before |
| `SpoolLookup.RunKeeps` | src/services/station_workflow.cpp:49-230 | the workflow's invariant holds in every interleaving of hand-off, worker and probes |
| `StationWorkflow.Station.Clear` | src/services/station_workflow.cpp:49-61 | a cleared workflow has a new generation |
| `StationWorkflow.Station.BeginIdentifiedSpool` | src/services/station_workflow.cpp:63-84 | a new tag has a new generation and no spool |
| `StationWorkflow.Station.AcceptIdentifiedSpool` | src/services/station_workflow.cpp:95-112 | the first locked region of a lookup |
| `StationWorkflow.Station.FinishLookup` | src/services/station_workflow.cpp:114-188 | the last locked region of a lookup |
| `StationWorkflow.Station.BeginLookupRetry` | src/services/station_workflow.cpp:203-211 | a retry starts only from an unreachable backend that answers again |
| `StationWorkflow.Station.AbortLookupRetry` | src/services/station_workflow.cpp:213-218 | an unqueued retry is undone |
| `StationWorkflow.Station.FailResolution` | src/services/station_workflow.cpp:220-230 | a lookup that could not run |
| `StationWorkflow.Station.FinishAssignment` | src/services/station_workflow.cpp:375-394 | the end of an assignment |
| `StationWorkflow.NfcWorkflowHandoff.Observe` | src/services/nfc_workflow_handoff.hpp:26-86 | one observation is the sequence of its locked regions |
| `StationWorkflow.ObservedKeeps` | src/services/nfc_workflow_handoff.hpp:26-86 | one observation keeps the invariant |
| `WeighSessions.OneMutationPerSession` | src/services/weigh_sync.cpp:73-147 | each accepted session changes the inventory at most once, behind a fence that held, by gross minus tare, which is not negative |
| `WeighSessions.OutcomeLandsOnItsSession` | src/services/weigh_sync.cpp:73-147 | while an update runs no begin, capture, fail or second update changes the session, and the outcome lands on the one captured |
| `WeighSessions.ConsumedSessionsRest` | src/services/weigh_sync.cpp:11-21 | a consumed session stays as it is until the next begins |
| `WeighSync.UpdateMeans` | src/services/weigh_sync.cpp:73-147 | an update calls the inventory exactly once, with the measured weight, if the backend is able, the spool is there, the difference exceeds the tolerance and the last fence holds; updated, unchanged, conflict and failed say which of these it was |
| `WeighSync.RefusedUpdate` | src/services/weigh_sync.cpp:73-92 | a pending restart, another session, and a session that is not ready or was used write nothing and leave the measurement unused |
| `WeighSync.CaptureMeans` | src/services/weigh_sync.cpp:22-57 | a measurement becomes ready if and only if it can be saved, holds gross minus tare and its difference, and can then be updated; any other is never ready |
| `WeighSync.Sync.BeginSession` | src/services/weigh_sync.cpp:11-21 | a session begins unless one is being saved or the identifier repeats |
| `WeighSync.Sync.CaptureWeight` | src/services/weigh_sync.cpp:22-57 | a capture is ready only if it can be saved |
| `WeighSync.Sync.FailSession` | src/services/weigh_sync.cpp:58-64 | only a measuring session fails |
| `WeighSync.Sync.Update` | src/services/weigh_sync.cpp:73-147 | the whole update, statement by statement, is the sequence of its steps, whose result `WeighSync.UpdateMeans` states |
| `ScanResults.NormalizeIsBest` | src/network/network_policy.hpp:378-403 | distinct non-empty names, each with its strongest signal, in rank order, and no network left out outranks one shown |
| `ScanResults.OrderOfScanIsIrrelevant` | src/network/network_policy.hpp:378-403 | names and signals shown are the same for every permutation of the scan |
| `ScanResults.NormalizeScanResults` | src/network/network_policy.hpp:378-403 | the vector after merging, sorting and cutting |
| `OperationRegistry.Registry.Begin` | src/application/operation_registry.cpp:67-97 | refused exactly when all records are in progress or identifiers are used up; else one finished or empty record, first in rotation, is reused, the rotation moves past it, and the identifier is larger than all before |
| `OperationRegistry.Registry.ReserveIdsAbove` | src/application/operation_registry.cpp:99-105 | the counter only rises; once it has stopped, identifiers stay unique if and only if none above the reservation was handed out |
| `OperationRegistry.Registry.Update` | src/application/operation_registry.cpp:107-129 | a record in progress takes the new state, a finished one never changes, no other record does |
| `OperationRegistry.Registry.Snapshot` | src/application/operation_registry.cpp:178-192 | the result is the newest records |
| `OperationRegistry.NewestIsNewest` | src/application/operation_registry.cpp:178-192 | newest first, as many as asked for and present, and none left out is newer than one listed |
| `OperationRegistry.NumberedBegin` | src/application/operation_registry.cpp:82-90 | handing out an identifier keeps identifiers increasing and records distinct |
| `VersionPolicy.PrecedenceOfText` | tools/check_version_policy.py:18-27 | the key computed from an accepted text is that of its parts |
| `VersionPolicy.KeysFollowSection11` | tools/check_version_policy.py:18-27 | the key orders all accepted versions exactly as section 11 of Semantic Versioning 2.0.0 and ties only versions that differ in build metadata |
| `VersionPolicy.VersionsAreOrdered` | tools/check_version_policy.py:18-27 | the order is a strict weak order |
| `VersionPolicy.NoCycles` | tools/check_version_policy.py:30-39 | a chain of accepted changes never returns to an earlier version |
| `VersionPolicy.NumeralOrder` | tools/release_version.py:9-10 | numerals without leading zeros are ordered by value as by length and first different digit |

## Left out

- The update record's revision, timestamps, error text and firmware descriptors inside `OtaModel`: they decide nothing there; `RecordChecksum` has them as bytes.
- A record that fails its checks is one answer of the store (`Load` returns nothing), as is a store that does not answer.
- Platform topology errors (missing partitions, equal slots), the progress overflow guard, and a partly written chunk: a refused call stands for the first, the second cannot be reached below 5 MiB, and a cut chunk leaves either none or all of its bytes.
- A rollback call that takes effect and returns an error, and a bootloader that cannot load the selected image and runs the other slot.
- The lifecycle lease, receipt reconciliation and boot-health scheduling of the OTA worker: the slot protocol stands alone, and late work is one step of the owner.
- The 120 s deadline, tag generation, geometry, system and protection checks of the tag writer's fence are one call that answers truthfully or fails; a read returns what the tag holds. A reading glitch that a second read would catch is not modelled.
- `TagWriter.NeverTorn`: one tag, and a journal that can be read whenever it exists; journals of other tags and the service's Spoolman checkpoints are not modelled. A user who discards the journal gives up the guarantee for the image then on the tag.
- `JournalCodec.DecodeWriterJournal`: fields the original assigns before it refuses a record are not modelled.
- `TagWriter.HeaderAndIdentityLast` and the final semantic check: of the decoded tag only placement, identification and write protection are kept, not consumed weight.
- `ScaleLoop.NoSessionIsOrphaned`: needs timeouts below twelve days and iterations less than three days apart, so that 32-bit timers tell the truth. What makes a sample stable is one answer of the environment there; `ScaleFilter` and `RuntimeZero` compute on samples.
- `RuntimeZero.ConvergesExactly`: the reading and the stored zero are those of a 24-bit converter; rounding of doubles is not modelled, `llround` is.
- `ReadOnlyService.ReadImage`: the 15 s deadline counts as a failed confirmation; allocation failures are failed reads.
- Printer refresh, unassignment, compatibility advisories and the scan report of the station workflow; weights are whole numbers and reconciliation is not computed.
- `WeighSync.Sync.Update`: messages are left out; the interleaved form is `WeighSessions`.
- Operation timestamps, errors and bounded messages; 64-bit revision counters are unbounded.
- Wi-Fi, HTTP, display and the OpenPrintTag codec: input and output, or sources outside this model.
- Configuration storage, the log ring, and the reconnect backoff, scan-state, receipt-gate and provisioning classes beside the scan list: easier members of kinds already modelled (a ring buffer, bounded retries, a bounded list).
