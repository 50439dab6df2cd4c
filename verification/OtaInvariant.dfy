/**
 What holds of the device and of the manager's memory between any two calls,
 and after a power cut at any point inside one: which records, slot states and
 boot selections may go together. Boot, upload, activation, confirmation,
 rollback and cancellation keep it.
*/
module OtaInvariant {
  import opened Prelude
  import opened OtaModel
  import opened OtaSteps

  // ---------------------------------------------------------------- records

  /** All the evidence that an image was received whole and matched its digest. */
  predicate Evidence(r: Record) {
    && r.calculatedAvailable && r.expectedSha == r.calculatedSha
    && r.expectedLength != 0 && r.bytesReceived == r.expectedLength
    && r.generation != 0 && r.operationId != 0 && r.target.Some?
  }

  /** The records the manager itself writes. */
  predicate Writable(r: Record) {
    && !r.phase.ReadyToActivate?
    && (r.validated ==> Evidence(r))
    && (r.activated ==> r.intent)
    && (r.phase.ReadyToReboot? || r.phase.RebootPending? || r.phase.Confirmed? ==> r.validated)
    && (r.phase.RebootPending? || r.phase.Confirmed? ==> r.activated)
    && (r.phase.Candidate() || r.phase.RollbackPending? ==> r.activated && r.target.Some?)
    && (r.phase.Uploading() || r.phase.Validating? || r.phase.Idle? || r.phase.Failed? ==> !r.validated && !r.intent)
    && (r.phase.RolledBack? ==> !r.activated && r.target.Some?)
  }

  /** The record says that `slot` holds a complete validated image that has not run yet. */
  predicate Claims(r: Record, slot: Slot) {
    (r.phase.ReadyToReboot? || r.phase.RebootPending?) && r.target == Some(slot)
  }

  predicate Selected(r: Record, slot: Slot) {
    Claims(r, slot) && r.validated && r.intent
  }

  predicate Seed(r: Record, slot: Slot) {
    Selected(r, slot) && r.phase.ReadyToReboot? && !r.activated
  }

  predicate Holds(d: Device, r: Record, sha: Bytes -> Digest) {
    r.target.Some? && Claims(r, r.target.value) ==>
      var image := d.At(r.target.value);
      |image.data| == r.expectedLength && sha(image.data) == r.expectedSha && d.bootable(image.data)
  }

  // ---------------------------------------------------------------- the device

  /** What a power cut leaves behind. */
  predicate Durable(d: Device, sha: Bytes -> Digest) {
    && (d.record.Some? ==> Writable(d.record.value) && Holds(d, d.record.value, sha))
    && !d.spare.state.PendingVerify?
    && (d.spare.state.NewImage? <==> d.boot == d.Inactive())
    && (d.boot == d.Inactive() ==>
          d.current.state.Valid? && d.record.Some? && Selected(d.record.value, d.Inactive()))
    && (d.current.state.NewImage? ==> d.record.Some? && Seed(d.record.value, d.Inactive()))
  }

  /** What the bootloader hands to the manager. */
  predicate Booted(d: Device) {
    && d.boot == d.running && d.powered && !d.writer && d.hasher.None?
    && !d.current.state.NewImage?
    && (d.current.state.Pending() ==>
          d.record.Some? && (Selected(d.record.value, d.running) || Seed(d.record.value, d.Inactive())))
  }

  // ---------------------------------------------------------------- the memory

  predicate Memory(w: World, sha: Bytes -> Digest) {
    var d := w.dev;
    var r := MakeRecord(w.s);
    && (w.s.phase.Confirmed? || Writable(r))
    && Holds(d, r, sha)
    && (d.boot == d.Inactive() ==> Selected(r, d.Inactive()))
    && (d.current.state.NewImage? ==> Seed(r, d.Inactive()))
    && (w.s.runningState.Valid? ==> d.current.state.Valid?)
    && (w.s.running.Some? ==> w.s.running == Some(d.running) && w.s.inactive == Some(d.Inactive()))
    && ((w.s.phase.ReadyToReboot? || w.s.phase.RebootPending?) && w.s.intent ==> w.s.target == Some(d.Inactive()))
    && (w.s.phase.Candidate() ==>
          w.s.target == Some(d.running) && (d.uptime < TWO_32 ==> w.s.candidateStartedMs <= d.uptime))
    && Upload(w)
  }

  /** Bytes received = bytes written to the slot = bytes hashed. */
  predicate Upload(w: World) {
    var d := w.dev;
    && (w.writerOpen <==> w.s.phase.Uploading())
    && (if w.writerOpen then
          && d.writer && w.s.target == Some(d.Inactive()) && d.boot == d.running
          && d.hasher == Some(d.spare.data)
          && w.s.bytesReceived == |d.spare.data| <= w.s.imageSize
          && w.s.imageSize != 0 && w.s.generation != 0 && w.s.operationId != 0
          && (d.record.Some? ==> !Claims(d.record.value, d.Inactive()))
        else d.hasher.None? && !d.writer)
  }

  predicate Inv(w: World, sha: Bytes -> Digest) {
    Durable(w.dev, sha) && (w.dev.powered ==> Memory(w, sha))
  }

  // ---------------------------------------------------------------- single calls

  lemma SaveKeeps(w: World, sha: Bytes -> Digest)
    requires Inv(w, sha) && (w.dev.powered ==> Writable(MakeRecord(w.s)))
    ensures Inv(Save(w).0, sha)
  {
    hide Save;
    hide Writable;
  }

  lemma RefreshKeeps(w: World, sha: Bytes -> Digest)
    requires Inv(w, sha)
    ensures Inv(RefreshPlatform(w).0, sha)
  {
    hide RefreshPlatform;
    assert MakeRecord(Describe(w.s, w.dev)) == MakeRecord(w.s);
    hide Writable; hide Claims;
  }

  // ---------------------------------------------------------------- reboot

  lemma RebootRestores(d: Device, sha: Bytes -> Digest)
    requires Durable(d, sha)
    ensures Durable(d.Reboot(), sha) && Booted(d.Reboot())
  {
    hide Writable;
  }

  /** The boot selection is the running slot and the cached view agrees. */
  predicate Settled(w: World) {
    && w.dev.boot == w.dev.running && !w.dev.current.state.NewImage?
    && (w.s.running.Some? ==> w.s.running == Some(w.dev.running) && w.s.inactive == Some(w.dev.Inactive()))
    && (w.s.runningState.Valid? ==> w.dev.current.state.Valid?)
  }

  lemma FailLockedKeeps(w: World, abortWriter: bool, sha: Bytes -> Digest)
    requires Durable(w.dev, sha) && Settled(w)
    requires !w.s.intent && !w.s.activated
    requires w.writerOpen ==> abortWriter
    requires !w.writerOpen ==> !w.dev.writer
    ensures Inv(FailLocked(w, abortWriter), sha)
  {
    hide CloseWriter;
    hide Save;
  }

  lemma ClearIntentKeeps(w: World, sha: Bytes -> Digest)
    requires Inv(w, sha)
    requires w.dev.powered ==> w.dev.boot == w.dev.running && !w.dev.current.state.NewImage?
    requires RecoveryRequired(w.s)
    ensures Inv(ClearIntent(w).0, sha)
  {
    hide Save;
  }

  lemma ConfirmKeeps(w: World, sha: Bytes -> Digest)
    requires Inv(w, sha)
    ensures Inv(ConfirmRunning(w).0, sha)
  {
    hide ConfirmRunning; hide Writable; hide Claims;
  }

  lemma RecoverKeeps(w: World, sha: Bytes -> Digest)
    requires Inv(w, sha) && w.dev.powered
    requires RecoveryRequired(w.s) ==> w.dev.boot == w.dev.running
    ensures Inv(RecoverRollbackSeed(w).0, sha)
  {
    hide ClearIntent; hide ConfirmRunning; hide Save;
    if RecoveryRequired(w.s) {
      if w.s.runningState.Valid? {
        ClearIntentKeeps(w, sha);
      } else {
        var (w1, confirmed) := ConfirmRunning(w);
        ConfirmKeeps(w, sha);
        if confirmed {
          ClearIntentKeeps(w1.(s := w1.s.(runningState := Valid)), sha);
        } else {
          SaveKeeps(w1, sha);
        }
      }
    }
  }

  /** The manager just after a boot, before it has written anything. */
  predicate Fresh(w: World) {
    Settled(w) && w.s.running.Some? && !w.writerOpen && !w.dev.writer && w.dev.hasher.None?
  }

  lemma RollbackUnreconciledKeeps(w: World, sha: Bytes -> Digest)
    requires Durable(w.dev, sha) && Fresh(w)
    ensures Inv(RollbackUnreconciled(w), sha)
  {
    hide Save; hide SaveIfNumbered; hide NumberRollback; hide AttemptUnrecordedRollback;
    var w1 := w.(s := w.s.(target := w.s.running, phase := RollbackPending, validated := false,
                           intent := true, activated := true, candidateStartedMs := w.dev.NowMs()));
    NumberRollbackKeeps(w1, sha);
    SaveIfNumberedKeeps(NumberRollback(w1), sha);
    AttemptKeeps(SaveIfNumbered(NumberRollback(w1)), sha);
  }

  predicate GivenUp(w: World) {
    && w.s.phase.RollbackPending? && !w.s.validated && w.s.intent && w.s.activated
    && w.s.target == Some(w.dev.running) && w.dev.boot == w.dev.running
    && (w.dev.uptime < TWO_32 ==> w.s.candidateStartedMs <= w.dev.uptime)
  }

  lemma NumberRollbackKeeps(w: World, sha: Bytes -> Digest)
    requires Inv(w, sha) && GivenUp(w)
    ensures Inv(NumberRollback(w), sha) && GivenUp(NumberRollback(w))
  {
    hide ReserveGeneration;
  }

  lemma SaveIfNumberedKeeps(w: World, sha: Bytes -> Digest)
    requires Inv(w, sha) && (w.dev.powered ==> !w.s.phase.Confirmed?)
    ensures Inv(SaveIfNumbered(w), sha)
    ensures SaveIfNumbered(w).s == w.s
    ensures GivenUp(w) ==> GivenUp(SaveIfNumbered(w))
  {
    hide Save;
    SaveKeeps(w, sha);
  }

  lemma AttemptKeeps(w: World, sha: Bytes -> Digest)
    requires Inv(w, sha) && GivenUp(w)
    ensures Inv(AttemptUnrecordedRollback(w), sha)
  {
    hide RollbackAndReboot; hide SaveIfNumbered;
    var (w1, rolledBack) := RollbackAndReboot(w);
    var w2 := if rolledBack then w1.(s := w1.s.(phase := RolledBack, activated := false))
              else w1.(s := w1.s.(phase := CandidateBoot));
    assert Inv(w2, sha);
    SaveIfNumberedKeeps(w2, sha);
  }

  // ---------------------------------------------------------------- boot

  /** The platform is described and the durable record, if any, is applied. */
  predicate Loaded(w: World, hasRecord: bool) {
    && Fresh(w) && w.dev.powered && w.s.candidateStartedMs == 0
    && w.s.boot == Some(w.dev.boot) && w.s.runningState == w.dev.current.state && w.s.lastInvalid == w.dev.lastInvalid
    && (if hasRecord then w.dev.record == Some(MakeRecord(w.s))
        else w.dev.record.None? && MakeRecord(w.s) == MakeRecord(BLANK))
  }

  lemma ReconcilePendingKeeps(w: World, hasRecord: bool, sha: Bytes -> Digest)
    requires Durable(w.dev, sha) && Loaded(w, hasRecord)
    ensures Inv(ReconcilePending(w, hasRecord).0, sha)
  {
    hide Save; hide RollbackUnreconciled;
    if CandidateRecord(w.s, hasRecord) {
      var w0 := w.(s := w.s.(phase := CandidateBoot, intent := true, activated := true,
                             candidateStartedMs := w.dev.NowMs()));
      assert Inv(w0, sha);
      SaveKeeps(w0, sha);
      var (w1, saved) := Save(w0);
      if !saved { RollbackUnreconciledKeeps(w1, sha); }
    } else {
      RollbackUnreconciledKeeps(w, sha);
    }
  }

  lemma ReconcileEndedKeeps(w: World, hasRecord: bool, sha: Bytes -> Digest)
    requires Durable(w.dev, sha) && Loaded(w, hasRecord)
    requires !RecoveryRequired(w.s)
    ensures Inv(ReconcileEnded(w, hasRecord).0, sha)
  {
    hide Save; hide FailLocked;
    var s := w.s;
    if hasRecord && (s.phase.Uploading() || s.phase.Validating?) {
      FailLockedKeeps(w, false, sha);
    } else if hasRecord && SamePartition(s.lastInvalid, s.target) && !SamePartition(s.running, s.target) {
      var w1 := w.(s := s.(phase := RolledBack, activated := false, rollbackAvailable := false));
      assert Inv(w1, sha);
      SaveKeeps(w1, sha);
    } else if hasRecord && NoWayForward(s) {
      FailLockedKeeps(w.(s := s.(intent := false, activated := false)), false, sha);
    } else {
      SettleKeeps(w, hasRecord, sha);
    }
  }

  lemma SettleKeeps(w: World, hasRecord: bool, sha: Bytes -> Digest)
    requires Durable(w.dev, sha) && Loaded(w, hasRecord)
    requires !hasRecord || !(w.s.phase.Uploading() || w.s.phase.Validating? || NoWayForward(w.s))
    ensures Inv(w.(s := Settle(w.s, hasRecord)), sha)
  {
  }

  lemma ReconcileKeeps(w: World, hasRecord: bool, sha: Bytes -> Digest)
    requires Durable(w.dev, sha) && Loaded(w, hasRecord)
    ensures Inv(Reconcile(w, hasRecord).0, sha)
  {
    hide RecoverRollbackSeed; hide ReconcilePending; hide ReconcileEnded;
    if RecoveryRequired(w.s) {
      assert Inv(w, sha);
      RecoverKeeps(w, sha);
    } else if w.s.runningState.Pending() {
      ReconcilePendingKeeps(w, hasRecord, sha);
    } else {
      ReconcileEndedKeeps(w, hasRecord, sha);
    }
  }

  /** Whatever the store and the platform answer, and wherever power is lost
      again, a boot leaves the invariant in place. */
  lemma InitializeKeeps(w: World, sha: Bytes -> Digest)
    requires Durable(w.dev, sha) && Booted(w.dev)
    ensures Inv(InitializeFromBoot(w).0, sha)
  {
    hide RefreshPlatform; hide Load; hide RollbackUnreconciled; hide Reconcile; hide Writable;
    var (w1, refreshed) := RefreshPlatform(w.(writerOpen := false, s := BLANK));
    if refreshed {
      var (w2, loaded) := Load(w1);
      if loaded.None? {
        if w2.s.runningState.Pending() { RollbackUnreconciledKeeps(w2, sha); }
        else { BlankFailed(w2, sha); }
      } else if loaded.value.None? {
        ReconcileKeeps(w2, false, sha);
      } else {
        ReconcileKeeps(w2.(s := ApplyRecord(w2.s, loaded.value.value)), true, sha);
      }
    } else {
      BlankFailed(w1, sha);
    }
  }

  lemma BlankFailed(w: World, sha: Bytes -> Digest)
    requires Durable(w.dev, sha) && Settled(w) && !w.writerOpen && !w.dev.writer && w.dev.hasher.None?
    requires MakeRecord(w.s) == MakeRecord(BLANK)
    ensures Inv(w.(s := w.s.(phase := Failed)), sha)
  {
  }

  // ---------------------------------------------------------------- upload

  /** The store still claims a staged image in the slot an upload would erase. */
  predicate StoreClaimsSpare(d: Device) {
    d.record.Some? && Claims(d.record.value, d.Inactive())
  }

  lemma OpenUploadKeeps(w: World, request: UploadRequest, generation: nat, sha: Bytes -> Digest)
    requires Durable(w.dev, sha) && Settled(w) && w.s.running.Some? && w.dev.powered
    requires !w.writerOpen && !w.dev.writer && w.dev.hasher.None? && !StoreClaimsSpare(w.dev)
    requires generation != 0 && request.operationId != 0 && request.expectedLength != 0
    ensures Inv(OpenUpload(w, request, generation).0, sha)
  {
    hide ShaBegin; hide BeginWrite; hide Save; hide FailLocked;
    var s := BLANK.(generation := generation, operationId := request.operationId, phase := UploadReceiving,
                    running := w.s.running, boot := w.s.boot, inactive := w.s.inactive, target := w.s.inactive,
                    imageSize := request.expectedLength, expectedSha := request.expectedSha,
                    rollbackAvailable := w.s.rollbackAvailable, runningState := w.s.runningState,
                    lastInvalid := w.s.lastInvalid);
    var (w1, hashing) := ShaBegin(w.(s := s, nextProgress := PROGRESS_INTERVAL_BYTES));
    if !hashing {
      FailLockedKeeps(w1, false, sha);
    } else {
      var (w2, erased) := BeginWrite(w1, s.target, s.imageSize);
      assert Durable(w2.dev, sha) && Settled(w2);
      if !erased {
        FailLockedKeeps(w2, false, sha);
      } else {
        var w3 := w2.(writerOpen := true);
        assert Inv(w3, sha);
        SaveKeeps(w3, sha);
        var (w4, saved) := Save(w3);
        if !saved { FailLockedKeeps(w4, true, sha); }
      }
    }
  }

  /** An upload request that the manager accepts when the environment lets it. */
  predicate Admissible(w: World, request: UploadRequest) {
    && request.expectedGeneration == w.s.generation && request.operationId != 0 && w.s.phase.AcceptsUpload()
    && !w.dev.current.state.Pending()
    && 0 < request.expectedLength <= MAXIMUM_IMAGE_BYTES && request.expectedLength <= w.dev.slotSize
    && w.s.generation < MAX_U64 && w.dev.counter < MAX_U64
  }

  lemma BeginUploadKeeps(w: World, request: UploadRequest, sha: Bytes -> Digest)
    requires Inv(w, sha) && w.dev.powered && !(Admissible(w, request) && StoreClaimsSpare(w.dev))
    ensures Inv(BeginUpload(w, request).0, sha)
  {
    hide RefreshPlatform; hide ReserveGeneration; hide OpenUpload; hide Writable;
    if request.expectedGeneration == w.s.generation && request.operationId != 0 && w.s.phase.AcceptsUpload() {
      RefreshKeeps(w, sha);
      var (w1, refreshed) := RefreshPlatform(w);
      var (w2, generation) := ReserveGeneration(w1, w1.s.generation);
      assert Inv(w2, sha);
      if refreshed && generation.Some? && 0 < request.expectedLength <= MAXIMUM_IMAGE_BYTES
         && request.expectedLength <= w1.dev.slotSize && !w1.s.runningState.Pending() {
        assert Admissible(w, request);
        OpenUploadKeeps(w2, request, generation.value, sha);
      }
    }
  }

  lemma RecordProgressKeeps(w: World, sha: Bytes -> Digest)
    requires Inv(w, sha) && w.dev.powered && w.writerOpen
    ensures Inv(RecordProgress(w).0, sha)
  {
    hide Save; hide FailLocked;
    SaveKeeps(w, sha);
    var (w1, saved) := Save(w);
    if !saved { FailLockedKeeps(w1, true, sha); }
  }

  lemma HashChunkKeeps(w: World, chunk: Bytes, sha: Bytes -> Digest)
    requires w.dev.powered && w.writerOpen && w.dev.hasher.Some? && w.dev.spare.data == w.dev.hasher.value + chunk
    requires Inv(w.(dev := w.dev.(spare := w.dev.spare.(data := w.dev.hasher.value))), sha)
    requires |chunk| <= w.s.imageSize - w.s.bytesReceived
    ensures Inv(HashChunk(w, chunk).0, sha)
  {
    hide ShaUpdate; hide FailLocked; hide RecordProgress;
    var (w1, hashed) := ShaUpdate(w, chunk);
    assert Durable(w1.dev, sha) && Settled(w1);
    if !hashed {
      FailLockedKeeps(w1, true, sha);
    } else {
      var w2 := w1.(s := w1.s.(bytesReceived := w1.s.bytesReceived + |chunk|, phase := Writing));
      assert Inv(w2, sha);
      RecordProgressKeeps(w2, sha);
    }
  }

  lemma WriteChunkKeeps(w: World, operationId: nat, generation: nat, chunk: Bytes, sha: Bytes -> Digest)
    requires Inv(w, sha) && w.dev.powered
    ensures Inv(WriteChunk(w, operationId, generation, chunk).0, sha)
  {
    hide Write; hide HashChunk; hide FailLocked;
    if w.writerOpen && w.s.phase.Uploading() {
      FailLockedKeeps(w, true, sha);
      if |chunk| <= w.s.imageSize - w.s.bytesReceived {
        var (w1, written) := Write(w, chunk);
        if !written {
          assert Durable(w1.dev, sha) && Settled(w1);
          FailLockedKeeps(w1, true, sha);
        } else {
          assert w1.(dev := w1.dev.(spare := w1.dev.spare.(data := w1.dev.hasher.value))) == w.(next := w1.next);
          HashChunkKeeps(w1, chunk, sha);
        }
      }
    }
  }

  lemma StageImageKeeps(w: World, sha: Bytes -> Digest)
    requires Durable(w.dev, sha) && Settled(w)
    requires w.dev.powered && w.writerOpen && w.s.phase.Validating? && !w.s.intent && !w.s.activated && !w.s.validated
    requires w.s.target == Some(w.dev.Inactive()) && w.s.bytesReceived == w.s.imageSize == |w.dev.spare.data|
    requires w.s.imageSize != 0 && w.s.generation != 0 && w.s.operationId != 0
    requires w.s.calculatedAvailable && w.s.expectedSha == w.s.calculatedSha == sha(w.dev.spare.data)
    requires w.s.runningState.Valid? ==> w.dev.current.state.Valid?
    ensures Inv(StageImage(w).0, sha)
  {
    hide CloseWriter; hide ValidateStaged; hide Save; hide FailLocked;
    var (w1, finished) := CloseWriter(w);
    var w2 := ShaAbort(w1.(writerOpen := false));
    if !finished {
      FailLockedKeeps(w2, false, sha);
    } else {
      var (w3, verdict) := ValidateStaged(w2, w2.s.target);
      FailLockedKeeps(w3, false, sha);
      if verdict.Some? && verdict.value.imageSize == w3.s.imageSize {
        var w4 := w3.(s := w3.s.(validated := true, phase := ReadyToReboot));
        assert Inv(w4, sha);
        SaveKeeps(w4, sha);
        var (w5, saved) := Save(w4);
        if !saved { FailLockedKeeps(w5, false, sha); }
      }
    }
  }

  lemma FinishUploadKeeps(w: World, operationId: nat, generation: nat, sha: Bytes -> Digest)
    requires Inv(w, sha) && w.dev.powered
    ensures Inv(FinishUpload(w, operationId, generation, sha).0, sha)
  {
    hide Save; hide ShaFinish; hide FailLocked; hide StageImage;
    if w.writerOpen && w.s.phase.Uploading() {
      if w.s.bytesReceived != w.s.imageSize {
        FailLockedKeeps(w, true, sha);
      } else {
        var w0 := w.(s := w.s.(phase := Validating));
        var (w1, saved) := Save(w0);
        assert Durable(w1.dev, sha) && Settled(w1);
        if !saved {
          FailLockedKeeps(w1, true, sha);
        } else {
          var (w2, digest) := ShaFinish(w1, sha);
          if digest.None? {
            FailLockedKeeps(w2, true, sha);
          } else {
            var w3 := w2.(s := w2.s.(calculatedSha := digest.value, calculatedAvailable := true));
            if w3.s.expectedSha != w3.s.calculatedSha { FailLockedKeeps(w3, true, sha); }
            else { StageImageKeeps(w3, sha); }
          }
        }
      }
    }
  }

  lemma CancelKeeps(w: World, operationId: nat, generation: nat, sha: Bytes -> Digest)
    requires Inv(w, sha) && w.dev.powered
    ensures Inv(Cancel(w, operationId, generation).0, sha)
  {
    hide CloseWriter; hide Save; hide FailLocked;
    var staged := w.s.phase.ReadyToReboot? && !w.s.activated && !w.s.intent;
    if w.s.phase.Uploading() || staged {
      var (w1, aborted) := if w.writerOpen then CloseWriter(w) else (w, true);
      var w2 := ShaAbort(w1.(writerOpen := false));
      if !aborted {
        FailLockedKeeps(w2, false, sha);
      } else {
        var w3 := w2.(s := ClearOperation(w2.s));
        assert Inv(w3, sha);
        SaveKeeps(w3, sha);
        var (w4, saved) := Save(w3);
        if !saved { FailLockedKeeps(w4, false, sha); }
      }
    }
  }

  // ---------------------------------------------------------------- activation

  /** An activation took effect, but neither its success nor the boot selection
      it left behind was seen. */
  predicate Unreconciled(w: World) {
    w.dev.boot == w.dev.Inactive() && !w.s.activated
  }

  /** The intent to select the spare slot is durable. */
  predicate Intended(w: World) {
    w.dev.powered && w.dev.record == Some(MakeRecord(w.s)) && Seed(MakeRecord(w.s), w.dev.Inactive())
  }

  lemma SeedRunningKeeps(w: World, sha: Bytes -> Digest)
    requires Inv(w, sha) && Intended(w) && w.dev.current.state.Undefined?
    ensures Inv(SeedRunning(w).0, sha) && SeedRunning(w).0.s == w.s
    ensures SeedRunning(w).0.dev.running == w.dev.running && SeedRunning(w).0.dev.boot == w.dev.boot
    ensures SeedRunning(w).1 ==> Intended(SeedRunning(w).0) && SeedRunning(w).0.dev.current.state.Valid?
  {
    hide SelectRunning; hide MarkRunningValid; hide Writable;
  }

  lemma SelectInactiveKeeps(w: World, sha: Bytes -> Digest)
    requires Inv(w, sha) && Intended(w) && w.dev.current.state.Valid?
    ensures Inv(SelectInactive(w).0, sha) && SelectInactive(w).0.s == w.s
    ensures SelectInactive(w).0.dev.running == w.dev.running
    ensures SelectInactive(w).1 ==>
              SelectInactive(w).0.dev.powered && SelectInactive(w).0.dev.boot == w.dev.Inactive()
  {
    hide SelectInactive; hide Writable;
  }

  lemma PlatformActivateKeeps(w: World, sha: Bytes -> Digest)
    requires Inv(w, sha) && Intended(w)
    ensures Inv(PlatformActivate(w, w.dev.Inactive()).0, sha)
    ensures PlatformActivate(w, w.dev.Inactive()).0.s == w.s
    ensures PlatformActivate(w, w.dev.Inactive()).0.dev.running == w.dev.running
    ensures PlatformActivate(w, w.dev.Inactive()).1 ==>
              var d := PlatformActivate(w, w.dev.Inactive()).0.dev; d.powered && d.boot == d.Inactive()
  {
    hide SelectInactive; hide SeedRunning;
    match w.dev.current.state
    case Valid => SelectInactiveKeeps(w, sha);
    case Undefined =>
      SeedRunningKeeps(w, sha);
      if SeedRunning(w).1 { SelectInactiveKeeps(SeedRunning(w).0, sha); }
    case _ =>
  }

  lemma SelectTargetKeeps(w: World, sha: Bytes -> Digest)
    requires Inv(w, sha) && Intended(w)
    ensures Inv(SelectTarget(w, w.dev.Inactive()).0, sha)
  {
    hide PlatformActivate; hide RefreshPlatform; hide Save;
    var target := w.dev.Inactive();
    PlatformActivateKeeps(w, sha);
    var (w1, selected) := PlatformActivate(w, target);
    if selected {
      var w2 := w1.(s := w1.s.(boot := Some(target), activated := true, phase := ReadyToReboot));
      assert Inv(w2, sha);
      SaveKeeps(w2, sha);
    } else {
      RefreshKeeps(w1, sha);
      var (w2, refreshed) := RefreshPlatform(w1);
      SelectionReconciled(w2, refreshed, target, sha);
    }
  }

  lemma SelectionReconciled(w: World, refreshed: bool, target: Slot, sha: Bytes -> Digest)
    requires Inv(w, sha) && target == w.dev.Inactive()
    requires w.dev.powered ==> Seed(MakeRecord(w.s), target)
    requires refreshed ==> w.s == Describe(w.s, w.dev)
    ensures refreshed && w.s.boot == Some(target) && w.s.running != Some(target) ==>
              Inv(Save(w.(s := w.s.(intent := true, activated := true))).0, sha)
    ensures var safe := refreshed && w.s.runningState.Valid? && SamePartition(w.s.boot, w.s.running)
                        && w.s.inactive == Some(target);
            !(refreshed && w.s.boot == Some(target)) ==>
              Inv(Save(w.(s := w.s.(intent := !safe, activated := false))).0, sha)
  {
    hide Save;
    if refreshed && w.s.boot == Some(target) {
      var v := w.(s := w.s.(intent := true, activated := true));
      assert Inv(v, sha);
      SaveKeeps(v, sha);
    } else {
      var safe := refreshed && w.s.runningState.Valid? && SamePartition(w.s.boot, w.s.running)
                  && w.s.inactive == Some(target);
      var v := w.(s := w.s.(intent := !safe, activated := false));
      assert Inv(v, sha);
      SaveKeeps(v, sha);
    }
  }

  lemma ActivateKeeps(w: World, operationId: nat, generation: nat, sha: Bytes -> Digest)
    requires Inv(w, sha) && w.dev.powered && !Unreconciled(w)
    ensures Inv(Activate(w, operationId, generation).0, sha)
  {
    hide RefreshPlatform; hide RecoverRollbackSeed; hide FailLocked; hide Save; hide SelectTarget;
    if Owned(w.s, operationId, generation) && w.s.phase.ReadyToReboot? && w.s.validated && w.s.target.Some? {
      RefreshKeeps(w, sha);
      var (w1, refreshed) := RefreshPlatform(w);
      if refreshed {
        var (w2, recovered) := if RecoveryRequired(w1.s) then RecoverRollbackSeed(w1) else (w1, true);
        if RecoveryRequired(w1.s) { RecoverKeeps(w1, sha); RecoverFrame(w1); }
        if recovered && !w2.s.activated {
          DecideKeeps(w2, sha);
        }
      }
    }
  }

  lemma RecoverFrame(w: World)
    requires RecoveryRequired(w.s)
    ensures RecoverRollbackSeed(w).1 ==>
              var v := RecoverRollbackSeed(w).0;
              && v.dev.powered && v.dev.boot == w.dev.boot && v.dev.running == w.dev.running
              && (w.s.runningState.Valid? ==> v.dev.current.state == w.dev.current.state)
              && (!w.s.runningState.Valid? ==> v.dev.current.state.Valid?)
              && v.s == w.s.(intent := false, runningState := Valid)
              && v.dev.spare == w.dev.spare && v.dev.current.data == w.dev.current.data
  {
    hide Save; hide ConfirmRunning;
  }

  /** The rest of an activation once the seed is recovered. */
  lemma DecideKeeps(w: World, sha: Bytes -> Digest)
    requires Inv(w, sha) && w.dev.powered && w.dev.boot == w.dev.running && !w.s.activated
    requires w.s.phase.ReadyToReboot? && w.s.validated && w.s.target.Some? && w.s.running.Some?
    requires !w.dev.current.state.NewImage?
    ensures
      if SamePartition(w.s.running, w.s.target) || !SamePartition(w.s.inactive, w.s.target) then
        Inv(FailLocked(w, false), sha)
      else
        var (v, saved) := Save(w.(s := w.s.(intent := true)));
        if !saved then Inv(v.(s := v.s.(intent := false)), sha)
        else Inv(SelectTarget(v, v.s.target.value).0, sha)
  {
    hide FailLocked; hide Save; hide SelectTarget;
    if SamePartition(w.s.running, w.s.target) || !SamePartition(w.s.inactive, w.s.target) {
      FailLockedKeeps(w, false, sha);
    } else {
      var u := w.(s := w.s.(intent := true));
      assert Inv(u, sha);
      SaveKeeps(u, sha);
      var (v, saved) := Save(u);
      if saved { SelectTargetKeeps(v, sha); }
    }
  }

  lemma MarkRebootPendingKeeps(w: World, operationId: nat, generation: nat, sha: Bytes -> Digest)
    requires Inv(w, sha) && w.dev.powered
    ensures Inv(MarkRebootPending(w, operationId, generation).0, sha)
  {
    hide Save;
    if w.s.phase.ReadyToReboot? && w.s.activated {
      var v := w.(s := w.s.(phase := RebootPending));
      assert Inv(v, sha);
      SaveKeeps(v, sha);
    }
  }

  // ---------------------------------------------------------------- candidate

  lemma StabilizeKeeps(w: World, sha: Bytes -> Digest)
    requires Inv(w, sha) && w.dev.powered
    ensures Inv(Stabilize(w).0, sha)
  {
    hide Save;
    if w.s.phase.CandidateBoot? {
      var v := w.(s := w.s.(phase := ValidatingCandidate));
      assert Inv(v, sha);
      SaveKeeps(v, sha);
    }
  }

  lemma SaveAsKeeps(w: World, phase: Phase, sha: Bytes -> Digest)
    requires Inv(w, sha) && (w.dev.powered ==> w.s.phase.Candidate())
    requires phase.ValidatingCandidate? || phase.RollbackPending? || (phase.Confirmed? && w.s.validated)
    ensures Inv(Save(w.(s := w.s.(phase := phase))).0, sha)
    ensures phase.Confirmed? ==> Inv(Save(w.(s := w.s.(phase := phase, rollbackAvailable := true))).0, sha)
  {
    hide Save;
    var u := w.(s := w.s.(phase := phase));
    assert Inv(u, sha) && (u.dev.powered ==> Writable(MakeRecord(u.s)));
    SaveKeeps(u, sha);
    var v := w.(s := w.s.(phase := phase, rollbackAvailable := true));
    assert MakeRecord(v.s) == MakeRecord(u.s);
    assert Inv(v, sha);
    SaveKeeps(v, sha);
  }

  lemma ConfirmCandidateKeeps(w: World, sha: Bytes -> Digest)
    requires Inv(w, sha) && w.dev.powered
    ensures Inv(ConfirmCandidate(w).0, sha)
  {
    hide RefreshPlatform; hide ConfirmRunning; hide Save;
    if w.s.phase.Candidate() && w.s.validated {
      RefreshKeeps(w, sha);
      var (w1, refreshed) := RefreshPlatform(w);
      if refreshed {
        SaveAsKeeps(w1, Confirmed, sha);
        ConfirmKeeps(w1, sha);
        var (w2, confirmed) := ConfirmRunning(w1);
        if confirmed { SaveAsKeeps(w2.(s := w2.s.(runningState := Valid)), Confirmed, sha); }
        else { SaveAsKeeps(w2, ValidatingCandidate, sha); }
      }
    }
  }

  lemma PerformRollbackKeeps(w: World, sha: Bytes -> Digest)
    requires Inv(w, sha) && w.s.phase.RollbackPending? && w.s.target == Some(w.dev.running)
    requires w.dev.boot == w.dev.running && (w.dev.uptime < TWO_32 ==> w.s.candidateStartedMs <= w.dev.uptime)
    ensures Inv(PerformRollback(w).0, sha)
  {
    hide RollbackAndReboot; hide Save;
    var (w1, rolledBack) := RollbackAndReboot(w);
    var w2 := if rolledBack then w1.(s := w1.s.(phase := RolledBack, activated := false))
              else w1.(s := w1.s.(phase := ValidatingCandidate));
    assert Inv(w2, sha);
    SaveKeeps(w2, sha);
  }

  lemma RollbackCandidateKeeps(w: World, sha: Bytes -> Digest)
    requires Inv(w, sha) && w.dev.powered
    ensures Inv(RollbackCandidate(w).0, sha)
  {
    hide RefreshPlatform; hide PerformRollback; hide Save;
    if w.s.phase.Candidate() {
      RefreshKeeps(w, sha);
      var (w1, refreshed) := RefreshPlatform(w);
      if refreshed {
        SaveAsKeeps(w1, ValidatingCandidate, sha);
        SaveAsKeeps(w1, RollbackPending, sha);
        PerformRollbackKeeps(Save(w1.(s := w1.s.(phase := RollbackPending))).0, sha);
      }
    }
  }
}
