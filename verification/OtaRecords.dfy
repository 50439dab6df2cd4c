/**
 What every run keeps, whatever is called and whatever fails: the store holds
 only records that the manager itself would write. Unlike the invariant this
 needs no guard, so the theorems about records the manager can write hold after
 unsafe runs too. Each step is shown to keep it, the boot included.
*/
module OtaRecords {
  import opened Prelude
  import opened OtaModel
  import opened OtaSteps
  import opened OtaInvariant
  import opened OtaRuns

  predicate Stored(d: Device) { d.record.Some? ==> Writable(d.record.value) }

  /** The cached slots are those of the device. */
  predicate Placed(w: World) {
    w.s.running.Some? ==> w.s.running == Some(w.dev.running) && w.s.inactive == Some(w.dev.Inactive())
  }

  /** The manager's memory could be saved, and an upload or an intent is complete. */
  predicate Remembered(w: World) {
    && Placed(w)
    && (w.s.phase.Confirmed? || Writable(MakeRecord(w.s)))
    && ((w.s.phase.ReadyToReboot? || w.s.phase.RebootPending?) && w.s.intent ==> w.s.target == Some(w.dev.Inactive()))
    && (w.s.phase.Uploading() ==>
          w.s.imageSize != 0 && w.s.generation != 0 && w.s.operationId != 0 && w.s.target.Some?)
  }

  predicate Written(w: World) {
    Stored(w.dev) && (w.dev.powered ==> Remembered(w))
  }

  // ---------------------------------------------------------------- single calls

  /** Only a save changes the record. */
  predicate Passive(w: World, v: World) {
    && v.dev.record == w.dev.record && v.dev.running == w.dev.running && (v.dev.powered ==> w.dev.powered)
  }

  lemma PassiveWrites(w: World, v: World)
    requires Written(w) && Passive(w, v) && v.s == w.s
    ensures Written(v)
  {
    hide Writable;
  }

  lemma SaveWrites(w: World)
    requires Stored(w.dev) && (w.dev.powered ==> Remembered(w) && Writable(MakeRecord(w.s)))
    ensures Written(Save(w).0) && Save(w).0.s == w.s && Save(w).0.dev.running == w.dev.running
    ensures Save(w).1 ==> Save(w).0.dev.powered
  {
    hide Save; hide Writable;
  }

  lemma RefreshWrites(w: World)
    requires Written(w)
    ensures Written(RefreshPlatform(w).0)
  {
    hide RefreshPlatform; hide Writable;
    assert MakeRecord(Describe(w.s, w.dev)) == MakeRecord(w.s);
  }

  lemma FailWrites(w: World, abortWriter: bool)
    requires Stored(w.dev) && Placed(w) && !w.s.intent && !w.s.activated
    ensures Written(FailLocked(w, abortWriter))
  {
    hide Save; hide CloseWriter;
    var w1 := if abortWriter && w.writerOpen then CloseWriter(w).0.(writerOpen := false) else w;
    var w2 := ShaAbort(w1);
    SaveWrites(w2.(s := w2.s.(phase := Failed, validated := false)));
  }

  // ---------------------------------------------------------------- recovery and boot

  lemma ClearIntentWrites(w: World)
    requires Written(w) && RecoveryRequired(w.s)
    ensures Written(ClearIntent(w).0)
  {
    hide Save;
    if w.dev.powered { SaveWrites(w.(s := w.s.(intent := false))); }
  }

  lemma RecoveryWrites(w: World)
    requires Written(w)
    ensures Written(RecoverRollbackSeed(w).0)
  {
    hide ConfirmRunning; hide Save; hide ClearIntent; hide Writable;
    if RecoveryRequired(w.s) {
      var w1 := ConfirmRunning(w).0;
      PassiveWrites(w, w1);
      if w.s.runningState.Valid? { ClearIntentWrites(w); }
      else {
        SaveWrites(w1);
        assert MakeRecord(w1.s.(runningState := Valid)) == MakeRecord(w1.s);
        ClearIntentWrites(w1.(s := w1.s.(runningState := Valid)));
      }
    }
  }

  lemma UnreconciledWrites(w: World)
    requires Stored(w.dev) && Placed(w) && w.s.running.Some?
    ensures Written(RollbackUnreconciled(w))
  {
    hide Save; hide ReserveGeneration; hide RollbackAndReboot;
    var w1 := w.(s := w.s.(target := w.s.running, phase := RollbackPending, validated := false,
                           intent := true, activated := true, candidateStartedMs := w.dev.NowMs()));
    var w2 := NumberRollback(w1);
    assert w2.s == w1.s.(generation := w2.s.generation) && Passive(w1, w2);
    SaveWrites(w2);
    var w3 := SaveIfNumbered(w2);
    var (w4, rolledBack) := RollbackAndReboot(w3);
    if rolledBack {
      SaveWrites(w4.(s := w4.s.(phase := RolledBack, activated := false)));
    } else {
      SaveWrites(w4.(s := w4.s.(phase := CandidateBoot)));
    }
  }

  /** The platform has been read and the record, if any, applied. */
  predicate Applied(w: World, hasRecord: bool) {
    && Placed(w) && w.s.running.Some? && w.s.boot == w.s.running
    && (if hasRecord then Writable(MakeRecord(w.s)) else MakeRecord(w.s) == MakeRecord(BLANK))
  }

  lemma EndWrites(w: World, hasRecord: bool)
    requires Stored(w.dev) && Applied(w, hasRecord) && !w.s.runningState.Pending() && !RecoveryRequired(w.s)
    ensures Written(ReconcileEnded(w, hasRecord).0)
  {
    hide Save; hide FailLocked;
    var s := w.s;
    if hasRecord && (s.phase.Uploading() || s.phase.Validating?) {
      FailWrites(w, false);
    } else if hasRecord && SamePartition(s.lastInvalid, s.target) && !SamePartition(s.running, s.target) {
      SaveWrites(w.(s := s.(phase := RolledBack, activated := false, rollbackAvailable := false)));
    } else if hasRecord && NoWayForward(s) {
      FailWrites(w.(s := s.(intent := false, activated := false)), false);
    } else {
      SettleWrites(w, hasRecord);
    }
  }

  lemma SettleWrites(w: World, hasRecord: bool)
    requires Stored(w.dev) && Applied(w, hasRecord) && !w.s.runningState.Pending() && !RecoveryRequired(w.s)
    requires !hasRecord || !(w.s.phase.Uploading() || w.s.phase.Validating? || NoWayForward(w.s))
    ensures Written(w.(s := Settle(w.s, hasRecord)))
  {
    if w.s.target.Some? { assert w.s.target.value == w.dev.running || w.s.target.value == w.dev.Inactive(); }
  }

  lemma ReconcileWrites(w: World, hasRecord: bool)
    requires Stored(w.dev) && Applied(w, hasRecord) && w.dev.powered
    ensures Written(Reconcile(w, hasRecord).0)
  {
    hide RecoverRollbackSeed; hide ReconcileEnded; hide RollbackUnreconciled; hide Save;
    if RecoveryRequired(w.s) {
      RecoveryWrites(w);
    } else if w.s.runningState.Pending() {
      UnreconciledWrites(w);
      if CandidateRecord(w.s, hasRecord) {
        var w1 := w.(s := w.s.(phase := CandidateBoot, intent := true, activated := true,
                               candidateStartedMs := w.dev.NowMs()));
        SaveWrites(w1);
        UnreconciledWrites(Save(w1).0);
      }
    } else {
      EndWrites(w, hasRecord);
    }
  }

  lemma BootWrites(w: World)
    requires Stored(w.dev) && w.dev.boot == w.dev.running
    ensures Written(InitializeFromBoot(w).0)
  {
    hide RefreshPlatform; hide Load; hide RollbackUnreconciled; hide Reconcile; hide Writable;
    var (w1, refreshed) := RefreshPlatform(w.(writerOpen := false, s := BLANK));
    BlankIsWritable();
    if refreshed {
      var (w2, loaded) := Load(w1);
      if loaded.None? {
        UnreconciledWrites(w2);
      } else if loaded.value.None? {
        ReconcileWrites(w2, false);
      } else {
        ReconcileWrites(w2.(s := ApplyRecord(w2.s, loaded.value.value)), true);
      }
    }
  }

  lemma BlankIsWritable()
    ensures Writable(MakeRecord(BLANK)) && Writable(MakeRecord(BLANK.(phase := Failed)))
    ensures forall s: Snapshot :: MakeRecord(s) == MakeRecord(BLANK) ==> Writable(MakeRecord(s.(phase := Failed)))
  {
  }

  // ---------------------------------------------------------------- upload

  lemma OpenWrites(w: World, request: UploadRequest, generation: nat)
    requires Stored(w.dev) && Placed(w) && w.s.inactive.Some?
    requires generation != 0 && request.operationId != 0 && request.expectedLength != 0
    ensures Written(OpenUpload(w, request, generation).0)
  {
    hide ShaBegin; hide BeginWrite; hide Save; hide FailLocked;
    var s := BLANK.(generation := generation, operationId := request.operationId, phase := UploadReceiving,
                    running := w.s.running, boot := w.s.boot, inactive := w.s.inactive, target := w.s.inactive,
                    imageSize := request.expectedLength, expectedSha := request.expectedSha,
                    rollbackAvailable := w.s.rollbackAvailable, runningState := w.s.runningState,
                    lastInvalid := w.s.lastInvalid);
    var w1 := ShaBegin(w.(s := s, nextProgress := PROGRESS_INTERVAL_BYTES)).0;
    FailWrites(w1, false);
    var w2 := BeginWrite(w1, s.target, s.imageSize).0;
    FailWrites(w2, false);
    SaveWrites(w2.(writerOpen := true));
    FailWrites(Save(w2.(writerOpen := true)).0, true);
  }

  lemma BeginWrites(w: World, request: UploadRequest)
    requires Written(w)
    ensures Written(BeginUpload(w, request).0)
  {
    hide RefreshPlatform; hide ReserveGeneration; hide OpenUpload; hide Writable;
    RefreshWrites(w);
    var (w1, refreshed) := RefreshPlatform(w);
    var (w2, generation) := ReserveGeneration(w1, w1.s.generation);
    if refreshed {
      PassiveWrites(w1, w2);
      if generation.Some? && request.operationId != 0 && request.expectedLength != 0 {
        OpenWrites(w2, request, generation.value);
      }
    }
  }

  lemma ProgressWrites(w: World)
    requires Written(w) && w.dev.powered && w.s.phase.Uploading()
    ensures Written(RecordProgress(w).0)
  {
    hide Save; hide FailLocked;
    SaveWrites(w);
    FailWrites(Save(w).0, true);
  }

  lemma ChunkWrites(w: World, operationId: nat, generation: nat, chunk: Bytes)
    requires Written(w) && w.dev.powered
    ensures Written(WriteChunk(w, operationId, generation, chunk).0)
  {
    hide Write; hide ShaUpdate; hide RecordProgress; hide FailLocked;
    if w.s.phase.Uploading() {
      FailWrites(w, true);
      var (w1, written) := Write(w, chunk);
      FailWrites(w1, true);
      var (w2, hashed) := ShaUpdate(w1, chunk);
      FailWrites(w2, true);
      if written && hashed {
        ProgressWrites(w2.(s := w2.s.(bytesReceived := w2.s.bytesReceived + |chunk|, phase := Writing)));
      }
    }
  }

  lemma StageWrites(w: World)
    requires Stored(w.dev) && Placed(w) && w.s.phase.Validating? && !w.s.intent && !w.s.activated
    requires Evidence(MakeRecord(w.s))
    ensures Written(StageImage(w).0)
  {
    hide CloseWriter; hide ValidateStaged; hide Save; hide FailLocked;
    var w1 := CloseWriter(w).0;
    var w2 := ShaAbort(w1.(writerOpen := false));
    FailWrites(w2, false);
    var w3 := ValidateStaged(w2, w2.s.target).0;
    FailWrites(w3, false);
    var w4 := w3.(s := w3.s.(validated := true, phase := ReadyToReboot));
    SaveWrites(w4);
    FailWrites(Save(w4).0, false);
  }

  lemma FinishWrites(w: World, operationId: nat, generation: nat, sha: Bytes -> Digest)
    requires Written(w) && w.dev.powered
    ensures Written(FinishUpload(w, operationId, generation, sha).0)
  {
    hide Save; hide ShaFinish; hide FailLocked; hide StageImage;
    if w.s.phase.Uploading() {
      FailWrites(w, true);
      var w0 := w.(s := w.s.(phase := Validating));
      SaveWrites(w0);
      var w1 := Save(w0).0;
      FailWrites(w1, true);
      var (w2, digest) := ShaFinish(w1, sha);
      FailWrites(w2, true);
      if digest.Some? && w.s.bytesReceived == w.s.imageSize {
        var w3 := w2.(s := w2.s.(calculatedSha := digest.value, calculatedAvailable := true));
        FailWrites(w3, true);
        if w3.s.expectedSha == w3.s.calculatedSha { StageWrites(w3); }
      }
    }
  }

  lemma CancelWrites(w: World, operationId: nat, generation: nat)
    requires Written(w) && w.dev.powered
    ensures Written(Cancel(w, operationId, generation).0)
  {
    hide CloseWriter; hide Save; hide FailLocked;
    if w.s.phase.Uploading() || (w.s.phase.ReadyToReboot? && !w.s.activated && !w.s.intent) {
      var w1 := if w.writerOpen then CloseWriter(w).0 else w;
      var w2 := ShaAbort(w1.(writerOpen := false));
      FailWrites(w2, false);
      var w3 := w2.(s := ClearOperation(w2.s));
      SaveWrites(w3);
      FailWrites(Save(w3).0, false);
    }
  }

  // ---------------------------------------------------------------- activation and candidate

  lemma SelectTargetWrites(w: World)
    requires Written(w) && w.dev.powered && w.s.phase.ReadyToReboot? && w.s.intent && !w.s.activated
    ensures Written(SelectTarget(w, w.dev.Inactive()).0)
  {
    hide PlatformActivate; hide RefreshPlatform; hide Save;
    var target := w.dev.Inactive();
    PlatformIsPassive(w, target);
    var w1 := PlatformActivate(w, target).0;
    PassiveWrites(w, w1);
    SaveWrites(w1.(s := w1.s.(boot := Some(target), activated := true, phase := ReadyToReboot)));
    RefreshWrites(w1);
    var w2 := RefreshPlatform(w1).0;
    SaveWrites(w2.(s := w2.s.(intent := true, activated := true)));
    SaveWrites(w2.(s := w2.s.(intent := true, activated := false)));
    SaveWrites(w2.(s := w2.s.(intent := false, activated := false)));
  }

  lemma PlatformIsPassive(w: World, target: Slot)
    ensures Passive(w, PlatformActivate(w, target).0) && PlatformActivate(w, target).0.s == w.s
  {
    hide SelectInactive; hide SeedRunning;
    SeedIsPassive(w);
  }

  lemma SeedIsPassive(w: World)
    ensures Passive(w, SeedRunning(w).0) && SeedRunning(w).0.s == w.s
  {
    hide SelectRunning; hide MarkRunningValid;
  }

  lemma ActivateWrites(w: World, operationId: nat, generation: nat)
    requires Written(w) && w.dev.powered
    ensures Written(Activate(w, operationId, generation).0)
  {
    hide RefreshPlatform; hide RecoverRollbackSeed; hide FailLocked; hide Save; hide SelectTarget;
    RefreshWrites(w);
    var (w1, refreshed) := RefreshPlatform(w);
    if refreshed && w.s.phase.ReadyToReboot? && w.s.validated {
      RecoveryWrites(w1);
      var (w2, recovered) := if RecoveryRequired(w1.s) then RecoverRollbackSeed(w1) else (w1, true);
      if recovered && RecoveryRequired(w1.s) { RecoverFrame(w1); }
      if recovered && !w2.s.activated && w2.s.target.Some? { DecideWrites(w2); }
    }
  }

  lemma DecideWrites(w: World)
    requires Written(w) && w.dev.powered && w.s.phase.ReadyToReboot? && !w.s.activated && w.s.target.Some?
    requires w.s.running.Some?
    ensures
      if SamePartition(w.s.running, w.s.target) || !SamePartition(w.s.inactive, w.s.target) then
        Written(FailLocked(w, false))
      else
        var (v, saved) := Save(w.(s := w.s.(intent := true)));
        if !saved then Written(v.(s := v.s.(intent := false))) else Written(SelectTarget(v, v.s.target.value).0)
  {
    hide FailLocked; hide Save; hide SelectTarget;
    if SamePartition(w.s.running, w.s.target) || !SamePartition(w.s.inactive, w.s.target) {
      FailWrites(w, false);
    } else {
      var u := w.(s := w.s.(intent := true));
      SaveWrites(u);
      var (v, saved) := Save(u);
      if saved { SelectTargetWrites(v); }
    }
  }

  lemma RebootRequestWrites(w: World, operationId: nat, generation: nat)
    requires Written(w) && w.dev.powered
    ensures Written(MarkRebootPending(w, operationId, generation).0)
  {
    hide Save;
    if w.s.phase.ReadyToReboot? && w.s.activated { SaveWrites(w.(s := w.s.(phase := RebootPending))); }
  }

  lemma StabilizeWrites(w: World)
    requires Written(w) && w.dev.powered
    ensures Written(Stabilize(w).0)
  {
    hide Save;
    if w.s.phase.CandidateBoot? { SaveWrites(w.(s := w.s.(phase := ValidatingCandidate))); }
  }

  lemma ConfirmationWrites(w: World)
    requires Written(w) && w.dev.powered
    ensures Written(ConfirmCandidate(w).0)
  {
    hide RefreshPlatform; hide ConfirmRunning; hide Save;
    if w.s.phase.Candidate() && w.s.validated && w.s.activated {
      RefreshWrites(w);
      var (w1, refreshed) := RefreshPlatform(w);
      if refreshed {
        SaveWrites(w1.(s := w1.s.(phase := Confirmed, rollbackAvailable := true)));
        var w2 := ConfirmRunning(w1).0;
        PassiveWrites(w1, w2);
        SaveWrites(w2.(s := w2.s.(phase := ValidatingCandidate)));
        SaveWrites(w2.(s := w2.s.(runningState := Valid, phase := Confirmed, rollbackAvailable := true)));
      }
    }
  }

  lemma RollbackWrites(w: World)
    requires Written(w) && w.dev.powered
    ensures Written(RollbackCandidate(w).0)
  {
    hide RefreshPlatform; hide PerformRollback; hide Save;
    if w.s.phase.Candidate() {
      RefreshWrites(w);
      var (w1, refreshed) := RefreshPlatform(w);
      if refreshed {
        SaveWrites(w1.(s := w1.s.(phase := ValidatingCandidate)));
        SaveWrites(w1.(s := w1.s.(phase := RollbackPending)));
        PerformRollbackWrites(Save(w1.(s := w1.s.(phase := RollbackPending))).0);
      }
    }
  }

  lemma PerformRollbackWrites(w: World)
    requires Written(w) && w.s.phase.RollbackPending? && Writable(MakeRecord(w.s)) && Placed(w)
    ensures Written(PerformRollback(w).0)
  {
    hide RollbackAndReboot; hide Save;
    var (w1, rolledBack) := RollbackAndReboot(w);
    if rolledBack {
      SaveWrites(w1.(s := w1.s.(phase := RolledBack, activated := false)));
    } else {
      SaveWrites(w1.(s := w1.s.(phase := ValidatingCandidate)));
    }
  }

  // ---------------------------------------------------------------- every run

  lemma CallWrites(w: World, call: Call, sha: Bytes -> Digest)
    requires Written(w) && w.dev.powered
    ensures Written(Perform(w, call, sha).0)
  {
    hide Written; hide BeginUpload; hide WriteChunk; hide FinishUpload; hide Activate; hide MarkRebootPending;
    hide Cancel; hide Stabilize; hide ConfirmCandidate; hide RollbackCandidate; hide RecoverRollbackSeed;
    match call
    case Begin(request) => BeginWrites(w, request);
    case Chunk(op, gen, bytes) => ChunkWrites(w, op, gen, bytes);
    case Finish(op, gen) => FinishWrites(w, op, gen, sha);
    case Activation(op, gen) => ActivateWrites(w, op, gen);
    case RebootRequest(op, gen) => RebootRequestWrites(w, op, gen);
    case Cancellation(op, gen) => CancelWrites(w, op, gen);
    case Stabilizing => StabilizeWrites(w);
    case Confirmation => ConfirmationWrites(w);
    case Rollback => RollbackWrites(w);
    case SeedRecovery => RecoveryWrites(w);
  }

  lemma StepWrites(w: World, e: Event, sha: Bytes -> Digest)
    requires Written(w)
    ensures Written(Step(w, e, sha))
  {
    hide Perform; hide InitializeFromBoot; hide Writable;
    match e
    case Wait(ms) =>
    case Invoke(call, env) =>
      if w.dev.powered { CallWrites(w.(env := env, next := 0), call, sha); }
    case Restart(env) => BootWrites(PoweredUp(w.dev, env));
  }

  /** In every run from a never-updated station, guarded or not, the store holds
      only records the manager would write. */
  lemma {:induction false} RunWrites(w: World, events: seq<Event>, sha: Bytes -> Digest)
    requires Factory(w)
    ensures Written(Run(w, events, sha))
  {
    if events != [] {
      hide Written; hide Step;
      var before := events[..|events| - 1];
      RunWrites(w, before, sha);
      StepWrites(Run(w, before, sha), events[|events| - 1], sha);
    }
  }
}
