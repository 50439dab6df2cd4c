/** Which calls may touch the boot selection and the state of the running image. */
module OtaImages {
  import opened Prelude
  import opened OtaModel
  import opened OtaSteps
  import opened OtaInvariant
  import opened OtaRuns

  /** Neither the boot selection nor the running image has changed. */
  ghost predicate Quiet(d: Device, e: Device) {
    e.running == d.running && e.boot == d.boot && e.current == d.current
    && e.spare.state == d.spare.state && e.lastInvalid == d.lastInvalid && e.bootable == d.bootable
  }

  lemma FailLockedIsQuiet(w: World, abortWriter: bool)
    ensures Quiet(w.dev, FailLocked(w, abortWriter).dev)
  {
    hide CloseWriter; hide Save;
  }

  lemma BeginIsQuiet(w: World, request: UploadRequest)
    ensures Quiet(w.dev, BeginUpload(w, request).0.dev)
  {
    hide RefreshPlatform; hide ReserveGeneration; hide OpenUpload;
    var w1 := RefreshPlatform(w).0;
    var (w2, generation) := ReserveGeneration(w1, w1.s.generation);
    if generation.Some? { OpenIsQuiet(w2, request, generation.value); }
  }

  lemma OpenIsQuiet(w: World, request: UploadRequest, generation: nat)
    ensures Quiet(w.dev, OpenUpload(w, request, generation).0.dev)
  {
    hide ShaBegin; hide BeginWrite; hide Save; hide FailLocked;
    var s := BLANK.(generation := generation, operationId := request.operationId, phase := UploadReceiving,
                    running := w.s.running, boot := w.s.boot, inactive := w.s.inactive, target := w.s.inactive,
                    imageSize := request.expectedLength, expectedSha := request.expectedSha,
                    rollbackAvailable := w.s.rollbackAvailable, runningState := w.s.runningState,
                    lastInvalid := w.s.lastInvalid);
    var (w1, hashing) := ShaBegin(w.(s := s, nextProgress := PROGRESS_INTERVAL_BYTES));
    assert Quiet(w.dev, w1.dev);
    FailLockedIsQuiet(w1, false);
    hide Untouched;
    EraseIsQuiet(w1, s.target, s.imageSize);
  }

  lemma EraseIsQuiet(w: World, target: Option<Slot>, size: nat)
    ensures var (w2, erased) := BeginWrite(w, target, size);
            && Quiet(w.dev, FailLocked(w2, false).dev)
            && var (w3, saved) := Save(w2.(writerOpen := true));
               Quiet(w.dev, w3.dev) && Quiet(w.dev, FailLocked(w3, true).dev)
  {
    hide BeginWrite; hide Save; hide FailLocked;
    var w2 := BeginWrite(w, target, size).0;
    assert Quiet(w.dev, w2.dev);
    FailLockedIsQuiet(w2, false);
    FailLockedIsQuiet(Save(w2.(writerOpen := true)).0, true);
  }

  lemma ChunkIsQuiet(w: World, operationId: nat, generation: nat, chunk: Bytes)
    ensures Quiet(w.dev, WriteChunk(w, operationId, generation, chunk).0.dev)
  {
    hide Write; hide HashChunk; hide FailLocked;
    FailLockedIsQuiet(w, true);
    var w1 := Write(w, chunk).0;
    FailLockedIsQuiet(w1, true);
    HashIsQuiet(w1, chunk);
  }

  lemma HashIsQuiet(w: World, chunk: Bytes)
    ensures Quiet(w.dev, HashChunk(w, chunk).0.dev)
  {
    hide ShaUpdate; hide Save; hide FailLocked;
    var w1 := ShaUpdate(w, chunk).0;
    FailLockedIsQuiet(w1, true);
    var w2 := w1.(s := w1.s.(bytesReceived := w1.s.bytesReceived + |chunk|, phase := Writing));
    FailLockedIsQuiet(Save(w2).0, true);
  }

  lemma FinishIsQuiet(w: World, operationId: nat, generation: nat, sha: Bytes -> Digest)
    ensures Quiet(w.dev, FinishUpload(w, operationId, generation, sha).0.dev)
  {
    hide Save; hide ShaFinish; hide FailLocked; hide StageImage;
    FailLockedIsQuiet(w, true);
    var w1 := Save(w.(s := w.s.(phase := Validating))).0;
    FailLockedIsQuiet(w1, true);
    var (w2, digest) := ShaFinish(w1, sha);
    FailLockedIsQuiet(w2, true);
    if digest.Some? {
      var w3 := w2.(s := w2.s.(calculatedSha := digest.value, calculatedAvailable := true));
      FailLockedIsQuiet(w3, true);
      StageIsQuiet(w3);
    }
  }

  lemma StageIsQuiet(w: World)
    ensures Quiet(w.dev, StageImage(w).0.dev)
  {
    hide CloseWriter; hide ValidateStaged; hide Save; hide FailLocked;
    var w1 := CloseWriter(w).0;
    var w2 := ShaAbort(w1.(writerOpen := false));
    FailLockedIsQuiet(w2, false);
    var w3 := ValidateStaged(w2, w2.s.target).0;
    FailLockedIsQuiet(w3, false);
    FailLockedIsQuiet(Save(w3.(s := w3.s.(validated := true, phase := ReadyToReboot))).0, false);
  }

  lemma CancelIsQuiet(w: World, operationId: nat, generation: nat)
    ensures Quiet(w.dev, Cancel(w, operationId, generation).0.dev)
  {
    hide CloseWriter; hide Save; hide FailLocked;
    var w1 := if w.writerOpen then CloseWriter(w).0 else w;
    var w2 := ShaAbort(w1.(writerOpen := false));
    FailLockedIsQuiet(w2, false);
    FailLockedIsQuiet(Save(w2.(s := ClearOperation(w2.s))).0, false);
  }

  /** Uploading, cancelling, requesting the reboot and waiting for stability
      leave the boot selection and the running image alone, whatever fails. */
  lemma OnlyFourCallsTouchImages(w: World, call: Call, sha: Bytes -> Digest)
    requires !call.Activation? && !call.Confirmation? && !call.Rollback? && !call.SeedRecovery?
    ensures Quiet(w.dev, Perform(w, call, sha).0.dev)
  {
    hide BeginUpload; hide WriteChunk; hide FinishUpload; hide Cancel; hide Save;
    match call
    case Begin(request) => BeginIsQuiet(w, request);
    case Chunk(op, gen, bytes) => ChunkIsQuiet(w, op, gen, bytes);
    case Finish(op, gen) => FinishIsQuiet(w, op, gen, sha);
    case Cancellation(op, gen) => CancelIsQuiet(w, op, gen);
    case RebootRequest(op, gen) =>
    case Stabilizing =>
  }

  // ---------------------------------------------------------------- confirmation

  lemma ConfirmationWaits(w: World, sha: Bytes -> Digest)
    requires Inv(w, sha) && w.dev.powered && !w.dev.current.state.Valid?
    requires ConfirmCandidate(w).0.dev.current.state.Valid?
    ensures w.s.target == Some(w.dev.running) && w.s.phase.Candidate() && w.dev.uptime >= 30000
    ensures w.s.validated && w.s.intent && w.s.activated && w.dev.current.state.Pending()
  {
    hide RefreshPlatform; hide ConfirmRunning; hide Save; hide Writable;
  }

  lemma RollbackNeverConfirms(w: World)
    requires w.dev.powered && RollbackCandidate(w).0.dev.running == w.dev.running
    ensures RollbackCandidate(w).0.dev.current == w.dev.current
  {
    hide RefreshPlatform; hide PerformRollback; hide Save;
    var w1 := RefreshPlatform(w).0;
    var w2 := if w1.s.target.Some? then w1 else w1.(s := w1.s.(target := w1.s.running));
    PerformNeverConfirms(Save(w2.(s := w2.s.(phase := RollbackPending))).0);
  }

  lemma PerformNeverConfirms(w: World)
    ensures var v := PerformRollback(w).0.dev; v.running == w.dev.running ==> v.current == w.dev.current
  {
    hide RollbackAndReboot; hide Save;
  }

  lemma ActivationConfirmsOnlyTheOldImage(w: World, op: nat, gen: nat, sha: Bytes -> Digest)
    requires Inv(w, sha) && w.dev.powered && !w.dev.current.state.Valid?
    requires Activate(w, op, gen).0.dev.current.state.Valid?
    ensures w.s.phase.ReadyToReboot? && w.s.target == Some(w.dev.Inactive())
  {
    hide RefreshPlatform; hide RecoverRollbackSeed; hide FailLocked; hide Save; hide SelectTarget; hide Inv;
    var w1 := RefreshPlatform(w).0;
    FailLockedIsQuiet(w1, false);
    if RecoveryRequired(w1.s) {
      assert w1.s.inactive == Some(w.dev.Inactive()) by { assert Inv(w, sha); MemoryLayout(w, sha); }
    } else {
      assert w1.s.inactive == w1.s.target ==> w1.s.inactive == Some(w.dev.Inactive()) by { MemoryLayout(w, sha); }
    }
  }

  lemma MemoryLayout(w: World, sha: Bytes -> Digest)
    requires Inv(w, sha) && w.dev.powered
    ensures w.s.running.Some? ==> w.s.running == Some(w.dev.running) && w.s.inactive == Some(w.dev.Inactive())
    ensures RefreshPlatform(w).1 ==> RefreshPlatform(w).0.s.inactive == Some(w.dev.Inactive())
    ensures RefreshPlatform(w).0.dev == w.dev.(powered := RefreshPlatform(w).0.dev.powered)
    ensures RefreshPlatform(w).0.s.target == w.s.target && RefreshPlatform(w).0.s.phase == w.s.phase
  {
    hide RefreshPlatform;
  }

  lemma RecoveryIsForTheOldImage(w: World, sha: Bytes -> Digest)
    requires Inv(w, sha) && w.dev.powered && RecoverRollbackSeed(w).0.dev.current != w.dev.current
    ensures w.s.phase.ReadyToReboot? && w.s.target == Some(w.dev.Inactive())
  {
    hide ClearIntent; hide ConfirmRunning; hide Save;
  }

  /** A call that marks the running image valid is a confirmation, or recovers
      the firmware that was in use before the update. */
  lemma CallMarks(w: World, call: Call, env: seq<Outcome>, sha: Bytes -> Digest)
    requires Inv(w, sha) && w.dev.powered && !w.dev.current.state.Valid?
    requires var v := Ends(w, call, env, sha).dev; v.running == w.dev.running && v.current.state.Valid?
    ensures Justified(w, Invoke(call, env), w.dev.running)
  {
    hide Inv;
    hide BeginUpload; hide WriteChunk; hide FinishUpload; hide Cancel; hide MarkRebootPending; hide Stabilize;
    hide Activate; hide ConfirmCandidate; hide RollbackCandidate;
    var u := w.(env := env, next := 0);
    EnvIrrelevant(w, env, sha);
    match call
    case Activation(op, gen) => ActivationConfirmsOnlyTheOldImage(u, op, gen, sha);
    case Confirmation => ConfirmationWaits(u, sha);
    case Rollback => RollbackNeverConfirms(u);
    case SeedRecovery => MemoryLayout(u, sha); RecoveryIsForTheOldImage(u, sha);
    case _ => OnlyFourCallsTouchImages(u, call, sha);
  }

  // ---------------------------------------------------------------- the other image

  /** The image in the other slot is not marked valid, and a running image that
      is given up is not valid either. */
  predicate SpareUnmarked(d: Device, e: Device) {
    if e.running == d.running then e.spare.state.Valid? ==> d.spare.state.Valid?
    else e.current.state == d.spare.state && !e.spare.state.Valid?
  }

  predicate SameSpare(d: Device, e: Device) { e.running == d.running && e.spare == d.spare }

  lemma SaveSpares(w: World)
    ensures SameSpare(w.dev, Save(w).0.dev)
  {
    hide Save;
  }

  lemma RefreshSpares(w: World)
    ensures SameSpare(w.dev, RefreshPlatform(w).0.dev)
  {
    hide RefreshPlatform;
  }

  lemma ConfirmSpares(w: World)
    ensures SameSpare(w.dev, ConfirmRunning(w).0.dev)
  {
    hide ConfirmRunning;
  }

  lemma SeedSpares(w: World)
    ensures SameSpare(w.dev, SeedRunning(w).0.dev)
  {
  }

  lemma RecoverySpares(w: World)
    ensures SameSpare(w.dev, RecoverRollbackSeed(w).0.dev)
  {
    hide Save; hide ConfirmRunning; hide RecoveryRequired; hide Untouched; hide ClearIntent;
    ConfirmSpares(w);
    ClearIntentSpares(w);
    var w1 := ConfirmRunning(w).0;
    SaveSpares(w1);
    ClearIntentSpares(w1.(s := w1.s.(runningState := Valid)));
  }

  lemma ClearIntentSpares(w: World)
    ensures SameSpare(w.dev, ClearIntent(w).0.dev)
  {
    hide Save; hide Untouched;
    SaveSpares(w.(s := w.s.(intent := false)));
  }

  lemma SelectInactiveLeavesSpare(w: World)
    ensures var e := SelectInactive(w).0.dev; SpareUnmarked(w.dev, e) && e.running == w.dev.running
  {
  }

  lemma SelectionLeavesSpare(w: World, target: Slot)
    ensures var e := SelectTarget(w, target).0.dev; SpareUnmarked(w.dev, e) && e.running == w.dev.running
  {
    hide Save; hide RefreshPlatform; hide SelectInactive; hide SeedRunning; hide Untouched;
    SeedSpares(w);
    SelectInactiveLeavesSpare(w);
    SelectInactiveLeavesSpare(SeedRunning(w).0);
    var w1 := PlatformActivate(w, target).0;
    assert SpareUnmarked(w.dev, w1.dev) && w1.dev.running == w.dev.running;
    hide PlatformActivate;
    RefreshSpares(w1);
    var (w2, refreshed) := RefreshPlatform(w1);
    SaveSpares(w1.(s := w1.s.(boot := Some(target), activated := true, phase := ReadyToReboot)));
    SaveSpares(w2.(s := w2.s.(intent := true, activated := true)));
    SaveSpares(w2.(s := w2.s.(intent := true, activated := false)));
    SaveSpares(w2.(s := w2.s.(intent := false, activated := false)));
  }

  lemma ActivationLeavesSpare(w: World, op: nat, gen: nat)
    ensures var e := Activate(w, op, gen).0.dev; SpareUnmarked(w.dev, e) && e.running == w.dev.running
  {
    hide RefreshPlatform; hide Save; hide FailLocked; hide RecoverRollbackSeed; hide SelectTarget; hide Untouched;
    hide RecoveryRequired;
    RefreshSpares(w);
    var w1 := RefreshPlatform(w).0;
    RecoverySpares(w1);
    var w2 := if RecoveryRequired(w1.s) then RecoverRollbackSeed(w1).0 else w1;
    FailLockedIsQuiet(w2, false);
    SaveSpares(w2.(s := w2.s.(intent := true)));
    var w3 := Save(w2.(s := w2.s.(intent := true))).0;
    if w3.s.target.Some? { SelectionLeavesSpare(w3, w3.s.target.value); }
  }

  lemma FallingBackLeavesSpare(w: World)
    ensures var e := RollbackAndReboot(w).0.dev;
            SpareUnmarked(w.dev, e) && (e.running == w.dev.running ==> e.current == w.dev.current)
  {
    hide RollbackAndReboot;
  }

  lemma RollbackLeavesSpare(w: World)
    ensures SpareUnmarked(w.dev, RollbackCandidate(w).0.dev)
  {
    hide RefreshPlatform; hide Save; hide PerformRollback; hide Untouched;
    RefreshSpares(w);
    var w1 := RefreshPlatform(w).0;
    var w2 := if w1.s.target.Some? then w1 else w1.(s := w1.s.(target := w1.s.running));
    SaveSpares(w2.(s := w2.s.(phase := ValidatingCandidate)));
    SaveSpares(w2.(s := w2.s.(phase := RollbackPending)));
    PerformLeavesSpare(Save(w2.(s := w2.s.(phase := RollbackPending))).0);
  }

  lemma PerformLeavesSpare(w: World)
    ensures SpareUnmarked(w.dev, PerformRollback(w).0.dev)
  {
    hide RollbackAndReboot; hide Save;
    FallingBackLeavesSpare(w);
  }

  lemma ConfirmationLeavesSpare(w: World)
    ensures SpareUnmarked(w.dev, ConfirmCandidate(w).0.dev)
  {
    hide RefreshPlatform; hide ConfirmRunning; hide Save; hide Untouched;
    RefreshSpares(w);
    var w1 := RefreshPlatform(w).0;
    ConfirmSpares(w1);
    var w2 := ConfirmRunning(w1).0;
    SaveSpares(w1.(s := w1.s.(phase := Confirmed, rollbackAvailable := true)));
    SaveSpares(w2.(s := w2.s.(phase := ValidatingCandidate)));
    SaveSpares(w2.(s := w2.s.(runningState := Valid, phase := Confirmed, rollbackAvailable := true)));
  }

  lemma CallLeavesSpare(w: World, call: Call, sha: Bytes -> Digest)
    ensures SpareUnmarked(w.dev, Perform(w, call, sha).0.dev)
  {
    hide BeginUpload; hide WriteChunk; hide FinishUpload; hide Cancel; hide MarkRebootPending; hide Stabilize;
    hide Activate; hide ConfirmCandidate; hide RollbackCandidate; hide RecoverRollbackSeed;
    match call
    case Activation(op, gen) => ActivationLeavesSpare(w, op, gen);
    case Confirmation => ConfirmationLeavesSpare(w);
    case Rollback => RollbackLeavesSpare(w);
    case SeedRecovery => RecoverySpares(w);
    case _ => OnlyFourCallsTouchImages(w, call, sha);
  }

  // ---------------------------------------------------------------- the boot

  lemma UnreconciledMarksNothing(w: World)
    ensures var e := RollbackUnreconciled(w).dev;
            SpareUnmarked(w.dev, e) && (e.running == w.dev.running ==> e.current == w.dev.current)
  {
    hide SaveIfNumbered; hide NumberRollback; hide RollbackAndReboot;
    var w1 := w.(s := w.s.(target := w.s.running, phase := RollbackPending, validated := false,
                           intent := true, activated := true, candidateStartedMs := w.dev.NowMs()));
    NumberingIsQuiet(w1);
    var w2 := NumberRollback(w1);
    SaveIfNumberedIsQuiet(w2);
    var w3 := SaveIfNumbered(w2);
    FallingBackLeavesSpare(w3);
    var (w4, rolledBack) := RollbackAndReboot(w3);
    SaveIfNumberedIsQuiet(if rolledBack then w4.(s := w4.s.(phase := RolledBack, activated := false))
                          else w4.(s := w4.s.(phase := CandidateBoot)));
  }

  lemma NumberingIsQuiet(w: World)
    ensures Quiet(w.dev, NumberRollback(w).dev)
  {
    hide ReserveGeneration;
  }

  lemma SaveIfNumberedIsQuiet(w: World)
    ensures Quiet(w.dev, SaveIfNumbered(w).dev)
  {
    hide Save;
  }

  /** A boot marks at most the running image, and only on the seed record of an
      update whose target is the other slot. */
  lemma ReconcileMarks(w: World, hasRecord: bool, sha: Bytes -> Digest)
    requires Durable(w.dev, sha) && Loaded(w, hasRecord)
    ensures var e := Reconcile(w, hasRecord).0.dev;
            && SpareUnmarked(w.dev, e)
            && (e.running == w.dev.running && e.current.state.Valid? && !w.dev.current.state.Valid? ==>
                  w.dev.record.Some? && Seed(w.dev.record.value, w.dev.Inactive()))
  {
    hide Save; hide ConfirmRunning; hide RollbackUnreconciled; hide ReconcileEnded;
    if RecoveryRequired(w.s) {
      RecoverySpares(w);
      if hasRecord { assert w.dev.record.value == MakeRecord(w.s); }
    } else if w.s.runningState.Pending() {
      UnreconciledMarksNothing(w);
      UnreconciledMarksNothing(Save(w.(s := w.s.(phase := CandidateBoot, intent := true, activated := true,
                                                 candidateStartedMs := w.dev.NowMs()))).0);
    } else {
      var w1 := Save(w.(s := w.s.(phase := ReadyToReboot, intent := false, activated := false))).0;
      EndIsQuiet(w, hasRecord);
      EndIsQuiet(w1, hasRecord);
    }
  }

  lemma EndIsQuiet(w: World, hasRecord: bool)
    ensures Quiet(w.dev, ReconcileEnded(w, hasRecord).0.dev)
  {
    hide Save; hide FailLocked;
    FailLockedIsQuiet(w, false);
    FailLockedIsQuiet(w.(s := w.s.(intent := false, activated := false)), false);
  }

  lemma BootMarks(w: World, sha: Bytes -> Digest)
    requires Durable(w.dev, sha) && Booted(w.dev)
    ensures var e := InitializeFromBoot(w).0.dev;
            && SpareUnmarked(w.dev, e)
            && (e.running == w.dev.running && e.current.state.Valid? && !w.dev.current.state.Valid? ==>
                  w.dev.record.Some? && Seed(w.dev.record.value, w.dev.Inactive()))
  {
    hide RefreshPlatform; hide Load; hide RollbackUnreconciled; hide Reconcile; hide Writable;
    var (w1, refreshed) := RefreshPlatform(w.(writerOpen := false, s := BLANK));
    if refreshed {
      var (w2, loaded) := Load(w1);
      if loaded.None? {
        UnreconciledMarksNothing(w2);
      } else if loaded.value.None? {
        ReconcileMarks(w2, false, sha);
      } else {
        ReconcileMarks(w2.(s := ApplyRecord(w2.s, loaded.value.value)), true, sha);
      }
    }
  }

  // ---------------------------------------------------------------- every run

  /** The image in `slot` may be marked valid by `e`: it is the candidate, up
      for 30 seconds and confirmed; or the update is meant for the other slot. */
  predicate Justified(u: World, e: Event, slot: Slot) {
    match e
    case Wait(_) => false
    case Invoke(call, _) =>
      u.dev.powered && slot == u.dev.running
      && ((call.Confirmation? && u.s.phase.Candidate() && u.s.target == Some(slot)
           && u.dev.uptime >= 30000)
          || ((call.Activation? || call.SeedRecovery?) && u.s.phase.ReadyToReboot?
              && u.s.target == Some(slot.Other())))
    case Restart(_) =>
      var d := u.dev.Reboot();
      slot == d.running && d.record.Some? && Seed(d.record.value, slot.Other())
  }

  predicate Marked(u: World, v: World, slot: Slot) {
    !u.dev.At(slot).state.Valid? && v.dev.At(slot).state.Valid?
  }

  /** In every run, with power cuts anywhere and whatever happens next, an image
      becomes valid only by a confirmation 30 seconds or more after it booted as
      the candidate, or as the old firmware whose otadata entry was being seeded. */
  lemma CandidateWaitsThirtySeconds(w: World, events: seq<Event>, e: Event, slot: Slot, sha: Bytes -> Digest)
    requires Factory(w) && SafeRun(w, events, sha)
    ensures var u := Run(w, events, sha);
            Marked(u, Step(u, e, sha), slot) ==> Justified(u, e, slot)
  {
    hide Run; hide SafeRun; hide Perform; hide InitializeFromBoot; hide Inv;
    var u := Run(w, events, sha);
    RunKeeps(w, events, sha);
    if Marked(u, Step(u, e, sha), slot) {
      match e
      case Wait(ms) =>
      case Invoke(call, env) =>
        CallLeavesSpare(u.(env := env, next := 0), call, sha);
        if slot == u.dev.running { CallMarks(u, call, env, sha); }
      case Restart(env) => RestartMarks(u, env, slot, sha);
    }
  }

  lemma RestartMarks(u: World, env: seq<Outcome>, slot: Slot, sha: Bytes -> Digest)
    requires Inv(u, sha)
    ensures Marked(u, Step(u, Restart(env), sha), slot) ==> Justified(u, Restart(env), slot)
  {
    hide InitializeFromBoot; hide Writable;
    RebootRestores(u.dev, sha);
    BootMarks(PoweredUp(u.dev, env), sha);
    assert u.dev.Reboot().At(slot).state.Valid? ==> u.dev.At(slot).state.Valid?;
  }
}
