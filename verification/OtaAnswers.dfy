/**
 What the manager's answers mean: what has been achieved when a call reports
 success, what is left when it does not, and when a call succeeds although
 nothing fails.
*/
module OtaAnswers {
  import opened Prelude
  import opened OtaModel
  import opened OtaSteps
  import opened OtaImages
  import opened OtaInvariant
  import opened OtaRuns
  import opened OtaTheorems

  /** The platform's check of the image found nothing wrong. */
  predicate Passes(o: Outcome, size: nat) {
    match o
    case Done => true
    case Judged(v) => v.structureValid && v.targetCompatible && v.projectCompatible && v.imageSize == size
    case _ => false
  }

  predicate Stored(v: World) { v.dev.record == Some(MakeRecord(v.s)) }

  // ---------------------------------------------------------------- success

  /** The empty slot is open for exactly the image that was announced. */
  predicate UploadOpened(w: World, request: UploadRequest, v: World) {
    && v.s.phase.UploadReceiving? && v.writerOpen && v.dev.writer && v.dev.spare.data == [] && v.dev.hasher == Some([])
    && v.s.operationId == request.operationId && v.s.generation > w.s.generation && v.s.bytesReceived == 0
    && v.nextProgress == 0x8_0000
    && v.s.imageSize == request.expectedLength && v.s.expectedSha == request.expectedSha
    && v.s.target == Some(w.dev.Inactive()) && !v.s.validated && !v.s.intent && !v.s.activated && Stored(v)
    && v.dev.powered
  }

  /** The chunk, and nothing else, is written, hashed and counted; the store
      knows at each milestone and at the end. */
  predicate ChunkTaken(w: World, bytes: Bytes, v: World) {
    && v.s == w.s.(phase := Writing, bytesReceived := w.s.bytesReceived + |bytes|) && v.writerOpen
    && v.dev.spare.data == w.dev.spare.data + bytes && v.dev.powered
    && (if v.s.bytesReceived >= w.nextProgress || v.s.bytesReceived == v.s.imageSize then
          Stored(v) && v.nextProgress % 0x8_0000 == 0 && 0 < v.nextProgress - v.s.bytesReceived <= 0x8_0000
        else v.nextProgress == w.nextProgress)
  }

  /** The whole image has the declared digest, passed the platform's check, and
      is recorded as staged. */
  predicate Staged(w: World, verdict: Outcome, sha: Bytes -> Digest, v: World) {
    && v.s.phase.ReadyToReboot? && v.s.validated && !v.s.intent && !v.s.activated
    && v.s.target == Some(w.dev.Inactive())
    && w.s.bytesReceived == w.s.imageSize && sha(w.dev.spare.data) == w.s.expectedSha
    && Passes(verdict, w.s.imageSize) && (verdict.Done? ==> |w.dev.spare.data| == w.s.imageSize)
    && v.dev.spare.data == w.dev.spare.data && v.dev.bootable(v.dev.spare.data)
    && !v.writerOpen && !v.dev.writer && Stored(v) && v.dev.powered
  }

  /** The next reset runs the target, and the store knows that it was intended. */
  predicate TargetChosen(w: World, v: World) {
    && v.s.intent && v.s.activated && v.dev.boot == w.dev.Inactive() && v.dev.running == w.dev.running
    && v.dev.record.Some? && Selected(v.dev.record.value, v.dev.boot) && v.dev.current.state.Valid?
    && v.dev.spare.data == w.dev.spare.data && v.dev.current.data == w.dev.current.data && v.s.target == w.s.target
    && v.s.operationId == w.s.operationId && v.s.generation == w.s.generation && v.s.phase.ReadyToReboot?
  }

  /** The running target is valid for the bootloader as for the manager. */
  predicate CandidateKept(w: World, v: World) {
    && v.s.phase.Confirmed? && v.s.target == Some(v.dev.running) && v.dev.running == w.dev.running
    && v.dev.current == w.dev.current.(state := Valid) && v.dev.spare == w.dev.spare
  }

  /** The image that ran is given up, and the known-good one runs. */
  predicate FellBack(w: World, v: World) {
    && v.dev.running == w.dev.Inactive() && v.dev.boot == v.dev.running && v.dev.current == w.dev.spare
    && v.dev.current.state.Valid? && v.dev.spare == w.dev.current.(state := Invalid)
    && v.dev.lastInvalid == Some(w.dev.running)
  }

  /** The old image is valid and no longer waits for a selection. */
  predicate SeedSettled(w: World, v: World) {
    && !v.s.intent && v.dev.current.state.Valid? && v.s.phase.ReadyToReboot? && v.s.validated && Stored(v)
    && v.dev.running == w.dev.running
  }

  ghost predicate Achieved(w: World, call: Call, env: seq<Outcome>, sha: Bytes -> Digest, v: World) {
    match call
    case Begin(request) => UploadOpened(w, request, v)
    case Chunk(_, _, bytes) => ChunkTaken(w, bytes, v)
    case Finish(_, _) => Staged(w, Answer(env, 3), sha, v)
    case Activation(_, _) => TargetChosen(w, v)
    case RebootRequest(_, _) =>
      v.s == w.s.(phase := RebootPending) && Stored(v) && v.dev == w.dev.(record := v.dev.record)
    case Cancellation(_, _) => v.s == ClearOperation(w.s) && !v.writerOpen && !v.dev.writer && Stored(v)
    case Stabilizing => v.s == w.s.(phase := ValidatingCandidate)
    case Confirmation => CandidateKept(w, v)
    case Rollback => FellBack(w, v)
    case SeedRecovery => SeedSettled(w, v)
  }

  lemma BeginSucceeds(w: World, request: UploadRequest)
    requires BeginUpload(w, request).1
    ensures UploadOpened(w, request, BeginUpload(w, request).0)
  {
    hide OpenUpload; hide RefreshPlatform; hide ReserveGeneration; hide UploadOpened;
    var w1 := RefreshPlatform(w).0;
    var (w2, generation) := ReserveGeneration(w1, w1.s.generation);
    OpenSucceeds(w2, request, generation.value);
    OpenedFrom(w, w2, request, BeginUpload(w, request).0);
  }

  lemma OpenedFrom(w: World, u: World, request: UploadRequest, v: World)
    requires UploadOpened(u, request, v) && u.s.generation == w.s.generation && u.dev.running == w.dev.running
    ensures UploadOpened(w, request, v)
  {
  }

  lemma OpenSucceeds(w: World, request: UploadRequest, generation: nat)
    requires OpenUpload(w, request, generation).1
    requires w.s.inactive == Some(w.dev.Inactive()) && w.s.generation < generation
    ensures UploadOpened(w, request, OpenUpload(w, request, generation).0)
  {
    hide FailLocked; hide Untouched;
  }

  lemma ChunkSucceeds(w: World, op: nat, gen: nat, bytes: Bytes)
    requires WriteChunk(w, op, gen, bytes).1
    ensures ChunkTaken(w, bytes, WriteChunk(w, op, gen, bytes).0)
  {
    hide FailLocked; hide Write; hide ShaUpdate; hide Save;
    var w1 := Write(w, bytes).0;
    var w2 := ShaUpdate(w1, bytes).0;
    NextMark(w.s.bytesReceived + |bytes|);
    hide NextMilestone;
  }

  lemma NextMark(received: nat)
    ensures NextMilestone(received) % 0x8_0000 == 0 && 0 < NextMilestone(received) - received <= 0x8_0000
  {
  }

  lemma FinishSucceeds(w: World, op: nat, gen: nat, sha: Bytes -> Digest)
    requires Inv(w, sha) && w.dev.powered && w.next == 0 && FinishUpload(w, op, gen, sha).1
    ensures Staged(w, Answer(w.env, 3), sha, FinishUpload(w, op, gen, sha).0)
  {
    hide FailLocked; hide StageImage;
    var w1 := Save(w.(s := w.s.(phase := Validating))).0;
    var (w2, digest) := ShaFinish(w1, sha);
    var w3 := w2.(s := w2.s.(calculatedSha := digest.value, calculatedAvailable := true));
    assert FinishUpload(w, op, gen, sha) == StageImage(w3);
    StageSucceeds(w3);
  }

  lemma StageSucceeds(w: World)
    requires w.next == 2 && w.dev.powered && StageImage(w).1
    ensures var v := StageImage(w).0;
            && v.s == w.s.(validated := true, phase := ReadyToReboot) && !v.writerOpen && !v.dev.writer && Stored(v)
            && v.dev.powered
            && Passes(Answer(w.env, 3), w.s.imageSize)
            && (Answer(w.env, 3).Done? ==> |w.dev.spare.data| == w.s.imageSize)
            && v.dev.spare.data == w.dev.spare.data && v.dev.bootable(v.dev.spare.data)
            && w.s.target == Some(w.dev.Inactive())
  {
    hide FailLocked;
  }

  predicate SameData(d: Device, e: Device) { e.spare.data == d.spare.data && e.current.data == d.current.data }

  predicate SameUpdate(s: Snapshot, t: Snapshot) {
    && t.target == s.target && t.operationId == s.operationId && t.generation == s.generation
    && (s.phase.ReadyToReboot? ==> t.phase.ReadyToReboot?)
  }

  /** Selection: the boot slot and the memory agree when success is reported. */
  lemma SelectionSucceeds(w: World)
    requires w.s.running == Some(w.dev.running) && w.s.intent && SelectTarget(w, w.dev.Inactive()).1
    ensures var v := SelectTarget(w, w.dev.Inactive()).0;
            && v.s.intent && v.s.activated && v.dev.boot == w.dev.Inactive() && v.dev.running == w.dev.running
            && SameData(w.dev, v.dev) && SameUpdate(w.s, v.s)
  {
    hide Save; hide RefreshPlatform; hide PlatformActivate;
    PlatformSelects(w);
  }

  lemma PlatformSelects(w: World)
    ensures var (v, ok) := PlatformActivate(w, w.dev.Inactive());
            v.dev.running == w.dev.running && v.s == w.s && (ok ==> v.dev.boot == w.dev.Inactive())
            && SameData(w.dev, v.dev)
  {
    hide SelectInactive; hide SeedRunning;
    SeedStays(w);
  }

  lemma SeedStays(w: World)
    ensures SeedRunning(w).0.dev.running == w.dev.running && SeedRunning(w).0.s == w.s
    ensures SameData(w.dev, SeedRunning(w).0.dev)
  {
    hide SelectRunning; hide MarkRunningValid;
  }

  lemma ActivateSucceeds(w: World, op: nat, gen: nat, sha: Bytes -> Digest)
    requires Inv(w, sha) && w.dev.powered && Activate(w, op, gen).1
    ensures var v := Activate(w, op, gen).0;
            && v.s.intent && v.s.activated && v.dev.boot == w.dev.Inactive() && v.dev.running == w.dev.running
            && SameData(w.dev, v.dev) && SameUpdate(w.s, v.s) && w.s.phase.ReadyToReboot?
  {
    hide Save; hide RefreshPlatform; hide RecoverRollbackSeed; hide SelectTarget; hide FailLocked; hide Inv;
    var (w1, refreshed) := RefreshPlatform(w);
    if RecoveryRequired(w1.s) { RecoverFrame(w1); }
    var w2 := if RecoveryRequired(w1.s) then RecoverRollbackSeed(w1).0 else w1;
    if !w2.s.activated {
      var w3 := Save(w2.(s := w2.s.(intent := true))).0;
      SelectionSucceeds(w3);
    }
  }

  lemma HarmedRetryFails(w: World, op: nat, gen: nat, sha: Bytes -> Digest)
    requires Inv(w, sha) && w.dev.powered && w.next == 0 && !Guarded(w, Activation(op, gen))
    ensures Harms(Activation(op, gen), w.env) ==> !Activate(w, op, gen).1
  {
    hide RecoverRollbackSeed; hide SelectTarget; hide FailLocked;
    var (w1, refreshed) := RefreshPlatform(w);
    assert w1.next == 1 && (refreshed ==> !RecoveryRequired(w1.s));
  }

  lemma ConfirmSucceeds(w: World, sha: Bytes -> Digest)
    requires Inv(w, sha) && w.dev.powered && ConfirmCandidate(w).1
    ensures CandidateKept(w, ConfirmCandidate(w).0)
  {
    hide RefreshPlatform; hide ConfirmRunning; hide Save; hide Writable;
  }

  lemma RollbackSucceeds(w: World)
    requires w.dev.powered && RollbackCandidate(w).1
    ensures FellBack(w, RollbackCandidate(w).0)
  {
    hide RefreshPlatform; hide PerformRollback; hide Save;
    var w1 := RefreshPlatform(w).0;
    var w2 := if w1.s.target.Some? then w1 else w1.(s := w1.s.(target := w1.s.running));
    var w3 := Save(w2.(s := w2.s.(phase := RollbackPending))).0;
    assert w3.dev == w.dev.(record := w3.dev.record, powered := w3.dev.powered);
    FallingSucceeds(w3);
  }

  lemma FallingSucceeds(w: World)
    requires PerformRollback(w).1
    ensures FellBack(w, PerformRollback(w).0)
  {
    hide RollbackAndReboot; hide Save;
  }

  lemma RecoverySucceeds(w: World, sha: Bytes -> Digest)
    requires Inv(w, sha) && w.dev.powered && RecoverRollbackSeed(w).1
    ensures SeedSettled(w, RecoverRollbackSeed(w).0)
  {
    hide ConfirmRunning; hide Save; hide Writable;
  }

  lemma CancelSucceeds(w: World, op: nat, gen: nat, sha: Bytes -> Digest)
    requires Inv(w, sha) && w.dev.powered && Cancel(w, op, gen).1
    ensures var v := Cancel(w, op, gen).0;
            v.s == ClearOperation(w.s) && !v.writerOpen && !v.dev.writer && Stored(v)
  {
    hide CloseWriter; hide FailLocked;
  }

  /** In every state and whatever is answered: a call that reports success has
      done what it is for. */
  lemma SuccessMeans(w: World, call: Call, env: seq<Outcome>, sha: Bytes -> Digest)
    requires Inv(w, sha) && w.dev.powered
    ensures var (v, ok) := Perform(w.(env := env, next := 0), call, sha);
            ok ==> Achieved(w, call, env, sha, v)
  {
    hide BeginUpload; hide WriteChunk; hide FinishUpload; hide Activate; hide ConfirmCandidate;
    hide RollbackCandidate; hide RecoverRollbackSeed; hide Cancel; hide Inv; hide FailLocked;
    var u := w.(env := env, next := 0);
    EnvIrrelevant(w, env, sha);
    if Perform(u, call, sha).1 {
      match call
      case Begin(request) => BeginSucceeds(u, request);
      case Chunk(op, gen, bytes) => ChunkSucceeds(u, op, gen, bytes);
      case Finish(op, gen) => FinishSucceeds(u, op, gen, sha);
      case Activation(op, gen) =>
        ActivateSucceeds(u, op, gen, sha);
        if !Guarded(u, call) { HarmedRetryFails(u, op, gen, sha); }
        assert Guarded(u, call) == Guarded(w, call);
        SafeCallExact(w, call, env, sha);
        SelectionIsDurable(Activate(u, op, gen).0, sha);
      case Confirmation => ConfirmSucceeds(u, sha);
      case Rollback => RollbackSucceeds(u);
      case SeedRecovery => RecoverySucceeds(u, sha);
      case Cancellation(op, gen) => CancelSucceeds(u, op, gen, sha);
      case _ =>
    }
  }

  lemma SelectionIsDurable(v: World, sha: Bytes -> Digest)
    requires Inv(v, sha) && v.dev.boot == v.dev.Inactive()
    ensures v.dev.record.Some? && Selected(v.dev.record.value, v.dev.boot) && v.dev.current.state.Valid?
  {
  }

  // ---------------------------------------------------------------- failure

  /** Where a call that reports failure may leave the phase, besides where it was. */
  predicate FallsTo(call: Call, phase: Phase) {
    match call
    case Begin(_) | Chunk(_, _, _) | Finish(_, _) | Activation(_, _) | Cancellation(_, _) => phase.Failed?
    case Stabilizing | Confirmation | Rollback => phase.ValidatingCandidate?
    case RebootRequest(_, _) | SeedRecovery => false
  }

  /** The phase stays, or says what failed, and a failed phase claims no
      validated image. */
  predicate Halted(w: World, call: Call, v: World) {
    && (v.s.phase == w.s.phase || (FallsTo(call, v.s.phase) && (v.s.phase.Failed? ==> !v.s.validated)))
    && (call.RebootRequest? ==> v.s == w.s)
    && (call.SeedRecovery? || call.Rollback? ==> v.s.intent == w.s.intent && v.s.activated == w.s.activated)
  }

  lemma LockedFails(w: World, abortWriter: bool)
    ensures FailLocked(w, abortWriter).s == w.s.(phase := Failed, validated := false)
  {
    hide Save; hide CloseWriter;
  }

  lemma BeginFails(w: World, request: UploadRequest)
    ensures var (v, ok) := BeginUpload(w, request); !ok ==> Halted(w, Begin(request), v)
  {
    hide RefreshPlatform; hide ReserveGeneration; hide OpenUpload;
    var w1 := RefreshPlatform(w).0;
    var (w2, generation) := ReserveGeneration(w1, w1.s.generation);
    if generation.Some? { OpenFails(w2, request, generation.value); }
  }

  lemma OpenFails(w: World, request: UploadRequest, generation: nat)
    ensures var (v, ok) := OpenUpload(w, request, generation); !ok ==> v.s.phase.Failed? && !v.s.validated
  {
    hide ShaBegin; hide BeginWrite; hide Save; hide FailLocked;
    var w1 := ShaBegin(w.(s := Erased(w, request, generation).s, nextProgress := PROGRESS_INTERVAL_BYTES)).0;
    LockedFails(w1, false);
    var w2 := BeginWrite(w1, w1.s.target, w1.s.imageSize).0;
    LockedFails(w2, false);
    LockedFails(Save(w2.(writerOpen := true)).0, true);
  }

  lemma ChunkFails(w: World, op: nat, gen: nat, bytes: Bytes)
    ensures var (v, ok) := WriteChunk(w, op, gen, bytes); !ok ==> Halted(w, Chunk(op, gen, bytes), v)
  {
    hide Write; hide ShaUpdate; hide Save; hide FailLocked; hide Untouched;
    LockedFails(w, true);
    var w1 := Write(w, bytes).0;
    LockedFails(w1, true);
    var w2 := ShaUpdate(w1, bytes).0;
    LockedFails(w2, true);
    LockedFails(Save(w2.(s := w2.s.(bytesReceived := w2.s.bytesReceived + |bytes|, phase := Writing))).0, true);
  }

  lemma FinishFails(w: World, op: nat, gen: nat, sha: Bytes -> Digest)
    ensures var (v, ok) := FinishUpload(w, op, gen, sha); !ok ==> Halted(w, Finish(op, gen), v)
  {
    hide Save; hide ShaFinish; hide StageImage; hide FailLocked; hide Untouched;
    LockedFails(w, true);
    var w1 := Save(w.(s := w.s.(phase := Validating))).0;
    LockedFails(w1, true);
    var (w2, digest) := ShaFinish(w1, sha);
    LockedFails(w2, true);
    if digest.Some? {
      var w3 := w2.(s := w2.s.(calculatedSha := digest.value, calculatedAvailable := true));
      LockedFails(w3, true);
      StagingFails(w3);
    }
  }

  lemma StagingFails(w: World)
    ensures var (v, ok) := StageImage(w); !ok ==> v.s.phase.Failed? && !v.s.validated
  {
    hide CloseWriter; hide ValidateStaged; hide Save; hide FailLocked; hide Untouched;
    var w2 := ShaAbort(CloseWriter(w).0.(writerOpen := false));
    LockedFails(w2, false);
    var w3 := ValidateStaged(w2, w2.s.target).0;
    LockedFails(w3, false);
    LockedFails(Save(w3.(s := w3.s.(validated := true, phase := ReadyToReboot))).0, false);
  }

  lemma ActivationFails(w: World, op: nat, gen: nat)
    ensures var (v, ok) := Activate(w, op, gen); !ok ==> Halted(w, Activation(op, gen), v)
  {
    hide RefreshPlatform; hide RecoverRollbackSeed; hide Save; hide FailLocked; hide SelectTarget;
    var w1 := RefreshPlatform(w).0;
    RecoveryFails(w1);
    if RecoveryRequired(w1.s) { RecoverFrame(w1); }
    var w2 := if RecoveryRequired(w1.s) then RecoverRollbackSeed(w1).0 else w1;
    LockedFails(w2, false);
    var w3 := Save(w2.(s := w2.s.(intent := true))).0;
    if w3.s.target.Some? { SelectionFails(w3, w3.s.target.value); }
  }

  lemma SelectionFails(w: World, target: Slot)
    ensures var (v, ok) := SelectTarget(w, target); !ok ==> v.s.phase == w.s.phase
  {
    hide PlatformActivate; hide RefreshPlatform; hide Save;
    PlatformStays(w, target);
  }

  lemma PlatformStays(w: World, target: Slot)
    ensures PlatformActivate(w, target).0.s == w.s
  {
    hide SelectInactive; hide SeedRunning;
    SeedStays(w);
  }

  lemma RecoveryFails(w: World)
    ensures var (v, ok) := RecoverRollbackSeed(w); !ok ==> Halted(w, SeedRecovery, v)
  {
    hide ConfirmRunning; hide Save; hide ClearIntent;
    if w.s.runningState.Valid? {
      ClearingFails(w);
    } else {
      ClearingFails(ConfirmRunning(w).0.(s := ConfirmRunning(w).0.s.(runningState := Valid)));
    }
  }

  lemma ClearingFails(w: World)
    ensures var (v, ok) := ClearIntent(w); !ok && w.s.intent ==> v.s == w.s
  {
    hide Save;
  }

  lemma CancellationFails(w: World, op: nat, gen: nat)
    ensures var (v, ok) := Cancel(w, op, gen); !ok ==> Halted(w, Cancellation(op, gen), v)
  {
    hide CloseWriter; hide Save; hide FailLocked; hide Untouched;
    var w2 := ShaAbort((if w.writerOpen then CloseWriter(w).0 else w).(writerOpen := false));
    LockedFails(w2, false);
    LockedFails(Save(w2.(s := ClearOperation(w2.s))).0, false);
  }

  lemma ConfirmationFails(w: World)
    ensures var (v, ok) := ConfirmCandidate(w);
            !ok ==> Halted(w, Confirmation, v) && v.dev.running == w.dev.running
  {
    hide RefreshPlatform; hide ConfirmRunning; hide Save; hide Elapsed32;
    var w1 := RefreshPlatform(w).0;
    assert w1.s.phase == w.s.phase && w1.dev.running == w.dev.running;
    var w2 := ConfirmRunning(w1.(s := w1.s.(target := w.s.target))).0;
    assert w2.s.phase == w.s.phase && w2.dev.running == w.dev.running;
    SaveStays(w2.(s := w2.s.(phase := ValidatingCandidate)));
    hide Untouched;
  }

  lemma SaveStays(w: World)
    ensures Save(w).0.s == w.s && Save(w).0.dev.running == w.dev.running
  {
    hide Save;
  }

  lemma RollbackFails(w: World)
    ensures var (v, ok) := RollbackCandidate(w);
            !ok ==> Halted(w, Rollback, v) && v.dev.running == w.dev.running
  {
    hide RefreshPlatform; hide RollbackTarget;
    var w1 := RefreshPlatform(w).0;
    TargetFails(if w1.s.target.Some? then w1 else w1.(s := w1.s.(target := w1.s.running)));
  }

  lemma TargetFails(w: World)
    ensures var (v, ok) := RollbackTarget(w);
            !ok ==> && v.s.phase.ValidatingCandidate? && v.s.validated == w.s.validated && v.s.intent == w.s.intent
                    && v.s.activated == w.s.activated && v.dev.running == w.dev.running
  {
    SaveStays(w.(s := w.s.(phase := ValidatingCandidate)));
    SaveStays(w.(s := w.s.(phase := RollbackPending)));
    hide PerformRollback; hide Save; hide Untouched;
    FallingFails(Save(w.(s := w.s.(phase := RollbackPending))).0);
  }

  lemma FallingFails(w: World)
    ensures var (v, ok) := PerformRollback(w);
            !ok ==> v.s == w.s.(phase := ValidatingCandidate) && v.dev.running == w.dev.running
  {
    hide RollbackAndReboot; hide Save;
  }

  /** In every state and whatever is answered: a call that reports failure has
      neither moved on nor changed what runs. */
  lemma FailureMeans(w: World, call: Call, sha: Bytes -> Digest)
    ensures var (v, ok) := Perform(w, call, sha);
            !ok ==> Halted(w, call, v) && v.dev.running == w.dev.running
  {
    hide BeginUpload; hide WriteChunk; hide FinishUpload; hide Activate; hide Cancel;
    hide ConfirmCandidate; hide RollbackCandidate; hide RecoverRollbackSeed; hide Save;
    match call
    case Activation(op, gen) => ActivationFails(w, op, gen); ActivationLeavesSpare(w, op, gen);
    case Confirmation => ConfirmationFails(w);
    case Rollback => RollbackFails(w);
    case SeedRecovery => RecoveryFails(w); RecoverySpares(w);
    case _ =>
      OnlyFourCallsTouchImages(w, call, sha);
      match call
      case Begin(request) => BeginFails(w, request);
      case Chunk(op, gen, bytes) => ChunkFails(w, op, gen, bytes);
      case Finish(op, gen) => FinishFails(w, op, gen, sha);
      case Cancellation(op, gen) => CancellationFails(w, op, gen);
      case _ =>
  }

  // ---------------------------------------------------------------- when nothing fails

  /** The target can be selected now or after its seed record is settled. */
  predicate Installable(w: World) {
    if w.s.activated then w.dev.boot == w.dev.Inactive()
    else
      && w.s.target == Some(w.dev.Inactive())
      && (w.dev.current.state.Valid? || w.dev.current.state.Undefined?
          || (w.dev.current.state.Pending() && w.s.intent))
  }

  /** What a call needs to succeed when every call to the outside does. */
  predicate Due(w: World, call: Call, verdict: Outcome, sha: Bytes -> Digest) {
    var s := w.s;
    match call
    case Begin(request) => Admissible(w, request)
    case Chunk(op, gen, bytes) =>
      Owned(s, op, gen) && s.phase.Uploading() && 0 < |bytes| <= 4096 && s.bytesReceived + |bytes| <= s.imageSize
    case Finish(op, gen) =>
      && Owned(s, op, gen) && s.phase.Uploading() && s.bytesReceived == s.imageSize
      && sha(w.dev.spare.data) == s.expectedSha && w.dev.bootable(w.dev.spare.data) && Passes(verdict, s.imageSize)
    case Activation(op, gen) => Owned(s, op, gen) && s.phase.ReadyToReboot? && Installable(w)
    case RebootRequest(op, gen) => Owned(s, op, gen) && s.phase.ReadyToReboot? && s.activated
    case Cancellation(op, gen) =>
      Owned(s, op, gen) && (s.phase.Uploading() || (s.phase.ReadyToReboot? && !s.activated && !s.intent))
    case Stabilizing => s.phase.Candidate()
    case Confirmation =>
      && s.phase.Candidate() && s.validated && Elapsed32(w.dev.NowMs(), s.candidateStartedMs) >= 30000
      && (w.dev.current.state.Valid? || w.dev.current.state.Pending())
    case Rollback => s.phase.Candidate() && w.dev.spare.state.Valid?
    case SeedRecovery => RecoveryRequired(s) && (w.dev.current.state.Valid? || w.dev.current.state.Pending())
  }

  lemma BeginWorks(w: World, request: UploadRequest, sha: Bytes -> Digest)
    requires Inv(w, sha) && w.dev.powered && Answering(w.env)
    ensures BeginUpload(w, request).1 <==> Admissible(w, request)
  {
    hide OpenUpload; hide Writable;
    if request.operationId != 0 && w.s.phase.AcceptsUpload() {
      var (w1, refreshed) := RefreshPlatform(w);
      AnswerIsOk(w);
      AnswerIsOk(w1);
      var (w2, generation) := ReserveGeneration(w1, w1.s.generation);
      if generation.Some? && 0 < request.expectedLength <= w2.dev.slotSize {
        OpenWorks(w2, request, generation.value);
      }
    }
  }

  lemma OpenWorks(w: World, request: UploadRequest, generation: nat)
    requires w.dev.powered && Answering(w.env) && w.dev.hasher.None? && !w.dev.writer
    requires w.s.inactive == Some(w.dev.Inactive()) && 0 < request.expectedLength <= w.dev.slotSize
    ensures OpenUpload(w, request, generation).1
  {
    hide FailLocked;
  }

  lemma ChunkWorks(w: World, op: nat, gen: nat, bytes: Bytes, sha: Bytes -> Digest)
    requires Inv(w, sha) && w.dev.powered && Answering(w.env)
    ensures WriteChunk(w, op, gen, bytes).1 <==> Due(w, Chunk(op, gen, bytes), Done, sha)
  {
    hide FailLocked; hide Writable; hide Claims;
  }

  lemma FinishWorks(w: World, op: nat, gen: nat, sha: Bytes -> Digest)
    requires Inv(w, sha) && w.dev.powered && Answering(w.env) && w.next == 0
    ensures FinishUpload(w, op, gen, sha).1 <==> Due(w, Finish(op, gen), Answer(w.env, 3), sha)
  {
    hide FailLocked; hide StageImage; hide Writable; hide Claims;
    if Owned(w.s, op, gen) && w.s.phase.Uploading() && w.s.bytesReceived == w.s.imageSize {
      var w1 := Save(w.(s := w.s.(phase := Validating))).0;
      var (w2, digest) := ShaFinish(w1, sha);
      StageWorks(w2.(s := w2.s.(calculatedSha := digest.value, calculatedAvailable := true)));
    }
  }

  lemma StageWorks(w: World)
    requires w.next == 2 && w.dev.powered && Answering(w.env) && |w.dev.spare.data| == w.s.imageSize
    requires w.s.target == Some(w.dev.Inactive())
    ensures StageImage(w).1 <==> w.dev.bootable(w.dev.spare.data) && Passes(Answer(w.env, 3), w.s.imageSize)
  {
    hide FailLocked;
  }

  lemma ActivateWorks(w: World, op: nat, gen: nat, sha: Bytes -> Digest)
    requires Inv(w, sha) && w.dev.powered && Answering(w.env)
    ensures Activate(w, op, gen).1 <==> Due(w, Activation(op, gen), Done, sha)
    ensures Activate(w, op, gen).1 ==> Activate(w, op, gen).0.dev.powered
  {
    hide RecoverRollbackSeed; hide Save; hide SelectTarget; hide FailLocked;
    if Owned(w.s, op, gen) && w.s.phase.ReadyToReboot? {
      AnswerIsOk(w);
      var w1 := RefreshPlatform(w).0;
      var w2 := if RecoveryRequired(w1.s) then RecoverRollbackSeed(w1).0 else w1;
      if RecoveryRequired(w1.s) {
        RecoveryWorks(w1);
        RecoverFrame(w1);
      }
      var w3 := w2.(s := w2.s.(intent := true));
      Answers(w3);
      if !w2.s.activated && w2.s.target == Some(w.dev.Inactive()) { SelectionWorks(Save(w3).0); }
    }
  }

  lemma RecoveryWorks(w: World)
    requires w.dev.powered && Answering(w.env) && RecoveryRequired(w.s)
    requires w.s.runningState.Valid? ==> w.dev.current.state.Valid?
    ensures var (v, ok) := RecoverRollbackSeed(w);
            && (ok <==> w.dev.current.state.Valid? || w.dev.current.state.Pending())
            && v.env == w.env && v.dev.spare == w.dev.spare && v.dev.bootable == w.dev.bootable
  {
    hide Save; hide ConfirmRunning;
    Answers(w);
    Answers(w.(s := w.s.(intent := false)));
    var w1 := ConfirmRunning(w).0.(s := w.s.(runningState := Valid, intent := false));
    if w1.dev.powered { Answers(w1); }
  }

  lemma SelectionWorks(w: World)
    requires w.dev.powered && Answering(w.env) && w.dev.bootable(w.dev.spare.data)
    requires w.dev.boot == w.dev.running || w.dev.current.state.Valid?
    ensures SelectTarget(w, w.dev.Inactive()).1 <==> w.dev.current.state.Valid? || w.dev.current.state.Undefined?
    ensures SelectTarget(w, w.dev.Inactive()).0.dev.powered
  {
    hide Save; hide PlatformActivate; hide RefreshPlatform;
    PlatformWorks(w);
    var (w1, selected) := PlatformActivate(w, w.dev.Inactive());
    Answers(w1);
    var (w2, refreshed) := RefreshPlatform(w1);
    Answers(w2.(s := w2.s.(intent := true, activated := true)));
    Answers(w2.(s := w2.s.(intent := true, activated := false)));
    Answers(w2.(s := w2.s.(intent := false, activated := false)));
    Answers(w1.(s := w1.s.(boot := Some(w.dev.Inactive()), activated := true, phase := ReadyToReboot)));
  }

  lemma PlatformWorks(w: World)
    requires w.dev.powered && Answering(w.env) && w.dev.bootable(w.dev.spare.data)
    requires w.dev.boot == w.dev.running || w.dev.current.state.Valid?
    ensures var (v, ok) := PlatformActivate(w, w.dev.Inactive());
            && (ok <==> w.dev.current.state.Valid? || w.dev.current.state.Undefined?)
            && v.dev.powered && v.env == w.env && v.dev.running == w.dev.running
            && (!ok ==> v.dev.boot == v.dev.running)
  {
  }

  lemma CandidateWorks(w: World, call: Call, sha: Bytes -> Digest)
    requires Inv(w, sha) && w.dev.powered && Answering(w.env)
    requires call.Stabilizing? || call.Confirmation? || call.Rollback?
    ensures Perform(w, call, sha).1 <==> Due(w, call, Done, sha)
  {
    hide Save; hide ConfirmRunning; hide Claims;
    AnswerIsOk(w);
    Answers(w.(s := w.s.(phase := ValidatingCandidate)));
    var w1 := RefreshPlatform(w).0;
    Answers(w1);
    Answers(w1.(s := w1.s.(phase := RollbackPending)));
  }

  lemma CancelWorks(w: World, op: nat, gen: nat, sha: Bytes -> Digest)
    requires Inv(w, sha) && w.dev.powered && Answering(w.env)
    ensures Cancel(w, op, gen).1 <==> Due(w, Cancellation(op, gen), Done, sha)
  {
    hide FailLocked; hide Writable;
  }

  /** When every call to the outside succeeds, a call of the manager succeeds if
      and only if it is due. */
  lemma WorkingCallSucceeds(w: World, call: Call, env: seq<Outcome>, sha: Bytes -> Digest)
    requires Inv(w, sha) && w.dev.powered && Answering(env)
    ensures Perform(w.(env := env, next := 0), call, sha).1 <==> Due(w, call, Answer(env, 3), sha)
  {
    hide BeginUpload; hide WriteChunk; hide FinishUpload; hide Activate; hide Cancel; hide Stabilize;
    hide ConfirmCandidate; hide RollbackCandidate; hide RecoverRollbackSeed; hide Inv; hide FailLocked;
    var u := w.(env := env, next := 0);
    EnvIrrelevant(w, env, sha);
    match call
    case Begin(request) => BeginWorks(u, request, sha);
    case Chunk(op, gen, bytes) => ChunkWorks(u, op, gen, bytes, sha);
    case Finish(op, gen) => FinishWorks(u, op, gen, sha);
    case Activation(op, gen) => ActivateWorks(u, op, gen, sha);
    case RebootRequest(op, gen) => Answers(u.(s := u.s.(phase := RebootPending)));
    case Cancellation(op, gen) => CancelWorks(u, op, gen, sha);
    case SeedRecovery => SeedWorks(u, sha);
    case _ => CandidateWorks(u, call, sha);
  }

  lemma SeedWorks(w: World, sha: Bytes -> Digest)
    requires Inv(w, sha) && w.dev.powered && Answering(w.env)
    ensures RecoverRollbackSeed(w).1 <==> Due(w, SeedRecovery, Done, sha)
  {
    if RecoveryRequired(w.s) { RecoveryWorks(w); }
  }

  /** A confirmation that the bootloader refuses fails, keeps the candidate
      waiting and its image as it was. */
  lemma ConfirmationRefused(w: World, env: seq<Outcome>, sha: Bytes -> Digest)
    requires Inv(w, sha) && w.dev.powered && Due(w, Confirmation, Done, sha) && w.dev.current.state.Pending()
    requires Answer(env, 0).Ok() && Answer(env, 1).Refused?
    ensures var (v, ok) := ConfirmCandidate(w.(env := env, next := 0));
            !ok && v.s.phase.ValidatingCandidate? && v.dev.current == w.dev.current
  {
    hide Save;
  }
}
