/**
 The update manager's operations as functions of the world they are called in.
 Each result is the world after the call and whether the call reported success.
*/
module OtaSteps {
  import opened Prelude
  import opened OtaModel

  datatype UploadRequest = UploadRequest(
    operationId: nat, expectedGeneration: nat, expectedLength: nat, expectedSha: Digest)

  function FailLocked(w: World, abortWriter: bool): World {
    var w1 := if abortWriter && w.writerOpen then CloseWriter(w).0.(writerOpen := false) else w;
    var w2 := ShaAbort(w1);
    Save(w2.(s := w2.s.(phase := Failed, validated := false))).0
  }

  predicate Owned(s: Snapshot, operationId: nat, generation: nat) {
    operationId != 0 && generation != 0 && operationId == s.operationId && generation == s.generation
  }

  // ---------------------------------------------------------------- boot

  /** The rollback seed: a validated image with recorded intent, while the boot
      selection still names the running slot. */
  predicate RecoveryRequired(s: Snapshot) {
    && s.phase.ReadyToReboot? && s.generation != 0 && s.operationId != 0
    && s.validated && s.calculatedAvailable && s.expectedSha == s.calculatedSha
    && s.imageSize != 0 && s.bytesReceived == s.imageSize
    && s.intent && !s.activated
    && (s.runningState.Pending() || s.runningState.Valid?)
    && SamePartition(s.boot, s.running) && SamePartition(s.inactive, s.target)
    && !SamePartition(s.running, s.target)
  }

  function RecoverRollbackSeed(w: World): (World, bool) {
    if !RecoveryRequired(w.s) then (w, false)
    else if w.s.runningState.Valid? then ClearIntent(w)
    else
      var (w1, confirmed) := ConfirmRunning(w);
      if !confirmed then (Save(w1).0, false)
      else ClearIntent(w1.(s := w1.s.(runningState := Valid)))
  }

  function ClearIntent(w: World): (World, bool) {
    var (w1, saved) := Save(w.(s := w.s.(intent := false)));
    if saved then (w1, true) else (w1.(s := w1.s.(intent := true)), false)
  }

  /** A pending image without consistent evidence is never kept: record the
      rollback when the store allows it, and attempt it in any case. */
  function RollbackUnreconciled(w: World): World {
    AttemptUnrecordedRollback(SaveIfNumbered(NumberRollback(
      w.(s := w.s.(target := w.s.running, phase := RollbackPending, validated := false,
                   intent := true, activated := true, candidateStartedMs := w.dev.NowMs())))))
  }

  function NumberRollback(w: World): World {
    if w.s.generation != 0 then w
    else
      var (v, g) := ReserveGeneration(w, 0);
      if g.Some? then v.(s := v.s.(generation := g.value)) else v
  }

  function AttemptUnrecordedRollback(w: World): World {
    var (w1, rolledBack) := RollbackAndReboot(w);
    SaveIfNumbered(if rolledBack then w1.(s := w1.s.(phase := RolledBack, activated := false))
                   else w1.(s := w1.s.(phase := CandidateBoot)))
  }

  function SaveIfNumbered(w: World): World {
    if w.s.generation != 0 then Save(w).0 else w
  }

  function InitializeFromBoot(w: World): (World, bool) {
    var (w1, refreshed) := RefreshPlatform(w.(writerOpen := false, s := BLANK));
    if !refreshed then (w1.(s := w1.s.(phase := Failed)), false)
    else
      var (w2, loaded) := Load(w1);
      if loaded.None? then
        if w2.s.runningState.Pending() then (RollbackUnreconciled(w2), false)
        else (w2.(s := w2.s.(phase := Failed)), false)
      else if loaded.value.None? then Reconcile(w2, false)
      else Reconcile(w2.(s := ApplyRecord(w2.s, loaded.value.value)), true)
  }

  function Reconcile(w: World, hasRecord: bool): (World, bool) {
    if RecoveryRequired(w.s) then RecoverRollbackSeed(w)
    else if w.s.runningState.Pending() then ReconcilePending(w, hasRecord)
    else ReconcileSettled(w, hasRecord)
  }

  /** Running and selecting the target proves an activation whose last save was cut. */
  predicate ActivationProven(s: Snapshot, hasRecord: bool) {
    hasRecord && s.intent && SamePartition(s.running, s.target)
    && (s.activated || SamePartition(s.boot, s.target))
  }

  predicate CandidateRecord(s: Snapshot, hasRecord: bool) {
    && hasRecord && s.generation != 0 && s.operationId != 0
    && (s.phase.ReadyToReboot? || s.phase.RebootPending? || s.phase.Candidate())
    && s.validated && ActivationProven(s, hasRecord)
  }

  function ReconcilePending(w: World, hasRecord: bool): (World, bool) {
    if !CandidateRecord(w.s, hasRecord) then
      (RollbackUnreconciled(w), false)
    else
      var (w1, saved) := Save(w.(s := w.s.(phase := CandidateBoot, intent := true, activated := true,
                                           candidateStartedMs := w.dev.NowMs())));
      if saved then (w1, true) else (RollbackUnreconciled(w1), false)
  }

  function ReconcileSettled(w: World, hasRecord: bool): (World, bool) {
    if hasRecord && w.s.phase.ReadyToActivate? then
      var (w1, saved) := Save(w.(s := w.s.(phase := ReadyToReboot, intent := false, activated := false)));
      if saved then ReconcileEnded(w1, hasRecord) else (w1, false)
    else ReconcileEnded(w, hasRecord)
  }

  function ReconcileEnded(w: World, hasRecord: bool): (World, bool) {
    var s := w.s;
    if hasRecord && (s.phase.Uploading() || s.phase.Validating?) then (FailLocked(w, false), false)
    else if hasRecord && SamePartition(s.lastInvalid, s.target) && !SamePartition(s.running, s.target) then
      Save(w.(s := s.(phase := RolledBack, activated := false, rollbackAvailable := false)))
    else if hasRecord && NoWayForward(s) then
      (FailLocked(w.(s := s.(intent := false, activated := false)), false), false)
    else (w.(s := Settle(s, hasRecord)), true)
  }

  predicate TargetSelected(s: Snapshot) {
    s.target.Some? && s.intent && !SamePartition(s.running, s.target) && SamePartition(s.boot, s.target)
  }

  predicate NoWayForward(s: Snapshot) {
    var runningTarget := SamePartition(s.running, s.target);
    var targetConfirmed := runningTarget && s.runningState.Valid?;
    || (s.phase.RebootPending? && !targetConfirmed)
    || (s.phase.RollbackPending? && !targetConfirmed && !TargetSelected(s))
    || (s.phase.ReadyToReboot? && !TargetSelected(s) && (s.activated || (s.intent && runningTarget)))
    || (s.phase.Candidate() && !runningTarget)
  }

  function Settle(s: Snapshot, hasRecord: bool): Snapshot {
    if hasRecord && TargetSelected(s) then
      s.(phase := if s.phase.RebootPending? then RebootPending else ReadyToReboot, activated := true)
    else if hasRecord && SamePartition(s.running, s.target) && s.runningState.Valid?
            && (s.phase.Candidate() || s.phase.RollbackPending? || s.phase.RebootPending?) then
      s.(phase := Confirmed, activated := true)
    else if !hasRecord then s.(phase := Idle)
    else s
  }

  // ---------------------------------------------------------------- upload

  function BeginUpload(w: World, request: UploadRequest): (World, bool) {
    if request.expectedGeneration != w.s.generation || request.operationId == 0 || !w.s.phase.AcceptsUpload() then
      (w, false)
    else
      var (w1, refreshed) := RefreshPlatform(w);
      if !refreshed || w1.s.runningState.Pending() || request.expectedLength == 0
         || request.expectedLength > MAXIMUM_IMAGE_BYTES || request.expectedLength > w1.dev.slotSize then (w1, false)
      else
        var (w2, generation) := ReserveGeneration(w1, w1.s.generation);
        if generation.None? || generation.value <= w2.s.generation then (w2, false)
        else OpenUpload(w2, request, generation.value)
  }

  function OpenUpload(w: World, request: UploadRequest, generation: nat): (World, bool) {
    var s := BLANK.(generation := generation, operationId := request.operationId, phase := UploadReceiving,
                    running := w.s.running, boot := w.s.boot, inactive := w.s.inactive, target := w.s.inactive,
                    imageSize := request.expectedLength, expectedSha := request.expectedSha,
                    rollbackAvailable := w.s.rollbackAvailable, runningState := w.s.runningState,
                    lastInvalid := w.s.lastInvalid);
    var (w1, hashing) := ShaBegin(w.(s := s, nextProgress := PROGRESS_INTERVAL_BYTES));
    if !hashing then (FailLocked(w1, false), false)
    else
      var (w2, erased) := BeginWrite(w1, s.target, s.imageSize);
      if !erased then (FailLocked(w2, false), false)
      else
        var (w3, saved) := Save(w2.(writerOpen := true));
        if saved then (w3, true) else (FailLocked(w3, true), false)
  }

  function WriteChunk(w: World, operationId: nat, generation: nat, chunk: Bytes): (World, bool) {
    if !Owned(w.s, operationId, generation) || !w.s.phase.Uploading() || !w.writerOpen then (w, false)
    else if chunk == [] || |chunk| > MAXIMUM_CHUNK_BYTES || |chunk| > w.s.imageSize - w.s.bytesReceived then
      (FailLocked(w, true), false)
    else
      var (w1, written) := Write(w, chunk);
      if !written then (FailLocked(w1, true), false) else HashChunk(w1, chunk)
  }

  function HashChunk(w: World, chunk: Bytes): (World, bool) {
    var (w1, hashed) := ShaUpdate(w, chunk);
    if !hashed then (FailLocked(w1, true), false)
    else RecordProgress(w1.(s := w1.s.(bytesReceived := w1.s.bytesReceived + |chunk|, phase := Writing)))
  }

  function NextMilestone(received: nat): nat {
    (received / PROGRESS_INTERVAL_BYTES + 1) * PROGRESS_INTERVAL_BYTES
  }

  function RecordProgress(w: World): (World, bool) {
    if w.s.bytesReceived >= w.nextProgress || w.s.bytesReceived == w.s.imageSize then
      var (w1, saved) := Save(w);
      if saved then (w1.(nextProgress := NextMilestone(w1.s.bytesReceived)), true) else (FailLocked(w1, true), false)
    else (w, true)
  }

  function FinishUpload(w: World, operationId: nat, generation: nat, sha: Bytes -> Digest): (World, bool) {
    if !Owned(w.s, operationId, generation) || !w.s.phase.Uploading() || !w.writerOpen then (w, false)
    else if w.s.bytesReceived != w.s.imageSize then (FailLocked(w, true), false)
    else
      var (w1, saved) := Save(w.(s := w.s.(phase := Validating)));
      if !saved then (FailLocked(w1, true), false) else CheckDigest(w1, sha)
  }

  function CheckDigest(w: World, sha: Bytes -> Digest): (World, bool) {
    var (w1, digest) := ShaFinish(w, sha);
    if digest.None? then (FailLocked(w1, true), false)
    else
      var w2 := w1.(s := w1.s.(calculatedSha := digest.value, calculatedAvailable := true));
      if w2.s.expectedSha != w2.s.calculatedSha then (FailLocked(w2, true), false) else StageImage(w2)
  }

  function StageImage(w: World): (World, bool) {
    var (w1, finished) := CloseWriter(w);
    var w2 := ShaAbort(w1.(writerOpen := false));
    if !finished then (FailLocked(w2, false), false)
    else
      var (w3, verdict) := ValidateStaged(w2, w2.s.target);
      if verdict.None? || !verdict.value.structureValid || !verdict.value.targetCompatible
         || !verdict.value.projectCompatible || verdict.value.imageSize != w3.s.imageSize then
        (FailLocked(w3, false), false)
      else
        var (w4, saved) := Save(w3.(s := w3.s.(validated := true, phase := ReadyToReboot)));
        if saved then (w4, true) else (FailLocked(w4, false), false)
  }

  function Cancel(w: World, operationId: nat, generation: nat): (World, bool) {
    var staged := w.s.phase.ReadyToReboot? && !w.s.activated && !w.s.intent;
    if !Owned(w.s, operationId, generation) || (!w.s.phase.Uploading() && !staged) then (w, false)
    else
      var (w1, aborted) := if w.writerOpen then CloseWriter(w) else (w, true);
      var w2 := ShaAbort(w1.(writerOpen := false));
      if !aborted then (FailLocked(w2, false), false)
      else
        var (w3, saved) := Save(w2.(s := ClearOperation(w2.s)));
        if saved then (w3, true) else (FailLocked(w3, false), false)
  }

  function ClearOperation(s: Snapshot): Snapshot {
    BLANK.(generation := s.generation, running := s.running, boot := s.boot, inactive := s.inactive,
           runningState := s.runningState, lastInvalid := s.lastInvalid, rollbackAvailable := s.rollbackAvailable)
  }

  // ---------------------------------------------------------------- activation

  function Activate(w: World, operationId: nat, generation: nat): (World, bool) {
    if !Owned(w.s, operationId, generation) || !w.s.phase.ReadyToReboot? || !w.s.validated || w.s.target.None? then
      (w, false)
    else
      var (w1, refreshed) := RefreshPlatform(w);
      if !refreshed then (w1, false)
      else
        var (w2, recovered) := if RecoveryRequired(w1.s) then RecoverRollbackSeed(w1) else (w1, true);
        if !recovered then (w2, false)
        else if w2.s.activated then
          (w2, w2.s.intent && SamePartition(w2.s.boot, w2.s.target) && !SamePartition(w2.s.running, w2.s.target))
        else if SamePartition(w2.s.running, w2.s.target) || !SamePartition(w2.s.inactive, w2.s.target) then
          (FailLocked(w2, false), false)
        else
          var (w3, intentSaved) := Save(w2.(s := w2.s.(intent := true)));
          if !intentSaved then (w3.(s := w3.s.(intent := false)), false)
          else SelectTarget(w3, w3.s.target.value)
  }

  function SelectTarget(w: World, target: Slot): (World, bool)
  {
    var (w1, selected) := PlatformActivate(w, target);
    if selected then
      (Save(w1.(s := w1.s.(boot := Some(target), activated := true, phase := ReadyToReboot))).0, true)
    else
      var (w2, refreshed) := RefreshPlatform(w1);
      if refreshed && w2.s.boot == Some(target) && w2.s.running != Some(target) then
        (Save(w2.(s := w2.s.(intent := true, activated := true))).0, true)
      else
        var safe := refreshed && w2.s.runningState.Valid? && SamePartition(w2.s.boot, w2.s.running)
                    && w2.s.inactive == Some(target);
        (Save(w2.(s := w2.s.(intent := !safe, activated := false))).0, false)
  }

  function MarkRebootPending(w: World, operationId: nat, generation: nat): (World, bool) {
    if !Owned(w.s, operationId, generation) || !w.s.phase.ReadyToReboot? || !w.s.activated then (w, false)
    else
      var (w1, saved) := Save(w.(s := w.s.(phase := RebootPending)));
      if saved then (w1, true) else (w1.(s := w1.s.(phase := ReadyToReboot)), false)
  }

  // ---------------------------------------------------------------- candidate

  /** The stabilizing decision of the boot-health check. */
  function Stabilize(w: World): (World, bool) {
    if w.s.phase.CandidateBoot? then Save(w.(s := w.s.(phase := ValidatingCandidate)))
    else (w, w.s.phase.ValidatingCandidate?)
  }

  function ConfirmCandidate(w: World): (World, bool) {
    if !w.s.phase.Candidate() || !w.s.validated || !w.s.intent || !w.s.activated || w.s.target.None?
       || Elapsed32(w.dev.NowMs(), w.s.candidateStartedMs) < CONFIRMATION_WINDOW_MS then (w, false)
    else
      var (w1, refreshed) := RefreshPlatform(w);
      if !refreshed || !SamePartition(w1.s.running, w1.s.target)
         || !(w1.s.runningState.Valid? || w1.s.runningState.Pending()) then (w1, false)
      else if w1.s.runningState.Valid? then
        (Save(w1.(s := w1.s.(phase := Confirmed, rollbackAvailable := true))).0, true)
      else
        var (w2, confirmed) := ConfirmRunning(w1);
        if !confirmed then (Save(w2.(s := w2.s.(phase := ValidatingCandidate))).0, false)
        else (Save(w2.(s := w2.s.(runningState := Valid, phase := Confirmed, rollbackAvailable := true))).0, true)
  }

  function RollbackCandidate(w: World): (World, bool) {
    if !w.s.phase.Candidate() then (w, false)
    else
      var (w1, refreshed) := RefreshPlatform(w);
      if !refreshed then (w1, false)
      else
        RollbackTarget(if w1.s.target.Some? then w1 else w1.(s := w1.s.(target := w1.s.running)))
  }

  function RollbackTarget(w: World): (World, bool) {
    if !SamePartition(w.s.running, w.s.target) || !w.s.rollbackAvailable then
      (Save(w.(s := w.s.(phase := ValidatingCandidate))).0, false)
    else PerformRollback(Save(w.(s := w.s.(phase := RollbackPending))).0)
  }

  function PerformRollback(w: World): (World, bool) {
    var (w1, rolledBack) := RollbackAndReboot(w);
    if rolledBack then (Save(w1.(s := w1.s.(phase := RolledBack, activated := false))).0, true)
    else (Save(w1.(s := w1.s.(phase := ValidatingCandidate))).0, false)
  }
}
