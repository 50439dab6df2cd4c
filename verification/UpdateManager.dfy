/**
 The update manager as the firmware keeps it: an object with its snapshot,
 its writer flag and its next progress mark, on a board that holds the slots,
 the record store and the hasher. Each method is proved to do to the whole
 world exactly what its function in `OtaSteps` says.
*/
module UpdateManager {
  import opened Prelude
  import opened OtaModel
  import OtaSteps
  import opened OtaRuns

  /** Platform, record store and hasher, and what becomes of the calls to them. */
  class Board {
    var dev: Device
    var env: seq<Outcome>
    var next: nat

    constructor (dev: Device, env: seq<Outcome>)
      ensures this.dev == dev && this.env == env && next == 0
    {
      this.dev, this.env, this.next := dev, env, 0;
    }

    method Answer() returns (o: Outcome)
      modifies this
      ensures env == old(env) && next == old(next) + 1
      ensures o == if !old(dev).powered then PowerCut else if old(next) < |env| then env[old(next)] else Done
      ensures dev == old(dev).(powered := !o.PowerCut?)
    {
      o := if !dev.powered then PowerCut else if next < |env| then env[next] else Done;
      dev := dev.(powered := !o.PowerCut?);
      next := next + 1;
    }
  }

  class Manager {
    const board: Board
    var s: Snapshot
    var writerOpen: bool
    var nextProgress: nat

    constructor (board: Board)
      ensures this.board == board
      ensures World() == OtaModel.World(BLANK, false, PROGRESS_INTERVAL_BYTES, board.dev, board.env, board.next)
    {
      this.board := board;
      s, writerOpen, nextProgress := BLANK, false, PROGRESS_INTERVAL_BYTES;
    }

    ghost function World(): OtaModel.World
      reads this, board
    {
      OtaModel.World(s, writerOpen, nextProgress, board.dev, board.env, board.next)
    }

    // -------------------------------------------------------------- single calls

    method Persist() returns (ok: bool)
      modifies board
      ensures (World(), ok) == Save(old(World()))
    {
      var o := board.Answer();
      ok := o.Ok();
      if ok { board.dev := board.dev.(record := Some(MakeRecord(s))); }
    }

    method LoadRecord() returns (loaded: Option<Option<Record>>)
      modifies board
      ensures (World(), loaded) == Load(old(World()))
    {
      var o := board.Answer();
      loaded := if o.Ok() then Some(board.dev.record) else None;
    }

    method Reserve(floor: nat) returns (generation: Option<nat>)
      modifies board
      ensures (World(), generation) == ReserveGeneration(old(World()), floor)
    {
      var o := board.Answer();
      var next := (if board.dev.counter < floor then floor else board.dev.counter) + 1;
      generation := None;
      if next <= MAX_U64 && o.Takes() {
        board.dev := board.dev.(counter := next);
        if o.Ok() { generation := Some(next); }
      }
    }

    method Refresh() returns (ok: bool)
      modifies this, board
      ensures (World(), ok) == RefreshPlatform(old(World()))
    {
      var o := board.Answer();
      ok := o.Ok();
      if ok { s := Describe(s, board.dev); }
    }

    method HashBegin() returns (ok: bool)
      modifies board
      ensures (World(), ok) == ShaBegin(old(World()))
    {
      var o := board.Answer();
      ok := board.dev.hasher.None? && o.Ok();
      if ok { board.dev := board.dev.(hasher := Some([])); }
    }

    method HashUpdate(chunk: Bytes) returns (ok: bool)
      modifies board
      ensures (World(), ok) == ShaUpdate(old(World()), chunk)
    {
      var o := board.Answer();
      ok := board.dev.hasher.Some? && o.Ok();
      if ok { board.dev := board.dev.(hasher := Some(board.dev.hasher.value + chunk)); }
    }

    method HashFinish(sha: Bytes -> Digest) returns (digest: Option<Digest>)
      modifies board
      ensures (World(), digest) == ShaFinish(old(World()), sha)
    {
      var o := board.Answer();
      digest := if board.dev.hasher.Some? && o.Ok() then Some(sha(board.dev.hasher.value)) else None;
      board.dev := board.dev.(hasher := None);
    }

    method HashAbort()
      modifies board
      ensures World() == ShaAbort(old(World()))
    {
      board.dev := board.dev.(hasher := None);
    }

    method OpenSlot(target: Option<Slot>, size: nat) returns (ok: bool)
      modifies board
      ensures (World(), ok) == BeginWrite(old(World()), target, size)
    {
      var o := board.Answer();
      var d := board.dev;
      ok := false;
      if !d.writer && target == Some(d.Inactive()) && 0 < size <= d.slotSize && o.Takes() {
        board.dev := d.(spare := d.spare.(data := []), writer := o.Ok());
        ok := o.Ok();
      }
    }

    method WriteSlot(chunk: Bytes) returns (ok: bool)
      modifies board
      ensures (World(), ok) == Write(old(World()), chunk)
    {
      var o := board.Answer();
      var d := board.dev;
      ok := false;
      if d.writer && o.Takes() {
        board.dev := d.(spare := d.spare.(data := d.spare.data + chunk));
        ok := o.Ok();
      }
    }

    method CloseSlot() returns (ok: bool)
      modifies board
      ensures (World(), ok) == CloseWriter(old(World()))
    {
      var o := board.Answer();
      board.dev := board.dev.(writer := false);
      ok := o.Ok();
    }

    method Validate(target: Option<Slot>) returns (verdict: Option<Verdict>)
      modifies board
      ensures (World(), verdict) == ValidateStaged(old(World()), target)
    {
      var o := board.Answer();
      verdict := None;
      if target == Some(board.dev.Inactive()) && board.dev.bootable(board.dev.spare.data) {
        match o
        case Done => verdict := Some(Verdict(true, true, true, |board.dev.spare.data|));
        case Judged(j) => verdict := Some(j);
        case _ =>
      }
    }

    method Select(target: Slot) returns (ok: bool)
      modifies board
      ensures (World(), ok) == PlatformActivate(old(World()), target)
    {
      hide OtaModel.SelectInactive; hide OtaModel.SeedRunning;
      if target != board.dev.Inactive() { return false; }
      if board.dev.current.state.Undefined? {
        ok := SeedCurrent();
        if !ok { return; }
      } else if !board.dev.current.state.Valid? {
        return false;
      }
      ok := SelectOther();
    }

    method SeedCurrent() returns (ok: bool)
      modifies board
      ensures (World(), ok) == OtaModel.SeedRunning(old(World()))
    {
      var o := board.Answer();
      if o.Takes() { board.dev := board.dev.SelectCurrent(); }
      ok := o.Ok();
      if ok {
        o := board.Answer();
        if o.Takes() { board.dev := board.dev.MarkCurrent(Valid); }
        ok := o.Ok();
      }
    }

    method SelectOther() returns (ok: bool)
      modifies board
      ensures (World(), ok) == OtaModel.SelectInactive(old(World()))
    {
      var o := board.Answer();
      ok := false;
      if board.dev.bootable(board.dev.spare.data) {
        if o.Takes() { board.dev := board.dev.SelectSpare(); }
        ok := o.Ok();
      }
    }

    method Confirm() returns (ok: bool)
      modifies board
      ensures (World(), ok) == ConfirmRunning(old(World()))
    {
      if board.dev.current.state.Valid? { return board.dev.powered; }
      if !board.dev.current.state.Pending() { return false; }
      var o := board.Answer();
      if o.Takes() { board.dev := board.dev.MarkCurrent(Valid); }
      ok := o.Ok();
    }

    method RollBack() returns (ok: bool)
      modifies board
      ensures (World(), ok) == RollbackAndReboot(old(World()))
    {
      var o := board.Answer();
      ok := board.dev.spare.state.Valid? && o.Ok();
      if ok { board.dev := board.dev.FallBack(Invalid).(powered := false); }
    }

    // -------------------------------------------------------------- shared endings

    method Fail(abortWriter: bool)
      modifies this, board
      ensures World() == OtaSteps.FailLocked(old(World()), abortWriter)
    {
      hide Save; hide CloseWriter;
      if abortWriter && writerOpen {
        var _ := CloseSlot();
        writerOpen := false;
      }
      HashAbort();
      s := s.(phase := Failed, validated := false);
      var _ := Persist();
    }

    method PersistIfNumbered()
      modifies board
      ensures World() == OtaSteps.SaveIfNumbered(old(World()))
    {
      hide Save;
      if s.generation != 0 { var _ := Persist(); }
    }

    method ForgetIntent() returns (ok: bool)
      modifies this, board
      ensures (World(), ok) == OtaSteps.ClearIntent(old(World()))
    {
      hide Save;
      s := s.(intent := false);
      ok := Persist();
      if !ok { s := s.(intent := true); }
    }

    method RecoverSeed() returns (ok: bool)
      modifies this, board
      ensures (World(), ok) == OtaSteps.RecoverRollbackSeed(old(World()))
    {
      hide Save; hide ConfirmRunning; hide OtaSteps.ClearIntent; hide OtaSteps.RecoveryRequired;
      if !OtaSteps.RecoveryRequired(s) { return false; }
      if !s.runningState.Valid? {
        ok := Confirm();
        if !ok {
          var _ := Persist();
          return false;
        }
        s := s.(runningState := Valid);
      }
      ok := ForgetIntent();
    }

    method RollBackUnreconciled()
      modifies this, board
      ensures World() == OtaSteps.RollbackUnreconciled(old(World()))
    {
      hide Save; hide ReserveGeneration; hide RollbackAndReboot; hide OtaSteps.SaveIfNumbered;
      s := s.(target := s.running, phase := RollbackPending, validated := false,
              intent := true, activated := true, candidateStartedMs := board.dev.NowMs());
      if s.generation == 0 {
        var generation := Reserve(0);
        if generation.Some? { s := s.(generation := generation.value); }
      }
      PersistIfNumbered();
      var rolledBack := RollBack();
      if rolledBack {
        s := s.(phase := RolledBack, activated := false);
      } else {
        s := s.(phase := CandidateBoot);
      }
      PersistIfNumbered();
    }

    // -------------------------------------------------------------- boot

    method InitializeFromBoot() returns (ok: bool)
      modifies this, board
      ensures (World(), ok) == OtaSteps.InitializeFromBoot(old(World()))
    {
      hide Load; hide RefreshPlatform; hide OtaSteps.RollbackUnreconciled; hide OtaSteps.Reconcile;
      writerOpen := false;
      s := BLANK;
      var refreshed := Refresh();
      if !refreshed {
        s := s.(phase := Failed);
        return false;
      }
      var loaded := LoadRecord();
      if loaded.None? {
        if s.runningState.Pending() {
          RollBackUnreconciled();
        } else {
          s := s.(phase := Failed);
        }
        return false;
      }
      if loaded.value.Some? { s := ApplyRecord(s, loaded.value.value); }
      ok := Reconcile(loaded.value.Some?);
    }

    method Reconcile(hasRecord: bool) returns (ok: bool)
      modifies this, board
      ensures (World(), ok) == OtaSteps.Reconcile(old(World()), hasRecord)
    {
      hide Save; hide OtaSteps.RecoverRollbackSeed; hide OtaSteps.RollbackUnreconciled; hide OtaSteps.ReconcileEnded;
      hide OtaSteps.RecoveryRequired; hide OtaSteps.CandidateRecord;
      if OtaSteps.RecoveryRequired(s) {
        ok := RecoverSeed();
        return;
      }
      if s.runningState.Pending() {
        if !OtaSteps.CandidateRecord(s, hasRecord) {
          RollBackUnreconciled();
          return false;
        }
        s := s.(phase := CandidateBoot, intent := true, activated := true, candidateStartedMs := board.dev.NowMs());
        ok := Persist();
        if !ok { RollBackUnreconciled(); }
        return;
      }
      if hasRecord && s.phase.ReadyToActivate? {
        s := s.(phase := ReadyToReboot, intent := false, activated := false);
        ok := Persist();
        if !ok { return; }
      }
      ok := EndRecord(hasRecord);
    }

    method EndRecord(hasRecord: bool) returns (ok: bool)
      modifies this, board
      ensures (World(), ok) == OtaSteps.ReconcileEnded(old(World()), hasRecord)
    {
      hide Save; hide OtaSteps.FailLocked; hide OtaSteps.NoWayForward; hide OtaSteps.Settle;
      if hasRecord && (s.phase.Uploading() || s.phase.Validating?) {
        Fail(false);
        return false;
      }
      if hasRecord && SamePartition(s.lastInvalid, s.target) && !SamePartition(s.running, s.target) {
        s := s.(phase := RolledBack, activated := false, rollbackAvailable := false);
        ok := Persist();
        return;
      }
      if hasRecord && OtaSteps.NoWayForward(s) {
        s := s.(intent := false, activated := false);
        Fail(false);
        return false;
      }
      s := OtaSteps.Settle(s, hasRecord);
      ok := true;
    }

    // -------------------------------------------------------------- upload

    method BeginUpload(request: OtaSteps.UploadRequest) returns (ok: bool)
      modifies this, board
      ensures (World(), ok) == OtaSteps.BeginUpload(old(World()), request)
    {
      hide RefreshPlatform; hide ReserveGeneration; hide OtaSteps.OpenUpload;
      if request.expectedGeneration != s.generation { return false; }
      if request.operationId == 0 { return false; }
      if !s.phase.AcceptsUpload() { return false; }
      ok := Refresh();
      if !ok || s.runningState.Pending() { return false; }
      if request.expectedLength == 0 || request.expectedLength > MAXIMUM_IMAGE_BYTES
         || request.expectedLength > board.dev.slotSize { return false; }
      var generation := Reserve(s.generation);
      if generation.None? || generation.value <= s.generation { return false; }
      ok := OpenUpload(request, generation.value);
    }

    method OpenUpload(request: OtaSteps.UploadRequest, generation: nat) returns (ok: bool)
      modifies this, board
      ensures (World(), ok) == OtaSteps.OpenUpload(old(World()), request, generation)
    {
      hide Save; hide ShaBegin; hide BeginWrite; hide OtaSteps.FailLocked;
      s := BLANK.(generation := generation, operationId := request.operationId, phase := UploadReceiving,
                  running := s.running, boot := s.boot, inactive := s.inactive, target := s.inactive,
                  imageSize := request.expectedLength, expectedSha := request.expectedSha,
                  rollbackAvailable := s.rollbackAvailable, runningState := s.runningState,
                  lastInvalid := s.lastInvalid);
      nextProgress := PROGRESS_INTERVAL_BYTES;
      ok := HashBegin();
      if !ok { Fail(false); return; }
      ok := OpenSlot(s.target, s.imageSize);
      if !ok { Fail(false); return; }
      writerOpen := true;
      ok := Persist();
      if !ok { Fail(true); }
    }

    method WriteChunk(operationId: nat, generation: nat, chunk: Bytes) returns (ok: bool)
      modifies this, board
      ensures (World(), ok) == OtaSteps.WriteChunk(old(World()), operationId, generation, chunk)
    {
      hide Write; hide OtaSteps.HashChunk; hide OtaSteps.FailLocked; hide OtaSteps.Owned;
      if !OtaSteps.Owned(s, operationId, generation) || !s.phase.Uploading() || !writerOpen { return false; }
      if chunk == [] || |chunk| > MAXIMUM_CHUNK_BYTES || |chunk| > s.imageSize - s.bytesReceived {
        Fail(true);
        return false;
      }
      ok := WriteSlot(chunk);
      if !ok { Fail(true); return; }
      ok := HashChunk(chunk);
    }

    method HashChunk(chunk: Bytes) returns (ok: bool)
      modifies this, board
      ensures (World(), ok) == OtaSteps.HashChunk(old(World()), chunk)
    {
      hide Save; hide ShaUpdate; hide OtaSteps.FailLocked;
      ok := HashUpdate(chunk);
      if !ok { Fail(true); return; }
      s := s.(bytesReceived := s.bytesReceived + |chunk|, phase := Writing);
      if s.bytesReceived >= nextProgress || s.bytesReceived == s.imageSize {
        ok := Persist();
        if !ok { Fail(true); return; }
        nextProgress := OtaSteps.NextMilestone(s.bytesReceived);
      }
    }

    method FinishUpload(operationId: nat, generation: nat, sha: Bytes -> Digest) returns (ok: bool)
      modifies this, board
      ensures (World(), ok) == OtaSteps.FinishUpload(old(World()), operationId, generation, sha)
    {
      hide Save; hide OtaSteps.FailLocked; hide OtaSteps.CheckDigest; hide OtaSteps.Owned;
      if !OtaSteps.Owned(s, operationId, generation) || !s.phase.Uploading() || !writerOpen { return false; }
      if s.bytesReceived != s.imageSize { Fail(true); return false; }
      s := s.(phase := Validating);
      ok := Persist();
      if !ok { Fail(true); return; }
      ok := CheckDigest(sha);
    }

    method CheckDigest(sha: Bytes -> Digest) returns (ok: bool)
      modifies this, board
      ensures (World(), ok) == OtaSteps.CheckDigest(old(World()), sha)
    {
      hide ShaFinish; hide OtaSteps.FailLocked; hide OtaSteps.StageImage;
      var digest := HashFinish(sha);
      if digest.None? { Fail(true); return false; }
      s := s.(calculatedSha := digest.value, calculatedAvailable := true);
      if s.expectedSha != s.calculatedSha { Fail(true); return false; }
      ok := Stage();
    }

    method Stage() returns (ok: bool)
      modifies this, board
      ensures (World(), ok) == OtaSteps.StageImage(old(World()))
    {
      hide Save; hide CloseWriter; hide ValidateStaged; hide OtaSteps.FailLocked;
      ok := CloseSlot();
      writerOpen := false;
      HashAbort();
      if !ok { Fail(false); return; }
      var verdict := Validate(s.target);
      if verdict.None? || !verdict.value.structureValid || !verdict.value.targetCompatible
         || !verdict.value.projectCompatible || verdict.value.imageSize != s.imageSize {
        Fail(false);
        return false;
      }
      s := s.(validated := true, phase := ReadyToReboot);
      ok := Persist();
      if !ok { Fail(false); }
    }

    method Cancel(operationId: nat, generation: nat) returns (ok: bool)
      modifies this, board
      ensures (World(), ok) == OtaSteps.Cancel(old(World()), operationId, generation)
    {
      hide Save; hide CloseWriter; hide OtaSteps.FailLocked;
      var staged := s.phase.ReadyToReboot? && !s.activated && !s.intent;
      if !OtaSteps.Owned(s, operationId, generation) || (!s.phase.Uploading() && !staged) { return false; }
      ok := true;
      if writerOpen {
        ok := CloseSlot();
        writerOpen := false;
      }
      HashAbort();
      if !ok { Fail(false); return; }
      s := OtaSteps.ClearOperation(s);
      ok := Persist();
      if !ok { Fail(false); }
    }

    // -------------------------------------------------------------- activation

    method Activate(operationId: nat, generation: nat) returns (ok: bool)
      modifies this, board
      ensures (World(), ok) == OtaSteps.Activate(old(World()), operationId, generation)
    {
      hide Save; hide RefreshPlatform; hide OtaSteps.RecoverRollbackSeed; hide OtaSteps.RecoveryRequired;
      hide OtaSteps.FailLocked; hide OtaSteps.SelectTarget; hide OtaSteps.Owned;
      if !OtaSteps.Owned(s, operationId, generation) || !s.phase.ReadyToReboot? || !s.validated || s.target.None? {
        return false;
      }
      ok := Refresh();
      if !ok { return; }
      if OtaSteps.RecoveryRequired(s) {
        ok := RecoverSeed();
        if !ok { return; }
      }
      if s.activated {
        ok := s.intent && SamePartition(s.boot, s.target) && !SamePartition(s.running, s.target);
        return;
      }
      if SamePartition(s.running, s.target) || !SamePartition(s.inactive, s.target) {
        Fail(false);
        return false;
      }
      s := s.(intent := true);
      ok := Persist();
      if !ok {
        s := s.(intent := false);
        return;
      }
      ok := SelectTarget(s.target.value);
    }

    method SelectTarget(target: Slot) returns (ok: bool)
      modifies this, board
      ensures (World(), ok) == OtaSteps.SelectTarget(old(World()), target)
    {
      hide Save; hide RefreshPlatform; hide PlatformActivate;
      ok := Select(target);
      if ok {
        s := s.(boot := Some(target), activated := true, phase := ReadyToReboot);
      } else {
        var reconciled := Refresh();
        if reconciled && s.boot == Some(target) && s.running != Some(target) {
          s := s.(intent := true, activated := true);
          ok := true;
        } else {
          var safe := reconciled && s.runningState.Valid? && SamePartition(s.boot, s.running)
                      && s.inactive == Some(target);
          s := s.(intent := !safe, activated := false);
        }
      }
      var _ := Persist();
    }

    method MarkRebootPending(operationId: nat, generation: nat) returns (ok: bool)
      modifies this, board
      ensures (World(), ok) == OtaSteps.MarkRebootPending(old(World()), operationId, generation)
    {
      hide Save;
      if !OtaSteps.Owned(s, operationId, generation) || !s.phase.ReadyToReboot? || !s.activated { return false; }
      s := s.(phase := RebootPending);
      ok := Persist();
      if !ok { s := s.(phase := ReadyToReboot); }
    }

    // -------------------------------------------------------------- candidate

    method Stabilize() returns (ok: bool)
      modifies this, board
      ensures (World(), ok) == OtaSteps.Stabilize(old(World()))
    {
      hide Save;
      ok := s.phase.Candidate();
      if s.phase.CandidateBoot? {
        s := s.(phase := ValidatingCandidate);
        ok := Persist();
      }
    }

    method ConfirmCandidate() returns (ok: bool)
      modifies this, board
      ensures (World(), ok) == OtaSteps.ConfirmCandidate(old(World()))
    {
      hide Save; hide RefreshPlatform; hide ConfirmRunning;
      if !s.phase.Candidate() || !s.validated || !s.intent || !s.activated || s.target.None? { return false; }
      if Elapsed32(board.dev.NowMs(), s.candidateStartedMs) < CONFIRMATION_WINDOW_MS { return false; }
      ok := Refresh();
      if !ok { return; }
      if SamePartition(s.running, s.target) && s.runningState.Valid? {
        s := s.(phase := Confirmed, rollbackAvailable := true);
        var _ := Persist();
        return true;
      }
      if !SamePartition(s.running, s.target) || !s.runningState.Pending() { return false; }
      ok := Confirm();
      if !ok {
        s := s.(phase := ValidatingCandidate);
      } else {
        s := s.(runningState := Valid, phase := Confirmed, rollbackAvailable := true);
      }
      var _ := Persist();
    }

    method RollbackCandidate() returns (ok: bool)
      modifies this, board
      ensures (World(), ok) == OtaSteps.RollbackCandidate(old(World()))
    {
      hide RefreshPlatform; hide OtaSteps.RollbackTarget;
      if !s.phase.Candidate() { return false; }
      ok := Refresh();
      if !ok { return; }
      if s.target.None? { s := s.(target := s.running); }
      ok := RollbackTarget();
    }

    method RollbackTarget() returns (ok: bool)
      modifies this, board
      ensures (World(), ok) == OtaSteps.RollbackTarget(old(World()))
    {
      hide Save; hide OtaSteps.PerformRollback;
      if !SamePartition(s.running, s.target) || !s.rollbackAvailable {
        s := s.(phase := ValidatingCandidate);
        var _ := Persist();
        return false;
      }
      s := s.(phase := RollbackPending);
      var _ := Persist();
      ok := PerformRollback();
    }

    method PerformRollback() returns (ok: bool)
      modifies this, board
      ensures (World(), ok) == OtaSteps.PerformRollback(old(World()))
    {
      hide Save; hide RollbackAndReboot;
      ok := RollBack();
      if ok {
        s := s.(phase := RolledBack, activated := false);
      } else {
        s := s.(phase := ValidatingCandidate);
      }
      var _ := Persist();
    }
  }
}
