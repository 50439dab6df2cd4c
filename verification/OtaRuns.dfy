/**
 Whole runs of the station: calls on the manager, waiting, and resets with a
 power cut possible inside any call, the boot included.
*/
module OtaRuns {
  import opened Prelude
  import opened OtaModel
  import opened OtaSteps
  import opened OtaInvariant

  datatype Call =
    | Begin(request: UploadRequest)
    | Chunk(operationId: nat, generation: nat, bytes: Bytes)
    | Finish(operationId: nat, generation: nat)
    | Activation(operationId: nat, generation: nat)
    | RebootRequest(operationId: nat, generation: nat)
    | Cancellation(operationId: nat, generation: nat)
    | Stabilizing
    | Confirmation
    | Rollback
    | SeedRecovery

  datatype Event =
    | Wait(ms: nat)
    | Invoke(call: Call, env: seq<Outcome>)
    | Restart(env: seq<Outcome>)

  function Perform(w: World, call: Call, sha: Bytes -> Digest): (World, bool) {
    match call
    case Begin(request) => BeginUpload(w, request)
    case Chunk(op, gen, bytes) => WriteChunk(w, op, gen, bytes)
    case Finish(op, gen) => FinishUpload(w, op, gen, sha)
    case Activation(op, gen) => Activate(w, op, gen)
    case RebootRequest(op, gen) => MarkRebootPending(w, op, gen)
    case Cancellation(op, gen) => Cancel(w, op, gen)
    case Stabilizing => Stabilize(w)
    case Confirmation => ConfirmCandidate(w)
    case Rollback => RollbackCandidate(w)
    case SeedRecovery => RecoverRollbackSeed(w)
  }

  function PoweredUp(d: Device, env: seq<Outcome>): World {
    World(BLANK, false, PROGRESS_INTERVAL_BYTES, d.Reboot(), env, 0)
  }

  function Step(w: World, e: Event, sha: Bytes -> Digest): World {
    match e
    case Wait(ms) => if w.dev.powered then w.(dev := w.dev.(uptime := w.dev.uptime + ms)) else w
    case Invoke(call, env) => if w.dev.powered then Perform(w.(env := env, next := 0), call, sha).0 else w
    case Restart(env) => InitializeFromBoot(PoweredUp(w.dev, env)).0
  }

  function Run(w: World, events: seq<Event>, sha: Bytes -> Digest): World {
    if events == [] then w else Step(Run(w, events[..|events| - 1], sha), events[|events| - 1], sha)
  }

  /** A station that has never been updated over the air. */
  predicate Factory(w: World) {
    var d := w.dev;
    && d.record.None? && d.boot == d.running && !d.powered
    && !d.current.state.NewImage? && !d.spare.state.Pending()
  }

  // ---------------------------------------------------------------- which calls are safe

  /** The one guard each that `BeginUpload`, `Activate` and `RecoverRollbackSeed`
      lack; a caller can evaluate it before the call. */
  predicate Guarded(w: World, call: Call) {
    match call
    case Begin(request) => !(Admissible(w, request) && StoreClaimsSpare(w.dev))
    case Activation(op, gen) => !(Owned(w.s, op, gen) && w.s.phase.ReadyToReboot? && Unreconciled(w))
    case SeedRecovery => !(RecoveryRequired(w.s) && w.dev.boot == w.dev.Inactive())
    case _ => true
  }

  function Answer(env: seq<Outcome>, i: nat): Outcome { if i < |env| then env[i] else Done }

  /** What has to happen during a call without its guard to do damage: the slot
      is erased and no later save succeeds; the intent to activate cannot be
      saved; the intent is saved as withdrawn. */
  predicate Harms(call: Call, env: seq<Outcome>) {
    match call
    case Begin(_) =>
      Answer(env, 0).Ok() && Answer(env, 1).Ok() && Answer(env, 2).Ok()
      && (if Answer(env, 3).Ok() then
            !Answer(env, 4).Ok() && (Answer(env, 4).PowerCut? || Answer(env, 5).PowerCut? || !Answer(env, 6).Ok())
          else Answer(env, 3).Ambiguous? && !Answer(env, 4).Ok())
    case Activation(_, _) => Answer(env, 0).Ok() && (Answer(env, 1).Refused? || Answer(env, 1).Ambiguous?)
    case SeedRecovery => Answer(env, 0).Ok()
    case _ => false
  }

  predicate SafeCall(w: World, call: Call, env: seq<Outcome>) {
    Guarded(w, call) || !Harms(call, env)
  }

  predicate SafeEvent(w: World, e: Event) {
    e.Invoke? && w.dev.powered ==> SafeCall(w, e.call, e.env)
  }

  predicate SafeRun(w: World, events: seq<Event>, sha: Bytes -> Digest) {
    events != [] ==>
      var before := events[..|events| - 1];
      SafeRun(w, before, sha) && SafeEvent(Run(w, before, sha), events[|events| - 1])
  }

  /** The world after a call that meets `env`. */
  function Ends(w: World, call: Call, env: seq<Outcome>, sha: Bytes -> Digest): World {
    Perform(w.(env := env, next := 0), call, sha).0
  }

  lemma EnvIrrelevant(w: World, env: seq<Outcome>, sha: Bytes -> Digest)
    requires Inv(w, sha)
    ensures Inv(w.(env := env, next := 0), sha)
  {
  }

  lemma GuardedCallKeeps(w: World, call: Call, sha: Bytes -> Digest)
    requires Inv(w, sha) && w.dev.powered && Guarded(w, call)
    ensures Inv(Perform(w, call, sha).0, sha)
  {
    hide Inv; hide BeginUpload; hide WriteChunk; hide FinishUpload; hide Activate; hide MarkRebootPending;
    hide Cancel; hide Stabilize; hide ConfirmCandidate; hide RollbackCandidate; hide RecoverRollbackSeed;
    match call
    case Begin(request) => BeginUploadKeeps(w, request, sha);
    case Chunk(op, gen, bytes) => WriteChunkKeeps(w, op, gen, bytes, sha);
    case Finish(op, gen) => FinishUploadKeeps(w, op, gen, sha);
    case Activation(op, gen) => GuardedActivateKeeps(w, op, gen, sha);
    case RebootRequest(op, gen) => MarkRebootPendingKeeps(w, op, gen, sha);
    case Cancellation(op, gen) => CancelKeeps(w, op, gen, sha);
    case Stabilizing => StabilizeKeeps(w, sha);
    case Confirmation => ConfirmCandidateKeeps(w, sha);
    case Rollback => RollbackCandidateKeeps(w, sha);
    case SeedRecovery => GuardedRecoveryKeeps(w, sha);
  }

  lemma GuardedActivateKeeps(w: World, op: nat, gen: nat, sha: Bytes -> Digest)
    requires Inv(w, sha) && w.dev.powered && Guarded(w, Activation(op, gen))
    ensures Inv(Activate(w, op, gen).0, sha)
  {
    hide Inv;
    if Owned(w.s, op, gen) && w.s.phase.ReadyToReboot? {
      hide Activate;
      ActivateKeeps(w, op, gen, sha);
    }
  }

  lemma GuardedRecoveryKeeps(w: World, sha: Bytes -> Digest)
    requires Inv(w, sha) && w.dev.powered && Guarded(w, SeedRecovery)
    ensures Inv(RecoverRollbackSeed(w).0, sha)
  {
    if RecoveryRequired(w.s) {
      hide RecoverRollbackSeed;
      RecoverKeeps(w, sha);
    }
  }

  // ---------------------------------------------------------------- without the guard

  /** An upload over a slot that the store still claims keeps the invariant
      exactly if it does not end with the slot erased and the claim in place. */
  lemma UploadOverClaim(w: World, request: UploadRequest, generation: nat, sha: Bytes -> Digest)
    requires Durable(w.dev, sha) && Settled(w) && w.s.running.Some? && w.dev.powered && w.next == 2
    requires !w.writerOpen && !w.dev.writer && w.dev.hasher.None? && StoreClaimsSpare(w.dev)
    requires generation != 0 && request.operationId != 0 && 0 < request.expectedLength <= w.dev.slotSize
    requires Answer(w.env, 0).Ok() && Answer(w.env, 1).Ok()
    ensures Inv(OpenUpload(w, request, generation).0, sha) <==> !Harms(Begin(request), w.env)
  {
    hide OpenUpload; hide Register;
    if Harms(Begin(request), w.env) {
      UploadErases(w, request, generation);
      RegisterSaves(Erased(w, request, generation));
      assert Claims(w.dev.record.value, w.dev.Inactive()) && w.dev.record.value.expectedLength != 0;
    } else if !Answer(w.env, 2).Ok() || !Answer(w.env, 3).Takes() {
      NotErased(w, request, generation, sha);
    } else {
      var u := w.(dev := w.dev.(record := None));
      UploadErases(w, request, generation);
      UploadErases(u, request, generation);
      RegisterSaves(Erased(w, request, generation));
      var e := Erased(u, request, generation);
      assert e == Erased(w, request, generation).(dev := e.dev);
      OpenUploadKeeps(u, request, generation, sha);
    }
  }

  /** The upload just after the erase, which reported success or not. */
  function Erased(w: World, request: UploadRequest, generation: nat): World {
    var s := BLANK.(generation := generation, operationId := request.operationId, phase := UploadReceiving,
                    running := w.s.running, boot := w.s.boot, inactive := w.s.inactive, target := w.s.inactive,
                    imageSize := request.expectedLength, expectedSha := request.expectedSha,
                    rollbackAvailable := w.s.rollbackAvailable, runningState := w.s.runningState,
                    lastInvalid := w.s.lastInvalid);
    var ok := Answer(w.env, 3).Ok();
    w.(s := s, writerOpen := ok, nextProgress := PROGRESS_INTERVAL_BYTES, next := 4,
       dev := w.dev.(hasher := Some([]), writer := ok, spare := w.dev.spare.(data := [])))
  }

  /** What is left of an upload request once the slot is erased. */
  function Register(w: World): World {
    if !w.writerOpen then FailLocked(w, false)
    else
      var (v, saved) := Save(w);
      if saved then v else FailLocked(v, true)
  }

  lemma UploadErases(w: World, request: UploadRequest, generation: nat)
    requires w.dev.powered && w.next == 2 && !w.dev.writer && w.dev.hasher.None? && !w.writerOpen
    requires w.s.inactive == Some(w.dev.Inactive()) && 0 < request.expectedLength <= w.dev.slotSize
    requires Answer(w.env, 2).Ok() && Answer(w.env, 3).Takes()
    ensures OpenUpload(w, request, generation).0 == Register(Erased(w, request, generation))
  {
    hide FailLocked; hide Save;
    var w1 := ShaBegin(w.(s := Erased(w, request, generation).s, nextProgress := PROGRESS_INTERVAL_BYTES)).0;
    assert w1.next == 3 && w1.dev == w.dev.(hasher := Some([]));
    assert BeginWrite(w1, w1.s.target, w1.s.imageSize).0.(writerOpen := Answer(w.env, 3).Ok())
        == Erased(w, request, generation);
  }

  /** No answer lets a save succeed after the erase. */
  predicate Unsaved(w: World) {
    if w.writerOpen then
      !Answer(w.env, 4).Ok() && (Answer(w.env, 4).PowerCut? || Answer(w.env, 5).PowerCut? || !Answer(w.env, 6).Ok())
    else !Answer(w.env, 4).Ok()
  }

  /** Either nothing is saved and the claim stays, or what the store claimed
      before does not matter. */
  lemma RegisterSaves(w: World)
    requires w.dev.powered && w.next == 4
    ensures Unsaved(w) ==> Register(w).dev == w.dev.(writer := Register(w).dev.writer, hasher := Register(w).dev.hasher,
                                                     powered := Register(w).dev.powered)
    ensures !Unsaved(w) ==> Register(w) == Register(w.(dev := w.dev.(record := None)))
  {
  }

  lemma NotErased(w: World, request: UploadRequest, generation: nat, sha: Bytes -> Digest)
    requires Durable(w.dev, sha) && Settled(w) && w.dev.powered && w.next == 2 && !w.writerOpen && !w.dev.writer
    requires !Answer(w.env, 2).Ok() || !Answer(w.env, 3).Takes()
    ensures Inv(OpenUpload(w, request, generation).0, sha)
  {
    hide FailLocked; hide Durable; hide Inv;
    var s := BLANK.(generation := generation, operationId := request.operationId, phase := UploadReceiving,
                    running := w.s.running, boot := w.s.boot, inactive := w.s.inactive, target := w.s.inactive,
                    imageSize := request.expectedLength, expectedSha := request.expectedSha,
                    rollbackAvailable := w.s.rollbackAvailable, runningState := w.s.runningState,
                    lastInvalid := w.s.lastInvalid);
    var w1 := ShaBegin(w.(s := s, nextProgress := PROGRESS_INTERVAL_BYTES)).0;
    SameStore(w.dev, w1.dev, sha);
    if Answer(w.env, 2).Ok() && w.dev.hasher.None? {
      var w2 := BeginWrite(w1, s.target, s.imageSize).0;
      SameStore(w.dev, w2.dev, sha);
      FailLockedKeeps(w2, false, sha);
    } else {
      FailLockedKeeps(w1, false, sha);
    }
  }

  lemma SameStore(d: Device, e: Device, sha: Bytes -> Digest)
    requires Durable(d, sha) && e == d.(hasher := e.hasher, powered := e.powered)
    ensures Durable(e, sha)
  {
  }

  /** A retry while a selection nobody saw is in effect. */
  lemma RetryExact(w: World, op: nat, gen: nat, sha: Bytes -> Digest)
    requires Inv(w, sha) && w.dev.powered && !Guarded(w, Activation(op, gen)) && w.next == 0
    ensures Inv(Activate(w, op, gen).0, sha) <==> !Harms(Activation(op, gen), w.env)
  {
    hide RecoverRollbackSeed; hide SelectTarget; hide FailLocked;
    RefreshKeeps(w, sha);
    var (w1, refreshed) := RefreshPlatform(w);
    assert refreshed <==> Answer(w.env, 0).Ok();
    if refreshed {
      assert w1.next == 1 && !RecoveryRequired(w1.s);
      var w2 := w1.(s := w1.s.(intent := true));
      assert w2 == w1;
      var (w3, saved) := Save(w2);
      SaveKeeps(w2, sha);
      if saved { SelectTargetKeeps(w3, sha); }
    }
  }

  /** The recovery trusts a cached boot selection that is no longer true. */
  lemma RecoveryExact(w: World, sha: Bytes -> Digest)
    requires Inv(w, sha) && w.dev.powered && !Guarded(w, SeedRecovery) && w.next == 0
    ensures Inv(RecoverRollbackSeed(w).0, sha) <==> !Harms(SeedRecovery, w.env)
  {
    assert ConfirmRunning(w) == (w, true);
    var w1 := w.(s := w.s.(runningState := Valid));
    assert RecoverRollbackSeed(w) == ClearIntent(w1);
    assert Save(w1.(s := w1.s.(intent := false))).1 <==> Answer(w.env, 0).Ok();
    hide Save; hide RecoverRollbackSeed;
  }

  lemma UploadExact(w: World, request: UploadRequest, sha: Bytes -> Digest)
    requires Inv(w, sha) && w.dev.powered && !Guarded(w, Begin(request)) && w.next == 0
    ensures Inv(BeginUpload(w, request).0, sha) <==> !Harms(Begin(request), w.env)
  {
    hide OpenUpload; hide Writable;
    RefreshKeeps(w, sha);
    var (w1, refreshed) := RefreshPlatform(w);
    assert refreshed <==> Answer(w.env, 0).Ok();
    if refreshed {
      var (w2, generation) := ReserveGeneration(w1, w1.s.generation);
      assert generation.Some? <==> Answer(w.env, 1).Ok();
      assert Inv(w2, sha);
      if generation.Some? { UploadOverClaim(w2, request, generation.value, sha); }
    }
  }

  /** A call keeps the invariant if and only if its guard holds or the
      environment spares it. */
  lemma SafeCallExact(w: World, call: Call, env: seq<Outcome>, sha: Bytes -> Digest)
    requires Inv(w, sha) && w.dev.powered
    ensures Inv(Ends(w, call, env, sha), sha) <==> SafeCall(w, call, env)
  {
    hide Inv; hide BeginUpload; hide WriteChunk; hide FinishUpload; hide Activate; hide MarkRebootPending;
    hide Cancel; hide Stabilize; hide ConfirmCandidate; hide RollbackCandidate; hide RecoverRollbackSeed; hide Harms;
    var u := w.(env := env, next := 0);
    EnvIrrelevant(w, env, sha);
    if Guarded(w, call) {
      GuardedCallKeeps(u, call, sha);
    } else {
      match call
      case Begin(request) => UploadExact(u, request, sha);
      case Activation(op, gen) => RetryExact(u, op, gen, sha);
      case SeedRecovery => RecoveryExact(u, sha);
    }
  }

  function BreakingEnvironment(call: Call): seq<Outcome> {
    match call
    case Begin(_) => [Done, Done, Done, Done, PowerCut]
    case Activation(_, _) => [Done, Refused]
    case _ => []
  }

  /** A call keeps the invariant under every behaviour of the environment if
      and only if its guard holds before the call. */
  lemma GuardExact(w: World, call: Call, sha: Bytes -> Digest)
    requires Inv(w, sha) && w.dev.powered
    ensures (forall env :: Inv(Ends(w, call, env, sha), sha)) <==> Guarded(w, call)
  {
    hide Perform; hide Inv;
    forall env ensures Inv(Ends(w, call, env, sha), sha) <==> SafeCall(w, call, env) {
      SafeCallExact(w, call, env, sha);
    }
    if !Guarded(w, call) { assert !SafeCall(w, call, BreakingEnvironment(call)); }
  }

  // ---------------------------------------------------------------- every safe run

  lemma StepKeeps(w: World, e: Event, sha: Bytes -> Digest)
    requires Inv(w, sha) && SafeEvent(w, e)
    ensures Inv(Step(w, e, sha), sha)
  {
    hide Perform; hide InitializeFromBoot; hide Inv; hide SafeCall;
    match e
    case Wait(ms) => WaitKeeps(w, ms, sha);
    case Invoke(call, env) =>
      if w.dev.powered { SafeCallExact(w, call, env, sha); }
    case Restart(env) => RestartKeeps(w, env, sha);
  }

  lemma WaitKeeps(w: World, ms: nat, sha: Bytes -> Digest)
    requires Inv(w, sha)
    ensures Inv(Step(w, Wait(ms), sha), sha)
  {
    hide Writable; hide Claims;
  }

  lemma RestartKeeps(w: World, env: seq<Outcome>, sha: Bytes -> Digest)
    requires Inv(w, sha)
    ensures Inv(Step(w, Restart(env), sha), sha)
  {
    hide InitializeFromBoot; hide Writable;
    RebootRestores(w.dev, sha);
    InitializeKeeps(PoweredUp(w.dev, env), sha);
  }

  /** The invariant holds in every run whose calls are safe, with any number of
      power cuts at any point. */
  lemma {:induction false} RunKeeps(w: World, events: seq<Event>, sha: Bytes -> Digest)
    requires Factory(w) && SafeRun(w, events, sha)
    ensures Inv(Run(w, events, sha), sha)
  {
    if events != [] {
      hide Inv; hide Step;
      var before := events[..|events| - 1];
      RunKeeps(w, before, sha);
      StepKeeps(Run(w, before, sha), events[|events| - 1], sha);
    }
  }
}
