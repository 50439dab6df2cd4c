/**
 States that safe runs from a new station reach: those in which a call would
 need its guard, and one in which a reset loses a staged image. Each run is
 given step by step with its answers, for every digest function, and shown to
 be safe; where it needs a cut or a refused save, it says at which call.
*/
module OtaReachedStates {
  import opened Prelude
  import opened OtaModel
  import opened OtaSteps
  import opened OtaInvariant
  import opened OtaRuns
  import opened OtaTheorems
  import opened OtaForward
  import opened OtaUnsafeRuns

  ghost predicate Reachable(w: World, sha: Bytes -> Digest) {
    exists start, events :: Factory(start) && SafeRun(start, events, sha) && Run(start, events, sha) == w
  }

  lemma ReachesNext(w: World, e: Event, sha: Bytes -> Digest)
    requires Reachable(w, sha) && SafeEvent(w, e)
    ensures Reachable(Step(w, e, sha), sha)
  {
    hide Step; hide SafeEvent; hide Factory;
    var start, events :| Factory(start) && SafeRun(start, events, sha) && Run(start, events, sha) == w;
    assert (events + [e])[..|events|] == events;
    assert SafeRun(start, events + [e], sha);
  }

  const IMAGE: Bytes := [1]

  /** An image check that accepts `IMAGE`. */
  type ImageCheck = check: Bytes -> bool | check(IMAGE) witness (image: Bytes) => true

  function Shipped(bootable: ImageCheck): World {
    World(BLANK, false, 0,
          Device(None, 0, SlotA, SlotA, Image(Valid, [0]), Image(Undefined, []), None, 0x10_0000, false, None, 0, false,
                 bootable),
          [], 0)
  }

  /** A manager that is ready for an upload of `IMAGE`. */
  predicate Receptive(w: World) {
    && w.dev.powered && w.s.phase.AcceptsUpload() && !w.dev.current.state.Pending() && !w.dev.writer
    && w.dev.hasher.None? && !w.writerOpen && w.dev.slotSize > 0 && w.s.generation == w.dev.counter < MAX_U64
    && w.dev.bootable(IMAGE)
  }

  /** The manager's memory after an upload of `IMAGE`, in each of its phases. */
  function InPhase(w: World, phase: Phase, received: nat, sha: Bytes -> Digest): Snapshot {
    Describe(BLANK, w.dev).(
      generation := w.dev.counter + 1, operationId := 1, phase := phase, target := Some(w.dev.Inactive()),
      imageSize := 1, bytesReceived := received, expectedSha := sha(IMAGE))
  }

  function Begun(w: World, sha: Bytes -> Digest): World {
    var s := InPhase(w, UploadReceiving, 0, sha);
    World(s, true, PROGRESS_INTERVAL_BYTES,
          w.dev.(record := Some(MakeRecord(s)), counter := w.dev.counter + 1, writer := true, hasher := Some([]),
                 spare := w.dev.spare.(data := [])),
          [], 5)
  }

  function Received(w: World, sha: Bytes -> Digest): World {
    var s := InPhase(w, Writing, 1, sha);
    Begun(w, sha).(s := s, next := 3,
      dev := Begun(w, sha).dev.(record := Some(MakeRecord(s)), spare := w.dev.spare.(data := IMAGE),
                                hasher := Some(IMAGE)))
  }

  function Staged(w: World, sha: Bytes -> Digest): World {
    var s := InPhase(w, ReadyToReboot, 1, sha).(
      calculatedSha := sha(IMAGE), calculatedAvailable := true, validated := true);
    World(s, false, PROGRESS_INTERVAL_BYTES,
          Received(w, sha).dev.(record := Some(MakeRecord(s)), writer := false, hasher := None), [], 5)
  }

  /** The world in which a call begins that meets `env`. */
  function Meeting(w: World, env: seq<Outcome>): World {
    w.(env := env, next := 0)
  }

  function Request(w: World, sha: Bytes -> Digest): UploadRequest {
    UploadRequest(1, w.s.generation, 1, sha(IMAGE))
  }

  lemma Begins(w: World, sha: Bytes -> Digest)
    requires Receptive(w)
    ensures BeginUpload(Meeting(w, []), Request(w, sha)).0 == Begun(w, sha)
  {
    var v := Meeting(w, []);
    var w2 := v.(s := Describe(w.s, w.dev), dev := w.dev.(counter := w.dev.counter + 1), next := 2);
    Registers(w2, sha);
    hide OpenUpload;
    assert BeginUpload(v, Request(w, sha)) == OpenUpload(w2, Request(w, sha), w.dev.counter + 1);
  }

  lemma Registers(w: World, sha: Bytes -> Digest)
    requires w.dev.powered && w.env == [] && w.next == 2 && !w.dev.writer && w.dev.hasher.None? && !w.writerOpen
    requires w.s == Describe(w.s, w.dev) && w.dev.slotSize > 0 && w.dev.counter > 0
    ensures OpenUpload(w, Request(w, sha), w.dev.counter).0
         == Begun(w.(dev := w.dev.(counter := w.dev.counter - 1)), sha)
  {
    hide OpenUpload; hide FailLocked;
    UploadErases(w, Request(w, sha), w.dev.counter);
  }

  lemma Receives(w: World, sha: Bytes -> Digest)
    requires Receptive(w)
    ensures WriteChunk(Meeting(Begun(w, sha), []), 1, w.dev.counter + 1, IMAGE).0 == Received(w, sha)
  {
    hide FailLocked;
    assert [] + IMAGE == IMAGE;
  }

  lemma Finishes(w: World, sha: Bytes -> Digest)
    requires Receptive(w)
    ensures FinishUpload(Meeting(Received(w, sha), []), 1, w.dev.counter + 1, sha).0 == Staged(w, sha)
  {
    hide FailLocked;
  }

  /** An upload without incident stages its image. */
  lemma UploadReaches(w: World, sha: Bytes -> Digest)
    requires Reachable(w, sha) && Receptive(w) && !StoreClaimsSpare(w.dev)
    ensures Reachable(Staged(w, sha), sha)
  {
    hide BeginUpload; hide WriteChunk; hide FinishUpload; hide Reachable;
    Begins(w, sha); Receives(w, sha); Finishes(w, sha);
    ReachesNext(w, Invoke(Begin(Request(w, sha)), []), sha);
    ReachesNext(Begun(w, sha), Invoke(Chunk(1, w.dev.counter + 1, IMAGE), []), sha);
    ReachesNext(Received(w, sha), Invoke(Finish(1, w.dev.counter + 1), []), sha);
  }

  /** The new station, booted for the first time. */
  function Ready(bootable: ImageCheck): World {
    var d := Shipped(bootable).dev.(powered := true);
    World(Describe(BLANK, d), false, PROGRESS_INTERVAL_BYTES, d, [], 2)
  }

  lemma ReadyIsReached(bootable: ImageCheck, sha: Bytes -> Digest)
    ensures Reachable(Ready(bootable), sha)
  {
    var w := Shipped(bootable);
    assert Run(w, [], sha) == w && SafeRun(w, [], sha);
    assert Reachable(w, sha);
    assert w.dev.Reboot() == Ready(bootable).dev;
    Boots(bootable);
    ReachesNext(w, Restart([]), sha);
  }

  lemma Boots(bootable: ImageCheck)
    ensures InitializeFromBoot(PoweredUp(Shipped(bootable).dev, [])).0 == Ready(bootable)
  {
    hide RollbackUnreconciled; hide ReconcilePending; hide RecoverRollbackSeed; hide FailLocked; hide Save;
  }

  function Uploaded(bootable: ImageCheck, sha: Bytes -> Digest): World {
    Staged(Ready(bootable), sha)
  }

  lemma UploadedIsReached(bootable: ImageCheck, sha: Bytes -> Digest)
    ensures Reachable(Uploaded(bootable, sha), sha)
  {
    hide Reachable;
    ReadyIsReached(bootable, sha);
    UploadReaches(Ready(bootable), sha);
  }

  /** Slot B is selected, the platform reported an error and did not answer
      afterwards: the intent is kept, the selection is not known. */
  function Unseen(bootable: ImageCheck, sha: Bytes -> Digest): World {
    var u := Uploaded(bootable, sha);
    var s := u.s.(intent := true);
    World(s, false, PROGRESS_INTERVAL_BYTES, u.dev.SelectSpare().(record := Some(MakeRecord(s))),
          [Done, Done, Ambiguous, Refused], 5)
  }

  lemma SelectionUnseen(bootable: ImageCheck, sha: Bytes -> Digest)
    ensures Activate(Meeting(Uploaded(bootable, sha), [Done, Done, Ambiguous, Refused]), 1, 1).0
         == Unseen(bootable, sha)
  {
    hide FailLocked; hide RecoverRollbackSeed; hide SelectTarget;
    var u := Uploaded(bootable, sha);
    var w := Meeting(u, [Done, Done, Ambiguous, Refused]);
    var s := u.s.(intent := true);
    var w1 := w.(s := s, next := 2, dev := w.dev.(record := Some(MakeRecord(s))));
    assert Activate(w, 1, 1) == SelectTarget(w1, SlotB);
    EndsUnseen(w1);
  }

  lemma EndsUnseen(w: World)
    requires w.dev.powered && w.env == [Done, Done, Ambiguous, Refused] && w.next == 2
    requires w.dev.running.SlotA? && w.dev.current.state.Valid? && w.dev.bootable(w.dev.spare.data)
    requires w.s.intent && !w.s.activated && w.dev.record == Some(MakeRecord(w.s))
    ensures SelectTarget(w, SlotB).0 == w.(dev := w.dev.SelectSpare(), next := 5)
  {
  }

  /** An ambiguous activation leads to a state without the guards of a retry and
      of a recovery. */
  lemma SelectionGuardsCanFail(bootable: ImageCheck, sha: Bytes -> Digest)
    ensures exists w :: Reachable(w, sha) && w.dev.powered
                        && !Guarded(w, Activation(1, 1)) && !Guarded(w, SeedRecovery)
  {
    var u := Uploaded(bootable, sha);
    assert Guarded(u, Activation(1, 1));
    hide Reachable; hide Activate;
    UploadedIsReached(bootable, sha);
    SelectionUnseen(bootable, sha);
    ReachesNext(u, Invoke(Activation(1, 1), [Done, Done, Ambiguous, Refused]), sha);
  }

  /** The cancellation of a staged image, neither of whose saves succeeded. */
  function Uncancelled(bootable: ImageCheck, sha: Bytes -> Digest): World {
    var u := Uploaded(bootable, sha);
    u.(s := ClearOperation(u.s).(phase := Failed), env := [Refused, Refused], next := 2)
  }

  lemma CancelsInVain(bootable: ImageCheck, sha: Bytes -> Digest)
    ensures Cancel(Meeting(Uploaded(bootable, sha), [Refused, Refused]), 1, 1).0 == Uncancelled(bootable, sha)
  {
  }

  /** A cancellation that could not be saved leads to a state without the guard
      of an upload, in which the staged record would go on. */
  lemma UploadGuardCanFail(bootable: ImageCheck, sha: Bytes -> Digest)
    ensures exists w, request ::
              Reachable(w, sha) && w.dev.powered && !Guarded(w, Begin(request)) && StillOffered(w.dev)
  {
    assert !Guarded(Uncancelled(bootable, sha), Begin(UploadRequest(2, 1, 1, sha(IMAGE))));
    hide Reachable; hide Cancel;
    UploadedIsReached(bootable, sha);
    CancelsInVain(bootable, sha);
    ReachesNext(Uploaded(bootable, sha), Invoke(Cancellation(1, 1), [Refused, Refused]), sha);
  }

  // ---------------------------------------------------------------- an image for a rejected slot

  /** The staged image is selected. */
  function Activated(bootable: ImageCheck, sha: Bytes -> Digest): World {
    var u := Uploaded(bootable, sha);
    var s := u.s.(intent := true, activated := true, boot := Some(SlotB));
    World(s, false, PROGRESS_INTERVAL_BYTES, u.dev.SelectSpare().(record := Some(MakeRecord(s))), [], 4)
  }

  lemma Activates(bootable: ImageCheck, sha: Bytes -> Digest)
    ensures Activate(Meeting(Uploaded(bootable, sha), []), 1, 1).0 == Activated(bootable, sha)
  {
    hide FailLocked; hide RecoverRollbackSeed; hide SelectTarget;
    var w := Meeting(Uploaded(bootable, sha), []);
    var s := w.s.(intent := true);
    var w1 := w.(s := s, next := 2, dev := w.dev.(record := Some(MakeRecord(s))));
    assert Activate(w, 1, 1) == SelectTarget(w1, SlotB);
    Selects(w1);
  }

  lemma Selects(w: World)
    requires w.dev.powered && w.env == [] && w.next == 2 && w.s.phase.ReadyToReboot?
    requires w.dev.running.SlotA? && w.dev.current.state.Valid? && w.dev.bootable(w.dev.spare.data)
    ensures var s := w.s.(boot := Some(SlotB), activated := true);
            SelectTarget(w, SlotB).0 ==
            w.(s := s, dev := w.dev.SelectSpare().(record := Some(MakeRecord(s))), next := 4)
  {
  }

  /** The new image runs as the candidate. */
  function Candidate(bootable: ImageCheck, sha: Bytes -> Digest): World {
    var d := Activated(bootable, sha).dev.Reboot();
    var s := ApplyRecord(Describe(BLANK, d), d.record.value).(phase := CandidateBoot);
    World(s, false, PROGRESS_INTERVAL_BYTES, d.(record := Some(MakeRecord(s))), [], 3)
  }

  lemma CandidateBoots(bootable: ImageCheck, sha: Bytes -> Digest)
    ensures InitializeFromBoot(PoweredUp(Activated(bootable, sha).dev, [])).0 == Candidate(bootable, sha)
  {
    hide RollbackUnreconciled; hide RecoverRollbackSeed; hide ReconcileSettled;
  }

  /** The candidate has been rolled back and the old firmware runs. */
  function FellBack(bootable: ImageCheck, sha: Bytes -> Digest): Device {
    var c := Candidate(bootable, sha);
    c.dev.FallBack(Invalid).(record := Some(MakeRecord(c.s.(phase := RollbackPending))), powered := false)
  }

  lemma RollsBack(bootable: ImageCheck, sha: Bytes -> Digest)
    ensures RollbackCandidate(Meeting(Candidate(bootable, sha), [])).0.dev == FellBack(bootable, sha)
  {
    hide PerformRollback;
    var c := Candidate(bootable, sha);
    var s := c.s.(phase := RollbackPending);
    var w := c.(s := s, next := 2, dev := c.dev.(record := Some(MakeRecord(s))));
    assert RollbackCandidate(Meeting(c, [])) == PerformRollback(w);
    Falls(w);
  }

  lemma Falls(w: World)
    requires w.env == [] && w.dev.powered && w.dev.spare.state.Valid?
    ensures PerformRollback(w).0.dev == w.dev.FallBack(Invalid).(powered := false)
  {
  }

  lemma RolledBackBoots(bootable: ImageCheck, sha: Bytes -> Digest)
    ensures var v := InitializeFromBoot(PoweredUp(FellBack(bootable, sha), [])).0;
            && v.s.phase.RolledBack? && v.s.generation == v.dev.counter == 1 && !v.writerOpen && Recorded(v)
            && v.dev == FellBack(bootable, sha).Reboot().(record := v.dev.record)
  {
    hide RollbackUnreconciled; hide RecoverRollbackSeed; hide ReconcilePending; hide FailLocked;
  }

  /** The slot of a candidate that was rolled back stays the one rejected last
      when the next image is staged in it: a safe run loses that image. */
  lemma LostImageIsReached(bootable: ImageCheck, sha: Bytes -> Digest)
    ensures exists w ::
              && Reachable(w, sha) && w.dev.powered && w.s.phase.ReadyToReboot? && w.s.validated
              && w.dev.record == Some(MakeRecord(w.s)) && w.dev.spare.data == IMAGE
              && Step(w, Restart([]), sha).s.phase.RolledBack?
  {
    hide Reachable; hide Activate; hide RollbackCandidate; hide InitializeFromBoot;
    UploadedIsReached(bootable, sha);
    Activates(bootable, sha); CandidateBoots(bootable, sha); RollsBack(bootable, sha); RolledBackBoots(bootable, sha);
    ReachesNext(Uploaded(bootable, sha), Invoke(Activation(1, 1), []), sha);
    ReachesNext(Activated(bootable, sha), Restart([]), sha);
    ReachesNext(Candidate(bootable, sha), Invoke(Rollback, []), sha);
    var u := Step(Candidate(bootable, sha), Invoke(Rollback, []), sha);
    ReachesNext(u, Restart([]), sha);
    var v := Step(u, Restart([]), sha);
    UploadReaches(v, sha);
    LosesNextImage(v, sha);
  }

  lemma LosesNextImage(w: World, sha: Bytes -> Digest)
    requires w.dev.boot == w.dev.running && w.dev.current.state.Valid? && w.dev.lastInvalid == Some(w.dev.Inactive())
    requires !w.dev.spare.state.Pending() && w.dev.bootable(IMAGE)
    ensures Step(Staged(w, sha), Restart([]), sha).s.phase.RolledBack?
  {
    hide InitializeFromBoot;
    StagedImageSurvives(Staged(w, sha).dev, [], sha);
  }
}
