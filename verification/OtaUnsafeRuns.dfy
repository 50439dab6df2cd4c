/**
 What the three missing guards cost in every state that violates one of them:
 the whole runs by which a validated image is given up, or offered although its
 slot is empty. The lemmas quantify over all such states; that there are any is
 the subject of `OtaReachedStates`.
*/
module OtaUnsafeRuns {
  import opened Prelude
  import opened OtaModel
  import opened OtaSteps
  import opened OtaInvariant
  import opened OtaRuns
  import opened OtaTheorems
  import opened OtaForward

  // ---------------------------------------------------------------- a selection nobody saw

  /** The image in the other slot was booted and given up at once; the running
      image is the same as before. */
  predicate GivenUp(before: Device, v: World) {
    && v.dev.running == before.running && v.dev.current == before.current
    && v.dev.spare == before.spare.(state := Invalid) && v.dev.lastInvalid == Some(before.Inactive())
    && v.dev.record.Some? && v.dev.record.value.phase.RollbackPending? && !v.dev.record.value.validated
  }

  lemma AttemptFallsBack(w: World)
    requires w.env == [] && w.dev.powered && w.dev.spare.state.Valid?
    ensures AttemptUnrecordedRollback(w).dev == w.dev.FallBack(Invalid).(powered := false)
  {
    hide Save;
  }

  /** The selected image boots, finds no record of its activation, and is rejected. */
  lemma Rejected(d: Device)
    requires d.powered && d.current.state.PendingVerify? && d.spare.state.Valid?
    requires d.record.Some? && d.record.value.generation != 0 && !d.record.value.intent
    ensures var v := InitializeFromBoot(PoweredUp(d, []).(dev := d)).0;
            && v.dev == d.FallBack(Invalid).(record := v.dev.record, powered := false)
            && v.dev.record.Some? && v.dev.record.value.phase.RollbackPending? && !v.dev.record.value.validated
  {
    hide RollbackUnreconciled; hide ReconcileSettled; hide RecoverRollbackSeed;
    var s := ApplyRecord(Describe(BLANK, d), d.record.value);
    var w := World(s, false, PROGRESS_INTERVAL_BYTES, d, [], 2);
    assert InitializeFromBoot(PoweredUp(d, []).(dev := d)).0 == RollbackUnreconciled(w);
    RolledBackAtOnce(w);
  }

  lemma RolledBackAtOnce(w: World)
    requires w.env == [] && w.s.generation != 0 && w.dev.powered && w.dev.spare.state.Valid?
    ensures var v := RollbackUnreconciled(w);
            && v.dev == w.dev.FallBack(Invalid).(record := v.dev.record, powered := false)
            && v.dev.record.Some? && v.dev.record.value.phase.RollbackPending? && !v.dev.record.value.validated
  {
    hide AttemptUnrecordedRollback;
    var w1 := w.(s := w.s.(target := w.s.running, phase := RollbackPending, validated := false,
                           intent := true, activated := true, candidateStartedMs := w.dev.NowMs()));
    var w2 := Save(w1).0;
    assert RollbackUnreconciled(w) == AttemptUnrecordedRollback(w2);
    assert w2.dev.record == Some(MakeRecord(w1.s)) && w2.dev == w1.dev.(record := w2.dev.record) && w2.s == w1.s;
    AttemptFallsBack(w2);
  }

  /** A selected image whose record lost its intent does not survive its boot. */
  lemma SelectedAndForgotten(w: World, sha: Bytes -> Digest)
    requires w.dev.boot == w.dev.Inactive() && w.dev.spare.state.NewImage? && w.dev.current.state.Valid?
    requires w.dev.record.Some? && w.dev.record.value.generation != 0 && !w.dev.record.value.intent
    ensures GivenUp(w.dev, Step(w, Restart([]), sha))
  {
    hide InitializeFromBoot;
    Rejected(w.dev.Reboot());
  }

  /** The image that is selected is the one that was declared, whole. */
  predicate WholeAndSelected(w: World, sha: Bytes -> Digest) {
    w.dev.boot == w.dev.Inactive() && |w.dev.spare.data| == w.s.imageSize
    && sha(w.dev.spare.data) == w.s.expectedSha && w.dev.bootable(w.dev.spare.data)
  }

  lemma UnseenIsWhole(w: World, sha: Bytes -> Digest)
    requires Inv(w, sha) && w.dev.powered && w.dev.boot == w.dev.Inactive()
    ensures WholeAndSelected(w, sha) && w.dev.spare.state.NewImage? && w.dev.current.state.Valid?
    ensures w.s.phase.ReadyToReboot? || w.s.phase.RebootPending?
    ensures w.s.intent && w.s.validated && !w.writerOpen
  {
  }

  lemma RetryForgets(w: World, op: nat, gen: nat, sha: Bytes -> Digest)
    requires Inv(w, sha) && w.dev.powered && w.next == 0 && !Guarded(w, Activation(op, gen))
    requires Harms(Activation(op, gen), w.env)
    ensures Activate(w, op, gen).0 == w.(s := Describe(w.s, w.dev).(intent := false), next := 2)
  {
    hide RecoverRollbackSeed; hide SelectTarget; hide FailLocked;
    UnseenIsWhole(w, sha);
    var (w1, refreshed) := RefreshPlatform(w);
    assert refreshed && w1.next == 1 && !RecoveryRequired(w1.s);
    assert !Save(w1).1;
  }

  lemma Cancels(w: World, op: nat, gen: nat)
    requires w.dev.powered && w.env == [] && w.next == 0 && !w.writerOpen && Owned(w.s, op, gen)
    requires w.s.phase.ReadyToReboot? && !w.s.activated && !w.s.intent
    ensures Cancel(w, op, gen).0.dev == w.dev.(record := Some(MakeRecord(ClearOperation(w.s))), hasher := None)
  {
    hide FailLocked;
  }

  /** In every state with a selection nobody saw, a retry whose save fails lets a
      cancellation through, and the whole, validated image that is selected is
      given up at its first boot. */
  lemma UnguardedRetry(w: World, op: nat, gen: nat, env: seq<Outcome>, sha: Bytes -> Digest)
    requires Inv(w, sha) && w.dev.powered && !Guarded(w, Activation(op, gen)) && Harms(Activation(op, gen), env)
    ensures WholeAndSelected(w, sha)
    ensures var v := Step(Step(w, Invoke(Activation(op, gen), env), sha), Invoke(Cancellation(op, gen), []), sha);
            GivenUp(w.dev, Step(v, Restart([]), sha))
  {
    var a, b := Invoke(Activation(op, gen), env), Invoke(Cancellation(op, gen), []);
    UnseenIsWhole(w, sha);
    RetryThenCancel(w, op, gen, env, sha);
    hide Inv; hide Step; hide Guarded; hide Harms;
    SelectedAndForgotten(Step(Step(w, a, sha), b, sha), sha);
  }

  lemma RetryThenCancel(w: World, op: nat, gen: nat, env: seq<Outcome>, sha: Bytes -> Digest)
    requires Inv(w, sha) && w.dev.powered && !Guarded(w, Activation(op, gen)) && Harms(Activation(op, gen), env)
    ensures var d := Step(Step(w, Invoke(Activation(op, gen), env), sha), Invoke(Cancellation(op, gen), []), sha).dev;
            d == w.dev.(record := d.record, hasher := None)
            && d.record.Some? && d.record.value.generation != 0 && !d.record.value.intent
  {
    UnseenIsWhole(w, sha);
    EnvIrrelevant(w, env, sha);
    var u := w.(env := env, next := 0);
    RetryForgets(u, op, gen, sha);
    hide Inv; hide Activate; hide Cancel;
    var v := u.(s := Describe(w.s, w.dev).(intent := false), next := 2);
    Cancels(v.(env := [], next := 0), op, gen);
  }

  lemma RecoveryForgets(w: World, sha: Bytes -> Digest)
    requires Inv(w, sha) && w.dev.powered && w.next == 0 && !Guarded(w, SeedRecovery) && Harms(SeedRecovery, w.env)
    ensures var d := RecoverRollbackSeed(w).0.dev;
            d == w.dev.(record := d.record)
            && d.record.Some? && d.record.value.generation != 0 && !d.record.value.intent
  {
    assert ConfirmRunning(w) == (w, true);
    var w1 := w.(s := w.s.(runningState := Valid));
    assert RecoverRollbackSeed(w) == ClearIntent(w1);
    assert Save(w1.(s := w1.s.(intent := false))).1;
    hide RecoverRollbackSeed;
  }

  /** In every state with such a selection, a recovery that is saved has the
      same end. */
  lemma UnguardedRecovery(w: World, env: seq<Outcome>, sha: Bytes -> Digest)
    requires Inv(w, sha) && w.dev.powered && !Guarded(w, SeedRecovery) && Harms(SeedRecovery, env)
    ensures WholeAndSelected(w, sha)
    ensures GivenUp(w.dev, Step(Step(w, Invoke(SeedRecovery, env), sha), Restart([]), sha))
  {
    UnseenIsWhole(w, sha);
    EnvIrrelevant(w, env, sha);
    RecoveryForgets(w.(env := env, next := 0), sha);
    var u := Step(w, Invoke(SeedRecovery, env), sha);
    hide Inv; hide Perform;
    SelectedAndForgotten(u, sha);
  }

  // ---------------------------------------------------------------- a claim over an erased slot

  /** The image check keeps a slot without an image from being selected: every
      activation is refused, whatever is answered, and nothing has changed. */
  lemma UnbootableIsRefused(w: World, op: nat, gen: nat)
    requires w.dev.boot == w.dev.running && !w.dev.bootable(w.dev.spare.data)
    ensures var (v, ok) := Activate(w, op, gen);
            !ok && v.dev.boot == v.dev.running == w.dev.running && v.dev.spare.data == w.dev.spare.data
  {
    hide RefreshPlatform; hide Save; hide RecoverRollbackSeed; hide SelectTarget; hide FailLocked; hide Untouched;
    RefreshingStaysHere(w);
    var (w1, refreshed) := RefreshPlatform(w);
    RecoveryStaysHere(w1);
    var w2 := if RecoveryRequired(w1.s) then RecoverRollbackSeed(w1).0 else w1;
    FailingStaysHere(w2);
    SavingStaysHere(w2.(s := w2.s.(intent := true)));
    var w3 := Save(w2.(s := w2.s.(intent := true))).0;
    if w3.s.target.Some? { SelectionStaysHere(w3, w3.s.target.value); }
  }

  ghost predicate Here(d: Device, e: Device) {
    e.running == d.running && e.boot == d.boot && e.spare.data == d.spare.data && e.bootable == d.bootable
  }

  lemma RefreshingStaysHere(w: World)
    ensures Here(w.dev, RefreshPlatform(w).0.dev)
    ensures RefreshPlatform(w).1 ==> RefreshPlatform(w).0.s == Describe(w.s, w.dev)
  {
    hide RefreshPlatform;
  }

  lemma SavingStaysHere(w: World)
    ensures Here(w.dev, Save(w).0.dev) && Save(w).0.s == w.s
  {
    hide Save;
  }

  lemma ConfirmingStaysHere(w: World)
    ensures Here(w.dev, ConfirmRunning(w).0.dev) && ConfirmRunning(w).0.s == w.s
  {
    hide ConfirmRunning;
  }

  lemma ClearingStaysHere(w: World)
    ensures var v := ClearIntent(w).0; Here(w.dev, v.dev) && v.s == w.s.(intent := v.s.intent)
  {
    hide Save; hide Untouched;
    SavingStaysHere(w.(s := w.s.(intent := false)));
  }

  lemma RecoveryStaysHere(w: World)
    ensures var v := RecoverRollbackSeed(w).0;
            Here(w.dev, v.dev) && v.s == w.s.(intent := v.s.intent, runningState := v.s.runningState)
  {
    hide Save; hide ConfirmRunning; hide RecoveryRequired; hide ClearIntent; hide Untouched;
    if w.s.runningState.Valid? {
      ClearingStaysHere(w);
    } else {
      ConfirmingStaysHere(w);
      var (w1, confirmed) := ConfirmRunning(w);
      if confirmed { ClearingStaysHere(w1.(s := w1.s.(runningState := Valid))); } else { SavingStaysHere(w1); }
    }
  }

  lemma FailingStaysHere(w: World)
    ensures Here(w.dev, FailLocked(w, false).dev)
  {
    hide Save;
  }

  lemma PlatformStaysHere(w: World, target: Slot)
    requires w.dev.boot == w.dev.running && !w.dev.bootable(w.dev.spare.data)
    ensures var (v, ok) := PlatformActivate(w, target); !ok && Here(w.dev, v.dev) && v.s == w.s
  {
    hide SelectInactive; hide SeedRunning; hide Untouched;
    SeedingStaysHere(w);
    SelectingIsRefused(w);
    SelectingIsRefused(SeedRunning(w).0);
  }

  lemma SeedingStaysHere(w: World)
    requires w.dev.boot == w.dev.running
    ensures var v := SeedRunning(w).0; Here(w.dev, v.dev) && v.s == w.s
  {
  }

  lemma SelectingIsRefused(w: World)
    requires !w.dev.bootable(w.dev.spare.data)
    ensures var (v, ok) := SelectInactive(w); !ok && Here(w.dev, v.dev) && v.s == w.s
  {
    hide SelectInactive;
  }

  lemma SelectionStaysHere(w: World, target: Slot)
    requires w.dev.boot == w.dev.running && !w.dev.bootable(w.dev.spare.data)
    ensures var (v, ok) := SelectTarget(w, target); !ok && Here(w.dev, v.dev)
  {
    hide Save; hide RefreshPlatform; hide PlatformActivate;
    PlatformStaysHere(w, target);
  }

  lemma ClaimSurvives(w: World, request: UploadRequest, sha: Bytes -> Digest)
    requires Inv(w, sha) && w.dev.powered && w.next == 0
    requires !Guarded(w, Begin(request)) && Harms(Begin(request), w.env)
    ensures var d := BeginUpload(w, request).0.dev;
            d == w.dev.(counter := d.counter, spare := w.dev.spare.(data := []), writer := d.writer, hasher := d.hasher,
                        powered := d.powered)
  {
    hide OpenUpload; hide Writable; hide Register;
    var (w1, refreshed) := RefreshPlatform(w);
    var (w2, generation) := ReserveGeneration(w1, w1.s.generation);
    assert refreshed && generation.Some? && w2.next == 2;
    UploadErases(w2, request, generation.value);
    RegisterSaves(Erased(w2, request, generation.value));
  }

  /** When a staged record goes on over the erased slot. */
  predicate StillOffered(d: Device) {
    d.record.Some? &&
    var r := d.record.value;
    r.phase.ReadyToReboot? && !r.activated && (d.lastInvalid != r.target || (r.intent && d.current.state.Valid?))
  }

  /** In every state in which the store still claims the slot that an upload may
      erase, the upload can be cut so that the next boot either ends the record
      or, exactly if `StillOffered`, offers a validated image where there is
      none: every activation is refused, and on a valid image it can be cancelled. */
  lemma UnguardedUpload(w: World, request: UploadRequest, env: seq<Outcome>, answers: seq<Outcome>,
                        sha: Bytes -> Digest)
    requires Inv(w, sha) && w.dev.powered && !Guarded(w, Begin(request)) && Harms(Begin(request), env)
    requires Answering(answers) && !w.dev.bootable([])
    ensures var v := Step(Step(w, Invoke(Begin(request), env), sha), Restart(answers), sha);
            && v.dev.powered && v.dev.spare.data == [] && v.dev.boot == v.dev.running
            && (v.s.phase.ReadyToReboot? <==> StillOffered(w.dev))
            && (v.s.phase.ReadyToReboot? || v.s.phase.Failed? || v.s.phase.RolledBack?)
            && (v.s.phase.ReadyToReboot? ==> v.s.validated)
            && (forall op, gen :: !Activate(v, op, gen).1 && Activate(v, op, gen).0.dev.boot == v.dev.running)
            && (v.s.phase.ReadyToReboot? && w.dev.current.state.Valid? ==>
                  Cancel(v, v.s.operationId, v.s.generation).1)
  {
    EnvIrrelevant(w, env, sha);
    ClaimSurvives(w.(env := env, next := 0), request, sha);
    var u := Step(w, Invoke(Begin(request), env), sha);
    NothingSelected(w, request, sha);
    hide Inv; hide Perform; hide Cancel; hide Activate; hide Reconcile; hide InitializeFromBoot;
    hide BeginUpload; hide Guarded; hide Harms;
    var v := Step(u, Restart(answers), sha);
    OffersAfter(u.dev, answers);
    forall op, gen ensures !Activate(v, op, gen).1 && Activate(v, op, gen).0.dev.boot == v.dev.running {
      UnbootableIsRefused(v, op, gen);
    }
  }

  lemma NothingSelected(w: World, request: UploadRequest, sha: Bytes -> Digest)
    requires Inv(w, sha) && w.dev.powered && !Guarded(w, Begin(request))
    ensures w.dev.boot == w.dev.running && !w.dev.current.state.Pending()
    ensures w.dev.record.Some? && Writable(w.dev.record.value) && Claims(w.dev.record.value, w.dev.Inactive())
  {
  }

  lemma OffersAfter(d: Device, answers: seq<Outcome>)
    requires d.boot == d.running && !d.current.state.Pending() && Answering(answers)
    requires d.record.Some? && Writable(d.record.value) && Claims(d.record.value, d.Inactive())
    ensures var v := InitializeFromBoot(PoweredUp(d, answers)).0;
            && SameFlash(d.Reboot(), v.dev) && v.dev.powered && v.dev.bootable == d.bootable
            && (v.s.phase.ReadyToReboot? <==> StillOffered(d))
            && (v.s.phase.ReadyToReboot? || v.s.phase.Failed? || v.s.phase.RolledBack?)
            && (v.s.phase.ReadyToReboot? ==> v.s.validated)
            && (v.s.phase.ReadyToReboot? && d.current.state.Valid? ==>
                  Cancel(v, v.s.operationId, v.s.generation).1)
  {
    hide Reconcile; hide InitializeFromBoot; hide Cancel;
    var e := d.Reboot();
    BootReads(e, answers);
    SettledBoot(e, answers);
    var v := InitializeFromBoot(PoweredUp(d, answers)).0;
    if v.s.phase.ReadyToReboot? && d.current.state.Valid? { CancelAnswers(v); }
  }
}
