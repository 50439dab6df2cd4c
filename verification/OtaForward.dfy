/** No boot leaves the updater stuck, and what becomes of a staged image. */
module OtaForward {
  import opened Prelude
  import opened OtaModel
  import opened OtaSteps
  import opened OtaInvariant
  import opened OtaRecords
  import opened OtaRuns
  import opened OtaTheorems

  /** Whatever the record, the platform and the store do, a boot that reports
      success is not waiting for a reboot. */
  lemma BootNeverReturnsRebootPending(w: World)
    requires InitializeFromBoot(w).1
    ensures !InitializeFromBoot(w).0.s.phase.RebootPending?
  {
    hide RefreshPlatform; hide Load; hide RollbackUnreconciled; hide Reconcile;
    var (w1, refreshed) := RefreshPlatform(w.(writerOpen := false, s := BLANK));
    var (w2, loaded) := Load(w1);
    assert loaded.Some?;
    var hasRecord := loaded.value.Some?;
    ReconcileNotRebootPending(if hasRecord then w2.(s := ApplyRecord(w2.s, loaded.value.value)) else w2, hasRecord);
  }

  lemma ReconcileNotRebootPending(w: World, hasRecord: bool)
    requires !hasRecord ==> w.s.phase.Idle?
    requires Reconcile(w, hasRecord).1
    ensures !Reconcile(w, hasRecord).0.s.phase.RebootPending?
  {
    hide RollbackUnreconciled; hide ConfirmRunning; hide Save; hide ReconcileEnded;
    if !RecoveryRequired(w.s) && !w.s.runningState.Pending() {
      if hasRecord && w.s.phase.ReadyToActivate? {
        var w1 := Save(w.(s := w.s.(phase := ReadyToReboot, intent := false, activated := false))).0;
        EndedNotRebootPending(w1, hasRecord);
      } else {
        EndedNotRebootPending(w, hasRecord);
      }
    }
  }

  lemma EndedNotRebootPending(w: World, hasRecord: bool)
    requires !hasRecord ==> w.s.phase.Idle?
    requires ReconcileEnded(w, hasRecord).1
    ensures !ReconcileEnded(w, hasRecord).0.s.phase.RebootPending?
  {
    SettledNotRebootPending(w.s, hasRecord);
    hide Save; hide FailLocked; hide Settle; hide NoWayForward;
  }

  lemma SettledNotRebootPending(s: Snapshot, hasRecord: bool)
    requires !hasRecord ==> s.phase.Idle?
    ensures !(hasRecord && NoWayForward(s)) ==> !Settle(s, hasRecord).phase.RebootPending?
  {
  }

  // ---------------------------------------------------------------- a way forward

  /** A new upload is possible, or the staged image can be cancelled, or it is
      selected and the reboot into it can be requested. */
  predicate WayForward(v: World) {
    var op, gen := v.s.operationId, v.s.generation;
    || v.s.phase.AcceptsUpload()
    || (v.s.phase.ReadyToReboot?
        && (Cancel(v, op, gen).1 || (Activate(v, op, gen).1 && MarkRebootPending(Activate(v, op, gen).0, op, gen).1)))
  }

  /** A rollback record of an image that never passed validation, whose slot is
      selected again although it is not the one the bootloader last rejected. */
  predicate Stranded(d: Device) {
    d.record.Some? &&
    var r := d.record.value;
    && (r.phase.RollbackPending? || r.phase.RolledBack?) && r.intent && !r.validated
    && r.target == Some(d.boot) && d.boot != d.running && d.lastInvalid != r.target
  }

  lemma CancelAnswers(v: World)
    requires v.dev.powered && Answering(v.env) && !v.writerOpen
    requires v.s.phase.ReadyToReboot? && v.s.generation != 0 && v.s.operationId != 0
    ensures Cancel(v, v.s.operationId, v.s.generation).1 <==> !v.s.activated && !v.s.intent
  {
    hide Save; hide FailLocked;
    Answers(ShaAbort(v).(s := ClearOperation(v.s)));
  }

  lemma ActivateAnswers(v: World)
    requires v.dev.powered && Answering(v.env) && v.s.activated && v.s.intent
    requires v.s.phase.ReadyToReboot? && v.s.generation != 0 && v.s.operationId != 0
    requires v.s.target == Some(v.dev.boot) && v.dev.boot != v.dev.running && v.s.validated
    ensures var (u, ok) := Activate(v, v.s.operationId, v.s.generation);
            ok && MarkRebootPending(u, v.s.operationId, v.s.generation).1
  {
    hide Save; hide FailLocked; hide SelectTarget; hide RecoverRollbackSeed;
    AnswerIsOk(v);
    var u := RefreshPlatform(v).0;
    assert Activate(v, v.s.operationId, v.s.generation) == (u, true);
    Answers(u.(s := u.s.(phase := RebootPending)));
  }

  lemma NotValidatedIsRefused(v: World)
    requires v.s.phase.ReadyToReboot? && v.s.activated && !v.s.validated
    ensures !WayForward(v)
  {
    hide Save; hide FailLocked; hide SelectTarget; hide RecoverRollbackSeed;
  }

  /** On a confirmed image, with the boot selection and the last rejected slot
      in any position and any record the manager itself may have written, the
      boot leaves a way forward exactly if the record is not stranded. */
  lemma WayForwardUnlessStranded(d: Device, env: seq<Outcome>)
    requires d.powered && d.current.state.Valid? && Answering(env)
    requires d.record.Some? ==> Writable(d.record.value)
    ensures WayForward(InitializeFromBoot(World(BLANK, false, PROGRESS_INTERVAL_BYTES, d, env, 0)).0) <==> !Stranded(d)
  {
    hide InitializeFromBoot; hide Reconcile; hide WayForward;
    BootReads(d, env);
    var w := Read(d, env);
    if RecoveryRequired(w.s) {
      RecoveredForward(w);
    } else if d.record.None? || !(w.s.phase.Uploading() || w.s.phase.Validating?) {
      EndedForward(d, env);
    } else {
      FailedForward(d, env);
    }
  }

  lemma RecoveredForward(w: World)
    requires w.dev.powered && Answering(w.env) && !w.writerOpen && RecoveryRequired(w.s) && w.s.runningState.Valid?
    ensures forall b :: WayForward(Reconcile(w, b).0)
  {
    hide Save; hide WayForward; hide Cancel;
    var w1 := w.(s := w.s.(intent := false));
    Answers(w1);
    var v := Save(w1).0;
    CancelAnswers(v);
    ForwardMeans(v);
    assert forall b :: Reconcile(w, b).0 == v;
  }

  lemma FailedForward(d: Device, env: seq<Outcome>)
    requires d.powered && d.current.state.Valid? && Answering(env) && d.record.Some?
    requires var s := Read(d, env).s; !RecoveryRequired(s) && (s.phase.Uploading() || s.phase.Validating?)
    ensures WayForward(Reconcile(Read(d, env), true).0)
  {
    hide Save; hide Cancel; hide Activate; hide MarkRebootPending;
    FailSettles(Read(d, env));
  }

  lemma EndedForward(d: Device, env: seq<Outcome>)
    requires d.powered && d.current.state.Valid? && Answering(env)
    requires d.record.Some? ==> Writable(d.record.value)
    requires var s := Read(d, env).s;
             !RecoveryRequired(s) && (d.record.None? || !(s.phase.Uploading() || s.phase.Validating?))
    ensures WayForward(Reconcile(Read(d, env), d.record.Some?).0) <==> !Stranded(d)
  {
    hide Save; hide WayForward; hide FailLocked;
    var w := Read(d, env);
    var s := w.s;
    var v := Reconcile(w, d.record.Some?).0;
    if d.record.None? {
      ForwardMeans(v);
    } else if SamePartition(s.lastInvalid, s.target) && !SamePartition(s.running, s.target) {
      Answers(w.(s := s.(phase := RolledBack, activated := false, rollbackAvailable := false)));
      ForwardMeans(v);
    } else if NoWayForward(s) {
      FailSettles(w.(s := s.(intent := false, activated := false)));
      ForwardMeans(v);
    } else {
      SettleForward(d, env);
    }
  }

  lemma ForwardMeans(v: World)
    ensures WayForward(v) <==>
              || v.s.phase.AcceptsUpload()
              || (v.s.phase.ReadyToReboot?
                  && (Cancel(v, v.s.operationId, v.s.generation).1
                      || (Activate(v, v.s.operationId, v.s.generation).1
                          && MarkRebootPending(Activate(v, v.s.operationId, v.s.generation).0, v.s.operationId,
                                               v.s.generation).1)))
  {
  }

  lemma SettleForward(d: Device, env: seq<Outcome>)
    requires d.powered && d.current.state.Valid? && Answering(env) && d.record.Some? && Writable(d.record.value)
    requires var s := Read(d, env).s;
             && !RecoveryRequired(s) && !(s.phase.Uploading() || s.phase.Validating?) && !NoWayForward(s)
             && !(SamePartition(s.lastInvalid, s.target) && !SamePartition(s.running, s.target))
    ensures var w := Read(d, env);
            WayForward(w.(s := Settle(w.s, true))) <==> !Stranded(d)
  {
    hide WayForward; hide Cancel; hide Activate; hide MarkRebootPending;
    var w := Read(d, env);
    var v := w.(s := Settle(w.s, true));
    if TargetSelected(w.s) {
      if v.s.validated {
        ActivateAnswers(v);
        ForwardMeans(v);
      } else {
        NotValidatedIsRefused(v);
      }
    } else if v.s.phase.ReadyToReboot? {
      assert Writable(d.record.value) && d.record.value == MakeRecord(v.s);
      assert !v.s.activated;
      CancelAnswers(v);
      assert !v.s.intent by { UnselectedHasNoIntent(d, env); }
      ForwardMeans(v);
    } else {
      ForwardMeans(v);
    }
  }

  lemma UnselectedHasNoIntent(d: Device, env: seq<Outcome>)
    requires d.current.state.Valid? && d.record.Some? && Writable(d.record.value)
    requires var s := Read(d, env).s;
             s.phase.ReadyToReboot? && !RecoveryRequired(s) && !NoWayForward(s) && !TargetSelected(s)
    ensures !d.record.value.intent
  {
    var r := d.record.value;
    assert r.validated && r.target.Some?;
    assert r.intent ==> r.target.value != d.running;
    assert r.target.value != d.running ==> r.target.value == d.Inactive();
    assert r.intent ==> d.boot == d.running;
  }

  /** The stranded family is out of reach: in every run, whatever is called and
      whatever fails, every boot onto a confirmed image leaves a way forward. */
  lemma EveryRunHasAWayForward(w: World, events: seq<Event>, env: seq<Outcome>, sha: Bytes -> Digest)
    requires Factory(w) && Answering(env)
    ensures var u := Run(w, events, sha);
            u.dev.Reboot().current.state.Valid? ==> WayForward(Step(u, Restart(env), sha))
  {
    hide Run; hide InitializeFromBoot; hide WayForward; hide Writable;
    RunWrites(w, events, sha);
    var d := Run(w, events, sha).dev.Reboot();
    if d.current.state.Valid? { WayForwardUnlessStranded(d, env); }
  }

  // ---------------------------------------------------------------- the staged image

  /** A reset keeps a validated, not yet selected image staged, bytes and record,
      exactly if its slot is not the one the bootloader rejected last; otherwise
      the update reads as rolled back. */
  lemma StagedImageSurvives(d: Device, env: seq<Outcome>, sha: Bytes -> Digest)
    requires Durable(d, sha) && Answering(env) && d.boot == d.running && d.current.state.Valid?
    requires d.record.Some? && d.record.value.phase.ReadyToReboot? && !d.record.value.intent
    requires d.record.value.target == Some(d.Inactive())
    ensures var v := InitializeFromBoot(PoweredUp(d, env)).0;
            var r := d.record.value;
            && v.dev.spare == d.spare && v.dev.powered
            && (if d.lastInvalid != r.target then
                  v.s.phase.ReadyToReboot? && v.dev.record == d.record && Recorded(v)
                  && Cancel(v, r.operationId, r.generation).1
                else
                  v.s.phase.RolledBack? && Recorded(v))
  {
    hide Save; hide FailLocked; hide InitializeFromBoot; hide RollbackUnreconciled; hide ReconcilePending;
    hide Cancel; hide RecoverRollbackSeed;
    var e := d.Reboot();
    BootReads(e, env);
    var w := Read(e, env);
    if d.lastInvalid == d.record.value.target {
      Answers(w.(s := w.s.(phase := RolledBack, activated := false, rollbackAvailable := false)));
    } else {
      var v := InitializeFromBoot(PoweredUp(d, env)).0;
      assert v == w;
      CancelAnswers(v);
    }
  }
}
