/**
 What the invariant means for a user of the station: where a boot ends, what
 may be selected for booting, when a candidate is confirmed, and that no boot
 leaves the updater without a way forward.
*/
module OtaTheorems {
  import opened Prelude
  import opened OtaModel
  import opened OtaSteps
  import opened OtaInvariant
  import opened OtaRuns

  /** The store and the platform answer every call. */
  predicate Answering(env: seq<Outcome>) {
    forall i :: 0 <= i < |env| ==> env[i].Ok()
  }

  lemma AnswerIsOk(w: World)
    requires Answering(w.env) && w.dev.powered
    ensures Draw(w).1.Ok() && Draw(w).0.dev.powered && Draw(w).0.env == w.env
  {
  }

  lemma Answers(w: World)
    requires Answering(w.env) && w.dev.powered
    ensures Save(w).1 && Save(w).0.env == w.env
    ensures RefreshPlatform(w).1 && RefreshPlatform(w).0.env == w.env
    ensures Load(w).1.Some? && Load(w).0.env == w.env
    ensures ConfirmRunning(w).1 <==> w.dev.current.state.Pending() || w.dev.current.state.Valid?
    ensures ConfirmRunning(w).0.env == w.env
  {
    AnswerIsOk(w);
  }

  // ---------------------------------------------------------------- where a boot ends

  ghost predicate SameFlash(before: Device, after: Device) {
    after.running == before.running && after.boot == before.boot && after.spare == before.spare
    && after.current.data == before.current.data && after.lastInvalid == before.lastInvalid
    && after.bootable == before.bootable
  }

  /** The boot is over, the device runs on, and the store agrees with the memory. */
  ghost predicate Stays(d: Device, v: World) {
    SameFlash(d, v.dev) && v.dev.powered
  }

  predicate Recorded(v: World) {
    v.dev.record == Some(MakeRecord(v.s))
  }

  /** Where a boot with an answering store ends: decided by what the record says
      and by whether its target is the running slot, the slot the bootloader
      rejected last, or neither. */
  function Resolved(d: Device): Phase {
    if d.record.None? then Idle
    else
      var r := d.record.value;
      var runs := r.target == Some(d.running);
      var valid := d.current.state.Valid?;
      if d.current.state.Pending() then if runs then CandidateBoot else ReadyToReboot
      else if r.phase.Uploading() || r.phase.Validating? then Failed
      else if valid && Seed(r, d.Inactive()) then ReadyToReboot
      else if SamePartition(d.lastInvalid, r.target) && !runs then RolledBack
      else match r.phase
        case RebootPending | RollbackPending => if runs && valid then Confirmed else Failed
        case CandidateBoot | ValidatingCandidate =>
          if runs && valid then Confirmed else if runs then r.phase else Failed
        case ReadyToReboot => if r.activated || (r.intent && runs) then Failed else ReadyToReboot
        case _ => r.phase
  }

  /** The manager as the boot finds it once the platform and the record are read. */
  function Read(d: Device, env: seq<Outcome>): World {
    var s := Describe(BLANK, d);
    World(if d.record.Some? then ApplyRecord(s, d.record.value) else s, false, PROGRESS_INTERVAL_BYTES, d, env, 2)
  }

  lemma BootReads(d: Device, env: seq<Outcome>)
    requires Answering(env) && d.powered
    ensures InitializeFromBoot(World(BLANK, false, PROGRESS_INTERVAL_BYTES, d, env, 0))
         == Reconcile(Read(d, env), d.record.Some?)
  {
    hide Reconcile; hide RollbackUnreconciled;
    var w := World(BLANK, false, PROGRESS_INTERVAL_BYTES, d, env, 0);
    AnswerIsOk(w);
    var w1 := RefreshPlatform(w).0;
    AnswerIsOk(w1);
    assert Load(w1).0.s == Describe(BLANK, d);
  }

  /** A pending image boots either as the candidate or as the old firmware whose
      otadata entry was just being seeded. */
  lemma PendingBoot(d: Device, env: seq<Outcome>, sha: Bytes -> Digest)
    requires Durable(d, sha) && Booted(d) && Answering(env) && d.current.state.Pending()
    ensures d.record.Some? && (d.record.value.target == Some(d.running) || d.record.value.target == Some(d.Inactive()))
    ensures var (v, ok) := Reconcile(Read(d, env), true);
            && ok && Stays(d, v) && Recorded(v) && v.s.validated
            && (if d.record.value.target == Some(d.running) then
                  v.s.phase.CandidateBoot? && v.s.intent && v.s.activated && v.dev.current == d.current
                  && v.dev.uptime == d.uptime && v.s.candidateStartedMs == d.NowMs()
                else
                  v.s.phase.ReadyToReboot? && !v.s.intent && !v.s.activated && v.dev.current.state.Valid?)
  {
    hide Save; hide ConfirmRunning; hide RollbackUnreconciled; hide ReconcileSettled;
    var w := Read(d, env);
    var r := d.record.value;
    if r.target == Some(d.running) {
      assert !RecoveryRequired(w.s) && CandidateRecord(w.s, true);
      var w1 := w.(s := w.s.(phase := CandidateBoot, intent := true, activated := true,
                             candidateStartedMs := w.dev.NowMs()));
      Answers(w1);
      assert ReconcilePending(w, true) == (Save(w1).0, true);
    } else {
      assert Seed(r, d.Inactive());
      assert RecoveryRequired(w.s);
      Answers(w);
      var w1 := ConfirmRunning(w).0;
      var w2 := w1.(s := w1.s.(runningState := Valid, intent := false));
      Answers(w2);
    }
  }

  /** A settled image, and a record that the manager can have written. */
  predicate SettledDevice(d: Device) {
    d.boot == d.running && d.powered && !d.current.state.Pending()
    && (d.record.Some? ==> Writable(d.record.value))
  }

  /** A settled image never waits for anything: its boot selection is itself. */
  lemma SettledBoot(d: Device, env: seq<Outcome>)
    requires SettledDevice(d) && Answering(env)
    ensures Settles(d, Reconcile(Read(d, env), d.record.Some?))
  {
    hide RollbackUnreconciled; hide ReconcilePending;
    var w := Read(d, env);
    if RecoveryRequired(w.s) {
      hide Save; hide ReconcileSettled;
      var w1 := w.(s := w.s.(intent := false));
      Answers(w1);
    } else {
      SettledBootEnds(d, env);
    }
  }

  ghost predicate Settles(d: Device, end: (World, bool)) {
    var (v, ok) := end;
    && Stays(d, v) && v.dev.current == d.current && v.s.phase == Resolved(d)
    && !v.writerOpen && Answering(v.env)
    && (d.record.None? ==> ok)
    && (v.s.phase.ReadyToReboot? ==>
          ok && d.record.value == MakeRecord(v.s).(intent := d.record.value.intent) && v.s.validated
          && (d.current.state.Valid? ==> !v.s.intent && !v.s.activated))
  }

  lemma SettledBootEnds(d: Device, env: seq<Outcome>)
    requires SettledDevice(d) && Answering(env)
    requires !RecoveryRequired(Read(d, env).s)
    ensures Settles(d, ReconcileEnded(Read(d, env), d.record.Some?))
  {
    hide Save; hide FailLocked;
    var w := Read(d, env);
    var s := w.s;
    if d.record.Some? && (s.phase.Uploading() || s.phase.Validating?) {
      FailSettles(w);
    } else if d.record.Some? && SamePartition(s.lastInvalid, s.target) && !SamePartition(s.running, s.target) {
      Answers(w.(s := s.(phase := RolledBack, activated := false, rollbackAvailable := false)));
    } else if d.record.Some? && NoWayForward(s) {
      FailSettles(w.(s := s.(intent := false, activated := false)));
      HopelessFails(d, env);
    } else {
      SettlesAsResolved(d, env);
    }
  }

  /** A record that goes on as it is, or whose target is confirmed. */
  lemma SettlesAsResolved(d: Device, env: seq<Outcome>)
    requires SettledDevice(d) && Answering(env)
    requires var s := Read(d, env).s;
             !RecoveryRequired(s)
             && (d.record.Some? ==> !(s.phase.Uploading() || s.phase.Validating? || NoWayForward(s))
                                    && !(SamePartition(s.lastInvalid, s.target) && !SamePartition(s.running, s.target)))
    ensures var w := Read(d, env); Settles(d, (w.(s := Settle(w.s, d.record.Some?)), true))
  {
    if d.record.Some? {
      var r := d.record.value;
      assert r.target.Some? && r.target.value != d.running ==> r.target.value == d.Inactive();
    }
  }

  lemma HopelessFails(d: Device, env: seq<Outcome>)
    requires SettledDevice(d) && d.record.Some?
    requires var s := Read(d, env).s;
             !RecoveryRequired(s) && !(s.phase.Uploading() || s.phase.Validating?) && NoWayForward(s)
             && !(SamePartition(s.lastInvalid, s.target) && !SamePartition(s.running, s.target))
    ensures Resolved(d).Failed?
  {
  }

  lemma FailSettles(w: World)
    requires !w.writerOpen && w.dev.powered && Answering(w.env)
    ensures var v := FailLocked(w, false);
            v.s.phase.Failed? && SameFlash(w.dev, v.dev) && v.dev.powered && v.dev.current == w.dev.current
            && !v.writerOpen && Answering(v.env)
  {
    hide Save;
    Answers(ShaAbort(w).(s := w.s.(phase := Failed, validated := false)));
  }

  /** The state every power cut leaves behind resolves at the next boot that is
      not itself cut: whatever was interrupted, and however often, the running
      slot decides the phase, the boot selection and both images stay, and the
      manager neither waits for a reboot nor gives the image up. */
  lemma EveryBootResolves(w: World, events: seq<Event>, env: seq<Outcome>, sha: Bytes -> Digest)
    requires Factory(w) && SafeRun(w, events, sha) && Answering(env)
    ensures var d := Run(w, events, sha).dev.Reboot();
            var v := Step(Run(w, events, sha), Restart(env), sha);
            && v.s.phase == Resolved(d) && !v.s.phase.RebootPending?
            && Stays(d, v) && v.dev.boot == v.dev.running
            && (d.record.Some? && d.current.state.Pending() ==> v.s.validated && Recorded(v))
            && (d.record.Some? && d.record.value.intent ==> !v.s.phase.Idle?)
  {
    var u := Run(w, events, sha);
    hide Run; hide SafeRun; hide Reconcile; hide InitializeFromBoot; hide Save;
    RunKeeps(w, events, sha);
    RebootRestores(u.dev, sha);
    var d := u.dev.Reboot();
    BootReads(d, env);
    if d.current.state.Pending() {
      PendingBoot(d, env, sha);
    } else {
      SettledBoot(d, env);
    }
  }

  // ---------------------------------------------------------------- what may be booted

  /** In every run, with power cuts anywhere, the boot selection leaves the
      running slot only for a slot that holds exactly the declared bytes, and
      only while the running image is confirmed and can take over again. */
  lemma SelectionIsVerified(w: World, events: seq<Event>, sha: Bytes -> Digest)
    requires Factory(w) && SafeRun(w, events, sha)
    ensures var d := Run(w, events, sha).dev;
            d.boot != d.running ==>
              && d.boot == d.Inactive() && d.current.state.Valid? && d.record.Some?
              && var r := d.record.value;
                 && r.validated && r.intent && r.target == Some(d.boot)
                 && |d.At(d.boot).data| == r.expectedLength > 0 && sha(d.At(d.boot).data) == r.expectedSha
                 && d.bootable(d.At(d.boot).data)
  {
    hide Run; hide SafeRun;
    RunKeeps(w, events, sha);
  }

  /** During an upload the bytes received, written and hashed are the same, and
      the store makes no claim about the slot being overwritten. */
  lemma UploadIsConserved(w: World, events: seq<Event>, sha: Bytes -> Digest)
    requires Factory(w) && SafeRun(w, events, sha)
    ensures var v := Run(w, events, sha);
            v.dev.powered && v.s.phase.Uploading() ==>
              && v.writerOpen && v.dev.hasher == Some(v.dev.spare.data)
              && v.s.bytesReceived == |v.dev.spare.data| <= v.s.imageSize
              && v.s.target == Some(v.dev.Inactive()) && !StoreClaimsSpare(v.dev)
  {
    hide Run; hide SafeRun;
    RunKeeps(w, events, sha);
  }
}
