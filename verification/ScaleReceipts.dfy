/**
 What a receipt of the scale reports: which commands end in an iteration, and
 that success is reported exactly for a session that reached its own end.
*/
module ScaleReceipts {
  import opened Prelude
  import opened ScaleLoop

  /** The session cannot go on: new settings, a broken converter, no sample for
      too long, or no stability in time. Times are true times. */
  predicate Ends(l: Loop, t: Tick, c: Config) {
    || t.hardware.Some?
    || t.polling.Broken?
    || (t.polling.NoSample? && t.now - l.service.sampledAt > c.sampleTimeout)
    || (t.polling == Sample(false) && t.now - l.since >= c.measurementTimeout)
  }

  /** A weighing is finished when it is stable; a tare must be stored too, if
      there is a calibration to store it in, and a calibration always. */
  predicate Finishes(purpose: Purpose, finishing: Finishing, calibrated: bool) {
    purpose.Weigh? || finishing.Saved? || (purpose.Tare? && finishing.SaveFails? && !calibrated)
  }

  /** The command that is being measured ends as failed when its session cannot
      go on; with a settled sample it ends as its finishing does; else it stays. */
  lemma ActiveCommandEnds(l: Loop, t: Tick, before: nat, c: Config)
    requires Holds(l, before, c) && Follows(t, before) && c.Valid() && l.active.Some?
    ensures var v := Iterate(l, t, c);
            var a := l.active.value;
            if Ends(l, t, c) then v.active.None? && v.receipts == l.receipts + [Receipt(a.id, false)]
            else if t.polling == Sample(true) then
              v.active.None?
              && v.receipts == l.receipts + [Receipt(a.id, Finishes(a.purpose, t.finishing, l.service.calibrated))]
            else v.active == l.active && v.receipts == l.receipts
  {
    if t.hardware.Some? {
      HardwareFails(l, t, before, c);
    } else {
      PolledService(l, t, before, c);
      hide Poll; hide Elapsed32;
    }
  }

  lemma HardwareFails(l: Loop, t: Tick, before: nat, c: Config)
    requires Holds(l, before, c) && l.active.Some? && t.hardware.Some?
    ensures var m := Serve(ChangeHardware(l, t), t, c);
            m.service.session.Failed? && m.active == l.active && m.receipts == l.receipts
  {
    hide Elapsed32;
  }

  lemma PolledService(l: Loop, t: Tick, before: nat, c: Config)
    requires Holds(l, before, c) && Follows(t, before) && c.Valid() && l.active.Some?
    ensures var v := Poll(l.service, t.polling, t.now, c);
            && v.purpose == l.service.purpose && v.calibrated == l.service.calibrated
            && (if Ends(l, t.(hardware := None), c) then v.session.Over()
                else if t.polling == Sample(true) then
                  v.session == (if v.purpose.Weigh? then Session.Completed else Session.Ready)
                else v.session.Settling?)
  {
    ElapsedIsTrue(t.now, l.service.sampledAt);
    ElapsedIsTrue(t.now, l.since);
    hide Elapsed32;
  }

  /** A command can start: nothing is measured, a weighing has a calibration and
      a zero, a tare an offset calibration and, over a valid zero, no load. */
  predicate Startable(s: Service, purpose: Purpose, b: Beginning) {
    s.ready && !s.session.Active()
    && match purpose
       case Weigh => s.calibrated && s.zeroed
       case Tare => b.offsetCalibrated && !(s.calibrated && s.zeroed && b.loaded)
       case Calibration => true
  }

  /** A tare whose offset calibration fails has made the old zero worthless. */
  predicate LosesZero(s: Service, a: Command, t: Tick) {
    && a.purpose.Tare? && Elapsed32(t.now % TWO_32, a.enqueuedMs) <= 10000 && s.ready && !s.session.Active()
    && !(s.calibrated && s.zeroed && t.beginning.loaded) && !t.beginning.offsetCalibrated
  }

  /** Without a command being measured the oldest one is taken: it starts, or it
      ends as failed because it waited more than ten seconds, was refused, or
      cannot start. */
  lemma QueuedCommandStarts(l: Loop, t: Tick)
    requires l.active.None? && l.queue != []
    ensures var v := ProcessOne(l, t);
            var a := l.queue[0];
            && v.queue == l.queue[1..]
            && (if Elapsed32(t.now % TWO_32, a.enqueuedMs) <= 10000 && !(a.purpose.Weigh? && t.refused)
                   && Startable(l.service, a.purpose, t.beginning) then
                  && v.active == Some(a) && v.since == t.now && v.receipts == l.receipts
                  && v.service.session.Settling? && v.service.purpose == a.purpose
                else v.active.None? && v.receipts == l.receipts + [Receipt(a.id, false)])
            && v.service.zeroed == (l.service.zeroed && !LosesZero(l.service, a, t))
  {
    hide Elapsed32;
  }

  /** The receipts that one event of a run adds. */
  predicate Honest(l: Loop, e: Event, v: Loop, c: Config) {
    match e
    case Submitted(purpose) =>
      v.receipts == if |l.queue| < 4 then l.receipts else l.receipts + [Receipt(l.next, false)]
    case Ticked(t) =>
      if l.active.None? then
        v.receipts == l.receipts
        || (l.queue != [] && v.active.None? && v.receipts == l.receipts + [Receipt(l.queue[0].id, false)])
      else if Ends(l, t, c) then v.receipts == l.receipts + [Receipt(l.active.value.id, false)]
      else if t.polling == Sample(true) then
        v.receipts == l.receipts + [Receipt(l.active.value.id,
                                            Finishes(l.active.value.purpose, t.finishing, l.service.calibrated))]
      else v.receipts == l.receipts
  }

  /** In every run success is reported exactly for a command whose own session
      settled and was finished; expired, refused, rejected, timed-out and failed
      commands are reported as failed. */
  lemma ReceiptsAreHonest(i: Initialization, start: nat, events: seq<Event>, e: Event, c: Config)
    requires c.Valid() && Steady(i, start, events + [e], c)
    ensures Honest(Run(i, start, events, c).0, e, Run(i, start, events + [e], c).0, c)
  {
    assert (events + [e])[..|events|] == events;
    RunHolds(i, start, events, c);
    var (l, now) := Run(i, start, events, c);
    hide Holds; hide Accounted; hide Steady; hide Run; hide Initialize; hide Poll; hide Reconfigure; hide Elapsed32;
    match e
    case Submitted(_) =>
    case Ticked(t) =>
      if l.active.Some? { ActiveCommandEnds(l, t, now, c); }
      else { IdleReceipts(l, t, c); }
  }

  lemma IdleReceipts(l: Loop, t: Tick, c: Config)
    requires l.active.None?
    ensures var v := Iterate(l, t, c);
            v.receipts == l.receipts
            || (l.queue != [] && v.active.None? && v.receipts == l.receipts + [Receipt(l.queue[0].id, false)])
  {
    hide Initialize; hide Poll; hide Reconfigure; hide Elapsed32; hide ProcessOne;
    var m := Serve(ChangeHardware(l, t), t, c);
    if m.queue != [] { QueuedCommandStarts(m, t); }
    NothingQueued(m, t);
  }

  lemma NothingQueued(l: Loop, t: Tick)
    ensures l.active.None? && l.queue == [] ==> ProcessOne(l, t) == l
  {
  }

  /** A tare that ends otherwise than by being finished leaves no zero behind; a
      finished one leaves a zero, a finished calibration a zero and a
      calibration. */
  lemma ZeroFollowsTheSession(l: Loop, t: Tick, before: nat, c: Config)
    requires Holds(l, before, c) && Follows(t, before) && c.Valid() && l.active.Some? && t.hardware.None?
    ensures var v := Iterate(l, t, c).service;
            var p := l.active.value.purpose;
            && (Ends(l, t, c) && p.Tare? ==> !v.zeroed)
            && (t.polling == Sample(true) && !Ends(l, t, c) ==>
                  && (p.Tare? ==> v.zeroed == !t.finishing.Unstable?)
                  && (p.Calibration? && t.finishing.Saved? ==> v.zeroed && v.calibrated))
            && !v.zeroPending == !(p.Tare? && Iterate(l, t, c).active.Some?)
  {
    PolledService(l, t, before, c);
    PolledZero(l.service, t.polling, t.now, c);
    hide Poll; hide Elapsed32;
  }

  lemma PolledZero(s: Service, p: Polling, now: nat, c: Config)
    requires s.session.Settling? && s.ready
    ensures var v := Poll(s, p, now, c);
            && (v.session.Over() ==> v.zeroed == (s.zeroed && !s.zeroPending) && !v.zeroPending)
            && (!v.session.Over() ==> v.zeroed == s.zeroed && v.zeroPending == s.zeroPending)
  {
    hide Elapsed32;
  }

  predicate Failing(s: Service, p: Polling, now: nat, c: Config) {
    p.Broken? || (p.NoSample? && now - s.sampledAt > c.sampleTimeout)
  }

  /** The fifth failed poll in a row takes the service down, no earlier one does,
      and one good sample starts the count again. While it is down, it comes back
      exactly when five seconds have passed since the last attempt and the
      converter answers, with what the store holds. */
  lemma ServiceComesAndGoes(l: Loop, t: Tick, before: nat, c: Config)
    requires Holds(l, before, c) && Follows(t, before) && c.Valid() && t.hardware.None?
    ensures var m := Serve(l, t, c);
            var failing := Failing(l.service, t.polling, t.now, c);
            && Iterate(l, t, c).initialized == m.initialized
            && (l.initialized ==>
                  && (m.initialized <==> !(failing && l.service.failures == 4))
                  && (m.initialized && failing ==> m.service.failures == l.service.failures + 1)
                  && (t.polling.Sample? ==> m.service.failures == 0 && m.service.sampledAt == t.now))
            && (!l.initialized ==>
                  && (m.initialized <==>
                        t.initialization.Initialized? && Elapsed32(t.now % TWO_32, l.lastAttemptMs) >= 5000)
                  && (m.initialized ==>
                        && m.service.ready && m.service.failures == 0 && m.service.sampledAt == t.now
                        && m.service.calibrated == m.service.zeroed == t.initialization.stored))
  {
    QueueLeavesService(Serve(l, t, c), t);
    assert ChangeHardware(l, t) == l;
    if l.initialized { ElapsedIsTrue(t.now, l.service.sampledAt); }
    hide Elapsed32; hide ProcessOne;
  }

  lemma QueueLeavesService(l: Loop, t: Tick)
    ensures ProcessOne(l, t).initialized == l.initialized
  {
    hide Elapsed32;
  }
}
