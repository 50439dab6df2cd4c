/**
 Measurement sessions and queued commands of the scale task, one iteration of
 its loop at a time.
*/
module ScaleLoop {
  import opened Prelude

  // An iteration may change the hardware settings, initialize or poll the converter,
  // and then lets the command queue act. Samples, answers of the converter and of
  // the calibration store are the environment's.

  const QUEUE_DEPTH: nat := 4
  const COMMAND_EXPIRY_MS: nat := 10000
  const RETRY_INTERVAL_MS: nat := 5000
  const FAILED_POLLS: nat := 5
  /** Two iterations lie less than three days apart. */
  const LONGEST_GAP_MS: nat := 0x1000_0000

  datatype Purpose = Weigh | Tare | Calibration

  datatype Session = Idle | Settling | Ready | Completed | TimedOut | Failed {
    predicate Active() { Settling? || Ready? }
    predicate Over() { TimedOut? || Failed? }
  }

  datatype Converter = Uninitialized | Starting | Sampling | Disconnected | Fault

  /** `sampledAt` is the time of the last sample, or of the initialization, on a
      clock that does not wrap; `lastSampleMs` is what the firmware keeps of it. */
  datatype Service = Service(
    converter: Converter, ready: bool, calibrated: bool, zeroed: bool,
    session: Session, purpose: Purpose, startedMs: Option<nat>, zeroPending: bool,
    lastSampleMs: nat, failures: nat, sampledAt: nat)

  const OFF := Service(Uninitialized, false, false, false, Idle, Weigh, None, false, 0, 0, 0)

  datatype Config = Config(sampleTimeout: nat, measurementTimeout: nat) {
    /** Timeouts below twelve days. */
    predicate Valid() { 0 < sampleTimeout < 0x4000_0000 && 0 < measurementTimeout < 0x4000_0000 }
  }

  // ---------------------------------------------------------------- the service

  function FailActive(s: Service): Service {
    if !s.session.Active() then s
    else s.(zeroed := s.zeroed && !s.zeroPending, zeroPending := false, session := Failed, startedMs := None)
  }

  function SetError(s: Service, converter: Converter): Service { FailActive(s).(converter := converter) }

  /** New hardware settings end a session as failed, not silently. */
  function Reconfigure(s: Service): Service {
    var blank := OFF.(lastSampleMs := s.lastSampleMs, failures := s.failures, sampledAt := s.sampledAt);
    if s.session.Active() then blank.(session := Failed, purpose := s.purpose)
    else blank.(startedMs := s.startedMs)
  }

  datatype Initialization =
    | Misconfigured | ConverterAbsent(stored: bool) | NotCalibrating(stored: bool) | Initialized(stored: bool)

  function Initialize(s: Service, i: Initialization, now: nat): (Service, bool) {
    var interrupted := (s.converter.Uninitialized? || s.converter.Disconnected?) && s.session.Failed?;
    var blank := OFF.(converter := Starting, startedMs := s.startedMs, lastSampleMs := s.lastSampleMs,
                      sampledAt := s.sampledAt, session := if interrupted then Failed else Idle,
                      purpose := if interrupted then s.purpose else Weigh);
    match i
    case Misconfigured => (SetError(blank, Fault), false)
    case ConverterAbsent(stored) => (SetError(blank.(calibrated := stored, zeroed := stored), Disconnected), false)
    case NotCalibrating(stored) => (SetError(blank.(calibrated := stored, zeroed := stored), Fault), false)
    case Initialized(stored) =>
      (blank.(calibrated := stored, zeroed := stored, ready := true, converter := Sampling,
              lastSampleMs := now % TWO_32, sampledAt := now), true)
  }

  /** `settled` says whether the sample completes what the session waits for. */
  datatype Polling = Broken | NoSample | Sample(settled: bool)

  function RecordPollFailure(s: Service): Service {
    var failures := if s.failures + 1 < FAILED_POLLS then s.failures + 1 else FAILED_POLLS;
    SetError(s, Disconnected).(failures := failures, ready := s.ready && failures < FAILED_POLLS)
  }

  function Advance(s: Service, settled: bool, now: nat, c: Config): Service {
    if !s.session.Settling? || s.startedMs.None? then s
    else if settled then
      if s.purpose.Weigh? then s.(session := Completed, startedMs := None) else s.(session := Ready)
    else if Elapsed32(now % TWO_32, s.startedMs.value) >= c.measurementTimeout then
      s.(zeroed := s.zeroed && !s.zeroPending, zeroPending := false, session := TimedOut, startedMs := None)
    else s
  }

  function Poll(s: Service, p: Polling, now: nat, c: Config): Service {
    if !s.ready then s
    else match p
      case Broken => RecordPollFailure(s)
      case NoSample => if Elapsed32(now % TWO_32, s.lastSampleMs) > c.sampleTimeout then RecordPollFailure(s) else s
      case Sample(settled) =>
        var sampled := s.(failures := 0, lastSampleMs := now % TWO_32, sampledAt := now, converter := Sampling);
        Advance(sampled, settled, now, c)
  }

  /** Whether the platform is seen to be loaded, and whether the converter's
      offset calibration before a tare succeeds. */
  datatype Beginning = Beginning(loaded: bool, offsetCalibrated: bool)

  function BeginMeasurement(s: Service, purpose: Purpose, b: Beginning, now: nat): (Service, bool) {
    if !s.ready || s.session.Active() then (s, false)
    else if purpose.Weigh? && (!s.calibrated || !s.zeroed) then (s, false)
    else if purpose.Tare? && s.calibrated && s.zeroed && b.loaded then (s, false)
    else if purpose.Tare? && !b.offsetCalibrated then (s.(zeroed := false), false)
    else
      (s.(session := Settling, purpose := purpose, startedMs := Some(now % TWO_32),
          zeroPending := s.zeroPending || purpose.Tare?), true)
  }

  datatype Finishing = Unstable | SaveFails | Saved

  function FinishTare(s: Service, f: Finishing): (Service, bool) {
    match f
    case Unstable => (FailActive(s), false)
    case SaveFails => (if s.calibrated then FailActive(s.(zeroPending := false, zeroed := true))
                       else Complete(s.(zeroPending := false, zeroed := true), Tare), !s.calibrated)
    case Saved => (Complete(s.(zeroPending := false, zeroed := true), Tare), true)
  }

  function FinishCalibration(s: Service, f: Finishing): (Service, bool) {
    match f
    case Unstable => (FailActive(s), false)
    case SaveFails => (FailActive(s.(zeroed := true, calibrated := true)), false)
    case Saved => (Complete(s.(zeroed := true, calibrated := true, converter := Sampling), Calibration), true)
  }

  function Complete(s: Service, purpose: Purpose): Service {
    if s.session.Ready? && s.purpose == purpose then s.(session := Completed, startedMs := None) else s
  }

  // ---------------------------------------------------------------- the commands

  datatype Command = Command(id: nat, purpose: Purpose, enqueuedMs: nat)

  datatype Receipt = Receipt(id: nat, ok: bool)

  /** `since` is the start of the active command's session on the clock that
      does not wrap. */
  datatype Loop = Loop(
    service: Service, initialized: bool, lastAttemptMs: nat,
    queue: seq<Command>, active: Option<Command>, since: nat, receipts: seq<Receipt>, next: nat)

  function Finish(l: Loop, id: nat, ok: bool): Loop { l.(receipts := l.receipts + [Receipt(id, ok)]) }

  /** What the environment does in one iteration. */
  datatype Tick = Tick(
    now: nat, hardware: Option<bool>, initialization: Initialization, polling: Polling,
    refused: bool, beginning: Beginning, finishing: Finishing)

  function ProcessActive(l: Loop, t: Tick): Loop
    requires l.active.Some?
  {
    var c := l.active.value;
    var s := l.service;
    if s.session.Over() then Finish(l, c.id, false).(active := None)
    else if c.purpose.Weigh? && s.session.Completed? then Finish(l, c.id, true).(active := None)
    else if !s.session.Ready? then l
    else
      var (v, ok) := if c.purpose.Tare? then FinishTare(s, t.finishing) else FinishCalibration(s, t.finishing);
      Finish(l, c.id, ok).(active := None, service := v)
  }

  function ProcessQueue(l: Loop, t: Tick): Loop {
    if l.queue == [] then l
    else
      var c := l.queue[0];
      var m := l.(queue := l.queue[1..]);
      if Elapsed32(t.now % TWO_32, c.enqueuedMs) > COMMAND_EXPIRY_MS || (c.purpose.Weigh? && t.refused) then
        Finish(m, c.id, false)
      else
        var (v, started) := BeginMeasurement(l.service, c.purpose, t.beginning, t.now);
        if started then m.(service := v, active := Some(c), since := t.now)
        else Finish(m.(service := v), c.id, false)
  }

  function ProcessOne(l: Loop, t: Tick): Loop {
    if l.active.Some? then ProcessActive(l, t) else ProcessQueue(l, t)
  }

  function ChangeHardware(l: Loop, t: Tick): Loop {
    if t.hardware.None? then l
    else
      var s := Reconfigure(l.service);
      var (v, ok) := if t.hardware.value then Initialize(s, t.initialization, t.now) else (s, false);
      l.(service := v, initialized := ok, lastAttemptMs := t.now % TWO_32)
  }

  function Serve(l: Loop, t: Tick, c: Config): Loop {
    if !l.initialized then
      if Elapsed32(t.now % TWO_32, l.lastAttemptMs) >= RETRY_INTERVAL_MS then
        var (v, ok) := Initialize(l.service, t.initialization, t.now);
        l.(service := v, initialized := ok, lastAttemptMs := t.now % TWO_32)
      else l
    else
      var v := Poll(l.service, t.polling, t.now, c);
      if !v.ready && v.converter.Disconnected? then
        l.(service := v, initialized := false, lastAttemptMs := t.now % TWO_32)
      else l.(service := v)
  }

  function Iterate(l: Loop, t: Tick, c: Config): Loop {
    ProcessOne(Serve(ChangeHardware(l, t), t, c), t)
  }

  /** A command is accepted while the queue has room; else it ends at once. */
  function Submit(l: Loop, purpose: Purpose, now: nat): Loop {
    var m := l.(next := l.next + 1);
    if |l.queue| < QUEUE_DEPTH then m.(queue := l.queue + [Command(l.next, purpose, now % TWO_32)])
    else Finish(m, l.next, false)
  }

  function Start(i: Initialization, now: nat): Loop {
    var (s, ok) := Initialize(OFF, i, now);
    Loop(s, ok, now % TWO_32, [], None, 0, [], 0)
  }

  // ---------------------------------------------------------------- sessions

  /** What holds at the end of every iteration at time `now`. */
  predicate Holds(l: Loop, now: nat, c: Config) {
    var s := l.service;
    && (l.initialized ==>
          && s.ready && s.failures < FAILED_POLLS && s.sampledAt <= now && s.lastSampleMs == s.sampledAt % TWO_32
          && now - s.sampledAt <= c.sampleTimeout + LONGEST_GAP_MS * s.failures)
    && (!l.initialized ==> !s.ready)
    && (l.active.None? ==> !s.session.Active())
    && (s.zeroPending <==> l.active.Some? && l.active.value.purpose.Tare?)
    && (l.active.Some? ==>
          && l.initialized && s.session.Settling? && s.purpose == l.active.value.purpose
          && s.startedMs == Some(l.since % TWO_32) && l.since <= now
          && (l.since == now
              || (now - s.sampledAt <= c.sampleTimeout
                  && (s.sampledAt <= l.since || s.sampledAt - l.since < c.measurementTimeout))))
  }

  lemma ElapsedIsTrue(now: nat, since: nat)
    requires since <= now && now - since < TWO_32
    ensures Elapsed32(now % TWO_32, since % TWO_32) == now - since
  {
  }

  /** After the service has run, before the queue acts. */
  predicate Served(l: Loop, now: nat, c: Config) {
    var s := l.service;
    && (l.initialized ==>
          && s.ready && s.failures < FAILED_POLLS && s.sampledAt <= now && s.lastSampleMs == s.sampledAt % TWO_32
          && now - s.sampledAt <= c.sampleTimeout + LONGEST_GAP_MS * s.failures)
    && (!l.initialized ==> !s.session.Active())
    && (!l.initialized ==> !s.ready)
    && (l.active.None? ==> !s.session.Active())
    && (s.zeroPending <==> l.active.Some? && l.active.value.purpose.Tare? && s.session.Active())
    && (l.active.Some? ==>
          && !s.session.Idle? && s.purpose == l.active.value.purpose
          && (s.session.Completed? ==> s.purpose.Weigh?) && (s.session.Ready? ==> !s.purpose.Weigh?)
          && (s.session.Settling? ==>
                && s.startedMs == Some(l.since % TWO_32) && l.since <= now
                && now - s.sampledAt <= c.sampleTimeout
                && (s.sampledAt <= l.since || s.sampledAt - l.since < c.measurementTimeout)))
  }

  predicate Follows(t: Tick, before: nat) {
    before <= t.now <= before + LONGEST_GAP_MS
  }

  /** New settings end the session, and its end outlives the initialization. */
  lemma HardwareServes(l: Loop, t: Tick, before: nat, c: Config)
    requires Holds(l, before, c) && Follows(t, before) && c.Valid() && t.hardware.Some?
    ensures Served(Serve(ChangeHardware(l, t), t, c), t.now, c)
  {
    ElapsedIsTrue(t.now, t.now);
    hide Elapsed32;
    var m := ChangeHardware(l, t);
    assert m.active.Some? ==> m.service.session.Failed? && m.service.purpose == l.active.value.purpose;
    assert !m.service.session.Active() && (m.active.None? ==> !m.service.session.Active());
    QuietServes(m, t, c);
  }

  /** With no session running, the service leaves none behind. */
  lemma QuietServes(l: Loop, t: Tick, c: Config)
    requires c.Valid() && l.lastAttemptMs == t.now % TWO_32
    requires l.initialized ==> l.service.ready && l.service.failures == 0 && l.service.sampledAt == t.now
                               && l.service.lastSampleMs == t.now % TWO_32
    requires !l.initialized ==> !l.service.ready
    requires !l.service.session.Active()
    requires l.active.Some? ==> l.service.session.Failed? && l.service.purpose == l.active.value.purpose
    requires !l.service.zeroPending
    ensures Served(Serve(l, t, c), t.now, c)
  {
    ElapsedIsTrue(t.now, t.now);
  }

  lemma IdleServes(l: Loop, t: Tick, before: nat, c: Config)
    requires Holds(l, before, c) && Follows(t, before) && c.Valid() && t.hardware.None? && l.active.None?
    ensures Served(Serve(ChangeHardware(l, t), t, c), t.now, c)
  {
    if l.initialized { ElapsedIsTrue(t.now, l.service.sampledAt); }
    hide Elapsed32;
  }

  lemma ActiveServes(l: Loop, t: Tick, before: nat, c: Config)
    requires Holds(l, before, c) && Follows(t, before) && c.Valid() && t.hardware.None? && l.active.Some?
    ensures Served(Serve(ChangeHardware(l, t), t, c), t.now, c)
  {
    PollActive(l, t, before, c);
    hide Poll; hide Elapsed32;
  }

  /** A poll leaves the session settling only while samples keep coming and its
      time is not up. */
  lemma PollActive(l: Loop, t: Tick, before: nat, c: Config)
    requires Holds(l, before, c) && Follows(t, before) && c.Valid() && l.active.Some?
    ensures var s := l.service;
            var v := Poll(s, t.polling, t.now, c);
            && v.purpose == s.purpose && !v.session.Idle? && v.zeroPending == (s.zeroPending && v.session.Active())
            && (v.session.Completed? ==> v.purpose.Weigh?) && (v.session.Ready? ==> !v.purpose.Weigh?)
            && v.sampledAt <= t.now && v.lastSampleMs == v.sampledAt % TWO_32
            && (if v.ready then
                  v.failures < FAILED_POLLS && t.now - v.sampledAt <= c.sampleTimeout + LONGEST_GAP_MS * v.failures
                else v.converter.Disconnected? && v.session.Failed?)
            && (v.session.Settling? ==>
                  && v.startedMs == s.startedMs && t.now - v.sampledAt <= c.sampleTimeout
                  && (v.sampledAt <= l.since || v.sampledAt - l.since < c.measurementTimeout))
  {
    ElapsedIsTrue(t.now, l.service.sampledAt);
    ElapsedIsTrue(t.now, l.since);
    hide Elapsed32;
    match t.polling
    case Broken =>
    case NoSample =>
    case Sample(_) =>
  }

  lemma ProcessKeeps(l: Loop, t: Tick, c: Config)
    requires Served(l, t.now, c)
    ensures Holds(ProcessOne(l, t), t.now, c)
  {
    hide Elapsed32;
    if l.active.Some? {
      hide ProcessQueue; hide BeginMeasurement;
    } else {
      hide ProcessActive; hide FinishTare; hide FinishCalibration;
    }
  }

  lemma IterateKeeps(l: Loop, t: Tick, before: nat, c: Config)
    requires Holds(l, before, c) && Follows(t, before) && c.Valid()
    ensures Holds(Iterate(l, t, c), t.now, c)
  {
    hide Serve; hide ChangeHardware; hide ProcessOne; hide Served;
    if t.hardware.Some? {
      HardwareServes(l, t, before, c);
    } else if l.active.None? {
      IdleServes(l, t, before, c);
    } else {
      ActiveServes(l, t, before, c);
    }
    ProcessKeeps(Serve(ChangeHardware(l, t), t, c), t, c);
  }

  // ---------------------------------------------------------------- receipts

  predicate InQueue(l: Loop, id: nat) { exists i :: 0 <= i < |l.queue| && l.queue[i].id == id }

  predicate InHand(l: Loop, id: nat) { l.active.Some? && l.active.value.id == id }

  predicate Ended(l: Loop, id: nat) { exists i :: 0 <= i < |l.receipts| && l.receipts[i].id == id }

  /** Every command is in exactly one place and has at most one receipt. */
  ghost predicate Accounted(l: Loop) {
    && (forall i, j :: 0 <= i < j < |l.queue| ==> l.queue[i].id != l.queue[j].id)
    && (forall i, j :: 0 <= i < j < |l.receipts| ==> l.receipts[i].id != l.receipts[j].id)
    && (forall id: nat :: (if InQueue(l, id) then 1 else 0) + (if InHand(l, id) then 1 else 0)
                          + (if Ended(l, id) then 1 else 0) == if id < l.next then 1 else 0)
    && |l.queue| <= QUEUE_DEPTH
  }

  lemma QueueTail(l: Loop, m: Loop)
    requires Accounted(l) && l.queue != [] && m.queue == l.queue[1..]
    ensures forall i, j :: 0 <= i < j < |m.queue| ==> m.queue[i].id != m.queue[j].id
    ensures forall id: nat :: InQueue(l, id) <==> InQueue(m, id) || id == l.queue[0].id
    ensures !InQueue(m, l.queue[0].id)
  {
    forall id: nat ensures InQueue(l, id) <==> InQueue(m, id) || id == l.queue[0].id {
      if InQueue(l, id) {
        var i :| 0 <= i < |l.queue| && l.queue[i].id == id;
        if i > 0 { assert m.queue[i - 1].id == id; }
      }
      if InQueue(m, id) {
        var i :| 0 <= i < |m.queue| && m.queue[i].id == id;
        assert l.queue[i + 1].id == id;
      }
    }
    assert forall i :: 0 <= i < |m.queue| ==> m.queue[i] == l.queue[i + 1];
  }

  lemma FinishEnds(l: Loop, id: nat, ok: bool)
    ensures forall k: nat :: Ended(Finish(l, id, ok), k) <==> Ended(l, k) || k == id
  {
    var m := Finish(l, id, ok);
    assert m.receipts[|l.receipts|].id == id;
    forall k: nat ensures Ended(m, k) <==> Ended(l, k) || k == id {
      if Ended(l, k) {
        var i :| 0 <= i < |l.receipts| && l.receipts[i].id == k;
        assert m.receipts[i].id == k;
      }
    }
  }

  /** The command in hand ends. */
  lemma HandAccounted(l: Loop, m: Loop, ok: bool)
    requires Accounted(l) && l.active.Some? && m.active.None?
    requires m.receipts == l.receipts + [Receipt(l.active.value.id, ok)] && m.queue == l.queue && m.next == l.next
    ensures Accounted(m)
  {
    var id := l.active.value.id;
    FinishEnds(l, id, ok);
    assert forall k: nat :: Ended(m, k) <==> Ended(Finish(l, id, ok), k);
    assert forall k: nat :: InQueue(m, k) <==> InQueue(l, k);
    assert InHand(l, id) && !Ended(l, id);
    forall i | 0 <= i < |l.receipts| ensures l.receipts[i].id != id {
      assert l.receipts[i].id == id ==> Ended(l, id);
    }
  }

  /** The first command in the queue ends without a session. */
  lemma HeadAccounted(l: Loop, m: Loop, ok: bool)
    requires Accounted(l) && l.queue != [] && m.queue == l.queue[1..] && m.active == l.active
    requires m.receipts == l.receipts + [Receipt(l.queue[0].id, ok)] && m.next == l.next
    ensures Accounted(m)
  {
    var id := l.queue[0].id;
    QueueTail(l, m);
    FinishEnds(l, id, ok);
    assert forall k: nat :: Ended(m, k) <==> Ended(Finish(l, id, ok), k);
    assert InQueue(l, id) && !Ended(l, id);
    forall i | 0 <= i < |l.receipts| ensures l.receipts[i].id != id {
      assert l.receipts[i].id == id ==> Ended(l, id);
    }
    hide InQueue;
  }

  lemma StartAccounted(l: Loop, m: Loop)
    requires Accounted(l) && l.queue != [] && l.active.None? && m.queue == l.queue[1..]
    requires m.active == Some(l.queue[0]) && m.receipts == l.receipts && m.next == l.next
    ensures Accounted(m)
  {
    QueueTail(l, m);
    assert InQueue(l, l.queue[0].id);
    assert forall k: nat :: Ended(m, k) <==> Ended(l, k);
    hide InQueue; hide Ended;
  }

  predicate SameCommands(l: Loop, m: Loop) {
    m.queue == l.queue && m.active == l.active && m.receipts == l.receipts && m.next == l.next
  }

  lemma SameAccounted(l: Loop, m: Loop)
    requires Accounted(l) && SameCommands(l, m)
    ensures Accounted(m)
  {
    assert forall k: nat :: InQueue(m, k) <==> InQueue(l, k);
    assert forall k: nat :: Ended(m, k) <==> Ended(l, k);
  }

  lemma IterateAccounts(l: Loop, t: Tick, c: Config)
    requires Accounted(l)
    ensures Accounted(Iterate(l, t, c))
  {
    hide Accounted; hide Initialize; hide Poll; hide Reconfigure;
    var m := Serve(ChangeHardware(l, t), t, c);
    assert SameCommands(l, m);
    SameAccounted(l, m);
    hide Serve; hide ChangeHardware; hide ProcessOne;
    ProcessAccounts(m, t);
  }

  lemma ProcessAccounts(m: Loop, t: Tick)
    requires Accounted(m)
    ensures Accounted(ProcessOne(m, t))
  {
    hide Accounted; hide FinishTare; hide FinishCalibration; hide BeginMeasurement; hide Elapsed32;
    var v := ProcessOne(m, t);
    if m.active.Some? {
      if v.active.Some? {
        SameAccounted(m, v);
      } else {
        HandAccounted(m, v, v.receipts[|v.receipts| - 1].ok);
      }
    } else if m.queue == [] {
    } else if v.active.Some? {
      StartAccounted(m, v);
    } else {
      HeadAccounted(m, v, false);
    }
  }

  lemma SubmitAccounts(l: Loop, purpose: Purpose, now: nat)
    requires Accounted(l)
    ensures Accounted(Submit(l, purpose, now))
  {
    var m := Submit(l, purpose, now);
    var id := l.next;
    assert !InQueue(l, id) && !InHand(l, id) && !Ended(l, id);
    if |l.queue| < QUEUE_DEPTH {
      assert m.queue[|l.queue|].id == id;
      assert forall k: nat :: Ended(m, k) <==> Ended(l, k);
      forall k: nat ensures InQueue(m, k) <==> InQueue(l, k) || k == id {
        if InQueue(l, k) {
          var i :| 0 <= i < |l.queue| && l.queue[i].id == k;
          assert m.queue[i].id == k;
        }
      }
      forall i | 0 <= i < |l.queue| ensures l.queue[i].id != id {
        assert l.queue[i].id == id ==> InQueue(l, id);
      }
    } else {
      FinishEnds(l.(next := l.next + 1), id, false);
      assert forall k: nat :: InQueue(m, k) <==> InQueue(l, k);
      assert forall k: nat :: Ended(l.(next := l.next + 1), k) <==> Ended(l, k);
      forall i | 0 <= i < |l.receipts| ensures l.receipts[i].id != id {
        assert l.receipts[i].id == id ==> Ended(l, id);
      }
    }
  }

  // ---------------------------------------------------------------- every run

  datatype Event = Submitted(purpose: Purpose) | Ticked(tick: Tick)

  /** The loop and the time of its last iteration. */
  function Run(i: Initialization, start: nat, events: seq<Event>, c: Config): (Loop, nat) {
    if events == [] then (Start(i, start), start)
    else
      var (l, now) := Run(i, start, events[..|events| - 1], c);
      match events[|events| - 1]
      case Submitted(purpose) => (Submit(l, purpose, now), now)
      case Ticked(t) => (Iterate(l, t, c), t.now)
  }

  predicate Steady(i: Initialization, start: nat, events: seq<Event>, c: Config) {
    events != [] ==>
      var before := events[..|events| - 1];
      && Steady(i, start, before, c)
      && (events[|events| - 1].Ticked? ==> Follows(events[|events| - 1].tick, Run(i, start, before, c).1))
  }

  lemma {:induction false} RunHolds(i: Initialization, start: nat, events: seq<Event>, c: Config)
    requires c.Valid() && Steady(i, start, events, c)
    ensures Holds(Run(i, start, events, c).0, Run(i, start, events, c).1, c) && Accounted(Run(i, start, events, c).0)
  {
    if events == [] {
      StartHolds(i, start, c);
    } else {
      hide Holds; hide Accounted; hide Iterate; hide Submit; hide Follows;
      var before := events[..|events| - 1];
      RunHolds(i, start, before, c);
      var (l, now) := Run(i, start, before, c);
      match events[|events| - 1]
      case Submitted(purpose) =>
        SubmitAccounts(l, purpose, now);
        SubmitHolds(l, purpose, now, c);
      case Ticked(t) =>
        IterateKeeps(l, t, now, c);
        IterateAccounts(l, t, c);
    }
  }

  lemma SubmitHolds(l: Loop, purpose: Purpose, now: nat, c: Config)
    requires Holds(l, now, c)
    ensures Holds(Submit(l, purpose, now), now, c)
  {
  }

  lemma StartHolds(i: Initialization, start: nat, c: Config)
    requires c.Valid()
    ensures Holds(Start(i, start), start, c) && Accounted(Start(i, start))
  {
    var l := Start(i, start);
    assert forall k: nat :: !InQueue(l, k) && !Ended(l, k);
  }

  /** In every run, with converters lost and found and settings changed at any
      iteration: a command still active after an iteration has a settling
      session of its own kind that is younger than both timeouts together, and
      every command has ended exactly once or waits in exactly one place. */
  lemma NoSessionIsOrphaned(i: Initialization, start: nat, events: seq<Event>, c: Config, id: nat)
    requires c.Valid() && Steady(i, start, events, c)
    ensures var (l, now) := Run(i, start, events, c);
            && (l.active.Some? ==>
                  && l.service.session.Settling? && l.service.purpose == l.active.value.purpose
                  && now - l.since <= c.measurementTimeout + c.sampleTimeout)
            && (l.active.None? ==> !l.service.session.Active())
            && (forall j, k :: 0 <= j < k < |l.receipts| ==> l.receipts[j].id != l.receipts[k].id)
            && (id < l.next ==> Ended(l, id) == (!InQueue(l, id) && !InHand(l, id)))
  {
    RunHolds(i, start, events, c);
    hide Run; hide Steady; hide InQueue; hide Ended;
  }
}
