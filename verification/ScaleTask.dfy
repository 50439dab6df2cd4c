/**
 The scale service and the command queue as the objects of the firmware, whose
 methods are proved against the functions of `ScaleLoop`.
*/
module ScaleTask {
  import opened Prelude
  import opened ScaleLoop

  class ScaleService {
    const config: Config
    var converter: Converter
    var ready: bool
    var calibrated: bool
    var zeroed: bool
    var session: Session
    var purpose: Purpose
    var startedMs: Option<nat>
    var zeroPending: bool
    var lastSampleMs: nat
    var failures: nat
    ghost var sampledAt: nat

    constructor (config: Config)
      ensures View() == OFF && this.config == config
    {
      this.config := config;
      converter, ready, calibrated, zeroed := Uninitialized, false, false, false;
      session, purpose, startedMs, zeroPending := Idle, Weigh, None, false;
      lastSampleMs, failures, sampledAt := 0, 0, 0;
    }

    ghost function View(): Service
      reads this
    {
      Service(converter, ready, calibrated, zeroed, session, purpose, startedMs, zeroPending, lastSampleMs,
              failures, sampledAt)
    }

    predicate MeasurementActive()
      reads this
    {
      session.Settling? || session.Ready?
    }

    method FailActiveMeasurement()
      modifies this
      ensures View() == FailActive(old(View()))
    {
      if !MeasurementActive() { return; }
      if zeroPending { zeroed, zeroPending := false, false; }
      session, startedMs := Failed, None;
    }

    method SetError(state: Converter)
      modifies this
      ensures View() == ScaleLoop.SetError(old(View()), state)
    {
      FailActiveMeasurement();
      converter := state;
    }

    method ClearStatus()
      modifies this
      ensures View() == OFF.(startedMs := old(startedMs), lastSampleMs := old(lastSampleMs), failures := old(failures),
                             sampledAt := old(sampledAt))
    {
      converter, ready, calibrated, zeroed := Uninitialized, false, false, false;
      session, purpose, zeroPending := Idle, Weigh, false;
    }

    method Reconfigure()
      modifies this
      ensures View() == ScaleLoop.Reconfigure(old(View()))
    {
      var interruptedPurpose := purpose;
      var interrupted := MeasurementActive();
      ClearStatus();
      if interrupted {
        purpose, session, startedMs := interruptedPurpose, Failed, None;
      }
    }

    method Initialize(i: Initialization, nowMs: nat, ghost now: nat) returns (ok: bool)
      requires nowMs == now % TWO_32
      modifies this
      ensures (View(), ok) == ScaleLoop.Initialize(old(View()), i, now)
    {
      var interrupted := (converter.Uninitialized? || converter.Disconnected?) && session.Failed?;
      var interruptedPurpose := purpose;
      ClearStatus();
      failures := 0;
      if interrupted { purpose, session := interruptedPurpose, Failed; }
      converter := Starting;
      if i.Misconfigured? {
        SetError(Fault);
        return false;
      }
      calibrated, zeroed := i.stored, i.stored;
      if i.ConverterAbsent? {
        SetError(Disconnected);
        return false;
      }
      if i.NotCalibrating? {
        SetError(Fault);
        return false;
      }
      ready, converter, lastSampleMs := true, Sampling, nowMs;
      sampledAt := now;
      ok := true;
    }

    method RecordPollFailure()
      modifies this
      ensures View() == ScaleLoop.RecordPollFailure(old(View()))
    {
      SetError(Disconnected);
      failures := if failures + 1 < FAILED_POLLS then failures + 1 else FAILED_POLLS;
      if failures >= FAILED_POLLS { ready := false; }
    }

    method AdvanceMeasurement(settled: bool, nowMs: nat, ghost now: nat)
      requires nowMs == now % TWO_32
      modifies this
      ensures View() == Advance(old(View()), settled, now, config)
    {
      if !session.Settling? || startedMs.None? { return; }
      if settled {
        if purpose.Weigh? {
          session, startedMs := Completed, None;
        } else {
          session := Ready;
        }
        return;
      }
      if Elapsed32(nowMs, startedMs.value) >= config.measurementTimeout {
        if zeroPending { zeroed, zeroPending := false, false; }
        session, startedMs := TimedOut, None;
      }
    }

    method Poll(p: Polling, nowMs: nat, ghost now: nat)
      requires nowMs == now % TWO_32
      modifies this
      ensures View() == ScaleLoop.Poll(old(View()), p, now, config)
    {
      hide Advance; hide ScaleLoop.RecordPollFailure;
      if !ready { return; }
      match p
      case Broken => RecordPollFailure();
      case NoSample => if Elapsed32(nowMs, lastSampleMs) > config.sampleTimeout { RecordPollFailure(); }
      case Sample(settled) =>
        failures, lastSampleMs, converter := 0, nowMs, Sampling;
        sampledAt := now;
        AdvanceMeasurement(settled, nowMs, now);
    }

    method BeginMeasurement(wanted: Purpose, b: Beginning, nowMs: nat, ghost now: nat) returns (ok: bool)
      requires nowMs == now % TWO_32
      modifies this
      ensures (View(), ok) == ScaleLoop.BeginMeasurement(old(View()), wanted, b, now)
    {
      if !ready || MeasurementActive() { return false; }
      if wanted.Weigh? && (!calibrated || !zeroed) { return false; }
      if wanted.Tare? {
        if calibrated && zeroed && b.loaded { return false; }
        if !b.offsetCalibrated {
          zeroed := false;
          return false;
        }
        zeroPending := true;
      }
      session, purpose, startedMs := Settling, wanted, Some(nowMs);
      ok := true;
    }

    method Tare(f: Finishing) returns (ok: bool)
      modifies this
      ensures (View(), ok) == FinishTare(old(View()), f)
    {
      if f.Unstable? {
        FailActiveMeasurement();
        return false;
      }
      zeroPending, zeroed := false, true;
      if calibrated && f.SaveFails? {
        FailActiveMeasurement();
        return false;
      }
      if session.Ready? && purpose.Tare? { session, startedMs := Completed, None; }
      ok := true;
    }

    method Calibrate(f: Finishing) returns (ok: bool)
      modifies this
      ensures (View(), ok) == FinishCalibration(old(View()), f)
    {
      if f.Unstable? {
        FailActiveMeasurement();
        return false;
      }
      zeroed, calibrated := true, true;
      if f.SaveFails? {
        FailActiveMeasurement();
        return false;
      }
      converter := Sampling;
      if session.Ready? && purpose.Calibration? { session, startedMs := Completed, None; }
      ok := true;
    }
  }

  /** The command queue on its service, with the state the loop itself keeps. */
  class ScaleCommandQueue {
    const scale: ScaleService
    var initialized: bool
    var lastAttemptMs: nat
    var queue: seq<Command>
    var active: Option<Command>
    var receipts: seq<Receipt>
    var next: nat
    ghost var since: nat

    constructor (scale: ScaleService)
      ensures this.scale == scale && !initialized && queue == [] && active == None && receipts == [] && next == 0
    {
      this.scale := scale;
      initialized, lastAttemptMs, queue, active := false, 0, [], None;
      receipts, next, since := [], 0, 0;
    }

    ghost function View(): Loop
      reads this, scale
    {
      Loop(scale.View(), initialized, lastAttemptMs, queue, active, since, receipts, next)
    }

    method Submit(purpose: Purpose, nowMs: nat, ghost now: nat) returns (accepted: bool)
      requires nowMs == now % TWO_32
      modifies this
      ensures View() == ScaleLoop.Submit(old(View()), purpose, now)
      ensures accepted <==> |old(queue)| < QUEUE_DEPTH
    {
      var id := next;
      next := next + 1;
      accepted := |queue| < QUEUE_DEPTH;
      if accepted {
        queue := queue + [Command(id, purpose, nowMs)];
      } else {
        receipts := receipts + [Receipt(id, false)];
      }
    }

    method ProcessOne(t: Tick, nowMs: nat)
      requires nowMs == t.now % TWO_32
      modifies this, scale
      ensures View() == ScaleLoop.ProcessOne(old(View()), t)
    {
      hide FinishTare; hide FinishCalibration; hide ScaleLoop.BeginMeasurement; hide Elapsed32;
      if active.Some? {
        ProcessActive(t);
        return;
      }
      if queue == [] { return; }
      var c := queue[0];
      queue := queue[1..];
      if Elapsed32(nowMs, c.enqueuedMs) > COMMAND_EXPIRY_MS || (c.purpose.Weigh? && t.refused) {
        receipts := receipts + [Receipt(c.id, false)];
        return;
      }
      var started := scale.BeginMeasurement(c.purpose, t.beginning, nowMs, t.now);
      if !started {
        receipts := receipts + [Receipt(c.id, false)];
        return;
      }
      active := Some(c);
      since := t.now;
    }

    method ProcessActive(t: Tick)
      requires active.Some?
      modifies this, scale
      ensures View() == ScaleLoop.ProcessActive(old(View()), t)
    {
      hide FinishTare; hide FinishCalibration;
      var c := active.value;
      if scale.session.TimedOut? || scale.session.Failed? {
        receipts := receipts + [Receipt(c.id, false)];
        active := None;
        return;
      }
      if c.purpose.Weigh? && scale.session.Completed? {
        receipts := receipts + [Receipt(c.id, true)];
        active := None;
        return;
      }
      if !scale.session.Ready? { return; }
      var ok: bool;
      if c.purpose.Tare? {
        ok := scale.Tare(t.finishing);
      } else {
        ok := scale.Calibrate(t.finishing);
      }
      receipts := receipts + [Receipt(c.id, ok)];
      active := None;
    }

    /** One iteration of the scale task. */
    method Iterate(t: Tick, nowMs: nat)
      requires nowMs == t.now % TWO_32
      modifies this, scale
      ensures View() == ScaleLoop.Iterate(old(View()), t, scale.config)
    {
      hide ScaleLoop.Initialize; hide ScaleLoop.Poll; hide ScaleLoop.Reconfigure; hide ScaleLoop.ProcessOne;
      hide Elapsed32;
      if t.hardware.Some? {
        scale.Reconfigure();
        initialized := false;
        if t.hardware.value { initialized := scale.Initialize(t.initialization, nowMs, t.now); }
        lastAttemptMs := nowMs;
      }
      if !initialized {
        if Elapsed32(nowMs, lastAttemptMs) >= RETRY_INTERVAL_MS {
          lastAttemptMs := nowMs;
          initialized := scale.Initialize(t.initialization, nowMs, t.now);
        }
      } else {
        scale.Poll(t.polling, nowMs, t.now);
        if !scale.ready && scale.converter.Disconnected? {
          initialized := false;
          lastAttemptMs := nowMs;
        }
      }
      ProcessOne(t, nowMs);
    }
  }
}
