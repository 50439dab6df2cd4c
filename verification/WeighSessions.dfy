/**
 Saving a measured weight: sessions begun and captured by the scale task while
 the backend updates the inventory. Each locked region is a step; the backend's
 calls lie between them.
*/
module WeighSessions {
  import opened Prelude

  datatype Phase = Idle | Measuring | Unavailable | Ready | Updating | Failed | Unchanged | Conflict | Updated

  /** None stands for a value that is missing or not finite. */
  type Grams = Option<real>

  datatype Session = Session(
    id: nat, spool: int, phase: Phase, consumed: bool, gross: Grams, tare: Grams, measured: Grams,
    canonical: Grams, difference: Grams, expectedUsed: Grams, tolerance: Grams)

  const NONE := Session(0, 0, Idle, false, None, None, None, None, None, None, None)

  predicate Valid(g: Grams) { g.Some? && g.value >= 0.0 }

  function Abs(x: real): real { if x < 0.0 then -x else x }

  // ---------------------------------------------------------------- the scale side

  function Begin(s: Session, candidate: Session): (Session, bool) {
    if s.phase.Updating? || candidate.id == 0 || candidate.id == s.id then (s, false)
    else (candidate.(consumed := false, phase := Measuring), true)
  }

  predicate Savable(s: Session, stable: bool, gross: Grams) {
    && stable && Valid(gross) && s.spool > 0 && Valid(s.tare) && Valid(s.canonical) && Valid(s.expectedUsed)
    && gross.value >= s.tare.value && Valid(s.tolerance)
  }

  function Capture(s: Session, id: nat, stable: bool, gross: Grams): Session {
    if id != s.id || !s.phase.Measuring? then s
    else if !Savable(s, stable, gross) then s.(gross := gross, phase := Unavailable)
    else
      var measured := gross.value - s.tare.value;
      s.(gross := gross, measured := Some(measured), difference := Some(measured - s.canonical.value), phase := Ready)
  }

  function Fail(s: Session, id: nat): Session {
    if s.id == id && s.phase.Measuring? then s.(phase := Failed) else s
  }

  // ---------------------------------------------------------------- the backend side

  function StartUpdate(s: Session, id: nat, restarting: bool): (Session, bool) {
    if id != s.id || !s.phase.Ready? || s.consumed then (s, false)
    else if restarting then (s.(phase := Failed), false)
    else (s.(consumed := true, phase := Updating), true)
  }

  predicate InDeadband(s: Session) {
    s.difference.Some? && s.tolerance.Some? && Abs(s.difference.value) <= s.tolerance.value
  }

  function Canonical(s: Session, remaining: Grams): Session {
    s.(canonical := remaining,
       difference := if remaining.Some? && s.measured.Some? then Some(s.measured.value - remaining.value)
                     else s.difference)
  }

  /** The inventory call: its own fence decides whether the weight is written. */
  datatype Writing = Written(remaining: Grams) | Changed | Refused

  /** Where the update thread is, with what it captured. */
  datatype Updater =
    | Nowhere
    | Checking(captured: Session)                  // asking for the capability
    | Fencing(captured: Session)                   // comparing the spool on the station
    | Deciding(captured: Session)                  // deadband, then the inventory call
    | Rereading(captured: Session, outcome: Phase) // reading the spool again after a refusal
    | Closing(captured: Session, outcome: Phase)   // about to publish the outcome

  /** One call that may change the inventory, made for accepted session `round`. */
  datatype Mutation = Mutation(round: nat, spool: int, remaining: real, gross: real, tare: real, fenced: bool)

  datatype World = World(s: Session, u: Updater, round: nat, log: seq<Mutation>)

  datatype Step =
    | BeginStep(session: Session)
    | CaptureStep(id: nat, stable: bool, gross: Grams)
    | FailStep(id: nat)
    | UpdateStep(id: nat, restarting: bool)
    | CapabilityStep(able: bool)
    | FenceStep(same: bool)
    | WriteStep(same: bool, writing: Writing)
    | RereadStep(answer: Option<Grams>)
    | CloseStep

  const INITIAL := World(NONE, Nowhere, 0, [])

  function Next(w: World, e: Step): World {
    match e
    case BeginStep(session) =>
      var (s, accepted) := Begin(w.s, session);
      if accepted then w.(s := s, round := w.round + 1) else w
    case CaptureStep(id, stable, gross) => w.(s := Capture(w.s, id, stable, gross))
    case FailStep(id) => w.(s := Fail(w.s, id))
    case UpdateStep(id, restarting) =>
      if !w.u.Nowhere? then w
      else
        var (s, started) := StartUpdate(w.s, id, restarting);
        w.(s := s, u := if started then Checking(s) else Nowhere)
    case CapabilityStep(able) =>
      if !w.u.Checking? then w
      else if able then w.(u := Fencing(w.u.captured)) else w.(u := Closing(w.u.captured, Failed))
    case FenceStep(same) =>
      if !w.u.Fencing? then w
      else if same then w.(u := Deciding(w.u.captured)) else w.(u := Closing(w.u.captured, Failed))
    case WriteStep(same, writing) => if w.u.Deciding? then Write(w, same, writing) else w
    case RereadStep(answer) =>
      if !w.u.Rereading? then w
      else w.(s := if answer.Some? then Canonical(w.s, answer.value) else w.s, u := Closing(w.u.captured, w.u.outcome))
    case CloseStep => if w.u.Closing? then w.(s := w.s.(phase := w.u.outcome), u := Nowhere) else w
  }

  /** Inside the deadband nothing is written. Otherwise the inventory is called
      once; it writes only if its last look at the fence holds. */
  function Write(w: World, same: bool, writing: Writing): World
    requires w.u.Deciding?
  {
    var c := w.u.captured;
    if InDeadband(c) then w.(u := Closing(c, Unchanged))
    else if c.measured.None? || c.gross.None? || c.tare.None? then w
    else
      var m := Mutation(w.round, c.spool, c.measured.value, c.gross.value, c.tare.value, same);
      var logged := if same && !writing.Changed? then w.(log := w.log + [m]) else w;
      if !same then w.(u := Rereading(c, Conflict))
      else match writing
        case Changed => logged.(u := Rereading(c, Conflict))
        case Refused => logged.(u := Rereading(c, Failed))
        case Written(remaining) => logged.(s := Canonical(w.s, remaining), u := Closing(c, Updated))
  }

  // ---------------------------------------------------------------- invariant

  predicate Captured(s: Session) {
    && s.gross.Some? && s.tare.Some? && s.measured == Some(s.gross.value - s.tare.value) && s.measured.value >= 0.0
    && s.difference.Some? && s.tolerance.Some? && s.spool > 0
  }

  /** The update works on the session it captured, which nothing else can replace. */
  predicate Held(w: World) {
    && (w.u.Nowhere? <==> !w.s.phase.Updating?)
    && (!w.u.Nowhere? ==>
          && w.s.consumed && w.u.captured.id == w.s.id && w.u.captured.spool == w.s.spool && Captured(w.u.captured)
          && w.s.measured == w.u.captured.measured && w.s.gross == w.u.captured.gross && w.s.tare == w.u.captured.tare)
    && (w.u.Rereading? || w.u.Closing? ==> !w.u.outcome.Updating? && !w.u.outcome.Ready? && !w.u.outcome.Measuring?)
    && (w.s.phase.Ready? ==> Captured(w.s) && !w.s.consumed)
    && (w.s.phase.Measuring? ==> !w.s.consumed)
  }

  predicate Once(w: World) {
    && (forall i :: 0 <= i < |w.log| ==>
          w.log[i].round <= w.round && w.log[i].fenced && w.log[i].spool > 0
          && w.log[i].remaining == w.log[i].gross - w.log[i].tare >= 0.0)
    && (forall i, j :: 0 <= i < j < |w.log| ==> w.log[i].round < w.log[j].round)
    && (w.log != [] && w.log[|w.log| - 1].round == w.round ==>
          w.s.consumed && !w.u.Checking? && !w.u.Fencing? && !w.u.Deciding?)
  }

  predicate Inv(w: World) { Held(w) && Once(w) }

  lemma NextKeeps(w: World, e: Step)
    requires Inv(w)
    ensures Inv(Next(w, e))
  {
    if e.WriteStep? {
      if w.u.Deciding? { WriteKeeps(w, e.same, e.writing); }
      hide Write;
    }
  }

  lemma WriteKeeps(w: World, same: bool, writing: Writing)
    requires Inv(w) && w.u.Deciding?
    ensures Inv(Write(w, same, writing))
  {
  }

  function Run(steps: seq<Step>): World {
    if steps == [] then INITIAL else Next(Run(steps[..|steps| - 1]), steps[|steps| - 1])
  }

  lemma {:induction false} RunKeeps(steps: seq<Step>)
    ensures Inv(Run(steps))
  {
    if steps != [] {
      hide Next; hide Inv;
      RunKeeps(steps[..|steps| - 1]);
      NextKeeps(Run(steps[..|steps| - 1]), steps[|steps| - 1]);
    }
  }

  /** In every interleaving each accepted session changes the inventory at most
      once, only behind a fence that held, and only by the difference of its own
      gross and empty weight, which is not negative. */
  lemma OneMutationPerSession(steps: seq<Step>, i: nat, j: nat)
    requires i < |Run(steps).log| && j < |Run(steps).log|
    ensures var log := Run(steps).log;
            && log[i].fenced && log[i].remaining == log[i].gross - log[i].tare && log[i].remaining >= 0.0
            && (i != j ==> log[i].round != log[j].round)
  {
    RunKeeps(steps);
    hide Run;
    if i < j {
      assert Run(steps).log[i].round < Run(steps).log[j].round;
    } else if j < i {
      assert Run(steps).log[j].round < Run(steps).log[i].round;
    }
  }

  /** While an update is under way, nothing the scale side does can replace or
      change the session, and the outcome is published on the one captured. */
  lemma OutcomeLandsOnItsSession(steps: seq<Step>, e: Step)
    requires !Run(steps).u.Nowhere?
    ensures var w := Run(steps);
            && w.s.id == w.u.captured.id && w.s.phase.Updating?
            && (e.BeginStep? || e.CaptureStep? || e.FailStep? || e.UpdateStep? ==> Next(w, e) == w)
            && (e.CloseStep? && w.u.Closing? ==>
                  && Next(w, e).s.id == w.u.captured.id && Next(w, e).s.phase == w.u.outcome
                  && Next(w, e).round == w.round)
  {
    RunKeeps(steps);
    hide Run;
  }

  /** Without an update under way a consumed session stays as it is until the
      next one begins. */
  lemma ConsumedSessionsRest(steps: seq<Step>, e: Step)
    requires Run(steps).u.Nowhere? && Run(steps).s.consumed
    ensures Next(Run(steps), e) == Run(steps) || (e.BeginStep? && Next(Run(steps), e).round == Run(steps).round + 1)
  {
    RunKeeps(steps);
    hide Run;
  }
}
