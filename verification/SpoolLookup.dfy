/**
 Identifying the spool on the station: the workflow under its lock, the hand-off
 that queues lookups, and the backend worker that runs them.
*/
module SpoolLookup {
  import opened Prelude

  // Every locked region is one step; tags may change, weights arrive and the
  // backend be probed between any two of them.

  const RETRY_INTERVAL_MS: nat := 10000
  const MAX_RETRIES: nat := 3

  type Uid = nat
  type SpoolId = nat

  datatype Stage =
    | AwaitingSpool | Resolving | Unavailable | NotFound | SelectionRequired | SpoolReady | AssignmentComplete

  datatype Availability = Unknown | Online | Offline

  /** `resolvedFor` is the UID the recorded spool was looked up for; the
      firmware does not keep it. */
  datatype Workflow = Workflow(
    generation: nat, next: nat, stage: Stage, available: bool, uidOnly: bool, uid: Uid, weight: Option<int>,
    spool: Option<SpoolId>, spoolman: Availability, unreachable: bool, resolvedFor: Option<Uid>)

  datatype Outcome = Failed(connection: bool) | Matched(spool: SpoolId) | Ambiguous | NoMatch

  // ---------------------------------------------------------------- the locked regions

  function Clear(w: Workflow): Workflow {
    Workflow(w.next, w.next + 1, AwaitingSpool, false, false, 0, None, None, w.spoolman, false, None)
  }

  function BeginIdentified(w: Workflow, uid: Uid, uidOnly: bool): Workflow {
    Workflow(w.next, w.next + 1, Resolving, !uidOnly, uidOnly, uid, None, None, w.spoolman, false, None)
  }

  predicate Addresses(w: Workflow, generation: nat, uid: Uid) {
    w.generation == generation && (w.available || w.uidOnly) && w.uid == uid
  }

  function EnterLookup(w: Workflow, generation: nat, uid: Uid, weight: Option<int>): Workflow {
    if !Addresses(w, generation, uid) then w
    else w.(stage := Resolving, weight := if weight.Some? then weight else w.weight)
  }

  function LandLookup(w: Workflow, generation: nat, uid: Uid, o: Outcome): Workflow {
    if w.generation != generation then w
    else match o
      case Failed(connection) =>
        w.(stage := Unavailable, spoolman := if connection then Offline else Unknown, unreachable := connection)
      case Matched(spool) =>
        w.(spoolman := Online, available := true, spool := Some(spool), resolvedFor := Some(uid), stage := SpoolReady)
      case Ambiguous =>
        if w.uidOnly then w.(spoolman := Online, stage := NotFound)
        else w.(spoolman := Online, stage := SelectionRequired)
      case NoMatch => w.(spoolman := Online, stage := NotFound)
  }

  function AttachWeight(w: Workflow, generation: nat, weight: int): Workflow {
    if w.generation != generation || !(w.available || w.uidOnly) then w else w.(weight := Some(weight))
  }

  function BeginRetry(w: Workflow, generation: nat): (Workflow, bool) {
    if w.generation != generation || !w.stage.Unavailable? || !w.spoolman.Online? || !w.unreachable then (w, false)
    else (w.(stage := Resolving), true)
  }

  function AbortRetry(w: Workflow, generation: nat): Workflow {
    if w.generation == generation && w.stage.Resolving? then w.(stage := Unavailable) else w
  }

  function FailResolution(w: Workflow, generation: nat, connection: bool): Workflow {
    if w.generation != generation || !w.stage.Resolving? then w
    else w.(stage := Unavailable, spoolman := Unknown, unreachable := connection)
  }

  /** A verified assignment belongs to the tag it was requested for. */
  function CompleteAssignment(w: Workflow, generation: nat): Workflow {
    if w.generation != generation then w else w.(stage := AssignmentComplete)
  }

  function ApplyReadback(w: Workflow, generation: nat, spool: SpoolId, weight: Option<int>): Workflow {
    if w.generation != generation || w.spool != Some(spool) then w
    else w.(weight := if weight.Some? then weight else w.weight)
  }

  // ---------------------------------------------------------------- the hand-off

  datatype Turn = Resting | Retrying

  /** `attempts` are the times of this placement's lookup attempts on a clock
      that does not wrap; the firmware keeps only the last one, modulo 2^32. */
  datatype Handoff = Handoff(
    tag: Option<nat>, uid: Uid, generation: nat, submitted: bool, weighed: bool, retries: nat,
    lastSubmitMs: nat, turn: Turn, attempts: seq<nat>)

  function Spacing(retries: nat): nat {
    if retries == 0 then RETRY_INTERVAL_MS else 3 * Spacing(retries - 1)
  }

  datatype Job = Job(generation: nat, uid: Uid, weight: Option<int>)

  /** What the backend worker is doing. */
  datatype Worker =
    | Free | Looking(job: Job) | Confirming(generation: nat, uid: Uid, spool: SpoolId) | Assigning(generation: nat)

  datatype World = World(w: Workflow, h: Handoff, jobs: seq<Job>, worker: Worker, now: nat)

  datatype Step =
    | SeeTag(tag: nat, uid: Uid, uidOnly: bool)
    | SeeNothing
    | Submit(weight: Option<int>, queued: bool)
    | Attach(grams: int)
    | TryRetry
    | SubmitRetry(queued: bool)
    | Wait(ms: nat)
    | Take
    | Drop(connection: bool)
    | Land(outcome: Outcome)
    | Confirm(spool: SpoolId)
    | Assign
    | Assigned(verified: bool)
    | Readback(generation: nat, spool: SpoolId, weight: Option<int>)
    | Probe(online: bool)
    | ClearElsewhere

  const INITIAL := World(
    Workflow(0, 1, AwaitingSpool, false, false, 0, None, None, Unknown, false, None),
    Handoff(None, 0, 0, false, false, 0, 0, Resting, []), [], Free, 0)

  /** The tag is gone: the workflow is cleared and the placement forgotten. */
  function Vanish(x: World): World {
    x.(w := if x.h.tag.Some? then Clear(x.w) else x.w,
       h := x.h.(tag := None, submitted := false, weighed := false, retries := 0, attempts := []))
  }

  function Appear(x: World, tag: nat, uid: Uid, uidOnly: bool): World {
    if x.h.tag == Some(tag) then x
    else
      var w := BeginIdentified(x.w, uid, uidOnly);
      x.(w := w, h := Handoff(Some(tag), uid, w.generation, false, false, 0, x.h.lastSubmitMs, Resting, []))
  }

  function FirstSubmit(x: World, weight: Option<int>, queued: bool): World {
    if x.h.tag.None? || x.h.submitted || !queued then x
    else
      x.(h := x.h.(submitted := true, weighed := weight.Some?, lastSubmitMs := x.now % TWO_32, attempts := [x.now]),
         jobs := x.jobs + [Job(x.h.generation, x.h.uid, weight)])
  }

  function StartRetry(x: World): World {
    if x.h.tag.None? || !x.h.submitted || x.h.retries >= MAX_RETRIES
       || Elapsed32(x.now % TWO_32, x.h.lastSubmitMs) < Spacing(x.h.retries) then x
    else
      var (w, begun) := BeginRetry(x.w, x.h.generation);
      if !begun then x
      else x.(w := w, h := x.h.(lastSubmitMs := x.now % TWO_32, retries := x.h.retries + 1, turn := Retrying,
                                attempts := x.h.attempts + [x.now]))
  }

  function FinishRetry(x: World, queued: bool): World {
    if queued then x.(h := x.h.(turn := Resting), jobs := x.jobs + [Job(x.h.generation, x.h.uid, None)])
    else x.(h := x.h.(turn := Resting), w := AbortRetry(x.w, x.h.generation))
  }

  function Next(x: World, e: Step): World {
    match e
    case SeeTag(tag, uid, uidOnly) => if x.h.turn.Resting? then Appear(x, tag, uid, uidOnly) else x
    case SeeNothing => if x.h.turn.Resting? then Vanish(x) else x
    case Submit(weight, queued) => if x.h.turn.Resting? then FirstSubmit(x, weight, queued) else x
    case Attach(grams) =>
      if x.h.turn.Resting? && x.h.tag.Some? && x.h.submitted && !x.h.weighed then
        x.(w := AttachWeight(x.w, x.h.generation, grams), h := x.h.(weighed := true))
      else x
    case TryRetry => if x.h.turn.Resting? then StartRetry(x) else x
    case SubmitRetry(queued) => if x.h.turn.Retrying? then FinishRetry(x, queued) else x
    case Wait(ms) => x.(now := x.now + ms)
    case Take =>
      if x.worker.Free? && x.jobs != [] then
        var j := x.jobs[0];
        if Addresses(x.w, j.generation, j.uid) then
          x.(jobs := x.jobs[1..], worker := Looking(j), w := EnterLookup(x.w, j.generation, j.uid, j.weight))
        else x.(jobs := x.jobs[1..])
      else x
    case Drop(connection) =>
      if x.worker.Free? && x.jobs != [] then
        x.(jobs := x.jobs[1..], w := FailResolution(x.w, x.jobs[0].generation, connection))
      else x
    case Land(outcome) =>
      (match x.worker
       case Looking(j) => x.(worker := Free, w := LandLookup(x.w, j.generation, j.uid, outcome))
       case Confirming(g, u, s) => x.(worker := Free, w := LandLookup(x.w, g, u, Matched(s)))
       case _ => x)
    case Confirm(spool) =>
      if x.worker.Free? && x.w.available then
        x.(worker := Confirming(x.w.generation, x.w.uid, spool),
           w := EnterLookup(x.w, x.w.generation, x.w.uid, x.w.weight))
      else x
    case Assign => if x.worker.Free? && x.w.spool.Some? then x.(worker := Assigning(x.w.generation)) else x
    case Assigned(verified) =>
      (match x.worker
       case Assigning(g) => x.(worker := Free, w := if verified then CompleteAssignment(x.w, g) else x.w)
       case _ => x)
    case Readback(g, s, weight) => x.(w := ApplyReadback(x.w, g, s, weight))
    case Probe(online) => x.(w := x.w.(spoolman := if online then Online else Offline))
    case ClearElsewhere => x.(w := Clear(x.w))
  }

  // ---------------------------------------------------------------- invariant

  function InFlight(x: World, g: nat): nat {
    JobsFor(x.jobs, g) + (if x.worker.Looking? && x.worker.job.generation == g then 1 else 0)
  }

  function JobsFor(jobs: seq<Job>, g: nat): nat {
    if jobs == [] then 0 else (if jobs[0].generation == g then 1 else 0) + JobsFor(jobs[1..], g)
  }

  lemma {:induction false} JobsAppend(jobs: seq<Job>, j: Job, g: nat)
    ensures JobsFor(jobs + [j], g) == JobsFor(jobs, g) + (if j.generation == g then 1 else 0)
  {
    if jobs == [] {
      assert [] + [j] == [j];
    } else {
      assert (jobs + [j])[1..] == jobs[1..] + [j];
      JobsAppend(jobs[1..], j, g);
    }
  }

  /** A generation that was never handed out has no jobs. */
  predicate Numbered(x: World) {
    && x.w.generation < x.w.next && x.h.generation < x.w.next
    && (forall i :: 0 <= i < |x.jobs| ==> x.jobs[i].generation < x.w.next)
    && (x.worker.Looking? ==> x.worker.job.generation < x.w.next)
    && (x.worker.Confirming? ==> x.worker.generation < x.w.next)
    && (x.worker.Assigning? ==> x.worker.generation < x.w.next)
  }

  lemma {:induction false} NoJobsFor(jobs: seq<Job>, g: nat)
    requires forall i :: 0 <= i < |jobs| ==> jobs[i].generation != g
    ensures JobsFor(jobs, g) == 0
  {
    if jobs != [] { NoJobsFor(jobs[1..], g); }
  }

  /** A lookup in flight for the recorded generation is for the recorded UID. */
  predicate Fenced(x: World) {
    && (x.w.spool.Some? ==> x.w.resolvedFor == Some(x.w.uid))
    && (x.w.stage.SpoolReady? || x.w.stage.AssignmentComplete? ==> x.w.spool.Some?)
    && (x.worker.Looking? && x.worker.job.generation == x.w.generation ==> x.worker.job.uid == x.w.uid)
    && (x.worker.Confirming? && x.worker.generation == x.w.generation ==> x.worker.uid == x.w.uid)
    && (x.worker.Assigning? && x.worker.generation == x.w.generation ==> x.w.spool.Some?)
  }

  /** The hand-off never has two lookups of one placement under way. */
  predicate Single(x: World) {
    && InFlight(x, x.h.generation) <= 1
    && (InFlight(x, x.h.generation) == 1 ==> x.h.turn.Resting?)
    && (x.w.generation == x.h.generation && x.w.stage.Unavailable? ==> InFlight(x, x.h.generation) == 0)
    && (x.h.turn.Retrying? && x.w.generation == x.h.generation ==> !x.w.stage.Unavailable?)
    && (x.h.tag.Some? && !x.h.submitted ==>
          InFlight(x, x.h.generation) == 0 && (x.w.generation == x.h.generation ==> !x.w.stage.Unavailable?))
    && (x.h.turn.Retrying? ==> x.h.tag.Some? && x.h.submitted)
  }

  predicate Paced(x: World) {
    var a := x.h.attempts;
    && (if x.h.tag.Some? && x.h.submitted then |a| == x.h.retries + 1 else a == [] && x.h.retries == 0)
    && x.h.retries <= MAX_RETRIES
    && (a != [] ==> a[|a| - 1] <= x.now && x.h.lastSubmitMs == a[|a| - 1] % TWO_32)
    && (forall i :: 0 <= i < |a| - 1 ==> a[i + 1] >= a[i] + Spacing(i))
  }

  predicate Inv(x: World) { Numbered(x) && Fenced(x) && Single(x) && Paced(x) }

  lemma AppearKeeps(x: World, tag: nat, uid: Uid, uidOnly: bool)
    requires Inv(x) && x.h.turn.Resting?
    ensures Inv(Appear(x, tag, uid, uidOnly))
  {
    if x.h.tag != Some(tag) { NoJobsFor(x.jobs, x.w.next); }
  }

  lemma VanishKeeps(x: World)
    requires Inv(x) && x.h.turn.Resting?
    ensures Inv(Vanish(x))
  {
  }

  lemma FirstSubmitKeeps(x: World, weight: Option<int>, queued: bool)
    requires Inv(x) && x.h.turn.Resting?
    ensures Inv(FirstSubmit(x, weight, queued))
  {
    JobsAppend(x.jobs, Job(x.h.generation, x.h.uid, weight), x.h.generation);
  }

  lemma RetryKeeps(x: World)
    requires Inv(x) && x.h.turn.Resting?
    ensures Inv(StartRetry(x))
  {
    var y := StartRetry(x);
    if y != x {
      var a := x.h.attempts;
      LaterBy(x.now, a[|a| - 1], Spacing(x.h.retries));
      hide Elapsed32; hide Spacing; hide JobsFor;
    }
  }

  lemma LaterBy(now: nat, since: nat, spacing: nat)
    requires since <= now && Elapsed32(now % TWO_32, since % TWO_32) >= spacing
    ensures now >= since + spacing
  {
    var a, b := now % TWO_32, since % TWO_32;
    assert a - b == TWO_32 * ((a - b) / TWO_32) + Elapsed32(a, b);
    assert now - since == TWO_32 * (now / TWO_32 - since / TWO_32) + (a - b);
  }

  lemma FinishRetryKeeps(x: World, queued: bool)
    requires Inv(x) && x.h.turn.Retrying?
    ensures Inv(FinishRetry(x, queued))
  {
    JobsAppend(x.jobs, Job(x.h.generation, x.h.uid, None), x.h.generation);
  }

  lemma TakeKeeps(x: World, e: Step)
    requires Inv(x) && (e.Take? || e.Drop?)
    ensures Inv(Next(x, e))
  {
    if x.worker.Free? && x.jobs != [] {
      assert JobsFor(x.jobs, x.h.generation)
          == (if x.jobs[0].generation == x.h.generation then 1 else 0) + JobsFor(x.jobs[1..], x.h.generation);
      hide JobsFor;
    }
  }

  lemma WorkerKeeps(x: World, e: Step)
    requires Inv(x) && (e.Land? || e.Confirm? || e.Assign? || e.Assigned? || e.Readback?)
    ensures Inv(Next(x, e))
  {
    PacedKeeps(x, e);
    hide JobsFor; hide Paced;
  }

  lemma PacedKeeps(x: World, e: Step)
    requires Paced(x) && (e.Land? || e.Confirm? || e.Assign? || e.Assigned? || e.Readback?)
    ensures Paced(Next(x, e))
  {
  }

  lemma OtherKeeps(x: World, e: Step)
    requires Inv(x) && (e.Attach? || e.Wait? || e.Probe? || e.ClearElsewhere?)
    ensures Inv(Next(x, e))
  {
    hide JobsFor; hide Elapsed32;
  }

  lemma NextKeeps(x: World, e: Step)
    requires Inv(x)
    ensures Inv(Next(x, e))
  {
    hide Inv; hide Appear; hide Vanish; hide FirstSubmit; hide StartRetry; hide FinishRetry;
    match e
    case SeeTag(tag, uid, uidOnly) => if x.h.turn.Resting? { AppearKeeps(x, tag, uid, uidOnly); }
    case SeeNothing => if x.h.turn.Resting? { VanishKeeps(x); }
    case Submit(weight, queued) => if x.h.turn.Resting? { FirstSubmitKeeps(x, weight, queued); }
    case TryRetry => if x.h.turn.Resting? { RetryKeeps(x); }
    case SubmitRetry(queued) => if x.h.turn.Retrying? { FinishRetryKeeps(x, queued); }
    case Take => TakeKeeps(x, e);
    case Drop(_) => TakeKeeps(x, e);
    case Land(_) => WorkerKeeps(x, e);
    case Confirm(_) => WorkerKeeps(x, e);
    case Assign => WorkerKeeps(x, e);
    case Assigned(_) => WorkerKeeps(x, e);
    case Readback(_, _, _) => WorkerKeeps(x, e);
    case _ => OtherKeeps(x, e);
  }

  function Run(steps: seq<Step>): World {
    if steps == [] then INITIAL else Next(Run(steps[..|steps| - 1]), steps[|steps| - 1])
  }

  lemma {:induction false} RunKeeps(steps: seq<Step>)
    ensures Inv(Run(steps))
  {
    hide Next;
    if steps != [] {
      hide Inv;
      RunKeeps(steps[..|steps| - 1]);
      NextKeeps(Run(steps[..|steps| - 1]), steps[|steps| - 1]);
    }
  }

  // ---------------------------------------------------------------- what it means

  /** A step of the worker changes the workflow only for the generation it was
      started for; anything else is dropped. */
  lemma LookupsWriteOnlyTheirOwn(x: World, e: Step)
    requires e.Take? || e.Drop? || e.Land? || e.Assigned?
    ensures Next(x, e).w != x.w ==>
              && (e.Take? || e.Drop? ==> x.jobs != [] && x.jobs[0].generation == x.w.generation)
              && (e.Land? ==> (x.worker.Looking? && x.worker.job.generation == x.w.generation)
                              || (x.worker.Confirming? && x.worker.generation == x.w.generation))
              && (e.Assigned? ==> x.worker.Assigning? && x.worker.generation == x.w.generation)
  {
  }

  /** In every interleaving, a spool shown as ready or assigned was looked up
      for the UID that is recorded with it. */
  lemma ReadySpoolMatchesTheTag(steps: seq<Step>)
    ensures var w := Run(steps).w;
            w.stage.SpoolReady? || w.stage.AssignmentComplete? ==> w.spool.Some? && w.resolvedFor == Some(w.uid)
  {
    RunKeeps(steps);
    hide Run;
  }

  /** One placement makes at most four lookup attempts, the later ones at least
      10, 30 and 90 seconds after their predecessors, and never has two lookups
      under way. */
  lemma LookupsAreSpaced(steps: seq<Step>)
    ensures var x := Run(steps);
            var a := x.h.attempts;
            && |a| <= 4 && InFlight(x, x.h.generation) <= 1
            && (|a| > 1 ==> a[1] >= a[0] + 10000) && (|a| > 2 ==> a[2] >= a[1] + 30000)
            && (|a| > 3 ==> a[3] >= a[2] + 90000)
            && (x.h.tag.Some? && x.h.submitted ==> |a| == x.h.retries + 1)
  {
    RunKeeps(steps);
    hide Run;
    assert Spacing(0) == 10000 && Spacing(1) == 30000 && Spacing(2) == 90000;
  }

  /** A tag that changes while a lookup runs keeps the new tag's state: what the
      lookup finds is discarded. */
  lemma ChangedTagDiscardsTheResult(x: World, tag: nat, uid: Uid, uidOnly: bool, o: Outcome)
    requires Inv(x) && x.h.turn.Resting? && x.worker.Looking? && x.h.tag != Some(tag)
    ensures var y := Next(x, SeeTag(tag, uid, uidOnly));
            Next(y, Land(o)).w == y.w && y.w.uid == uid && y.w.stage.Resolving? && y.w.spool.None?
  {
  }

  /** The stage a lookup's outcome stands for. */
  predicate Shows(w: Workflow, uid: Uid, uidOnly: bool, o: Outcome) {
    && w.uid == uid && (w.stage.SpoolReady? <==> o.Matched?)
    && (o.Matched? ==> w.spool == Some(o.spool) && w.resolvedFor == Some(uid) && w.available)
    && (w.stage.Unavailable? <==> o.Failed?) && (o.Failed? ==> w.unreachable == o.connection)
    && (w.stage.SelectionRequired? <==> o.Ambiguous? && !uidOnly)
    && (w.stage.NotFound? <==> o.NoMatch? || (o.Ambiguous? && uidOnly))
    && (o.Matched? || w.spool.None?)
  }

  /** Nothing is under way, and this tag was not there before. */
  predicate Undisturbed(x: World, tag: nat) {
    x.h.turn.Resting? && x.worker.Free? && x.jobs == [] && x.h.tag != Some(tag)
  }

  function Identify(x: World, tag: nat, uid: Uid, uidOnly: bool, weight: Option<int>, o: Outcome): World {
    Next(Next(Next(Next(x, SeeTag(tag, uid, uidOnly)), Submit(weight, true)), Take), Land(o))
  }

  /** A tag put down and looked up undisturbed ends in the stage of the lookup's
      outcome, with its own UID and weight. */
  lemma LookupIdentifies(steps: seq<Step>, tag: nat, uid: Uid, uidOnly: bool, weight: Option<int>, o: Outcome)
    requires Undisturbed(Run(steps), tag)
    ensures var y := Identify(Run(steps), tag, uid, uidOnly, weight, o);
            Shows(y.w, uid, uidOnly, o) && y.w.weight == weight && y.worker.Free? && y.jobs == []
  {
    RunKeeps(steps);
    hide Run;
  }

  function Retry(x: World, ms: nat, o: Outcome): World {
    Next(Next(Next(Next(Next(Next(x, Probe(true)), Wait(ms)), TryRetry), SubmitRetry(true)), Take), Land(o))
  }

  /** A first lookup has ended and nothing has happened since. */
  predicate FirstEnded(y: World, uid: Uid) {
    && y.h.tag.Some? && y.h.submitted && y.h.retries == 0 && y.h.turn.Resting? && y.worker.Free? && y.jobs == []
    && y.h.generation == y.w.generation && y.h.uid == y.w.uid == uid && y.h.lastSubmitMs == y.now % TWO_32
    && (y.w.available || y.w.uidOnly) && y.w.resolvedFor.None?
  }

  /** A lookup that found the backend unreachable is repeated once the backend
      answers a probe and the first interval is over, and then means the same; a
      lookup that failed otherwise is not repeated. */
  lemma UnreachableIsRetried(steps: seq<Step>, tag: nat, uid: Uid, uidOnly: bool, failure: Outcome, ms: nat, o: Outcome)
    requires Undisturbed(Run(steps), tag) && failure.Failed? && 10000 <= ms < TWO_32
    ensures var y := Identify(Run(steps), tag, uid, uidOnly, None, failure);
            Shows(Retry(y, ms, o).w, uid, uidOnly, if failure.connection then o else failure)
  {
    LookupIdentifies(steps, tag, uid, uidOnly, None, failure);
    FirstEnds(Run(steps), tag, uid, uidOnly, failure);
    hide Run; hide Identify; hide Retry;
    RetryLands(Identify(Run(steps), tag, uid, uidOnly, None, failure), uid, uidOnly, failure, ms, o);
  }

  lemma FirstEnds(x: World, tag: nat, uid: Uid, uidOnly: bool, failure: Outcome)
    requires Undisturbed(x, tag) && failure.Failed?
    ensures var y := Identify(x, tag, uid, uidOnly, None, failure);
            FirstEnded(y, uid) && y.w.uidOnly == uidOnly
  {
  }

  lemma RetryLands(y: World, uid: Uid, uidOnly: bool, failure: Outcome, ms: nat, o: Outcome)
    requires FirstEnded(y, uid) && Shows(y.w, uid, uidOnly, failure) && failure.Failed? && y.w.uidOnly == uidOnly
    requires 10000 <= ms < TWO_32
    ensures Shows(Retry(y, ms, o).w, uid, uidOnly, if failure.connection then o else failure)
  {
    ElapsedSince(y.now, ms);
    hide Elapsed32;
    assert Spacing(0) == 10000;
    hide Spacing;
    var x3 := Next(Next(Next(y, Probe(true)), Wait(ms)), TryRetry);
    if failure.connection {
      assert x3.h.turn.Retrying? && x3.w.stage.Resolving? && x3.h.generation == x3.w.generation && x3.h.uid == uid;
      var x5 := Next(Next(x3, SubmitRetry(true)), Take);
      assert x5.worker == Looking(Job(x5.w.generation, uid, None));
    } else {
      assert x3.h.turn.Resting? && x3.w == y.w.(spoolman := Online) && x3.jobs == [] && x3.worker.Free?;
    }
  }

  lemma ElapsedSince(now: nat, ms: nat)
    requires ms < TWO_32
    ensures Elapsed32((now + ms) % TWO_32, now % TWO_32) == ms
  {
    var a, b, turns := (now + ms) % TWO_32, now % TWO_32, (now + ms) / TWO_32 - now / TWO_32;
    assert a - b == ms - TWO_32 * turns;
    assert turns == 0 || turns == 1;
    assert (ms - TWO_32) % TWO_32 == ms;
  }

  /** A weight that settles while the lookup runs is kept with the spool, once. */
  lemma LaterWeightIsKept(steps: seq<Step>, tag: nat, uid: Uid, uidOnly: bool, grams: int, more: int, o: Outcome)
    requires Undisturbed(Run(steps), tag)
    ensures var y := Next(Next(Next(Run(steps), SeeTag(tag, uid, uidOnly)), Submit(None, true)), Attach(grams));
            var z := Next(Next(Next(y, Take), Attach(more)), Land(o));
            Shows(z.w, uid, uidOnly, o) && z.w.weight == Some(grams)
  {
    RunKeeps(steps);
    hide Run;
  }

  /** A spool is assigned exactly when the assignment is verified; else the
      workflow is as before. */
  lemma AssignmentIsVerified(x: World, verified: bool)
    requires x.worker.Free? && x.w.spool.Some?
    ensures var y := Next(Next(x, Assign), Assigned(verified));
            && y.worker.Free? && (verified ==> y.w.stage.AssignmentComplete? && y.w.spool == x.w.spool)
            && (!verified ==> y.w == x.w)
  {
  }
}
