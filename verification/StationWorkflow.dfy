/**
 The workflow and the tag hand-off as objects. Every method of the workflow is
 one locked region; `Observe` strings the hand-off's regions together.
*/
module StationWorkflow {
  import opened Prelude
  import opened SpoolLookup

  class Station {
    var state: Workflow

    constructor ()
      ensures state == INITIAL.w
    {
      state := INITIAL.w;
    }

    method Clear()
      modifies this
      ensures state == SpoolLookup.Clear(old(state))
    {
      var kept := state.spoolman;
      var generation := state.next;
      state := Workflow(generation, generation + 1, AwaitingSpool, false, false, 0, None, None, kept, false, None);
    }

    method BeginIdentifiedSpool(uid: Uid, uidOnly: bool) returns (generation: nat)
      modifies this
      ensures state == BeginIdentified(old(state), uid, uidOnly) && generation == state.generation
    {
      generation := state.next;
      state := Workflow(generation, generation + 1, Resolving, !uidOnly, uidOnly, uid, None, None, state.spoolman,
                        false, None);
    }

    method AcceptIdentifiedSpool(generation: nat, uid: Uid, weight: Option<int>) returns (accepted: bool)
      modifies this
      ensures state == EnterLookup(old(state), generation, uid, weight)
      ensures accepted <==> Addresses(old(state), generation, uid)
    {
      if state.generation != generation || !(state.available || state.uidOnly) || state.uid != uid { return false; }
      if weight.Some? { state := state.(weight := weight); }
      state := state.(stage := Resolving);
      accepted := true;
    }

    method FinishLookup(generation: nat, uid: Uid, o: Outcome)
      modifies this
      ensures state == LandLookup(old(state), generation, uid, o)
    {
      if state.generation != generation { return; }
      if o.Failed? {
        state := state.(stage := Unavailable, spoolman := if o.connection then Offline else Unknown,
                        unreachable := o.connection);
        return;
      }
      state := state.(spoolman := Online);
      if state.uidOnly {
        if !o.Matched? {
          state := state.(stage := NotFound);
          return;
        }
        state := state.(available := true);
      }
      if o.Ambiguous? {
        state := state.(stage := SelectionRequired);
        return;
      }
      if !o.Matched? {
        state := state.(stage := NotFound);
        return;
      }
      state := state.(available := true, spool := Some(o.spool), resolvedFor := Some(uid), stage := SpoolReady);
    }

    method AttachPhysicalWeight(generation: nat, weight: int)
      modifies this
      ensures state == AttachWeight(old(state), generation, weight)
    {
      if state.generation != generation || !(state.available || state.uidOnly) { return; }
      state := state.(weight := Some(weight));
    }

    method BeginLookupRetry(generation: nat) returns (begun: bool)
      modifies this
      ensures (state, begun) == BeginRetry(old(state), generation)
    {
      if state.generation != generation || !state.stage.Unavailable? || !state.spoolman.Online? || !state.unreachable {
        return false;
      }
      state := state.(stage := Resolving);
      begun := true;
    }

    method AbortLookupRetry(generation: nat)
      modifies this
      ensures state == AbortRetry(old(state), generation)
    {
      if state.generation == generation && state.stage.Resolving? { state := state.(stage := Unavailable); }
    }

    method FailResolution(generation: nat, connection: bool)
      modifies this
      ensures state == SpoolLookup.FailResolution(old(state), generation, connection)
    {
      if state.generation != generation || !state.stage.Resolving? { return; }
      state := state.(stage := Unavailable, spoolman := Unknown, unreachable := connection);
    }

    method FinishAssignment(generation: nat, verified: bool)
      modifies this
      ensures state == if verified then CompleteAssignment(old(state), generation) else old(state)
    {
      if state.generation != generation { return; }
      if verified { state := state.(stage := AssignmentComplete); }
    }
  }

  /** The tag as one observation reports it. */
  datatype Seen = Seen(tag: nat, uid: Uid, uidOnly: bool)

  /** One observation with no other thread in between. */
  function Observed(x: World, seen: Option<Seen>, weight: Option<int>, queued: bool): World {
    if seen.None? then Next(x, SeeNothing)
    else
      var y := Next(x, SeeTag(seen.value.tag, seen.value.uid, seen.value.uidOnly));
      if !y.h.submitted then Next(y, Submit(weight, queued))
      else
        var z := if weight.Some? then Next(y, Attach(weight.value)) else y;
        var r := Next(z, TryRetry);
        if r.h.turn.Retrying? then Next(r, SubmitRetry(queued)) else r
  }

  lemma ObservedKeeps(x: World, seen: Option<Seen>, weight: Option<int>, queued: bool)
    requires Inv(x)
    ensures Inv(Observed(x, seen, weight, queued))
  {
    hide Inv; hide Next;
    if seen.None? {
      NextKeeps(x, SeeNothing);
    } else {
      var y := Next(x, SeeTag(seen.value.tag, seen.value.uid, seen.value.uidOnly));
      NextKeeps(x, SeeTag(seen.value.tag, seen.value.uid, seen.value.uidOnly));
      NextKeeps(y, Submit(weight, queued));
      var z := if weight.Some? then Next(y, Attach(weight.value)) else y;
      if weight.Some? { NextKeeps(y, Attach(weight.value)); }
      NextKeeps(z, TryRetry);
      NextKeeps(Next(z, TryRetry), SubmitRetry(queued));
    }
  }

  class NfcWorkflowHandoff {
    const workflow: Station
    var h: Handoff
    var jobs: seq<Job>
    ghost var worker: Worker

    constructor (workflow: Station)
      ensures this.workflow == workflow && h == INITIAL.h && jobs == [] && worker == Free
    {
      this.workflow := workflow;
      h, jobs, worker := INITIAL.h, [], Free;
    }

    ghost function View(now: nat): World
      reads this, workflow
    {
      World(workflow.state, h, jobs, worker, now)
    }

    method Queue(job: Job, queued: bool) returns (ok: bool)
      modifies `jobs
      ensures ok == queued && jobs == if queued then old(jobs) + [job] else old(jobs)
    {
      ok := queued;
      if queued { jobs := jobs + [job]; }
    }

    method CurrentSpacing() returns (spacing: nat)
      ensures spacing == Spacing(h.retries)
    {
      spacing := RETRY_INTERVAL_MS;
      for i := 0 to h.retries
        invariant spacing == Spacing(i)
      {
        spacing := spacing * 3;
      }
    }

    /** `queued` is the backend queue's answer to a submission. */
    method Observe(seen: Option<Seen>, weight: Option<int>, queued: bool, now: nat)
      requires h.turn.Resting?
      modifies this, workflow
      ensures View(now) == Observed(old(View(now)), seen, weight, queued)
    {
      hide Elapsed32; hide Spacing;
      if seen.None? {
        if h.tag.Some? { workflow.Clear(); }
        h := h.(tag := None, submitted := false, weighed := false, retries := 0, attempts := []);
        return;
      }
      if h.tag != Some(seen.value.tag) {
        var generation := workflow.BeginIdentifiedSpool(seen.value.uid, seen.value.uidOnly);
        h := Handoff(Some(seen.value.tag), seen.value.uid, generation, false, false, 0, h.lastSubmitMs, Resting, []);
      }
      ghost var appeared := View(now);
      assert appeared == Next(old(View(now)), SeeTag(seen.value.tag, seen.value.uid, seen.value.uidOnly));
      if !h.submitted {
        var ok := Queue(Job(h.generation, h.uid, weight), queued);
        if ok { h := h.(submitted := true, lastSubmitMs := now % TWO_32, weighed := weight.Some?, attempts := [now]); }
        return;
      }
      if weight.Some? && !h.weighed {
        workflow.AttachPhysicalWeight(h.generation, weight.value);
        h := h.(weighed := true);
      }
      Retry(queued, now);
    }

    method Retry(queued: bool, now: nat)
      requires h.turn.Resting? && h.tag.Some? && h.submitted
      modifies this, workflow
      ensures var r := Next(old(View(now)), TryRetry);
              View(now) == if r.h.turn.Retrying? then Next(r, SubmitRetry(queued)) else r
    {
      hide Elapsed32; hide Spacing;
      var spacing := CurrentSpacing();
      if h.retries >= MAX_RETRIES || Elapsed32(now % TWO_32, h.lastSubmitMs) < spacing { return; }
      var begun := workflow.BeginLookupRetry(h.generation);
      if !begun { return; }
      h := h.(lastSubmitMs := now % TWO_32, retries := h.retries + 1, turn := Retrying, attempts := h.attempts + [now]);
      var ok := Queue(Job(h.generation, h.uid, None), queued);
      if !ok { workflow.AbortLookupRetry(h.generation); }
      h := h.(turn := Resting);
    }
  }
}
