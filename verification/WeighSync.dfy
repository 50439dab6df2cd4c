/**
 The weigh session as the object that scale task and backend share. `Update`
 is the backend's whole call when nothing comes in between.
*/
module WeighSync {
  import opened Prelude
  import opened WeighSessions

  /** What the backend meets in one update. */
  datatype Backend = Backend(able: bool, same: bool, sameAtWrite: bool, writing: Writing, reread: Option<Grams>)

  /** The steps of one update, one after the other. */
  function WholeUpdate(w: World, id: nat, restarting: bool, b: Backend): World {
    var w1 := Next(w, UpdateStep(id, restarting));
    if w1.u.Nowhere? then w1
    else
      var w2 := Next(w1, CapabilityStep(b.able));
      var w3 := Next(w2, FenceStep(b.same));
      var w4 := Next(w3, WriteStep(b.sameAtWrite, b.writing));
      var w5 := Next(w4, RereadStep(b.reread));
      Next(w5, CloseStep)
  }

  class Sync {
    var state: Session
    ghost var round: nat
    ghost var log: seq<Mutation>

    constructor ()
      ensures View() == INITIAL
    {
      state, round, log := NONE, 0, [];
    }

    ghost function View(): World
      reads this
    {
      World(state, Nowhere, round, log)
    }

    method BeginSession(session: Session) returns (accepted: bool)
      modifies this
      ensures View() == Next(old(View()), BeginStep(session)) && accepted == Begin(old(state), session).1
    {
      if state.phase.Updating? || session.id == 0 || session.id == state.id { return false; }
      state := session.(consumed := false, phase := Measuring);
      round := round + 1;
      accepted := true;
    }

    method CaptureWeight(id: nat, stable: bool, gross: Grams)
      modifies this
      ensures View() == Next(old(View()), CaptureStep(id, stable, gross))
    {
      if id != state.id || !state.phase.Measuring? { return; }
      state := state.(gross := gross);
      var savable := stable && Valid(gross) && state.spool > 0 && Valid(state.tare) && Valid(state.canonical)
        && Valid(state.expectedUsed) && gross.value >= state.tare.value && Valid(state.tolerance);
      if !savable {
        state := state.(phase := Unavailable);
        return;
      }
      state := state.(measured := Some(gross.value - state.tare.value));
      state := state.(difference := Some(state.measured.value - state.canonical.value), phase := Ready);
    }

    method FailSession(id: nat)
      modifies this
      ensures View() == Next(old(View()), FailStep(id))
    {
      if state.id == id && state.phase.Measuring? { state := state.(phase := Failed); }
    }

    method ReadBack(remaining: Grams)
      modifies `state
      ensures state == Canonical(old(state), remaining)
    {
      state := state.(canonical := remaining);
      if remaining.Some? && state.measured.Some? {
        state := state.(difference := Some(state.measured.value - remaining.value));
      }
    }

    method Update(id: nat, restarting: bool, b: Backend) returns (ok: bool)
      requires Inv(View())
      modifies this
      ensures View() == WholeUpdate(old(View()), id, restarting, b) && Inv(View())
      ensures ok ==> state.phase.Unchanged? || state.phase.Updated?
    {
      WholeUpdateKeeps(View(), id, restarting, b);
      assert state.phase.Ready? ==> Captured(state);
      hide Inv; hide Canonical;
      if id != state.id || !state.phase.Ready? || state.consumed { return false; }
      if restarting {
        state := state.(phase := Failed);
        return false;
      }
      state := state.(consumed := true, phase := Updating);
      var captured := state;
      if !b.able || !b.same {
        state := state.(phase := Failed);
        return false;
      }
      if Abs(captured.difference.value) <= captured.tolerance.value {
        state := state.(phase := Unchanged);
        return true;
      }
      if b.sameAtWrite && !b.writing.Changed? {
        log := log + [Mutation(round, captured.spool, captured.measured.value, captured.gross.value,
                               captured.tare.value, true)];
      }
      if b.sameAtWrite && b.writing.Written? {
        ReadBack(b.writing.remaining);
        state := state.(phase := Updated);
        return true;
      }
      if b.reread.Some? { ReadBack(b.reread.value); }
      state := state.(phase := if b.sameAtWrite && b.writing.Refused? then Failed else Conflict);
      ok := false;
    }
  }

  lemma WholeUpdateKeeps(w: World, id: nat, restarting: bool, b: Backend)
    requires Inv(w)
    ensures Inv(WholeUpdate(w, id, restarting, b))
  {
    hide Inv; hide Next;
    var w1 := Next(w, UpdateStep(id, restarting));
    NextKeeps(w, UpdateStep(id, restarting));
    var w2 := Next(w1, CapabilityStep(b.able));
    NextKeeps(w1, CapabilityStep(b.able));
    var w3 := Next(w2, FenceStep(b.same));
    NextKeeps(w2, FenceStep(b.same));
    var w4 := Next(w3, WriteStep(b.sameAtWrite, b.writing));
    NextKeeps(w3, WriteStep(b.sameAtWrite, b.writing));
    var w5 := Next(w4, RereadStep(b.reread));
    NextKeeps(w4, RereadStep(b.reread));
    NextKeeps(w5, CloseStep);
  }

  /** The measured weight is written. */
  predicate Writes(s: Session, b: Backend) {
    && b.able && b.same && !(s.difference.Some? && s.tolerance.Some? && Abs(s.difference.value) <= s.tolerance.value)
    && b.sameAtWrite && !b.writing.Changed?
  }

  /** What one update of a measured session comes to: the inventory is called
      exactly once, with the measured weight, if the backend is able, the spool
      is still there, the difference exceeds the tolerance, and the last look at
      the spool holds; the phase tells how that went. */
  lemma UpdateMeans(w: World, id: nat, b: Backend)
    requires Inv(w) && w.u.Nowhere? && w.s.phase.Ready? && w.s.id == id
    ensures var v := WholeUpdate(w, id, false, b);
            var c := w.s;
            && v.u.Nowhere? && v.s.consumed && v.s.id == id && v.round == w.round && c.measured.Some?
            && (Writes(c, b) ==>
                  |v.log| == |w.log| + 1 && v.log[..|w.log|] == w.log
                  && v.log[|w.log|].spool == c.spool && v.log[|w.log|].remaining == c.measured.value)
            && (!Writes(c, b) ==> v.log == w.log)
            && (v.s.phase.Updated? <==> Writes(c, b) && b.writing.Written?)
            && (v.s.phase.Unchanged? <==> b.able && b.same && Abs(c.difference.value) <= c.tolerance.value)
            && (v.s.phase.Failed? <==> !b.able || !b.same || (Writes(c, b) && b.writing.Refused?))
            && (v.s.phase.Updated? || v.s.phase.Unchanged? || v.s.phase.Failed? || v.s.phase.Conflict?)
            && (v.s.phase.Updated? ==> v.s.canonical == b.writing.remaining)
            && (v.s.canonical.Some? && v.s.canonical != c.canonical ==>
                  v.s.difference == Some(c.measured.value - v.s.canonical.value))
  {
  }

  /** A measurement that can be saved is ready and can be updated at once; one
      that cannot is never ready. */
  lemma CaptureMeans(w: World, id: nat, gross: Grams, stable: bool)
    requires Inv(w) && w.s.phase.Measuring? && w.s.id == id
    ensures var v := Next(w, CaptureStep(id, stable, gross));
            && (v.s.phase.Ready? <==>
                  && stable && gross.Some? && w.s.spool > 0 && w.s.tare.Some? && w.s.canonical.Some?
                  && w.s.canonical.value >= 0.0 && w.s.expectedUsed.Some? && w.s.expectedUsed.value >= 0.0
                  && w.s.tolerance.Some? && w.s.tolerance.value >= 0.0 && gross.value >= w.s.tare.value >= 0.0)
            && (v.s.phase.Ready? ==>
                  && v.s.measured == Some(gross.value - w.s.tare.value)
                  && v.s.difference == Some(v.s.measured.value - w.s.canonical.value)
                  && Next(v, UpdateStep(id, false)).u.Checking?)
            && (!v.s.phase.Ready? ==> v.s.phase.Unavailable? && !Next(v, UpdateStep(id, false)).u.Checking?)
  {
  }

  /** A restart that is pending, another session, and a session that is not
      ready or was used write nothing; the measurement stays unused. */
  lemma RefusedUpdate(w: World, id: nat, restarting: bool, b: Backend)
    requires w.u.Nowhere? && (restarting || w.s.id != id || !w.s.phase.Ready? || w.s.consumed)
    ensures var v := WholeUpdate(w, id, restarting, b);
            var ready := w.s.id == id && w.s.phase.Ready? && !w.s.consumed;
            && v.u.Nowhere? && v.log == w.log && v.s.consumed == w.s.consumed
            && v.s.phase == if ready then Failed else w.s.phase
  {
  }
}
