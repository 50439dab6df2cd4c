/**
 The worker's fixed slot array and its atomic regions, each proved to do to the
 pool what the corresponding step of `SlotPool` does.
*/
module OtaWorker {
  import opened Prelude
  import opened SlotPool

  class Worker {
    const slots: array<Slot>
    var queue: seq<nat>
    var pending: int
    var owner: Owner
    var next: nat
    ghost var callers: map<nat, Caller>
    ghost var released: seq<nat>
    ghost var delivered: seq<(nat, Party)>

    constructor ()
      ensures fresh(slots) && View() == EMPTY
    {
      slots := new Slot[DEPTH](_ => VACANT);
      queue, pending, owner, next := [], 0, Idle, 0;
      callers, released, delivered := map[], [], [];
      new;
      assert slots[..] == EMPTY.slots;
    }

    ghost function View(): Pool
      reads this, slots
    {
      Pool(slots[..], queue, pending, owner, callers, next, released, delivered)
    }

    /** The first slot not in use is drained, cleared and handed out. */
    method ReserveSlot(waits: bool) returns (index: Option<nat>)
      modifies this, slots
      ensures View() == SlotPool.ReserveSlot(old(View()), waits)
      ensures index == FirstFree(old(slots[..]))
    {
      hide FirstFree;
      var i := 0;
      while i < slots.Length && slots[i].inUse
        invariant 0 <= i <= slots.Length
        invariant FirstFree(slots[..]) == FirstFreeFrom(slots[..], i)
        invariant unchanged(this) && unchanged(slots)
      {
        i := i + 1;
      }
      if i == slots.Length { return None; }
      ghost var before := View();
      slots[i] := Slot(true, !waits, None, false, next);
      callers := callers[next := Filling(i, waits)];
      next := next + 1;
      assert slots[..] == before.slots[i := slots[i]];
      index := Some(i);
    }

    method ReleaseSlot(i: nat)
      requires i < slots.Length
      modifies `released, slots
      ensures View() == old(View()).Free(i)
    {
      ghost var before := slots[..];
      released := released + [slots[i].ticket];
      slots[i] := slots[i].(inUse := false, abandoned := false, answer := None);
      assert slots[..] == before[i := slots[i]];
    }

    /** The pending count is raised first and lowered again if the queue is full,
        in which case the slot is given back. */
    method EnqueueSlot(i: nat, ghost t: nat) returns (queued: bool)
      requires InRange(View()) && t in callers && callers[t].Filling? && callers[t].slot == i
      modifies this, slots
      ensures View() == SendSlot(CountSlot(old(View()), t), t)
      ensures queued <==> |old(queue)| < DEPTH
    {
      ghost var waits := callers[t].waits;
      pending := pending + 1;
      callers := callers[t := Sending(i, waits)];
      queued := |queue| < DEPTH;
      if queued {
        queue := queue + [i];
        callers := callers[t := if waits then Waiting(i) else Returned(Accepted)];
      } else {
        pending := pending - 1;
        ReleaseSlot(i);
        callers := callers[t := Returned(QueueFull)];
      }
    }

    /** The semaphore was given in time: the answer is taken and the slot freed. */
    method CollectResult(i: nat, ghost t: nat) returns (answer: Option<nat>)
      requires InRange(View()) && t in callers && callers[t].Woken? && callers[t].slot == i
      modifies this, slots
      ensures View() == CollectAnswer(old(View()), t)
      ensures answer == old(slots[i].answer)
    {
      answer := slots[i].answer;
      ReleaseSlot(i);
      if answer.None? {
        callers := callers[t := Returned(NoAnswer)];
      } else {
        callers := callers[t := Returned(Answered(answer.value))];
        delivered := delivered + [(answer.value, ByCaller)];
      }
    }

    /** The wait expired: an answer that arrived meanwhile is taken and the
        semaphore drained, else the slot is left to the owner. */
    method ResolveTimeout(i: nat, ghost t: nat) returns (answer: Option<nat>)
      requires InRange(View()) && t in callers && callers[t].Expired? && callers[t].slot == i
      modifies this, slots
      ensures View() == GiveUpSlot(old(View()), t)
      ensures answer == old(slots[i].answer)
    {
      answer := slots[i].answer;
      if answer.Some? {
        ReleaseSlot(i);
        ghost var freed := slots[..];
        slots[i] := slots[i].(given := false);
        assert slots[..] == freed[i := slots[i]];
        callers := callers[t := Returned(Answered(answer.value))];
        delivered := delivered + [(answer.value, ByCaller)];
      } else {
        ghost var before := slots[..];
        slots[i] := slots[i].(abandoned := true);
        assert slots[..] == before[i := slots[i]];
        callers := callers[t := Returned(TimedOut)];
      }
    }

    method ReceiveCommand() returns (index: Option<nat>)
      modifies this
      ensures View() == UncountSlot(ReceiveSlot(old(View())))
      ensures old(owner).Idle? && old(queue) != [] ==> index == Some(old(queue)[0]) && owner == Executing(old(queue)[0])
    {
      index := None;
      if owner.Idle? && queue != [] {
        owner := Received(queue[0]);
        queue := queue[1..];
      }
      if owner.Received? {
        index := Some(owner.slot);
        pending := pending - 1;
        owner := Executing(owner.slot);
      }
    }

    /** Nobody waits: the owner keeps the answer and the slot until its late
        work is done. Otherwise the answer is stored before the wakeup is given. */
    method CompleteSlot()
      requires InRange(View()) && owner.Executing?
      modifies this, slots
      ensures View() == SlotPool.CompleteSlot(old(View()))
    {
      var i := owner.slot;
      if !slots[i].inUse {
        owner := Idle;
      } else if slots[i].abandoned {
        delivered := delivered + [(slots[i].ticket, ByOwner)];
        owner := Late(i);
      } else {
        ghost var before := slots[..];
        slots[i] := slots[i].(answer := Some(slots[i].ticket), given := true);
        assert slots[..] == before[i := slots[i]];
        owner := Idle;
      }
    }

    method FinishLate()
      requires InRange(View()) && owner.Late?
      modifies this, slots
      ensures View() == FinishLateSlot(old(View()))
    {
      ReleaseSlot(owner.slot);
      owner := Idle;
    }
  }
}
