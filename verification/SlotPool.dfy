/**
 The command slots of the OTA worker: callers reserve a slot, queue it for the
 owner task and wait for its answer, give up after a timeout, or never wait.
*/
module SlotPool {
  import opened Prelude

  // Every region that the worker's mutexes or the kernel make atomic is one step;
  // callers and the owner interleave between them in any order.

  const DEPTH: nat := 4

  /** A reservation is known by its ticket; the answer carries the ticket of
      the command it answers. */
  datatype Slot = Slot(inUse: bool, abandoned: bool, answer: Option<nat>, given: bool, ticket: nat)

  const VACANT := Slot(false, false, None, false, 0)

  datatype Ending = Accepted | Answered(answer: nat) | TimedOut | QueueFull | NoAnswer

  /** Where the thread that made a reservation is. */
  datatype Caller =
    | Filling(slot: nat, waits: bool)  // reserved, writing its command into the slot
    | Sending(slot: nat, waits: bool)  // counted as pending, not yet queued
    | Waiting(slot: nat)               // blocked on the slot's semaphore
    | Woken(slot: nat)                 // took the semaphore
    | Expired(slot: nat)               // its wait timed out
    | Returned(ending: Ending)
  {
    predicate Holds(i: nat) { !Returned? && slot == i }
    predicate Before() { Filling? || Sending? }
    predicate Blocked() { Waiting? || Expired? }
  }

  datatype Owner = Idle | Received(slot: nat) | Executing(slot: nat) | Late(slot: nat)

  datatype Party = ByCaller | ByOwner

  datatype Pool = Pool(
    slots: seq<Slot>, queue: seq<nat>, pending: int, owner: Owner,
    callers: map<nat, Caller>, next: nat,
    released: seq<nat>, delivered: seq<(nat, Party)>)
  {
    predicate Owned(i: nat) { !owner.Idle? && owner.slot == i }

    /** The owner task may still touch the slot. */
    predicate Busy(i: nat) { i in queue || Owned(i) }

    function Free(i: nat): Pool
      requires i < |slots|
    {
      this.(slots := slots[i := slots[i].(inUse := false, abandoned := false, answer := None)],
            released := released + [slots[i].ticket])
    }

    function Move(t: nat, c: Caller): Pool { this.(callers := callers[t := c]) }

    function Deliver(t: nat, party: Party): Pool { this.(delivered := delivered + [(t, party)]) }
  }

  const EMPTY := Pool([VACANT, VACANT, VACANT, VACANT], [], 0, Idle, map[], 0, [], [])

  // ---------------------------------------------------------------- steps

  datatype Step =
    | Reserve(waits: bool)
    | Count(ticket: nat)
    | Send(ticket: nat)
    | Take(ticket: nat)
    | Collect(ticket: nat)
    | Expire(ticket: nat)
    | GiveUp(ticket: nat)
    | Receive
    | Uncount
    | Complete
    | FinishLate

  function FirstFree(slots: seq<Slot>): Option<nat>
    ensures FirstFree(slots).Some? ==> FirstFree(slots).value < |slots| && !slots[FirstFree(slots).value].inUse
    ensures FirstFree(slots).Some? ==> forall k :: 0 <= k < FirstFree(slots).value ==> slots[k].inUse
    ensures FirstFree(slots).None? ==> forall k :: 0 <= k < |slots| ==> slots[k].inUse
  {
    FirstFreeFrom(slots, 0)
  }

  function FirstFreeFrom(slots: seq<Slot>, from: nat): (r: Option<nat>)
    requires from <= |slots|
    ensures r.Some? ==> from <= r.value < |slots| && !slots[r.value].inUse
    ensures r.Some? ==> forall k :: from <= k < r.value ==> slots[k].inUse
    ensures r.None? ==> forall k :: from <= k < |slots| ==> slots[k].inUse
    decreases |slots| - from
  {
    if from == |slots| then None else if !slots[from].inUse then Some(from) else FirstFreeFrom(slots, from + 1)
  }

  /** A slot is drained, cleared and marked in use; with none free the caller is refused. */
  function ReserveSlot(p: Pool, waits: bool): Pool {
    match FirstFree(p.slots)
    case None => p
    case Some(i) =>
      p.(slots := p.slots[i := Slot(true, !waits, None, false, p.next)], next := p.next + 1)
       .Move(p.next, Filling(i, waits))
  }

  function CountSlot(p: Pool, t: nat): Pool
    requires t in p.callers && p.callers[t].Filling?
  {
    p.(pending := p.pending + 1).Move(t, Sending(p.callers[t].slot, p.callers[t].waits))
  }

  function SendSlot(p: Pool, t: nat): Pool
    requires t in p.callers && p.callers[t].Sending? && p.callers[t].slot < |p.slots|
  {
    var c := p.callers[t];
    if |p.queue| < DEPTH then
      p.(queue := p.queue + [c.slot]).Move(t, if c.waits then Waiting(c.slot) else Returned(Accepted))
    else
      p.(pending := p.pending - 1).Free(c.slot).Move(t, Returned(QueueFull))
  }

  function TakeSemaphore(p: Pool, t: nat): Pool
    requires t in p.callers && p.callers[t].Waiting? && p.callers[t].slot < |p.slots|
  {
    var i := p.callers[t].slot;
    if !p.slots[i].given then p
    else p.(slots := p.slots[i := p.slots[i].(given := false)]).Move(t, Woken(i))
  }

  function CollectAnswer(p: Pool, t: nat): Pool
    requires t in p.callers && p.callers[t].Woken? && p.callers[t].slot < |p.slots|
  {
    var i := p.callers[t].slot;
    match p.slots[i].answer
    case None => p.Free(i).Move(t, Returned(NoAnswer))
    case Some(a) => p.Free(i).Move(t, Returned(Answered(a))).Deliver(a, ByCaller)
  }

  function ExpireWait(p: Pool, t: nat): Pool
    requires t in p.callers && p.callers[t].Waiting?
  {
    p.Move(t, Expired(p.callers[t].slot))
  }

  /** After a timeout an answer that has arrived meanwhile is taken and the
      semaphore drained; otherwise the slot is left to the owner. */
  function GiveUpSlot(p: Pool, t: nat): Pool
    requires t in p.callers && p.callers[t].Expired? && p.callers[t].slot < |p.slots|
  {
    var i := p.callers[t].slot;
    match p.slots[i].answer
    case None =>
      p.(slots := p.slots[i := p.slots[i].(abandoned := true)]).Move(t, Returned(TimedOut))
    case Some(a) =>
      var q := p.Free(i);
      q.(slots := q.slots[i := q.slots[i].(given := false)]).Move(t, Returned(Answered(a))).Deliver(a, ByCaller)
  }

  function ReceiveSlot(p: Pool): Pool {
    if p.owner.Idle? && p.queue != [] then p.(queue := p.queue[1..], owner := Received(p.queue[0])) else p
  }

  function UncountSlot(p: Pool): Pool {
    if p.owner.Received? then p.(pending := p.pending - 1, owner := Executing(p.owner.slot)) else p
  }

  /** The command has run. Its answer goes to the waiting caller, or stays with
      the owner when nobody waits. */
  function CompleteSlot(p: Pool): Pool
    requires p.owner.Executing? ==> p.owner.slot < |p.slots|
  {
    if !p.owner.Executing? then p
    else
      var i := p.owner.slot;
      var s := p.slots[i];
      if !s.inUse then p.(owner := Idle)
      else if s.abandoned then p.(owner := Late(i)).Deliver(s.ticket, ByOwner)
      else p.(slots := p.slots[i := s.(answer := Some(s.ticket), given := true)], owner := Idle)
  }

  function FinishLateSlot(p: Pool): Pool
    requires p.owner.Late? ==> p.owner.slot < |p.slots|
  {
    if p.owner.Late? then p.Free(p.owner.slot).(owner := Idle) else p
  }

  predicate InRange(p: Pool) {
    && (p.owner.Idle? || p.owner.slot < |p.slots|)
    && (forall t: nat :: t in p.callers && !p.callers[t].Returned? ==> p.callers[t].slot < |p.slots|)
  }

  /** A step that is not enabled changes nothing. */
  function Next(p: Pool, e: Step): Pool
    requires InRange(p)
  {
    match e
    case Reserve(waits) => ReserveSlot(p, waits)
    case Count(t) => if t in p.callers && p.callers[t].Filling? then CountSlot(p, t) else p
    case Send(t) => if t in p.callers && p.callers[t].Sending? then SendSlot(p, t) else p
    case Take(t) => if t in p.callers && p.callers[t].Waiting? then TakeSemaphore(p, t) else p
    case Collect(t) => if t in p.callers && p.callers[t].Woken? then CollectAnswer(p, t) else p
    case Expire(t) => if t in p.callers && p.callers[t].Waiting? then ExpireWait(p, t) else p
    case GiveUp(t) => if t in p.callers && p.callers[t].Expired? then GiveUpSlot(p, t) else p
    case Receive => ReceiveSlot(p)
    case Uncount => UncountSlot(p)
    case Complete => CompleteSlot(p)
    case FinishLate => FinishLateSlot(p)
  }

  // ---------------------------------------------------------------- invariant

  predicate Queue(p: Pool) {
    && (forall j :: 0 <= j < |p.queue| ==> p.queue[j] < |p.slots| && p.slots[p.queue[j]].inUse && !p.Owned(p.queue[j]))
    && (forall j, k :: 0 <= j < k < |p.queue| ==> p.queue[j] != p.queue[k])
    && (!p.owner.Idle? ==> p.owner.slot < |p.slots| && p.slots[p.owner.slot].inUse)
    && (p.owner.Late? ==> p.slots[p.owner.slot].abandoned)
  }

  /** A slot in use has exactly one party that will release it. */
  predicate Reserved(p: Pool, i: nat)
    requires i < |p.slots|
  {
    var s := p.slots[i];
    && s.ticket in p.callers
    && var c := p.callers[s.ticket];
       && (if c.Returned? then c.ending.Accepted? || c.ending.TimedOut? else c.slot == i)
       && (p.Busy(i) ==> s.answer.None? && !s.given && !c.Before() && !c.Woken?)
       && (c.Before() ==> s.answer.None? && !s.given && s.abandoned == !c.waits)
       && (s.abandoned && !c.Before() ==> c.Returned? && p.Busy(i))
       && (!s.abandoned ==> !c.Returned?)
       && (c.Blocked() && !p.Busy(i) ==> s.given && s.answer.Some?)
       && (c.Woken? ==> s.answer.Some? && !s.given)
       && (s.answer.Some? ==> s.answer.value == s.ticket && !s.abandoned)
  }

  predicate Slots(p: Pool) {
    && |p.slots| == DEPTH
    && (forall i :: 0 <= i < |p.slots| && p.slots[i].inUse ==> Reserved(p, i))
    && (forall i :: 0 <= i < |p.slots| && !p.slots[i].inUse ==> !p.slots[i].given && p.slots[i].answer.None?)
    && (forall i, j :: 0 <= i < j < |p.slots| && p.slots[i].inUse && p.slots[j].inUse ==>
          p.slots[i].ticket != p.slots[j].ticket)
  }

  ghost predicate Callers(p: Pool) {
    && (forall t: nat :: t in p.callers <==> t < p.next)
    && (forall t: nat :: t in p.callers && !p.callers[t].Returned? ==>
          var i := p.callers[t].slot; i < |p.slots| && p.slots[i].inUse && p.slots[i].ticket == t)
    && (forall t: nat :: t in p.callers && p.callers[t].Returned? ==>
          !p.callers[t].ending.QueueFull? && !p.callers[t].ending.NoAnswer?)
    && (forall t: nat :: t in p.callers && p.callers[t].Returned? && p.callers[t].ending.Answered? ==>
          p.callers[t].ending.answer == t)
  }

  ghost predicate Good(p: Pool) {
    Queue(p) && Slots(p) && Callers(p)
  }

  lemma GoodInRange(p: Pool)
    requires Good(p)
    ensures InRange(p)
  {
  }

  lemma ReserveKeeps(p: Pool, waits: bool)
    requires Good(p)
    ensures Good(ReserveSlot(p, waits))
  {
    hide FirstFree;
    if FirstFree(p.slots).Some? {
      var i := FirstFree(p.slots).value;
      var q := ReserveSlot(p, waits);
      assert p.next !in p.callers;
      assert !p.Busy(i);
      assert forall k :: q.Busy(k) == p.Busy(k);
      assert forall k :: 0 <= k < |p.slots| && k != i ==> q.slots[k] == p.slots[k];
    }
  }

  lemma CountKeeps(p: Pool, t: nat)
    requires Good(p) && t in p.callers && p.callers[t].Filling?
    ensures Good(CountSlot(p, t))
  {
    var q := CountSlot(p, t);
    assert Queue(q) && q.slots == p.slots;
    hide Queue;
    assert forall k :: q.Busy(k) == p.Busy(k);
  }

  /** Queued slots are distinct and the slot about to be queued is not among
      them, so the queue, as deep as the pool, has room. */
  lemma QueueHasRoom(p: Pool, t: nat)
    requires Good(p) && t in p.callers && p.callers[t].Sending?
    ensures |p.queue| < DEPTH
  {
    var i := p.callers[t].slot;
    var s := p.queue + [i];
    assert i !in p.queue by { assert !p.Busy(i); }
    DistinctBounded(s, DEPTH);
  }

  lemma {:induction false} DistinctBounded(s: seq<nat>, n: nat)
    requires forall j :: 0 <= j < |s| ==> s[j] < n
    requires forall j, k :: 0 <= j < k < |s| ==> s[j] != s[k]
    ensures |s| <= n
  {
    if n == 0 {
    } else if n - 1 in s {
      var at :| 0 <= at < |s| && s[at] == n - 1;
      var r := s[..at] + s[at + 1..];
      assert forall j :: 0 <= j < |r| ==> r[j] == s[if j < at then j else j + 1];
      DistinctBounded(r, n - 1);
    } else {
      DistinctBounded(s, n - 1);
    }
  }

  lemma SendKeeps(p: Pool, t: nat)
    requires Good(p) && t in p.callers && p.callers[t].Sending?
    ensures Good(SendSlot(p, t))
  {
    QueueHasRoom(p, t);
    SendQueue(p, t);
    hide Queue;
    var q := SendSlot(p, t);
    assert q.slots == p.slots && q.next == p.next;
    forall k | 0 <= k < |p.slots| && p.slots[k].inUse ensures Reserved(q, k) {
      SendReserved(p, t, k);
    }
    hide Reserved;
  }

  lemma SendQueue(p: Pool, t: nat)
    requires Good(p) && t in p.callers && p.callers[t].Sending? && |p.queue| < DEPTH
    ensures Queue(SendSlot(p, t)) && !p.Busy(p.callers[t].slot)
    ensures forall k :: SendSlot(p, t).Busy(k) <==> p.Busy(k) || k == p.callers[t].slot
  {
    var i := p.callers[t].slot;
    assert Reserved(p, i);
    assert forall k :: k in SendSlot(p, t).queue <==> k in p.queue || k == i;
  }

  lemma SendReserved(p: Pool, t: nat, k: nat)
    requires Good(p) && t in p.callers && p.callers[t].Sending? && |p.queue| < DEPTH
    requires k < |p.slots| && p.slots[k].inUse
    ensures Reserved(SendSlot(p, t), k)
  {
    hide Queue;
    SendQueue(p, t);
    assert Reserved(p, k);
  }

  lemma TakeKeeps(p: Pool, t: nat)
    requires Good(p) && t in p.callers && p.callers[t].Waiting?
    ensures Good(TakeSemaphore(p, t))
  {
    var i := p.callers[t].slot;
    assert p.slots[i].inUse && Reserved(p, i);
    var q := TakeSemaphore(p, t);
    assert Queue(q);
    hide Queue;
    assert forall k :: q.Busy(k) == p.Busy(k);
  }

  lemma CollectKeeps(p: Pool, t: nat)
    requires Good(p) && t in p.callers && p.callers[t].Woken?
    ensures Good(CollectAnswer(p, t))
  {
    var i := p.callers[t].slot;
    assert p.slots[i].inUse && Reserved(p, i);
    assert !p.Busy(i);
  }

  lemma ExpireKeeps(p: Pool, t: nat)
    requires Good(p) && t in p.callers && p.callers[t].Waiting?
    ensures Good(ExpireWait(p, t))
  {
    var q := ExpireWait(p, t);
    assert Queue(q) && q.slots == p.slots;
    hide Queue;
    assert forall k :: q.Busy(k) == p.Busy(k);
  }

  lemma GiveUpKeeps(p: Pool, t: nat)
    requires Good(p) && t in p.callers && p.callers[t].Expired?
    ensures Good(GiveUpSlot(p, t))
  {
    var i := p.callers[t].slot;
    assert p.slots[i].inUse && Reserved(p, i);
    var q := GiveUpSlot(p, t);
    GiveUpQueue(p, t);
    GiveUpCallers(p, t);
    hide Queue; hide Callers;
    assert forall k :: 0 <= k < |p.slots| && k != i ==> q.slots[k] == p.slots[k];
    assert q.slots[i].ticket == p.slots[i].ticket;
    forall k | 0 <= k < |p.slots| && q.slots[k].inUse ensures Reserved(q, k) {
      GiveUpReserved(p, t, k);
    }
    hide Reserved; hide GiveUpSlot;
  }

  lemma GiveUpCallers(p: Pool, t: nat)
    requires Good(p) && t in p.callers && p.callers[t].Expired?
    ensures Callers(GiveUpSlot(p, t)) && |GiveUpSlot(p, t).slots| == |p.slots|
    ensures !GiveUpSlot(p, t).slots[p.callers[t].slot].inUse ==>
              !GiveUpSlot(p, t).slots[p.callers[t].slot].given && GiveUpSlot(p, t).slots[p.callers[t].slot].answer.None?
  {
    var i := p.callers[t].slot;
    assert p.slots[i].inUse && Reserved(p, i);
    hide Queue; hide Reserved;
  }

  lemma GiveUpQueue(p: Pool, t: nat)
    requires Good(p) && t in p.callers && p.callers[t].Expired?
    ensures Queue(GiveUpSlot(p, t))
  {
    var i := p.callers[t].slot;
    assert p.slots[i].inUse && Reserved(p, i);
    assert forall k :: GiveUpSlot(p, t).Busy(k) == p.Busy(k);
  }

  lemma GiveUpReserved(p: Pool, t: nat, k: nat)
    requires Good(p) && t in p.callers && p.callers[t].Expired?
    requires k < |p.slots| && GiveUpSlot(p, t).slots[k].inUse
    ensures Reserved(GiveUpSlot(p, t), k)
  {
    hide Queue;
    assert Reserved(p, k);
    assert forall j :: GiveUpSlot(p, t).Busy(j) == p.Busy(j);
  }

  lemma ReceiveKeeps(p: Pool)
    requires Good(p)
    ensures Good(ReceiveSlot(p))
  {
    if p.owner.Idle? && p.queue != [] {
      var q := ReceiveSlot(p);
      assert forall k :: k in p.queue <==> k in q.queue || k == p.queue[0];
      assert forall k :: q.Busy(k) == p.Busy(k);
    }
  }

  lemma UncountKeeps(p: Pool)
    requires Good(p)
    ensures Good(UncountSlot(p))
  {
    assert forall k :: UncountSlot(p).Busy(k) == p.Busy(k);
  }

  lemma CompleteKeeps(p: Pool)
    requires Good(p)
    ensures Good(CompleteSlot(p))
  {
    if p.owner.Executing? {
      var i := p.owner.slot;
      assert p.slots[i].inUse && Reserved(p, i) && p.Busy(i);
      var q := CompleteSlot(p);
      assert forall k :: k != i ==> q.Busy(k) == p.Busy(k);
    }
  }

  lemma FinishLateKeeps(p: Pool)
    requires Good(p)
    ensures Good(FinishLateSlot(p))
  {
    if p.owner.Late? {
      var i := p.owner.slot;
      assert p.slots[i].inUse && Reserved(p, i) && p.Busy(i);
      var q := FinishLateSlot(p);
      assert forall k :: k != i ==> q.Busy(k) == p.Busy(k);
    }
  }

  // ---------------------------------------------------------------- what became of every reservation

  /** The reservation still holds a slot. */
  ghost predicate Open(p: Pool, t: nat) {
    exists i :: 0 <= i < |p.slots| && p.slots[i].inUse && p.slots[i].ticket == t
  }

  predicate LateFor(p: Pool, t: nat) {
    p.owner.Late? && p.owner.slot < |p.slots| && p.slots[p.owner.slot].ticket == t
  }

  predicate Got(p: Pool, t: nat) {
    t in p.callers && p.callers[t] == Returned(Answered(t))
  }

  ghost predicate Releases(p: Pool) {
    && (forall j, k :: 0 <= j < k < |p.released| ==> p.released[j] != p.released[k])
    && (forall t: nat :: t in p.released <==> t < p.next && !Open(p, t))
  }

  ghost predicate Deliveries(p: Pool) {
    && (forall j, k :: 0 <= j < k < |p.delivered| ==> p.delivered[j].0 != p.delivered[k].0)
    && (forall t: nat :: (t, ByCaller) in p.delivered <==> Got(p, t))
    && (forall t: nat :: (t, ByOwner) in p.delivered <==> (t in p.released && !Got(p, t)) || LateFor(p, t))
  }

  lemma FreeReleases(p: Pool, i: nat)
    requires Good(p) && Releases(p) && i < |p.slots| && p.slots[i].inUse
    ensures Releases(p.Free(i))
  {
    var q := p.Free(i);
    var t := p.slots[i].ticket;
    assert Open(p, t);
    assert t in p.callers by { assert Reserved(p, i); }
    forall u: nat ensures u in q.released <==> u < q.next && !Open(q, u) {
      if u != t {
        assert Open(q, u) <==> Open(p, u) by {
          if Open(p, u) {
            var k :| 0 <= k < |p.slots| && p.slots[k].inUse && p.slots[k].ticket == u;
            assert q.slots[k] == p.slots[k];
          }
          if Open(q, u) {
            var k :| 0 <= k < |q.slots| && q.slots[k].inUse && q.slots[k].ticket == u;
            assert q.slots[k] == p.slots[k];
          }
        }
      }
    }
  }

  /** Nothing is reserved or released. */
  predicate SameTickets(p: Pool, q: Pool) {
    && |q.slots| == |p.slots| && q.next == p.next && q.released == p.released
    && forall k :: 0 <= k < |p.slots| ==> q.slots[k].inUse == p.slots[k].inUse && q.slots[k].ticket == p.slots[k].ticket
  }

  lemma SameReleases(p: Pool, q: Pool)
    requires Releases(p) && SameTickets(p, q)
    ensures Releases(q)
  {
    forall u: nat ensures Open(q, u) <==> Open(p, u) {
      if Open(p, u) {
        var k :| 0 <= k < |p.slots| && p.slots[k].inUse && p.slots[k].ticket == u;
        assert q.slots[k].inUse;
      }
      if Open(q, u) {
        var k :| 0 <= k < |q.slots| && q.slots[k].inUse && q.slots[k].ticket == u;
        assert p.slots[k].inUse;
      }
    }
  }

  lemma ReserveReleases(p: Pool, waits: bool)
    requires Good(p) && Releases(p)
    ensures Releases(ReserveSlot(p, waits))
  {
    var q := ReserveSlot(p, waits);
    if FirstFree(p.slots).Some? {
      var i := FirstFree(p.slots).value;
      assert q.slots[i].inUse && q.slots[i].ticket == p.next;
      forall u: nat ensures u in q.released <==> u < q.next && !Open(q, u) {
        if u != p.next {
          if Open(p, u) {
            var k :| 0 <= k < |p.slots| && p.slots[k].inUse && p.slots[k].ticket == u;
            assert q.slots[k] == p.slots[k];
          }
          if Open(q, u) {
            var k :| 0 <= k < |q.slots| && q.slots[k].inUse && q.slots[k].ticket == u;
            assert p.slots[k].inUse && p.slots[k].ticket == u;
          }
        }
      }
    }
  }

  lemma ReleasesKeep(p: Pool, e: Step)
    requires Good(p) && Releases(p)
    ensures InRange(p) && Releases(Next(p, e))
  {
    GoodInRange(p);
    hide Releases; hide FirstFree; hide Good;
    match e
    case Reserve(waits) => ReserveReleases(p, waits);
    case Send(t) => if t in p.callers && p.callers[t].Sending? { QueueHasRoom(p, t); } SameReleases(p, Next(p, e));
    case Collect(t) => CollectReleases(p, t);
    case GiveUp(t) => GiveUpReleases(p, t);
    case FinishLate => LateReleases(p);
    case _ => SameReleases(p, Next(p, e));
  }

  lemma CollectReleases(p: Pool, t: nat)
    requires Good(p) && Releases(p) && InRange(p)
    ensures Releases(Next(p, Collect(t)))
  {
    hide Releases;
    if t in p.callers && p.callers[t].Woken? {
      var i := p.callers[t].slot;
      FreeReleases(p, i);
      SameReleases(p.Free(i), CollectAnswer(p, t));
    }
  }

  lemma GiveUpReleases(p: Pool, t: nat)
    requires Good(p) && Releases(p) && InRange(p)
    ensures Releases(Next(p, GiveUp(t)))
  {
    hide Releases;
    if t in p.callers && p.callers[t].Expired? {
      var i := p.callers[t].slot;
      if p.slots[i].answer.None? {
        SameReleases(p, GiveUpSlot(p, t));
      } else {
        FreeReleases(p, i);
        SameReleases(p.Free(i), GiveUpSlot(p, t));
      }
    }
  }

  lemma LateReleases(p: Pool)
    requires Good(p) && Releases(p) && InRange(p)
    ensures Releases(FinishLateSlot(p))
  {
    hide Releases;
    if p.owner.Late? {
      FreeReleases(p, p.owner.slot);
      SameReleases(p.Free(p.owner.slot), FinishLateSlot(p));
    }
  }

  // ---------------------------------------------------------------- answers

  predicate DeliveredOnce(p: Pool) {
    forall j, k :: 0 <= j < k < |p.delivered| ==> p.delivered[j].0 != p.delivered[k].0
  }

  /** Nothing changed that `Deliveries` speaks of. */
  ghost predicate SameAnswers(p: Pool, q: Pool) {
    && q.delivered == p.delivered && q.released == p.released
    && (forall t: nat :: Got(q, t) <==> Got(p, t))
    && (forall t: nat :: LateFor(q, t) <==> LateFor(p, t))
  }

  lemma SameDeliveries(p: Pool, q: Pool)
    requires Deliveries(p) && SameAnswers(p, q)
    ensures Deliveries(q)
  {
    hide Got; hide LateFor;
  }

  /** The caller of slot `i` takes its answer and frees the slot. */
  lemma TakenDeliveries(p: Pool, q: Pool, i: nat, t: nat)
    requires Good(p) && Releases(p) && Deliveries(p)
    requires i < |p.slots| && p.slots[i].inUse && p.slots[i].ticket == t && !LateFor(p, t) && !Got(p, t)
    requires q.delivered == p.delivered + [(t, ByCaller)] && q.released == p.released + [t]
    requires Got(q, t) && (forall u: nat :: u != t ==> (Got(q, u) <==> Got(p, u)))
    requires forall u: nat :: LateFor(q, u) <==> LateFor(p, u)
    ensures Deliveries(q)
  {
    assert Open(p, t) && t !in p.released;
    assert (t, ByOwner) !in p.delivered && (t, ByCaller) !in p.delivered;
    NotYetDelivered(p, t, ByCaller);
    hide Got; hide LateFor; hide Good; hide Releases;
    forall u: nat, party
      ensures (u, party) in q.delivered <==> (u, party) in p.delivered || (u == t && party == ByCaller)
    {
    }
  }

  lemma NotYetDelivered(p: Pool, t: nat, party: Party)
    requires Deliveries(p) && (t, ByOwner) !in p.delivered && (t, ByCaller) !in p.delivered
    ensures DeliveredOnce(p.Deliver(t, party))
  {
    forall j | 0 <= j < |p.delivered| ensures p.delivered[j].0 != t {
      var d := p.delivered[j];
      assert d in p.delivered;
      match d.1
      case ByCaller => assert d == (d.0, ByCaller);
      case ByOwner => assert d == (d.0, ByOwner);
    }
  }

  lemma CollectDeliveries(p: Pool, t: nat)
    requires Good(p) && Releases(p) && Deliveries(p) && t in p.callers && p.callers[t].Woken?
    ensures Deliveries(CollectAnswer(p, t))
  {
    var i := p.callers[t].slot;
    assert p.slots[i].inUse && p.slots[i].ticket == t && Reserved(p, i);
    hide Reserved; hide Releases; hide Deliveries; hide Queue;
    assert !LateFor(p, t);
    TakenDeliveries(p, CollectAnswer(p, t), i, t);
  }

  lemma GiveUpDeliveries(p: Pool, t: nat)
    requires Good(p) && Releases(p) && Deliveries(p) && t in p.callers && p.callers[t].Expired?
    ensures Deliveries(GiveUpSlot(p, t))
  {
    var i := p.callers[t].slot;
    assert p.slots[i].inUse && p.slots[i].ticket == t && Reserved(p, i);
    hide Reserved; hide Releases; hide Deliveries; hide Queue;
    if p.slots[i].answer.None? {
      SameDeliveries(p, GiveUpSlot(p, t));
    } else {
      assert !LateFor(p, t);
      TakenDeliveries(p, GiveUpSlot(p, t), i, t);
    }
  }

  lemma CompleteDeliveries(p: Pool)
    requires Good(p) && Releases(p) && Deliveries(p)
    ensures Deliveries(CompleteSlot(p))
  {
    if p.owner.Executing? {
      var i := p.owner.slot;
      var t := p.slots[i].ticket;
      var q := CompleteSlot(p);
      assert p.slots[i].inUse && Reserved(p, i) && p.Busy(i);
      if p.slots[i].abandoned {
        assert Open(p, t) && t !in p.released && !Got(p, t);
        NotYetDelivered(p, t, ByOwner);
        hide Good; hide Releases; hide Reserved;
        assert forall u: nat :: LateFor(q, u) <==> u == t;
        assert forall u: nat :: Got(q, u) <==> Got(p, u);
        hide Got; hide LateFor;
        forall u: nat, party
          ensures (u, party) in q.delivered <==> (u, party) in p.delivered || (u == t && party == ByOwner)
        {
        }
      } else {
        hide Reserved; hide Releases; hide Deliveries; hide Queue;
        SameDeliveries(p, q);
      }
    }
  }

  lemma LateDeliveries(p: Pool)
    requires Good(p) && Releases(p) && Deliveries(p)
    ensures Deliveries(FinishLateSlot(p))
  {
    if p.owner.Late? {
      var i := p.owner.slot;
      var t := p.slots[i].ticket;
      var q := FinishLateSlot(p);
      assert p.slots[i].inUse && Reserved(p, i) && p.Busy(i);
      assert !Got(p, t);
      hide Good; hide Releases; hide Reserved;
      assert forall u: nat :: !LateFor(q, u) && (LateFor(p, u) <==> u == t);
      assert forall u: nat :: Got(q, u) <==> Got(p, u);
      hide Got; hide LateFor;
    }
  }

  lemma ReserveDeliveries(p: Pool, waits: bool)
    requires Good(p) && Deliveries(p)
    ensures Deliveries(ReserveSlot(p, waits))
  {
    hide Deliveries; hide FirstFree;
    var q := ReserveSlot(p, waits);
    if FirstFree(p.slots).Some? {
      var i := FirstFree(p.slots).value;
      assert !p.Owned(i);
      hide Slots; hide Queue;
      assert SameAnswers(p, q);
    }
    SameDeliveries(p, q);
  }

  lemma DeliveriesKeep(p: Pool, e: Step)
    requires Good(p) && Releases(p) && Deliveries(p)
    ensures InRange(p) && Deliveries(Next(p, e))
  {
    GoodInRange(p);
    hide Releases; hide FirstFree; hide Good; hide Deliveries;
    match e
    case Reserve(waits) => ReserveDeliveries(p, waits);
    case Send(t) => if t in p.callers && p.callers[t].Sending? { QueueHasRoom(p, t); } SameDeliveries(p, Next(p, e));
    case Collect(t) => if t in p.callers && p.callers[t].Woken? { CollectDeliveries(p, t); }
    case GiveUp(t) => if t in p.callers && p.callers[t].Expired? { GiveUpDeliveries(p, t); }
    case Complete => CompleteDeliveries(p);
    case FinishLate => LateDeliveries(p);
    case _ => SameDeliveries(p, Next(p, e));
  }

  // ---------------------------------------------------------------- the pending counter

  predicate OnItsWay(p: Pool, i: nat) {
    i < |p.slots| && p.slots[i].inUse && p.slots[i].ticket in p.callers && p.callers[p.slots[i].ticket].Sending?
  }

  function Count(b: bool): nat { if b then 1 else 0 }

  /** Commands queued, about to be queued, or just received. */
  function Outstanding(p: Pool): nat
    requires |p.slots| == DEPTH
  {
    |p.queue| + Count(p.owner.Received?)
    + Count(OnItsWay(p, 0)) + Count(OnItsWay(p, 1)) + Count(OnItsWay(p, 2)) + Count(OnItsWay(p, 3))
  }

  predicate Counted(p: Pool) {
    |p.slots| == DEPTH && p.pending == Outstanding(p)
  }

  lemma SameOutstanding(p: Pool, q: Pool)
    requires Counted(p) && |q.slots| == DEPTH && q.pending == p.pending
    requires |q.queue| + Count(q.owner.Received?) == |p.queue| + Count(p.owner.Received?)
    requires forall i :: 0 <= i < DEPTH ==> OnItsWay(q, i) == OnItsWay(p, i)
    ensures Counted(q)
  {
    hide OnItsWay;
  }

  lemma CountedKeep(p: Pool, e: Step)
    requires Good(p) && Counted(p)
    ensures InRange(p) && Counted(Next(p, e))
  {
    GoodInRange(p);
    hide FirstFree; hide Reserved; hide Queue; hide Counted;
    match e
    case Count(t) => if t in p.callers && p.callers[t].Filling? { CountCounted(p, t); }
    case Send(t) => if t in p.callers && p.callers[t].Sending? { SendCounted(p, t); }
    case Reserve(_) => CallerCounted(p, e);
    case Take(_) => CallerCounted(p, e);
    case Collect(_) => CallerCounted(p, e);
    case Expire(_) => CallerCounted(p, e);
    case GiveUp(_) => CallerCounted(p, e);
    case _ => OwnerCounted(p, e);
  }

  lemma CallerCounted(p: Pool, e: Step)
    requires Good(p) && Counted(p) && InRange(p)
    requires e.Reserve? || e.Take? || e.Collect? || e.Expire? || e.GiveUp?
    ensures Counted(Next(p, e))
  {
    hide Counted; hide OnItsWay; hide Reserved; hide Queue; hide FirstFree;
    var q := Next(p, e);
    forall i | 0 <= i < DEPTH ensures OnItsWay(q, i) == OnItsWay(p, i) {
      CallerWay(p, e, i);
    }
    SameOutstanding(p, q);
  }

  lemma CallerWay(p: Pool, e: Step, i: nat)
    requires Good(p) && InRange(p) && i < DEPTH
    requires e.Reserve? || e.Take? || e.Collect? || e.Expire? || e.GiveUp?
    ensures OnItsWay(Next(p, e), i) == OnItsWay(p, i)
  {
    hide FirstFree; hide Queue;
    assert p.slots[i].inUse ==> Reserved(p, i);
    hide Reserved;
  }

  lemma OwnerCounted(p: Pool, e: Step)
    requires Good(p) && Counted(p) && InRange(p)
    requires e.Receive? || e.Uncount? || e.Complete? || e.FinishLate?
    ensures Counted(Next(p, e))
  {
    hide Reserved; hide Queue; hide FirstFree;
    var q := Next(p, e);
    forall i | 0 <= i < DEPTH ensures OnItsWay(q, i) == OnItsWay(p, i) { OwnerWay(p, e, i); }
    hide OnItsWay;
  }

  lemma OwnerWay(p: Pool, e: Step, i: nat)
    requires Good(p) && InRange(p) && i < DEPTH
    requires e.Receive? || e.Uncount? || e.Complete? || e.FinishLate?
    ensures OnItsWay(Next(p, e), i) == OnItsWay(p, i)
  {
    if !p.owner.Idle? { assert Reserved(p, p.owner.slot) && p.Busy(p.owner.slot); }
    hide Reserved; hide Queue; hide FirstFree;
  }

  lemma CountCounted(p: Pool, t: nat)
    requires Good(p) && Counted(p) && t in p.callers && p.callers[t].Filling?
    ensures Counted(CountSlot(p, t))
  {
    hide Reserved; hide Queue;
    var q := CountSlot(p, t);
    var at := p.callers[t].slot;
    assert forall i :: 0 <= i < DEPTH ==> OnItsWay(q, i) == (OnItsWay(p, i) || i == at);
    assert !OnItsWay(p, at);
    hide OnItsWay;
  }

  lemma SendCounted(p: Pool, t: nat)
    requires Good(p) && Counted(p) && t in p.callers && p.callers[t].Sending?
    ensures Counted(SendSlot(p, t))
  {
    QueueHasRoom(p, t);
    hide Reserved; hide Queue;
    var q := SendSlot(p, t);
    var at := p.callers[t].slot;
    assert forall i :: 0 <= i < DEPTH ==> OnItsWay(p, i) == (OnItsWay(q, i) || i == at);
    assert !OnItsWay(q, at);
    hide OnItsWay;
  }

  // ---------------------------------------------------------------- every interleaving

  ghost predicate Sound(p: Pool) {
    Good(p) && Releases(p) && Deliveries(p) && Counted(p)
  }

  lemma GoodKeeps(p: Pool, e: Step)
    requires Good(p)
    ensures InRange(p) && Good(Next(p, e))
  {
    GoodInRange(p);
    hide Good; hide FirstFree;
    match e
    case Reserve(waits) => ReserveKeeps(p, waits);
    case Count(t) => if t in p.callers && p.callers[t].Filling? { CountKeeps(p, t); }
    case Send(t) => if t in p.callers && p.callers[t].Sending? { SendKeeps(p, t); }
    case Take(t) => if t in p.callers && p.callers[t].Waiting? { TakeKeeps(p, t); }
    case Collect(t) => if t in p.callers && p.callers[t].Woken? { CollectKeeps(p, t); }
    case Expire(t) => if t in p.callers && p.callers[t].Waiting? { ExpireKeeps(p, t); }
    case GiveUp(t) => if t in p.callers && p.callers[t].Expired? { GiveUpKeeps(p, t); }
    case Receive => ReceiveKeeps(p);
    case Uncount => UncountKeeps(p);
    case Complete => CompleteKeeps(p);
    case FinishLate => FinishLateKeeps(p);
  }

  lemma SoundKeeps(p: Pool, e: Step)
    requires Sound(p)
    ensures InRange(p) && Sound(Next(p, e))
  {
    hide Good; hide Releases; hide Deliveries; hide Counted; hide Next;
    GoodKeeps(p, e);
    ReleasesKeep(p, e);
    DeliveriesKeep(p, e);
    CountedKeep(p, e);
  }

  /** Any number of callers, timeouts and owner steps in any order. */
  function Run(steps: seq<Step>): Pool {
    if steps == [] then EMPTY
    else
      var p := Run(steps[..|steps| - 1]);
      if InRange(p) then Next(p, steps[|steps| - 1]) else p
  }

  lemma {:induction false} RunSound(steps: seq<Step>)
    ensures Sound(Run(steps))
  {
    if steps == [] {
      EmptySound();
    } else {
      hide Sound; hide Next;
      RunSound(steps[..|steps| - 1]);
      SoundKeeps(Run(steps[..|steps| - 1]), steps[|steps| - 1]);
    }
  }

  lemma EmptySound()
    ensures Sound(EMPTY)
  {
    var p := EMPTY;
    assert forall i :: 0 <= i < |p.slots| ==> p.slots[i] == VACANT;
    assert Queue(p);
    assert Callers(p);
    assert Slots(p);
    assert forall i :: 0 <= i < DEPTH ==> !OnItsWay(p, i);
    assert Counted(p);
    assert Releases(p);
  }

  /** In every interleaving no caller finds the queue full or is left without a
      result, and every result a caller gets is that of its own command. */
  lemma NobodyIsTurnedAway(steps: seq<Step>, t: nat)
    requires t in Run(steps).callers
    ensures var p, c := Run(steps), Run(steps).callers[t];
            && (c.Sending? ==> |p.queue| < DEPTH)
            && (c.Returned? ==> !c.ending.QueueFull? && !c.ending.NoAnswer?)
            && (c.Returned? && c.ending.Answered? ==> c.ending.answer == t)
  {
    hide Run;
    RunSound(steps);
    if Run(steps).callers[t].Sending? { QueueHasRoom(Run(steps), t); }
  }

  /** A slot that is queued or with the owner is released by nobody but the
      owner itself, after its late work, and so is never handed out meanwhile. */
  lemma BusySlotsAreNotReused(steps: seq<Step>, e: Step, i: nat)
    requires Run(steps).Busy(i)
    ensures var p := Run(steps);
            && InRange(p) && i < |p.slots| == |Next(p, e).slots| && p.slots[i].inUse && p.pending >= |p.queue|
            && (if Next(p, e).slots[i].inUse then Next(p, e).slots[i].ticket == p.slots[i].ticket
                else e.FinishLate? && p.owner == Late(i))
  {
    var p := Run(steps);
    hide Run;
    RunSound(steps);
    GoodInRange(p);
    assert p.pending >= |p.queue| by { hide OnItsWay; }
    hide Releases; hide Deliveries; hide Counted;
    assert i < |p.slots| && p.slots[i].inUse;
    BusyStays(p, e, i);
  }

  lemma BusyStays(p: Pool, e: Step, i: nat)
    requires Good(p) && InRange(p) && p.Busy(i) && i < |p.slots| && p.slots[i].inUse
    ensures |Next(p, e).slots| == |p.slots|
    ensures if Next(p, e).slots[i].inUse then Next(p, e).slots[i].ticket == p.slots[i].ticket
            else e.FinishLate? && p.owner == Late(i)
  {
    hide FirstFree; hide Queue;
    assert Reserved(p, i);
    hide Reserved;
    match e
    case Send(t) => if t in p.callers && p.callers[t].Sending? { QueueHasRoom(p, t); }
    case Collect(t) => assert t in p.callers && p.callers[t].Holds(i) ==> p.slots[i].ticket == t;
    case GiveUp(t) => assert t in p.callers && p.callers[t].Holds(i) ==> p.slots[i].ticket == t;
    case _ =>
  }

  /** A result goes to exactly one party; a reservation is released exactly
      once, and only when nobody can touch its slot any more. */
  lemma EveryReservationEndsOnce(steps: seq<Step>, t: nat)
    ensures var p := Run(steps);
            && (forall j, k :: 0 <= j < k < |p.released| ==> p.released[j] != p.released[k])
            && (forall j, k :: 0 <= j < k < |p.delivered| ==> p.delivered[j].0 != p.delivered[k].0)
            && (t in p.released <==> t < p.next && !Open(p, t))
            && (t in p.released ==>
                  ((t, ByCaller) in p.delivered <==> Got(p, t)) && ((t, ByOwner) in p.delivered <==> !Got(p, t)))
  {
    var p := Run(steps);
    hide Run;
    RunSound(steps);
    hide Counted;
    assert LateFor(p, t) ==> Open(p, t);
  }

  /** Nothing leaks: once the callers have returned and the owner is idle with
      an empty queue, every slot is free and every reservation released. */
  lemma NothingLeaks(steps: seq<Step>)
    requires Run(steps).owner.Idle? && Run(steps).queue == []
    requires forall t: nat :: t in Run(steps).callers ==> Run(steps).callers[t].Returned?
    ensures var p := Run(steps);
            && (forall i :: 0 <= i < |p.slots| ==> !p.slots[i].inUse)
            && p.pending == 0 && (forall t: nat :: t in p.released <==> t < p.next)
  {
    var p := Run(steps);
    hide Run;
    RunSound(steps);
    hide Deliveries;
    forall i | 0 <= i < |p.slots| ensures !p.slots[i].inUse {
      var reserved := Reserved(p, i);
    }
    assert forall t: nat :: !Open(p, t);
  }
}
