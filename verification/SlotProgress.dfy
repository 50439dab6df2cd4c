/**
 The slots always come back: whatever has happened, callers and owner can go on
 until every caller has returned and every slot is free.
*/
module SlotProgress {
  import opened Prelude
  import opened SlotPool

  /** Nobody is on the way and nothing is left to do. */
  ghost predicate AtRest(p: Pool) {
    p.owner.Idle? && p.queue == [] && forall t: nat :: t in p.callers ==> p.callers[t].Returned?
  }

  function CallerRank(c: Caller): nat {
    match c
    case Filling(_, _) => 9
    case Sending(_, _) => 8
    case Waiting(_) => 3
    case Woken(_) => 2
    case Expired(_) => 2
    case Returned(_) => 0
  }

  function OwnerRank(o: Owner): nat {
    match o
    case Idle => 0
    case Received(_) => 3
    case Executing(_) => 2
    case Late(_) => 1
  }

  function CallerRanks(callers: map<nat, Caller>, n: nat): nat {
    if n == 0 then 0
    else CallerRanks(callers, n - 1) + (if n - 1 in callers then CallerRank(callers[n - 1]) else 0)
  }

  /** How many steps are left at most. */
  function Debt(p: Pool): nat {
    CallerRanks(p.callers, p.next) + 4 * |p.queue| + OwnerRank(p.owner)
  }

  lemma {:induction false} RanksUpdate(callers: map<nat, Caller>, n: nat, t: nat, c: Caller)
    requires t in callers
    ensures CallerRanks(callers[t := c], n)
         == CallerRanks(callers, n) + (if t < n then CallerRank(c) - CallerRank(callers[t]) else 0)
  {
    if n > 0 { RanksUpdate(callers, n - 1, t, c); }
  }

  /** In every state of a run but at rest some step brings the end nearer. */
  lemma SomeStepHelps(p: Pool) returns (e: Step)
    requires Good(p) && InRange(p) && !AtRest(p)
    ensures Debt(Next(p, e)) < Debt(p)
  {
    if !p.owner.Idle? {
      e := OwnerHelps(p);
    } else if p.queue != [] {
      e := Receive;
    } else {
      var t: nat :| t in p.callers && !p.callers[t].Returned?;
      e := CallerHelps(p, t);
    }
  }

  lemma OwnerHelps(p: Pool) returns (e: Step)
    requires InRange(p) && !p.owner.Idle?
    ensures Debt(Next(p, e)) < Debt(p)
  {
    match p.owner
    case Received(_) => e := Uncount;
    case Executing(_) => e := Complete;
    case Late(_) => e := FinishLate;
  }

  lemma CallerHelps(p: Pool, t: nat) returns (e: Step)
    requires Good(p) && InRange(p) && p.owner.Idle? && p.queue == [] && t in p.callers && !p.callers[t].Returned?
    ensures Debt(Next(p, e)) < Debt(p)
  {
    var c := p.callers[t];
    NothingHoldsUp(p, t);
    e := match c
      case Filling(_, _) => Count(t)
      case Sending(_, _) => Send(t)
      case Waiting(_) => Take(t)
      case Woken(_) => Collect(t)
      case _ => GiveUp(t);
    CallerMoves(p, t, e);
    var q := Next(p, e);
    hide Good; hide InRange; hide Next;
    RanksUpdate(p.callers, p.next, t, q.callers[t]);
  }

  /** With queue and owner empty a waiting caller has been answered. */
  lemma NothingHoldsUp(p: Pool, t: nat)
    requires Good(p) && p.owner.Idle? && p.queue == [] && t in p.callers && !p.callers[t].Returned?
    ensures t < p.next && p.callers[t].slot < |p.slots|
    ensures p.callers[t].Waiting? ==> p.slots[p.callers[t].slot].given
  {
    var i := p.callers[t].slot;
    assert p.slots[i].inUse && p.slots[i].ticket == t;
    assert Reserved(p, i) && !p.Busy(i);
    hide Queue; hide Slots; hide Callers;
  }

  lemma CallerMoves(p: Pool, t: nat, e: Step)
    requires InRange(p) && p.owner.Idle? && p.queue == [] && t in p.callers && !p.callers[t].Returned?
    requires p.callers[t].slot < |p.slots| && (p.callers[t].Waiting? ==> p.slots[p.callers[t].slot].given)
    requires match p.callers[t]
             case Filling(_, _) => e == Count(t)
             case Sending(_, _) => e == Send(t)
             case Waiting(_) => e == Take(t)
             case Woken(_) => e == Collect(t)
             case _ => e == GiveUp(t)
    ensures var q := Next(p, e);
            && t in q.callers && q.callers == p.callers[t := q.callers[t]] && q.next == p.next
            && CallerRank(q.callers[t]) + 4 * |q.queue| + OwnerRank(q.owner) < CallerRank(p.callers[t])
  {
  }

  function After(p: Pool, steps: seq<Step>): Pool {
    if steps == [] then p
    else
      var q := After(p, steps[..|steps| - 1]);
      if InRange(q) then Next(q, steps[|steps| - 1]) else q
  }

  lemma {:induction false} AfterFirst(p: Pool, e: Step, steps: seq<Step>)
    requires InRange(p)
    ensures After(p, [e] + steps) == After(Next(p, e), steps)
  {
    hide Next; hide InRange;
    if steps == [] {
      assert [e] + steps == [e];
      assert [e][..0] == [];
    } else {
      var n := |steps| - 1;
      assert ([e] + steps)[..n + 1] == [e] + steps[..n];
      AfterFirst(p, e, steps[..n]);
    }
  }

  lemma {:induction false} Finishes(p: Pool) returns (steps: seq<Step>)
    requires Sound(p)
    ensures AtRest(After(p, steps)) && Sound(After(p, steps))
    decreases Debt(p)
  {
    GoodInRange(p);
    hide Sound; hide Next;
    if AtRest(p) {
      steps := [];
    } else {
      var e := SomeStepHelps(p) by { assert Sound(p); }
      SoundKeeps(p, e);
      var more := Finishes(Next(p, e));
      AfterFirst(p, e, more);
      steps := [e] + more;
    }
  }

  lemma {:induction false} RunIsAfter(steps: seq<Step>, more: seq<Step>)
    ensures Run(steps + more) == After(Run(steps), more)
  {
    if more == [] {
      assert steps + more == steps;
    } else {
      var n := |more| - 1;
      assert (steps + more)[..|steps| + n] == steps + more[..n];
      RunIsAfter(steps, more[..n]);
    }
  }

  /** After any interleaving the rest can be done: then every caller has
      returned, every slot is free and every reservation has been released. */
  lemma EverySlotComesBack(steps: seq<Step>)
    ensures exists more ::
              var p := Run(steps + more);
              && AtRest(p) && (forall i :: 0 <= i < 4 ==> |p.slots| == 4 && !p.slots[i].inUse)
              && (forall t: nat :: t in p.released <==> t < p.next)
  {
    RunSound(steps);
    hide Run; hide Sound;
    var more := Finishes(Run(steps));
    RunIsAfter(steps, more);
    NothingLeaks(steps + more);
    FourSlots(Run(steps + more));
  }

  lemma FourSlots(p: Pool)
    requires Sound(p)
    ensures |p.slots| == 4
  {
  }
}
