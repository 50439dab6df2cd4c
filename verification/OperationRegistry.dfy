/**
 The registry of operation receipts: 24 records in an array that is reused in
 rotation, numbered by a counter that stops when it wraps.
*/
module OperationRegistry {
  import opened Prelude

  const CAPACITY: nat := 24

  datatype State = Queued | Running | Succeeded | Failed | ConfirmationRequired {
    predicate Terminal() { Succeeded? || Failed? || ConfirmationRequired? }
  }

  /** Identifier 0 marks an empty slot. */
  datatype Record = Record(id: nat, kind: nat, state: State, message: nat)

  const EMPTY := Record(0, 0, Queued, 0)

  predicate Reusable(r: Record) { r.id == 0 || r.state.Terminal() }

  function Count(records: seq<Record>): nat {
    if records == [] then 0
    else Count(records[..|records| - 1]) + (if records[|records| - 1].id != 0 then 1 else 0)
  }

  lemma {:induction false} CountUpdate(records: seq<Record>, i: nat, r: Record)
    requires i < |records|
    ensures Count(records[i := r])
         == Count(records) - (if records[i].id != 0 then 1 else 0) + (if r.id != 0 then 1 else 0)
  {
    var n := |records| - 1;
    if i < n {
      CountUpdate(records[..n], i, r);
      assert records[i := r][..n] == records[..n][i := r];
    } else {
      assert records[i := r][..n] == records[..n];
    }
  }

  lemma {:induction false} CountBound(records: seq<Record>)
    ensures Count(records) <= |records|
  {
    if records != [] { CountBound(records[..|records| - 1]); }
  }

  lemma {:induction false} CountEmpty(records: seq<Record>)
    requires forall i :: 0 <= i < |records| ==> records[i].id == 0
    ensures Count(records) == 0
  {
    if records != [] { CountEmpty(records[..|records| - 1]); }
  }

  function Slot(from: nat, offset: nat): nat { (from + offset) % CAPACITY }

  function Offset(from: nat, at: nat): int { if at >= from then at - from else at - from + CAPACITY }

  /** The first slot, in rotation from `from`, that is empty or finished. */
  predicate Selected(records: seq<Record>, from: nat, at: nat) {
    && |records| == CAPACITY && from < CAPACITY && at < CAPACITY && Reusable(records[at])
    && forall k :: 0 <= k < Offset(from, at) ==> !Reusable(records[Slot(from, k)])
  }

  predicate Full(records: seq<Record>) {
    forall i :: 0 <= i < |records| ==> !Reusable(records[i])
  }

  /** The search for the next slot starts behind the one that was reused. */
  ghost predicate Reuses(before: seq<Record>, from: nat, after: seq<Record>, next: nat, r: Record) {
    exists at: nat :: Selected(before, from, at) && after == before[at := r] && next == if at < 23 then at + 1 else 0
  }

  /** Identifiers only grow, and no two records share one. */
  ghost predicate Numbered(records: seq<Record>, issued: seq<nat>, nextId: nat) {
    && (forall i, j :: 0 <= i < j < |records| && records[i].id != 0 ==> records[i].id != records[j].id)
    && (forall i :: 0 <= i < |records| && records[i].id != 0 ==> records[i].id in issued)
    && (forall i, j :: 0 <= i < j < |issued| ==> issued[i] < issued[j])
    && (forall i :: 0 <= i < |issued| ==> 0 < issued[i] <= MAX_U64 && (nextId != 0 ==> issued[i] < nextId))
  }

  lemma NumberedBegin(records: seq<Record>, issued: seq<nat>, nextId: nat, at: nat, r: Record)
    requires Numbered(records, issued, nextId) && at < |records| && r.id == nextId && 0 < nextId <= MAX_U64
    ensures Numbered(records[at := r], issued + [nextId], if nextId == MAX_U64 then 0 else nextId + 1)
  {
    var after, now := records[at := r], issued + [nextId];
    assert now[|issued|] == nextId;
    forall i | 0 <= i < |records| && i != at && records[i].id != 0
      ensures records[i].id != nextId && records[i].id in now
    {
      var k :| 0 <= k < |issued| && issued[k] == records[i].id;
      assert now[k] == records[i].id;
    }
  }

  class Registry {
    const records: array<Record>
    var nextSlot: nat
    var count: nat
    var nextId: nat
    var revision: nat
    /** Every identifier handed out, in order. */
    ghost var issued: seq<nat>

    ghost predicate Valid()
      reads this, records
    {
      records.Length == CAPACITY && nextSlot < CAPACITY && nextId <= MAX_U64 && count == Count(records[..])
    }

    ghost predicate Unique()
      reads this, records
    {
      Numbered(records[..], issued, nextId)
    }

    constructor ()
      ensures Valid() && Unique() && fresh(records) && issued == [] && nextId == 1 && count == 0
      ensures forall i :: 0 <= i < CAPACITY ==> records[i] == EMPTY
    {
      records := new Record[CAPACITY](_ => EMPTY);
      nextSlot, count, nextId, revision, issued := 0, 0, 1, 0, [];
      new;
      CountEmpty(records[..]);
    }

    /** A slot that is empty or holds a finished operation is reused, in rotation. */
    method Select() returns (at: nat)
      requires Valid()
      ensures at <= CAPACITY
      ensures if at < CAPACITY then Selected(records[..], nextSlot, at) else Full(records[..])
    {
      var offset := 0;
      while offset < CAPACITY
        invariant 0 <= offset <= CAPACITY
        invariant forall k :: 0 <= k < offset ==> !Reusable(records[Slot(nextSlot, k)])
      {
        at := Slot(nextSlot, offset);
        if Reusable(records[at]) {
          assert offset == Offset(nextSlot, at);
          return;
        }
        offset := offset + 1;
      }
      at := CAPACITY;
      forall i | 0 <= i < CAPACITY ensures !Reusable(records[i]) {
        assert Slot(nextSlot, Offset(nextSlot, i)) == i;
      }
    }

    /** Refused exactly when every record is still queued or running, or the
        identifiers are used up; else one finished or empty record is reused,
        and the new identifier is larger than all before it. */
    method Begin(kind: nat, message: nat) returns (id: nat)
      requires Valid()
      modifies this, records
      ensures Valid() && (old(Unique()) ==> Unique())
      ensures id == 0 <==> Full(old(records[..])) || old(nextId) == 0
      ensures id == 0 ==> records[..] == old(records[..]) && issued == old(issued) && nextId == old(nextId)
                          && nextSlot == old(nextSlot)
      ensures id != 0 ==> id == old(nextId) && issued == old(issued) + [id]
      ensures id != 0 ==>
                Reuses(old(records[..]), old(nextSlot), records[..], nextSlot, Record(id, kind, Queued, message))
    {
      var at := Select();
      ghost var before := records[..];
      assert at < CAPACITY ==> Reusable(before[at]);
      if at == CAPACITY || nextId == 0 { return 0; }
      id := nextId;
      if old(Unique()) { NumberedBegin(before, issued, nextId, at, Record(id, kind, Queued, message)); }
      CountUpdate(before, at, Record(id, kind, Queued, message));
      hide Numbered; hide Selected; hide Count;
      nextId := if nextId == MAX_U64 then 0 else nextId + 1;
      var emptySlot := records[at].id == 0;
      records[at] := Record(id, kind, Queued, message);
      assert records[..] == before[at := Record(id, kind, Queued, message)];
      CountBound(records[..]);
      nextSlot := (at + 1) % CAPACITY;
      if emptySlot { count := if count + 1 < CAPACITY then count + 1 else CAPACITY; }
      revision := revision + 1;
      issued := issued + [id];
    }

    /** Identifiers up to `highest` are not handed out any more. Once the counter
        has stopped, a reservation starts it again, and then identifiers stay
        unique only if none above `highest` was ever handed out. */
    method ReserveIdsAbove(highest: nat)
      requires Valid() && highest <= MAX_U64
      modifies `nextId
      ensures Valid()
      ensures nextId == if highest >= old(nextId) && highest != MAX_U64 then highest + 1 else old(nextId)
      ensures old(Unique()) ==>
                (Unique() <==>
                   old(nextId) != 0 || highest == MAX_U64 || forall i :: 0 <= i < |issued| ==> issued[i] <= highest)
    {
      if highest >= nextId && highest != MAX_U64 { nextId := highest + 1; }
    }

    /** A record in progress takes the new state; a finished one never changes. */
    method Update(id: nat, state: State, message: nat)
      requires Valid() && Unique() && id != 0
      modifies `revision, records
      ensures Valid() && Unique()
      ensures forall i :: 0 <= i < CAPACITY ==>
                records[i] == if old(records[i]).id == id && !old(records[i]).state.Terminal()
                              then old(records[i]).(state := state, message := message) else old(records[i])
    {
      for i := 0 to CAPACITY
        invariant Valid() && Unique() && records[..] == old(records[..])
        invariant forall k :: 0 <= k < i ==> records[k].id != id
      {
        if records[i].id == id {
          assert forall k :: i < k < CAPACITY ==> records[..][k].id != id;
          if records[i].state.Terminal() { return; }
          ghost var before := records[..];
          records[i] := records[i].(state := state, message := message);
          CountUpdate(before, i, records[i]);
          assert records[..] == before[i := records[i]];
          revision := revision + 1;
          return;
        }
      }
    }

    method Get(id: nat) returns (r: Option<Record>)
      requires Valid() && id != 0
      ensures r.Some? <==> exists i :: 0 <= i < CAPACITY && records[i].id == id
      ensures r.Some? ==> r.value in records[..] && r.value.id == id
    {
      for i := 0 to CAPACITY
        invariant forall k :: 0 <= k < i ==> records[k].id != id
      {
        if records[i].id == id { return Some(records[i]); }
      }
      r := None;
    }

    /** The newest records, newest first. */
    method Snapshot(limit: nat) returns (r: seq<Record>)
      requires Valid()
      ensures r == Newest(records[..], limit)
    {
      var kept: seq<Record> := [];
      for i := 0 to CAPACITY
        invariant kept == Occupied(records[..i])
      {
        assert records[..i + 1][..i] == records[..i];
        if records[i].id != 0 { kept := kept + [records[i]]; }
      }
      assert records[..CAPACITY] == records[..];
      OccupiedCount(records[..]);
      CountBound(records[..]);
      r := SortByAge(kept);
      var bounded := if limit < count then limit else count;
      if |r| > bounded { r := r[..bounded]; }
    }
  }

  // ---------------------------------------------------------------- snapshots

  function Occupied(records: seq<Record>): seq<Record> {
    if records == [] then []
    else
      var n := |records| - 1;
      Occupied(records[..n]) + (if records[n].id != 0 then [records[n]] else [])
  }

  lemma {:induction false} OccupiedCount(records: seq<Record>)
    ensures |Occupied(records)| == Count(records)
    ensures forall r :: r in Occupied(records) <==> r in records && r.id != 0
  {
    if records != [] {
      var n := |records| - 1;
      OccupiedCount(records[..n]);
      assert records == records[..n] + [records[n]];
    }
  }

  function Insert(s: seq<Record>, r: Record): (t: seq<Record>)
    ensures |t| == |s| + 1
  {
    if s == [] then [r]
    else if s[|s| - 1].id > r.id then s + [r]
    else Insert(s[..|s| - 1], r) + [s[|s| - 1]]
  }

  function Sorted(s: seq<Record>): (t: seq<Record>)
    ensures |t| == |s|
  {
    if s == [] then [] else Insert(Sorted(s[..|s| - 1]), s[|s| - 1])
  }

  method SortByAge(s: seq<Record>) returns (t: seq<Record>)
    ensures t == Sorted(s)
  {
    t := [];
    for i := 0 to |s|
      invariant t == Sorted(s[..i])
    {
      assert s[..i + 1][..i] == s[..i];
      t := Insert(t, s[i]);
    }
    assert s[..|s|] == s;
  }

  function Newest(records: seq<Record>, limit: nat): seq<Record> {
    var s := Sorted(Occupied(records));
    if |s| > limit then s[..limit] else s
  }

  predicate Descending(s: seq<Record>) {
    forall i, j :: 0 <= i < j < |s| ==> s[i].id > s[j].id
  }

  predicate DistinctIds(s: seq<Record>) {
    forall i, j :: 0 <= i < j < |s| ==> s[i].id != s[j].id
  }

  lemma {:induction false} InsertDescends(s: seq<Record>, r: Record)
    requires Descending(s) && forall k :: 0 <= k < |s| ==> s[k].id != r.id
    ensures Descending(Insert(s, r)) && multiset(Insert(s, r)) == multiset(s) + multiset{r}
  {
    if s == [] {
    } else if s[|s| - 1].id > r.id {
    } else {
      var n := |s| - 1;
      InsertDescends(s[..n], r);
      assert s == s[..n] + [s[n]];
      var t := Insert(s[..n], r);
      forall k | 0 <= k < |t| ensures t[k].id > s[n].id {
        assert t[k] in multiset(t);
        assert t[k] in multiset(s[..n]) || t[k] == r;
      }
    }
  }

  lemma {:induction false} SortedDescends(s: seq<Record>)
    requires DistinctIds(s)
    ensures Descending(Sorted(s)) && multiset(Sorted(s)) == multiset(s)
  {
    if s != [] {
      var n := |s| - 1;
      SortedDescends(s[..n]);
      assert s == s[..n] + [s[n]];
      var t := Sorted(s[..n]);
      forall k | 0 <= k < |t| ensures t[k].id != s[n].id {
        assert t[k] in multiset(t);
        assert t[k] in multiset(s[..n]);
      }
      InsertDescends(t, s[n]);
    }
  }

  lemma {:induction false} OccupiedDistinct(records: seq<Record>)
    requires forall i, j :: 0 <= i < j < |records| && records[i].id != 0 ==> records[i].id != records[j].id
    ensures DistinctIds(Occupied(records))
  {
    if records != [] {
      var n := |records| - 1;
      OccupiedDistinct(records[..n]);
      OccupiedCount(records[..n]);
      var s := Occupied(records[..n]);
      if records[n].id != 0 {
        forall k | 0 <= k < |s| ensures s[k].id != records[n].id {
          assert s[k] in records[..n];
        }
      }
    }
  }

  /** A snapshot lists occupied records only, newest first, as many as asked for
      and present, and leaves out none that is newer than one it lists. */
  lemma NewestIsNewest(records: seq<Record>, limit: nat)
    requires forall i, j :: 0 <= i < j < |records| && records[i].id != 0 ==> records[i].id != records[j].id
    ensures var r := Newest(records, limit);
            && Descending(r) && |r| == (if limit < Count(records) then limit else Count(records))
            && (forall k :: 0 <= k < |r| ==> r[k] in records && r[k].id != 0)
            && (forall x :: x in records && x.id != 0 && x !in r ==> forall k :: 0 <= k < |r| ==> r[k].id > x.id)
  {
    OccupiedDistinct(records);
    OccupiedCount(records);
    SortedDescends(Occupied(records));
    hide Occupied; hide Sorted; hide Count;
    FirstAreNewest(Occupied(records), Sorted(Occupied(records)), limit);
  }

  lemma FirstAreNewest(o: seq<Record>, s: seq<Record>, limit: nat)
    requires Descending(s) && multiset(s) == multiset(o)
    ensures var r := if |s| > limit then s[..limit] else s;
            && Descending(r) && |r| == (if limit < |o| then limit else |o|)
            && (forall k :: 0 <= k < |r| ==> r[k] in o)
            && (forall x :: x in o && x !in r ==> forall k :: 0 <= k < |r| ==> r[k].id > x.id)
  {
    var r := if |s| > limit then s[..limit] else s;
    assert |multiset(s)| == |s| && |multiset(o)| == |o|;
    forall k | 0 <= k < |r| ensures r[k] in o {
      assert r[k] == s[k] && s[k] in multiset(o);
    }
    forall x | x in o && x !in r ensures forall k :: 0 <= k < |r| ==> r[k].id > x.id {
      assert x in multiset(s);
      var j :| 0 <= j < |s| && s[j] == x;
      assert j >= |r|;
    }
  }
}
