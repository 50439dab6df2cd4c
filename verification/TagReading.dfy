/**
 Polling for a tag: how a UID becomes stable, when its memory is read, and how
 long what was read stays published.
*/
module TagReading {
  import opened Prelude

  const STABLE_POLLS: nat := 3
  const READ_ATTEMPTS: nat := 3

  type Uid = nat

  datatype State =
    | StartingUp | NoTag | Stabilizing | OpenPrintTag | BlankTag | Unsupported | UnsupportedTechnology | Multiple
    | Error

  datatype Published = Published(uid: Uid, generation: nat, image: Bytes)

  /** One reading of the memory: two full images, and what the codec says. */
  datatype Contents = BlankImage | Decodable | Undecodable

  datatype Attempt = Attempt(first: Option<Bytes>, second: Option<Bytes>, contents: Contents)

  /** What the reader answers in one poll; None is an error. */
  datatype Answers = Answers(
    due: bool, initialized: bool, fieldOn: bool, inventory: Option<seq<Uid>>, nfca: Option<seq<Uid>>,
    attempt: Attempt, fieldOff: bool, healthy: bool)

  /** A record of one completed read, whatever the codec said; `seen` counts the
      polls in a row, this one included, that found exactly this UID. */
  datatype Event = Event(tag: Published, contents: Contents, seen: nat, second: Bytes)

  datatype Reader = Reader(
    state: State, initialized: bool, uid: Option<Uid>, tag: Option<Published>, generation: nat,
    candidate: Option<Uid>, processed: Option<Uid>, consecutive: nat, missed: nat, failures: nat,
    nfcaCandidate: Option<Uid>, nfcaMissed: nat,
    streak: nat, history: seq<Event>)

  const SILENT := Reader(StartingUp, false, None, None, 0, None, None, 0, 0, 0, None, 0, 0, [])

  /** Withdrawing what was read makes a new generation. */
  function Withdrawn(r: Reader): nat {
    if r.processed.Some? || r.tag.Some? then r.generation + 1 else r.generation
  }

  function ClearActive(r: Reader): Reader { r.(generation := Withdrawn(r), tag := None, processed := None) }

  function ClearNfca(r: Reader): Reader { r.(nfcaCandidate := None, nfcaMissed := 0) }

  function Fail(r: Reader): Reader { Leave(r, Error) }

  /** The tag is gone, there are several, or the reader failed. */
  function Leave(r: Reader, state: State): (q: Reader)
    ensures q.initialized == r.initialized
  {
    r.(generation := Withdrawn(r), tag := None, processed := None, nfcaCandidate := None, nfcaMissed := 0,
       missed := 0, candidate := None, consecutive := 0, uid := None, state := state, streak := 0)
  }

  /** Two full reads that agree byte for byte are published under a new generation. */
  function ReadTag(r: Reader, uid: Uid, a: Attempt): Option<Reader> {
    if a.first.None? || a.second.None? || a.first.value != a.second.value then None
    else
      var g := r.generation + 1;
      var t := Published(uid, g, a.first.value);
      var read := r.(processed := Some(uid), generation := g,
                     history := r.history + [Event(t, a.contents, r.streak, a.second.value)]);
      match a.contents
      case BlankImage => Some(read.(state := BlankTag))
      case Undecodable => Some(read.(state := Unsupported))
      case Decodable => Some(read.(state := OpenPrintTag, tag := Some(t)))
  }

  /** Exactly one tag answered: count it, from the start if it is another one. */
  function Track(r: Reader, uid: Uid): (q: Reader)
    ensures q.initialized == r.initialized
  {
    var same := r.candidate == Some(uid);
    var consecutive := if same then r.consecutive else 0;
    r.(missed := 0, uid := Some(uid), nfcaCandidate := None, nfcaMissed := 0, candidate := Some(uid),
       generation := if same then r.generation else Withdrawn(r),
       tag := if same then r.tag else None, processed := if same then r.processed else None,
       failures := if same then r.failures else 0,
       consecutive := if consecutive < STABLE_POLLS then consecutive + 1 else consecutive,
       streak := if same then r.streak + 1 else 1)
  }

  /** The third poll in a row reads the tag; a failed read is tried again on the
      next poll, the third failure is an error. */
  function SeeOne(r: Reader, uid: Uid, a: Attempt): (q: (Reader, bool))
    ensures q.0.initialized == r.initialized
  {
    var counted := Track(r, uid);
    if counted.processed.Some? then (counted, true)
    else if counted.consecutive < STABLE_POLLS then (counted.(state := Stabilizing), true)
    else
      match ReadTag(counted, uid, a)
      case Some(read) => (read.(failures := 0), true)
      case None =>
        if counted.failures + 1 < READ_ATTEMPTS then
          (counted.(failures := counted.failures + 1, state := Stabilizing, consecutive := STABLE_POLLS - 1), true)
        else (counted.(failures := 0), false)
  }

  function PollNfca(r: Reader, found: Option<seq<Uid>>): (q: (Reader, bool))
    ensures q.0.initialized == r.initialized
  {
    if found.None? then (r, false)
    else if found.value == [] && r.nfcaMissed == 0 && r.nfcaCandidate.Some? then (r.(nfcaMissed := 1), true)
    else if |found.value| != 1 then (Leave(r, if found.value == [] then NoTag else Multiple), true)
    else if r.nfcaCandidate == Some(found.value[0]) then
      (r.(nfcaMissed := 0, missed := 0, state := UnsupportedTechnology), true)
    else
      (r.(nfcaMissed := 0, missed := 0, state := UnsupportedTechnology, nfcaCandidate := Some(found.value[0]),
          tag := None, processed := None, candidate := None, consecutive := 0, uid := None, streak := 0,
          generation := Withdrawn(r) + 1), true)
  }

  function Inventory(r: Reader, a: Answers): (Reader, bool) {
    if !a.fieldOn || a.inventory.None? then (r, false)
    else
      var tags := a.inventory.value;
      var tracked := r.processed.Some? || r.candidate.Some?;
      if tags == [] && !tracked then PollNfca(r, a.nfca)
      else if tags == [] && r.missed == 0 then
        (r.(missed := 1, consecutive := if r.processed.Some? then r.consecutive else 0, streak := 0), true)
      else if |tags| != 1 then (Leave(r, if tags == [] then NoTag else Multiple), true)
      else SeeOne(r, tags[0], a.attempt)
  }

  function Poll(r: Reader, a: Answers): Reader {
    if !a.due then r
    else if !r.initialized && !a.initialized then Fail(r)
    else
      var (q, ok) := Inventory(r.(initialized := true), a);
      if ok && a.fieldOff && a.healthy then q
      else Fail(q.(initialized := a.healthy))
  }

  // ---------------------------------------------------------------- invariant

  predicate Stable(r: Reader) {
    && (r.tag.Some? ==> r.processed == Some(r.tag.value.uid) && r.history != []
                        && r.history[|r.history| - 1].tag == r.tag.value
                        && r.history[|r.history| - 1].contents.Decodable?)
    && (r.processed.Some? ==> r.candidate == r.processed && r.missed <= 1)
    && (r.processed.None? ==> r.consecutive <= r.streak)
    && r.missed <= 1
  }

  predicate Logged(r: Reader) {
    && (forall i :: 0 <= i < |r.history| ==>
          r.history[i].seen >= 3 && r.history[i].second == r.history[i].tag.image
          && r.history[i].tag.generation <= r.generation)
    && (forall i, j :: 0 <= i < j < |r.history| ==> r.history[i].tag.generation < r.history[j].tag.generation)
  }

  predicate Inv(r: Reader) { Stable(r) && Logged(r) }

  lemma TrackKeeps(r: Reader, uid: Uid)
    requires Inv(r)
    ensures Inv(Track(r, uid)) && Track(r, uid).candidate == Some(uid)
  {
  }

  lemma ReadKeeps(r: Reader, uid: Uid, a: Attempt)
    requires Inv(r) && r.candidate == Some(uid) && r.processed.None? && r.consecutive >= STABLE_POLLS
    ensures ReadTag(r, uid, a).Some? ==> Inv(ReadTag(r, uid, a).value)
  {
    if ReadTag(r, uid, a).Some? { LogKeeps(r, ReadTag(r, uid, a).value); }
  }

  lemma LogKeeps(r: Reader, q: Reader)
    requires Logged(r) && q.generation > r.generation
    requires |q.history| == |r.history| + 1 && q.history[..|r.history|] == r.history
    requires var e := q.history[|r.history|];
             e.seen >= 3 && e.second == e.tag.image && e.tag.generation == q.generation
    ensures Logged(q)
  {
    assert forall i :: 0 <= i < |r.history| ==> q.history[i] == r.history[i];
  }

  lemma SeeOneKeeps(r: Reader, uid: Uid, a: Attempt)
    requires Inv(r)
    ensures Inv(SeeOne(r, uid, a).0)
  {
    hide Track; hide ReadTag;
    TrackKeeps(r, uid);
    var counted := Track(r, uid);
    if counted.processed.None? && counted.consecutive >= STABLE_POLLS { ReadKeeps(counted, uid, a); }
  }

  lemma FailKeeps(r: Reader, state: State)
    requires Inv(r)
    ensures Inv(Fail(r)) && Inv(Leave(r, state))
  {
  }

  lemma NfcaKeeps(r: Reader, found: Option<seq<Uid>>)
    requires Inv(r)
    ensures Inv(PollNfca(r, found).0)
  {
    hide Leave;
    FailKeeps(r, NoTag);
    FailKeeps(r, Multiple);
  }

  lemma InventoryKeeps(r: Reader, a: Answers)
    requires Inv(r)
    ensures Inv(Inventory(r, a).0)
  {
    hide SeeOne; hide PollNfca; hide Leave;
    NfcaKeeps(r, a.nfca);
    FailKeeps(r, NoTag);
    FailKeeps(r, Multiple);
    if a.inventory.Some? && |a.inventory.value| == 1 { SeeOneKeeps(r, a.inventory.value[0], a.attempt); }
  }

  lemma PollKeeps(r: Reader, a: Answers)
    requires Inv(r)
    ensures Inv(Poll(r, a))
  {
    hide Inventory; hide Fail;
    FailKeeps(r, NoTag);
    InventoryKeeps(r.(initialized := true), a);
    FailKeeps(Inventory(r.(initialized := true), a).0.(initialized := a.healthy), NoTag);
  }

  /** Polls and, between them, invalidations after a write. */
  datatype Turn = Polled(answers: Answers) | Invalidated

  function Invalidate(r: Reader): Reader {
    r.(generation := Withdrawn(r), tag := None, processed := None, nfcaCandidate := None, nfcaMissed := 0,
       candidate := None, consecutive := 0, missed := 0, failures := 0, streak := 0)
  }

  function Run(turns: seq<Turn>): Reader {
    if turns == [] then SILENT
    else
      var r := Run(turns[..|turns| - 1]);
      match turns[|turns| - 1]
      case Polled(a) => Poll(r, a)
      case Invalidated => Invalidate(r)
  }

  lemma {:induction false} RunKeeps(turns: seq<Turn>)
    ensures Inv(Run(turns))
  {
    hide Poll;
    if turns != [] {
      var r := Run(turns[..|turns| - 1]);
      RunKeeps(turns[..|turns| - 1]);
      match turns[|turns| - 1]
      case Polled(a) => PollKeeps(r, a);
      case Invalidated =>
    }
  }

  /** In every run, each completed read, published or not, was of a tag seen alone
      on at least three polls in a row, took two identical full reads, and no two
      reads share a generation; what is published now is the last of them. */
  lemma PublicationsAreStable(turns: seq<Turn>, i: nat, j: nat)
    requires i < |Run(turns).history| && j < |Run(turns).history|
    ensures var r := Run(turns);
            && r.history[i].seen >= 3 && r.history[i].second == r.history[i].tag.image
            && (i != j ==> r.history[i].tag.generation != r.history[j].tag.generation)
            && (r.tag.Some? ==> r.history[|r.history| - 1].tag == r.tag.value
                                && r.history[|r.history| - 1].contents.Decodable?)
  {
    RunKeeps(turns);
    hide Run;
    if i < j {
      assert Run(turns).history[i].tag.generation < Run(turns).history[j].tag.generation;
    } else if j < i {
      assert Run(turns).history[j].tag.generation < Run(turns).history[i].tag.generation;
    }
  }

  /** The polls in a row, up to the last one, whose inventory was this UID alone. */
  function SeenAlone(turns: seq<Turn>, uid: Uid): nat {
    if turns == [] then 0
    else
      var before := SeenAlone(turns[..|turns| - 1], uid);
      match turns[|turns| - 1]
      case Invalidated => before
      case Polled(a) =>
        if !a.due then before else if a.fieldOn && a.inventory == Some([uid]) then before + 1 else 0
  }

  lemma {:induction false} StreakIsSeen(turns: seq<Turn>)
    ensures var r := Run(turns); r.candidate.Some? ==> r.streak <= SeenAlone(turns, r.candidate.value)
  {
    if turns != [] {
      StreakIsSeen(turns[..|turns| - 1]);
      if turns[|turns| - 1].Polled? {
        StreakStep(Run(turns[..|turns| - 1]), turns[|turns| - 1].answers);
      }
    }
  }

  /** A poll lengthens the streak only by seeing its candidate alone. */
  lemma StreakStep(r: Reader, a: Answers)
    ensures var q := Poll(r, a);
            q.candidate.Some? ==>
              || (q.candidate == r.candidate && q.streak == r.streak && !a.due)
              || (a.due && a.fieldOn && a.inventory == Some([q.candidate.value])
                  && q.streak <= 1 + (if q.candidate == r.candidate then r.streak else 0))
              || q.streak == 0
  {
    if a.inventory.Some? && |a.inventory.value| == 1 { assert a.inventory.value == [a.inventory.value[0]]; }
  }

  /** Whatever a poll newly publishes, it has read twice alike in this very poll,
      from a tag that this poll and the two or more before it found alone, and
      publishes under a generation that no earlier read had. */
  lemma PublicationIsEarned(turns: seq<Turn>, a: Answers)
    requires Poll(Run(turns), a).tag.Some? && Poll(Run(turns), a).tag != Run(turns).tag
    ensures var r := Run(turns);
            var t := Poll(r, a).tag.value;
            && a.due && a.fieldOn && a.inventory == Some([t.uid])
            && a.attempt == Attempt(Some(t.image), Some(t.image), Decodable)
            && SeenAlone(turns + [Polled(a)], t.uid) >= 3
            && (forall i :: 0 <= i < |r.history| ==> r.history[i].tag.generation < t.generation)
  {
    RunKeeps(turns);
    StreakIsSeen(turns);
    assert (turns + [Polled(a)])[..|turns|] == turns;
    Publishes(Run(turns), a);
  }

  lemma Publishes(r: Reader, a: Answers)
    requires Inv(r) && Poll(r, a).tag.Some? && Poll(r, a).tag != r.tag
    ensures var t := Poll(r, a).tag.value;
            && a.due && a.fieldOn && a.inventory == Some([t.uid])
            && a.attempt == Attempt(Some(t.image), Some(t.image), Decodable)
            && 3 <= 1 + (if r.candidate == Some(t.uid) then r.streak else 0)
            && r.generation < t.generation
  {
    if a.inventory.Some? && |a.inventory.value| == 1 {
      assert a.inventory.value == [a.inventory.value[0]];
      TrackKeeps(r.(initialized := true), a.inventory.value[0]);
    }
  }

  /** The poll that leaves a published tag alone. */
  predicate Keeps(r: Reader, a: Answers) {
    r.tag.Some? &&
    (!a.due
     || ((r.initialized || a.initialized) && a.fieldOn && a.fieldOff && a.healthy && a.inventory.Some?
         && (a.inventory.value == [r.tag.value.uid] || (a.inventory.value == [] && r.missed == 0))))
  }

  /** A published tag outlives a poll exactly if the reader worked and either
      found that tag alone or found nothing for the first time; otherwise it is
      withdrawn at once, and under a newer generation. */
  lemma SurvivesOneEmptyAnswer(turns: seq<Turn>, a: Answers)
    requires Run(turns).tag.Some?
    ensures var r := Run(turns);
            var v := Poll(r, a);
            && (v.tag == r.tag <==> Keeps(r, a))
            && (Keeps(r, a) ==> v.generation == r.generation)
            && (!Keeps(r, a) ==> v.generation > r.generation && v.tag.None?)
            && (Keeps(r, a) && a.due ==> v.missed == if a.inventory.value == [] then 1 else 0)
  {
    RunKeeps(turns);
    hide Run;
  }

  /** A poll in which everything works and exactly this tag answers. */
  predicate Sees(a: Answers, uid: Uid) {
    a.due && a.initialized && a.fieldOn && a.fieldOff && a.healthy && a.inventory == Some([uid])
  }

  predicate Agree(a: Attempt) { a.first.Some? && a.first == a.second }

  /** What a poll makes of a tag that is due to be read. */
  predicate IsRead(r: Reader, uid: Uid, a: Attempt, v: Reader)
    requires Agree(a)
  {
    && v.processed == Some(uid) && v.generation == r.generation + 1
    && match a.contents
       case Decodable => v.state.OpenPrintTag? && v.tag == Some(Published(uid, v.generation, a.first.value))
       case BlankImage => v.state.BlankTag? && v.tag.None?
       case Undecodable => v.state.Unsupported? && v.tag.None?
  }

  predicate IsPending(v: Reader, uid: Uid) {
    v.state.Stabilizing? && v.candidate == Some(uid) && v.processed.None? && v.tag.None?
  }

  /** A new tag that stays is read on the third poll, not before, and published
      if it decodes. */
  lemma ThirdPollReads(turns: seq<Turn>, uid: Uid, a: seq<Answers>)
    requires Run(turns).candidate != Some(uid)
    requires |a| == 3 && (forall i :: 0 <= i < 3 ==> Sees(a[i], uid)) && Agree(a[2].attempt)
    ensures var v1 := Poll(Run(turns), a[0]);
            var v2 := Poll(v1, a[1]);
            && IsPending(v1, uid) && IsPending(v2, uid) && IsRead(v2, uid, a[2].attempt, Poll(v2, a[2]))
  {
    hide Run;
    CountsOne(Run(turns), uid, a[0]);
    var v1 := Poll(Run(turns), a[0]);
    CountsOne(v1, uid, a[1]);
    var v2 := Poll(v1, a[1]);
    ReadsOrRetries(v2, uid, a[2]);
  }

  /** A read that fails is repeated on the next poll; only the third failure in a
      row gives up, as an error, and the next sighting starts afresh. */
  lemma FailedReadsAreRepeated(r: Reader, uid: Uid, a: seq<Answers>)
    requires IsPending(r, uid) && r.consecutive == 2 && r.failures == 0
    requires |a| == 3 && forall i :: 0 <= i < 3 ==> Sees(a[i], uid)
    ensures var v1 := Poll(r, a[0]);
            var v2 := Poll(v1, a[1]);
            var v3 := Poll(v2, a[2]);
            if Agree(a[0].attempt) then IsRead(r, uid, a[0].attempt, v1)
            else if Agree(a[1].attempt) then IsPending(v1, uid) && IsRead(v1, uid, a[1].attempt, v2)
            else if Agree(a[2].attempt) then IsPending(v2, uid) && IsRead(v2, uid, a[2].attempt, v3)
            else IsPending(v2, uid) && v3.state.Error? && v3.candidate.None? && v3.tag.None?
  {
    var v1 := Poll(r, a[0]);
    ReadsOrRetries(r, uid, a[0]);
    if !Agree(a[0].attempt) {
      ReadsOrRetries(v1, uid, a[1]);
      if !Agree(a[1].attempt) { ReadsOrRetries(Poll(v1, a[1]), uid, a[2]); }
    }
  }

  lemma CountsOne(r: Reader, uid: Uid, a: Answers)
    requires Sees(a, uid)
    requires r.candidate != Some(uid) || (IsPending(r, uid) && r.consecutive == 1 && r.failures == 0)
    ensures var v := Poll(r, a);
            IsPending(v, uid) && v.failures == 0 && v.consecutive == if r.candidate == Some(uid) then 2 else 1
  {
  }

  lemma ReadsOrRetries(r: Reader, uid: Uid, a: Answers)
    requires Sees(a, uid) && IsPending(r, uid) && r.consecutive == 2 && r.failures <= 2
    ensures var v := Poll(r, a);
            if Agree(a.attempt) then IsRead(r, uid, a.attempt, v)
            else if r.failures < 2 then IsPending(v, uid) && v.consecutive == 2 && v.failures == r.failures + 1
            else v.state.Error? && v.candidate.None? && v.tag.None?
  {
  }

  /** What a working poll shows when no single tag of the first technology
      answers: several, none, or a tag of the second technology; a tag that was
      there is given one more poll. */
  lemma WhatAPollShows(r: Reader, a: Answers)
    requires a.due && a.initialized && a.fieldOn && a.fieldOff && a.healthy && a.inventory.Some? && a.nfca.Some?
    ensures var v := Poll(r, a);
            var tags, others := a.inventory.value, a.nfca.value;
            var tracked := r.processed.Some? || r.candidate.Some?;
            && (|tags| > 1 ==> v.state.Multiple? && v.tag.None? && v.uid.None?)
            && (tags == [] && tracked ==>
                  if r.missed == 0 then v.state == r.state && v.tag == r.tag else v.state.NoTag? && v.tag.None?)
            && (tags == [] && !tracked ==>
                  && (|others| > 1 ==> v.state.Multiple?)
                  && (|others| == 1 ==>
                        && v.state.UnsupportedTechnology? && v.nfcaCandidate == Some(others[0])
                        && (r.nfcaCandidate != v.nfcaCandidate ==> v.generation > r.generation))
                  && (others == [] ==>
                        if r.nfcaCandidate.Some? && r.nfcaMissed == 0 then v.state == r.state else v.state.NoTag?))
  {
  }
}
