/**
 Writing a tag that may be lifted, and a station that may lose power, at any
 call. The tag changes only through single block commits; a journal saved
 before the first of them names the old and the new image.
*/
module TagWriter {
  import opened Prelude
  import opened TagPlan

  /** What one call to the reader, the tag or the journal does. */
  datatype Answer =
    | Works
    | Fails        // no effect, reports an error
    | FailsAfter   // takes effect, reports an error
    | Lost         // no effect, reports success
    | Cut          // power is lost before the effect

  datatype Operation = Write | Clear

  datatype JournalState = NoJournal | AtOriginal | AtTarget | Partial

  datatype Plan = Plan(
    operation: Operation, original: Image, target: Image, blocks: seq<Index>, order: seq<Index>,
    journalState: JournalState, attempted: bool, verified: bool)

  datatype Journal = Journal(operation: Operation, original: Image, target: Image)

  /** `clean` is the last image known to be whole: the first one, the target of
      the last finished plan, or what the user accepted by discarding a journal;
      `commits` counts the block commits that took effect. Neither is known to
      the firmware. */
  datatype Station = Station(
    tag: Image, journal: Option<Journal>, plan: Option<Plan>, pending: bool, powered: bool,
    env: seq<Answer>, next: nat, clean: Image, commits: nat)

  /** Nothing but the power and the position in the environment has changed. */
  predicate Untouched(before: Station, after: Station) {
    after == before.(powered := after.powered, next := after.next) && (after.powered ==> before.powered)
  }

  function Draw(w: Station): (r: (Station, Answer))
    ensures Untouched(w, r.0)
    ensures r.0.powered <==> !r.1.Cut?
  {
    var a := if !w.powered then Cut else if w.next < |w.env| then w.env[w.next] else Works;
    (w.(powered := !a.Cut?, next := w.next + 1), a)
  }

  /** A call that only asks: it answers truthfully or fails. */
  function Ask(w: Station): (r: (Station, bool))
    ensures Untouched(w, r.0)
    ensures r.1 ==> r.0.powered
  {
    var (v, a) := Draw(w);
    (v, a.Works?)
  }

  /** Every block once, in order, each behind a fence, and a fence at the end. */
  function FullReadFrom(w: Station, block: nat): (r: (Station, bool))
    requires block <= BLOCKS
    ensures Untouched(w, r.0)
    ensures r.1 ==> r.0.powered
    decreases BLOCKS - block
  {
    var (w1, fenced) := Ask(w);
    if !fenced then (w1, false)
    else if block == BLOCKS then (w1, true)
    else
      var (w2, read) := Ask(w1);
      if !read then (w2, false) else FullReadFrom(w2, block + 1)
  }

  // ---------------------------------------------------------------- reading

  datatype Reading = Broken | Torn | Unsupported | WriteProtected | Ready(state: JournalState)

  /** Every block is one of the two images'. */
  predicate Between(tag: Image, original: Image, target: Image) {
    forall b :: 0 <= b < BLOCKS ==> tag[b] == original[b] || tag[b] == target[b]
  }

  function Classify(tag: Image, journal: Journal): (state: Option<JournalState>)
    ensures state != Some(NoJournal)
  {
    if !Between(tag, journal.original, journal.target) then None
    else if tag == journal.target then Some(AtTarget)
    else if tag == journal.original then Some(AtOriginal)
    else Some(Partial)
  }

  predicate Blank(tag: Image) { forall b :: 0 <= b < USABLE ==> tag[b] == ZERO }

  /** An unfinished journal is compared block by block before anything is decoded. */
  function Judge(tag: Image, interrupted: Option<Journal>, decode: Image -> Decoding): (r: Reading)
    ensures r.Ready? ==>
              Some(r.state) == if interrupted.Some? then Classify(tag, interrupted.value) else Some(NoJournal)
    ensures r.Torn? ==> interrupted.Some? && !Between(tag, interrupted.value.original, interrupted.value.target)
    ensures !r.Broken?
  {
    var state := if interrupted.Some? then Classify(tag, interrupted.value) else Some(NoJournal);
    if state.None? then Torn
    else if Blank(tag) then Ready(state.value)
    else if decode(tag).Undecodable? && !state.value.Partial? && !state.value.AtOriginal? then Unsupported
    else if decode(tag).locked then WriteProtected
    else Ready(state.value)
  }

  /** The whole tag is read twice. */
  function ScanTag(w: Station): (r: (Station, bool))
    ensures Untouched(w, r.0)
    ensures r.1 ==> r.0.powered
  {
    var (w1, found) := Ask(w);
    if !found then (w1, false)
    else
      var (w2, first) := FullReadFrom(w1, 0);
      if !first then (w2, false) else FullReadFrom(w2, 0)
  }

  function ReadTag(w: Station, interrupted: Option<Journal>, decode: Image -> Decoding): (r: (Station, Reading))
    ensures Untouched(w, r.0)
    ensures r.1 == Judge(w.tag, interrupted, decode) || r.1.Broken?
  {
    var (v, scanned) := ScanTag(w);
    if !scanned then (v, Broken)
    else
      var reading := Judge(w.tag, interrupted, decode);
      if reading.Ready? then CloseField(v, reading) else (v, reading)
  }

  function CloseField(w: Station, reading: Reading): (r: (Station, Reading))
    ensures Untouched(w, r.0)
    ensures r.1 == reading || r.1.Broken?
  {
    var (v, closed) := Ask(w);
    (v, if closed then reading else Broken)
  }

  // ---------------------------------------------------------------- writing

  function Commit(w: Station, b: Index, value: Block): (r: (Station, bool))
    ensures Untouched(w, r.0)
         || Untouched(w.(tag := w.tag[b := value], commits := w.commits + 1), r.0)
  {
    var (v, a) := Draw(w);
    var done := a.Works? || a.FailsAfter?;
    (if done then v.(tag := v.tag[b := value], commits := v.commits + 1) else v, a.Works? || a.Lost?)
  }

  /** Block `i` of the plan and all later ones, each fenced, compared with the
      original, committed, and read back; the first surprise ends it. */
  function WriteBlocks(w: Station, p: Plan, i: nat): (Station, bool)
    requires i <= |p.blocks|
    decreases |p.blocks| - i
  {
    if i == |p.blocks| then (w, true)
    else
      var (v, written) := WriteBlock(w, p.blocks[i], p.original[p.blocks[i]], p.target[p.blocks[i]]);
      if written then WriteBlocks(v, p, i + 1) else (v, false)
  }

  function WriteBlock(w: Station, b: Index, original: Block, target: Block): (r: (Station, bool))
    ensures Untouched(w, r.0) || Untouched(w.(tag := w.tag[b := target], commits := w.commits + 1), r.0)
    ensures r.1 ==> r.0.tag[b] == target
  {
    var (w1, fenced) := Ask(w);
    if !fenced then (w1, false)
    else
      var (w2, read) := Ask(w1);
      if !read || w2.tag[b] != original then (w2, false)
      else
        var (w3, committed) := Commit(w2, b, target);
        if !committed then (w3, false)
        else
          var (w4, readBack) := Ask(w3);
          (w4, readBack && w4.tag[b] == target)
  }

  /** The result also says whether blocks were attempted and the tag verified. */
  function Execute(w: Station, p: Plan, decode: Image -> Decoding): (Station, Plan, bool) {
    if p.verified then (w, p, true)
    else
      var (w1, enabled) := Ask(w);
      if !enabled || p.attempted then (w1, p, false)
      else
        var (w2, read) := FullReadFrom(w1, 0);
        if !read || w2.tag != p.original then (w2, p, false)
        else
          var q := p.(attempted := true);
          var (w3, written) := WriteBlocks(w2, p, 0);
          if !written then (w3, q, false) else Verify(w3, q, decode)
  }

  function Verify(w: Station, p: Plan, decode: Image -> Decoding): (r: (Station, Plan, bool))
    ensures Untouched(w, r.0)
    ensures r.1 == if r.2 then p.(verified := true) else p
    ensures r.2 ==> w.tag == p.target
  {
    var (w1, read) := FullReadFrom(w, 0);
    if !read || w1.tag != p.target then (w1, p, false)
    else if p.operation.Clear? && !Blank(w1.tag) then (w1, p, false)
    else if p.operation.Write? && (decode(w1.tag).Undecodable? || !decode(w1.tag).identified) then (w1, p, false)
    else
      var (w2, fenced) := Ask(w1);
      if !fenced then (w2, p, false)
      else
        var (w3, closed) := Ask(w2);
        if !closed then (w3, p, false) else (w3, p.(verified := true), true)
  }

  // ---------------------------------------------------------------- the station's commands

  datatype Event =
    | Preview(target: Image, env: seq<Answer>)
    | PreviewClear(env: seq<Answer>)
    | Confirm(env: seq<Answer>)
    | Associate
    | Discard
    | Restart

  function Interrupted(w: Station): Option<Journal> {
    if w.journal.Some? then w.journal
    else if w.plan.Some? && w.plan.value.attempted then
      Some(Journal(w.plan.value.operation, w.plan.value.original, w.plan.value.target))
    else None
  }

  /** A tag that already holds the journal's target is only associated; else the
      confirmed plan starts from what the tag holds now. */
  function PreviewWrite(w: Station, target: Image, decode: Image -> Decoding): Station
    requires decode(target).Placed()
  {
    var (v, reading) := ReadTag(w, Interrupted(w), decode);
    match reading
    case Ready(state) =>
      if state.AtTarget? && Interrupted(w).value.operation.Write? then
        v.(plan := Some(Plan(Write, v.tag, v.tag, [], [], state, false, true)), pending := true)
      else
        (match PlanWrite(v.tag, target, decode)
         case Refused => v.(plan := None)
         case Commits(blocks) =>
           var first, last := decode(target).identity / 4, (decode(target).identity + 18) / 4;
           v.(plan := Some(Plan(Write, v.tag, target, blocks, WriteOrder(first, last), state, false, false))))
    case _ => v
  }

  function PreviewErase(w: Station, decode: Image -> Decoding): Station {
    var (v, reading) := ReadTag(w, Interrupted(w), decode);
    match reading
    case Ready(state) =>
      var target := Cleared(v.tag);
      if state.AtTarget? && Interrupted(w).value.operation.Clear? then
        var p := Plan(Clear, v.tag, v.tag, [], [], state, false, true);
        v.(plan := Some(p), pending := true)
      else
        var blocks := Differing(v.tag, target, CLEAR_ORDER);
        v.(plan := Some(Plan(Clear, v.tag, target, blocks, CLEAR_ORDER, state, false, false)))
    case _ => v
  }

  /** The journal is saved before the first commit; if the plan was refused
      before any block was attempted and nothing was owed, it is cleared again. */
  function ConfirmPlan(w: Station, p: Plan, decode: Image -> Decoding): Station {
    var (w1, saved) := Ask(w);
    if !saved then w1
    else
      var w2 := w1.(journal := Some(Journal(p.operation, p.original, p.target)));
      var (w3, q, done) := Execute(w2, p, decode);
      var w4 := w3.(plan := Some(q));
      if done then w4.(pending := true, clean := q.target)
      else if !q.attempted && q.journalState.NoJournal? && w4.powered then w4.(journal := None)
      else w4
  }

  ghost predicate Sane(decode: Image -> Decoding) { forall image :: decode(image).Placed() }

  function Next(w: Station, e: Event, decode: Image -> Decoding): Station
    requires Sane(decode)
  {
    match e
    case Preview(target, env) =>
      if !w.powered || w.pending then w else PreviewWrite(w.(env := env, next := 0), target, decode)
    case PreviewClear(env) => if !w.powered || w.pending then w else PreviewErase(w.(env := env, next := 0), decode)
    case Confirm(env) =>
      if !w.powered || w.pending || w.plan.None? || w.plan.value.verified then w
      else ConfirmPlan(w.(env := env, next := 0), w.plan.value, decode)
    case Associate =>
      if w.powered && w.pending && w.plan.Some? then
        w.(journal := None, plan := None, pending := false, clean := w.plan.value.target)
      else w
    case Discard => w.(journal := None, plan := None, pending := false, clean := w.tag)
    case Restart => w.(plan := None, pending := false, powered := true)
  }

  // ---------------------------------------------------------------- one execution

  function Applied(original: Image, target: Image, blocks: seq<Index>): Image {
    if blocks == [] then original
    else
      var b := blocks[|blocks| - 1];
      Applied(original, target, blocks[..|blocks| - 1])[b := target[b]]
  }

  lemma {:induction false} AppliedAt(original: Image, target: Image, blocks: seq<Index>, b: Index)
    ensures Applied(original, target, blocks)[b] == if b in blocks then target[b] else original[b]
  {
    if blocks != [] {
      var n := |blocks| - 1;
      assert blocks == blocks[..n] + [blocks[n]];
      AppliedAt(original, target, blocks[..n], b);
    }
  }

  lemma AppliedStep(original: Image, target: Image, blocks: seq<Index>, i: nat)
    requires i < |blocks|
    ensures Applied(original, target, blocks[..i + 1])
         == Applied(original, target, blocks[..i])[blocks[i] := target[blocks[i]]]
  {
    assert blocks[..i + 1][..i] == blocks[..i];
  }

  /** Wherever it is interrupted, an execution has committed a prefix of its
      plan: one effective commit for each block of the prefix, all of them if it
      reports success. */
  lemma {:induction false} WritesAPrefix(w: Station, p: Plan, i: nat)
    requires i <= |p.blocks| && w.tag == Applied(p.original, p.target, p.blocks[..i])
    requires Distinct(p.blocks) && forall k :: 0 <= k < |p.blocks| ==> p.original[p.blocks[k]] != p.target[p.blocks[k]]
    ensures WrittenFrom(w, p, i, WriteBlocks(w, p, i).0, WriteBlocks(w, p, i).1)
    decreases |p.blocks| - i
  {
    hide Applied; hide Distinct; hide WriteBlock; hide Untouched;
    if i < |p.blocks| {
      var b := p.blocks[i];
      var (v, written) := WriteBlock(w, b, p.original[b], p.target[b]);
      OneBlock(w, p, i);
      if written { WritesAPrefix(v, p, i + 1); }
    }
  }

  predicate WrittenFrom(w: Station, p: Plan, i: nat, v: Station, done: bool)
    requires i <= |p.blocks|
  {
    && w.commits <= v.commits && i + (v.commits - w.commits) <= |p.blocks|
    && v.tag == Applied(p.original, p.target, p.blocks[..i + (v.commits - w.commits)])
    && (done ==> i + (v.commits - w.commits) == |p.blocks|)
    && v == w.(tag := v.tag, commits := v.commits, powered := v.powered, next := v.next)
    && (v.powered ==> w.powered)
  }

  lemma OneBlock(w: Station, p: Plan, i: nat)
    requires i < |p.blocks| && w.tag == Applied(p.original, p.target, p.blocks[..i])
    requires Distinct(p.blocks) && p.original[p.blocks[i]] != p.target[p.blocks[i]]
    ensures var (v, written) := WriteBlock(w, p.blocks[i], p.original[p.blocks[i]], p.target[p.blocks[i]]);
            && v == w.(tag := v.tag, commits := v.commits, powered := v.powered, next := v.next)
            && (v.powered ==> w.powered)
            && (if v.commits == w.commits then v.tag == w.tag
                else v.commits == w.commits + 1 && v.tag == Applied(p.original, p.target, p.blocks[..i + 1]))
            && (written ==> v.commits == w.commits + 1)
  {
    var b := p.blocks[i];
    AppliedStep(p.original, p.target, p.blocks, i);
    AppliedAt(p.original, p.target, p.blocks[..i], b);
    assert b !in p.blocks[..i];
    hide WriteBlock; hide Applied; hide Distinct;
  }

  // ---------------------------------------------------------------- invariant

  predicate SameTail(a: Image, b: Image) { a[USABLE..] == b[USABLE..] }

  function JournalOf(p: Plan): Journal { Journal(p.operation, p.original, p.target) }

  ghost predicate WellPlanned(p: Plan) {
    HeaderLastOrder(p.order) && p.blocks == Differing(p.original, p.target, p.order)
  }

  predicate Covered(tag: Image, j: Journal) {
    Between(tag, j.original, j.target) && SameTail(tag, j.original) && SameTail(tag, j.target)
  }

  ghost predicate PlanHolds(w: Station, p: Plan) {
    if p.verified then
      w.pending && w.tag == p.target && w.journal.Some? && w.journal.value.target == p.target
    else if p.attempted then w.journal == Some(JournalOf(p))
    else
      && w.tag == p.original && SameTail(p.original, p.target) && WellPlanned(p)
      && (p.journalState.NoJournal? ==> w.tag == w.clean)
  }

  ghost predicate Inv(w: Station) {
    && (w.journal.Some? ==> Covered(w.tag, w.journal.value))
    && (w.plan.Some? ==> PlanHolds(w, w.plan.value))
    && (w.journal.None? ==> w.tag == w.clean)
    && (w.pending ==> w.plan.Some? && w.plan.value.verified)
  }

  lemma PrefixBetween(p: Plan, n: nat)
    requires n <= |p.blocks| && WellPlanned(p) && SameTail(p.original, p.target)
    ensures Covered(Applied(p.original, p.target, p.blocks[..n]), JournalOf(p))
  {
    var tag := Applied(p.original, p.target, p.blocks[..n]);
    PlanIsExact(p.original, p.target, p.order);
    forall b: Index ensures tag[b] == p.original[b] || (b < USABLE && tag[b] == p.target[b]) {
      AppliedAt(p.original, p.target, p.blocks[..n], b);
      assert b in p.blocks[..n] ==> b in p.blocks;
    }
    assert forall k :: 0 <= k < BLOCKS - USABLE ==> tag[USABLE..][k] == p.original[USABLE..][k];
  }

  lemma PlanStarts(p: Plan)
    requires WellPlanned(p)
    ensures Applied(p.original, p.target, p.blocks[..0]) == p.original && Distinct(p.blocks)
    ensures forall k :: 0 <= k < |p.blocks| ==> p.original[p.blocks[k]] != p.target[p.blocks[k]]
  {
    PlanIsExact(p.original, p.target, p.order);
  }

  /** What is about to be journaled covers the tag. */
  lemma PlanCovers(w: Station, p: Plan)
    requires Inv(w) && w.plan == Some(p) && !p.verified
    ensures Covered(w.tag, JournalOf(p))
  {
  }

  lemma ExecuteKeeps(w: Station, p: Plan, decode: Image -> Decoding)
    requires Covered(w.tag, JournalOf(p)) && w.journal == Some(JournalOf(p)) && !p.verified
    requires !p.attempted ==> w.tag == p.original && SameTail(p.original, p.target) && WellPlanned(p)
    ensures var (v, q, done) := Execute(w, p, decode);
            && v == w.(tag := v.tag, commits := v.commits, powered := v.powered, next := v.next)
            && Covered(v.tag, JournalOf(p)) && q == p.(attempted := q.attempted, verified := done)
            && (done ==> v.tag == p.target)
            && (!q.attempted ==> v.tag == w.tag && v.commits == w.commits)
            && (!p.attempted ==>
                  && w.commits <= v.commits <= w.commits + |p.blocks|
                  && v.tag == Applied(p.original, p.target, p.blocks[..v.commits - w.commits])
                  && (done ==> v.commits == w.commits + |p.blocks|))
            && (p.attempted ==> v.tag == w.tag && v.commits == w.commits && q == p && !done)
  {
    hide Ask; hide FullReadFrom; hide WriteBlocks; hide Verify; hide Between; hide Applied; hide WellPlanned;
    hide SameTail; hide Covered;
    var w1 := Ask(w).0;
    var (w2, read) := FullReadFrom(w1, 0);
    if !p.attempted {
      PlanStarts(p);
      WritesAPrefix(w2, p, 0);
      PrefixBetween(p, WriteBlocks(w2, p, 0).0.commits - w2.commits);
      PrefixBetween(p, 0);
    }
  }

  lemma ConfirmKeeps(w: Station, p: Plan, decode: Image -> Decoding)
    requires Inv(w) && w.plan == Some(p) && !p.verified && !w.pending
    ensures Inv(ConfirmPlan(w, p, decode))
  {
    hide Ask; hide Execute; hide Between; hide WellPlanned;
    var w1 := Ask(w).0;
    var w2 := w1.(journal := Some(JournalOf(p)));
    PlanCovers(w, p);
    ExecuteKeeps(w2, p, decode);
    StillHolds(w, w1);
    hide Covered;
    var (w3, q, done) := Execute(w2, p, decode);
    assert JournalOf(q) == JournalOf(p);
    assert !q.attempted && !done ==> q == p;
  }

  lemma PreviewWriteKeeps(w: Station, target: Image, decode: Image -> Decoding)
    requires Inv(w) && !w.pending && decode(target).Placed()
    ensures Inv(PreviewWrite(w, target, decode))
  {
    hide ReadTag; hide PlanWrite; hide Covered; hide SameTail; hide WellPlanned; hide WriteOrder; hide Judge;
    var (v, reading) := ReadTag(w, Interrupted(w), decode);
    StillHolds(w, v);
    if reading.Ready? {
      assert reading == Judge(w.tag, Interrupted(w), decode);
      assert reading.state.NoJournal? ==> w.journal.None?;
      if PlanWrite(v.tag, target, decode).Commits? { PlansWell(v.tag, target, decode, reading.state); }
    }
  }

  lemma PlansWell(tag: Image, target: Image, decode: Image -> Decoding, state: JournalState)
    requires decode(target).Placed() && PlanWrite(tag, target, decode).Commits?
    ensures decode(target).Decoded? && SameTail(tag, target)
    ensures var first, last := decode(target).identity / 4, (decode(target).identity + 18) / 4;
            WellPlanned(Plan(Write, tag, target, PlanWrite(tag, target, decode).blocks, WriteOrder(first, last), state,
                             false, false))
  {
    hide Differing; hide HeaderLastOrder; hide WriteOrder;
    var first, last := decode(target).identity / 4, (decode(target).identity + 18) / 4;
    WriteOrderIsComplete(first, last);
  }

  /** Reading leaves every plan and journal as good as it was. */
  lemma StillHolds(w: Station, v: Station)
    requires Inv(w) && Untouched(w, v)
    ensures Inv(v)
  {
  }

  lemma PreviewEraseKeeps(w: Station, decode: Image -> Decoding)
    requires Inv(w) && !w.pending
    ensures Inv(PreviewErase(w, decode))
  {
    hide ReadTag; hide Differing; hide HeaderLastOrder;
    var (v, reading) := ReadTag(w, Interrupted(w), decode);
    ClearOrderIsComplete();
    StillHolds(w, v);
  }

  lemma SaneIsPlaced(decode: Image -> Decoding, target: Image)
    requires Sane(decode)
    ensures decode(target).Placed()
  {
  }

  lemma StepKeeps(w: Station, e: Event, decode: Image -> Decoding)
    requires Inv(w) && Sane(decode)
    ensures Inv(Next(w, e, decode))
  {
    hide Sane; hide PreviewWrite; hide PreviewErase; hide ConfirmPlan; hide Between; hide WellPlanned;
    match e
    case Preview(target, env) =>
      SaneIsPlaced(decode, target);
      if w.powered && !w.pending { PreviewWriteKeeps(w.(env := env, next := 0), target, decode); }
    case PreviewClear(env) =>
      if w.powered && !w.pending { PreviewEraseKeeps(w.(env := env, next := 0), decode); }
    case Confirm(env) =>
      if w.powered && !w.pending && w.plan.Some? && !w.plan.value.verified {
        ConfirmKeeps(w.(env := env, next := 0), w.plan.value, decode);
      }
    case Associate =>
    case Discard =>
    case Restart =>
  }

  function Run(w: Station, events: seq<Event>, decode: Image -> Decoding): Station
    requires Sane(decode)
  {
    if events == [] then w else Next(Run(w, events[..|events| - 1], decode), events[|events| - 1], decode)
  }

  /** A tag nobody is writing. */
  predicate Fresh(w: Station) {
    w.journal.None? && w.plan.None? && !w.pending && w.tag == w.clean
  }

  lemma {:induction false} RunKeeps(w: Station, events: seq<Event>, decode: Image -> Decoding)
    requires Fresh(w) && Sane(decode)
    ensures Inv(Run(w, events, decode))
  {
    hide Next; hide Sane;
    if events == [] {
    } else {
      hide Inv;
      RunKeeps(w, events[..|events| - 1], decode);
      StepKeeps(Run(w, events[..|events| - 1], decode), events[|events| - 1], decode);
    }
  }

  // ---------------------------------------------------------------- what it means

  /** However often writes and clears are interrupted, a read never finds a
      block that the journal does not know, and without a journal the tag holds
      a whole image. */
  lemma NeverTorn(w: Station, events: seq<Event>, decode: Image -> Decoding)
    requires Fresh(w) && Sane(decode)
    ensures var v := Run(w, events, decode);
            && !Judge(v.tag, Interrupted(v), decode).Torn?
            && (v.journal.Some? ==> Between(v.tag, v.journal.value.original, v.journal.value.target))
            && (v.journal.None? ==> v.tag == v.clean)
  {
    RunKeeps(w, events, decode);
    hide Run; hide Sane; hide Judge; hide WellPlanned;
  }

  /** A plan that waits for its association is finished: the tag is its target,
      which is the target in the journal that the association drops. */
  lemma AssociatesTheTarget(w: Station, events: seq<Event>, decode: Image -> Decoding)
    requires Fresh(w) && Sane(decode) && Run(w, events, decode).pending
    ensures var v := Run(w, events, decode);
            && v.plan.Some? && v.plan.value.verified && v.tag == v.plan.value.target
            && v.journal.Some? && v.journal.value.target == v.tag
            && (v.powered ==> Next(v, Associate, decode).journal.None?
                              && Next(v, Associate, decode).clean == v.plan.value.target)
  {
    RunKeeps(w, events, decode);
    hide Run; hide Inv; hide Next; hide Sane;
    var v := Run(w, events, decode);
    PendingIsFinished(v);
    if v.powered { AssociationDrops(v, decode); }
  }

  lemma PendingIsFinished(v: Station)
    requires Inv(v) && v.pending
    ensures v.plan.Some? && v.plan.value.verified && v.tag == v.plan.value.target
    ensures v.journal.Some? && v.journal.value.target == v.tag
  {
    hide WellPlanned; hide Covered;
  }

  lemma AssociationDrops(v: Station, decode: Image -> Decoding)
    requires Sane(decode) && v.pending && v.powered && v.plan.Some?
    ensures var z := Next(v, Associate, decode); z.journal.None? && z.clean == v.plan.value.target
  {
    hide Sane;
  }

  /** The preserved blocks keep their contents in every run. */
  lemma {:induction false} TailIsPreserved(w: Station, events: seq<Event>, decode: Image -> Decoding)
    requires Fresh(w) && Sane(decode)
    ensures SameTail(Run(w, events, decode).tag, w.tag)
  {
    hide Next; hide Sane;
    if events != [] {
      hide Inv; hide Fresh;
      var v := Run(w, events[..|events| - 1], decode);
      TailIsPreserved(w, events[..|events| - 1], decode);
      RunKeeps(w, events[..|events| - 1], decode);
      StepKeepsTail(v, events[|events| - 1], decode);
    }
  }

  lemma StepKeepsTail(w: Station, e: Event, decode: Image -> Decoding)
    requires Inv(w) && Sane(decode)
    ensures SameTail(Next(w, e, decode).tag, w.tag)
  {
    hide Sane; hide ReadTag; hide Between; hide WellPlanned; hide PlanWrite; hide Differing; hide Execute; hide Ask;
    match e
    case Confirm(env) =>
      if w.powered && !w.pending && w.plan.Some? && !w.plan.value.verified {
        var p := w.plan.value;
        var w1 := Ask(w.(env := env, next := 0)).0;
        PlanCovers(w, p);
        ExecuteKeeps(w1.(journal := Some(JournalOf(p))), p, decode);
      }
    case _ =>
  }

  // ---------------------------------------------------------------- progress toward one target

  /** The usable blocks in which the tag still differs from the target. */
  function Missing(tag: Image, target: Image): nat {
    |Differing(tag, target, CLEAR_ORDER)|
  }

  /** The number of differing blocks does not depend on the order. */
  lemma MissingIsPlanned(original: Image, target: Image, order: seq<Index>)
    requires HeaderLastOrder(order)
    ensures |Differing(original, target, order)| == Missing(original, target)
  {
    ClearOrderIsComplete();
    PlanIsExact(original, target, order);
    PlanIsExact(original, target, CLEAR_ORDER);
    hide Differing; hide HeaderLastOrder;
    SameMembersSameLength(Differing(original, target, order), Differing(original, target, CLEAR_ORDER));
  }

  function Members(s: seq<Index>): set<Index> { set b | b in s }

  lemma {:induction false} DistinctSize(s: seq<Index>)
    requires Distinct(s)
    ensures |Members(s)| == |s|
  {
    if s != [] {
      var n := |s| - 1;
      DistinctSize(s[..n]);
      assert s == s[..n] + [s[n]];
      assert s[n] !in s[..n];
      assert Members(s) == Members(s[..n]) + {s[n]};
    }
  }

  lemma SameMembersSameLength(s: seq<Index>, t: seq<Index>)
    requires Distinct(s) && Distinct(t) && forall b: Index :: b in s <==> b in t
    ensures |s| == |t|
  {
    DistinctSize(s);
    DistinctSize(t);
    assert Members(s) == Members(t);
  }

  /** Committing one differing block leaves one block less to write. */
  lemma OneLess(tag: Image, target: Image, b: Index)
    requires b < USABLE && tag[b] != target[b]
    ensures Missing(tag[b := target[b]], target) == Missing(tag, target) - 1
  {
    var after: Image := tag[b := target[b]];
    ClearOrderIsComplete();
    PlanIsExact(tag, target, CLEAR_ORDER);
    PlanIsExact(after, target, CLEAR_ORDER);
    var s, t := Differing(tag, target, CLEAR_ORDER), Differing(after, target, CLEAR_ORDER);
    assert forall c: Index :: after[c] == if c == b then target[b] else tag[c];
    hide Differing; hide HeaderLastOrder;
    forall c: Index ensures c in s <==> c in t || c == b {
    }
    assert b !in t;
    OneMemberMore(s, t, b);
  }

  lemma OneMemberMore(s: seq<Index>, t: seq<Index>, b: Index)
    requires Distinct(s) && Distinct(t) && b !in t && forall c: Index :: c in s <==> c in t || c == b
    ensures |s| == |t| + 1
  {
    DistinctSize(s);
    DistinctSize(t);
    assert Members(s) == Members(t) + {b};
  }

  lemma {:induction false} PrefixMissing(p: Plan, n: nat)
    requires n <= |p.blocks| && WellPlanned(p)
    ensures Missing(Applied(p.original, p.target, p.blocks[..n]), p.target) == Missing(p.original, p.target) - n
    ensures |p.blocks| == Missing(p.original, p.target)
  {
    MissingIsPlanned(p.original, p.target, p.order);
    if n > 0 {
      PrefixMissing(p, n - 1);
      AppliedStep(p.original, p.target, p.blocks, n - 1);
      PlanIsExact(p.original, p.target, p.order);
      var b := p.blocks[n - 1];
      AppliedAt(p.original, p.target, p.blocks[..n - 1], b);
      assert b !in p.blocks[..n - 1];
      assert b in p.blocks;
      hide Differing; hide Applied; hide Missing;
      OneLess(Applied(p.original, p.target, p.blocks[..n - 1]), p.target, b);
    } else {
      assert p.blocks[..0] == [];
    }
  }

  /** Every plan that is confirmed leads to `target`. */
  predicate Toward(w: Station, e: Event, target: Image) {
    e.Confirm? && w.plan.Some? && !w.plan.value.verified ==> w.plan.value.target == target
  }

  /** One effective commit for every block that comes right, whatever is
      interrupted: their sum with the blocks still missing never changes. */
  lemma StepConserves(w: Station, e: Event, target: Image, decode: Image -> Decoding)
    requires Inv(w) && Sane(decode) && Toward(w, e, target)
    ensures var v := Next(w, e, decode);
            && v.commits + Missing(v.tag, target) == w.commits + Missing(w.tag, target)
            && v.commits >= w.commits
  {
    hide Sane; hide ReadTag; hide Between; hide WellPlanned; hide PlanWrite; hide Differing; hide Execute; hide Ask;
    hide Missing;
    match e
    case Confirm(env) =>
      if w.powered && !w.pending && w.plan.Some? && !w.plan.value.verified {
        var p := w.plan.value;
        var w1 := Ask(w.(env := env, next := 0)).0;
        PlanCovers(w, p);
        var w2 := w1.(journal := Some(JournalOf(p)));
        ExecuteKeeps(w2, p, decode);
        if !p.attempted {
          PrefixMissing(p, Execute(w2, p, decode).0.commits - w2.commits);
        }
      }
    case _ =>
  }

  predicate AllToward(w: Station, events: seq<Event>, target: Image, decode: Image -> Decoding)
    requires Sane(decode)
  {
    events != [] ==>
      var before := events[..|events| - 1];
      AllToward(w, before, target, decode) && Toward(Run(w, before, decode), events[|events| - 1], target)
  }

  /** Over any number of interrupted runs toward one target, the effective
      commits are exactly the blocks that came right, at most 78 in all, and
      the number of differing blocks never grows. */
  lemma {:induction false} RunsConserve(w: Station, events: seq<Event>, target: Image, decode: Image -> Decoding)
    requires Fresh(w) && Sane(decode) && AllToward(w, events, target, decode)
    ensures var v := Run(w, events, decode);
            && v.commits + Missing(v.tag, target) == w.commits + Missing(w.tag, target)
            && Missing(v.tag, target) <= Missing(w.tag, target) <= USABLE
            && v.commits - w.commits <= USABLE
  {
    assert Missing(w.tag, target) <= USABLE;
    hide Next; hide Sane; hide Missing;
    if events != [] {
      hide Inv; hide Fresh; hide Toward;
      var before := events[..|events| - 1];
      RunsConserve(w, before, target, decode);
      RunKeeps(w, before, decode);
      StepConserves(Run(w, before, decode), events[|events| - 1], target, decode);
    }
  }

  /** A resumed write plans exactly the blocks that still differ, each once, the
      header last; if it reports success the tag is the target. */
  lemma ResumePlansTheRest(w: Station, events: seq<Event>, decode: Image -> Decoding)
    requires Fresh(w) && Sane(decode)
    ensures var v := Run(w, events, decode);
            v.plan.Some? ==>
              var p := v.plan.value;
              && (p.verified ==> v.tag == p.target)
              && (!p.verified && !p.attempted ==>
                    && (forall b: Index :: b in p.blocks <==> v.tag[b] != p.target[b])
                    && Distinct(p.blocks) && |p.blocks| == Missing(v.tag, p.target)
                    && (forall k :: 0 <= k < |p.blocks| && p.blocks[k] == 0 ==> k == |p.blocks| - 1))
  {
    RunKeeps(w, events, decode);
    hide Run; hide Sane; hide Missing; hide Differing; hide HeaderLastOrder;
    var v := Run(w, events, decode);
    if v.plan.Some? && !v.plan.value.verified && !v.plan.value.attempted {
      var p := v.plan.value;
      PlanIsExact(p.original, p.target, p.order);
      MissingIsPlanned(p.original, p.target, p.order);
      forall b: Index | b >= USABLE ensures p.original[b] == p.target[b] {
        assert p.original[USABLE..][b - USABLE] == p.target[USABLE..][b - USABLE];
      }
    }
  }

  /** Interrupted anywhere, the header is untouched unless the whole target is
      on the tag, and an identity block is untouched unless every other payload
      block is right. */
  lemma HeaderAndIdentityLast(w: Station, p: Plan, decode: Image -> Decoding, first: nat, last: nat)
    requires 1 <= first <= last < USABLE && p.order == WriteOrder(first, last) && WellPlanned(p)
    requires SameTail(p.original, p.target) && !p.attempted && !p.verified
    requires w.tag == p.original && w.journal == Some(JournalOf(p)) && Covered(w.tag, JournalOf(p))
    ensures var tag := Execute(w, p, decode).0.tag;
            && (tag[0] == p.original[0] || tag == p.target)
            && ((exists b: Index :: first <= b <= last && tag[b] != p.original[b]) ==>
                  forall b: Index :: b < USABLE && b != 0 && !(first <= b <= last) ==> tag[b] == p.target[b])
  {
    var v := Execute(w, p, decode).0;
    ExecuteKeeps(w, p, decode);
    var n := v.commits - w.commits;
    hide Execute; hide Covered; hide WellPlanned; hide Applied; hide WriteOrder;
    AppliedAt(p.original, p.target, p.blocks[..n], 0);
    if v.tag[0] != p.original[0] { HeaderWritten(p, n); }
    if b: Index :| first <= b <= last && v.tag[b] != p.original[b] {
      IdentityWritten(p, n, first, last, b);
    }
  }

  /** A prefix of the plan that reaches an identity block has done the payload. */
  lemma IdentityWritten(p: Plan, n: nat, first: nat, last: nat, b: Index)
    requires 1 <= first <= last < USABLE && p.order == WriteOrder(first, last) && WellPlanned(p) && n <= |p.blocks|
    requires first <= b <= last && Applied(p.original, p.target, p.blocks[..n])[b] != p.original[b]
    ensures forall c: Index :: c < USABLE && c != 0 && !(first <= c <= last) ==>
              Applied(p.original, p.target, p.blocks[..n])[c] == p.target[c]
  {
    PlanIsExact(p.original, p.target, p.order);
    AppliedAt(p.original, p.target, p.blocks[..n], b);
    hide Applied; hide HeaderLastOrder; hide WriteOrder; hide Differing;
    var j :| 0 <= j < n && p.blocks[j] == b;
    forall c: Index | c < USABLE && c != 0 && !(first <= c <= last)
      ensures Applied(p.original, p.target, p.blocks[..n])[c] == p.target[c]
    {
      AppliedAt(p.original, p.target, p.blocks[..n], c);
      if p.original[c] != p.target[c] {
        assert c in p.blocks;
        var k :| 0 <= k < |p.blocks| && p.blocks[k] == c;
        IdentityAfterPayload(p.original, p.target, first, last, j, k);
        assert p.blocks[..n][k] == c;
      }
    }
  }

  lemma HeaderWritten(p: Plan, n: nat)
    requires WellPlanned(p) && SameTail(p.original, p.target) && n <= |p.blocks| && 0 in p.blocks[..n]
    ensures Applied(p.original, p.target, p.blocks[..n]) == p.target
  {
    PlanIsExact(p.original, p.target, p.order);
    assert p.blocks[..n] == p.blocks;
    var tag := Applied(p.original, p.target, p.blocks);
    forall b: Index ensures tag[b] == p.target[b] {
      AppliedAt(p.original, p.target, p.blocks, b);
      if b >= USABLE { assert p.original[USABLE..][b - USABLE] == p.target[USABLE..][b - USABLE]; }
    }
  }
}
