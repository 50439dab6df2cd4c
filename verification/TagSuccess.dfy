/**
 What a write reports, and when it goes through: with a reader that works, every
 readable tag can be brought to every valid target, after any interruption.
*/
module TagSuccess {
  import opened Prelude
  import opened TagPlan
  import opened TagWriter

  /** What the tag must be for the operation to count as verified. */
  predicate Acceptable(operation: Operation, image: Image, decode: Image -> Decoding) {
    if operation.Clear? then Blank(image) else decode(image).Decoded? && decode(image).identified
  }

  /** Success is reported only for a tag that is the target and makes sense. */
  lemma SuccessMeans(w: Station, p: Plan, decode: Image -> Decoding)
    requires !p.verified
    ensures var (v, q, done) := Execute(w, p, decode);
            && (done ==> v.tag == p.target && Acceptable(p.operation, v.tag, decode) && v.powered)
            && q == p.(attempted := q.attempted, verified := done)
  {
    hide Ask; hide FullReadFrom; hide WriteBlocks; hide Blank;
  }

  // ---------------------------------------------------------------- a reader that works

  predicate Working(w: Station) {
    w.powered && forall i :: 0 <= i < |w.env| ==> w.env[i].Works?
  }

  lemma AsksWork(w: Station)
    requires Working(w)
    ensures Ask(w).1 && Working(Ask(w).0)
  {
  }

  lemma {:induction false} ReadsWork(w: Station, block: nat)
    requires Working(w) && block <= BLOCKS
    ensures FullReadFrom(w, block).1 && Working(FullReadFrom(w, block).0)
    decreases BLOCKS - block
  {
    hide Ask; hide Working; hide Untouched;
    AsksWork(w);
    if block < BLOCKS {
      AsksWork(Ask(w).0);
      ReadsWork(Ask(Ask(w).0).0, block + 1);
    }
  }

  lemma BlockWorks(w: Station, b: Index, original: Block, target: Block)
    requires Working(w) && w.tag[b] == original
    ensures WriteBlock(w, b, original, target).1 && Working(WriteBlock(w, b, original, target).0)
  {
  }

  lemma {:induction false} WritesWork(w: Station, p: Plan, i: nat)
    requires Working(w) && i <= |p.blocks| && Distinct(p.blocks)
    requires forall k :: i <= k < |p.blocks| ==> w.tag[p.blocks[k]] == p.original[p.blocks[k]]
    ensures WriteBlocks(w, p, i).1 && Working(WriteBlocks(w, p, i).0)
    decreases |p.blocks| - i
  {
    hide WriteBlock; hide Working;
    if i < |p.blocks| {
      var b := p.blocks[i];
      BlockWorks(w, b, p.original[b], p.target[b]);
      WritesWork(WriteBlock(w, b, p.original[b], p.target[b]).0, p, i + 1);
    }
  }

  lemma VerifyWorks(w: Station, p: Plan, decode: Image -> Decoding)
    requires Working(w) && w.tag == p.target
    ensures Verify(w, p, decode).2 <==> Acceptable(p.operation, p.target, decode)
    ensures Verify(w, p, decode).2 ==> Working(Verify(w, p, decode).0)
  {
    hide FullReadFrom; hide Blank;
    ReadsWork(w, 0);
  }

  /** A plan made for the tag as it is leaves the target on it, and succeeds
      exactly if the target is acceptable. */
  lemma WorkingExecution(w: Station, p: Plan, decode: Image -> Decoding)
    requires Working(w) && !p.verified && !p.attempted && w.tag == p.original
    requires WellPlanned(p) && SameTail(p.original, p.target)
    ensures var (v, q, done) := Execute(w, p, decode);
            && v.tag == p.target && (done <==> Acceptable(p.operation, p.target, decode))
            && q == p.(attempted := true, verified := done) && (done ==> Working(v))
  {
    hide Ask; hide FullReadFrom; hide WriteBlocks; hide Verify; hide WellPlanned; hide Acceptable; hide Working;
    hide Applied; hide Distinct; hide SameTail;
    AsksWork(w);
    var w1 := Ask(w).0;
    ReadsWork(w1, 0);
    var w2 := FullReadFrom(w1, 0).0;
    WritesReach(w2, p);
    VerifyWorks(WriteBlocks(w2, p, 0).0, p.(attempted := true), decode);
  }

  lemma WritesReach(w: Station, p: Plan)
    requires Working(w) && w.tag == p.original && WellPlanned(p) && SameTail(p.original, p.target)
    ensures var (v, done) := WriteBlocks(w, p, 0); done && Working(v) && v.tag == p.target
  {
    PlanStarts(p);
    hide WriteBlocks; hide WellPlanned; hide Working; hide Applied; hide SameTail;
    WritesWork(w, p, 0);
    WritesAPrefix(w, p, 0);
    AllWritten(p);
    assert p.blocks[..|p.blocks|] == p.blocks;
  }

  lemma AllWritten(p: Plan)
    requires WellPlanned(p) && SameTail(p.original, p.target)
    ensures Applied(p.original, p.target, p.blocks) == p.target
  {
    PlanIsExact(p.original, p.target, p.order);
    hide Applied; hide Differing; hide HeaderLastOrder;
    var tag := Applied(p.original, p.target, p.blocks);
    forall b: Index ensures tag[b] == p.target[b] {
      AppliedAt(p.original, p.target, p.blocks, b);
      if b >= USABLE { assert p.original[USABLE..][b - USABLE] == p.target[USABLE..][b - USABLE]; }
    }
  }

  // ---------------------------------------------------------------- what is ever planned

  /** Whatever is planned or journaled can be verified once it is on the tag. */
  predicate Meaningful(w: Station, decode: Image -> Decoding) {
    && (w.plan.Some? && !w.plan.value.verified ==> Acceptable(w.plan.value.operation, w.plan.value.target, decode))
    && (w.journal.Some? ==> Acceptable(w.journal.value.operation, w.journal.value.target, decode))
  }

  lemma ConfirmMeaningful(w: Station, p: Plan, decode: Image -> Decoding)
    requires Meaningful(w, decode) && w.plan == Some(p) && !p.verified
    ensures Meaningful(ConfirmPlan(w, p, decode), decode)
  {
    hide Ask; hide Execute; hide Acceptable;
    var w1 := Ask(w).0;
    var w2 := w1.(journal := Some(JournalOf(p)));
    SuccessMeans(w2, p, decode);
    ExecuteFrame(w2, p, decode);
  }

  lemma ExecuteFrame(w: Station, p: Plan, decode: Image -> Decoding)
    ensures var v := Execute(w, p, decode).0; v.journal == w.journal && v.pending == w.pending
  {
    hide Ask; hide FullReadFrom; hide WriteBlocks; hide Verify;
    var w1 := Ask(w).0;
    WritesFrame(FullReadFrom(w1, 0).0, p, 0);
  }

  lemma {:induction false} WritesFrame(w: Station, p: Plan, i: nat)
    requires i <= |p.blocks|
    ensures WriteBlocks(w, p, i).0.journal == w.journal && WriteBlocks(w, p, i).0.pending == w.pending
    decreases |p.blocks| - i
  {
    hide WriteBlock;
    if i < |p.blocks| {
      var b := p.blocks[i];
      WritesFrame(WriteBlock(w, b, p.original[b], p.target[b]).0, p, i + 1);
    }
  }

  lemma ClearedIsBlank(tag: Image)
    ensures Blank(Cleared(tag)) && SameTail(tag, Cleared(tag))
  {
  }

  lemma StepMeaningful(w: Station, e: Event, decode: Image -> Decoding)
    requires Meaningful(w, decode) && Sane(decode)
    ensures Meaningful(Next(w, e, decode), decode)
  {
    hide ReadTag; hide ConfirmPlan; hide Blank; hide Cleared; hide Differing; hide WriteOrder;
    match e
    case Preview(target, env) => SaneIsPlaced(decode, target);
    case PreviewClear(env) => ClearedIsBlank(w.tag);
    case Confirm(env) =>
      if w.powered && !w.pending && w.plan.Some? && !w.plan.value.verified {
        ConfirmMeaningful(w.(env := env, next := 0), w.plan.value, decode);
      }
    case _ =>
  }

  lemma {:induction false} RunMeaningful(w: Station, events: seq<Event>, decode: Image -> Decoding)
    requires Fresh(w) && Sane(decode)
    ensures Meaningful(Run(w, events, decode), decode)
  {
    hide Next; hide Sane;
    if events != [] {
      hide Meaningful;
      RunMeaningful(w, events[..|events| - 1], decode);
      StepMeaningful(Run(w, events[..|events| - 1], decode), events[|events| - 1], decode);
    }
  }

  // ---------------------------------------------------------------- whole operations

  predicate Readable(w: Station, decode: Image -> Decoding) {
    Judge(w.tag, Interrupted(w), decode).Ready?
  }

  /** In every run a tag can be read unless it declares write protection or,
      without an unfinished journal, holds what the codec does not know. */
  lemma WhatIsReadable(w: Station, events: seq<Event>, decode: Image -> Decoding)
    requires Fresh(w) && Sane(decode)
    ensures var v := Run(w, events, decode);
            Readable(v, decode) <==>
              Blank(v.tag) || (!decode(v.tag).locked && (Interrupted(v).None? ==> decode(v.tag).Decoded?))
  {
    RunKeeps(w, events, decode);
    RunMeaningful(w, events, decode);
    NeverTorn(w, events, decode);
    hide Run; hide Sane; hide WellPlanned; hide Between; hide Blank;
  }

  lemma ReadingWorks(w: Station, decode: Image -> Decoding)
    requires Working(w) && Readable(w, decode)
    ensures var (v, r) := ReadTag(w, Interrupted(w), decode);
            r == Judge(w.tag, Interrupted(w), decode) && Working(v) && Untouched(w, v)
  {
    hide Judge; hide FullReadFrom;
    AsksWork(w);
    ReadsWork(Ask(w).0, 0);
    ReadsWork(FullReadFrom(Ask(w).0, 0).0, 0);
  }

  /** Previewed, confirmed and associated, one after the other. */
  function Written(v: Station, target: Image, decode: Image -> Decoding): Station
    requires Sane(decode)
  {
    Next(Next(Next(v, Preview(target, []), decode), Confirm([]), decode), Associate, decode)
  }

  function Erased(v: Station, decode: Image -> Decoding): Station
    requires Sane(decode)
  {
    Next(Next(Next(v, PreviewClear([]), decode), Confirm([]), decode), Associate, decode)
  }

  /** A target that keeps the preserved blocks and is an identified tag. */
  predicate Valid(tag: Image, target: Image, decode: Image -> Decoding) {
    SameTail(tag, target) && decode(target).Decoded? && decode(target).identified
  }

  /** A plan toward `target` that has not been tried. */
  predicate Untried(x: Station, target: Image) {
    !x.pending && x.plan.Some? && !x.plan.value.verified && !x.plan.value.attempted && x.plan.value.target == target
  }

  /** A plan that was finished before. */
  predicate Awaits(x: Station, target: Image) {
    x.pending && x.plan.Some? && x.plan.value.verified && x.plan.value.target == target
  }

  predicate Finished(v: Station, image: Image) {
    v.tag == image && v.journal.None? && v.plan.None? && !v.pending && v.clean == image
  }

  /** The tag is exactly what an interrupted operation of this kind was to leave. */
  predicate AlreadyDone(v: Station, operation: Operation) {
    Interrupted(v).Some? && Interrupted(v).value.operation == operation && v.tag == Interrupted(v).value.target
  }

  lemma PlanFacts(x: Station, decode: Image -> Decoding)
    requires Inv(x) && Meaningful(x, decode) && x.plan.Some? && !x.plan.value.verified && !x.plan.value.attempted
    ensures var p := x.plan.value;
            x.tag == p.original && SameTail(p.original, p.target) && WellPlanned(p)
            && Acceptable(p.operation, p.target, decode)
  {
    hide WellPlanned; hide Acceptable; hide SameTail; hide Covered;
  }

  lemma ConfirmWorks(w: Station, p: Plan, decode: Image -> Decoding)
    requires Working(w) && !p.verified && !p.attempted && w.tag == p.original
    requires WellPlanned(p) && SameTail(p.original, p.target) && Acceptable(p.operation, p.target, decode)
    ensures var y := ConfirmPlan(w, p, decode);
            y.tag == p.target && y.pending && y.powered && y.plan == Some(p.(attempted := true, verified := true))
  {
    hide Execute; hide WellPlanned; hide Acceptable; hide SameTail; hide Ask;
    AsksWork(w);
    var w1 := Ask(w).0.(journal := Some(JournalOf(p)));
    WorkingExecution(w1, p, decode);
  }

  lemma ConfirmGoesThrough(x: Station, decode: Image -> Decoding)
    requires Inv(x) && Meaningful(x, decode) && Sane(decode) && x.powered && !x.pending
    requires x.plan.Some? && !x.plan.value.verified && !x.plan.value.attempted
    ensures Finished(Next(Next(x, Confirm([]), decode), Associate, decode), x.plan.value.target)
  {
    PlanFacts(x, decode);
    ConfirmWorks(x.(env := [], next := 0), x.plan.value, decode);
    hide ConfirmPlan; hide WellPlanned; hide Acceptable; hide SameTail; hide Sane; hide Inv; hide Meaningful;
  }

  /** When nothing fails, a readable tag is brought to any valid target in every
      run, whatever was interrupted before; a target that is none is refused and
      the tag left alone. */
  lemma WriteGoesThrough(w: Station, events: seq<Event>, target: Image, decode: Image -> Decoding)
    requires Fresh(w) && Sane(decode)
    ensures var v := Run(w, events, decode);
            v.powered && !v.pending && Readable(v, decode) ==>
              var z := Written(v, target, decode);
              if AlreadyDone(v, Operation.Write) then Finished(z, v.tag)
              else if Valid(v.tag, target, decode) then Finished(z, target)
              else z.tag == v.tag && z.journal == v.journal && z.plan.None?
  {
    RunKeeps(w, events, decode);
    RunMeaningful(w, events, decode);
    var v := Run(w, events, decode);
    hide Run; hide Inv; hide Meaningful;
    if v.powered && !v.pending && Readable(v, decode) { PreviewedWrite(v, target, decode); }
  }

  lemma PreviewedWrite(v: Station, target: Image, decode: Image -> Decoding)
    requires Inv(v) && Meaningful(v, decode) && Sane(decode) && v.powered && !v.pending && Readable(v, decode)
    ensures var z := Written(v, target, decode);
            if AlreadyDone(v, Operation.Write) then Finished(z, v.tag)
            else if Valid(v.tag, target, decode) then Finished(z, target)
            else z.tag == v.tag && z.journal == v.journal && z.plan.None?
  {
    hide ReadTag; hide PreviewWrite; hide ConfirmPlan; hide Sane;
    var x := Next(v, Preview(target, []), decode);
    StepKeeps(v, Preview(target, []), decode);
    StepMeaningful(v, Preview(target, []), decode);
    PreviewPlans(v, target, decode);
    hide Inv; hide Meaningful; hide Readable; hide SameTail;
    if x.plan.Some? && !x.plan.value.verified { ConfirmGoesThrough(x, decode); }
  }

  lemma PreviewPlans(v: Station, target: Image, decode: Image -> Decoding)
    requires Sane(decode) && v.powered && !v.pending && Readable(v, decode)
    ensures var x := Next(v, Preview(target, []), decode);
            && x.tag == v.tag && x.powered && x.journal == v.journal
            && (if AlreadyDone(v, Operation.Write) then Awaits(x, v.tag)
                else if Valid(v.tag, target, decode) then Untried(x, target)
                else !x.pending && x.plan.None?)
  {
    var u := v.(env := [], next := 0);
    SaneIsPlaced(decode, target);
    assert Interrupted(u) == Interrupted(v);
    assert Working(u);
    hide Sane; hide Interrupted; hide Working; hide PreviewWrite; hide Judge;
    WritePlans(u, target, decode);
  }

  lemma WritePlans(u: Station, target: Image, decode: Image -> Decoding)
    requires decode(target).Placed() && Working(u) && !u.pending && Readable(u, decode)
    ensures var x := PreviewWrite(u, target, decode);
            && x.tag == u.tag && x.powered && x.journal == u.journal
            && (if AlreadyDone(u, Operation.Write) then Awaits(x, u.tag)
                else if Valid(u.tag, target, decode) then Untried(x, target)
                else !x.pending && x.plan.None?)
  {
    hide ReadTag;
    var (w, r) := ReadTag(u, Interrupted(u), decode);
    ReadingWorks(u, decode);
    assert w.powered && w == u.(next := w.next);
    Judged(u, decode);
    Plannable(u.tag, target, decode);
    hide Judge; hide PlanWrite; hide WriteOrder; hide Valid; hide Working; hide Untouched;
    hide Interrupted; hide Classify; hide Between;
  }

  lemma Plannable(tag: Image, target: Image, decode: Image -> Decoding)
    requires decode(target).Placed()
    ensures PlanWrite(tag, target, decode).Commits? <==> Valid(tag, target, decode)
    ensures Valid(tag, target, decode) ==> decode(target).Decoded?
  {
    hide Differing; hide WriteOrder;
  }

  /** A tag that reads as the journal's target is that target. */
  lemma Judged(v: Station, decode: Image -> Decoding)
    ensures var r := Judge(v.tag, Interrupted(v), decode);
            r.Ready? && r.state.AtTarget? <==> r.Ready? && Interrupted(v).Some? && v.tag == Interrupted(v).value.target
  {
  }

  /** Likewise every readable tag can be cleared. */
  lemma ClearGoesThrough(w: Station, events: seq<Event>, decode: Image -> Decoding)
    requires Fresh(w) && Sane(decode)
    ensures var v := Run(w, events, decode);
            v.powered && !v.pending && Readable(v, decode) ==>
              Finished(Erased(v, decode), if AlreadyDone(v, Operation.Clear) then v.tag else Cleared(v.tag))
  {
    hide Erased;
    RunKeeps(w, events, decode);
    RunMeaningful(w, events, decode);
    var v := Run(w, events, decode);
    hide Run; hide Inv; hide Meaningful;
    if v.powered && !v.pending && Readable(v, decode) { PreviewedClear(v, decode); }
  }

  lemma PreviewedClear(v: Station, decode: Image -> Decoding)
    requires Inv(v) && Meaningful(v, decode) && Sane(decode) && v.powered && !v.pending && Readable(v, decode)
    ensures Finished(Erased(v, decode), if AlreadyDone(v, Operation.Clear) then v.tag else Cleared(v.tag))
  {
    hide PreviewErase; hide ConfirmPlan; hide Sane; hide Cleared;
    var x := Next(v, PreviewClear([]), decode);
    StepKeeps(v, PreviewClear([]), decode);
    StepMeaningful(v, PreviewClear([]), decode);
    ErasePlans(v, decode);
    hide Inv; hide Meaningful; hide Readable;
    if x.plan.Some? && !x.plan.value.verified { ConfirmGoesThrough(x, decode); }
  }

  lemma ErasePlans(v: Station, decode: Image -> Decoding)
    requires Sane(decode) && v.powered && !v.pending && Readable(v, decode)
    ensures var x := Next(v, PreviewClear([]), decode);
            && x.tag == v.tag && x.powered
            && (if AlreadyDone(v, Operation.Clear) then Awaits(x, v.tag) else Untried(x, Cleared(v.tag)))
  {
    var u := v.(env := [], next := 0);
    assert Interrupted(u) == Interrupted(v);
    assert Working(u);
    hide Sane; hide Interrupted; hide Working; hide PreviewErase; hide Judge; hide Cleared;
    ClearPlans(u, decode);
  }

  lemma ClearPlans(u: Station, decode: Image -> Decoding)
    requires Working(u) && !u.pending && Readable(u, decode)
    ensures var x := PreviewErase(u, decode);
            && x.tag == u.tag && x.powered
            && (if AlreadyDone(u, Operation.Clear) then Awaits(x, u.tag) else Untried(x, Cleared(u.tag)))
  {
    hide ReadTag;
    var (w, r) := ReadTag(u, Interrupted(u), decode);
    ReadingWorks(u, decode);
    assert w.powered && w == u.(next := w.next);
    Judged(u, decode);
    hide Judge; hide Cleared; hide Differing; hide Working; hide Untouched; hide Interrupted;
    hide Classify; hide Between;
  }

  /** A write that was refused before its first commit owes nothing: no journal
      is left to block other tags. */
  lemma RefusalOwesNothing(w: Station, p: Plan, decode: Image -> Decoding)
    requires w.journal.None? && w.plan == Some(p) && p.journalState.NoJournal? && !p.verified
    ensures var y := ConfirmPlan(w, p, decode);
            y.powered && y.plan.Some? && !y.plan.value.attempted ==> y.journal.None? && y.tag == w.tag
  {
    hide Ask; hide FullReadFrom; hide WriteBlocks; hide Verify;
  }
}
