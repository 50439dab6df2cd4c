/**
 The writer at work on the tag itself: an array of 80 blocks that only
 `CommitBlock` changes. Its methods are proved to do what the functions of
 `TagWriter` say.
*/
module OpenPrintTagWriter {
  import opened Prelude
  import opened TagPlan
  import opened TagWriter

  /** Compares every block with both journal images; the first block that is
      neither ends it. */
  method ClassifyBlocks(image: Image, j: Journal) returns (state: Option<JournalState>)
    ensures state == Classify(image, j)
  {
    for b := 0 to BLOCKS
      invariant forall k :: 0 <= k < b ==> image[k] == j.original[k] || image[k] == j.target[k]
    {
      if image[b] != j.original[b] && image[b] != j.target[b] { return None; }
    }
    state := Some(if image == j.target then AtTarget else if image == j.original then AtOriginal else Partial);
  }

  class Writer {
    const tag: array<Block>
    const scratch: array<Block>
    var powered: bool
    var env: seq<Answer>
    var next: nat
    ghost var commits: nat
    /** Journal, plan and everything else the writer does not touch. */
    ghost var rest: Station

    constructor (image: Image, env: seq<Answer>, ghost rest: Station)
      ensures Valid() && fresh(tag) && fresh(scratch)
      ensures View() == rest.(tag := image, powered := true, env := env, next := 0)
    {
      tag := new Block[BLOCKS](i requires 0 <= i < BLOCKS => image[i]);
      scratch := new Block[BLOCKS](_ => ZERO);
      powered, this.env, next := true, env, 0;
      commits, this.rest := rest.commits, rest;
      new;
      assert tag[..] == image;
    }

    ghost predicate Valid()
      reads this
    {
      tag.Length == BLOCKS && scratch.Length == BLOCKS && tag != scratch
    }

    ghost function View(): Station
      requires Valid()
      reads this, tag
    {
      rest.(tag := tag[..], powered := powered, env := env, next := next, commits := commits)
    }

    method Call() returns (a: Answer)
      requires Valid()
      modifies `powered, `next
      ensures (View(), a) == Draw(old(View()))
    {
      a := if !powered then Cut else if next < |env| then env[next] else Works;
      powered := !a.Cut?;
      next := next + 1;
    }

    method Query() returns (ok: bool)
      requires Valid()
      modifies `powered, `next
      ensures (View(), ok) == Ask(old(View()))
    {
      var a := Call();
      ok := a.Works?;
    }

    /** The only method that changes the tag. */
    method CommitBlock(b: Index, value: Block) returns (ok: bool)
      requires Valid()
      modifies `powered, `next, `commits, tag
      ensures (View(), ok) == Commit(old(View()), b, value)
    {
      hide Draw;
      ghost var before := tag[..];
      var a := Call();
      if a.Works? || a.FailsAfter? {
        tag[b] := value;
        commits := commits + 1;
        assert tag[..] == before[b := value];
      }
      ok := a.Works? || a.Lost?;
    }

    /** Reads the tag into the scratch buffer, block by block. */
    method FullRead() returns (ok: bool)
      requires Valid()
      modifies `powered, `next, scratch
      ensures (View(), ok) == FullReadFrom(old(View()), 0)
      ensures ok ==> scratch[..] == tag[..]
    {
      hide Ask;
      for block := 0 to BLOCKS
        invariant Valid() && tag[..] == old(tag[..])
        invariant FullReadFrom(View(), block) == FullReadFrom(old(View()), 0)
        invariant scratch[..block] == tag[..block]
      {
        ok := Query();
        if !ok { return; }
        ok := Query();
        if !ok { return; }
        scratch[block] := tag[block];
      }
      ok := Query();
      assert scratch[..] == scratch[..BLOCKS] && tag[..] == tag[..BLOCKS];
    }

    method WriteOne(b: Index, original: Block, target: Block) returns (ok: bool)
      requires Valid()
      modifies `powered, `next, `commits, tag
      ensures (View(), ok) == WriteBlock(old(View()), b, original, target)
    {
      hide Ask; hide Commit;
      ok := Query();
      if !ok { return; }
      ok := Query();
      if !ok || tag[b] != original { return false; }
      ok := CommitBlock(b, target);
      if !ok { return; }
      ok := Query();
      ok := ok && tag[b] == target;
    }

    method WriteAll(p: Plan) returns (ok: bool)
      requires Valid()
      modifies `powered, `next, `commits, tag
      ensures (View(), ok) == WriteBlocks(old(View()), p, 0)
    {
      hide WriteBlock;
      var i := 0;
      while i < |p.blocks|
        invariant 0 <= i <= |p.blocks| && Valid()
        invariant WriteBlocks(View(), p, i) == WriteBlocks(old(View()), p, 0)
      {
        ok := WriteOne(p.blocks[i], p.original[p.blocks[i]], p.target[p.blocks[i]]);
        if !ok { return; }
        i := i + 1;
      }
      ok := true;
    }

    method VerifyAll(p: Plan, decode: Image -> Decoding) returns (q: Plan, ok: bool)
      requires Valid()
      modifies `powered, `next, scratch
      ensures (View(), q, ok) == Verify(old(View()), p, decode)
    {
      hide Ask; hide FullReadFrom;
      q := p;
      ok := FullRead();
      if !ok { return; }
      var image: Image := scratch[..];
      if image != p.target { return q, false; }
      if p.operation.Clear? && !Blank(image) { return q, false; }
      if p.operation.Write? && (decode(image).Undecodable? || !decode(image).identified) { return q, false; }
      ok := Query();
      if !ok { return; }
      ok := Query();
      if ok { q := p.(verified := true); }
    }

    method Execute(p: Plan, decode: Image -> Decoding) returns (q: Plan, ok: bool)
      requires Valid()
      modifies `powered, `next, `commits, tag, scratch
      ensures (View(), q, ok) == TagWriter.Execute(old(View()), p, decode)
    {
      hide Ask; hide FullReadFrom; hide WriteBlocks; hide Verify;
      q := p;
      if p.verified { return q, true; }
      ok := Query();
      if !ok || p.attempted { return q, false; }
      ok := FullRead();
      if !ok || scratch[..] != p.original { return q, false; }
      q := p.(attempted := true);
      ok := WriteAll(p);
      if !ok { return; }
      q, ok := VerifyAll(q, decode);
    }
  }
}
