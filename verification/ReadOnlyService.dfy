/**
 The reading service as an object, and the chunked copy of a tag's memory.
*/
module ReadOnlyService {
  import opened Prelude
  import opened TagReading

  const PREFERRED_CHUNK: nat := 8
  const ADDRESS_LIMIT: nat := 256

  // ---------------------------------------------------------------- the memory image

  /** A successful read of `count` blocks from `first` on. */
  datatype Chunk = Chunk(first: nat, count: nat)

  /** The chunks follow each other without gap or overlap from block 0 to `end`,
      and none lies on both sides of block 255/256. */
  predicate Contiguous(chunks: seq<Chunk>, end: nat) {
    && (chunks == [] ==> end == 0)
    && (chunks != [] ==> chunks[0].first == 0 && chunks[|chunks| - 1].first + chunks[|chunks| - 1].count == end)
    && (forall i :: 0 <= i < |chunks| - 1 ==> chunks[i].first + chunks[i].count == chunks[i + 1].first)
    && (forall i :: 0 <= i < |chunks| ==>
          1 <= chunks[i].count <= PREFERRED_CHUNK
          && (chunks[i].first < ADDRESS_LIMIT ==> chunks[i].first + chunks[i].count <= ADDRESS_LIMIT))
  }

  function Chunks(chunks: seq<Chunk>, block: nat): nat {
    if chunks == [] then 0
    else
      var c := chunks[|chunks| - 1];
      Chunks(chunks[..|chunks| - 1], block) + (if c.first <= block < c.first + c.count then 1 else 0)
  }

  /** Contiguous chunks hold every block below their end exactly once. */
  lemma {:induction false} EveryBlockOnce(chunks: seq<Chunk>, end: nat, block: nat)
    requires Contiguous(chunks, end)
    ensures Chunks(chunks, block) == if block < end then 1 else 0
  {
    if chunks != [] {
      var n := |chunks| - 1;
      if n > 0 { assert chunks[n - 1].first + chunks[n - 1].count == chunks[n].first; }
      EveryBlockOnce(chunks[..n], chunks[n].first, block);
    }
  }

  lemma ContiguousAppend(chunks: seq<Chunk>, block: nat, count: nat)
    requires Contiguous(chunks, block) && Copied(chunks) == block && 1 <= count <= PREFERRED_CHUNK
    requires block < ADDRESS_LIMIT ==> block + count <= ADDRESS_LIMIT
    ensures Contiguous(chunks + [Chunk(block, count)], block + count)
    ensures Copied(chunks + [Chunk(block, count)]) == block + count
  {
  }

  datatype Reply = Works | Retry | Stops

  /** Copies the memory in chunks of up to eight blocks. A retryable failure
      halves the chunk, down to one block, for this and all later reads. */
  method ReadImage(image: array<Bytes>, memory: seq<Bytes>, replies: seq<Reply>, confirmed: seq<bool>)
    returns (ok: bool, chunks: seq<Chunk>)
    requires image.Length == |memory|
    modifies image
    ensures Contiguous(chunks, if ok then |memory| else Copied(chunks))
    ensures ok ==> image[..] == memory
    ensures !ok ==> Retry in replies || Stops in replies || false in confirmed
  {
    var preferred := PREFERRED_CHUNK;
    var block := 0;
    var next, asked := 0, 0;
    chunks := [];
    assert Contiguous([], 0) && Copied([]) == 0;
    hide Contiguous; hide Copied;
    while block < |memory|
      invariant 0 <= block <= |memory| && 1 <= preferred <= PREFERRED_CHUNK
      invariant Contiguous(chunks, block) && Copied(chunks) == block
      invariant image[..block] == memory[..block]
    {
      var count := if preferred < |memory| - block then preferred else |memory| - block;
      if block < ADDRESS_LIMIT && count > ADDRESS_LIMIT - block { count := ADDRESS_LIMIT - block; }
      var reply := if next < |replies| then replies[next] else Works;
      next := next + 1;
      while reply.Retry? && count > 1
        invariant 1 <= count <= PREFERRED_CHUNK && block + count <= |memory| && 1 <= preferred <= PREFERRED_CHUNK
        invariant block < ADDRESS_LIMIT ==> block + count <= ADDRESS_LIMIT
        invariant reply.Works? || reply in replies
        decreases count
      {
        count := count / 2;
        preferred := count;
        reply := if next < |replies| then replies[next] else Works;
        next := next + 1;
      }
      if !reply.Works? { return false, chunks; }
      CopyBlocks(image, memory, block, count);
      ContiguousAppend(chunks, block, count);
      chunks := chunks + [Chunk(block, count)];
      block := block + count;
      if asked < |confirmed| && !confirmed[asked] { return false, chunks; }
      asked := asked + 1;
    }
    assert image[..] == image[..block] && memory == memory[..block];
    ok := true;
  }

  function Copied(chunks: seq<Chunk>): nat {
    if chunks == [] then 0 else chunks[|chunks| - 1].first + chunks[|chunks| - 1].count
  }

  method CopyBlocks(image: array<Bytes>, memory: seq<Bytes>, first: nat, count: nat)
    requires first + count <= image.Length == |memory|
    modifies image
    ensures image[first..first + count] == memory[first..first + count]
    ensures image[..first] == old(image[..first])
    ensures image[..first + count] == old(image[..first]) + memory[first..first + count]
  {
    for i := 0 to count
      invariant image[first..first + i] == memory[first..first + i]
      invariant image[..first] == old(image[..first])
    {
      image[first + i] := memory[first + i];
    }
    assert image[..first + count] == image[..first] + image[first..first + count];
  }

  // ---------------------------------------------------------------- the service

  /** The published snapshot and the tracking of the tag are one record here. */
  class Service {
    var live: Reader

    constructor ()
      ensures live == SILENT
    {
      live := SILENT;
    }

    method ClearActive()
      modifies this
      ensures live == TagReading.ClearActive(old(live))
    {
      if live.processed.Some? || live.tag.Some? { live := live.(generation := live.generation + 1); }
      live := live.(tag := None, processed := None);
    }

    method ClearNfca()
      modifies this
      ensures live == TagReading.ClearNfca(old(live))
    {
      live := live.(nfcaCandidate := None, nfcaMissed := 0);
    }

    method Leave(next: State)
      modifies this
      ensures live == TagReading.Leave(old(live), next)
    {
      live := live.(missed := 0);
      ClearActive();
      ClearNfca();
      live := live.(candidate := None, consecutive := 0, uid := None, state := next, streak := 0);
    }

    method ReadTag(u: Uid, a: Attempt) returns (ok: bool)
      modifies this
      ensures var read := TagReading.ReadTag(old(live), u, a);
              if ok then read == Some(live) else read.None? && live == old(live)
    {
      if a.first.None? || a.second.None? || a.first.value != a.second.value { return false; }
      var t := Published(u, live.generation + 1, a.first.value);
      live := live.(processed := Some(u), generation := live.generation + 1,
                    history := live.history + [Event(t, a.contents, live.streak, a.second.value)]);
      ok := true;
      match a.contents {
        case BlankImage => live := live.(state := BlankTag);
        case Undecodable => live := live.(state := Unsupported);
        case Decodable => live := live.(state := OpenPrintTag, tag := Some(t));
      }
    }

    method Track(u: Uid)
      modifies this
      ensures live == TagReading.Track(old(live), u)
    {
      live := live.(missed := 0);
      ClearNfca();
      var same := live.candidate == Some(u);
      live := live.(uid := Some(u), streak := if same then live.streak + 1 else 1);
      if !same {
        ClearActive();
        live := live.(candidate := Some(u), consecutive := 0, failures := 0);
      }
      if live.consecutive < STABLE_POLLS { live := live.(consecutive := live.consecutive + 1); }
    }

    method SeeOne(u: Uid, a: Attempt) returns (ok: bool)
      modifies this
      ensures (live, ok) == TagReading.SeeOne(old(live), u, a)
    {
      hide TagReading.Track; hide TagReading.ReadTag;
      Track(u);
      if live.processed.Some? { return true; }
      if live.consecutive < STABLE_POLLS {
        live := live.(state := Stabilizing);
        return true;
      }
      ok := ReadTag(u, a);
      if ok {
        live := live.(failures := 0);
      } else if live.failures + 1 < READ_ATTEMPTS {
        live := live.(failures := live.failures + 1, state := Stabilizing, consecutive := STABLE_POLLS - 1);
        ok := true;
      } else {
        live := live.(failures := 0);
      }
    }

    method PollNfca(found: Option<seq<Uid>>) returns (ok: bool)
      modifies this
      ensures (live, ok) == TagReading.PollNfca(old(live), found)
    {
      hide TagReading.Leave;
      if found.None? { return false; }
      if found.value == [] && live.nfcaMissed == 0 && live.nfcaCandidate.Some? {
        live := live.(nfcaMissed := 1);
        return true;
      }
      if |found.value| != 1 {
        Leave(if found.value == [] then NoTag else Multiple);
        return true;
      }
      live := live.(nfcaMissed := 0, missed := 0);
      if live.nfcaCandidate != Some(found.value[0]) {
        ClearActive();
        live := live.(candidate := None, consecutive := 0, uid := None, streak := 0,
                      nfcaCandidate := Some(found.value[0]), generation := live.generation + 1);
      }
      live := live.(state := UnsupportedTechnology);
      ok := true;
    }

    method Poll(a: Answers)
      modifies this
      ensures live == TagReading.Poll(old(live), a)
    {
      hide TagReading.SeeOne; hide TagReading.PollNfca; hide TagReading.Leave;
      if !a.due { return; }
      if !live.initialized {
        if !a.initialized {
          Leave(Error);
          return;
        }
        live := live.(initialized := true);
      }
      assert live == old(live).(initialized := true);
      var ok := a.fieldOn && a.inventory.Some?;
      if ok {
        var tags := a.inventory.value;
        var tracked := live.processed.Some? || live.candidate.Some?;
        if tags == [] && !tracked {
          ok := PollNfca(a.nfca);
        } else if tags == [] && live.missed == 0 {
          live := live.(missed := 1, streak := 0,
                        consecutive := if live.processed.Some? then live.consecutive else 0);
        } else if |tags| != 1 {
          Leave(if tags == [] then NoTag else Multiple);
        } else {
          ok := SeeOne(tags[0], a.attempt);
        }
      }
      if !a.healthy {
        live := live.(initialized := false);
        ok := false;
      }
      if !a.fieldOff || !ok { Leave(Error); }
    }
  }
}
