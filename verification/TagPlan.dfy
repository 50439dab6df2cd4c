/**
 Which blocks of a tag a write or a clear commits, and in which order: the
 other payload blocks first, then those of the instance identity, and the
 header block last.
*/
module TagPlan {
  const BLOCKS: nat := 80
  const USABLE: nat := 78

  type Index = n: nat | n < BLOCKS witness 0

  /** The four bytes of a block. */
  datatype Block = Block(b0: bv8, b1: bv8, b2: bv8, b3: bv8)

  const ZERO := Block(0, 0, 0, 0)

  type Image = s: seq<Block> | |s| == BLOCKS witness seq(BLOCKS, _ => ZERO)

  /** What the codec makes of the usable blocks. `identity` is the byte offset of
      the main section, which holds the instance identity. */
  datatype Decoding = Undecodable(locked: bool) | Decoded(identity: nat, identified: bool, locked: bool)
  {
    predicate Placed() { Decoded? ==> 4 <= identity && identity + 18 < 4 * USABLE }
  }

  // ---------------------------------------------------------------- orders

  function Range(low: nat, high: nat): (s: seq<Index>)
    requires low <= high <= BLOCKS
    ensures |s| == high - low
    ensures forall k :: 0 <= k < |s| ==> s[k] == low + k
  {
    if low == high then [] else Range(low, high - 1) + [high - 1]
  }

  lemma RangeMembers(low: nat, high: nat)
    requires low <= high <= BLOCKS
    ensures forall b: Index :: b in Range(low, high) <==> low <= b < high
  {
    forall b: Index | low <= b < high ensures b in Range(low, high) {
      assert Range(low, high)[b - low] == b;
    }
  }

  /** Payload, then the identity blocks `first..last`, then the header. */
  function WriteOrder(first: nat, last: nat): seq<Index>
    requires 1 <= first <= last < USABLE
  {
    Payload(first, last) + (Range(first, last + 1) + [0])
  }

  function Payload(first: nat, last: nat): seq<Index>
    requires 1 <= first <= last < USABLE
  {
    Range(1, first) + Range(last + 1, USABLE)
  }

  const CLEAR_ORDER: seq<Index> := Range(1, USABLE) + [0]

  /** A sequence that names every usable block once and the header last. */
  ghost predicate HeaderLastOrder(order: seq<Index>) {
    && order != [] && order[|order| - 1] == 0
    && Distinct(order)
    && (forall b: Index :: b in order <==> b < USABLE)
  }

  lemma WriteOrderIsComplete(first: nat, last: nat)
    requires 1 <= first <= last < USABLE
    ensures HeaderLastOrder(WriteOrder(first, last))
  {
    var order := WriteOrder(first, last);
    var n := last + 1 - first;
    assert forall k :: 0 <= k < first - 1 ==> order[k] == 1 + k;
    assert forall k :: first - 1 <= k < USABLE - 1 - n ==> order[k] == last + 1 + (k - (first - 1));
    assert forall k :: USABLE - 1 - n <= k < USABLE - 1 ==> order[k] == first + (k - (USABLE - 1 - n));
    assert |order| == USABLE && order[USABLE - 1] == 0;
    RangeMembers(1, first); RangeMembers(last + 1, USABLE); RangeMembers(first, last + 1);
  }

  lemma ClearOrderIsComplete()
    ensures HeaderLastOrder(CLEAR_ORDER)
  {
    hide Range;
    assert forall k :: 0 <= k < USABLE - 1 ==> CLEAR_ORDER[k] == 1 + k;
    RangeMembers(1, USABLE);
  }

  // ---------------------------------------------------------------- plans

  /** The blocks of `order` that differ, in that order. */
  function Differing(original: Image, target: Image, order: seq<Index>): (blocks: seq<Index>)
    ensures |blocks| <= |order|
  {
    if order == [] then []
    else
      var n := |order| - 1;
      var init := Differing(original, target, order[..n]);
      if original[order[n]] != target[order[n]] then init + [order[n]] else init
  }

  lemma {:induction false} DifferingMembers(original: Image, target: Image, order: seq<Index>)
    ensures forall b: Index :: b in Differing(original, target, order) <==> b in order && original[b] != target[b]
  {
    if order != [] {
      var n := |order| - 1;
      DifferingMembers(original, target, order[..n]);
      assert order == order[..n] + [order[n]];
      assert forall b: Index :: b in order <==> b in order[..n] || b == order[n];
    }
  }

  lemma NothingDiffers(original: Image, target: Image)
    ensures Differing(original, target, []) == []
  {
  }

  lemma DifferingExtends(original: Image, target: Image, order: seq<Index>, b: Index)
    ensures Differing(original, target, order + [b])
         == Differing(original, target, order) + (if original[b] != target[b] then [b] else [])
  {
    assert (order + [b])[..|order|] == order;
  }

  predicate Distinct(s: seq<Index>) {
    forall j, k :: 0 <= j < k < |s| ==> s[j] != s[k]
  }

  lemma {:induction false} DifferingDistinct(original: Image, target: Image, order: seq<Index>)
    requires Distinct(order)
    ensures Distinct(Differing(original, target, order))
  {
    if order != [] {
      var n := |order| - 1;
      DifferingDistinct(original, target, order[..n]);
      DifferingMembers(original, target, order[..n]);
      assert order[n] !in order[..n];
      assert order[n] !in Differing(original, target, order[..n]);
    }
  }

  lemma {:induction false} DifferingSplits(original: Image, target: Image, head: seq<Index>, tail: seq<Index>)
    ensures Differing(original, target, head + tail)
         == Differing(original, target, head) + Differing(original, target, tail)
  {
    if tail == [] {
      assert head + tail == head;
    } else {
      var n := |tail| - 1;
      assert head + tail == (head + tail[..n]) + [tail[n]] && tail == tail[..n] + [tail[n]];
      DifferingSplits(original, target, head, tail[..n]);
      DifferingExtends(original, target, head + tail[..n], tail[n]);
      DifferingExtends(original, target, tail[..n], tail[n]);
      hide Differing;
      var x, y := Differing(original, target, head), Differing(original, target, tail[..n]);
      var z: seq<Index> := if original[tail[n]] != target[tail[n]] then [tail[n]] else [];
      assert (x + y) + z == x + (y + z);
    }
  }

  /** The plan commits exactly the blocks that differ, each once, the header last. */
  lemma PlanIsExact(original: Image, target: Image, order: seq<Index>)
    requires HeaderLastOrder(order)
    ensures var blocks := Differing(original, target, order);
            && (forall b: Index :: b in blocks <==> b < USABLE && original[b] != target[b])
            && Distinct(blocks)
            && (forall k :: 0 <= k < |blocks| && blocks[k] == 0 ==> k == |blocks| - 1)
  {
    DifferingDistinct(original, target, order);
    var n := |order| - 1;
    assert order == order[..n] + [0];
    DifferingExtends(original, target, order[..n], 0);
    DifferingMembers(original, target, order);
    DifferingMembers(original, target, order[..n]);
    hide Differing;
    var init := Differing(original, target, order[..n]);
    assert 0 !in order[..n];
    assert forall k :: 0 <= k < |init| ==> init[k] in order[..n];
  }

  /** Every payload block outside the identity is committed before any identity
      block and before the header. */
  lemma IdentityAfterPayload(original: Image, target: Image, first: nat, last: nat, j: nat, k: nat)
    requires 1 <= first <= last < USABLE
    requires var blocks := Differing(original, target, WriteOrder(first, last));
             && j < |blocks| && k < |blocks|
             && (first <= blocks[j] <= last || blocks[j] == 0) && blocks[k] != 0 && !(first <= blocks[k] <= last)
    ensures k < j
  {
    hide Differing;
    var identity := Range(first, last + 1) + [0];
    DifferingSplits(original, target, Payload(first, last), identity);
    var a, b := Differing(original, target, Payload(first, last)), Differing(original, target, identity);
    DifferingMembers(original, target, Payload(first, last));
    DifferingMembers(original, target, identity);
    RangeMembers(1, first); RangeMembers(last + 1, USABLE); RangeMembers(first, last + 1);
    assert forall i :: 0 <= i < |a| ==> a[i] in Payload(first, last);
    assert forall i :: 0 <= i < |b| ==> b[i] in identity;
  }

  // ---------------------------------------------------------------- the planning methods

  datatype Planned = Refused | Commits(blocks: seq<Index>)

  function PlanWrite(original: Image, target: Image, decode: Image -> Decoding): Planned
    requires decode(target).Placed()
  {
    if original[USABLE..] != target[USABLE..] then Refused
    else match decode(target)
      case Undecodable(_) => Refused
      case Decoded(identity, identified, _) =>
        if !identified then Refused
        else Commits(Differing(original, target, WriteOrder(identity / 4, (identity + 18) / 4)))
  }

  function Cleared(original: Image): Image {
    seq(USABLE, _ => ZERO) + original[USABLE..]
  }

  ghost function PayloadBelow(first: nat, last: nat, block: nat): seq<Index>
    requires 1 <= first <= last < USABLE && block <= USABLE
  {
    if block == 0 then []
    else if block <= first then Range(1, block)
    else if block <= last then Range(1, first)
    else Range(1, first) + Range(last + 1, block)
  }

  lemma PayloadStep(first: nat, last: nat, block: nat)
    requires 1 <= first <= last < USABLE && block < USABLE
    ensures PayloadBelow(first, last, block + 1)
         == PayloadBelow(first, last, block) + (if block != 0 && (block < first || block > last) then [block] else [])
  {
  }

  method PayloadBlocks(original: Image, target: Image, identityBlock: nat, identityEnd: nat)
    returns (blocks: seq<Index>)
    requires 1 <= identityBlock <= identityEnd < USABLE
    ensures blocks == Differing(original, target, Payload(identityBlock, identityEnd))
  {
    hide Differing;
    blocks := [];
    ghost var order: seq<Index> := [];
    NothingDiffers(original, target);
    assert PayloadBelow(identityBlock, identityEnd, USABLE) == Payload(identityBlock, identityEnd);
    hide PayloadBelow; hide Payload;
    for block := 0 to USABLE
      invariant order == PayloadBelow(identityBlock, identityEnd, block)
      invariant blocks == Differing(original, target, order)
    {
      PayloadStep(identityBlock, identityEnd, block);
      if block != 0 && (block < identityBlock || block > identityEnd) {
        DifferingExtends(original, target, order, block);
        order := order + [block];
        if original[block] != target[block] { blocks := blocks + [block]; }
      }
    }
  }

  lemma RangeStep(head: seq<Index>, low: nat, high: nat)
    requires low <= high < BLOCKS
    ensures head + Range(low, high) + [high] == head + Range(low, high + 1)
  {
  }

  method MakePlan(original: Image, target: Image, decode: Image -> Decoding) returns (plan: Planned)
    requires decode(target).Placed()
    ensures plan == PlanWrite(original, target, decode)
  {
    if original[USABLE..] != target[USABLE..] { return Refused; }
    var proposed := decode(target);
    if proposed.Undecodable? || !proposed.identified { return Refused; }
    hide Differing;
    var identityBlock, identityEnd := proposed.identity / 4, (proposed.identity + 18) / 4;
    var blocks := PayloadBlocks(original, target, identityBlock, identityEnd);
    ghost var payload := Payload(identityBlock, identityEnd);
    blocks := IdentityBlocks(original, target, identityBlock, identityEnd, blocks, payload);
    DifferingExtends(original, target, payload + Range(identityBlock, identityEnd + 1), 0);
    if original[0] != target[0] { blocks := blocks + [0]; }
    assert payload + Range(identityBlock, identityEnd + 1) + [0] == WriteOrder(identityBlock, identityEnd);
    plan := Commits(blocks);
  }

  method IdentityBlocks(original: Image, target: Image, identityBlock: nat, identityEnd: nat,
                        before: seq<Index>, ghost payload: seq<Index>)
    returns (blocks: seq<Index>)
    requires identityBlock <= identityEnd < USABLE && before == Differing(original, target, payload)
    ensures blocks == Differing(original, target, payload + Range(identityBlock, identityEnd + 1))
  {
    hide Differing;
    blocks := before;
    ghost var order := payload;
    assert payload + Range(identityBlock, identityBlock) == payload;
    hide Range;
    for block := identityBlock to identityEnd + 1
      invariant order == payload + Range(identityBlock, block)
      invariant blocks == Differing(original, target, order)
    {
      DifferingExtends(original, target, order, block);
      RangeStep(payload, identityBlock, block);
      order := order + [block];
      if original[block] != target[block] { blocks := blocks + [block]; }
    }
  }

  method MakeClearPlan(original: Image) returns (target: Image, blocks: seq<Index>)
    ensures target == Cleared(original) && blocks == Differing(original, target, CLEAR_ORDER)
  {
    target := Cleared(original);
    blocks := [];
    ghost var order: seq<Index> := [];
    for block := 1 to USABLE
      invariant order == Range(1, block)
      invariant blocks == Differing(original, target, order)
    {
      DifferingExtends(original, target, order, block);
      order := order + [block];
      if original[block] != target[block] { blocks := blocks + [block]; }
    }
    DifferingExtends(original, target, order, 0);
    if original[0] != target[0] { blocks := blocks + [0]; }
  }
}
