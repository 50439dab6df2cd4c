/**
 Every field of the stored update record is covered by its checksum: the byte
 stream determines all of them, and a change of one of them is rejected.
*/
module RecordCoverage {
  import opened Prelude
  import opened RecordChecksum

  // ---------------------------------------------------------------- the stream in parts

  function Concat(parts: seq<Bytes>): Bytes {
    if parts == [] then [] else Concat(parts[..|parts| - 1]) + parts[|parts| - 1]
  }

  lemma {:induction false} ConcatAppend(a: seq<Bytes>, b: seq<Bytes>)
    ensures Concat(a + b) == Concat(a) + Concat(b)
  {
    if b == [] {
      assert a + b == a;
    } else {
      var n := |b| - 1;
      assert (a + b)[..|a| + n] == a + b[..n];
      ConcatAppend(a, b[..n]);
    }
  }

  /** The same number of parts, of the same sizes. */
  predicate Alike(a: seq<Bytes>, b: seq<Bytes>) {
    |a| == |b| && forall i :: 0 <= i < |a| ==> |a[i]| == |b[i]|
  }

  /** Parts of the same sizes are determined by their concatenation. */
  lemma {:induction false} ConcatInjective(a: seq<Bytes>, b: seq<Bytes>)
    requires Alike(a, b) && Concat(a) == Concat(b)
    ensures a == b
  {
    if a != [] {
      var n := |a| - 1;
      SameSize(a[..n], b[..n]);
      var x, y := Concat(a[..n]), Concat(b[..n]);
      assert (x + a[n])[..|x|] == x && (y + b[n])[..|y|] == y;
      assert (x + a[n])[|x|..] == a[n] && (y + b[n])[|y|..] == b[n];
      ConcatInjective(a[..n], b[..n]);
      assert a == a[..n] + [a[n]] && b == b[..n] + [b[n]];
    }
  }

  lemma {:induction false} SameSize(a: seq<Bytes>, b: seq<Bytes>)
    requires Alike(a, b)
    ensures |Concat(a)| == |Concat(b)|
  {
    if a != [] { SameSize(a[..|a| - 1], b[..|a| - 1]); }
  }

  lemma AlikeAppend(a: seq<Bytes>, b: seq<Bytes>, c: seq<Bytes>, d: seq<Bytes>)
    requires Alike(a, b) && Alike(c, d)
    ensures Alike(a + c, b + d)
    ensures a + c == b + d ==> a == b && c == d
  {
    if a + c == b + d {
      assert (a + c)[..|a|] == a && (b + d)[..|b|] == b;
      assert (a + c)[|a|..] == c && (b + d)[|b|..] == d;
    }
  }

  function IdentityParts(r: Record): seq<Bytes> {
    [Bytes32(r.magic), Bytes16(r.schema), Bytes16(r.recordSize), Bytes64(r.generation), Bytes64(r.operationId)]
  }

  function StatusParts(r: Record): seq<Bytes> { [[r.state], [r.flags], Bytes16(r.reserved)] }

  function TextParts(t: Text): seq<Bytes> { [[t.length], t.characters] }

  function PartitionParts(p: Partition): seq<Bytes> {
    TextParts(p.caption) + [Bytes32(p.address), Bytes32(p.size), [p.subtype]]
  }

  function UploadParts(r: Record): seq<Bytes> {
    [Bytes32(r.expectedLength), Bytes32(r.bytesReceived), r.expectedSha, r.calculatedSha]
  }

  function FirmwareParts(f: Firmware): seq<Bytes> {
    TextParts(f.project) + TextParts(f.version) + TextParts(f.gitSha) + TextParts(f.buildDate) + TextParts(f.board)
    + TextParts(f.idf)
  }

  function ClosingParts(r: Record): seq<Bytes> {
    TextParts(r.lastError) + [Bytes32(r.startedAt), Bytes32(r.updatedAt)]
  }

  function Parts(r: Record): seq<Bytes> {
    IdentityParts(r) + StatusParts(r) + PartitionParts(r.target) + UploadParts(r) + FirmwareParts(r.candidate)
    + ClosingParts(r)
  }

  lemma OnePart(a: Bytes)
    ensures Concat([a]) == a
  {
    assert [a][..0] == [] && [] + a == a;
  }

  lemma TwoParts(a: Bytes, b: Bytes)
    ensures Concat([a, b]) == a + b
  {
    OnePart(a);
    assert [a, b][..1] == [a];
  }

  lemma OneMore(parts: seq<Bytes>, a: Bytes)
    ensures Concat(parts + [a]) == Concat(parts) + a
  {
    assert (parts + [a])[..|parts|] == parts;
  }

  lemma IdentityIsConcat(r: Record)
    ensures Concat(IdentityParts(r)) == IdentityBytes(r)
  {
    hide Bytes16; hide Bytes32; hide Bytes64; hide Concat;
    var a, b, c := Bytes32(r.magic), Bytes16(r.schema), Bytes16(r.recordSize);
    var d, e := Bytes64(r.generation), Bytes64(r.operationId);
    TwoParts(a, b);
    OneMore([a, b], c);
    OneMore([a, b, c], d);
    OneMore([a, b, c, d], e);
    assert [a, b] + [c] == [a, b, c] && [a, b, c] + [d] == [a, b, c, d] && [a, b, c, d] + [e] == IdentityParts(r);
  }

  lemma StatusIsConcat(r: Record)
    ensures Concat(StatusParts(r)) == StatusBytes(r)
  {
    hide Bytes16; hide Concat;
    TwoParts([r.state], [r.flags]);
    OneMore([[r.state], [r.flags]], Bytes16(r.reserved));
    assert [[r.state], [r.flags]] + [Bytes16(r.reserved)] == StatusParts(r);
  }

  lemma TextIsConcat(t: Text)
    ensures Concat(TextParts(t)) == TextBytes(t)
  {
    TwoParts([t.length], t.characters);
  }

  lemma PartitionIsConcat(p: Partition)
    ensures Concat(PartitionParts(p)) == PartitionBytes(p)
  {
    hide Bytes32; hide Concat; hide TextBytes;
    TextIsConcat(p.caption);
    var t, a, b, c := TextParts(p.caption), Bytes32(p.address), Bytes32(p.size), [p.subtype];
    hide TextParts;
    OneMore(t, a);
    OneMore(t + [a], b);
    OneMore(t + [a] + [b], c);
    assert t + [a] + [b] + [c] == t + [a, b, c];
  }

  lemma FirmwareIsConcat(f: Firmware)
    ensures Concat(FirmwareParts(f)) == FirmwareBytes(f)
  {
    TextIsConcat(f.project); TextIsConcat(f.version); TextIsConcat(f.gitSha);
    TextIsConcat(f.buildDate); TextIsConcat(f.board); TextIsConcat(f.idf);
    hide Concat; hide TextBytes; hide TextParts;
    var a, b, c := TextParts(f.project), TextParts(f.version), TextParts(f.gitSha);
    var d, e, g := TextParts(f.buildDate), TextParts(f.board), TextParts(f.idf);
    ConcatAppend(a, b);
    ConcatAppend(a + b, c);
    ConcatAppend(a + b + c, d);
    ConcatAppend(a + b + c + d, e);
    ConcatAppend(a + b + c + d + e, g);
  }

  lemma UploadIsConcat(r: Record)
    ensures Concat(UploadParts(r))
         == Bytes32(r.expectedLength) + Bytes32(r.bytesReceived) + r.expectedSha + r.calculatedSha
  {
    hide Bytes32; hide Concat;
    var a, b := Bytes32(r.expectedLength), Bytes32(r.bytesReceived);
    TwoParts(a, b);
    OneMore([a, b], r.expectedSha);
    OneMore([a, b, r.expectedSha], r.calculatedSha);
    assert [a, b] + [r.expectedSha] == [a, b, r.expectedSha];
    assert [a, b, r.expectedSha] + [r.calculatedSha] == UploadParts(r);
  }

  lemma ClosingIsConcat(r: Record)
    ensures Concat(ClosingParts(r)) == TextBytes(r.lastError) + Bytes32(r.startedAt) + Bytes32(r.updatedAt)
  {
    TextIsConcat(r.lastError);
    hide Bytes32; hide Concat; hide TextBytes; hide TextParts;
    var t, a, b := TextParts(r.lastError), Bytes32(r.startedAt), Bytes32(r.updatedAt);
    OneMore(t, a);
    OneMore(t + [a], b);
    assert t + [a] + [b] == t + [a, b];
  }

  /** The stream is the concatenation of its parts. */
  lemma StreamIsConcat(r: Record)
    ensures Serialize(r) == Concat(Parts(r))
  {
    IdentityIsConcat(r); StatusIsConcat(r); PartitionIsConcat(r.target); UploadIsConcat(r);
    FirmwareIsConcat(r.candidate); ClosingIsConcat(r);
    hide Concat; hide Bytes32; hide TextBytes; hide IdentityBytes; hide StatusBytes; hide PartitionBytes;
    hide FirmwareBytes;
    hide IdentityParts; hide StatusParts; hide PartitionParts; hide UploadParts; hide FirmwareParts; hide ClosingParts;
    var a, b, c := IdentityParts(r), StatusParts(r), PartitionParts(r.target);
    var d, e, g := UploadParts(r), FirmwareParts(r.candidate), ClosingParts(r);
    ConcatAppend(a, b);
    ConcatAppend(a + b, c);
    ConcatAppend(a + b + c, d);
    ConcatAppend(a + b + c + d, e);
    ConcatAppend(a + b + c + d + e, g);
    assert Serialize(r) == ((((IdentityBytes(r) + StatusBytes(r)) + PartitionBytes(r.target))
                             + (Bytes32(r.expectedLength) + Bytes32(r.bytesReceived) + r.expectedSha + r.calculatedSha))
                            + FirmwareBytes(r.candidate))
                           + (TextBytes(r.lastError) + Bytes32(r.startedAt) + Bytes32(r.updatedAt));
  }

  // ---------------------------------------------------------------- the stream determines the record

  /** The array sizes of the stored record. */
  predicate Shaped(r: Record) {
    && |r.target.caption.characters| == 17 && |r.expectedSha| == 32 && |r.calculatedSha| == 32
    && |r.candidate.project.characters| == 33 && |r.candidate.version.characters| == 33
    && |r.candidate.gitSha.characters| == 41 && |r.candidate.buildDate.characters| == 33
    && |r.candidate.board.characters| == 33 && |r.candidate.idf.characters| == 33
    && |r.lastError.characters| == 193
  }

  lemma ValidIsShaped(r: Record)
    requires ValidContents(r) && |r.expectedSha| == 32 && |r.calculatedSha| == 32
    ensures Shaped(r)
  {
  }

  lemma TwoShifts(a: bv16)
    ensures Shifted(Shifted(Widen16(a))) == 0
  {
  }

  lemma Widen16Injective(a: bv16, b: bv16)
    ensures Widen16(a) == Widen16(b) ==> a == b
  {
  }

  lemma EightShifts(a: bv64)
    ensures Shifted(Shifted(Shifted(Shifted(Shifted(Shifted(Shifted(Shifted(a)))))))) == 0
  {
  }

  lemma Bytes16Injective(a: bv16, b: bv16)
    ensures Bytes16(a) == Bytes16(b) ==> a == b
  {
    hide Lowest; hide Shifted; hide LittleEndian; hide Widen16;
    TwoShifts(a);
    TwoShifts(b);
    assert ShiftedBy(Widen16(a), 2) == ShiftedBy(Shifted(Widen16(a)), 1);
    assert ShiftedBy(Widen16(b), 2) == ShiftedBy(Shifted(Widen16(b)), 1);
    if Bytes16(a) == Bytes16(b) { SameBytes(Widen16(a), Widen16(b), 2); }
    Widen16Injective(a, b);
  }

  lemma Bytes64Injective(a: bv64, b: bv64)
    ensures Bytes64(a) == Bytes64(b) ==> a == b
  {
    hide Lowest; hide Shifted; hide LittleEndian;
    ShiftedOut(a);
    ShiftedOut(b);
    if Bytes64(a) == Bytes64(b) { SameBytes(a, b, 8); }
  }

  lemma ShiftedOut(a: bv64)
    ensures ShiftedBy(a, 8) == 0
  {
    EightShifts(a);
    hide Shifted;
    var b := Shifted(Shifted(Shifted(Shifted(a))));
    ShiftedByFour(b);
    assert ShiftedBy(a, 8) == ShiftedBy(Shifted(a), 7);
    assert ShiftedBy(Shifted(a), 7) == ShiftedBy(Shifted(Shifted(a)), 6);
    assert ShiftedBy(Shifted(Shifted(a)), 6) == ShiftedBy(Shifted(Shifted(Shifted(a))), 5);
    assert ShiftedBy(Shifted(Shifted(Shifted(a))), 5) == ShiftedBy(b, 4);
  }

  /** Two records of the same stream differ at most in the stored checksum:
      every field is covered. */
  lemma EveryFieldIsCovered(r: Record, q: Record)
    requires Shaped(r) && Shaped(q) && Serialize(r) == Serialize(q)
    ensures q == r.(checksum := q.checksum)
  {
    hide Serialize; hide Concat; hide Parts;
    StreamIsConcat(r);
    StreamIsConcat(q);
    PartsAlike(r, q);
    hide Shaped;
    ConcatInjective(Parts(r), Parts(q));
  }

  /** The parts of two records have the same sizes and determine the fields. */
  lemma PartsAlike(r: Record, q: Record)
    requires Shaped(r) && Shaped(q)
    ensures Alike(Parts(r), Parts(q))
    ensures Parts(r) == Parts(q) ==> q == r.(checksum := q.checksum)
  {
    IdentityAlike(r, q); StatusAlike(r, q); PartitionAlike(r.target, q.target); UploadAlike(r, q);
    FirmwareAlike(r.candidate, q.candidate); ClosingAlike(r, q);
    hide IdentityParts; hide StatusParts; hide PartitionParts; hide UploadParts; hide FirmwareParts; hide ClosingParts;
    hide Alike;
    var a, b, c := IdentityParts(r), StatusParts(r), PartitionParts(r.target);
    var d, e, g := UploadParts(r), FirmwareParts(r.candidate), ClosingParts(r);
    var a', b', c' := IdentityParts(q), StatusParts(q), PartitionParts(q.target);
    var d', e', g' := UploadParts(q), FirmwareParts(q.candidate), ClosingParts(q);
    AlikeAppend(a, a', b, b');
    AlikeAppend(a + b, a' + b', c, c');
    AlikeAppend(a + b + c, a' + b' + c', d, d');
    AlikeAppend(a + b + c + d, a' + b' + c' + d', e, e');
    AlikeAppend(a + b + c + d + e, a' + b' + c' + d' + e', g, g');
  }

  lemma IdentityAlike(r: Record, q: Record)
    ensures Alike(IdentityParts(r), IdentityParts(q))
    ensures IdentityParts(r) == IdentityParts(q) ==>
              r.magic == q.magic && r.schema == q.schema && r.recordSize == q.recordSize
              && r.generation == q.generation && r.operationId == q.operationId
  {
    hide Bytes16; hide Bytes32; hide Bytes64;
    LittleEndianInjective(r.magic, q.magic);
    Bytes16Injective(r.schema, q.schema); Bytes16Injective(r.recordSize, q.recordSize);
    Bytes64Injective(r.generation, q.generation); Bytes64Injective(r.operationId, q.operationId);
  }

  lemma StatusAlike(r: Record, q: Record)
    ensures Alike(StatusParts(r), StatusParts(q))
    ensures StatusParts(r) == StatusParts(q) ==> r.state == q.state && r.flags == q.flags && r.reserved == q.reserved
  {
    hide Bytes16;
    Bytes16Injective(r.reserved, q.reserved);
  }

  lemma TextAlike(t: Text, u: Text)
    requires |t.characters| == |u.characters|
    ensures Alike(TextParts(t), TextParts(u)) && (TextParts(t) == TextParts(u) ==> t == u)
  {
  }

  lemma PartitionAlike(p: Partition, q: Partition)
    requires |p.caption.characters| == |q.caption.characters|
    ensures Alike(PartitionParts(p), PartitionParts(q)) && (PartitionParts(p) == PartitionParts(q) ==> p == q)
  {
    hide Bytes32;
    TextAlike(p.caption, q.caption);
    LittleEndianInjective(p.address, q.address);
    LittleEndianInjective(p.size, q.size);
    AlikeAppend(TextParts(p.caption), TextParts(q.caption), [Bytes32(p.address), Bytes32(p.size), [p.subtype]],
                [Bytes32(q.address), Bytes32(q.size), [q.subtype]]);
  }

  lemma UploadAlike(r: Record, q: Record)
    requires |r.expectedSha| == |q.expectedSha| && |r.calculatedSha| == |q.calculatedSha|
    ensures Alike(UploadParts(r), UploadParts(q))
    ensures UploadParts(r) == UploadParts(q) ==>
              r.expectedLength == q.expectedLength && r.bytesReceived == q.bytesReceived
              && r.expectedSha == q.expectedSha && r.calculatedSha == q.calculatedSha
  {
    hide Bytes32;
    LittleEndianInjective(r.expectedLength, q.expectedLength);
    LittleEndianInjective(r.bytesReceived, q.bytesReceived);
  }

  lemma FirmwareAlike(f: Firmware, g: Firmware)
    requires |f.project.characters| == |g.project.characters| && |f.version.characters| == |g.version.characters|
    requires |f.gitSha.characters| == |g.gitSha.characters| && |f.buildDate.characters| == |g.buildDate.characters|
    requires |f.board.characters| == |g.board.characters| && |f.idf.characters| == |g.idf.characters|
    ensures Alike(FirmwareParts(f), FirmwareParts(g)) && (FirmwareParts(f) == FirmwareParts(g) ==> f == g)
  {
    TextAlike(f.project, g.project); TextAlike(f.version, g.version); TextAlike(f.gitSha, g.gitSha);
    TextAlike(f.buildDate, g.buildDate); TextAlike(f.board, g.board); TextAlike(f.idf, g.idf);
    hide TextParts; hide Alike;
    var a, b, c := TextParts(f.project), TextParts(f.version), TextParts(f.gitSha);
    var d, e, h := TextParts(f.buildDate), TextParts(f.board), TextParts(f.idf);
    var a', b', c' := TextParts(g.project), TextParts(g.version), TextParts(g.gitSha);
    var d', e', h' := TextParts(g.buildDate), TextParts(g.board), TextParts(g.idf);
    AlikeAppend(a, a', b, b');
    AlikeAppend(a + b, a' + b', c, c');
    AlikeAppend(a + b + c, a' + b' + c', d, d');
    AlikeAppend(a + b + c + d, a' + b' + c' + d', e, e');
    AlikeAppend(a + b + c + d + e, a' + b' + c' + d' + e', h, h');
  }

  lemma ClosingAlike(r: Record, q: Record)
    requires |r.lastError.characters| == |q.lastError.characters|
    ensures Alike(ClosingParts(r), ClosingParts(q))
    ensures ClosingParts(r) == ClosingParts(q) ==>
              r.lastError == q.lastError && r.startedAt == q.startedAt && r.updatedAt == q.updatedAt
  {
    hide Bytes32;
    TextAlike(r.lastError, q.lastError);
    LittleEndianInjective(r.startedAt, q.startedAt);
    LittleEndianInjective(r.updatedAt, q.updatedAt);
    AlikeAppend(TextParts(r.lastError), TextParts(q.lastError), [Bytes32(r.startedAt), Bytes32(r.updatedAt)],
                [Bytes32(q.startedAt), Bytes32(q.updatedAt)]);
  }

  // ---------------------------------------------------------------- what a corruption is

  /** Two byte sequences that differ only within four consecutive places. */
  predicate Window(a: Bytes, b: Bytes, at: nat) {
    |a| == |b| && forall k :: 0 <= k < |a| && !(at <= k < at + 4) ==> a[k] == b[k]
  }

  /** An accepted record that changes in any way within four consecutive bytes
      of its stream is rejected: no field is outside the checksum. */
  lemma DamageIsRejected(r: Record, q: Record, at: nat)
    requires ValidRecord(r) && Shaped(r) && Shaped(q) && q.checksum == r.checksum && q != r
    requires Window(Serialize(r), Serialize(q), at)
    ensures !ValidRecord(q)
  {
    hide Serialize; hide ValidRecord;
    if Serialize(q) == Serialize(r) {
      EveryFieldIsCovered(r, q);
    } else {
      CorruptionRejected(r, q, at);
    }
  }

  /** In particular a change within four consecutive bytes of one field, be it a
      number, a digest or a text. */
  lemma FieldIsProtected(r: Record, q: Record, head: seq<Bytes>, v: Bytes, w: Bytes, tail: seq<Bytes>, at: nat)
    requires ValidRecord(r) && Shaped(r) && Shaped(q) && q.checksum == r.checksum
    requires Parts(r) == head + [v] + tail && Parts(q) == head + [w] + tail && v != w && Window(v, w, at)
    ensures !ValidRecord(q)
  {
    hide Serialize; hide ValidRecord; hide Parts; hide Concat; hide Shaped;
    StreamIsConcat(r); StreamIsConcat(q);
    ConcatAppend(head, [v]); ConcatAppend(head + [v], tail); OnePart(v);
    ConcatAppend(head, [w]); ConcatAppend(head + [w], tail); OnePart(w);
    var h, t := Concat(head), Concat(tail);
    assert Window(h + v + t, h + w + t, |h| + at);
    assert head + [v] + tail != head + [w] + tail by {
      assert (head + [v] + tail)[|head|] == v && (head + [w] + tail)[|head|] == w;
    }
    DamageIsRejected(r, q, |h| + at);
  }

  datatype Change =
    | Address(address: bv32) | Size(size: bv32) | Subtype(subtype: bv8) | Received(received: bv32)
    | Started(at: bv32) | Updated(at: bv32)

  function Changed(r: Record, c: Change): Record {
    match c
    case Address(address) => r.(target := r.target.(address := address))
    case Size(size) => r.(target := r.target.(size := size))
    case Subtype(subtype) => r.(target := r.target.(subtype := subtype))
    case Received(received) => r.(bytesReceived := received)
    case Started(at) => r.(startedAt := at)
    case Updated(at) => r.(updatedAt := at)
  }

  /** No change of the target's address, size or subtype, of the progress or of
      a timestamp leaves a record acceptable. */
  lemma SmallFieldsAreProtected(r: Record, c: Change)
    requires ValidRecord(r) && Shaped(r) && Changed(r, c) != r
    ensures !ValidRecord(Changed(r, c))
  {
    hide ValidRecord; hide Parts; hide Bytes32; hide Serialize;
    var q := Changed(r, c);
    assert Shaped(q);
    hide Shaped;
    var (head, v, w, tail) := Around(r, c);
    PartsAround(r, c);
    Differs(r, c);
    FieldIsProtected(r, q, head, v, w, tail, 0);
  }

  /** The parts before and after the changed one, and its two contents. */
  function Around(r: Record, c: Change): (seq<Bytes>, Bytes, Bytes, seq<Bytes>) {
    var first := IdentityParts(r) + StatusParts(r);
    var before := first + TextParts(r.target.caption);
    var rest := FirmwareParts(r.candidate) + ClosingParts(r);
    var after := UploadParts(r) + rest;
    var last := first + PartitionParts(r.target) + UploadParts(r) + FirmwareParts(r.candidate) + TextParts(r.lastError);
    var a, b, d := Bytes32(r.target.address), Bytes32(r.target.size), [r.target.subtype];
    match c
    case Address(address) => (before, a, Bytes32(address), [b, d] + after)
    case Size(size) => (before + [a], b, Bytes32(size), [d] + after)
    case Subtype(subtype) => (before + [a, b], d, [subtype], after)
    case Received(received) =>
      (first + PartitionParts(r.target) + [Bytes32(r.expectedLength)], Bytes32(r.bytesReceived), Bytes32(received),
       [r.expectedSha, r.calculatedSha] + rest)
    case Started(at) => (last, Bytes32(r.startedAt), Bytes32(at), [Bytes32(r.updatedAt)])
    case Updated(at) => (last + [Bytes32(r.startedAt)], Bytes32(r.updatedAt), Bytes32(at), [])
  }

  lemma Differs(r: Record, c: Change)
    requires Changed(r, c) != r
    ensures Around(r, c).1 != Around(r, c).2 && Window(Around(r, c).1, Around(r, c).2, 0)
  {
    hide Bytes32; hide IdentityParts; hide StatusParts; hide PartitionParts; hide UploadParts; hide FirmwareParts;
    hide ClosingParts; hide TextParts;
    match c
    case Address(address) => LittleEndianInjective(r.target.address, address);
    case Size(size) => LittleEndianInjective(r.target.size, size);
    case Subtype(subtype) => assert [r.target.subtype][0] != [subtype][0];
    case Received(received) => LittleEndianInjective(r.bytesReceived, received);
    case Started(at) => LittleEndianInjective(r.startedAt, at);
    case Updated(at) => LittleEndianInjective(r.updatedAt, at);
  }

  lemma PartsAround(r: Record, c: Change)
    ensures var (head, v, w, tail) := Around(r, c);
            Parts(r) == head + [v] + tail && Parts(Changed(r, c)) == head + [w] + tail
  {
    SameAround(r, c);
    Regrouped(r, c);
    Regrouped(Changed(r, c), c);
    hide Parts; hide Bytes32; hide IdentityParts; hide StatusParts; hide FirmwareParts; hide TextParts;
    hide PartitionParts; hide UploadParts; hide ClosingParts;
  }

  /** The stream's parts, opened at the field that `c` changes. */
  lemma Regrouped(r: Record, c: Change)
    ensures Parts(r) == Around(r, c).0 + [Around(r, c).1] + Around(r, c).3
  {
    hide Bytes32; hide IdentityParts; hide StatusParts; hide FirmwareParts; hide TextParts;
    var first, t := IdentityParts(r) + StatusParts(r), TextParts(r.target.caption);
    var u, f, e := UploadParts(r), FirmwareParts(r.candidate), ClosingParts(r);
    if c.Address? || c.Size? || c.Subtype? {
      hide UploadParts; hide ClosingParts;
      OpenThree(first, t, Bytes32(r.target.address), Bytes32(r.target.size), [r.target.subtype], u + (f + e));
      AllTogether(first, PartitionParts(r.target), u, f, e);
    } else if c.Received? {
      hide PartitionParts; hide ClosingParts;
      OpenFour(first + PartitionParts(r.target), Bytes32(r.expectedLength), Bytes32(r.bytesReceived), r.expectedSha,
               r.calculatedSha, f + e);
      AllTogether(first, PartitionParts(r.target), u, f, e);
    } else {
      hide PartitionParts; hide UploadParts;
      OpenTwo(first + PartitionParts(r.target) + u + f, TextParts(r.lastError), Bytes32(r.startedAt),
              Bytes32(r.updatedAt));
    }
  }

  lemma AllTogether(x: seq<Bytes>, p: seq<Bytes>, u: seq<Bytes>, f: seq<Bytes>, e: seq<Bytes>)
    ensures x + p + u + f + e == x + (p + (u + (f + e))) && (x + p) + (u + (f + e)) == x + p + u + f + e
  {
  }

  lemma OpenThree(x: seq<Bytes>, t: seq<Bytes>, a: Bytes, b: Bytes, d: Bytes, rest: seq<Bytes>)
    ensures x + ((t + [a, b, d]) + rest) == (x + t) + [a] + ([b, d] + rest)
    ensures x + ((t + [a, b, d]) + rest) == (x + t + [a]) + [b] + ([d] + rest)
    ensures x + ((t + [a, b, d]) + rest) == (x + t + [a, b]) + [d] + rest
  {
  }

  lemma OpenFour(x: seq<Bytes>, a: Bytes, b: Bytes, c: Bytes, d: Bytes, rest: seq<Bytes>)
    ensures x + ([a, b, c, d] + rest) == (x + [a]) + [b] + ([c, d] + rest)
  {
  }

  lemma OpenTwo(x: seq<Bytes>, t: seq<Bytes>, a: Bytes, b: Bytes)
    ensures x + (t + [a, b]) == (x + t) + [a] + [b]
    ensures x + (t + [a, b]) == (x + t + [a]) + [b] + []
  {
  }

  lemma SameAround(r: Record, c: Change)
    ensures var q := Changed(r, c);
            && IdentityParts(q) == IdentityParts(r) && StatusParts(q) == StatusParts(r)
            && FirmwareParts(q.candidate) == FirmwareParts(r.candidate)
            && TextParts(q.lastError) == TextParts(r.lastError)
            && (!c.Received? ==> UploadParts(q) == UploadParts(r))
            && (!c.Started? && !c.Updated? ==> ClosingParts(q) == ClosingParts(r))
            && (!c.Address? && !c.Size? && !c.Subtype? ==> PartitionParts(q.target) == PartitionParts(r.target))
            && TextParts(q.target.caption) == TextParts(r.target.caption)
  {
    hide Bytes16; hide Bytes32; hide Bytes64; hide TextParts; hide FirmwareParts;
  }
}
