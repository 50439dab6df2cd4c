/** The stored update record, its checksum and the check made on every load. */
module RecordChecksum {
  import opened Prelude
  import opened Crc32

  const MAGIC: bv32 := 0x4F54_4155
  const SCHEMA: bv16 := 1
  const RECORD_SIZE: bv16 := 552
  const MAXIMUM_IMAGE: bv32 := 5 * 1024 * 1024
  const LAST_STATE: bv8 := 12
  const ALL_FLAGS: bv8 := 0xF

  /** A text of at most `|characters| - 1` characters, zero-terminated. */
  datatype Text = Text(length: bv8, characters: Bytes)

  datatype Partition = Partition(caption: Text, address: bv32, size: bv32, subtype: bv8)

  datatype Firmware = Firmware(project: Text, version: Text, gitSha: Text, buildDate: Text, board: Text, idf: Text)

  datatype Record = Record(
    magic: bv32, schema: bv16, recordSize: bv16, generation: bv64, operationId: bv64,
    state: bv8, flags: bv8, reserved: bv16, target: Partition, expectedLength: bv32, bytesReceived: bv32,
    expectedSha: Bytes, calculatedSha: Bytes, candidate: Firmware, lastError: Text,
    startedAt: bv32, updatedAt: bv32, checksum: bv32)

  // ---------------------------------------------------------------- the byte stream

  function Lowest(value: bv64): bv8 { (value & 0xFF) as bv8 }
  function Shifted(value: bv64): bv64 { value >> 8 }

  function LittleEndian(value: bv64, size: nat): (s: Bytes)
    ensures |s| == size
  {
    if size == 0 then [] else [Lowest(value)] + LittleEndian(Shifted(value), size - 1)
  }

  function Widen(a: bv32): bv64 { a as bv64 }

  function Widen16(a: bv16): bv64 { a as bv64 }

  function Bytes16(a: bv16): (s: Bytes)
    ensures |s| == 2
  {
    LittleEndian(Widen16(a), 2)
  }

  function Bytes32(a: bv32): (s: Bytes)
    ensures |s| == 4
  {
    LittleEndian(Widen(a), 4)
  }

  function Bytes64(a: bv64): (s: Bytes)
    ensures |s| == 8
  {
    LittleEndian(a, 8)
  }


  function TextBytes(t: Text): Bytes { [t.length] + t.characters }

  function PartitionBytes(p: Partition): Bytes {
    TextBytes(p.caption) + Bytes32(p.address) + Bytes32(p.size) + [p.subtype]
  }

  function FirmwareBytes(f: Firmware): Bytes {
    TextBytes(f.project) + TextBytes(f.version) + TextBytes(f.gitSha) + TextBytes(f.buildDate) + TextBytes(f.board)
    + TextBytes(f.idf)
  }

  function IdentityBytes(r: Record): Bytes {
    Bytes32(r.magic) + Bytes16(r.schema) + Bytes16(r.recordSize)
    + Bytes64(r.generation) + Bytes64(r.operationId)
  }

  /** State, flags and the reserved half-word: four consecutive bytes. */
  function StatusBytes(r: Record): Bytes { [r.state] + [r.flags] + Bytes16(r.reserved) }

  function Serialize(r: Record): Bytes {
    IdentityBytes(r) + StatusBytes(r) + PartitionBytes(r.target)
    + Bytes32(r.expectedLength) + Bytes32(r.bytesReceived)
    + r.expectedSha + r.calculatedSha + FirmwareBytes(r.candidate) + TextBytes(r.lastError)
    + Bytes32(r.startedAt) + Bytes32(r.updatedAt)
  }

  function Checksum(r: Record): bv32 { Not(Crc(0xFFFF_FFFF, Serialize(r))) }

  /** The checksum is the CRC-32 of RFC 1952 of the serialized record. */
  lemma ChecksumIsRfc1952(r: Record)
    ensures Checksum(r) == RfcCrc(Serialize(r))
  {
    hide Serialize; hide RfcCrc; hide Crc; hide Not;
    ComplementIsRfc1952(Serialize(r));
  }

  // ---------------------------------------------------------------- the check on load

  predicate ValidText(t: Text, maximum: nat) {
    && |t.characters| == maximum + 1
    && t.length as nat <= maximum && t.characters[t.length as nat] == 0
    && forall k :: 0 <= k < t.length as nat ==> t.characters[k] >= 0x20 && t.characters[k] != 0x7F
  }

  predicate Present(p: Partition) { p.address != 0 && p.size != 0 }

  predicate ValidPartition(p: Partition) {
    ValidText(p.caption, 16) && (Present(p) ==> p.caption.length != 0)
  }

  predicate ValidFirmware(f: Firmware) {
    ValidText(f.project, 32) && ValidText(f.version, 32) && ValidText(f.gitSha, 40)
    && ValidText(f.buildDate, 32) && ValidText(f.board, 32) && ValidText(f.idf, 32)
  }

  predicate ValidContents(r: Record) {
    && r.magic == MAGIC && r.schema == SCHEMA && r.recordSize == RECORD_SIZE
    && r.state <= LAST_STATE && r.flags & !ALL_FLAGS == 0 && r.reserved == 0
    && ValidPartition(r.target) && ValidFirmware(r.candidate) && ValidText(r.lastError, 192)
    && r.expectedLength <= MAXIMUM_IMAGE && r.bytesReceived <= r.expectedLength
  }

  predicate ValidRecord(r: Record) {
    ValidContents(r) && r.checksum == Checksum(r)
  }

  /** Any corruption of an accepted record that stays within four consecutive
      bytes of the stream is rejected, whatever the bytes mean. */
  lemma CorruptionRejected(r: Record, q: Record, at: nat)
    requires ValidRecord(r) && q.checksum == r.checksum
    requires |Serialize(q)| == |Serialize(r)| && Serialize(q) != Serialize(r)
    requires forall k :: 0 <= k < |Serialize(r)| && !(at <= k < at + 4) ==> Serialize(q)[k] == Serialize(r)[k]
    ensures !ValidRecord(q)
  {
    hide Serialize; hide Crc; hide ValidContents; hide Not;
    WindowDetected(0xFFFF_FFFF, Serialize(q), Serialize(r), at);
    if Checksum(q) == Checksum(r) {
      NotInjective(Crc(0xFFFF_FFFF, Serialize(q)), Crc(0xFFFF_FFFF, Serialize(r)));
      assert false;
    }
  }

  /** Sealing what the manager writes makes a record that every load accepts. */
  lemma SealedIsAccepted(r: Record)
    requires ValidContents(r)
    ensures ValidRecord(r.(checksum := Checksum(r)))
  {
    hide Crc; hide Not; hide Checksum;
    SealChangesNothing(r, Checksum(r));
  }

  lemma SealChangesNothing(r: Record, checksum: bv32)
    ensures Checksum(r.(checksum := checksum)) == Checksum(r)
    ensures ValidContents(r.(checksum := checksum)) <==> ValidContents(r)
  {
    hide Crc; hide Not; hide Bytes16; hide Bytes32; hide Bytes64; hide TextBytes; hide FirmwareBytes;
    hide PartitionBytes; hide ValidPartition; hide ValidFirmware; hide ValidText;
  }

  lemma SplicedIsRejected(r: Record, q: Record, head: Bytes, v: Bytes, w: Bytes, tail: Bytes)
    requires ValidRecord(r) && q.checksum == r.checksum && |v| == |w| <= 4 && v != w
    requires Serialize(r) == head + v + tail && Serialize(q) == head + w + tail
    ensures !ValidRecord(q)
  {
    hide Serialize; hide Crc; hide ValidContents; hide ValidRecord;
    var s, t := head + v + tail, head + w + tail;
    assert s[|head|..|head| + |v|] == v && t[|head|..|head| + |w|] == w;
    CorruptionRejected(r, q, |head|);
  }

  function AfterStatus(r: Record): Bytes {
    PartitionBytes(r.target) + Bytes32(r.expectedLength) + AfterLength(r)
  }

  function AfterLength(r: Record): Bytes {
    Bytes32(r.bytesReceived)
    + r.expectedSha + r.calculatedSha + FirmwareBytes(r.candidate) + TextBytes(r.lastError)
    + Bytes32(r.startedAt) + Bytes32(r.updatedAt)
  }

  lemma SerializeSplits(r: Record)
    ensures Serialize(r) == IdentityBytes(r) + StatusBytes(r) + AfterStatus(r)
    ensures Serialize(r) == IdentityBytes(r) + StatusBytes(r) + PartitionBytes(r.target)
                            + Bytes32(r.expectedLength) + AfterLength(r)
  {
    hide Bytes16; hide Bytes32; hide Bytes64; hide FirmwareBytes; hide PartitionBytes; hide TextBytes;
    hide IdentityBytes;
    hide StatusBytes;
  }

  /** State, flags and the reserved half-word are covered together: no
      combination of changes to them keeps the record acceptable. */
  lemma StatusIsProtected(r: Record, state: bv8, flags: bv8, reserved: bv16)
    requires ValidRecord(r) && (state != r.state || flags != r.flags || reserved != r.reserved)
    ensures !ValidRecord(r.(state := state, flags := flags, reserved := reserved))
  {
    hide Crc; hide Checksum; hide Not; hide Serialize; hide Bytes16; hide Bytes32; hide Bytes64; hide AfterStatus;
    hide ValidText; hide ValidPartition; hide ValidFirmware; hide ValidContents;
    var q := r.(state := state, flags := flags, reserved := reserved);
    ReservedIsZero(r);
    if ValidContents(q) { ReservedIsZero(q); }
    if reserved == r.reserved {
      SerializeSplits(r);
      SerializeSplits(q);
      SameAfterStatus(r, state, flags, reserved);
      assert StatusBytes(r)[0] == r.state && StatusBytes(r)[1] == r.flags;
      assert StatusBytes(q)[0] == state && StatusBytes(q)[1] == flags;
      assert StatusBytes(r) != StatusBytes(q);
      assert Serialize(q) == IdentityBytes(r) + StatusBytes(q) + AfterStatus(r);
      SplicedIsRejected(r, q, IdentityBytes(r), StatusBytes(r), StatusBytes(q), AfterStatus(r));
    }
  }

  lemma ReservedIsZero(r: Record)
    requires ValidContents(r)
    ensures r.reserved == 0
  {
    hide ValidText; hide ValidPartition; hide ValidFirmware;
  }

  lemma SameAfterStatus(r: Record, state: bv8, flags: bv8, reserved: bv16)
    ensures AfterStatus(r.(state := state, flags := flags, reserved := reserved)) == AfterStatus(r)
    ensures IdentityBytes(r.(state := state, flags := flags, reserved := reserved)) == IdentityBytes(r)
  {
    hide Bytes16; hide Bytes32; hide Bytes64; hide TextBytes; hide FirmwareBytes; hide PartitionBytes;
  }

  lemma SameAroundLength(r: Record, expectedLength: bv32)
    ensures AfterLength(r.(expectedLength := expectedLength)) == AfterLength(r)
    ensures IdentityBytes(r.(expectedLength := expectedLength)) == IdentityBytes(r)
    ensures StatusBytes(r.(expectedLength := expectedLength)) == StatusBytes(r)
  {
    hide Bytes16; hide Bytes32; hide Bytes64; hide TextBytes; hide FirmwareBytes; hide PartitionBytes;
  }

  /** Nor can the declared length of the image change unnoticed. */
  lemma LengthIsProtected(r: Record, expectedLength: bv32)
    requires ValidRecord(r) && expectedLength != r.expectedLength
    ensures !ValidRecord(r.(expectedLength := expectedLength))
  {
    hide Crc; hide Checksum; hide Not; hide Serialize; hide Bytes32; hide AfterLength; hide ValidRecord;
    hide IdentityBytes; hide StatusBytes; hide PartitionBytes;
    var q := r.(expectedLength := expectedLength);
    SerializeSplits(r);
    SerializeSplits(q);
    SameAroundLength(r, expectedLength);
    LittleEndianInjective(r.expectedLength, expectedLength);
    SplicedIsRejected(r, q, IdentityBytes(r) + StatusBytes(r) + PartitionBytes(r.target),
                      Bytes32(r.expectedLength), Bytes32(expectedLength), AfterLength(r));
  }

  lemma LowestAndRest(x: bv64, y: bv64)
    requires Lowest(x) == Lowest(y) && Shifted(x) == Shifted(y)
    ensures x == y
  {
  }

  lemma FourShifts(a: bv32)
    ensures Shifted(Shifted(Shifted(Shifted(Widen(a))))) == 0
  {
  }

  lemma {:induction false} PrefixesAgree(x: bv64, y: bv64, size: nat)
    requires size > 0 && LittleEndian(x, size) == LittleEndian(y, size)
    ensures Lowest(x) == Lowest(y) && LittleEndian(Shifted(x), size - 1) == LittleEndian(Shifted(y), size - 1)
  {
    hide Lowest; hide Shifted;
    assert LittleEndian(x, size)[0] == Lowest(x) && LittleEndian(y, size)[0] == Lowest(y);
    assert LittleEndian(x, size)[1..] == LittleEndian(Shifted(x), size - 1);
    assert LittleEndian(y, size)[1..] == LittleEndian(Shifted(y), size - 1);
  }

  lemma WidenInjective(a: bv32, b: bv32)
    ensures Widen(a) == Widen(b) ==> a == b
  {
  }

  lemma LittleEndianInjective(a: bv32, b: bv32)
    ensures Bytes32(a) == Bytes32(b) ==> a == b
  {
    hide Lowest; hide Shifted; hide LittleEndian; hide Widen;
    FourShifts(a);
    FourShifts(b);
    ShiftedByFour(Widen(a));
    ShiftedByFour(Widen(b));
    if Bytes32(a) == Bytes32(b) { SameBytes(Widen(a), Widen(b), 4); }
    WidenInjective(a, b);
  }

  function ShiftedBy(x: bv64, n: nat): bv64 {
    if n == 0 then x else ShiftedBy(Shifted(x), n - 1)
  }

  lemma ShiftedByFour(x: bv64)
    ensures ShiftedBy(x, 4) == Shifted(Shifted(Shifted(Shifted(x))))
  {
    hide Shifted;
    assert ShiftedBy(x, 4) == ShiftedBy(Shifted(x), 3);
    assert ShiftedBy(Shifted(x), 3) == ShiftedBy(Shifted(Shifted(x)), 2);
    assert ShiftedBy(Shifted(Shifted(x)), 2) == ShiftedBy(Shifted(Shifted(Shifted(x))), 1);
    assert ShiftedBy(Shifted(Shifted(Shifted(x))), 1) == ShiftedBy(Shifted(Shifted(Shifted(Shifted(x)))), 0);
  }

  /** The bytes of a value and what lies above them determine it. */
  lemma {:induction false} SameBytes(x: bv64, y: bv64, size: nat)
    requires ShiftedBy(x, size) == ShiftedBy(y, size) && LittleEndian(x, size) == LittleEndian(y, size)
    ensures x == y
    decreases size
  {
    hide Lowest; hide Shifted;
    if size > 0 {
      PrefixesAgree(x, y, size);
      SameBytes(Shifted(x), Shifted(y), size - 1);
      LowestAndRest(x, y);
    }
  }

  // ---------------------------------------------------------------- the accumulating methods

  method FeedByte(crc: bv32, b: bv8) returns (r: bv32)
    ensures r == CrcByte(crc, b)
  {
    hide BitStep; hide Xor; hide Wide;
    r := Xor(crc, Wide(b));
    ghost var start := r;
    for bit := 0 to 8
      invariant r == Iterated(start, bit)
    {
      r := BitStep(r);
    }
    EightIterations(start);
  }

  function Iterated(c: bv32, n: nat): bv32 {
    if n == 0 then c else BitStep(Iterated(c, n - 1))
  }

  lemma EightIterations(c: bv32)
    ensures Iterated(c, 8) == Eight(c)
  {
    hide BitStep;
    assert Iterated(c, 1) == BitStep(c);
    assert Iterated(c, 2) == Two(c);
    assert Iterated(c, 4) == BitStep(Iterated(c, 3)) && Iterated(c, 3) == BitStep(Two(c));
    assert Iterated(c, 6) == BitStep(Iterated(c, 5)) && Iterated(c, 5) == BitStep(Four(c));
    assert Iterated(c, 8) == BitStep(Iterated(c, 7)) && Iterated(c, 7) == BitStep(Two(Four(c)));
  }

  method FeedUnsigned(crc: bv32, value: bv64, size: nat) returns (r: bv32)
    ensures r == Crc(crc, LittleEndian(value, size))
  {
    hide CrcByte; hide Lowest; hide Shifted;
    r := crc;
    var rest := value;
    ghost var done: Bytes := [];
    for index := 0 to size
      invariant r == Crc(crc, done)
      invariant LittleEndian(value, size) == done + LittleEndian(rest, size - index)
    {
      ghost var b := Lowest(rest);
      assert (done + [b])[..|done|] == done;
      assert done + LittleEndian(rest, size - index) == (done + [b]) + LittleEndian(Shifted(rest), size - index - 1);
      r := FeedByte(r, Lowest(rest));
      rest := Shifted(rest);
      done := done + [b];
    }
    assert done + LittleEndian(rest, 0) == done;
  }

  method Feed16(crc: bv32, a: bv16) returns (r: bv32)
    ensures r == Crc(crc, Bytes16(a))
  {
    hide Crc; hide LittleEndian;
    r := FeedUnsigned(crc, Widen16(a), 2);
  }

  method Feed32(crc: bv32, a: bv32) returns (r: bv32)
    ensures r == Crc(crc, Bytes32(a))
  {
    hide Crc; hide LittleEndian;
    r := FeedUnsigned(crc, Widen(a), 4);
  }

  method FeedBytes(crc: bv32, bytes: Bytes) returns (r: bv32)
    ensures r == Crc(crc, bytes)
  {
    hide CrcByte;
    r := crc;
    for index := 0 to |bytes|
      invariant r == Crc(crc, bytes[..index])
    {
      assert bytes[..index + 1][..index] == bytes[..index];
      r := FeedByte(r, bytes[index]);
    }
    assert bytes[..|bytes|] == bytes;
  }

  method FeedText(crc: bv32, text: Text) returns (r: bv32)
    ensures r == Crc(crc, TextBytes(text))
  {
    hide CrcByte;
    CrcAppend(crc, [text.length], text.characters);
    assert [text.length][..0] == [];
    r := FeedByte(crc, text.length);
    r := FeedBytes(r, text.characters);
  }

  method FeedPartition(crc: bv32, p: Partition) returns (r: bv32)
    ensures r == Crc(crc, PartitionBytes(p))
  {
    hide Crc; hide Bytes32; hide TextBytes;
    r := FeedText(crc, p.caption);
    ghost var fed := TextBytes(p.caption);
    CrcAppend(crc, fed, Bytes32(p.address));
    r := Feed32(r, p.address);
    fed := fed + Bytes32(p.address);
    CrcAppend(crc, fed, Bytes32(p.size));
    r := Feed32(r, p.size);
    fed := fed + Bytes32(p.size);
    CrcAppend(crc, fed, [p.subtype]);
    r := FeedBytes(r, [p.subtype]);
  }

  method FeedFirmware(crc: bv32, f: Firmware) returns (r: bv32)
    ensures r == Crc(crc, FirmwareBytes(f))
  {
    hide Crc; hide TextBytes;
    r := FeedText(crc, f.project);
    ghost var fed := TextBytes(f.project);
    CrcAppend(crc, fed, TextBytes(f.version));
    r := FeedText(r, f.version);
    fed := fed + TextBytes(f.version);
    CrcAppend(crc, fed, TextBytes(f.gitSha));
    r := FeedText(r, f.gitSha);
    fed := fed + TextBytes(f.gitSha);
    CrcAppend(crc, fed, TextBytes(f.buildDate));
    r := FeedText(r, f.buildDate);
    fed := fed + TextBytes(f.buildDate);
    CrcAppend(crc, fed, TextBytes(f.board));
    r := FeedText(r, f.board);
    fed := fed + TextBytes(f.board);
    CrcAppend(crc, fed, TextBytes(f.idf));
    r := FeedText(r, f.idf);
  }

  method UpdateRecordChecksum(r: Record) returns (c: bv32)
    ensures c == Checksum(r)
  {
    hide Crc; hide Not; hide Bytes16; hide Bytes32; hide Bytes64; hide TextBytes; hide FirmwareBytes;
    hide PartitionBytes;
    var crc := FeedIdentity(0xFFFF_FFFF, r);
    crc := FeedBytes(crc, [r.state]);
    ghost var fed := IdentityBytes(r);
    CrcAppend(0xFFFF_FFFF, fed, [r.state]);
    fed := fed + [r.state];
    crc := FeedBytes(crc, [r.flags]);
    CrcAppend(0xFFFF_FFFF, fed, [r.flags]);
    fed := fed + [r.flags];
    crc := Feed16(crc, r.reserved);
    CrcAppend(0xFFFF_FFFF, fed, Bytes16(r.reserved));
    fed := fed + Bytes16(r.reserved);
    assert fed == IdentityBytes(r) + StatusBytes(r);
    crc := FeedRest(crc, r, fed);
    c := Not(crc);
  }

  method FeedIdentity(crc: bv32, r: Record) returns (d: bv32)
    ensures d == Crc(crc, IdentityBytes(r))
  {
    hide Crc; hide LittleEndian; hide Bytes16; hide Bytes32;
    d := Feed32(crc, r.magic);
    ghost var fed := Bytes32(r.magic);
    CrcAppend(crc, fed, Bytes16(r.schema));
    d := Feed16(d, r.schema);
    fed := fed + Bytes16(r.schema);
    CrcAppend(crc, fed, Bytes16(r.recordSize));
    d := Feed16(d, r.recordSize);
    fed := fed + Bytes16(r.recordSize);
    CrcAppend(crc, fed, Bytes64(r.generation));
    d := FeedUnsigned(d, r.generation, 8);
    fed := fed + Bytes64(r.generation);
    CrcAppend(crc, fed, Bytes64(r.operationId));
    d := FeedUnsigned(d, r.operationId, 8);
  }

  method FeedRest(crc: bv32, r: Record, ghost before: Bytes) returns (d: bv32)
    requires crc == Crc(0xFFFF_FFFF, before)
    requires before == IdentityBytes(r) + StatusBytes(r)
    ensures d == Crc(0xFFFF_FFFF, Serialize(r))
  {
    hide Crc; hide LittleEndian; hide Bytes16; hide Bytes32; hide Bytes64; hide TextBytes; hide FirmwareBytes;
    hide PartitionBytes; hide IdentityBytes; hide StatusBytes;
    ghost var fed := before;
    d := FeedPartition(crc, r.target);
    CrcAppend(0xFFFF_FFFF, fed, PartitionBytes(r.target));
    fed := fed + PartitionBytes(r.target);
    d := Feed32(d, r.expectedLength);
    CrcAppend(0xFFFF_FFFF, fed, Bytes32(r.expectedLength));
    fed := fed + Bytes32(r.expectedLength);
    d := Feed32(d, r.bytesReceived);
    CrcAppend(0xFFFF_FFFF, fed, Bytes32(r.bytesReceived));
    fed := fed + Bytes32(r.bytesReceived);
    d := FeedBytes(d, r.expectedSha);
    CrcAppend(0xFFFF_FFFF, fed, r.expectedSha);
    fed := fed + r.expectedSha;
    d := FeedBytes(d, r.calculatedSha);
    CrcAppend(0xFFFF_FFFF, fed, r.calculatedSha);
    fed := fed + r.calculatedSha;
    d := FeedFirmware(d, r.candidate);
    CrcAppend(0xFFFF_FFFF, fed, FirmwareBytes(r.candidate));
    fed := fed + FirmwareBytes(r.candidate);
    d := FeedText(d, r.lastError);
    CrcAppend(0xFFFF_FFFF, fed, TextBytes(r.lastError));
    fed := fed + TextBytes(r.lastError);
    d := Feed32(d, r.startedAt);
    CrcAppend(0xFFFF_FFFF, fed, Bytes32(r.startedAt));
    fed := fed + Bytes32(r.startedAt);
    d := Feed32(d, r.updatedAt);
    CrcAppend(0xFFFF_FFFF, fed, Bytes32(r.updatedAt));
  }
}
