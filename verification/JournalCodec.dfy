/**
 The recovery journal as bytes: the current record of 836 bytes, and the two
 older ones of 813 and 817 bytes that are still read.
*/
module JournalCodec {
  import opened Prelude

  type Octet = n: nat | n < 256
  type Octets = seq<Octet>
  type Word = n: nat | n < TWO_32
  type Signed = n: int | -0x8000_0000 <= n < 0x8000_0000

  const V1_SIZE: nat := 813
  const V2_SIZE: nat := 817
  const V3_SIZE: nat := 836
  const V1_MAGIC: Octets := [0x4F, 0x50, 0x54, 0x57, 0x52, 0x30, 0x30, 0x31]
  const V2_MAGIC: Octets := [0x4F, 0x50, 0x54, 0x57, 0x52, 0x30, 0x30, 0x32]
  const V3_MAGIC: Octets := [0x4F, 0x50, 0x54, 0x57, 0x52, 0x30, 0x30, 0x33]

  datatype Operation = Write | Clear

  /** The part of a writer plan that the journal keeps, with the owning spool
      and the backend it belongs to. `attempted` is always set by a decode and
      the geometry is always 80 blocks of 4 bytes. */
  datatype Plan = Plan(
    uid: Octets, system: Octets, systemLength: nat, security: Octets, original: Octets, target: Octets,
    spool: Signed, backend: Word, previousSpool: Signed, operation: Operation,
    cleanupPending: bool, ownerBound: bool, instance: Option<Octets>, attempted: bool, verified: bool)
  {
    /** The array sizes of the firmware's plan. */
    predicate Shaped() {
      |uid| == 8 && |system| == 64 && systemLength < 256 && |security| == 80 && |original| == 320 && |target| == 320
      && (instance.Some? ==> |instance.value| == 16)
    }

    /** What a decode insists on. */
    predicate Legal() {
      && systemLength <= 64
      && (if operation.Write? then
            && spool > 0 && previousSpool >= 0 && previousSpool != spool
            && !cleanupPending && !ownerBound && instance.None?
          else
            spool >= 0 && previousSpool == 0 && (ownerBound ==> cleanupPending)
            && (forall k :: 0 <= k < 312 && k < |target| ==> target[k] == 0)
            && (|target| >= 312 && |original| >= 312 ==> target[312..] == original[312..]))
    }

    /** What a decode of this plan's record yields. */
    function Restored(): Plan { this.(attempted := true, verified := cleanupPending) }
  }

  // ---------------------------------------------------------------- words

  function Unsigned(n: Signed): Word { if n < 0 then n + TWO_32 else n }

  function AsSigned(w: Word): Signed { if w >= 0x8000_0000 then w - TWO_32 else w }

  function Int(o: Octet): int { o }

  function Put(w: Word): (s: Octets)
    ensures |s| == 4
  {
    var n: int := w;
    var n1: int := n / 0x100;
    var n2: int := n / 0x1_0000;
    [n % 256, n1 % 256, n2 % 256, n / 0x100_0000]
  }

  function Get(s: Octets): Word
    requires |s| == 4
  {
    Int(s[0]) + Int(s[1]) * 0x100 + Int(s[2]) * 0x1_0000 + Int(s[3]) * 0x100_0000
  }

  lemma GetPut(w: Word)
    ensures Get(Put(w)) == w
  {
    var a := w / 0x100;
    var b := w / 0x1_0000;
    assert w == a * 0x100 + w % 256;
    assert a == b * 0x100 + a % 256 && a / 0x100 == b;
    assert b == (w / 0x100_0000) * 0x100 + b % 256;
  }

  lemma PutGet(s: Octets)
    requires |s| == 4
    ensures Put(Get(s)) == s
  {
    var w: int := Get(s);
    var b1: int, b2: int, b3: int := s[1], s[2], s[3];
    assert w / 0x100 == b1 + b2 * 0x100 + b3 * 0x1_0000;
    assert w / 0x1_0000 == b2 + b3 * 0x100;
    assert w / 0x100_0000 == b3;
  }

  lemma SignsRestore(n: Signed, w: Word)
    ensures AsSigned(Unsigned(n)) == n && Unsigned(AsSigned(w)) == w
  {
  }

  // ---------------------------------------------------------------- encoding

  const ZEROS16: Octets := [0, 0, 0, 0, 0, 0, 0, 0, 0, 0, 0, 0, 0, 0, 0, 0]

  function Flag(b: bool): Octet { if b then 1 else 0 }

  /** Bytes 8 to 800: the tag and its two images. */
  function TagBytes(p: Plan): (s: Octets)
    requires p.Shaped()
    ensures |s| == 793
  {
    p.uid + p.system + [p.systemLength] + p.security + p.original + p.target
  }

  /** Bytes 801 to 812: owner, backend and previous owner. */
  function OwnerBytes(p: Plan): (s: Octets)
    ensures |s| == 12
  {
    Put(Unsigned(p.spool)) + Put(p.backend) + Put(Unsigned(p.previousSpool))
  }

  /** Bytes 813 to 831: operation, checkpoints and the cleared instance. */
  function StateBytes(p: Plan): (s: Octets)
    requires p.Shaped()
    ensures |s| == 19
  {
    [Flag(p.operation.Clear?), Flag(p.cleanupPending) + 2 * Flag(p.ownerBound), Flag(p.instance.Some?)]
    + (if p.instance.Some? then p.instance.value else ZEROS16)
  }

  function Body(p: Plan): (s: Octets)
    requires p.Shaped()
    ensures |s| == 832
  {
    V3_MAGIC + TagBytes(p) + OwnerBytes(p) + StateBytes(p)
  }

  function Encode(p: Plan, sum: Octets -> Word): (s: Octets)
    requires p.Shaped()
    ensures |s| == V3_SIZE
  {
    Body(p) + Put(sum(Body(p)))
  }

  // ---------------------------------------------------------------- decoding

  /** Magic, length byte and checksum, and the ranges of the three state bytes. */
  predicate Framed(r: Octets, sum: Octets -> Word) {
    && (|r| == V1_SIZE || |r| == V2_SIZE || |r| == V3_SIZE)
    && r[..8] == (if |r| == V1_SIZE then V1_MAGIC else if |r| == V2_SIZE then V2_MAGIC else V3_MAGIC)
    && r[80] <= 64 && Get(r[|r| - 4..]) == sum(r[..|r| - 4])
    && (|r| == V3_SIZE ==> r[813] <= 1 && r[814] <= 3 && r[815] <= 1)
  }

  function Fields(r: Octets): (p: Plan)
    requires |r| == V1_SIZE || |r| == V2_SIZE || |r| == V3_SIZE
    ensures p.Shaped() && p.Restored() == p
  {
    var v3 := |r| == V3_SIZE;
    Plan(r[8..16], r[16..80], r[80], r[81..161], r[161..481], r[481..801],
         AsSigned(Get(r[801..805])), Get(r[805..809]),
         if |r| == V1_SIZE then 0 else AsSigned(Get(r[809..813])),
         if v3 && r[813] == 1 then Clear else Write,
         v3 && r[814] % 2 == 1, v3 && r[814] / 2 % 2 == 1,
         if v3 && r[815] != 0 then Some(r[816..832]) else None,
         true, v3 && r[814] % 2 == 1)
  }

  function Decode(r: Octets, sum: Octets -> Word): Option<Plan> {
    if Framed(r, sum) && Fields(r).Legal() then Some(Fields(r)) else None
  }

  // ---------------------------------------------------------------- layout

  lemma TagLayout(p: Plan)
    requires p.Shaped()
    ensures var s := TagBytes(p);
            s[..8] == p.uid && s[8..72] == p.system && s[72] == p.systemLength && s[73..153] == p.security
            && s[153..473] == p.original && s[473..793] == p.target
  {
  }

  lemma OwnerLayout(p: Plan)
    ensures var s := OwnerBytes(p);
            s[..4] == Put(Unsigned(p.spool)) && s[4..8] == Put(p.backend) && s[8..] == Put(Unsigned(p.previousSpool))
  {
    hide Put; hide Unsigned;
  }

  lemma StateLayout(p: Plan)
    requires p.Shaped()
    ensures var s := StateBytes(p);
            s[0] == Flag(p.operation.Clear?) && s[1] == Flag(p.cleanupPending) + 2 * Flag(p.ownerBound)
            && s[2] == Flag(p.instance.Some?)
            && (if p.instance.Some? then s[3..] == p.instance.value else s[3..] == ZEROS16)
  {
  }

  /** Where the four parts of a record lie. */
  lemma BodyLayout(p: Plan, tail: Octets)
    requires p.Shaped() && |tail| == 4
    ensures var r := Body(p) + tail;
            && r[..8] == V3_MAGIC && r[8..801] == TagBytes(p) && r[801..813] == OwnerBytes(p)
            && r[813..832] == StateBytes(p) && r[832..] == tail && r[..832] == Body(p)
  {
    hide TagBytes; hide OwnerBytes; hide StateBytes;
  }

  lemma Slices(r: Octets)
    requires |r| == V3_SIZE
    ensures var s := r[8..801];
            s[..8] == r[8..16] && s[8..72] == r[16..80] && s[72] == r[80] && s[73..153] == r[81..161]
            && s[153..473] == r[161..481] && s[473..793] == r[481..801]
    ensures var s := r[801..813]; s[..4] == r[801..805] && s[4..8] == r[805..809] && s[8..] == r[809..813]
    ensures var s := r[813..832]; s[0] == r[813] && s[1] == r[814] && s[2] == r[815] && s[3..] == r[816..832]
  {
    var s := r[813..832];
    assert forall k :: 0 <= k < 19 ==> s[k] == r[813 + k];
    var u := r[801..813];
    assert forall k :: 0 <= k < 12 ==> u[k] == r[801 + k];
    var v := r[8..801];
    assert forall k :: 0 <= k < 793 ==> v[k] == r[8 + k];
  }

  lemma FieldsOfEncode(p: Plan, tail: Octets)
    requires p.Shaped() && |tail| == 4
    ensures Fields(Body(p) + tail) == p.Restored()
  {
    hide TagBytes; hide OwnerBytes; hide StateBytes; hide Body; hide Put; hide Get; hide Unsigned; hide AsSigned;
    var r := Body(p) + tail;
    BodyLayout(p, tail);
    Slices(r);
    TagLayout(p);
    OwnerLayout(p);
    StateLayout(p);
    GetPut(Unsigned(p.spool));
    GetPut(p.backend);
    GetPut(Unsigned(p.previousSpool));
    SignsRestore(p.spool, 0);
    SignsRestore(p.previousSpool, 0);
  }

  // ---------------------------------------------------------------- round trips

  /** Decoding inverts encoding on every plan that is legal, and refuses the
      record of every plan that is not. */
  lemma DecodeEncode(p: Plan, sum: Octets -> Word)
    requires p.Shaped()
    ensures Decode(Encode(p, sum), sum) == if p.Legal() then Some(p.Restored()) else None
  {
    hide TagBytes; hide OwnerBytes; hide StateBytes; hide Body; hide Put; hide Get; hide Fields;
    var tail := Put(sum(Body(p)));
    var r := Body(p) + tail;
    FieldsOfEncode(p, tail);
    BodyLayout(p, tail);
    GetPut(sum(Body(p)));
    Slices(r);
    TagLayout(p);
    StateLayout(p);
  }

  // ---------------------------------------------------------------- the older layouts

  /** What the older records can say of a plan: that it is a write. */
  function AsWrite(p: Plan): Plan {
    p.(operation := Write, cleanupPending := false, ownerBound := false, instance := None)
  }

  /** Version 1 has no previous owner. */
  function BodyV1(p: Plan): (s: Octets)
    requires p.Shaped()
    ensures |s| == 809
  {
    V1_MAGIC + TagBytes(p) + (Put(Unsigned(p.spool)) + Put(p.backend))
  }

  /** Version 2 ends with the owners. */
  function BodyV2(p: Plan): (s: Octets)
    requires p.Shaped()
    ensures |s| == 813
  {
    V2_MAGIC + TagBytes(p) + OwnerBytes(p)
  }

  lemma OldTagFields(p: Plan, magic: Octets, rest: Octets)
    requires p.Shaped() && |magic| == 8 && (|rest| == 12 || |rest| == 16)
    ensures var r := magic + TagBytes(p) + rest;
            && r[..8] == magic && r[8..16] == p.uid && r[16..80] == p.system && r[80] == p.systemLength
            && r[81..161] == p.security && r[161..481] == p.original && r[481..801] == p.target && r[801..] == rest
  {
    TagLayout(p);
    hide TagBytes;
    var r, t := magic + TagBytes(p) + rest, TagBytes(p);
    assert forall k :: 0 <= k < 793 ==> r[8 + k] == t[k];
  }

  /** A record laid out as version 1 restores the plan's tag, both images, spool
      and backend, as a write without previous owner, if that is legal. */
  lemma DecodesVersion1(p: Plan, sum: Octets -> Word)
    requires p.Shaped()
    ensures var q := AsWrite(p).(previousSpool := 0);
            Decode(BodyV1(p) + Put(sum(BodyV1(p))), sum) == if q.Legal() then Some(q.Restored()) else None
  {
    var body := BodyV1(p);
    var tail, owner := Put(sum(body)), Put(Unsigned(p.spool)) + Put(p.backend);
    var r := body + tail;
    hide TagBytes; hide Put; hide Get; hide Unsigned; hide AsSigned;
    assert r == V1_MAGIC + TagBytes(p) + (owner + tail);
    OldTagFields(p, V1_MAGIC, owner + tail);
    assert r[801..805] == r[801..][..4] && r[805..809] == r[801..][4..8] && r[809..] == r[801..][8..];
    assert r[..809] == body;
    GetPut(Unsigned(p.spool)); GetPut(p.backend); GetPut(sum(body)); SignsRestore(p.spool, 0);
  }

  /** A record laid out as version 2 restores the previous owner as well. */
  lemma DecodesVersion2(p: Plan, sum: Octets -> Word)
    requires p.Shaped()
    ensures var q := AsWrite(p);
            Decode(BodyV2(p) + Put(sum(BodyV2(p))), sum) == if q.Legal() then Some(q.Restored()) else None
  {
    var body := BodyV2(p);
    var tail := Put(sum(body));
    var r := body + tail;
    hide TagBytes; hide Put; hide Get; hide Unsigned; hide AsSigned;
    assert r == V2_MAGIC + TagBytes(p) + (OwnerBytes(p) + tail);
    OldTagFields(p, V2_MAGIC, OwnerBytes(p) + tail);
    OwnerLayout(p);
    hide OwnerBytes;
    var u := r[801..];
    assert u[..12] == OwnerBytes(p);
    assert r[801..805] == u[..12][..4] && r[805..809] == u[..12][4..8] && r[809..813] == u[..12][8..];
    assert r[813..] == u[12..];
    assert r[..813] == body;
    GetPut(Unsigned(p.spool)); GetPut(p.backend); GetPut(Unsigned(p.previousSpool)); GetPut(sum(body));
    SignsRestore(p.spool, 0); SignsRestore(p.previousSpool, 0);
  }

  /** Nothing else is accepted: an accepted record of an older version is byte
      for byte what that version wrote for the plan it restores. */
  lemma OldRecordsReproduce(r: Octets, sum: Octets -> Word)
    requires Decode(r, sum).Some? && |r| != V3_SIZE
    ensures var p := Decode(r, sum).value;
            r == if |r| == V1_SIZE then BodyV1(p) + Put(sum(BodyV1(p))) else BodyV2(p) + Put(sum(BodyV2(p)))
  {
    var p := Fields(r);
    SameTagBytes(p, r);
    hide TagBytes; hide Put; hide Get; hide Unsigned; hide AsSigned;
    PutGet(r[801..805]); PutGet(r[805..809]); PutGet(r[|r| - 4..]);
    SignsRestore(0, Get(r[801..805]));
    if |r| == V1_SIZE {
      assert r[..809] == r[..8] + r[8..801] + (r[801..805] + r[805..809]);
      assert r == r[..809] + r[809..];
    } else {
      PutGet(r[809..813]);
      SignsRestore(0, Get(r[809..813]));
      assert r[..813] == r[..8] + r[8..801] + (r[801..805] + r[805..809] + r[809..813]);
      assert r == r[..813] + r[813..];
    }
  }

  /** Bytes are permission to clear a tag only in the current version and only
      toward a blank image that keeps the tag's last eight bytes; permission to
      write only for a spool that is not its own previous owner. No accepted plan
      counts as verified but one whose tag only awaits its cleanup. */
  lemma WhatARecordPermits(r: Octets, sum: Octets -> Word)
    requires Decode(r, sum).Some?
    ensures var p := Decode(r, sum).value;
            && p.Shaped() && p.systemLength <= 64 && p.attempted && p.verified == p.cleanupPending
            && (p.operation.Clear? ==>
                  && |r| == 836 && p.spool >= 0 && p.previousSpool == 0 && (p.ownerBound ==> p.cleanupPending)
                  && (forall k :: 0 <= k < 320 ==> p.target[k] == if k < 312 then 0 else p.original[k]))
            && (p.operation.Write? ==>
                  p.spool > 0 && 0 <= p.previousSpool != p.spool && !p.verified && p.instance.None?)
  {
    var p := Fields(r);
    assert p.Shaped();
    hide Fields; hide Framed; hide Get;
    if p.operation.Clear? {
      forall k | 312 <= k < 320 ensures p.target[k] == p.original[k] {
        assert p.target[k] == p.target[312..][k - 312];
      }
    }
  }

  /** A record of any version that decodes gives the same plan after it is
      rewritten in the current version; the older two come back as writes. */
  lemma MigrationKeepsThePlan(r: Octets, sum: Octets -> Word)
    requires Decode(r, sum).Some?
    ensures var p := Decode(r, sum).value;
            && p.Shaped() && Decode(Encode(p, sum), sum) == Some(p)
            && (|r| != V3_SIZE ==> p.operation.Write? && !p.cleanupPending && p.instance.None?)
            && (|r| == V1_SIZE ==> p.previousSpool == 0)
            && p.uid == r[8..16] && p.original == r[161..481] && p.target == r[481..801]
  {
    DecodeEncode(Fields(r), sum);
    hide Encode; hide Framed;
  }

  /** Rewriting a current record gives the same bytes, unless bytes were stored
      for an instance that the record says it does not have. */
  lemma EncodeDecode(r: Octets, sum: Octets -> Word)
    requires Decode(r, sum).Some? && |r| == V3_SIZE
    ensures Encode(Decode(r, sum).value, sum) == r <==> (r[815] == 0 ==> r[816..832] == ZEROS16)
  {
    hide TagBytes; hide OwnerBytes; hide StateBytes; hide Put; hide Get; hide Unsigned; hide AsSigned; hide Body;
    var p := Fields(r);
    var e := Encode(p, sum);
    TagLayout(p); OwnerLayout(p); StateLayout(p);
    BodyLayout(p, Put(sum(Body(p))));
    Slices(r);
    Slices(e);
    PutGet(r[801..805]); PutGet(r[805..809]); PutGet(r[809..813]); PutGet(r[832..]);
    SignsRestore(0, Get(r[801..805])); SignsRestore(0, Get(r[809..813]));
    assert e[8..801] == r[8..801] by { SameTagBytes(p, r); }
    assert e[801..813] == r[801..813] by {
      assert r[801..813] == r[801..805] + r[805..809] + r[809..813];
      assert e[801..813] == e[801..805] + e[805..809] + e[809..813];
    }
    assert e[813] == r[813] && e[814] == r[814] && e[815] == r[815];
    assert e[816..832] == if r[815] != 0 then r[816..832] else ZEROS16 by {
      assert e[813..832] == StateBytes(p);
    }
    if r[815] == 0 ==> r[816..832] == ZEROS16 {
      assert e[816..832] == r[816..832];
      assert r[813..832] == [r[813], r[814], r[815]] + r[816..832];
      assert e[813..832] == [e[813], e[814], e[815]] + e[816..832];
      assert r[..832] == r[..8] + r[8..801] + r[801..813] + r[813..832];
      assert e[..832] == e[..8] + e[8..801] + e[801..813] + e[813..832];
      assert r == r[..832] + r[832..] && e == e[..832] + e[832..];
    }
  }

  lemma SameTagBytes(p: Plan, r: Octets)
    requires (|r| == V1_SIZE || |r| == V2_SIZE || |r| == V3_SIZE) && p == Fields(r)
    ensures TagBytes(p) == r[8..801]
  {
    hide Get; hide AsSigned;
    assert r[8..801] == r[8..16] + r[16..80] + [r[80]] + r[81..161] + r[161..481] + r[481..801];
  }

  // ---------------------------------------------------------------- in the record buffer

  /** `r` with `s` written at `offset`. */
  function Splice(r: Octets, offset: nat, s: Octets): (q: Octets)
    requires offset + |s| <= |r|
    ensures |q| == |r|
  {
    r[..offset] + s + r[offset + |s|..]
  }

  method CopyTo(r: array<Octet>, offset: nat, s: Octets)
    requires offset + |s| <= r.Length
    modifies r
    ensures r[..] == Splice(old(r[..]), offset, s)
  {
    for i := 0 to |s|
      invariant forall k :: 0 <= k < i ==> r[offset + k] == s[k]
      invariant forall k :: 0 <= k < r.Length && !(offset <= k < offset + i) ==> r[k] == old(r[k])
    {
      r[offset + i] := s[i];
    }
  }

  /** Byte `i` is the value shifted right by `8 * i`. */
  method JournalPut(r: array<Octet>, offset: nat, w: Word)
    requires offset + 4 <= r.Length
    modifies r
    ensures r[..] == Splice(old(r[..]), offset, Put(w))
  {
    var rest: int := w;
    for i := 0 to 4
      invariant rest == if i == 0 then w else if i == 1 then w / 0x100 else if i == 2 then w / 0x1_0000
                        else if i == 3 then w / 0x100_0000 else 0
      invariant forall k :: 0 <= k < i ==> r[offset + k] == Put(w)[k]
      invariant forall k :: 0 <= k < r.Length && !(offset <= k < offset + i) ==> r[k] == old(r[k])
    {
      r[offset + i] := rest % 256;
      rest := rest / 256;
    }
  }

  method JournalGet(s: Octets, offset: nat) returns (w: Word)
    requires offset + 4 <= |s|
    ensures w == Get(s[offset..offset + 4])
  {
    var n: int := 0;
    var unit: int := 1;
    for i := 0 to 4
      invariant unit == if i == 0 then 1 else if i == 1 then 0x100 else if i == 2 then 0x1_0000
                        else if i == 3 then 0x100_0000 else TWO_32
      invariant n == (if i > 0 then Int(s[offset]) else 0) + (if i > 1 then Int(s[offset + 1]) * 0x100 else 0)
                   + (if i > 2 then Int(s[offset + 2]) * 0x1_0000 else 0)
                   + (if i > 3 then Int(s[offset + 3]) * 0x100_0000 else 0)
    {
      n := n + Int(s[offset + i]) * unit;
      unit := unit * 256;
    }
    w := n;
  }

  lemma SplicedIsBody(zeros: Octets, p: Plan)
    requires p.Shaped() && |zeros| == V3_SIZE
    ensures var tagged := Splice(Splice(zeros, 0, V3_MAGIC), 8, TagBytes(p));
            var owned := Splice(Splice(Splice(tagged, 801, Put(Unsigned(p.spool))), 805, Put(p.backend)),
                                809, Put(Unsigned(p.previousSpool)));
            Splice(owned, 813, StateBytes(p))[..832] == Body(p)
  {
    hide Put; hide Unsigned; hide TagBytes; hide StateBytes;
  }

  method EncodeWriterJournal(r: array<Octet>, p: Plan, sum: Octets -> Word)
    requires p.Shaped() && r.Length == V3_SIZE
    modifies r
    ensures r[..] == Encode(p, sum)
  {
    hide Put; hide Unsigned; hide Body;
    forall i | 0 <= i < r.Length { r[i] := 0; }
    ghost var zeros := r[..];
    CopyTo(r, 0, V3_MAGIC);
    assert forall k :: 813 <= k < 832 ==> r[..][k] == 0;
    EncodeTag(r, p);
    assert forall k :: 813 <= k < 832 ==> r[..][k] == 0;
    JournalPut(r, 801, Unsigned(p.spool));
    assert forall k :: 813 <= k < 832 ==> r[..][k] == 0;
    JournalPut(r, 805, p.backend);
    assert forall k :: 813 <= k < 832 ==> r[..][k] == 0;
    JournalPut(r, 809, Unsigned(p.previousSpool));
    assert forall k :: 813 <= k < 832 ==> r[..][k] == 0;
    EncodeState(r, p);
    ghost var filled := r[..];
    SplicedIsBody(zeros, p);
    JournalPut(r, 832, sum(r[..832]));
    assert r[..] == filled[..832] + Put(sum(filled[..832]));
  }

  method EncodeTag(r: array<Octet>, p: Plan)
    requires p.Shaped() && r.Length == V3_SIZE
    modifies r
    ensures r[..] == Splice(old(r[..]), 8, TagBytes(p))
  {
    ghost var before := r[..];
    CopyTo(r, 8, p.uid);
    SpliceTwice(before, 8, p.uid, p.system);
    CopyTo(r, 16, p.system);
    ghost var s := p.uid + p.system;
    SpliceTwice(before, 8, s, [p.systemLength]);
    hide Splice;
    CopyTo(r, 80, [p.systemLength]);
    s := s + [p.systemLength];
    SpliceTwice(before, 8, s, p.security);
    CopyTo(r, 81, p.security);
    s := s + p.security;
    SpliceTwice(before, 8, s, p.original);
    CopyTo(r, 161, p.original);
    s := s + p.original;
    SpliceTwice(before, 8, s, p.target);
    CopyTo(r, 481, p.target);
  }

  lemma SpliceTwice(r: Octets, offset: nat, s: Octets, t: Octets)
    requires offset + |s| + |t| <= |r|
    ensures Splice(Splice(r, offset, s), offset + |s|, t) == Splice(r, offset, s + t)
  {
  }

  method EncodeState(r: array<Octet>, p: Plan)
    requires p.Shaped() && r.Length == V3_SIZE && forall k :: 813 <= k < 832 ==> r[k] == 0
    modifies r
    ensures r[..] == Splice(old(r[..]), 813, StateBytes(p))
  {
    r[813] := Flag(p.operation.Clear?);
    r[814] := Flag(p.cleanupPending) + 2 * Flag(p.ownerBound);
    r[815] := Flag(p.instance.Some?);
    if p.instance.Some? { CopyTo(r, 816, p.instance.value); }
  }

  method DecodeWriterJournal(r: Octets, sum: Octets -> Word) returns (plan: Option<Plan>)
    ensures plan == Decode(r, sum)
  {
    hide Get;
    var n := |r|;
    if n != V1_SIZE && n != V2_SIZE && n != V3_SIZE { return None; }
    if r[..8] != (if n == V1_SIZE then V1_MAGIC else if n == V2_SIZE then V2_MAGIC else V3_MAGIC) || r[80] > 64 {
      return None;
    }
    var stored := JournalGet(r, n - 4);
    assert r[n - 4..n - 4 + 4] == r[n - 4..];
    if stored != sum(r[..n - 4]) { return None; }
    if n == V3_SIZE && (r[813] > 1 || r[814] > 3 || r[815] > 1) { return None; }
    var spool := JournalGet(r, 801);
    var backend := JournalGet(r, 805);
    var previous: Word := 0;
    if n != V1_SIZE { previous := JournalGet(r, 809); }
    var p := Plan(r[8..16], r[16..80], r[80], r[81..161], r[161..481], r[481..801],
                  AsSigned(spool), backend, AsSigned(previous),
                  if n == V3_SIZE && r[813] == 1 then Clear else Write,
                  n == V3_SIZE && r[814] % 2 == 1, n == V3_SIZE && r[814] / 2 % 2 == 1,
                  if n == V3_SIZE && r[815] != 0 then Some(r[816..832]) else None,
                  true, n == V3_SIZE && r[814] % 2 == 1);
    assert p == Fields(r);
    plan := if p.Legal() then Some(p) else None;
  }
}
