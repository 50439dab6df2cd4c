/**
 The checksum of the update record: the bit-serial CRC of `crc_byte`, its
 equality with the table form of section 8 of RFC 1952, and what it detects.
*/
module Crc32 {
  import opened Prelude

  const POLYNOMIAL: bv32 := 0xEDB8_8320

  // The word operations, named so that proofs can do without their definitions.

  function Xor(a: bv32, b: bv32): bv32 { a ^ b }
  function Half(a: bv32): bv32 { a >> 1 }
  function LowByte(a: bv32): bv32 { a & 0xFF }
  function Above(a: bv32): bv32 { a & 0xFFFF_FF00 }
  function NextByte(a: bv32): bv32 { a >> 8 }
  function Wide(b: bv8): bv32 { b as bv32 }
  function Not(a: bv32): bv32 { !a }
  predicate Odd(a: bv32) { a & 1 != 0 }

  function BitStep(c: bv32): bv32 {
    (c >> 1) ^ (POLYNOMIAL & (0 - (c & 1)))
  }

  function Two(c: bv32): bv32 { BitStep(BitStep(c)) }
  function Four(c: bv32): bv32 { Two(Two(c)) }
  function Eight(c: bv32): bv32 { Four(Four(c)) }

  function CrcByte(c: bv32, b: bv8): bv32 {
    Eight(Xor(c, Wide(b)))
  }

  /** The register after a byte stream. */
  function Crc(c: bv32, s: Bytes): bv32 {
    if s == [] then c else CrcByte(Crc(c, s[..|s| - 1]), s[|s| - 1])
  }

  lemma {:induction false} CrcAppend(c: bv32, s: Bytes, t: Bytes)
    ensures Crc(c, s + t) == Crc(Crc(c, s), t)
  {
    if t == [] {
      assert s + t == s;
    } else {
      var n := |t| - 1;
      assert (s + t)[..|s| + n] == s + t[..n];
      CrcAppend(c, s, t[..n]);
    }
  }

  // ---------------------------------------------------------------- bit facts

  lemma NegatedBit(c: bv32)
    ensures c & 1 != 0 ==> 0 - (c & 1) == 0xFFFF_FFFF
    ensures c & 1 == 0 ==> 0 - (c & 1) == 0
  {
  }

  lemma Units(c: bv32)
    ensures c & 0xFFFF_FFFF == c && c & 0 == 0 && c ^ 0 == c
  {
  }

  lemma XorCommutes(a: bv32, b: bv32)
    ensures a ^ b == b ^ a
  {
  }

  lemma BothOdd(a: bv32, b: bv32)
    requires a & 1 != 0 && b & 1 != 0
    ensures (a ^ b) & 1 == 0
    ensures (a ^ b) >> 1 == (POLYNOMIAL ^ (a >> 1)) ^ (POLYNOMIAL ^ (b >> 1))
  {
  }

  lemma OneOdd(a: bv32, b: bv32)
    requires a & 1 != 0 && b & 1 == 0
    ensures (a ^ b) & 1 != 0
    ensures POLYNOMIAL ^ ((a ^ b) >> 1) == (POLYNOMIAL ^ (a >> 1)) ^ (b >> 1)
  {
  }

  lemma BothEven(a: bv32, b: bv32)
    requires a & 1 == 0 && b & 1 == 0
    ensures (a ^ b) & 1 == 0
    ensures (a ^ b) >> 1 == (a >> 1) ^ (b >> 1)
  {
  }

  lemma HighBit(c: bv32)
    ensures (c >> 1) & 0x8000_0000 == 0
    ensures (POLYNOMIAL ^ (c >> 1)) & 0x8000_0000 != 0
  {
  }

  lemma ShiftBack(c: bv32)
    ensures c & 1 != 0 ==> (((POLYNOMIAL ^ (c >> 1)) ^ POLYNOMIAL) << 1) | 1 == c
    ensures c & 1 == 0 ==> (c >> 1) << 1 == c
  {
  }

  // ---------------------------------------------------------------- one step

  /** The step by cases on the bit shifted out. */
  lemma StepByCases(c: bv32)
    ensures c & 1 != 0 ==> BitStep(c) == POLYNOMIAL ^ (c >> 1)
    ensures c & 1 == 0 ==> BitStep(c) == c >> 1
  {
    NegatedBit(c);
    Units(POLYNOMIAL);
    Units(c >> 1);
    XorCommutes(c >> 1, POLYNOMIAL);
  }

  function Unstep(d: bv32): bv32 {
    if d & 0x8000_0000 != 0 then ((d ^ POLYNOMIAL) << 1) | 1 else d << 1
  }

  /** The bit shifted out can be read off the result, so no two registers
      step to the same one. */
  lemma StepReversible(c: bv32)
    ensures Unstep(BitStep(c)) == c
  {
    hide BitStep;
    StepByCases(c);
    HighBit(c);
    ShiftBack(c);
  }

  lemma StepLinear(a: bv32, b: bv32)
    ensures BitStep(Xor(a, b)) == Xor(BitStep(a), BitStep(b))
  {
    hide BitStep;
    StepByCases(a); StepByCases(b); StepByCases(a ^ b);
    if a & 1 != 0 {
      if b & 1 != 0 { BothOdd(a, b); } else { OneOdd(a, b); }
    } else if b & 1 != 0 {
      OneOdd(b, a);
      XorCommutes(a, b);
      XorCommutes(BitStep(a), BitStep(b));
    } else {
      BothEven(a, b);
    }
  }

  lemma TwoLinear(a: bv32, b: bv32)
    ensures Two(Xor(a, b)) == Xor(Two(a), Two(b))
  {
    hide BitStep; hide Xor;
    StepLinear(a, b);
    StepLinear(BitStep(a), BitStep(b));
  }

  lemma FourLinear(a: bv32, b: bv32)
    ensures Four(Xor(a, b)) == Xor(Four(a), Four(b))
  {
    hide Two; hide Xor;
    TwoLinear(a, b);
    TwoLinear(Two(a), Two(b));
  }

  /** Eight steps are linear over exclusive or ... */
  lemma EightLinear(a: bv32, b: bv32)
    ensures Eight(Xor(a, b)) == Xor(Eight(a), Eight(b))
  {
    hide Four; hide Xor;
    FourLinear(a, b);
    FourLinear(Four(a), Four(b));
  }

  lemma TwoInjective(a: bv32, b: bv32)
    requires Two(a) == Two(b)
    ensures a == b
  {
    hide BitStep; hide Unstep;
    StepReversible(BitStep(a)); StepReversible(BitStep(b));
    StepReversible(a); StepReversible(b);
  }

  lemma FourInjective(a: bv32, b: bv32)
    requires Four(a) == Four(b)
    ensures a == b
  {
    hide Two;
    TwoInjective(Two(a), Two(b));
    TwoInjective(a, b);
  }

  /** ... and one-to-one. */
  lemma EightInjective(a: bv32, b: bv32)
    requires Eight(a) == Eight(b)
    ensures a == b
  {
    hide Four;
    FourInjective(Four(a), Four(b));
    FourInjective(a, b);
  }

  // ---------------------------------------------------------------- RFC 1952, section 8

  /** make_crc_table: entry `n` after `k` rounds. */
  function TableEntry(c: bv32, k: nat): bv32 {
    if k == 0 then c
    else
      var d := TableEntry(c, k - 1);
      if d & 1 != 0 then POLYNOMIAL ^ (d >> 1) else d >> 1
  }

  function Table(n: bv32): bv32 { TableEntry(n, 8) }

  /** update_crc without its two complements. */
  function RfcRegister(c: bv32, s: Bytes): bv32 {
    if s == [] then c
    else
      var d := RfcRegister(c, s[..|s| - 1]);
      Xor(Table(LowByte(Xor(d, Wide(s[|s| - 1])))), NextByte(d))
  }

  function RfcCrc(s: Bytes): bv32 {
    Xor(RfcRegister(Xor(0, 0xFFFF_FFFF), s), 0xFFFF_FFFF)
  }

  lemma StepOfEven(c: bv32)
    requires !Odd(c)
    ensures BitStep(c) == Half(c)
  {
    StepByCases(c);
  }

  predicate Clear(c: bv32, mask: bv32) { c & mask == 0 }

  function NextNibble(c: bv32): bv32 { c >> 4 }

  lemma Nibbles(c: bv32)
    requires LowByte(c) == 0
    ensures Clear(c, 0xF) && Clear(NextNibble(c), 0xF) && NextNibble(NextNibble(c)) == NextByte(c)
  {
  }

  lemma OneLess(c: bv32)
    ensures Clear(c, 0xF) ==> !Odd(c) && Clear(Half(c), 7)
    ensures Clear(c, 7) ==> !Odd(c) && Clear(Half(c), 3)
    ensures Clear(c, 3) ==> !Odd(c) && Clear(Half(c), 1)
    ensures Clear(c, 1) ==> !Odd(c)
  {
  }

  lemma HalfOfHalves(c: bv32)
    ensures Half(Half(c)) == c >> 2
  {
  }

  lemma FourHalves(c: bv32)
    requires Clear(c, 0xF)
    ensures !Odd(c) && !Odd(Half(c)) && !Odd(Half(Half(c))) && !Odd(Half(Half(Half(c))))
    ensures Half(Half(Half(Half(c)))) == NextNibble(c)
  {
    HalfOfHalves(c);
    HalfOfHalves(Half(Half(c)));
    assert (c >> 2) >> 2 == NextNibble(c);
    hide Clear; hide Odd; hide Half; hide NextNibble;
    OneLess(c); OneLess(Half(c)); OneLess(Half(Half(c))); OneLess(Half(Half(Half(c))));
  }

  lemma HalvesEven(c: bv32)
    requires LowByte(c) == 0
    ensures !Odd(c) && !Odd(Half(c)) && !Odd(Half(Half(c))) && !Odd(Half(Half(Half(c))))
    ensures var d := Half(Half(Half(Half(c))));
            !Odd(d) && !Odd(Half(d)) && !Odd(Half(Half(d))) && !Odd(Half(Half(Half(d))))
            && Half(Half(Half(Half(d)))) == NextByte(c)
  {
    Nibbles(c);
    hide Odd; hide Half; hide NextNibble; hide Clear; hide LowByte; hide NextByte;
    FourHalves(c);
    FourHalves(NextNibble(c));
  }

  /** With a clear low byte nothing is fed back. */
  lemma EightShifts(c: bv32)
    requires LowByte(c) == 0
    ensures Eight(c) == NextByte(c)
  {
    hide BitStep; hide Half; hide Odd; hide LowByte; hide NextByte;
    HalvesEven(c);
    var d := Half(Half(Half(Half(c))));
    StepOfEven(c); StepOfEven(Half(c)); StepOfEven(Half(Half(c))); StepOfEven(Half(Half(Half(c))));
    StepOfEven(d); StepOfEven(Half(d)); StepOfEven(Half(Half(d))); StepOfEven(Half(Half(Half(d))));
  }

  lemma {:induction false} TableIsEight(c: bv32)
    ensures Table(c) == Eight(c)
  {
    hide BitStep;
    TableStep(c, 1); TableStep(c, 2); TableStep(c, 3); TableStep(c, 4);
    TableStep(c, 5); TableStep(c, 6); TableStep(c, 7); TableStep(c, 8);
    assert TableEntry(c, 0) == c;
  }

  lemma TableStep(c: bv32, k: nat)
    requires k > 0
    ensures TableEntry(c, k) == BitStep(TableEntry(c, k - 1))
  {
    hide BitStep;
    StepByCases(TableEntry(c, k - 1));
  }

  lemma SplitLowByte(x: bv32)
    ensures Xor(LowByte(x), Above(x)) == x
    ensures LowByte(Above(x)) == 0
  {
  }

  lemma HighBytes(c: bv32, b: bv8)
    ensures NextByte(Above(Xor(c, Wide(b)))) == NextByte(c)
  {
  }

  lemma ByteByTable(c: bv32, b: bv8)
    ensures CrcByte(c, b) == Xor(Table(LowByte(Xor(c, Wide(b)))), NextByte(c))
  {
    hide Eight; hide Table; hide Xor; hide LowByte; hide Above; hide NextByte; hide Wide;
    var x := Xor(c, Wide(b));
    SplitLowByte(x);
    EightLinear(LowByte(x), Above(x));
    EightShifts(Above(x));
    TableIsEight(LowByte(x));
    HighBytes(c, b);
  }

  /** The bit-serial register is the one of RFC 1952 for every byte stream. */
  lemma {:induction false} CrcIsRfc1952(c: bv32, s: Bytes)
    ensures Crc(c, s) == RfcRegister(c, s)
  {
    hide CrcByte; hide Table; hide Xor; hide LowByte; hide NextByte; hide Wide;
    if s != [] {
      CrcIsRfc1952(c, s[..|s| - 1]);
      ByteByTable(Crc(c, s[..|s| - 1]), s[|s| - 1]);
    }
  }

  lemma Complements(c: bv32)
    ensures Not(c) == Xor(c, 0xFFFF_FFFF) && Xor(0, 0xFFFF_FFFF) == 0xFFFF_FFFF
  {
  }

  /** What the checksum keeps is the CRC of RFC 1952, complements included. */
  lemma ComplementIsRfc1952(s: Bytes)
    ensures Not(Crc(0xFFFF_FFFF, s)) == RfcCrc(s)
  {
    hide Crc; hide RfcRegister; hide Not; hide Xor;
    CrcIsRfc1952(0xFFFF_FFFF, s);
    Complements(Crc(0xFFFF_FFFF, s));
  }

  // ---------------------------------------------------------------- what it detects

  lemma NotInjective(a: bv32, b: bv32)
    requires Not(a) == Not(b)
    ensures a == b
  {
    assert !(!a) == a && !(!b) == b;
  }

  lemma XorCancels(c: bv32, x: bv32, y: bv32)
    requires Xor(c, x) == Xor(c, y)
    ensures x == y
  {
    assert c ^ (c ^ x) == x && c ^ (c ^ y) == y;
  }

  lemma XorShuffle(a: bv32, b: bv32, c: bv32)
    ensures Xor(Xor(a, b), c) == Xor(a, Xor(b, c))
  {
  }

  /** Later bytes never make two different registers equal again. */
  lemma {:induction false} CrcInjective(a: bv32, b: bv32, s: Bytes)
    requires Crc(a, s) == Crc(b, s)
    ensures a == b
  {
    if s != [] {
      hide Eight; hide Xor; hide Wide;
      var n := |s| - 1;
      var x, y, w := Crc(a, s[..n]), Crc(b, s[..n]), Wide(s[n]);
      EightInjective(Xor(x, w), Xor(y, w));
      XorCommutes(x, w); XorCommutes(y, w);
      XorCancels(w, x, y);
      CrcInjective(a, b, s[..n]);
    }
  }

  function Up(a: bv32): bv32 { a << 8 }
  predicate Room(a: bv32) { a & 0xFF00_0000 == 0 }

  /** Four bytes as the register sees them: the first is the lowest. */
  function Word(b0: bv8, b1: bv8, b2: bv8, b3: bv8): bv32 {
    Xor(Xor(Xor(Wide(b0), Up(Wide(b1))), Up(Up(Wide(b2)))), Up(Up(Up(Wide(b3)))))
  }

  lemma UpThenNext(x: bv32)
    requires Room(x)
    ensures LowByte(Up(x)) == 0 && NextByte(Up(x)) == x
  {
  }

  lemma Places(b: bv8)
    ensures Room(Wide(b)) && Room(Up(Wide(b))) && Room(Up(Up(Wide(b))))
  {
  }

  /** A byte taken in after eight steps could as well have been taken in before. */
  lemma TakenEarlier(c: bv32, x: bv32)
    requires Room(x)
    ensures Xor(Eight(c), x) == Eight(Xor(c, Up(x)))
  {
    hide Eight; hide Xor; hide Up; hide LowByte; hide NextByte; hide Room;
    UpThenNext(x);
    EightShifts(Up(x));
    EightLinear(c, Up(x));
  }

  function Eights(c: bv32): bv32 { Eight(Eight(Eight(Eight(c)))) }

  /** Four bytes act on the register as one 32-bit word. */
  lemma WordAtOnce(c: bv32, b0: bv8, b1: bv8, b2: bv8, b3: bv8)
    ensures CrcByte(CrcByte(CrcByte(CrcByte(c, b0), b1), b2), b3) == Eights(Xor(c, Word(b0, b1, b2, b3)))
  {
    hide Eight; hide Xor; hide Wide; hide Up; hide Room;
    var w0, w1, w2, w3 := Wide(b0), Wide(b1), Wide(b2), Wide(b3);
    Places(b1); Places(b2); Places(b3);
    var x0 := Xor(c, w0);
    TakenEarlier(x0, w1);
    var x1 := Xor(x0, Up(w1));
    TakenEarlier(Eight(x1), w2);
    TakenEarlier(x1, Up(w2));
    var x2 := Xor(x1, Up(Up(w2)));
    TakenEarlier(Eight(Eight(x2)), w3);
    TakenEarlier(Eight(x2), Up(w3));
    TakenEarlier(x2, Up(Up(w3)));
    GroupWord(c, w0, Up(w1), Up(Up(w2)), Up(Up(Up(w3))));
  }

  lemma GroupWord(c: bv32, p: bv32, q: bv32, r: bv32, s: bv32)
    ensures Xor(Xor(Xor(Xor(c, p), q), r), s) == Xor(c, Xor(Xor(Xor(p, q), r), s))
  {
    hide Xor;
    XorShuffle(c, p, q);
    XorShuffle(c, Xor(p, q), r);
    XorShuffle(c, Xor(Xor(p, q), r), s);
  }

  lemma WordInjective(b0: bv8, b1: bv8, b2: bv8, b3: bv8, d0: bv8, d1: bv8, d2: bv8, d3: bv8)
    requires Word(b0, b1, b2, b3) == Word(d0, d1, d2, d3)
    ensures b0 == d0 && b1 == d1 && b2 == d2 && b3 == d3
  {
    WideWords(Wide(b0), Wide(b1), Wide(b2), Wide(b3), Wide(d0), Wide(d1), Wide(d2), Wide(d3));
  }

  lemma WideWords(b0: bv32, b1: bv32, b2: bv32, b3: bv32, d0: bv32, d1: bv32, d2: bv32, d3: bv32)
    requires b0 <= 0xFF && b1 <= 0xFF && b2 <= 0xFF && b3 <= 0xFF
    requires d0 <= 0xFF && d1 <= 0xFF && d2 <= 0xFF && d3 <= 0xFF
    requires ((b0 ^ (b1 << 8)) ^ ((b2 << 8) << 8)) ^ (((b3 << 8) << 8) << 8)
          == ((d0 ^ (d1 << 8)) ^ ((d2 << 8) << 8)) ^ (((d3 << 8) << 8) << 8)
    ensures b0 == d0 && b1 == d1 && b2 == d2 && b3 == d3
  {
  }

  lemma CrcOfFour(c: bv32, v: Bytes)
    requires |v| == 4
    ensures Crc(c, v) == CrcByte(CrcByte(CrcByte(CrcByte(c, v[0]), v[1]), v[2]), v[3])
  {
    hide CrcByte;
    assert v[..4 - 1][..3 - 1] == v[..2] && v[..2][..1] == v[..1] && v[..1][..0] == [];
    assert Crc(c, v[..1]) == CrcByte(c, v[0]);
    assert Crc(c, v[..2]) == CrcByte(Crc(c, v[..1]), v[1]);
    assert Crc(c, v[..3]) == CrcByte(Crc(c, v[..2]), v[2]);
  }

  lemma FourBytesInjective(c: bv32, v: Bytes, w: Bytes)
    requires |v| == |w| == 4 && Crc(c, v) == Crc(c, w)
    ensures v == w
  {
    hide CrcByte; hide Eight; hide Xor; hide Word; hide Crc;
    CrcOfFour(c, v);
    CrcOfFour(c, w);
    WordAtOnce(c, v[0], v[1], v[2], v[3]);
    WordAtOnce(c, w[0], w[1], w[2], w[3]);
    var x, y := Xor(c, Word(v[0], v[1], v[2], v[3])), Xor(c, Word(w[0], w[1], w[2], w[3]));
    EightInjective(Eight(Eight(Eight(x))), Eight(Eight(Eight(y))));
    EightInjective(Eight(Eight(x)), Eight(Eight(y)));
    EightInjective(Eight(x), Eight(y));
    EightInjective(x, y);
    XorCancels(c, Word(v[0], v[1], v[2], v[3]), Word(w[0], w[1], w[2], w[3]));
    WordInjective(v[0], v[1], v[2], v[3], w[0], w[1], w[2], w[3]);
  }

  lemma ShortInjective(c: bv32, v: Bytes, w: Bytes)
    requires |v| == |w| <= 4 && Crc(c, v) == Crc(c, w)
    ensures v == w
  {
    hide Crc;
    var pad: Bytes := [0, 0, 0, 0][..4 - |v|];
    CrcAppend(c, v, pad);
    CrcAppend(c, w, pad);
    FourBytesInjective(c, v + pad, w + pad);
    assert v == (v + pad)[..|v|] && w == (w + pad)[..|w|];
  }

  /** Two streams of the same length that differ, but only within four
      consecutive bytes, never have the same checksum. */
  lemma WindowDetected(c: bv32, s: Bytes, t: Bytes, at: nat)
    requires |s| == |t| && s != t
    requires forall k :: 0 <= k < |s| && !(at <= k < at + 4) ==> s[k] == t[k]
    ensures Crc(c, s) != Crc(c, t)
  {
    hide Crc;
    var i := if at < |s| then at else |s|;
    var j := if at + 4 < |s| then at + 4 else |s|;
    assert s == s[..i] + s[i..j] + s[j..] && t == t[..i] + t[i..j] + t[j..];
    assert s[..i] == t[..i] && s[j..] == t[j..];
    CrcAppend(c, s[..i] + s[i..j], s[j..]);
    CrcAppend(c, t[..i] + t[i..j], t[j..]);
    CrcAppend(c, s[..i], s[i..j]);
    CrcAppend(c, t[..i], t[i..j]);
    if Crc(c, s) == Crc(c, t) {
      CrcInjective(Crc(c, s[..i] + s[i..j]), Crc(c, t[..i] + t[i..j]), s[j..]);
      ShortInjective(Crc(c, s[..i]), s[i..j], t[i..j]);
      assert false;
    }
  }
}
