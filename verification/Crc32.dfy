/** The CRC-32 of base/utils.c, which takes half an octet at a time from a table of 16
    entries, against the definition that takes one bit at a time (IEEE 802.3, section
    3.2.9, with the bits of every octet least significant first). */
module Crc32 {
  /** The generator polynomial, reflected. */
  const POLY: bv32 := 0xedb8_8320

  // ---- one bit at a time ----

  /** What a step adds if its deciding bit is set. */
  function Term(p: bool): bv32 { if p then POLY else 0 }

  function BitStep(crc: bv32, bit: bv32): bv32 { (crc >> 1) ^ Term((crc ^ bit) & 1 == 1) }

  /** The four lowest bits of `b`, least significant first. */
  function Half(crc: bv32, b: bv32): bv32 {
    var c1 := BitStep(crc, b & 1);
    var c2 := BitStep(c1, (b >> 1) & 1);
    var c3 := BitStep(c2, (b >> 2) & 1);
    BitStep(c3, (b >> 3) & 1)
  }

  /** The eight bits of an octet. */
  function Octet(crc: bv32, b: bv8): bv32 { Half(Half(crc, b as bv32), (b as bv32) >> 4) }

  function Message(crc: bv32, data: seq<bv8>): bv32
    decreases |data|
  {
    if data == [] then crc else Message(Octet(crc, data[0]), data[1..])
  }

  /** The CRC continued from `crc`: register and result are complemented. */
  function Crc(crc: bv32, data: seq<bv8>): bv32 { !Message(!crc, data) }

  // ---- half an octet at a time ----

  /** The table, read at the low half of `x`. */
  function Entry(x: bv32): bv32 {
    var n := x & 0xf;
    if n == 0 then 0x0000_0000 else if n == 1 then 0x1db7_1064
    else if n == 2 then 0x3b6e_20c8 else if n == 3 then 0x26d9_30ac
    else if n == 4 then 0x76dc_4190 else if n == 5 then 0x6b6b_51f4
    else if n == 6 then 0x4db2_6158 else if n == 7 then 0x5005_713c
    else if n == 8 then 0xedb8_8320 else if n == 9 then 0xf00f_9344
    else if n == 10 then 0xd6d6_a3e8 else if n == 11 then 0xcb61_b38c
    else if n == 12 then 0x9b64_c2b0 else if n == 13 then 0x86d3_d2d4
    else if n == 14 then 0xa00a_e278 else 0xbdbd_f21c
  }

  /** One look-up. */
  function Nibble(crc: bv32, b: bv32): bv32 { (crc >> 4) ^ Entry(crc ^ b) }

  predicate Bit(x: bv32, k: nat)
    requires k < 4
  {
    (x >> k) & 1 == 1
  }

  /** The polynomial does not reach the lowest bit within four steps. */
  lemma LowBits(p: bool)
    ensures Term(p) & 0xf == 0
  {}

  /** So bit `k` of the sum of register and message decides step `k`. */
  lemma Decides(c: bv32, b: bv32, t0: bv32, t1: bv32, t2: bv32)
    requires t0 & 0xf == 0 && t1 & 0xf == 0 && t2 & 0xf == 0
    ensures (c ^ (b & 1)) & 1 == 1 <==> Bit(c ^ b, 0)
    ensures (((c >> 1) ^ t0) ^ ((b >> 1) & 1)) & 1 == 1 <==> Bit(c ^ b, 1)
    ensures (((c >> 2) ^ (t0 >> 1) ^ t1) ^ ((b >> 2) & 1)) & 1 == 1 <==> Bit(c ^ b, 2)
    ensures (((c >> 3) ^ (t0 >> 2) ^ (t1 >> 1) ^ t2) ^ ((b >> 3) & 1)) & 1 == 1 <==> Bit(c ^ b, 3)
  {}

  lemma Shifts(c: bv32, t0: bv32, t1: bv32, t2: bv32, t3: bv32)
    ensures (((c >> 1) ^ t0) >> 1) ^ t1 == (c >> 2) ^ (t0 >> 1) ^ t1
    ensures (((c >> 2) ^ (t0 >> 1) ^ t1) >> 1) ^ t2 == (c >> 3) ^ (t0 >> 2) ^ (t1 >> 1) ^ t2
    ensures (((c >> 3) ^ (t0 >> 2) ^ (t1 >> 1) ^ t2) >> 1) ^ t3 == (c >> 4) ^ ((t0 >> 3) ^ (t1 >> 2) ^ (t2 >> 1) ^ t3)
  {}

  /** What four steps add, from the bits that decide them. */
  function Sum(p0: bool, p1: bool, p2: bool, p3: bool): bv32 {
    (Term(p0) >> 3) ^ (Term(p1) >> 2) ^ (Term(p2) >> 1) ^ Term(p3)
  }

  /** The table holds what four steps add. */
  lemma EntryIsSum(x: bv32)
    ensures Entry(x) == Sum(Bit(x, 0), Bit(x, 1), Bit(x, 2), Bit(x, 3))
  {}

  /** One look into the table does the work of four bits. */
  lemma NibbleIsHalf(c: bv32, b: bv32)
    ensures Nibble(c, b) == Half(c, b)
  {
    var p0, p1, p2, p3 := Bit(c ^ b, 0), Bit(c ^ b, 1), Bit(c ^ b, 2), Bit(c ^ b, 3);
    LowBits(p0);
    LowBits(p1);
    LowBits(p2);
    Decides(c, b, Term(p0), Term(p1), Term(p2));
    Shifts(c, Term(p0), Term(p1), Term(p2), Term(p3));
    EntryIsSum(c ^ b);
  }

  /** The two look-ups of an octet do the work of its eight bits. */
  lemma OctetIsNibbles(crc: bv32, b: bv8)
    ensures Octet(crc, b) == Nibble(Nibble(crc, b as bv32), (b as bv32) >> 4)
  {
    NibbleIsHalf(crc, b as bv32);
    NibbleIsHalf(Nibble(crc, b as bv32), (b as bv32) >> 4);
  }

  // ---- whole messages ----

  /** crc32_ieee_update: for every message and every start it is the bit-at-a-time CRC. */
  method Update(crc0: bv32, data: seq<bv8>) returns (crc: bv32)
    ensures crc == Crc(crc0, data)
  {
    crc := !crc0;
    var i := 0;
    while i < |data|
      invariant i <= |data|
      invariant Message(crc, data[i..]) == Message(!crc0, data)
    {
      MessageCons(crc, data, i);
      crc := TakeOctet(crc, data[i]);
      i := i + 1;
    }
    crc := !crc;
  }

  method TakeOctet(crc0: bv32, byte: bv8) returns (crc: bv32)
    ensures crc == Octet(crc0, byte)
  {
    OctetIsNibbles(crc0, byte);
    crc := LookUp(crc0, byte as bv32);
    crc := LookUp(crc, (byte as bv32) >> 4);
  }

  method LookUp(crc: bv32, b: bv32) returns (next: bv32)
    ensures next == Nibble(crc, b)
  {
    next := (crc >> 4) ^ Entry(crc ^ b);
  }

  lemma MessageCons(crc: bv32, data: seq<bv8>, i: nat)
    requires i < |data|
    ensures Message(crc, data[i..]) == Message(Octet(crc, data[i]), data[i + 1..])
  {
    assert data[i..][1..] == data[i + 1..];
  }

  lemma {:induction false} MessageConcat(crc: bv32, a: seq<bv8>, b: seq<bv8>)
    ensures Message(crc, a + b) == Message(Message(crc, a), b)
    decreases |a|
  {
    if a == [] {
      assert a + b == b;
    } else {
      assert (a + b)[1..] == a[1..] + b;
      MessageConcat(Octet(crc, a[0]), a[1..], b);
    }
  }

  lemma Complement(x: bv32)
    ensures !!x == x
  {}

  /** Continuing over a second part is one pass over both. */
  lemma UpdateConcat(crc: bv32, a: seq<bv8>, b: seq<bv8>)
    ensures Crc(Crc(crc, a), b) == Crc(crc, a + b)
  {
    hide *;
    var m := Message(!crc, a);
    var n := Message(m, b);
    MessageConcat(!crc, a, b);
    Whole(crc, a, m);
    Whole(crc, a + b, n);
    var c := Crc(crc, a);
    assert c == !m;
    Continued(c, m, b, n);
  }

  lemma Continued(c: bv32, m: bv32, b: seq<bv8>, n: bv32)
    requires c == !m && Message(m, b) == n
    ensures Crc(c, b) == !n
  {
    hide Message;
    Complement(m);
  }

  lemma Whole(crc: bv32, data: seq<bv8>, m: bv32)
    requires Message(!crc, data) == m
    ensures Crc(crc, data) == !m
  {}

  // ---- what the CRC detects ----

  /** The highest bit after a step tells which way it went: the polynomial sets it and
      the shift leaves it clear. */
  lemma TopTells(x: bv32, bit: bv32)
    ensures BitStep(x, bit) >> 31 == (x ^ bit) & 1
  {}

  lemma RestDiffers(x: bv32, y: bv32)
    requires x != y && x & 1 == y & 1
    ensures x >> 1 != y >> 1
  {}

  lemma LowBitOf(x: bv32, y: bv32, bit: bv32)
    ensures (x ^ bit) & 1 == (y ^ bit) & 1 <==> x & 1 == y & 1
  {}

  /** A bit step can be undone, so different registers stay different. */
  lemma StepIsInjective(x: bv32, y: bv32, bit: bv32)
    requires x != y
    ensures BitStep(x, bit) != BitStep(y, bit)
  {
    TopTells(x, bit);
    TopTells(y, bit);
    LowBitOf(x, y, bit);
    if x & 1 == y & 1 {
      RestDiffers(x, y);
      SameEntry(x >> 1, y >> 1, Term((x ^ bit) & 1 == 1));
    }
  }

  lemma HalfIsInjective(x: bv32, y: bv32, b: bv32)
    requires x != y
    ensures Half(x, b) != Half(y, b)
  {
    var x1, y1 := BitStep(x, b & 1), BitStep(y, b & 1);
    var x2, y2 := BitStep(x1, (b >> 1) & 1), BitStep(y1, (b >> 1) & 1);
    StepIsInjective(x, y, b & 1);
    StepIsInjective(x1, y1, (b >> 1) & 1);
    StepIsInjective(x2, y2, (b >> 2) & 1);
    StepIsInjective(BitStep(x2, (b >> 2) & 1), BitStep(y2, (b >> 2) & 1), (b >> 3) & 1);
  }

  lemma {:induction false} MessageIsInjective(x: bv32, y: bv32, data: seq<bv8>)
    requires x != y
    ensures Message(x, data) != Message(y, data)
    decreases |data|
  {
    if data != [] {
      var b := data[0] as bv32;
      HalfIsInjective(x, y, b);
      HalfIsInjective(Half(x, b), Half(y, b), b >> 4);
      MessageIsInjective(Octet(x, data[0]), Octet(y, data[0]), data[1..]);
    }
  }

  /** The entries differ in their highest half octets already. */
  lemma EntriesDiffer(x: bv32, y: bv32)
    requires x & 0xf != y & 0xf
    ensures Entry(x) >> 28 != Entry(y) >> 28
  {}

  lemma TopOfNibble(crc: bv32, b: bv32)
    ensures Nibble(crc, b) >> 28 == Entry(crc ^ b) >> 28
  {}

  lemma LowHalvesDiffer(crc: bv32, a: bv32, b: bv32)
    requires a & 0xf != b & 0xf
    ensures (crc ^ a) & 0xf != (crc ^ b) & 0xf
  {}

  lemma NibblesDiffer(crc: bv32, a: bv32, b: bv32)
    requires a & 0xf != b & 0xf
    ensures Nibble(crc, a) >> 28 != Nibble(crc, b) >> 28
  {
    LowHalvesDiffer(crc, a, b);
    EntriesDiffer(crc ^ a, crc ^ b);
    TopOfNibble(crc, a);
    TopOfNibble(crc, b);
  }

  /** Registers that differ at the top are not made equal by the next look-up. */
  lemma TopsStayApart(x: bv32, y: bv32, a: bv32, b: bv32)
    requires x >> 28 != y >> 28
    ensures Nibble(x, a) != Nibble(y, b)
  {
    TopOfNibble(x, a);
    TopOfNibble(y, b);
    if (x ^ a) & 0xf == (y ^ b) & 0xf {
      SameEntry(x >> 4, y >> 4, Entry(x ^ a));
      assert x >> 4 != y >> 4;
    } else {
      EntriesDiffer(x ^ a, y ^ b);
    }
  }

  lemma SameEntry(x: bv32, y: bv32, e: bv32)
    ensures x ^ e == y ^ e <==> x == y
  {}

  lemma HalvesOf(a: bv8, b: bv8)
    requires a != b && (a as bv32) & 0xf == (b as bv32) & 0xf
    ensures ((a as bv32) >> 4) & 0xf != ((b as bv32) >> 4) & 0xf
  {}

  lemma LowHalvesAgree(crc: bv32, a: bv32, b: bv32)
    requires a & 0xf == b & 0xf
    ensures (crc ^ a) & 0xf == (crc ^ b) & 0xf
  {}

  lemma EntryIsLow(x: bv32, y: bv32)
    requires x & 0xf == y & 0xf
    ensures Entry(x) == Entry(y)
  {}

  lemma LowOnly(crc: bv32, a: bv32, b: bv32)
    requires a & 0xf == b & 0xf
    ensures Nibble(crc, a) == Nibble(crc, b)
  {
    hide *;
    var e := Entry(crc ^ a);
    LowHalvesAgree(crc, a, b);
    EntryIsLow(crc ^ a, crc ^ b);
    NibbleAdds(crc, a, e);
    NibbleAdds(crc, b, e);
  }

  lemma NibbleAdds(crc: bv32, b: bv32, e: bv32)
    requires Entry(crc ^ b) == e
    ensures Nibble(crc, b) == (crc >> 4) ^ e
  {}

  lemma LowChangeSeen(crc: bv32, a: bv32, b: bv32)
    requires a & 0xf != b & 0xf
    ensures Nibble(Nibble(crc, a), a >> 4) != Nibble(Nibble(crc, b), b >> 4)
  {
    NibblesDiffer(crc, a, b);
    TopsStayApart(Nibble(crc, a), Nibble(crc, b), a >> 4, b >> 4);
  }

  lemma HighChangeSeen(crc: bv32, a: bv32, b: bv32)
    requires a & 0xf == b & 0xf && (a >> 4) & 0xf != (b >> 4) & 0xf
    ensures Nibble(Nibble(crc, a), a >> 4) != Nibble(Nibble(crc, b), b >> 4)
  {
    LowOnly(crc, a, b);
    NibblesDiffer(Nibble(crc, a), a >> 4, b >> 4);
  }

  /** Different octets leave different registers. */
  lemma OctetsDiffer(crc: bv32, a: bv8, b: bv8)
    requires a != b
    ensures Octet(crc, a) != Octet(crc, b)
  {
    OctetIsNibbles(crc, a);
    OctetIsNibbles(crc, b);
    if (a as bv32) & 0xf != (b as bv32) & 0xf {
      LowChangeSeen(crc, a as bv32, b as bv32);
    } else {
      HalvesOf(a, b);
      HighChangeSeen(crc, a as bv32, b as bv32);
    }
  }

  /** A change confined to one octet of a message is always seen in its CRC. */
  lemma OneOctetIsDetected(crc: bv32, front: seq<bv8>, a: bv8, b: bv8, back: seq<bv8>)
    requires a != b
    ensures Crc(crc, front + ([a] + back)) != Crc(crc, front + ([b] + back))
  {
    var m := Message(!crc, front);
    MessageConcat(!crc, front, [a] + back);
    MessageConcat(!crc, front, [b] + back);
    MessageFirst(m, a, back);
    MessageFirst(m, b, back);
    OctetsDiffer(m, a, b);
    MessageIsInjective(Octet(m, a), Octet(m, b), back);
    ComplementDiffers(Message(Octet(m, a), back), Message(Octet(m, b), back));
  }

  lemma MessageFirst(crc: bv32, a: bv8, back: seq<bv8>)
    ensures Message(crc, [a] + back) == Message(Octet(crc, a), back)
  {
    assert ([a] + back)[1..] == back;
  }

  lemma ComplementDiffers(x: bv32, y: bv32)
    requires x != y
    ensures !x != !y
  {}

  // ---- the check value ----

  /** The register after one octet, by two look-ups. */
  predicate Goes(c: bv32, b: bv8, d: bv32) { Nibble(Nibble(c, b as bv32), (b as bv32) >> 4) == d }

  lemma {:induction false} Follows(cs: seq<bv32>, data: seq<bv8>)
    requires |cs| == |data| + 1 && forall i :: 0 <= i < |data| ==> Goes(cs[i], data[i], cs[i + 1])
    ensures Message(cs[0], data) == cs[|data|]
    decreases |data|
  {
    if data != [] {
      OctetIsNibbles(cs[0], data[0]);
      assert Goes(cs[0], data[0], cs[1]);
      forall i | 0 <= i < |data| - 1 ensures Goes(cs[1..][i], data[1..][i], cs[1..][i + 1]) {
        assert Goes(cs[i + 1], data[i + 1], cs[i + 2]);
      }
      Follows(cs[1..], data[1..]);
    }
  }

  /** The digits one to nine, as text, have the check value of this CRC. */
  lemma CheckValue()
    ensures Crc(0, [0x31, 0x32, 0x33, 0x34, 0x35, 0x36, 0x37, 0x38, 0x39]) == 0xcbf4_3926
  {
    var cs: seq<bv32> := [0xffff_ffff, 0x7c23_1048, 0xb0ac_bb32, 0x77b7_9c2d, 0x641c_1f5c,
                         0x340a_c5e3, 0xf68d_2c9e, 0xaffc_9660, 0x651f_2550, 0x340b_c6d9];
    Follows(cs, [0x31, 0x32, 0x33, 0x34, 0x35, 0x36, 0x37, 0x38, 0x39]);
  }
}
