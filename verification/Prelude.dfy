/** What several components share: an option type, and integers as little-endian octets
    (base/byteorder.h). */
module Prelude {
  datatype Option<T> = None | Some(value: T)

  /** A value read from the front of some octets, with the octets behind it. */
  datatype Pulled<+T> = Short | Got(value: T, rest: seq<Byte>)

  type Byte = x: int | 0 <= x < 256
  type Word16 = x: int | 0 <= x < 0x10000
  type Word24 = x: int | 0 <= x < 0x1000000
  type Word32 = x: int | 0 <= x < 0x100000000

  function Le16(lo: Byte, hi: Byte): Word16 { lo as int + 256 * (hi as int) }

  function ToLe16(v: Word16): seq<Byte> { [v % 256, v / 256] }

  function ToLe24(v: Word24): seq<Byte> { ToLe16(v % 0x10000) + [v / 0x10000] }

  function FromLe24(b: seq<Byte>): Word24
    requires |b| == 3
  {
    Le16(b[0], b[1]) as int + 0x10000 * (b[2] as int)
  }

  function ToLe32(v: Word32): seq<Byte> { ToLe16(v % 0x10000) + ToLe16(v / 0x10000) }

  function FromLe32(b: seq<Byte>): Word32
    requires |b| == 4
  {
    Le16(b[0], b[1]) as int + 0x10000 * (Le16(b[2], b[3]) as int)
  }

  lemma Le16RoundTrip(v: Word16, lo: Byte, hi: Byte)
    ensures Le16(ToLe16(v)[0], ToLe16(v)[1]) == v
    ensures ToLe16(Le16(lo, hi)) == [lo, hi]
  {}

  lemma Halves(lo: int, hi: int)
    requires 0 <= lo < 0x10000
    ensures (lo + 0x10000 * hi) % 0x10000 == lo && (lo + 0x10000 * hi) / 0x10000 == hi
  {}

  lemma Le24RoundTrip(v: Word24)
    ensures FromLe24(ToLe24(v)) == v
  {
    Le16RoundTrip(v % 0x10000, 0, 0);
  }

  lemma Le24Canonical(b: seq<Byte>)
    requires |b| == 3
    ensures ToLe24(FromLe24(b)) == b
  {
    Halves(Le16(b[0], b[1]), b[2]);
    Le16RoundTrip(0, b[0], b[1]);
    assert b == [b[0], b[1]] + [b[2]];
  }

  lemma Le32RoundTrip(v: Word32)
    ensures FromLe32(ToLe32(v)) == v
  {
    Le16RoundTrip(v % 0x10000, 0, 0);
    Le16RoundTrip(v / 0x10000, 0, 0);
  }

  lemma Le32Canonical(b: seq<Byte>)
    requires |b| == 4
    ensures ToLe32(FromLe32(b)) == b
  {
    Halves(Le16(b[0], b[1]), Le16(b[2], b[3]));
    Le16RoundTrip(0, b[0], b[1]);
    Le16RoundTrip(0, b[2], b[3]);
    assert b == [b[0], b[1]] + [b[2], b[3]];
  }

  // ---- the octets of a number, the least significant first ----

  predicate Octets16(o: seq<Byte>, v: Word16) {
    |o| == 2 && o[0] as int == v % 256 && o[1] as int == v / 256
  }

  predicate Octets24(o: seq<Byte>, v: Word24) {
    |o| == 3 && o[0] as int == v % 256 && o[1] as int == v / 256 % 256 && o[2] as int == v / 0x10000
  }

  predicate Octets32(o: seq<Byte>, v: Word32) {
    |o| == 4 && o[0] as int == v % 256 && o[1] as int == v / 256 % 256
    && o[2] as int == v / 0x10000 % 256 && o[3] as int == v / 0x1000000
  }

  lemma Quarters(v: Word32)
    ensures v % 0x10000 % 256 == v % 256 && v % 0x10000 / 256 == v / 256 % 256 && v / 0x10000 / 256 == v / 0x1000000
  {}

  /** Octet `k` of a number is the number over 256^k, modulo 256, in what the writers put. */
  lemma LeastFirst(a: Word16, b: Word24, c: Word32)
    ensures Octets16(ToLe16(a), a) && Octets24(ToLe24(b), b) && Octets32(ToLe32(c), c)
  {
    Quarters(b);
    Quarters(c);
  }

  /** And the readers weigh octet `k` by 256^k. */
  lemma WeighedSum(b: seq<Byte>)
    requires |b| == 4
    ensures
      var b0, b1, b2, b3 := b[0] as int, b[1] as int, b[2] as int, b[3] as int;
      && Le16(b[0], b[1]) as int == b0 + 256 * b1
      && FromLe24(b[..3]) as int == b0 + 256 * b1 + 0x10000 * b2
      && FromLe32(b) as int == b0 + 256 * b1 + 0x10000 * b2 + 0x1000000 * b3
  {}

  // ---- places among octets ----

  /** The octets `part` stand in `o` from place `p` on. */
  predicate Stands(o: seq<Byte>, p: nat, part: seq<Byte>) {
    p + |part| <= |o| && o[p..p + |part|] == part
  }

  lemma StandsIn(a: seq<Byte>, o: seq<Byte>, rest: seq<Byte>, p: nat, part: seq<Byte>)
    requires Stands(o, p, part)
    ensures Stands(a + (o + rest), |a| + p, part)
  {
    var w := a + (o + rest);
    assert w[|a| + p..|a| + p + |part|] == o[p..p + |part|];
  }

  lemma Glue(a: seq<Byte>, b: seq<Byte>, rest: seq<Byte>)
    ensures (a + b) + rest == a + (b + rest)
  {}
}
