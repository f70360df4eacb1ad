/** Reassembly of HCI packets from a byte stream (drivers/h4.c, drivers/userchan.c).
    The packet formats are those of the Bluetooth Core Specification v5.4, Vol 4,
    Part A, section 2 and Part E, section 5.4. */
module H4 {
  import opened Prelude

  const CMD := 1
  const ACL := 2
  const SCO := 3
  const EVT := 4
  const ISO := 5

  // ---- decoding a length (hci_packet_complete) ----

  /** Octets of the packet type and the header. */
  function HeaderLen(kind: Byte): Option<nat> {
    if kind == CMD then Some(4)
    else if kind == ACL then Some(5)
    else if kind == SCO then Some(4)
    else if kind == EVT then Some(3)
    else if kind == ISO then Some(5)
    else None
  }

  function PayloadLen(buf: seq<Byte>): nat
    requires buf != [] && HeaderLen(buf[0]) != None && HeaderLen(buf[0]).value <= |buf|
  {
    if buf[0] == CMD || buf[0] == SCO then buf[3]
    else if buf[0] == EVT then buf[2]
    else if buf[0] == ACL then Le16(buf[3], buf[4])
    else Le16(buf[3], buf[4]) % 0x4000
  }

  /** Length of the packet at the start, -1 if there is none, 0 if more is needed. */
  function Complete(buf: seq<Byte>): int
    requires buf != []
  {
    var header := HeaderLen(buf[0]);
    if header == None then -1
    else if |buf| < header.value then 0
    else
      var n := header.value + PayloadLen(buf);
      if |buf| < n then 0 else n
  }

  /** A whole packet and nothing else. */
  predicate Packet(p: seq<Byte>) { p != [] && Complete(p) == |p| }

  /** What the decoder says does not change when more arrives behind. */
  lemma CompleteIsStable(buf: seq<Byte>, more: seq<Byte>)
    requires buf != [] && Complete(buf) != 0
    ensures Complete(buf + more) == Complete(buf)
    ensures Complete(buf) > 0 ==> Complete(buf) <= |buf| && Packet(buf[..Complete(buf)])
  {}

  lemma CompleteBound(buf: seq<Byte>)
    requires buf != []
    ensures -1 <= Complete(buf) <= |buf|
  {}

  /** No proper part of a packet looks complete or invalid. */
  lemma PartIsIncomplete(p: seq<Byte>, n: nat)
    requires Packet(p) && 0 < n < |p|
    ensures Complete(p[..n]) == 0
  {}

  // ---- what is a packet ----

  /** The five forms of a packet with data `d`: a command or an SCO packet has two octets and
      the length of its data, an event one octet and the length; an ACL or ISO packet has two
      octets and the length in two, the low one first, of which ISO keeps the highest two
      bits, `top`, for flags. */
  predicate Form(p: seq<Byte>, a: Byte, b: Byte, top: Byte, d: seq<Byte>) {
    var n := |d|;
    || (n < 0x100 && (p == [1, a, b, n] + d || p == [3, a, b, n] + d || p == [4, a, n] + d))
    || (n < 0x10000 && p == [2, a, b, n % 256, n / 256] + d)
    || (n < 0x4000 && top < 4 && p == [5, a, b, n % 256, n / 256 + 64 * (top as int)] + d)
  }

  ghost predicate HasForm(p: seq<Byte>) {
    exists a: Byte, b: Byte, top: Byte, d: seq<Byte> :: Form(p, a, b, top, d)
  }

  /** Octets are their first few and the rest. */
  lemma HeadAndData(p: seq<Byte>, h: nat)
    requires 3 <= h <= 5 && h <= |p|
    ensures p == (if h == 3 then [p[0], p[1], p[2]] else if h == 4 then [p[0], p[1], p[2], p[3]] else [p[0], p[1], p[2], p[3], p[4]])
                 + p[h..]
  {}

  lemma ShortHasForm(p: seq<Byte>)
    requires Packet(p) && p[0] in {CMD, SCO, EVT}
    ensures HasForm(p)
  {
    var h := if p[0] == EVT then 3 else 4;
    HeadAndData(p, h);
    assert Form(p, p[1], if p[0] == EVT then 0 else p[2], 0, p[h..]);
  }

  lemma LongHasForm(p: seq<Byte>)
    requires Packet(p) && p[0] in {ACL, ISO}
    ensures HasForm(p)
  {
    HeadAndData(p, 5);
    LengthOctets(p[3], p[4]);
    assert |p[5..]| == if p[0] == ACL then Le16(p[3], p[4]) as int else Le16(p[3], p[4]) % 0x4000;
    assert Form(p, p[1], p[2], if p[0] == ISO then p[4] / 64 else 0, p[5..]);
  }

  /** A length of sixteen bits, or of fourteen and two bits above. */
  lemma LengthOctets(lo: Byte, hi: Byte)
    ensures Le16(lo, hi) as int % 256 == lo as int && Le16(lo, hi) as int / 256 == hi as int
    ensures var n := Le16(lo, hi) as int % 0x4000; n % 256 == lo as int && n / 256 + 64 * (hi as int / 64) == hi as int
  {}

  /** A packet is just what has one of these forms. */
  lemma PacketForms(p: seq<Byte>)
    ensures Packet(p) <==> HasForm(p)
  {
    hide Packet, Form, HasForm, Complete, HeaderLen;
    if Packet(p) {
      KnownType(p);
      if p[0] in {ACL, ISO} { LongHasForm(p); } else { ShortHasForm(p); }
    }
    if HasForm(p) { HasFormIsPacket(p); }
  }

  lemma KnownType(p: seq<Byte>)
    requires Packet(p)
    ensures p != [] && p[0] in {CMD, ACL, SCO, EVT, ISO}
  {}

  lemma HasFormIsPacket(p: seq<Byte>)
    requires HasForm(p)
    ensures Packet(p)
  {
    var a: Byte, b: Byte, top: Byte, d: seq<Byte> :| Form(p, a, b, top, d);
    FormIsPacket(p, a, b, top, d);
  }

  lemma FormIsPacket(p: seq<Byte>, a: Byte, b: Byte, top: Byte, d: seq<Byte>)
    requires Form(p, a, b, top, d)
    ensures Packet(p)
  {}

  /** What the decoder says of the octets at the front: no packet begins with this octet, a
      whole packet is there, or there is not enough of one yet. */
  lemma CompleteExactly(buf: seq<Byte>)
    requires buf != []
    ensures Complete(buf) == -1 <==> !(1 <= buf[0] <= 5)
    ensures Complete(buf) > 0 ==> Complete(buf) <= |buf| && HasForm(buf[..Complete(buf)])
    ensures forall n :: 0 < n <= |buf| && HasForm(buf[..n]) ==> Complete(buf) == n
  {
    hide PayloadLen, HasForm, Le16;
    if Complete(buf) > 0 {
      CompleteIsStable(buf, []);
      PacketForms(buf[..Complete(buf)]);
    }
    forall n | 0 < n <= |buf| && HasForm(buf[..n]) ensures Complete(buf) == n {
      PacketForms(buf[..n]);
      CompleteIsStable(buf[..n], buf[n..]);
      assert buf == buf[..n] + buf[n..];
    }
  }

  // ---- the loop over the frame ----

  /** The packets taken from the frame, and what stays in it; `cap` is the frame's size. */
  function Drain(cap: nat, buf: seq<Byte>): (seq<seq<Byte>>, seq<Byte>)
    decreases |buf|
  {
    if buf == [] then ([], []) else
    var n := Complete(buf);
    if n == -1 then ([], [])
    else if n == 0 then if |buf| == cap then ([], []) else ([], buf)
    else
      assert 0 < n <= |buf|;
      var (ps, rest) := Drain(cap, buf[n..]);
      ([buf[..n]] + ps, rest)
  }

  /** All reads: the packets in order, and what stays in the frame. */
  function Feed(cap: nat, held: seq<Byte>, chunks: seq<seq<Byte>>): (seq<seq<Byte>>, seq<Byte>)
    decreases |chunks|
  {
    if chunks == [] then ([], held) else
    var (ps, rest) := Drain(cap, held + chunks[0]);
    var (qs, last) := Feed(cap, rest, chunks[1..]);
    (ps + qs, last)
  }

  function Concat(parts: seq<seq<Byte>>): seq<Byte> { if parts == [] then [] else parts[0] + Concat(parts[1..]) }

  predicate Packets(ps: seq<seq<Byte>>, cap: nat) { forall i :: 0 <= i < |ps| ==> Packet(ps[i]) && |ps[i]| <= cap }

  /** A packet not yet whole, that will fit the frame. */
  predicate Part(t: seq<Byte>, whole: seq<Byte>, cap: nat) {
    t == [] || (Packet(whole) && |whole| <= cap && |t| < |whole| && t == whole[..|t|])
  }

  // ---- chunk invariance ----

  /** One read delivers the packets that have become whole and keeps the rest. */
  lemma {:induction false} DrainTakes(cap: nat, ps: seq<seq<Byte>>, t: seq<Byte>, whole: seq<Byte>)
    requires Packets(ps, cap) && Part(t, whole, cap)
    ensures Drain(cap, Concat(ps) + t) == (ps, t)
    decreases |ps|
  {
    if ps == [] {
      assert [] + t == t;
      if t != [] { PartIsIncomplete(whole, |t|); }
    } else {
      var p, rest := ps[0], Concat(ps[1..]) + t;
      assert Concat(ps) + t == p + rest;
      CompleteIsStable(p, rest);
      assert (p + rest)[..|p|] == p && (p + rest)[|p|..] == rest;
      DrainTakes(cap, ps[1..], t, whole);
      assert [p] + ps[1..] == ps;
    }
  }

  lemma ConcatCons(p: seq<Byte>, ps: seq<seq<Byte>>)
    ensures Concat([p] + ps) == p + Concat(ps)
  {
    assert ([p] + ps)[1..] == ps;
  }

  /** Cutting a stream behind its first packet. */
  lemma CutBehind(ps: seq<seq<Byte>>, tail: seq<Byte>, n: nat, k: nat)
    requires ps != [] && |ps[0]| <= n <= |Concat(ps) + tail| && k < |ps|
    ensures
      var s, rest := Concat(ps) + tail, Concat(ps[1..]) + tail;
      && s == ps[0] + rest && n - |ps[0]| <= |rest|
      && s[..n] == ps[0] + rest[..n - |ps[0]|] && s[n..] == rest[n - |ps[0]|..]
      && Concat(ps[..k + 1]) == ps[0] + Concat(ps[1..][..k]) && ps[1..][k..] == ps[k + 1..]
  {
    assert ps[..k + 1] == [ps[0]] + ps[1..][..k];
    ConcatCons(ps[0], ps[1..][..k]);
  }

  /** Cutting a stream within its first packet. */
  lemma CutInside(ps: seq<seq<Byte>>, tail: seq<Byte>, n: nat)
    requires ps != [] && n < |ps[0]|
    ensures
      var s := Concat(ps) + tail;
      n < |s| && s[..n] == Concat(ps[..0]) + ps[0][..n] && ps[0][..n] + s[n..] == Concat(ps[0..]) + tail
  {
    var s := Concat(ps) + tail;
    assert s == ps[0] + (Concat(ps[1..]) + tail);
    assert s[..n] == ps[0][..n] && ps[..0] == [] && ps[0..] == ps;
    assert s[..n] + s[n..] == s;
  }

  lemma OneMore(ps: seq<seq<Byte>>, tail: seq<Byte>, n: nat, k: nat, t: seq<Byte>)
    requires ps != [] && |ps[0]| <= n <= |Concat(ps) + tail| && k < |ps| && n - |ps[0]| <= |Concat(ps[1..]) + tail|
    requires (Concat(ps[1..]) + tail)[..n - |ps[0]|] == Concat(ps[1..][..k]) + t
    requires t + (Concat(ps[1..]) + tail)[n - |ps[0]|..] == Concat(ps[1..][k..]) + tail
    ensures (Concat(ps) + tail)[..n] == Concat(ps[..k + 1]) + t
    ensures t + (Concat(ps) + tail)[n..] == Concat(ps[k + 1..]) + tail
  {
    CutBehind(ps, tail, n, k);
    Associates(ps[0], Concat(ps[1..][..k]), t);
  }

  lemma Associates(a: seq<Byte>, b: seq<Byte>, c: seq<Byte>)
    ensures a + (b + c) == a + b + c
  {}

  /** The first `n` bytes of a stream of packets are whole packets and a part of one, whatever
      follows the packets if these bytes do not reach it. */
  lemma {:induction false} PrefixSplits(cap: nat, ps: seq<seq<Byte>>, tail: seq<Byte>, whole: seq<Byte>, n: nat)
    returns (k: nat, t: seq<Byte>, w: seq<Byte>)
    requires Packets(ps, cap) && n <= |Concat(ps) + tail|
    requires n <= |Concat(ps)| || Part(tail[..n - |Concat(ps)|], whole, cap)
    ensures k <= |ps| && Part(t, w, cap) && w == (if k < |ps| then ps[k] else whole)
    ensures (Concat(ps) + tail)[..n] == Concat(ps[..k]) + t
    ensures t + (Concat(ps) + tail)[n..] == Concat(ps[k..]) + tail
    decreases |ps|
  {
    var s := Concat(ps) + tail;
    if ps == [] {
      assert s == tail;
      k, t, w := 0, tail[..n], whole;
    } else if n < |ps[0]| {
      CutInside(ps, tail, n);
      k, t, w := 0, ps[0][..n], ps[0];
    } else {
      CutBehind(ps, tail, n, 0);
      k, t, w := PrefixSplits(cap, ps[1..], tail, whole, n - |ps[0]|);
      OneMore(ps, tail, n, k, t);
      k := k + 1;
    }
  }

  lemma PartOfPart(t: seq<Byte>, whole: seq<Byte>, cap: nat, n: nat)
    requires Part(t, whole, cap) && n <= |t|
    ensures Part(t[..n], whole, cap)
  {
    if t != [] { assert whole[..|t|][..n] == whole[..n]; }
  }

  /** Part of a packet does not begin with a packet. */
  lemma NoPacketInside(cap: nat, t: seq<Byte>, w: seq<Byte>, p: seq<Byte>, rest: seq<Byte>)
    requires Part(t, w, cap) && t == p + rest
    ensures !Packet(p)
  {
    if p != [] {
      assert p == w[..|p|] by { assert w[..|t|][..|p|] == w[..|p|]; }
      PartIsIncomplete(w, |p|);
    }
  }

  lemma Exhausted(cap: nat, t: seq<Byte>, w: seq<Byte>, ps: seq<seq<Byte>>, tail: seq<Byte>)
    requires Part(t, w, cap) && Packets(ps, cap) && t + [] == Concat(ps) + tail
    ensures ps == [] && t == tail
  {
    assert t + [] == t;
    if ps == [] {
      assert Concat(ps) + tail == tail;
    } else {
      CutBehind(ps, tail, |ps[0]|, 0);
      NoPacketInside(cap, t, w, ps[0], Concat(ps[1..]) + tail);
    }
  }

  /** However a stream of packets that fit the frame is cut into reads, the same packets
      come out in the same order, each once, and what stays in the frame is the part of
      the next packet that has arrived. */
  lemma {:induction false} ChunkInvariance(cap: nat, held: seq<Byte>, first: seq<Byte>, chunks: seq<seq<Byte>>,
                                           ps: seq<seq<Byte>>, tail: seq<Byte>, whole: seq<Byte>)
    requires Packets(ps, cap) && Part(tail, whole, cap)
    requires Part(held, first, cap) && held + Concat(chunks) == Concat(ps) + tail
    ensures Feed(cap, held, chunks) == (ps, tail)
    decreases |chunks|
  {
    if chunks == [] {
      Exhausted(cap, held, first, ps, tail);
    } else {
      var s, c, rest := Concat(ps) + tail, chunks[0], Concat(chunks[1..]);
      assert held + Concat(chunks) == (held + c) + rest;
      if |held + c| > |Concat(ps)| { PartOfPart(tail, whole, cap, |held + c| - |Concat(ps)|); }
      var k, t, w := PrefixSplits(cap, ps, tail, whole, |held + c|);
      assert s[..|held + c|] == held + c && s[|held + c|..] == rest;
      DrainTakes(cap, ps[..k], t, w);
      ChunkInvariance(cap, t, w, chunks[1..], ps[k..], tail, whole);
      assert ps[..k] + ps[k..] == ps;
    }
  }

  // ---- packets that do not fit ----

  /** A read returns no more than the frame has room for. */
  predicate Fits(cap: nat, held: seq<Byte>, chunks: seq<seq<Byte>>)
    decreases |chunks|
  {
    chunks != [] ==> |held| + |chunks[0]| <= cap && Fits(cap, Drain(cap, held + chunks[0]).1, chunks[1..])
  }

  lemma {:induction false} DrainDecodes(cap: nat, buf: seq<Byte>)
    requires |buf| <= cap
    ensures Packets(Drain(cap, buf).0, cap) && |Drain(cap, buf).1| <= |buf|
    decreases |buf|
  {
    if buf != [] && Complete(buf) > 0 {
      CompleteIsStable(buf, []);
      DrainDecodes(cap, buf[Complete(buf)..]);
    }
  }

  /** Whatever the stream, what is delivered are whole packets that fit the frame. */
  lemma {:induction false} OnlyPackets(cap: nat, held: seq<Byte>, chunks: seq<seq<Byte>>)
    requires Fits(cap, held, chunks)
    ensures Packets(Feed(cap, held, chunks).0, cap)
    decreases |chunks|
  {
    if chunks != [] {
      DrainDecodes(cap, held + chunks[0]);
      OnlyPackets(cap, Drain(cap, held + chunks[0]).1, chunks[1..]);
    }
  }

  /** A packet alone on the line is delivered exactly if it fits the frame. */
  lemma DeliveredExactly(cap: nat, p: seq<Byte>, chunks: seq<seq<Byte>>)
    requires Packet(p) && Concat(chunks) == p && Fits(cap, [], chunks)
    ensures Feed(cap, [], chunks).0 == [p] <==> |p| <= cap
  {
    OnlyPackets(cap, [], chunks);
    if |p| <= cap {
      assert [] + Concat(chunks) == Concat([p]) + [];
      ChunkInvariance(cap, [], [], chunks, [p], [], []);
    } else {
      assert [p][0] == p;
    }
  }

  // ---- behind what cannot be decoded ----

  /** One read delivers the packets at its front and keeps what is not yet whole. */
  lemma {:induction false} DrainLeaves(cap: nat, ps: seq<seq<Byte>>, t: seq<Byte>)
    requires Packets(ps, cap) && (t == [] || (Complete(t) == 0 && |t| != cap))
    ensures Drain(cap, Concat(ps) + t) == (ps, t)
    decreases |ps|
  {
    if ps == [] {
      assert [] + t == t;
    } else {
      hide Drain, Complete, Concat, Packet;
      DrainFirst(cap, ps, t);
      DrainLeaves(cap, ps[1..], t);
      assert [ps[0]] + ps[1..] == ps;
    }
  }

  lemma DrainFirst(cap: nat, ps: seq<seq<Byte>>, t: seq<Byte>)
    requires ps != [] && Packet(ps[0])
    ensures var (qs, rest) := Drain(cap, Concat(ps[1..]) + t); Drain(cap, Concat(ps) + t) == ([ps[0]] + qs, rest)
  {
    var p, rest := ps[0], Concat(ps[1..]) + t;
    assert Concat(ps) + t == p + rest;
    CompleteIsStable(p, rest);
    assert (p + rest)[..|p|] == p && (p + rest)[|p|..] == rest;
  }

  /** An octet that is no packet type costs the rest of the read. */
  lemma {:induction false} DrainDrops(cap: nat, ps: seq<seq<Byte>>, bad: Byte, junk: seq<Byte>)
    requires Packets(ps, cap) && HeaderLen(bad) == None
    ensures Drain(cap, Concat(ps) + ([bad] + junk)) == (ps, [])
    decreases |ps|
  {
    if ps == [] {
      assert [] + ([bad] + junk) == [bad] + junk;
    } else {
      DrainFirst(cap, ps, [bad] + junk);
      DrainDrops(cap, ps[1..], bad, junk);
      assert [ps[0]] + ps[1..] == ps;
    }
  }

  /** What is held is part of a packet, so an octet that is no type is still to come. */
  lemma StillToCome(cap: nat, held: seq<Byte>, first: seq<Byte>, ps: seq<seq<Byte>>, bad: Byte, more: seq<Byte>)
    requires Part(held, first, cap) && Packets(ps, cap) && HeaderLen(bad) == None
    ensures held != Concat(ps) + ([bad] + more)
  {
    assert Concat([]) + held == held;
    DrainTakes(cap, [], held, first);
    DrainDrops(cap, ps, bad, more);
  }

  lemma HeldInside(cap: nat, held: seq<Byte>, first: seq<Byte>, ps: seq<seq<Byte>>, bad: Byte, more: seq<Byte>, s: seq<Byte>)
    requires Part(held, first, cap) && Packets(ps, cap) && HeaderLen(bad) == None
    requires s == Concat(ps) + ([bad] + more) && held <= s
    ensures |held| <= |Concat(ps)|
  {
    var n := |Concat(ps)|;
    var m := if |held| > n then |held| - n - 1 else 0;
    assert s[..n + 1 + m] == Concat(ps) + ([bad] + more[..m]);
    StillToCome(cap, held, first, ps, bad, more[..m]);
  }

  /** One read, then the others. */
  lemma FeedRead(cap: nat, held: seq<Byte>, chunks: seq<seq<Byte>>, ps: seq<seq<Byte>>, k: nat, t: seq<Byte>,
                 qs: seq<seq<Byte>>, last: seq<Byte>)
    requires chunks != [] && k <= |ps| && Drain(cap, held + chunks[0]) == (ps[..k], t)
    requires Feed(cap, t, chunks[1..]) == (ps[k..] + qs, last)
    ensures Feed(cap, held, chunks) == (ps + qs, last)
  {
    assert ps[..k] + (ps[k..] + qs) == ps + qs;
  }

  /** A stream of packets with an octet behind them that is no packet type: the packets
      are delivered, the rest of the read that brings this octet is lost, and decoding
      starts anew with the read after that one, the `n`th. */
  lemma {:induction false} AfterInvalid(cap: nat, held: seq<Byte>, first: seq<Byte>, chunks: seq<seq<Byte>>,
                                        ps: seq<seq<Byte>>, bad: Byte, more: seq<Byte>)
    returns (n: nat)
    requires Part(held, first, cap) && Packets(ps, cap) && HeaderLen(bad) == None
    requires held + Concat(chunks) == Concat(ps) + ([bad] + more)
    ensures 0 < n <= |chunks| && |Concat(chunks[n..])| <= |more| < |Concat(chunks[n - 1..])|
    ensures var (qs, last) := Feed(cap, [], chunks[n..]); Feed(cap, held, chunks) == (ps + qs, last)
    decreases |chunks|
  {
    var tail := [bad] + more;
    var s := Concat(ps) + tail;
    HeldInside(cap, held, first, ps, bad, more, s);
    var c, rest := chunks[0], Concat(chunks[1..]);
    var buf := held + c;
    assert s == buf + rest && buf == s[..|buf|] && rest == s[|buf|..];
    if |buf| > |Concat(ps)| {
      var junk := buf[|Concat(ps)| + 1..];
      n := 1;
      assert chunks[0..] == chunks && ps[..|ps|] == ps && ps[|ps|..] == [];
      assert buf == Concat(ps) + ([bad] + junk);
      DrainDrops(cap, ps, bad, junk);
      var (qs, last) := Feed(cap, [], chunks[1..]);
      assert [] + qs == qs;
      FeedRead(cap, held, chunks, ps, |ps|, [], qs, last);
    } else {
      var k, t, w := PrefixSplits(cap, ps, tail, [], |buf|);
      DrainTakes(cap, ps[..k], t, w);
      var m := AfterInvalid(cap, t, w, chunks[1..], ps[k..], bad, more);
      n := m + 1;
      assert chunks[n..] == chunks[1..][m..] && chunks[n - 1..] == chunks[1..][m - 1..];
      var (qs, last) := Feed(cap, [], chunks[n..]);
      FeedRead(cap, held, chunks, ps, k, t, qs, last);
    }
  }

  /** What a frame holds of such a stream: packets, and part of the next or, alone, the
      beginning of the long one. */
  lemma FrontSplits(cap: nat, ps: seq<seq<Byte>>, w: seq<Byte>, more: seq<Byte>, n: nat)
    returns (k: nat, t: seq<Byte>, v: seq<Byte>)
    requires Packets(ps, cap) && Packet(w) && 0 < cap < |w|
    requires n <= cap && n <= |Concat(ps) + (w + more)|
    ensures k <= |ps| && Part(t, v, |w|) && |t| <= n && (t == [] || Complete(t) == 0)
    ensures (Concat(ps) + (w + more))[..n] == Concat(ps[..k]) + t
    ensures t + (Concat(ps) + (w + more))[n..] == Concat(ps[k..]) + (w + more)
    ensures |t| == cap ==> n == cap && ps == []
  {
    var m := n - |Concat(ps)|;
    if m > 0 { assert (w + more)[..m] == w[..m]; }
    k, t, v := PrefixSplits(|w|, ps, w + more, w, n);
    if t != [] { PartIsIncomplete(v, |t|); }
  }

  lemma ReadSplits(cap: nat, held: seq<Byte>, chunks: seq<seq<Byte>>, ps: seq<seq<Byte>>, w: seq<Byte>, more: seq<Byte>)
    returns (k: nat, t: seq<Byte>, v: seq<Byte>)
    requires Packets(ps, cap) && Packet(w) && 0 < cap < |w|
    requires chunks != [] && |held + chunks[0]| <= cap && held + Concat(chunks) == Concat(ps) + (w + more)
    ensures k <= |ps| && Part(t, v, |w|) && (t == [] || Complete(t) == 0)
    ensures held + chunks[0] == Concat(ps[..k]) + t && |t| <= cap
    ensures t + Concat(chunks[1..]) == Concat(ps[k..]) + (w + more)
    ensures |t| == cap ==> ps == [] && held + chunks[0] == t && Concat(chunks[1..]) == w[cap..] + more
  {
    hide *;
    ReadCut(held, chunks);
    k, t, v := FrontSplits(cap, ps, w, more, |held + chunks[0]|);
    if |t| == cap { FullRest(cap, ps, w, more); }
  }

  /** The stream cut behind its first read. */
  lemma ReadCut(held: seq<Byte>, chunks: seq<seq<Byte>>)
    requires chunks != []
    ensures
      var s, n := held + Concat(chunks), |held + chunks[0]|;
      n <= |s| && s[..n] == held + chunks[0] && s[n..] == Concat(chunks[1..])
  {
    Associates(held, chunks[0], Concat(chunks[1..]));
    CutAt(held + chunks[0], Concat(chunks[1..]));
  }

  lemma FullRest(cap: nat, ps: seq<seq<Byte>>, w: seq<Byte>, more: seq<Byte>)
    requires ps == [] && cap <= |w|
    ensures |Concat(ps) + (w + more)| >= cap && (Concat(ps) + (w + more))[cap..] == w[cap..] + more
  {
    NothingBefore(ps, w + more);
    assert (w + more)[cap..] == w[cap..] + more;
  }

  lemma NothingBefore(ps: seq<seq<Byte>>, tail: seq<Byte>)
    requires ps == []
    ensures Concat(ps) + tail == tail
  {}

  lemma CutAt(a: seq<Byte>, b: seq<Byte>)
    ensures (a + b)[..|a|] == a && (a + b)[|a|..] == b
  {}

  /** What one read of such a stream delivers, and what it keeps. */
  lemma ReadDecodes(cap: nat, held: seq<Byte>, chunks: seq<seq<Byte>>, ps: seq<seq<Byte>>, w: seq<Byte>, more: seq<Byte>)
    returns (k: nat, t: seq<Byte>, v: seq<Byte>)
    requires Packets(ps, cap) && Packet(w) && 0 < cap < |w|
    requires chunks != [] && |held + chunks[0]| <= cap && held + Concat(chunks) == Concat(ps) + (w + more)
    ensures k <= |ps| && Part(t, v, |w|) && Packets(ps[k..], cap) && |t| <= cap
    ensures t + Concat(chunks[1..]) == Concat(ps[k..]) + (w + more)
    ensures Drain(cap, held + chunks[0]) == (ps[..k], if |t| == cap then [] else t)
    ensures |t| == cap ==> ps == [] && Concat(chunks[1..]) == w[cap..] + more
  {
    k, t, v := ReadSplits(cap, held, chunks, ps, w, more);
    if |t| < cap { DrainLeaves(cap, ps[..k], t); }
  }

  /** A stream of packets with one behind them that is longer than the frame: however it is
      cut into reads that fit, the packets are delivered, the frame is emptied when just
      the first `cap` octets of the long one fill it, and decoding starts anew, with the
      `n`th read, in its middle. */
  lemma {:induction false} AfterTooLong(cap: nat, held: seq<Byte>, first: seq<Byte>, chunks: seq<seq<Byte>>,
                                        ps: seq<seq<Byte>>, w: seq<Byte>, more: seq<Byte>)
    returns (n: nat)
    requires Packets(ps, cap) && Packet(w) && 0 < cap < |w|
    requires Part(held, first, |w|) && |held| < cap && Fits(cap, held, chunks)
    requires held + Concat(chunks) == Concat(ps) + (w + more)
    ensures 0 < n <= |chunks| && Concat(chunks[n..]) == w[cap..] + more
    ensures var (qs, last) := Feed(cap, [], chunks[n..]); Feed(cap, held, chunks) == (ps + qs, last)
    decreases |chunks|
  {
    assert held + [] == held;
    hide Drain, Feed, Complete, Packet, Part, Packets;
    var k, t, v := ReadDecodes(cap, held, chunks, ps, w, more);
    if |t| < cap {
      var m := AfterTooLong(cap, t, v, chunks[1..], ps[k..], w, more);
      n := m + 1;
      assert chunks[n..] == chunks[1..][m..];
      var (qs, last) := Feed(cap, [], chunks[n..]);
      FeedRead(cap, held, chunks, ps, k, t, qs, last);
    } else {
      n := 1;
      var (qs, last) := Feed(cap, [], chunks[1..]);
      assert ps[k..] + qs == qs;
      FeedRead(cap, held, chunks, ps, k, [], qs, last);
    }
  }

  // ---- the other driver (drivers/userchan.c) ----

  /** Its loop keeps a full frame that holds no whole packet ... */
  function DrainUc(buf: seq<Byte>): (seq<seq<Byte>>, seq<Byte>)
    decreases |buf|
  {
    if buf == [] then ([], []) else
    var n := Complete(buf);
    if n == -1 then ([], [])
    else if n == 0 then ([], buf)
    else
      assert 0 < n <= |buf|;
      var (ps, rest) := DrainUc(buf[n..]);
      ([buf[..n]] + ps, rest)
  }

  /** ... and drops it before the next read. */
  function FeedUc(cap: nat, held: seq<Byte>, chunks: seq<seq<Byte>>): (seq<seq<Byte>>, seq<Byte>)
    decreases |chunks|
  {
    if chunks == [] then ([], held) else
    var (ps, rest) := DrainUc((if |held| >= cap then [] else held) + chunks[0]);
    var (qs, last) := FeedUc(cap, rest, chunks[1..]);
    (ps + qs, last)
  }

  lemma {:induction false} DrainsAgree(cap: nat, buf: seq<Byte>)
    requires |buf| <= cap
    ensures DrainUc(buf).0 == Drain(cap, buf).0
    ensures Drain(cap, buf).1 == if |DrainUc(buf).1| >= cap then [] else DrainUc(buf).1
    decreases |buf|
  {
    if buf != [] && Complete(buf) > 0 { DrainsAgree(cap, buf[Complete(buf)..]); }
  }

  /** Over frames of one size both rules deliver the same packets. */
  lemma {:induction false} DriversAgree(cap: nat, held: seq<Byte>, chunks: seq<seq<Byte>>)
    requires Fits(cap, if |held| >= cap then [] else held, chunks)
    ensures FeedUc(cap, held, chunks).0 == Feed(cap, if |held| >= cap then [] else held, chunks).0
    decreases |chunks|
  {
    if chunks != [] {
      var buf := (if |held| >= cap then [] else held) + chunks[0];
      DrainsAgree(cap, buf);
      DriversAgree(cap, DrainUc(buf).1, chunks[1..]);
    }
  }
}
