/** The Broadcast Receive State of the Broadcast Audio Scan Service v1.0, section 3.2:
    the writer of bap_scan_delegator.c and the parser of bap_broadcast_assistant.c. */
module RecvState {
  import opened Prelude

  const BAD_CODE := 3
  const MINIMUM_LEN := 15
  const CODE_SIZE := 16

  datatype Subgroup = Subgroup(bisSync: Word32, metadata: seq<Byte>)

  datatype State = State(
    srcId: Byte, addrType: Byte, addr: seq<Byte>, advSid: Byte, broadcastId: Word24,
    paSync: Byte, encrypt: Byte, badCode: seq<Byte>, subgroups: seq<Subgroup>)

  /** The limits a build sets: subgroups kept, octets of metadata kept. */
  datatype Limits = Limits(subgroups: Byte, metadata: Byte)

  datatype Parsed = Ok(state: State) | Inval | NoMem | InvalidLen

  /** What the arrays of the structure hold. */
  predicate InRange(s: State, lim: Limits) {
    && |s.addr| == 6 && |s.badCode| == CODE_SIZE
    && |s.subgroups| <= lim.subgroups
    && forall i :: 0 <= i < |s.subgroups| ==> |s.subgroups[i].metadata| <= lim.metadata
  }

  const NoCode: seq<Byte> := [0, 0, 0, 0, 0, 0, 0, 0, 0, 0, 0, 0, 0, 0, 0, 0]

  /** Without a code nobody reads: the writer skips it, the parser clears it. */
  function Normal(s: State): State { if s.encrypt == BAD_CODE then s else s.(badCode := NoCode) }

  // ---- the writer (bt_buf_put_recv_state) ----

  function EncodeSubgroup(g: Subgroup): seq<Byte>
    requires |g.metadata| < 256
  {
    ToLe32(g.bisSync) + [|g.metadata| as Byte] + g.metadata
  }

  function EncodeSubgroups(gs: seq<Subgroup>): seq<Byte>
    requires forall i :: 0 <= i < |gs| ==> |gs[i].metadata| < 256
  {
    if gs == [] then [] else EncodeSubgroup(gs[0]) + EncodeSubgroups(gs[1..])
  }

  function Head(s: State): seq<Byte> {
    [s.srcId, s.addrType] + s.addr + [s.advSid] + ToLe24(s.broadcastId) + [s.paSync, s.encrypt]
  }

  function Encode(s: State, lim: Limits): seq<Byte>
    requires InRange(s, lim)
  {
    Head(s) + (if s.encrypt == BAD_CODE then s.badCode else []) + [|s.subgroups| as Byte] + EncodeSubgroups(s.subgroups)
  }

  // ---- where every field stands ----

  /** Where subgroup `i` begins behind their number. */
  function Place(gs: seq<Subgroup>, i: nat): nat
    requires i <= |gs|
  {
    if i == 0 then 0 else 5 + |gs[0].metadata| + Place(gs[1..], i - 1)
  }

  /** BIS_Sync in four octets, the low one first, and the metadata behind their length. */
  predicate SubgroupStands(o: seq<Byte>, p: nat, g: Subgroup) {
    var n, m := g.bisSync, |g.metadata|;
    && m < 256
    && Stands(o, p, [n % 256, n / 256 % 256, n / 0x10000 % 256, n / 0x1000000, m])
    && Stands(o, p + 5, g.metadata)
  }

  lemma OneStands(g: Subgroup)
    requires |g.metadata| < 256
    ensures SubgroupStands(EncodeSubgroup(g), 0, g) && |EncodeSubgroup(g)| == 5 + |g.metadata|
  {
    LeastFirst(0, 0, g.bisSync);
    var n, m := g.bisSync, |g.metadata| as Byte;
    assert EncodeSubgroup(g) == [n % 256, n / 256 % 256, n / 0x10000 % 256, n / 0x1000000, m] + g.metadata;
  }

  lemma SubgroupBetween(a: seq<Byte>, o: seq<Byte>, rest: seq<Byte>, p: nat, g: Subgroup)
    requires SubgroupStands(o, p, g)
    ensures SubgroupStands(a + (o + rest), |a| + p, g)
  {
    var n, m := g.bisSync, |g.metadata| as Byte;
    StandsIn(a, o, rest, p, [n % 256, n / 256 % 256, n / 0x10000 % 256, n / 0x1000000, m]);
    StandsIn(a, o, rest, p + 5, g.metadata);
  }

  lemma {:induction false} SubgroupsStand(gs: seq<Subgroup>, i: nat)
    requires (forall j :: 0 <= j < |gs| ==> |gs[j].metadata| < 256) && i < |gs|
    ensures SubgroupStands(EncodeSubgroups(gs), Place(gs, i), gs[i])
  {
    hide SubgroupStands, EncodeSubgroup;
    var first, rest := EncodeSubgroup(gs[0]), EncodeSubgroups(gs[1..]);
    OneStands(gs[0]);
    if i == 0 {
      SubgroupBetween([], first, rest, 0, gs[0]);
      assert [] + (first + rest) == first + rest;
    } else {
      SubgroupsStand(gs[1..], i - 1);
      SubgroupBetween(first, rest, [], Place(gs[1..], i - 1), gs[i]);
      assert rest + [] == rest;
    }
  }

  lemma {:induction false} SubgroupsSize(gs: seq<Subgroup>)
    requires forall j :: 0 <= j < |gs| ==> |gs[j].metadata| < 256
    ensures |EncodeSubgroups(gs)| == Place(gs, |gs|)
  {
    if gs != [] {
      OneStands(gs[0]);
      SubgroupsSize(gs[1..]);
    }
  }

  /** What is notified of a source, octet by octet: its id, the type and the octets of its
      address, the set ID, the broadcast ID, the states of synchronisation and encryption,
      the bad code only in state 3, the number of subgroups, and each of them in its place. */
  lemma EncodedOctets(s: State, lim: Limits)
    requires InRange(s, lim)
    ensures
      var o, b, coded := Encode(s, lim), s.broadcastId, if s.encrypt == 3 then 16 else 0;
      && |o| == 15 + coded + Place(s.subgroups, |s.subgroups|)
      && o[0] == s.srcId && o[1] == s.addrType && o[2..8] == s.addr && o[8] == s.advSid
      && Stands(o, 9, [b % 256, b / 256 % 256, b / 0x10000, s.paSync, s.encrypt])
      && (s.encrypt == 3 ==> o[14..30] == s.badCode)
      && o[14 + coded] as int == |s.subgroups|
      && forall i :: 0 <= i < |s.subgroups| ==> SubgroupStands(o, 15 + coded + Place(s.subgroups, i), s.subgroups[i])
  {
    hide SubgroupStands, EncodeSubgroup, EncodeSubgroups, Place, Stands;
    var code, gs := if s.encrypt == 3 then s.badCode else [], EncodeSubgroups(s.subgroups);
    EncodedParts(s, lim);
    SubgroupsSize(s.subgroups);
    TailStands(Fixed(s), code, |s.subgroups| as Byte, gs);
    var head := Fixed(s) + code + [|s.subgroups| as Byte];
    forall i | 0 <= i < |s.subgroups| ensures SubgroupStands(Encode(s, lim), |head| + Place(s.subgroups, i), s.subgroups[i]) {
      SubgroupsStand(s.subgroups, i);
      SubgroupBetween(head, gs, [], Place(s.subgroups, i), s.subgroups[i]);
      assert head + (gs + []) == Encode(s, lim);
    }
    HeadStands(s, Encode(s, lim), code + [|s.subgroups| as Byte] + gs);
  }

  /** The fourteen octets that are always there. */
  function Fixed(s: State): seq<Byte> {
    var b := s.broadcastId;
    [s.srcId, s.addrType] + s.addr + [s.advSid, b % 256, b / 256 % 256, b / 0x10000, s.paSync, s.encrypt]
  }

  lemma EncodedParts(s: State, lim: Limits)
    requires InRange(s, lim)
    ensures
      var code, n := if s.encrypt == 3 then s.badCode else [], |s.subgroups| as Byte;
      && |Fixed(s)| == 14
      && Encode(s, lim) == Fixed(s) + code + [n] + EncodeSubgroups(s.subgroups)
      && Encode(s, lim) == Fixed(s) + (code + [n] + EncodeSubgroups(s.subgroups))
  {
    hide EncodeSubgroups;
    LeastFirst(0, s.broadcastId, 0);
    assert Head(s) == Fixed(s);
  }

  lemma TailStands(fixed: seq<Byte>, code: seq<Byte>, n: Byte, gs: seq<Byte>)
    requires |fixed| == 14
    ensures var o := fixed + code + [n] + gs;
            |o| == 15 + |code| + |gs| && o[14..14 + |code|] == code && o[14 + |code|] == n
  {}

  lemma HeadStands(s: State, o: seq<Byte>, rest: seq<Byte>)
    requires |s.addr| == 6 && o == Fixed(s) + rest
    ensures |o| >= 14 && o[0] == s.srcId && o[1] == s.addrType && o[2..8] == s.addr && o[8] == s.advSid
    ensures var b := s.broadcastId; Stands(o, 9, [b % 256, b / 256 % 256, b / 0x10000, s.paSync, s.encrypt])
  {}

  // ---- the parser (parse_recv_state) ----

  function ParseSubgroups(data: seq<Byte>, n: nat, lim: Limits): Option<seq<Subgroup>>
    decreases n
  {
    if n == 0 then if data == [] then Some([]) else None
    else if |data| < 5 then None
    else
      var m := data[4];
      if |data| - 5 < m || m > lim.metadata then None
      else
        var rest := ParseSubgroups(data[5 + m..], n - 1, lim);
        if rest == None then None
        else Some([Subgroup(FromLe32(data[..4]), data[5..5 + m])] + rest.value)
  }

  function ParseTail(s: State, data: seq<Byte>, lim: Limits): Parsed
    requires data != []
  {
    var n := data[0];
    if n > lim.subgroups then NoMem
    else
      var gs := ParseSubgroups(data[1..], n, lim);
      if gs == None then InvalidLen else Ok(s.(subgroups := gs.value))
  }

  function Parse(data: seq<Byte>, lim: Limits): Parsed {
    if |data| < MINIMUM_LEN then Inval
    else
      var s := State(data[0], data[1], data[2..8], data[8], FromLe24(data[9..12]), data[12], data[13], NoCode, []);
      if s.encrypt == BAD_CODE then
        if |data| - 14 < CODE_SIZE + 1 then InvalidLen
        else ParseTail(s.(badCode := data[14..][..CODE_SIZE]), data[14..][CODE_SIZE..], lim)
      else ParseTail(s, data[14..], lim)
  }

  // ---- the two undo each other ----

  lemma {:induction false} SubgroupsRoundTrip(gs: seq<Subgroup>, lim: Limits)
    requires forall i :: 0 <= i < |gs| ==> |gs[i].metadata| <= lim.metadata
    ensures ParseSubgroups(EncodeSubgroups(gs), |gs|, lim) == Some(gs)
  {
    if gs != [] {
      var g, e, rest := gs[0], EncodeSubgroup(gs[0]), EncodeSubgroups(gs[1..]);
      var m := |g.metadata|;
      Le32RoundTrip(g.bisSync);
      assert (e + rest)[..4] == ToLe32(g.bisSync);
      assert (e + rest)[5..5 + m] == g.metadata;
      assert (e + rest)[5 + m..] == rest;
      SubgroupsRoundTrip(gs[1..], lim);
      assert [g] + gs[1..] == gs;
    }
  }

  /** Octets the parser takes for subgroups are the octets the writer makes of them. */
  lemma {:induction false} SubgroupsCanonical(data: seq<Byte>, n: nat, lim: Limits)
    requires ParseSubgroups(data, n, lim) != None
    ensures
      var gs := ParseSubgroups(data, n, lim).value;
      && |gs| == n && (forall i :: 0 <= i < n ==> |gs[i].metadata| <= lim.metadata)
      && EncodeSubgroups(gs) == data
    decreases n
  {
    if n > 0 {
      var m, gs := data[4], ParseSubgroups(data, n, lim).value;
      SubgroupsCanonical(data[5 + m..], n - 1, lim);
      assert gs[1..] == ParseSubgroups(data[5 + m..], n - 1, lim).value;
      OneCanonical(data);
    }
  }

  lemma OneCanonical(data: seq<Byte>)
    requires |data| >= 5 && |data| - 5 >= data[4]
    ensures
      var m := data[4];
      EncodeSubgroup(Subgroup(FromLe32(data[..4]), data[5..5 + m])) + data[5 + m..] == data
  {
    Le32Canonical(data[..4]);
  }

  lemma HeadReads(s: State, rest: seq<Byte>)
    requires |s.addr| == 6
    ensures
      var d := Head(s) + rest;
      && |Head(s)| == 14 && d[14..] == rest
      && d[0] == s.srcId && d[1] == s.addrType && d[2..8] == s.addr && d[8] == s.advSid
      && d[9..12] == ToLe24(s.broadcastId) && d[12] == s.paSync && d[13] == s.encrypt
  {}

  /** Parsing what the writer wrote gives the state back. */
  lemma RoundTrip(s: State, lim: Limits)
    requires InRange(s, lim)
    ensures Parse(Encode(s, lim), lim) == Ok(Normal(s))
  {
    var tail := [|s.subgroups| as Byte] + EncodeSubgroups(s.subgroups);
    var code := if s.encrypt == BAD_CODE then s.badCode else [];
    EncodeParts(s, lim);
    HeadReads(s, code + tail);
    Le24RoundTrip(s.broadcastId);
    TailRoundTrip(Normal(s).(subgroups := []), s.subgroups, lim);
    CodeReads(code, tail);
  }

  lemma EncodeParts(s: State, lim: Limits)
    requires InRange(s, lim)
    ensures Encode(s, lim) == Head(s) + ((if s.encrypt == BAD_CODE then s.badCode else [])
                                         + ([|s.subgroups| as Byte] + EncodeSubgroups(s.subgroups)))
  {}

  lemma CodeReads(code: seq<Byte>, tail: seq<Byte>)
    ensures (code + tail)[..|code|] == code && (code + tail)[|code|..] == tail
  {}

  lemma TailRoundTrip(s: State, gs: seq<Subgroup>, lim: Limits)
    requires |gs| <= lim.subgroups && forall i :: 0 <= i < |gs| ==> |gs[i].metadata| <= lim.metadata
    ensures ParseTail(s, [|gs| as Byte] + EncodeSubgroups(gs), lim) == Ok(s.(subgroups := gs))
  {
    assert ([|gs| as Byte] + EncodeSubgroups(gs))[1..] == EncodeSubgroups(gs);
    SubgroupsRoundTrip(gs, lim);
  }

  lemma TailCanonical(s: State, data: seq<Byte>, lim: Limits)
    requires data != [] && ParseTail(s, data, lim).Ok?
    ensures
      var t := ParseTail(s, data, lim).state;
      && t == s.(subgroups := t.subgroups) && |t.subgroups| <= lim.subgroups
      && (forall i :: 0 <= i < |t.subgroups| ==> |t.subgroups[i].metadata| <= lim.metadata)
      && [|t.subgroups| as Byte] + EncodeSubgroups(t.subgroups) == data
  {
    var n: Byte := data[0];
    SubgroupsCanonical(data[1..], n, lim);
    assert data == [data[0]] + data[1..];
  }

  /** Whatever octets the parser accepts are exactly what the writer would have written
      for the state it reads, which is in range. */
  lemma Canonical(data: seq<Byte>, lim: Limits)
    requires Parse(data, lim).Ok?
    ensures var s := Parse(data, lim).state; InRange(s, lim) && s == Normal(s) && Encode(s, lim) == data
  {
    var s := Parse(data, lim).state;
    var rest := data[14..];
    var plain := State(data[0], data[1], data[2..8], data[8], FromLe24(data[9..12]), data[12], data[13], NoCode, []);
    if data[13] == BAD_CODE {
      TailCanonical(plain.(badCode := rest[..CODE_SIZE]), rest[CODE_SIZE..], lim);
      assert rest == rest[..CODE_SIZE] + rest[CODE_SIZE..];
    } else {
      TailCanonical(plain, rest, lim);
      assert rest == [] + rest;
    }
    Le24Canonical(data[9..12]);
    HeadIs(s, data);
    EncodeParts(s, lim);
    assert data == data[..14] + rest;
  }

  lemma HeadIs(s: State, data: seq<Byte>)
    requires |data| >= 14 && s.srcId == data[0] && s.addrType == data[1] && s.addr == data[2..8] && s.advSid == data[8]
    requires ToLe24(s.broadcastId) == data[9..12] && s.paSync == data[12] && s.encrypt == data[13]
    ensures Head(s) == data[..14]
  {}

  /** The parser accepts exactly what the writer can write. */
  lemma AcceptedExactly(data: seq<Byte>, lim: Limits)
    ensures Parse(data, lim).Ok? <==> exists s: State :: InRange(s, lim) && Encode(s, lim) == data
  {
    if Parse(data, lim).Ok? { Canonical(data, lim); }
    forall s: State | InRange(s, lim) && Encode(s, lim) == data ensures Parse(data, lim).Ok? { RoundTrip(s, lim); }
  }

  /** Which error the parser ends with: fewer octets than a state without subgroups has, more
      subgroups than are kept, or, where neither, octets that are no encoding. */
  lemma ErrorsExactly(data: seq<Byte>, lim: Limits)
    ensures
      var at := if |data| >= 15 && data[13] == 3 then 30 else 14;
      var many := |data| > at && data[at] > lim.subgroups;
      && (Parse(data, lim) == Inval <==> |data| < 15)
      && (Parse(data, lim) == NoMem <==> |data| >= 15 && many)
      && (Parse(data, lim) == InvalidLen <==>
            |data| >= 15 && !many && forall s: State :: InRange(s, lim) ==> Encode(s, lim) != data)
  {
    AcceptedExactly(data, lim);
  }
}
