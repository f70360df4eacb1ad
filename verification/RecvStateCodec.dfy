/** The two routines themselves, over the simple buffer they move through. */
module RecvStateCodec {
  import opened Prelude
  import opened RecvState
  import opened SimpleBuf

  /** bt_buf_put_recv_state: an inactive state is written as nothing. */
  method PutRecvState(buf: Buffer, active: bool, s: State, lim: Limits)
    requires InRange(s, lim) && |Encode(s, lim)| <= buf.storage.Length
    modifies buf, buf.storage
    ensures buf.Valid() && buf.Contents() == if active then Encode(s, lim) else []
  {
    hide EncodeSubgroups, EncodeSubgroup;
    buf.Reset();
    if !active {
      return;
    }
    PutHead(buf, s);
    if s.encrypt == BAD_CODE {
      buf.AddMem(s.badCode);
    }
    buf.AddU8(|s.subgroups|);
    ghost var before := buf.Contents();
    var i := 0;
    while i < |s.subgroups|
      invariant i <= |s.subgroups| && buf.Valid() && buf.head == 0
      invariant buf.Contents() + EncodeSubgroups(s.subgroups[i..]) == before + EncodeSubgroups(s.subgroups)
    {
      PutOneMore(buf.Contents(), s.subgroups, i);
      PutSubgroup(buf, s.subgroups[i]);
      i := i + 1;
    }
    PutAll(buf.Contents(), s.subgroups, i);
  }

  lemma PutAll(done: seq<Byte>, gs: seq<Subgroup>, i: nat)
    requires i == |gs|
    ensures gs[i..] == [] && done + EncodeSubgroups(gs[i..]) == done
  {}

  lemma PutOneMore(done: seq<Byte>, gs: seq<Subgroup>, i: nat)
    requires i < |gs| && forall j :: 0 <= j < |gs| ==> |gs[j].metadata| < 256
    ensures done + EncodeSubgroups(gs[i..]) == done + EncodeSubgroup(gs[i]) + EncodeSubgroups(gs[i + 1..])
  {
    assert gs[i..][1..] == gs[i + 1..];
  }

  lemma ThreeOctets(v: Word24)
    ensures |ToLe24(v)| == 3
  {}

  method PutHead(buf: Buffer, s: State)
    requires buf.Valid() && buf.head == 0 && buf.len == 0 && |s.addr| == 6 && 14 <= buf.storage.Length
    modifies buf, buf.storage
    ensures buf.Valid() && buf.head == 0 && buf.Contents() == Head(s)
  {
    hide ToLe24;
    buf.AddU8(s.srcId);
    buf.AddU8(s.addrType);
    buf.AddMem(s.addr);
    assert buf.Contents() == [s.srcId, s.addrType] + s.addr;
    buf.AddU8(s.advSid);
    ThreeOctets(s.broadcastId);
    buf.AddMem(ToLe24(s.broadcastId));
    buf.AddU8(s.paSync);
    buf.AddU8(s.encrypt);
  }

  method PutSubgroup(buf: Buffer, g: Subgroup)
    requires |g.metadata| < 256
    requires buf.Valid() && buf.head + buf.len + |EncodeSubgroup(g)| <= buf.storage.Length
    modifies buf, buf.storage
    ensures buf.Valid() && buf.head == old(buf.head) && buf.Contents() == old(buf.Contents()) + EncodeSubgroup(g)
  {
    buf.AddMem(ToLe32(g.bisSync));
    buf.AddU8(|g.metadata|);
    buf.AddMem(g.metadata);
  }

  /** parse_recv_state */
  method ParseRecvState(buf: Buffer, lim: Limits) returns (parsed: Parsed)
    requires buf.Valid()
    modifies buf
    ensures parsed == Parse(old(buf.Contents()), lim)
  {
    if buf.len < MINIMUM_LEN {
      return Inval;
    }
    ghost var data := buf.Contents();
    var s := PullHead(buf);
    assert buf.Contents() == data[14..];
    if s.encrypt == BAD_CODE {
      if buf.len < CODE_SIZE + 1 {
        return InvalidLen;
      }
      var code := buf.PullMem(CODE_SIZE);
      s := s.(badCode := code);
    }
    parsed := ParseRest(buf, s, lim);
  }

  method PullHead(buf: Buffer) returns (s: State)
    requires buf.Valid() && buf.len >= 14
    modifies buf
    ensures buf.Valid() && buf.Contents() == old(buf.Contents())[14..]
    ensures var d := old(buf.Contents());
            s == State(d[0], d[1], d[2..8], d[8], FromLe24(d[9..12]), d[12], d[13], NoCode, [])
  {
    ghost var d := buf.Contents();
    var srcId, addrType, addr := PullAddress(buf);
    ghost var e := buf.Contents();
    var advSid := buf.PullU8();
    var broadcastId := buf.PullMem(3);
    assert broadcastId == d[9..12] && buf.Contents() == e[4..];
    var paSync := buf.PullU8();
    var encrypt := buf.PullU8();
    assert buf.Contents() == e[6..] == d[14..];
    s := State(srcId, addrType, addr, advSid, FromLe24(broadcastId), paSync, encrypt, NoCode, []);
  }

  method PullAddress(buf: Buffer) returns (srcId: Byte, addrType: Byte, addr: seq<Byte>)
    requires buf.Valid() && buf.len >= 8
    modifies buf
    ensures buf.Valid() && buf.Contents() == old(buf.Contents())[8..]
    ensures srcId == old(buf.Contents())[0] && addrType == old(buf.Contents())[1] && addr == old(buf.Contents())[2..8]
  {
    ghost var d := buf.Contents();
    srcId := buf.PullU8();
    addrType := buf.PullU8();
    assert buf.Contents() == d[2..];
    addr := buf.PullMem(6);
  }

  /** From the number of subgroups on. */
  method ParseRest(buf: Buffer, s: State, lim: Limits) returns (parsed: Parsed)
    requires buf.Valid() && buf.len >= 1
    modifies buf
    ensures parsed == ParseTail(s, old(buf.Contents()), lim)
  {
    var n := buf.PullU8();
    if n > lim.subgroups {
      return NoMem;
    }
    var gs := PullSubgroups(buf, n, lim);
    parsed := if gs == None then InvalidLen else Ok(s.(subgroups := gs.value));
  }

  method PullSubgroups(buf: Buffer, n: Byte, lim: Limits) returns (res: Option<seq<Subgroup>>)
    requires buf.Valid()
    modifies buf
    ensures res == ParseSubgroups(old(buf.Contents()), n, lim)
  {
    ghost var all := ParseSubgroups(buf.Contents(), n, lim);
    ghost var left := all;
    var gs: seq<Subgroup> := [];
    BehindNothing(all);
    var i := 0;
    while i < n
      invariant i <= n && buf.Valid()
      invariant all == Behind(gs, left) && left == ParseSubgroups(buf.Contents(), n - i, lim)
    {
      var g;
      ghost var after;
      g, after := PullSubgroup(buf, lim, n - i, left);
      if g == None {
        return None;
      }
      BehindOne(gs, g.value, after);
      gs, left := gs + [g.value], after;
      i := i + 1;
    }
    NothingLeft(gs, buf.Contents(), lim);
    res := if buf.len != 0 then None else Some(gs);
  }

  lemma NothingLeft(gs: seq<Subgroup>, data: seq<Byte>, lim: Limits)
    ensures Behind(gs, ParseSubgroups(data, 0, lim)) == if |data| != 0 then None else Some(gs)
  {
    assert gs + [] == gs;
  }

  function Behind(gs: seq<Subgroup>, rest: Option<seq<Subgroup>>): Option<seq<Subgroup>> {
    if rest == None then None else Some(gs + rest.value)
  }

  lemma BehindNothing(rest: Option<seq<Subgroup>>)
    ensures Behind([], rest) == rest
  {
    if rest != None { assert [] + rest.value == rest.value; }
  }

  lemma BehindOne(gs: seq<Subgroup>, g: Subgroup, rest: Option<seq<Subgroup>>)
    ensures Behind(gs, Behind([g], rest)) == Behind(gs + [g], rest)
  {
    if rest != None { assert gs + ([g] + rest.value) == gs + [g] + rest.value; }
  }

  lemma SubgroupReads(data: seq<Byte>, n: nat, lim: Limits)
    ensures ParseSubgroups(data, n + 1, lim) ==
            if |data| < 5 || |data| - 5 < data[4] || data[4] > lim.metadata then None
            else Behind([Subgroup(FromLe32(data[..4]), data[5..5 + data[4]])], ParseSubgroups(data[5 + data[4]..], n, lim))
  {}

  /** One subgroup; None where the source gives up. */
  method PullSubgroup(buf: Buffer, lim: Limits, ghost n: nat, ghost left: Option<seq<Subgroup>>)
    returns (g: Option<Subgroup>, ghost after: Option<seq<Subgroup>>)
    requires buf.Valid() && n > 0 && left == ParseSubgroups(buf.Contents(), n, lim)
    modifies buf
    ensures buf.Valid() && after == ParseSubgroups(buf.Contents(), n - 1, lim)
    ensures left == if g == None then None else Behind([g.value], after)
  {
    ghost var data := buf.Contents();
    SubgroupReads(data, n - 1, lim);
    g := PullOne(buf, lim);
    after := ParseSubgroups(buf.Contents(), n - 1, lim);
  }

  method PullOne(buf: Buffer, lim: Limits) returns (g: Option<Subgroup>)
    requires buf.Valid()
    modifies buf
    ensures buf.Valid()
    ensures var data := old(buf.Contents());
            if |data| < 5 || |data| - 5 < data[4] || data[4] > lim.metadata then g == None
            else g == Some(Subgroup(FromLe32(data[..4]), data[5..5 + data[4]])) && buf.Contents() == data[5 + data[4]..]
  {
    ghost var data := buf.Contents();
    if buf.len < 4 {
      return None;
    }
    var bisSync := buf.PullMem(4);
    if buf.len < 1 {
      return None;
    }
    var m := buf.PullU8();
    if buf.len < m {
      return None;
    }
    if m > lim.metadata {
      return None;
    }
    var metadata := buf.PullMem(m);
    assert metadata == data[5..5 + m] && buf.Contents() == data[5 + m..];
    g := Some(Subgroup(FromLe32(bisSync), metadata));
  }
}
