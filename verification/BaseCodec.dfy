/** encode_base and bap_base.c themselves, over the simple buffer they move through. */
module BaseCodec {
  import opened Prelude
  import opened BaseSpec
  import opened BaseSource
  import opened SimpleBuf

  // ---- the writer (bap_broadcast_source.c) ----

  lemma NextGroup(gs: seq<Group>, i: nat, data: seq<Value>, from: nat)
    requires i < |gs| && from + Streams(gs[i..]) <= |data| <= MAX_BIS
    ensures Streams(gs[i..]) == gs[i].streams + Streams(gs[i + 1..])
    ensures DescribeGroups(gs[i..], data, from) ==
            [DescribeGroup(gs[i], data, from)] + DescribeGroups(gs[i + 1..], data, from + gs[i].streams)
    ensures SubgroupsOctets(DescribeGroups(gs[i..], data, from)) ==
            SubgroupOctets(DescribeGroup(gs[i], data, from))
            + SubgroupsOctets(DescribeGroups(gs[i + 1..], data, from + gs[i].streams))
  {
    assert gs[i..][1..] == gs[i + 1..];
    var g, rest := DescribeGroup(gs[i], data, from), DescribeGroups(gs[i + 1..], data, from + gs[i].streams);
    assert ([g] + rest)[1..] == rest;
  }

  lemma GroupEncodes(g: Subgroup, rest: seq<Subgroup>, room: nat)
    ensures EncodeSubgroups([g] + rest, room) ==
            var e := EncodeSubgroup(g, room); if e.Done? then EncodeSubgroups(rest, e.spare) else e
  {
    assert ([g] + rest)[1..] == rest;
  }

  /** What is still to be encoded of `src` from subgroup `i` on. */
  ghost function Pending(src: Source, i: nat, from: nat): seq<Subgroup>
    requires i <= |src.groups| && from + Streams(src.groups[i..]) == |src.data| <= MAX_BIS
    ensures Counted(Pending(src, i, from))
  {
    DescribeGroups(src.groups[i..], src.data, from)
  }

  /** One round of the loop of encode_base. */
  method PutNext(buf: Buffer, src: Source, i: nat, from: nat) returns (ended: Ended)
    requires buf.Valid() && buf.head == 0 && i < |src.groups| && from + Streams(src.groups[i..]) == |src.data| <= MAX_BIS
    modifies buf, buf.storage
    ensures buf.Valid() && buf.head == 0
    ensures src.groups[i].streams + Streams(src.groups[i + 1..]) == Streams(src.groups[i..])
    ensures var all := old(buf.Contents()) + SubgroupsOctets(Pending(src, i, from));
            && buf.Contents() <= all
            && (ended.Done? ==>
                  all == buf.Contents() + SubgroupsOctets(Pending(src, i + 1, from + src.groups[i].streams)))
    ensures EncodeSubgroups(Pending(src, i, from), buf.storage.Length - old(buf.len)) ==
            if ended.Done?
            then EncodeSubgroups(Pending(src, i + 1, from + src.groups[i].streams), buf.storage.Length - buf.len)
            else ended
  {
    NextGroup(src.groups, i, src.data, from);
    ghost var g := DescribeGroup(src.groups[i], src.data, from);
    ghost var rest := Pending(src, i + 1, from + src.groups[i].streams);
    GroupEncodes(g, rest, buf.storage.Length - buf.len);
    Glue(buf.Contents(), SubgroupOctets(g), SubgroupsOctets(rest));
    ended := PutSubgroup(buf, src.groups[i], src.data, from);
  }

  /** encode_base; a refusal leaves a beginning of the announcement in the buffer. */
  method EncodeBase(buf: Buffer, src: Source) returns (ended: Ended)
    requires buf.Valid() && buf.head == 0 && Created(src)
    modifies buf, buf.storage
    ensures buf.Valid() && ended == Encode(Describe(src), buf.storage.Length - old(buf.len))
    ensures var all := old(buf.Contents()) + (ToLe16(BASIC_AUDIO_UUID) + BaseOctets(Describe(src)));
            buf.Contents() <= all && (ended.Done? ==> buf.Contents() == all)
  {
    hide SubgroupsOctets, EncodeSubgroups, BaseOctets;
    ghost var b := Describe(src);
    ghost var room := buf.storage.Length - buf.len;
    if buf.storage.Length - buf.len < BASE_MIN_SIZE {
      return NoRoom;
    }
    PutHead(buf, src);
    ended := PutSubgroups(buf, src);
  }

  /** The loop of encode_base. */
  method PutSubgroups(buf: Buffer, src: Source) returns (ended: Ended)
    requires buf.Valid() && buf.head == 0 && Created(src)
    modifies buf, buf.storage
    ensures buf.Valid() && ended == EncodeSubgroups(Describe(src).subgroups, buf.storage.Length - old(buf.len))
    ensures var all := old(buf.Contents()) + SubgroupsOctets(Describe(src).subgroups);
            buf.Contents() <= all && (ended.Done? ==> buf.Contents() == all)
  {
    hide SubgroupOctets;
    assert src.groups[0..] == src.groups;
    ghost var all := buf.Contents() + SubgroupsOctets(Pending(src, 0, 0));
    ghost var whole := EncodeSubgroups(Pending(src, 0, 0), buf.storage.Length - buf.len);
    var encoded: nat, i := 0, 0;
    while i < |src.groups|
      invariant i <= |src.groups| && buf.Valid() && buf.head == 0
      invariant encoded + Streams(src.groups[i..]) == |src.data|
      invariant all == buf.Contents() + SubgroupsOctets(Pending(src, i, encoded))
      invariant whole == EncodeSubgroups(Pending(src, i, encoded), buf.storage.Length - buf.len)
    {
      ended := PutNext(buf, src, i, encoded);
      if !ended.Done? {
        return;
      }
      encoded := encoded + src.groups[i].streams;
      i := i + 1;
    }
    ended := Done(buf.storage.Length - buf.len);
  }

  method PutHead(buf: Buffer, src: Source)
    requires buf.Valid() && buf.head == 0 && Created(src) && buf.storage.Length - buf.len >= 6
    modifies buf, buf.storage
    ensures buf.Valid() && buf.head == 0
    ensures buf.Contents() + SubgroupsOctets(Describe(src).subgroups) ==
            old(buf.Contents()) + (ToLe16(BASIC_AUDIO_UUID) + BaseOctets(Describe(src)))
    ensures buf.len == old(buf.len) + 6
  {
    hide SubgroupsOctets;
    buf.AddMem(ToLe16(BASIC_AUDIO_UUID));
    buf.AddMem(ToLe24(src.pd));
    buf.AddU8(|src.groups|);
  }

  /** What encode_base_subgroup adds before its first check. */
  function FixedOctets(g: Subgroup): (o: seq<Byte>)
    requires |g.bises| < 256
    ensures |o| == SUBGROUP_FIXED
  {
    [|g.bises| as Byte] + CodecOctets(g.codec) + [|g.config| as Byte]
  }

  lemma SubgroupParts(g: Subgroup)
    requires |g.bises| < 256
    ensures SubgroupOctets(g) ==
            FixedOctets(g) + (g.config + ([|g.meta| as Byte] + (g.meta + BisesOctets(g.bises))))
  {
    var m := g.meta + BisesOctets(g.bises);
    Glue([|g.meta| as Byte], g.meta, BisesOctets(g.bises));
    var c := g.config + ([|g.meta| as Byte] + m);
    Glue([|g.config| as Byte], g.config, [|g.meta| as Byte] + m);
    Glue(CodecOctets(g.codec), [|g.config| as Byte], c);
    Glue([|g.bises| as Byte], CodecOctets(g.codec), [|g.config| as Byte] + c);
    Glue([|g.bises| as Byte] + CodecOctets(g.codec), [|g.config| as Byte], c);
  }

  /** encode_base_subgroup */
  method PutSubgroup(buf: Buffer, g: Group, data: seq<Value>, from: nat) returns (ended: Ended)
    requires buf.Valid() && buf.head == 0 && from + g.streams <= |data| <= MAX_BIS
    modifies buf, buf.storage
    ensures buf.Valid() && buf.head == 0
    ensures ended == EncodeSubgroup(DescribeGroup(g, data, from), buf.storage.Length - old(buf.len))
    ensures var all := old(buf.Contents()) + SubgroupOctets(DescribeGroup(g, data, from));
            buf.Contents() <= all && (ended.Done? ==> buf.Contents() == all && ended.spare == buf.storage.Length - buf.len)
  {
    if buf.storage.Length - buf.len < SUBGROUP_FIXED {
      return Overran;
    }
    ghost var d := DescribeGroup(g, data, from);
    ghost var bs := BisesOctets(d.bises);
    SubgroupParts(d);
    Glue(buf.Contents(), FixedOctets(d), g.config + ([|g.meta| as Byte] + (g.meta + bs)));
    PutFixed(buf, g, data, from);
    var fits := PutHeader(buf, g, bs);
    if !fits {
      return NoRoom;
    }
    ended := PutBises(buf, data, from, g.streams);
  }

  method PutFixed(buf: Buffer, g: Group, ghost data: seq<Value>, ghost from: nat)
    requires buf.Valid() && buf.head == 0 && from + g.streams <= |data| <= MAX_BIS
    requires buf.storage.Length - buf.len >= SUBGROUP_FIXED
    modifies buf, buf.storage
    ensures buf.Valid() && buf.head == 0
    ensures buf.Contents() == old(buf.Contents()) + FixedOctets(DescribeGroup(g, data, from))
  {
    buf.AddU8(g.streams);
    buf.AddU8(g.codec.id);
    buf.AddMem(ToLe16(g.codec.cid));
    buf.AddMem(ToLe16(g.codec.vid));
    buf.AddU8(|g.config|);
  }

  /** Configuration, length of the metadata, metadata; `bs` is to follow. */
  method PutHeader(buf: Buffer, g: Group, ghost bs: seq<Byte>) returns (fits: bool)
    requires buf.Valid() && buf.head == 0
    modifies buf, buf.storage
    ensures buf.Valid() && buf.head == 0
    ensures fits <==> buf.storage.Length - old(buf.len) >= |g.config| + 1 + |g.meta|
    ensures fits ==> buf.len == old(buf.len) + |g.config| + 1 + |g.meta|
    ensures var all := old(buf.Contents()) + (g.config + ([|g.meta| as Byte] + (g.meta + bs)));
            buf.Contents() <= all && (fits ==> buf.Contents() + bs == all)
  {
    ghost var behind := [|g.meta| as Byte] + (g.meta + bs);
    Glue(buf.Contents(), g.config, behind);
    if buf.storage.Length - buf.len < |g.config| {
      return false;
    }
    buf.AddMem(g.config);
    Glue(buf.Contents(), [|g.meta| as Byte], g.meta + bs);
    if buf.storage.Length - buf.len < 1 {
      return false;
    }
    buf.AddU8(|g.meta|);
    Glue(buf.Contents(), g.meta, bs);
    if buf.storage.Length - buf.len < |g.meta| {
      return false;
    }
    buf.AddMem(g.meta);
    fits := true;
  }

  method PutBises(buf: Buffer, data: seq<Value>, from: nat, n: nat) returns (ended: Ended)
    requires buf.Valid() && buf.head == 0 && from + n <= |data| <= MAX_BIS
    modifies buf, buf.storage
    ensures buf.Valid() && buf.head == 0
    ensures ended == EncodeBises(Number(data, from, n), buf.storage.Length - old(buf.len))
    ensures var all := old(buf.Contents()) + BisesOctets(Number(data, from, n));
            buf.Contents() <= all && (ended.Done? ==> buf.Contents() == all && ended.spare == buf.storage.Length - buf.len)
  {
    ghost var all := buf.Contents() + BisesOctets(Number(data, from, n));
    ghost var room := buf.storage.Length - buf.len;
    var j := 0;
    while j < n
      invariant j <= n && buf.Valid() && buf.head == 0
      invariant all == buf.Contents() + BisesOctets(Number(data, from + j, n - j))
      invariant EncodeBises(Number(data, from, n), room) ==
                EncodeBises(Number(data, from + j, n - j), buf.storage.Length - buf.len)
    {
      NextBis(buf.Contents(), data, from + j, n - j);
      var fits := PutBis(buf, from + j + 1, data[from + j]);
      if !fits {
        return NoRoom;
      }
      j := j + 1;
    }
    ended := Done(buf.storage.Length - buf.len);
  }

  /** One round of it. */
  method PutBis(buf: Buffer, index: Byte, value: Value) returns (fits: bool)
    requires buf.Valid() && buf.head == 0
    modifies buf, buf.storage
    ensures buf.Valid() && buf.head == 0
    ensures fits <==> buf.storage.Length - old(buf.len) >= 2 + |value|
    ensures var all := old(buf.Contents()) + [index] + [|value| as Byte] + value;
            buf.Contents() <= all && (fits ==> buf.Contents() == all)
  {
    if buf.storage.Length - buf.len < 2 {
      return false;
    }
    buf.AddU8(index);
    if buf.storage.Length - buf.len < 1 {
      return false;
    }
    buf.AddU8(|value|);
    if buf.storage.Length - buf.len < |value| {
      return false;
    }
    buf.AddMem(value);
    return true;
  }

  lemma NextBis(was: seq<Byte>, data: seq<Value>, from: nat, n: nat)
    requires n > 0 && from + n <= |data| <= MAX_BIS
    ensures Number(data, from, n)[0] == Bis(from + 1, data[from])
    ensures Number(data, from, n)[1..] == Number(data, from + 1, n - 1)
    ensures was + BisesOctets(Number(data, from, n)) ==
            was + [(from + 1) as Byte] + [|data[from]| as Byte] + data[from] + BisesOctets(Number(data, from + 1, n - 1))
  {
    assert Number(data, from, n)[1..] == Number(data, from + 1, n - 1);
  }

  // ---- pulling (bap_base.c) ----

  /** check_pull_ltv */
  method CheckPullLtv(buf: Buffer) returns (ok: bool)
    requires buf.Valid()
    modifies buf
    ensures buf.Valid() && (ok <==> PullLtv(old(buf.Contents())).Got?)
    ensures ok ==> buf.Contents() == PullLtv(old(buf.Contents())).rest
  {
    if buf.len < 1 {
      return false;
    }
    ghost var d := buf.Contents();
    var n := buf.PullU8();
    if buf.len < n {
      return false;
    }
    var v := buf.PullMem(n);
    assert d[1..][n..] == d[1 + n..];
    ok := true;
  }

  /** base_pull_ltv */
  method PullValue(buf: Buffer) returns (v: Value)
    requires buf.Valid() && PullLtv(buf.Contents()).Got?
    modifies buf
    ensures buf.Valid() && Got(v, buf.Contents()) == PullLtv(old(buf.Contents()))
    ensures buf.head == old(buf.head) + 1 + |v| && buf.len == old(buf.len) - 1 - |v|
  {
    ghost var d := buf.Contents();
    var n := buf.PullU8();
    v := buf.PullMem(n);
    assert v == d[1..1 + n] && d[1..][n..] == d[1 + n..];
  }

  /** base_pull_codec_id */
  method PullCodecId(buf: Buffer) returns (c: CodecId)
    requires buf.Valid() && buf.len >= 5
    modifies buf
    ensures buf.Valid() && Got(c, buf.Contents()) == PullCodec(old(buf.Contents()))
    ensures buf.head == old(buf.head) + 5 && buf.len == old(buf.len) - 5
  {
    ghost var d := buf.Contents();
    var id := buf.PullU8();
    var cid := buf.PullMem(2);
    var vid := buf.PullMem(2);
    assert cid == d[1..3] && vid == d[3..5] && buf.Contents() == d[5..];
    c := CodecId(id, Le16(cid[0], cid[1]), Le16(vid[0], vid[1]));
  }

  // ---- the validator ----

  ghost predicate GoodBises(p: Pulled<seq<Bis>>) {
    p.Got? && forall j :: 0 <= j < |p.value| ==> 1 <= p.value[j].index <= MAX_BIS
  }

  lemma NextBisGood(d: seq<Byte>, n: nat)
    requires n > 0
    ensures GoodBises(PullBises(d, n)) <==>
            d != [] && 1 <= d[0] <= MAX_BIS && PullLtv(d[1..]).Got? && GoodBises(PullBises(PullLtv(d[1..]).rest, n - 1))
    ensures GoodBises(PullBises(d, n)) ==> PullBises(d, n).rest == PullBises(PullLtv(d[1..]).rest, n - 1).rest
  {
    var b := PullBis(d);
    if b.Got? {
      var bs := PullBises(b.rest, n - 1);
      if bs.Got? {
        var all := [b.value] + bs.value;
        assert all[0] == b.value && forall j :: 0 <= j < |bs.value| ==> all[j + 1] == bs.value[j];
      }
    }
  }

  method CheckBises(buf: Buffer, n: Byte) returns (ok: bool)
    requires buf.Valid()
    modifies buf
    ensures buf.Valid() && (ok <==> GoodBises(PullBises(old(buf.Contents()), n)))
    ensures ok ==> buf.Contents() == PullBises(old(buf.Contents()), n).rest
  {
    ghost var d := buf.Contents();
    var j := 0;
    while j < n
      invariant j <= n && buf.Valid()
      invariant GoodBises(PullBises(d, n)) <==> GoodBises(PullBises(buf.Contents(), n - j))
      invariant GoodBises(PullBises(d, n)) ==> PullBises(d, n).rest == PullBises(buf.Contents(), n - j).rest
    {
      NextBisGood(buf.Contents(), n - j);
      if buf.len < 1 {
        return false;
      }
      var index := buf.PullU8();
      if !(1 <= index <= MAX_BIS) {
        return false;
      }
      var pulled := CheckPullLtv(buf);
      if !pulled {
        return false;
      }
      j := j + 1;
    }
    ok := true;
  }

  ghost predicate GoodSubgroup(p: Pulled<Subgroup>) { p.Got? && SubgroupInRange(p.value) }

  method CheckHeader(buf: Buffer) returns (ok: bool)
    requires buf.Valid()
    modifies buf
    ensures buf.Valid() && (ok <==> PullHeader(old(buf.Contents())).Got?)
    ensures ok ==> buf.Contents() == PullHeader(old(buf.Contents())).rest
  {
    if buf.len < 5 {
      return false;
    }
    var c := PullCodecId(buf);
    ok := CheckPullLtv(buf);
    if ok {
      ok := CheckPullLtv(buf);
    }
  }

  lemma SubgroupGood(d: seq<Byte>)
    requires d != []
    ensures GoodSubgroup(PullSubgroup(d)) <==>
            1 <= d[0] <= MAX_BIS && PullHeader(d[1..]).Got? && GoodBises(PullBises(PullHeader(d[1..]).rest, d[0]))
    ensures GoodSubgroup(PullSubgroup(d)) ==> PullSubgroup(d).rest == PullBises(PullHeader(d[1..]).rest, d[0]).rest
  {
    if PullSubgroup(d).Got? { SubgroupCanonical(d); }
    if PullHeader(d[1..]).Got? && PullBises(PullHeader(d[1..]).rest, d[0]).Got? {
      BisesCanonical(PullHeader(d[1..]).rest, d[0]);
    }
  }

  /** One round of the validator's loop. */
  method CheckSubgroup(buf: Buffer) returns (ok: bool)
    requires buf.Valid()
    modifies buf
    ensures buf.Valid() && (ok <==> GoodSubgroup(PullSubgroup(old(buf.Contents()))))
    ensures ok ==> buf.Contents() == PullSubgroup(old(buf.Contents())).rest
  {
    if buf.len < 1 {
      return false;
    }
    SubgroupGood(buf.Contents());
    var n := buf.PullU8();
    if !(1 <= n <= MAX_BIS) {
      return false;
    }
    ok := CheckCounted(buf, n);
  }

  method CheckCounted(buf: Buffer, n: Byte) returns (ok: bool)
    requires buf.Valid()
    modifies buf
    ensures buf.Valid()
    ensures var h := PullHeader(old(buf.Contents()));
            && (ok <==> h.Got? && GoodBises(PullBises(h.rest, n)))
            && (ok ==> buf.Contents() == PullBises(h.rest, n).rest)
  {
    ok := CheckHeader(buf);
    if ok {
      ok := CheckBises(buf, n);
    }
  }

  ghost predicate GoodSubgroups(d: seq<Byte>, n: nat) {
    var p := PullSubgroups(d, n);
    p.Got? && forall i :: 0 <= i < |p.value| ==> SubgroupInRange(p.value[i])
  }

  lemma NextSubgroupGood(d: seq<Byte>, n: nat)
    requires n > 0
    ensures GoodSubgroups(d, n) <==>
            GoodSubgroup(PullSubgroup(d)) && GoodSubgroups(PullSubgroup(d).rest, n - 1)
  {
    var g := PullSubgroup(d);
    if g.Got? {
      var gs := PullSubgroups(g.rest, n - 1);
      if gs.Got? {
        var all := [g.value] + gs.value;
        assert all[0] == g.value && forall j :: 0 <= j < |gs.value| ==> all[j + 1] == gs.value[j];
      }
    }
  }

  /** bt_bap_base_get_base_from_ad */
  method Validate(adType: Byte, buf: Buffer) returns (ok: bool)
    requires buf.Valid()
    modifies buf
    ensures ok <==> Accept(adType, old(buf.Contents())).Some?
  {
    if adType != SVC_DATA16 {
      return false;
    }
    if buf.len < BASE_MIN_SIZE {
      return false;
    }
    CountIs(buf.Contents()[2..]);
    var uuid := buf.PullMem(2);
    if uuid != ToLe16(BASIC_AUDIO_UUID) {
      return false;
    }
    var pd, count := PullBaseHead(buf);
    if !(1 <= count <= SUBGROUP_MAX_COUNT) {
      return false;
    }
    ok := CheckSubgroups(buf, count);
  }

  method PullBaseHead(buf: Buffer) returns (pd: Word24, count: Byte)
    requires buf.Valid() && buf.len >= 4
    modifies buf
    ensures buf.Valid() && buf.Contents() == old(buf.Contents())[4..] && buf.head == old(buf.head) + 4
    ensures buf.len == old(buf.len) - 4
    ensures pd == FromLe24(old(buf.Contents())[..3]) && count == old(buf.Contents())[3]
  {
    ghost var d := buf.Contents();
    var o := buf.PullMem(3);
    count := buf.PullU8();
    pd := FromLe24(o);
    assert d[3..][1..] == d[4..];
  }

  method CheckSubgroups(buf: Buffer, n: Byte) returns (ok: bool)
    requires buf.Valid()
    modifies buf
    ensures ok <==> GoodSubgroups(old(buf.Contents()), n)
  {
    hide GoodSubgroups;
    ghost var all := GoodSubgroups(buf.Contents(), n);
    ghost var left, k: nat := all, n;
    var i := 0;
    while i < n
      invariant i <= n && k == n - i && buf.Valid()
      invariant all == left && left == GoodSubgroups(buf.Contents(), k)
    {
      ok, left := CheckNext(buf, k, left);
      if !ok {
        return;
      }
      i, k := i + 1, k - 1;
    }
    NoneGood(buf.Contents());
    ok := true;
  }

  lemma NoneGood(d: seq<Byte>)
    ensures GoodSubgroups(d, 0)
  {}

  method CheckNext(buf: Buffer, ghost n: nat, ghost left: bool) returns (ok: bool, ghost after: bool)
    requires buf.Valid() && n > 0 && left == GoodSubgroups(buf.Contents(), n)
    modifies buf
    ensures buf.Valid() && after == GoodSubgroups(buf.Contents(), n - 1)
    ensures left <==> ok && after
  {
    NextSubgroupGood(buf.Contents(), n);
    ok := CheckSubgroup(buf);
    after := GoodSubgroups(buf.Contents(), n - 1);
  }

  lemma CountIs(d: seq<Byte>)
    requires |d| >= 4
    ensures PullBase(d).Got? <==> PullSubgroups(d[4..], d[3]).Got?
    ensures PullBase(d).Got? ==>
              && |PullBase(d).value.subgroups| == d[3]
              && PullBase(d).value.subgroups == PullSubgroups(d[4..], d[3]).value
  {
    if PullBase(d).Got? { SubgroupsCanonical(d[4..], d[3], PullBase(d).value.subgroups, PullBase(d).rest); }
  }

  // ---- the walkers ----

  lemma NextBisRest(d: seq<Byte>, n: nat)
    requires n > 0 && PullBises(d, n).Got?
    ensures d != [] && PullLtv(d[1..]).Got? && PullBises(PullLtv(d[1..]).rest, n - 1).Got?
    ensures PullBises(d, n).rest == PullBises(PullLtv(d[1..]).rest, n - 1).rest
    ensures PullBises(d, n).value ==
            [Bis(d[0], PullLtv(d[1..]).value)] + PullBises(PullLtv(d[1..]).rest, n - 1).value
  {}

  /** Pulls one BIS. */
  method PullOneBis(buf: Buffer) returns (b: Bis)
    requires buf.Valid() && PullBis(buf.Contents()).Got?
    modifies buf
    ensures buf.Valid() && Got(b, buf.Contents()) == PullBis(old(buf.Contents()))
    ensures buf.head == old(buf.head) + 2 + |b.data| && buf.len == old(buf.len) - 2 - |b.data|
  {
    var index := buf.PullU8();
    var data := PullValue(buf);
    b := Bis(index, data);
  }

  /** The part of a walk that moves past the BISes of a subgroup; `size` is what
      bt_bap_base_get_size adds for them. */
  method SkipBises(buf: Buffer, n: Byte) returns (size: nat)
    requires buf.Valid() && PullBises(buf.Contents(), n).Got?
    modifies buf
    ensures buf.Valid() && buf.Contents() == PullBises(old(buf.Contents()), n).rest
    ensures buf.head == old(buf.head) + size && buf.len == old(buf.len) - size
  {
    ghost var rest := PullBises(buf.Contents(), n).rest;
    size := 0;
    var j := 0;
    while j < n
      invariant j <= n && buf.Valid() && buf.head == old(buf.head) + size && buf.len == old(buf.len) - size
      invariant PullBises(buf.Contents(), n - j).Got? && PullBises(buf.Contents(), n - j).rest == rest
    {
      NextBisRest(buf.Contents(), n - j);
      var b := PullOneBis(buf);
      size := size + 2 + |b.data|;
      j := j + 1;
    }
  }

  method PullHeaderFrom(buf: Buffer) returns (h: Header)
    requires buf.Valid() && PullHeader(buf.Contents()).Got?
    modifies buf
    ensures buf.Valid() && Got(h, buf.Contents()) == PullHeader(old(buf.Contents()))
    ensures buf.head == old(buf.head) + 7 + |h.config| + |h.meta|
    ensures buf.len == old(buf.len) - 7 - |h.config| - |h.meta|
  {
    var c := PullCodecId(buf);
    var config := PullValue(buf);
    var meta := PullValue(buf);
    h := Header(c, config, meta);
  }

  /** Moves past one subgroup. */
  method SkipSubgroup(buf: Buffer) returns (size: nat)
    requires buf.Valid() && PullSubgroup(buf.Contents()).Got?
    modifies buf
    ensures buf.Valid() && buf.Contents() == PullSubgroup(old(buf.Contents())).rest
    ensures buf.head == old(buf.head) + size && buf.len == old(buf.len) - size
  {
    var n := buf.PullU8();
    var h := PullHeaderFrom(buf);
    size := SkipBises(buf, n);
    size := size + 8 + |h.config| + |h.meta|;
  }

  lemma NextSubgroup(d: seq<Byte>, n: nat, gs: seq<Subgroup>, rest: seq<Byte>)
    requires n > 0 && Reads(d, n, gs, rest)
    ensures PullSubgroup(d).Got? && gs != [] && PullSubgroup(d).value == gs[0]
    ensures Reads(PullSubgroup(d).rest, n - 1, gs[1..], rest)
  {
    assert gs[1..] == PullSubgroups(PullSubgroup(d).rest, n - 1).value;
  }

  /** bt_bap_base_get_size */
  method GetSize(buf: Buffer) returns (size: nat)
    requires buf.Valid() && PullBase(buf.Contents()).Got?
    modifies buf
    ensures Countable(PullBase(old(buf.Contents())).value)
    ensures size == |BaseOctets(PullBase(old(buf.Contents())).value)|
  {
    ghost var b := PullBase(buf.Contents());
    BaseCanonical(buf.Contents());
    CountIs(buf.Contents());
    var pd, count := PullBaseHead(buf);
    size := SkipSubgroups(buf, count, b.value.subgroups, b.rest);
    size := size + 4;
  }

  method SkipSubgroups(buf: Buffer, count: Byte, ghost gs: seq<Subgroup>, ghost rest: seq<Byte>) returns (size: nat)
    requires buf.Valid() && Reads(buf.Contents(), count, gs, rest)
    modifies buf
    ensures buf.Valid() && buf.Contents() == rest && buf.len == old(buf.len) - size
  {
    hide PullSubgroup, Reads;
    size := 0;
    ghost var left, k: nat := gs, count;
    var i := 0;
    while i < count
      invariant i <= count && k == count - i
      invariant buf.Valid() && buf.len == old(buf.len) - size && Reads(buf.Contents(), k, left, rest)
    {
      var n;
      n, left := SkipNext(buf, k, left, rest);
      size := size + n;
      i, k := i + 1, k - 1;
    }
    NoneRead(buf.Contents(), left, rest);
  }

  method SkipNext(buf: Buffer, ghost k: nat, ghost gs: seq<Subgroup>, ghost rest: seq<Byte>)
    returns (size: nat, ghost left: seq<Subgroup>)
    requires buf.Valid() && k > 0 && Reads(buf.Contents(), k, gs, rest)
    modifies buf
    ensures buf.Valid() && buf.len == old(buf.len) - size && Reads(buf.Contents(), k - 1, left, rest)
  {
    NextSubgroup(buf.Contents(), k, gs, rest);
    size := SkipSubgroup(buf);
    left := gs[1..];
  }

  /** `c` is what stands in `d` from `off` on. */
  ghost predicate StandsAt(d: seq<Byte>, off: int, c: seq<Byte>) {
    0 <= off <= |d| && d[off..] == c
  }

  lemma StandsBehind(d: seq<Byte>, off: int, c: seq<Byte>)
    requires StandsAt(d, off, c) && PullSubgroup(c).Got?
    ensures var rest := PullSubgroup(c).rest;
            |rest| <= |c| && StandsAt(d, off + |c| - |rest|, rest)
  {
    SubgroupCanonical(c);
    var g := PullSubgroup(c);
    assert c[|c| - |g.rest|..] == g.rest;
    assert d[off..][|c| - |g.rest|..] == d[off + |c| - |g.rest|..];
  }

  ghost predicate ShowsAt(d: seq<Byte>, off: nat, g: Subgroup) {
    off <= |d| && PullSubgroup(d[off..]).Got? && PullSubgroup(d[off..]).value == g
  }

  /** Moves to the next subgroup, keeping track of where in `d` it stands. */
  method SkipShown(buf: Buffer, ghost d: seq<Byte>, ghost off: int)
    requires buf.Valid() && StandsAt(d, off, buf.Contents()) && PullSubgroup(buf.Contents()).Got?
    modifies buf
    ensures buf.Valid() && buf.Contents() == PullSubgroup(old(buf.Contents())).rest
    ensures buf.head >= old(buf.head) && StandsAt(d, off + buf.head - old(buf.head), buf.Contents())
  {
    StandsBehind(d, off, buf.Contents());
    var size := SkipSubgroup(buf);
  }

  /** The offsets `at` are those of the first subgroups of `gs`. */
  ghost predicate Shown(d: seq<Byte>, at: seq<nat>, gs: seq<Subgroup>) {
    |at| <= |gs| && forall k :: 0 <= k < |at| ==> ShowsAt(d, at[k], gs[k])
  }

  lemma ShownMore(d: seq<Byte>, at: seq<nat>, gs: seq<Subgroup>, off: nat, c: seq<Byte>)
    requires Shown(d, at, gs) && |at| < |gs| && StandsAt(d, off, c)
    requires PullSubgroup(c).Got? && PullSubgroup(c).value == gs[|at|]
    ensures Shown(d, at + [off], gs)
  {}

  lemma ShownNext(d: seq<Byte>, at: seq<nat>, gs: seq<Subgroup>, off: nat, c: seq<Byte>, n: nat, rest: seq<Byte>)
    requires Shown(d, at, gs) && |at| < |gs| && StandsAt(d, off, c)
    requires n > 0 && Reads(c, n, gs[|at|..], rest)
    ensures Shown(d, at + [off], gs) && gs[|at|..] != [] && gs[|at|..][1..] == gs[|at + [off]|..]
  {
    NextSubgroup(c, n, gs[|at|..], rest);
    ShownMore(d, at, gs, off, c);
  }

  /** bt_bap_base_foreach_subgroup for a callback that wants to go on `keep` times: the
      offsets of the subgroups it is shown. */
  method ForeachSubgroup(buf: Buffer, keep: nat) returns (at: seq<nat>, cancelled: bool)
    requires buf.Valid() && PullBase(buf.Contents()).Got?
    modifies buf
    ensures var gs := PullBase(old(buf.Contents())).value.subgroups;
            && cancelled == (keep < |gs|) && |at| == (if cancelled then keep + 1 else |gs|)
            && Shown(old(buf.Contents()), at, gs)
  {
    ghost var d := buf.Contents();
    ghost var b := PullBase(d);
    CountIs(d);
    var start := buf.head;
    var pd, count := PullBaseHead(buf);
    at, cancelled := ShowSubgroups(buf, start, count, keep, d, b.value.subgroups, b.rest);
  }

  /** The loop of bt_bap_base_foreach_subgroup; a single subgroup is not walked over. */
  method ShowSubgroups(buf: Buffer, start: nat, count: Byte, keep: nat,
                       ghost d: seq<Byte>, ghost gs: seq<Subgroup>, ghost rest: seq<Byte>)
    returns (at: seq<nat>, cancelled: bool)
    requires buf.Valid() && start <= buf.head && StandsAt(d, buf.head - start, buf.Contents())
    requires Reads(buf.Contents(), count, gs, rest) && |gs| == count
    modifies buf
    ensures cancelled == (keep < |gs|) && |at| == (if cancelled then keep + 1 else |gs|) && Shown(d, at, gs)
  {
    at := [];
    var i := 0;
    ghost var left, m: nat := gs, count;
    while i < count
      invariant i <= count && m == count - i && left == gs[i..] && i <= keep && |at| == i
      invariant buf.Valid() && start <= buf.head && Shown(d, at, gs)
      invariant i == 0 || count > 1 ==> Reads(buf.Contents(), m, left, rest) && StandsAt(d, buf.head - start, buf.Contents())
    {
      at, left, m := ShowNext(buf, start, count, at, d, gs, left, m, rest);
      if i == keep {
        return at, true;
      }
      i := i + 1;
    }
    cancelled := false;
  }

  method ShowNext(buf: Buffer, start: nat, count: Byte, was: seq<nat>, ghost d: seq<Byte>, ghost gs: seq<Subgroup>,
                  ghost left: seq<Subgroup>, ghost m: nat, ghost rest: seq<Byte>)
    returns (at: seq<nat>, ghost left': seq<Subgroup>, ghost m': nat)
    requires buf.Valid() && start <= buf.head && StandsAt(d, buf.head - start, buf.Contents())
    requires m > 0 && Reads(buf.Contents(), m, left, rest)
    requires Shown(d, was, gs) && |was| < |gs| && left == gs[|was|..]
    modifies buf
    ensures buf.Valid() && start <= buf.head && m' == m - 1
    ensures |at| == |was| + 1 && Shown(d, at, gs) && left' == gs[|at|..]
    ensures count > 1 ==> Reads(buf.Contents(), m', left', rest) && StandsAt(d, buf.head - start, buf.Contents())
  {
    hide Reads, Shown, StandsAt;
    ShownNext(d, was, gs, buf.head - start, buf.Contents(), m, rest);
    at, left', m' := was + [buf.head - start], left[1..], m - 1;
    MoveOn(buf, start, count, d, left, m, rest);
  }

  method MoveOn(buf: Buffer, ghost start: nat, count: Byte, ghost d: seq<Byte>,
                ghost left: seq<Subgroup>, ghost m: nat, ghost rest: seq<Byte>)
    requires buf.Valid() && start <= buf.head && StandsAt(d, buf.head - start, buf.Contents())
    requires m > 0 && Reads(buf.Contents(), m, left, rest) && left != []
    modifies buf
    ensures buf.Valid() && start <= buf.head
    ensures count > 1 ==> Reads(buf.Contents(), m - 1, left[1..], rest) && StandsAt(d, buf.head - start, buf.Contents())
  {
    hide Reads, PullSubgroup;
    if count > 1 {
      NextSubgroup(buf.Contents(), m, left, rest);
      SkipShown(buf, d, buf.head - start);
    }
  }

  // ---- looking into a subgroup ----

  /** bt_bap_base_get_subgroup_bis_count */
  method BisCount(buf: Buffer) returns (n: Byte)
    requires buf.Valid() && PullSubgroup(buf.Contents()).Got?
    modifies buf
    ensures n == |PullSubgroup(old(buf.Contents())).value.bises|
  {
    SubgroupCanonical(buf.Contents());
    n := buf.PullU8();
  }

  /** bt_bap_base_get_subgroup_codec_id, _codec_data and _codec_meta */
  method SubgroupHeader(buf: Buffer) returns (h: Header)
    requires buf.Valid() && PullSubgroup(buf.Contents()).Got?
    modifies buf
    ensures var g := PullSubgroup(old(buf.Contents())).value; h == Header(g.codec, g.config, g.meta)
  {
    var n := buf.PullU8();
    h := PullHeaderFrom(buf);
  }

  /** bt_bap_base_subgroup_foreach_bis for a callback that wants to go on `keep` times:
      the BISes it is shown. */
  method ForeachBis(buf: Buffer, keep: nat) returns (bises: seq<Bis>, cancelled: bool)
    requires buf.Valid() && PullSubgroup(buf.Contents()).Got?
    modifies buf
    ensures var all := PullSubgroup(old(buf.Contents())).value.bises;
            && cancelled == (keep < |all|) && bises == all[..if cancelled then keep + 1 else |all|]
  {
    SubgroupCanonical(buf.Contents());
    ghost var g := PullSubgroup(buf.Contents());
    var n := buf.PullU8();
    var h := PullHeaderFrom(buf);
    bises, cancelled := ShowBises(buf, n, keep, g.value.bises, g.rest);
  }

  /** The loop of bt_bap_base_subgroup_foreach_bis. */
  method ShowBises(buf: Buffer, n: Byte, keep: nat, ghost all: seq<Bis>, ghost rest: seq<Byte>)
    returns (bises: seq<Bis>, cancelled: bool)
    requires buf.Valid() && |all| == n && ReadsBises(buf.Contents(), n, all, rest)
    modifies buf
    ensures cancelled == (keep < n) && bises == all[..if cancelled then keep + 1 else n]
  {
    hide ReadsBises;
    ghost var left, m: nat := all, n;
    bises := [];
    var j := 0;
    while j < n
      invariant j <= n == |all| && m == n - j && j <= keep && |bises| == j && all == bises + left
      invariant buf.Valid() && ReadsBises(buf.Contents(), m, left, rest)
    {
      bises, left := ShowBis(buf, bises, all, left, m, rest);
      m := m - 1;
      if j == keep {
        return bises, true;
      }
      j := j + 1;
    }
    NoBisRead(buf.Contents(), left, rest);
    cancelled := false;
  }

  method ShowBis(buf: Buffer, was: seq<Bis>, ghost all: seq<Bis>, ghost left: seq<Bis>, ghost m: nat, ghost rest: seq<Byte>)
    returns (bises: seq<Bis>, ghost left': seq<Bis>)
    requires buf.Valid() && m > 0 && ReadsBises(buf.Contents(), m, left, rest) && all == was + left
    modifies buf
    ensures buf.Valid() && ReadsBises(buf.Contents(), m - 1, left', rest)
    ensures |bises| == |was| + 1 && all == bises + left'
  {
    hide ReadsBises;
    NextBisShown(buf.Contents(), m, left, rest);
    var b := PullOneBis(buf);
    bises, left' := was + [b], left[1..];
  }

  ghost predicate ReadsBises(d: seq<Byte>, n: nat, bs: seq<Bis>, rest: seq<Byte>) {
    PullBises(d, n) == Got(bs, rest)
  }

  lemma NoBisRead(d: seq<Byte>, bs: seq<Bis>, rest: seq<Byte>)
    requires ReadsBises(d, 0, bs, rest)
    ensures bs == []
  {}

  lemma NextBisShown(d: seq<Byte>, n: nat, bs: seq<Bis>, rest: seq<Byte>)
    requires n > 0 && ReadsBises(d, n, bs, rest)
    ensures PullBis(d).Got? && bs != [] && PullBis(d).value == bs[0] && ReadsBises(PullBis(d).rest, n - 1, bs[1..], rest)
  {
    assert bs[1..] == PullBises(PullBis(d).rest, n - 1).value;
  }
}
