/** Where every field of a BASE stands among its octets, number by number (section 3.7.2.2 of
    the Basic Audio Profile v1.0.1). */
module BaseLayout {
  import opened Prelude
  import opened BaseSpec
  import opened BaseSource

  lemma StandsBehind(a: seq<Byte>, o: seq<Byte>, p: nat, part: seq<Byte>)
    requires Stands(o, p, part)
    ensures Stands(a + o, |a| + p, part)
  {
    StandsIn(a, o, [], p, part);
    assert o + [] == o;
  }

  // ---- sizes and places ----

  /** Where BIS `j` begins behind the head of its subgroup. */
  function BisPlace(bs: seq<Bis>, j: nat): nat
    requires j <= |bs|
  {
    if j == 0 then 0 else 2 + |bs[0].data| + BisPlace(bs[1..], j - 1)
  }

  function HeadSize(g: Subgroup): nat { 8 + |g.config| + |g.meta| }

  function GroupSize(g: Subgroup): nat { HeadSize(g) + BisPlace(g.bises, |g.bises|) }

  /** Where subgroup `i` begins behind the head of the structure. */
  function GroupPlace(gs: seq<Subgroup>, i: nat): nat
    requires i <= |gs|
  {
    if i == 0 then 0 else GroupSize(gs[0]) + GroupPlace(gs[1..], i - 1)
  }

  // ---- the octets ----

  /** A BIS: its index, and its data behind their length. */
  function BisPart(b: Bis): seq<Byte> { [b.index, |b.data|] + b.data }

  /** The head of a subgroup: the number of its BISes; the codec with company and vendor, the
      low octet of each first; configuration and metadata behind their lengths. */
  function HeadPart(g: Subgroup): seq<Byte>
    requires |g.bises| < 256
  {
    var c := g.codec;
    [|g.bises|, c.id, c.cid % 256, c.cid / 256, c.vid % 256, c.vid / 256, |g.config|] + g.config + [|g.meta|] + g.meta
  }

  lemma {:induction false} BisStands(bs: seq<Bis>, j: nat)
    requires j < |bs|
    ensures Stands(BisesOctets(bs), BisPlace(bs, j), BisPart(bs[j]))
  {
    var first, rest := BisOctets(bs[0]), BisesOctets(bs[1..]);
    assert first == BisPart(bs[0]);
    if j == 0 {
      assert (first + rest)[..|first|] == first;
    } else {
      BisStands(bs[1..], j - 1);
      StandsBehind(first, rest, BisPlace(bs[1..], j - 1), BisPart(bs[j]));
    }
  }

  lemma {:induction false} BisesSize(bs: seq<Bis>)
    ensures |BisesOctets(bs)| == BisPlace(bs, |bs|)
  {
    if bs != [] { BisesSize(bs[1..]); }
  }

  lemma HeadStands(g: Subgroup)
    requires |g.bises| < 256
    ensures SubgroupOctets(g) == HeadPart(g) + BisesOctets(g.bises) && |HeadPart(g)| == HeadSize(g)
  {
    LeastFirst(g.codec.cid, 0, 0);
    LeastFirst(g.codec.vid, 0, 0);
    var c, n := g.codec, |g.bises| as Byte;
    assert CodecOctets(c) == [c.id, c.cid % 256, c.cid / 256, c.vid % 256, c.vid / 256];
    assert [n] + CountedOctets(g)
           == ([n] + CodecOctets(c) + Ltv(g.config) + Ltv(g.meta)) + BisesOctets(g.bises);
    assert [n] + CodecOctets(c) + Ltv(g.config) + Ltv(g.meta) == HeadPart(g);
  }

  /** Subgroup `g` stands at place `p`: its head, and each BIS in its place behind it. */
  predicate GroupStands(o: seq<Byte>, p: nat, g: Subgroup)
    requires |g.bises| < 256
  {
    && Stands(o, p, HeadPart(g))
    && forall j :: 0 <= j < |g.bises| ==> Stands(o, p + HeadSize(g) + BisPlace(g.bises, j), BisPart(g.bises[j]))
  }

  lemma OneGroupStands(g: Subgroup)
    requires |g.bises| < 256
    ensures GroupStands(SubgroupOctets(g), 0, g) && |SubgroupOctets(g)| == GroupSize(g)
  {
    HeadStands(g);
    BisesSize(g.bises);
    assert (HeadPart(g) + BisesOctets(g.bises))[..HeadSize(g)] == HeadPart(g);
    forall j | 0 <= j < |g.bises| ensures Stands(SubgroupOctets(g), HeadSize(g) + BisPlace(g.bises, j), BisPart(g.bises[j])) {
      BisStands(g.bises, j);
      StandsBehind(HeadPart(g), BisesOctets(g.bises), BisPlace(g.bises, j), BisPart(g.bises[j]));
    }
  }

  lemma GroupStandsIn(a: seq<Byte>, o: seq<Byte>, rest: seq<Byte>, p: nat, g: Subgroup)
    requires |g.bises| < 256 && GroupStands(o, p, g)
    ensures GroupStands(a + (o + rest), |a| + p, g)
  {
    hide HeadPart, BisPart, Stands;
    StandsIn(a, o, rest, p, HeadPart(g));
    forall j | 0 <= j < |g.bises|
      ensures Stands(a + (o + rest), |a| + p + HeadSize(g) + BisPlace(g.bises, j), BisPart(g.bises[j]))
    {
      StandsIn(a, o, rest, p + HeadSize(g) + BisPlace(g.bises, j), BisPart(g.bises[j]));
    }
  }

  lemma {:induction false} GroupsStand(gs: seq<Subgroup>, i: nat)
    requires Counted(gs) && i < |gs|
    ensures GroupStands(SubgroupsOctets(gs), GroupPlace(gs, i), gs[i])
  {
    hide GroupStands, SubgroupOctets, GroupSize;
    var first, rest := SubgroupOctets(gs[0]), SubgroupsOctets(gs[1..]);
    OneGroupStands(gs[0]);
    if i == 0 {
      GroupStandsIn([], first, rest, 0, gs[0]);
      assert [] + (first + rest) == first + rest;
    } else {
      GroupsStand(gs[1..], i - 1);
      GroupStandsIn(first, rest, [], GroupPlace(gs[1..], i - 1), gs[i]);
      assert rest + [] == rest;
    }
  }

  lemma {:induction false} GroupsSize(gs: seq<Subgroup>)
    requires Counted(gs)
    ensures |SubgroupsOctets(gs)| == GroupPlace(gs, |gs|)
  {
    if gs != [] {
      OneGroupStands(gs[0]);
      GroupsSize(gs[1..]);
    }
  }

  /** The subgroups say what the application configured, each for as many streams. */
  lemma {:induction false} GroupsSay(gs: seq<Group>, data: seq<Value>, from: nat, i: nat)
    requires from + Streams(gs) <= |data| <= MAX_BIS && i < |gs|
    ensures
      var d := DescribeGroups(gs, data, from)[i];
      d.codec == gs[i].codec && d.config == gs[i].config && d.meta == gs[i].meta && |d.bises| == gs[i].streams
  {
    if i > 0 { GroupsSay(gs[1..], data, from + gs[0].streams, i - 1); }
  }

  /** The octets as a head of six and the subgroups. */
  lemma HeadFirst(b: Base)
    requires Countable(b)
    ensures ToLe16(BASIC_AUDIO_UUID) + BaseOctets(b)
            == [0x51, 0x18, b.pd % 256, b.pd / 256 % 256, b.pd / 0x10000, |b.subgroups|] + SubgroupsOctets(b.subgroups)
  {
    LeastFirst(BASIC_AUDIO_UUID, b.pd, 0);
    assert ToLe16(BASIC_AUDIO_UUID) == [0x51, 0x18];
    assert ToLe24(b.pd) == [b.pd % 256, b.pd / 256 % 256, b.pd / 0x10000];
  }

  /** What a source announces, octet by octet: the UUID as 51 18, the presentation delay and
      the number of subgroups, and then every subgroup in its place, as the application
      configured it, nothing between them and nothing behind. */
  lemma AnnouncedOctets(src: Source, i: nat)
    requires Created(src) && i < |src.groups|
    ensures
      var o, gs, pd := ToLe16(BASIC_AUDIO_UUID) + BaseOctets(Describe(src)), Describe(src).subgroups, src.pd;
      && Stands(o, 0, [0x51, 0x18, pd % 256, pd / 256 % 256, pd / 0x10000, |src.groups|])
      && |gs| == |src.groups| && |gs[i].bises| < 256
      && GroupStands(o, 6 + GroupPlace(gs, i), gs[i])
      && gs[i].codec == src.groups[i].codec && gs[i].config == src.groups[i].config && gs[i].meta == src.groups[i].meta
      && |gs[i].bises| == src.groups[i].streams
      && |o| == 6 + GroupPlace(gs, |gs|)
  {
    hide GroupStands, SubgroupsOctets, GroupPlace, BaseOctets, DescribeGroups;
    var gs, pd := Describe(src).subgroups, src.pd;
    var head: seq<Byte> := [0x51, 0x18, pd % 256, pd / 256 % 256, pd / 0x10000, |src.groups|];
    var o := SubgroupsOctets(gs);
    HeadFirst(Describe(src));
    GroupsStand(gs, i);
    GroupsSize(gs);
    GroupsSay(src.groups, src.data, 0, i);
    GroupStandsIn(head, o, [], GroupPlace(gs, i), gs[i]);
    assert o + [] == o && (head + o)[..6] == head;
  }

  /** What a receiver takes, in numbers: service data (0x16) that begins with the UUID and the
      octets of a structure of 1 to 24 subgroups, with 1 to 31 BISes each, of index 1 to 31. */
  lemma AcceptedOctets(adType: Byte, d: seq<Byte>, b: Base)
    ensures Accept(adType, d) == Some(b) <==>
            && adType == 0x16 && 1 <= |b.subgroups| <= 24
            && (forall i :: 0 <= i < |b.subgroups| ==>
                  && 1 <= |b.subgroups[i].bises| <= 31
                  && forall j :: 0 <= j < |b.subgroups[i].bises| ==> 1 <= b.subgroups[i].bises[j].index <= 31)
            && [0x51, 0x18, b.pd % 256, b.pd / 256 % 256, b.pd / 0x10000, |b.subgroups|] + SubgroupsOctets(b.subgroups) <= d
  {
    AcceptedExactly(adType, d, b);
    if Countable(b) { HeadFirst(b); }
  }
}
