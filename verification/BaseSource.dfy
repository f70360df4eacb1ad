/** The structure a broadcast source announces (encode_base of bap_broadcast_source.c):
    what it says, when it fits the buffer, and when a receiver accepts it. */
module BaseSource {
  import opened Prelude
  import opened BaseSpec

  /** A subgroup as the application configured it; its streams have their own data. */
  datatype Group = Group(codec: CodecId, config: Value, meta: Value, streams: nat)

  /** `data` holds the data of every stream, subgroup after subgroup. */
  datatype Source = Source(pd: Word24, groups: seq<Group>, data: seq<Value>)

  function Streams(gs: seq<Group>): nat {
    if gs == [] then 0 else gs[0].streams + Streams(gs[1..])
  }

  /** What bt_bap_broadcast_source_create lets pass. */
  predicate Created(src: Source) {
    && 1 <= |src.groups| <= MAX_BIS && (forall i :: 0 <= i < |src.groups| ==> src.groups[i].streams >= 1)
    && Streams(src.groups) == |src.data| <= MAX_BIS
  }

  /** The BISes of the streams from number `from` on. */
  function Number(data: seq<Value>, from: nat, n: nat): (bs: seq<Bis>)
    requires from + n <= |data| <= MAX_BIS
    ensures |bs| == n && forall j :: 0 <= j < n ==> bs[j] == Bis(from + j + 1, data[from + j])
  {
    seq(n, j requires 0 <= j < n => Bis(from + j + 1, data[from + j]))
  }

  function DescribeGroup(g: Group, data: seq<Value>, from: nat): (d: Subgroup)
    requires from + g.streams <= |data| <= MAX_BIS
    ensures |d.bises| == g.streams
  {
    Subgroup(g.codec, g.config, g.meta, Number(data, from, g.streams))
  }

  function DescribeGroups(gs: seq<Group>, data: seq<Value>, from: nat): (ds: seq<Subgroup>)
    requires from + Streams(gs) <= |data| <= MAX_BIS
    ensures |ds| == |gs|
    ensures forall i :: 0 <= i < |ds| ==> |ds[i].bises| == gs[i].streams <= MAX_BIS
    ensures forall i, j :: 0 <= i < |ds| && 0 <= j < |ds[i].bises| ==> 1 <= ds[i].bises[j].index <= MAX_BIS
  {
    if gs == [] then []
    else [DescribeGroup(gs[0], data, from)] + DescribeGroups(gs[1..], data, from + gs[0].streams)
  }

  /** What the announcement of a source says. */
  function Describe(src: Source): (b: Base)
    requires Created(src)
    ensures Countable(b) && |b.subgroups| == |src.groups|
  {
    Base(src.pd, DescribeGroups(src.groups, src.data, 0))
  }

  function AllBises(gs: seq<Subgroup>): seq<Bis> {
    if gs == [] then [] else gs[0].bises + AllBises(gs[1..])
  }

  lemma {:induction false} NumberedFrom(gs: seq<Group>, data: seq<Value>, from: nat)
    requires from + Streams(gs) <= |data| <= MAX_BIS
    ensures AllBises(DescribeGroups(gs, data, from)) == Number(data, from, Streams(gs))
  {
    if gs != [] {
      NumberedFrom(gs[1..], data, from + gs[0].streams);
      assert DescribeGroups(gs, data, from)[1..] == DescribeGroups(gs[1..], data, from + gs[0].streams);
    }
  }

  /** Across the subgroups the BISes are numbered 1, 2, 3, ... and carry the data of the
      streams in their order. */
  lemma NumberedInOrder(src: Source)
    requires Created(src)
    ensures var bs := AllBises(Describe(src).subgroups);
            |bs| == |src.data| && forall k :: 0 <= k < |bs| ==> bs[k] == Bis(k + 1, src.data[k])
  {
    NumberedFrom(src.groups, src.data, 0);
  }

  lemma DescribedInRange(src: Source)
    requires Created(src)
    ensures InRange(Describe(src)) <==> |src.groups| <= SUBGROUP_MAX_COUNT
  {
    var b := Describe(src);
    forall i | 0 <= i < |b.subgroups| ensures SubgroupInRange(b.subgroups[i]) {
      assert |b.subgroups[i].bises| == src.groups[i].streams;
    }
  }

  /** A receiver reads the announcement of any source back, whole, exactly when the
      source has no more subgroups than a receiver allows. */
  lemma AnnouncedIsAccepted(src: Source, behind: seq<Byte>)
    requires Created(src)
    ensures Accept(0x16, ToLe16(BASIC_AUDIO_UUID) + BaseOctets(Describe(src)) + behind) ==
            if |src.groups| <= 24 then Some(Describe(src)) else None
  {
    var b, uuid := Describe(src), ToLe16(BASIC_AUDIO_UUID);
    var d := uuid + BaseOctets(b) + behind;
    DescribedInRange(src);
    if |src.groups| <= SUBGROUP_MAX_COUNT {
      AcceptedExactly(SVC_DATA16, d, b);
    } else {
      assert d[2..] == BaseOctets(b) + behind;
      BaseReads(b, behind);
    }
  }

  // ---- room ----

  /** How an encoder ends: with octets to spare, by its own check, or on the assertion
      of bt_buf_simple_add. */
  datatype Ended = Done(spare: nat) | NoRoom | Overran

  function EncodeBises(bs: seq<Bis>, room: nat): Ended {
    if bs == [] then Done(room)
    else if room < 2 || room - 2 < |bs[0].data| then NoRoom
    else EncodeBises(bs[1..], room - 2 - |bs[0].data|)
  }

  /** BIS count, codec and length of the configuration are added unchecked. */
  const SUBGROUP_FIXED := 7

  function EncodeSubgroup(g: Subgroup, room: nat): Ended {
    if room < SUBGROUP_FIXED then Overran
    else
      var r := room - SUBGROUP_FIXED;
      if r < |g.config| || r - |g.config| < 1 || r - |g.config| - 1 < |g.meta| then NoRoom
      else EncodeBises(g.bises, r - |g.config| - 1 - |g.meta|)
  }

  function EncodeSubgroups(gs: seq<Subgroup>, room: nat): Ended {
    if gs == [] then Done(room)
    else
      var e := EncodeSubgroup(gs[0], room);
      if e.Done? then EncodeSubgroups(gs[1..], e.spare) else e
  }

  function Encode(b: Base, room: nat): Ended {
    if room < BASE_MIN_SIZE then NoRoom else EncodeSubgroups(b.subgroups, room - 6)
  }

  lemma {:induction false} BisesFit(bs: seq<Bis>, room: nat)
    ensures EncodeBises(bs, room) ==
            if room >= |BisesOctets(bs)| then Done(room - |BisesOctets(bs)|) else NoRoom
  {
    if bs != [] && room >= 2 + |bs[0].data| {
      BisesFit(bs[1..], room - 2 - |bs[0].data|);
    }
  }

  lemma SubgroupFits(g: Subgroup, room: nat)
    requires |g.bises| < 256
    ensures EncodeSubgroup(g, room) ==
            if room < SUBGROUP_FIXED then Overran
            else if room >= |SubgroupOctets(g)| then Done(room - |SubgroupOctets(g)|)
            else NoRoom
  {
    var r := room - SUBGROUP_FIXED;
    if r >= 1 + |g.config| + |g.meta| { BisesFit(g.bises, r - |g.config| - 1 - |g.meta|); }
  }

  /** The first `k` subgroups fit, but not the fixed octets of the next. */
  ghost predicate RunsOutAt(gs: seq<Subgroup>, room: int, k: nat)
    requires Counted(gs)
  {
    k < |gs| && 0 <= room - |SubgroupsOctets(gs[..k])| < SUBGROUP_FIXED
  }

  lemma RunsOutLater(gs: seq<Subgroup>, room: int, k: nat)
    requires Counted(gs)
    requires gs != []
    ensures RunsOutAt(gs[1..], room - |SubgroupOctets(gs[0])|, k) == RunsOutAt(gs, room, k + 1)
  {
    if k + 1 < |gs| { assert gs[..k + 1][1..] == gs[1..][..k]; }
  }

  lemma {:induction false} SubgroupsFit(gs: seq<Subgroup>, room: nat)
    requires Counted(gs)
    ensures EncodeSubgroups(gs, room).Done? <==> room >= |SubgroupsOctets(gs)|
    ensures EncodeSubgroups(gs, room).Done? ==> EncodeSubgroups(gs, room).spare == room - |SubgroupsOctets(gs)|
    ensures EncodeSubgroups(gs, room).Overran? <==> exists k: nat :: RunsOutAt(gs, room, k)
  {
    if gs != [] {
      var size := |SubgroupOctets(gs[0])|;
      SubgroupFits(gs[0], room);
      assert gs[..0] == [];
      if room >= size {
        var rest, left := gs[1..], room - size;
        SubgroupsFit(rest, left);
        if EncodeSubgroups(rest, left).Overran? {
          var k: nat :| RunsOutAt(rest, left, k);
          RunsOutLater(gs, room, k);
        }
        forall k: nat | RunsOutAt(gs, room, k) ensures EncodeSubgroups(gs, room).Overran? {
          RunsOutLater(gs, room, k - 1);
          assert RunsOutAt(rest, left, k - 1);
        }
      } else {
        FirstDoesNotFit(gs, room);
      }
    }
  }

  lemma FirstDoesNotFit(gs: seq<Subgroup>, room: nat)
    requires Counted(gs)
    requires gs != [] && room < |SubgroupOctets(gs[0])|
    ensures (exists k: nat :: RunsOutAt(gs, room, k)) <==> room < SUBGROUP_FIXED
  {
    assert gs[..0] == [];
    forall k: nat | k > 0 && k < |gs| ensures !RunsOutAt(gs, room, k) {
      assert gs[..k][0] == gs[0];
    }
    if room < SUBGROUP_FIXED { assert RunsOutAt(gs, room, 0); }
  }

  /** Encoding succeeds exactly when UUID and structure fit and at least 16 octets are
      free to start with. */
  lemma EncodedExactly(b: Base, room: nat)
    requires Countable(b)
    ensures Encode(b, room).Done? <==> room >= BASE_MIN_SIZE && room >= 2 + |BaseOctets(b)|
    ensures Encode(b, room).Done? ==> Encode(b, room).spare == room - 2 - |BaseOctets(b)|
  {
    if room >= BASE_MIN_SIZE { SubgroupsFit(b.subgroups, room - 6); }
  }

  /** It runs into the buffer's assertion exactly when some subgroups but the last fit
      and leave fewer than the seven octets that the next begins with. */
  lemma OverrunExactly(b: Base, room: nat)
    requires Countable(b)
    ensures var behindHead := room - 6;
            Encode(b, room).Overran? <==>
            room >= BASE_MIN_SIZE && exists k: nat :: RunsOutAt(b.subgroups, behindHead, k)
  {
    if room >= BASE_MIN_SIZE { SubgroupsFit(b.subgroups, room - 6); }
  }

  /** Two subgroups of one empty BIS each and twenty octets are such a case. */
  lemma OverrunHappens(c: CodecId, pd: Word24)
    ensures var src := Source(pd, [Group(c, [], [], 1), Group(c, [], [], 1)], [[], []]);
            Created(src) && Encode(Describe(src), 20).Overran?
  {
    var g := Group(c, [], [], 1);
    var src := Source(pd, [g, g], [[], []]);
    assert src.groups[1..] == [g] && [g][1..] == [];
    assert Streams([g]) == 1 && Streams(src.groups) == 2;
    var gs := Describe(src).subgroups;
    assert gs[0] == DescribeGroup(g, src.data, 0);
    assert BisesOctets(gs[0].bises) == BisOctets(gs[0].bises[0]) + BisesOctets(gs[0].bises[1..]);
    SubgroupFits(gs[0], 14);
    assert EncodeSubgroup(gs[1], 4).Overran?;
    assert EncodeSubgroups(gs[1..], 4).Overran?;
  }
}
