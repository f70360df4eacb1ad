/** The Broadcast Audio Source Endpoint structure of the Basic Audio Profile v1.0.1,
    section 3.7.2.2: its octets, what bap_base.c reads from them, and that the two undo
    each other. */
module BaseSpec {
  import opened Prelude

  const BASIC_AUDIO_UUID: Word16 := 0x1851
  const SVC_DATA16 := 0x16
  /** UUID, presentation delay, subgroup count, and one subgroup of one BIS, all empty */
  const BASE_MIN_SIZE := 16
  /** What an advertising structure has left behind its type and the UUID. */
  const BASE_MAX_SIZE := 252
  const SUBGROUP_MAX_SIZE := 248
  const SUBGROUP_MAX_COUNT := 24
  const MAX_BIS := 31

  /** A value whose length is written in one octet. */
  type Value = d: seq<Byte> | |d| < 256

  datatype CodecId = CodecId(id: Byte, cid: Word16, vid: Word16)
  datatype Bis = Bis(index: Byte, data: Value)
  datatype Subgroup = Subgroup(codec: CodecId, config: Value, meta: Value, bises: seq<Bis>)
  datatype Base = Base(pd: Word24, subgroups: seq<Subgroup>)

  predicate Counted(gs: seq<Subgroup>) { forall i :: 0 <= i < |gs| ==> |gs[i].bises| < 256 }

  /** What the counts, themselves one octet each, can tell. */
  predicate Countable(b: Base) {
    |b.subgroups| < 256 && Counted(b.subgroups)
  }

  predicate SubgroupInRange(g: Subgroup) {
    && 1 <= |g.bises| <= MAX_BIS
    && forall j :: 0 <= j < |g.bises| ==> 1 <= g.bises[j].index <= MAX_BIS
  }

  predicate InRange(b: Base) {
    && 1 <= |b.subgroups| <= SUBGROUP_MAX_COUNT
    && forall i :: 0 <= i < |b.subgroups| ==> SubgroupInRange(b.subgroups[i])
  }

  // ---- the octets ----

  function Ltv(d: Value): (o: seq<Byte>)
    ensures |o| == 1 + |d|
  {
    [|d| as Byte] + d
  }

  function BisOctets(b: Bis): (o: seq<Byte>)
    ensures |o| == 2 + |b.data|
  {
    [b.index] + Ltv(b.data)
  }

  function BisesOctets(bs: seq<Bis>): seq<Byte> {
    if bs == [] then [] else BisOctets(bs[0]) + BisesOctets(bs[1..])
  }

  function CodecOctets(c: CodecId): (o: seq<Byte>)
    ensures |o| == 5
  {
    [c.id] + ToLe16(c.cid) + ToLe16(c.vid)
  }

  /** The octets of a subgroup behind the number of its BISes. */
  function CountedOctets(g: Subgroup): seq<Byte> {
    CodecOctets(g.codec) + (Ltv(g.config) + (Ltv(g.meta) + BisesOctets(g.bises)))
  }

  function SubgroupOctets(g: Subgroup): seq<Byte>
    requires |g.bises| < 256
  {
    [|g.bises| as Byte] + CountedOctets(g)
  }

  function SubgroupsOctets(gs: seq<Subgroup>): seq<Byte>
    requires Counted(gs)
  {
    if gs == [] then [] else SubgroupOctets(gs[0]) + SubgroupsOctets(gs[1..])
  }

  function BaseOctets(b: Base): seq<Byte>
    requires Countable(b)
  {
    ToLe24(b.pd) + ([|b.subgroups| as Byte] + SubgroupsOctets(b.subgroups))
  }

  // ---- reading them ----

  function PullLtv(d: seq<Byte>): Pulled<Value> {
    if d == [] || |d| - 1 < d[0] then Short else Got(d[1..1 + d[0]], d[1 + d[0]..])
  }

  function PullBis(d: seq<Byte>): Pulled<Bis> {
    if d == [] then Short
    else
      var v := PullLtv(d[1..]);
      if v.Short? then Short else Got(Bis(d[0], v.value), v.rest)
  }

  function PullBises(d: seq<Byte>, n: nat): Pulled<seq<Bis>>
    decreases n
  {
    if n == 0 then Got([], d)
    else
      var b := PullBis(d);
      if b.Short? then Short
      else
        var bs := PullBises(b.rest, n - 1);
        if bs.Short? then Short else Got([b.value] + bs.value, bs.rest)
  }

  function PullCodec(d: seq<Byte>): Pulled<CodecId> {
    if |d| < 5 then Short else Got(CodecId(d[0], Le16(d[1], d[2]), Le16(d[3], d[4])), d[5..])
  }

  /** What a subgroup says between the number of its BISes and the BISes. */
  datatype Header = Header(codec: CodecId, config: Value, meta: Value)

  function PullHeader(d: seq<Byte>): Pulled<Header> {
    var c := PullCodec(d);
    if c.Short? then Short
    else
      var cc := PullLtv(c.rest);
      if cc.Short? then Short
      else
        var m := PullLtv(cc.rest);
        if m.Short? then Short else Got(Header(c.value, cc.value, m.value), m.rest)
  }

  /** A subgroup whose BIS count was read as `n`. */
  function PullCounted(d: seq<Byte>, n: nat): Pulled<Subgroup> {
    var h := PullHeader(d);
    if h.Short? then Short
    else
      var bs := PullBises(h.rest, n);
      if bs.Short? then Short
      else Got(Subgroup(h.value.codec, h.value.config, h.value.meta, bs.value), bs.rest)
  }

  function PullSubgroup(d: seq<Byte>): Pulled<Subgroup> {
    if d == [] then Short else PullCounted(d[1..], d[0])
  }

  function PullSubgroups(d: seq<Byte>, n: nat): Pulled<seq<Subgroup>>
    decreases n
  {
    if n == 0 then Got([], d)
    else
      var g := PullSubgroup(d);
      if g.Short? then Short
      else
        var gs := PullSubgroups(g.rest, n - 1);
        if gs.Short? then Short else Got([g.value] + gs.value, gs.rest)
  }

  function PullBase(d: seq<Byte>): Pulled<Base> {
    if |d| < 4 then Short
    else
      var gs := PullSubgroups(d[4..], d[3]);
      if gs.Short? then Short else Got(Base(FromLe24(d[..3]), gs.value), gs.rest)
  }

  /** bt_bap_base_get_base_from_ad, with the structure it vouches for; what stands
      behind the structure is ignored. */
  function Accept(adType: Byte, d: seq<Byte>): Option<Base> {
    if adType != SVC_DATA16 || |d| < BASE_MIN_SIZE || d[..2] != ToLe16(BASIC_AUDIO_UUID) then None
    else
      var b := PullBase(d[2..]);
      if b.Short? || !InRange(b.value) then None else Some(b.value)
  }

  // ---- what was written is read back ----

  lemma LtvReads(v: Value, rest: seq<Byte>)
    ensures PullLtv(Ltv(v) + rest) == Got(v, rest)
  {
    var d := Ltv(v) + rest;
    assert d[1..1 + d[0]] == v && d[1 + d[0]..] == rest;
  }

  lemma BisReads(b: Bis, rest: seq<Byte>)
    ensures PullBis(BisOctets(b) + rest) == Got(b, rest)
  {
    assert (BisOctets(b) + rest)[1..] == Ltv(b.data) + rest;
    LtvReads(b.data, rest);
  }

  lemma {:induction false} BisesRead(bs: seq<Bis>, rest: seq<Byte>)
    ensures PullBises(BisesOctets(bs) + rest, |bs|) == Got(bs, rest)
  {
    if bs == [] {
      assert [] + rest == rest;
    } else {
      Glue(BisOctets(bs[0]), BisesOctets(bs[1..]), rest);
      BisReads(bs[0], BisesOctets(bs[1..]) + rest);
      BisesRead(bs[1..], rest);
      assert [bs[0]] + bs[1..] == bs;
    }
  }

  lemma CodecReads(c: CodecId, rest: seq<Byte>)
    ensures PullCodec(CodecOctets(c) + rest) == Got(c, rest)
  {
    var d := CodecOctets(c) + rest;
    Le16RoundTrip(c.cid, 0, 0);
    Le16RoundTrip(c.vid, 0, 0);
    assert d[5..] == rest;
  }

  lemma HeaderReads(h: Header, rest: seq<Byte>)
    ensures PullHeader(CodecOctets(h.codec) + (Ltv(h.config) + (Ltv(h.meta) + rest))) == Got(h, rest)
  {
    CodecReads(h.codec, Ltv(h.config) + (Ltv(h.meta) + rest));
    LtvReads(h.config, Ltv(h.meta) + rest);
    LtvReads(h.meta, rest);
  }

  lemma CountedGlue(g: Subgroup, rest: seq<Byte>)
    ensures CountedOctets(g) + rest ==
            CodecOctets(g.codec) + (Ltv(g.config) + (Ltv(g.meta) + (BisesOctets(g.bises) + rest)))
  {
    var c, cc, m, bs := CodecOctets(g.codec), Ltv(g.config), Ltv(g.meta), BisesOctets(g.bises);
    Glue(c, cc + (m + bs), rest);
    Glue(cc, m + bs, rest);
    Glue(m, bs, rest);
  }

  lemma CountedReads(g: Subgroup, rest: seq<Byte>)
    ensures PullCounted(CountedOctets(g) + rest, |g.bises|) == Got(g, rest)
  {
    CountedGlue(g, rest);
    HeaderReads(Header(g.codec, g.config, g.meta), BisesOctets(g.bises) + rest);
    BisesRead(g.bises, rest);
  }

  lemma SubgroupReads(g: Subgroup, rest: seq<Byte>)
    requires |g.bises| < 256
    ensures PullSubgroup(SubgroupOctets(g) + rest) == Got(g, rest)
  {
    var d := SubgroupOctets(g) + rest;
    assert d[0] == |g.bises| && d[1..] == CountedOctets(g) + rest;
    CountedReads(g, rest);
  }

  lemma {:induction false} SubgroupsRead(gs: seq<Subgroup>, rest: seq<Byte>)
    requires Counted(gs)
    ensures PullSubgroups(SubgroupsOctets(gs) + rest, |gs|) == Got(gs, rest)
  {
    if gs == [] {
      assert [] + rest == rest;
    } else {
      Glue(SubgroupOctets(gs[0]), SubgroupsOctets(gs[1..]), rest);
      SubgroupReads(gs[0], SubgroupsOctets(gs[1..]) + rest);
      SubgroupsRead(gs[1..], rest);
      assert [gs[0]] + gs[1..] == gs;
    }
  }

  lemma BaseReads(b: Base, rest: seq<Byte>)
    requires Countable(b)
    ensures PullBase(BaseOctets(b) + rest) == Got(b, rest)
  {
    var d := BaseOctets(b) + rest;
    assert d[..3] == ToLe24(b.pd) && d[3] == |b.subgroups| && d[4..] == SubgroupsOctets(b.subgroups) + rest;
    Le24RoundTrip(b.pd);
    SubgroupsRead(b.subgroups, rest);
  }

  // ---- what is read is what was written ----

  lemma LtvCanonical(d: seq<Byte>)
    requires PullLtv(d).Got?
    ensures var v := PullLtv(d); Ltv(v.value) + v.rest == d
  {}

  lemma BisCanonical(d: seq<Byte>)
    requires PullBis(d).Got?
    ensures var b := PullBis(d); BisOctets(b.value) + b.rest == d
  {
    var b := PullBis(d);
    LtvCanonical(d[1..]);
    Glue([d[0]], Ltv(b.value.data), b.rest);
    assert d == [d[0]] + d[1..];
  }

  lemma {:induction false} BisesCanonical(d: seq<Byte>, n: nat)
    requires PullBises(d, n).Got?
    ensures var bs := PullBises(d, n); |bs.value| == n && BisesOctets(bs.value) + bs.rest == d
    decreases n
  {
    if n > 0 {
      var b, bs := PullBis(d), PullBises(d, n);
      BisCanonical(d);
      BisesCanonical(b.rest, n - 1);
      assert bs.value[1..] == PullBises(b.rest, n - 1).value;
      Glue(BisOctets(b.value), BisesOctets(bs.value[1..]), bs.rest);
    }
  }

  lemma CodecCanonical(d: seq<Byte>)
    requires PullCodec(d).Got?
    ensures var c := PullCodec(d); CodecOctets(c.value) + c.rest == d
  {
    Le16RoundTrip(0, d[1], d[2]);
    Le16RoundTrip(0, d[3], d[4]);
  }

  lemma HeaderCanonical(d: seq<Byte>)
    requires PullHeader(d).Got?
    ensures var h := PullHeader(d);
            CodecOctets(h.value.codec) + (Ltv(h.value.config) + (Ltv(h.value.meta) + h.rest)) == d
  {
    var c := PullCodec(d);
    var cc := PullLtv(c.rest);
    CodecCanonical(d);
    LtvCanonical(c.rest);
    LtvCanonical(cc.rest);
  }

  lemma CountedCanonical(d: seq<Byte>, n: nat)
    requires PullCounted(d, n).Got?
    ensures var g := PullCounted(d, n); |g.value.bises| == n && CountedOctets(g.value) + g.rest == d
  {
    var g := PullCounted(d, n);
    HeaderCanonical(d);
    BisesCanonical(PullHeader(d).rest, n);
    CountedGlue(g.value, g.rest);
  }

  lemma SubgroupCanonical(d: seq<Byte>)
    requires PullSubgroup(d).Got?
    ensures var g := PullSubgroup(d); |g.value.bises| == d[0] < 256 && SubgroupOctets(g.value) + g.rest == d
  {
    var g := PullSubgroup(d);
    CountedCanonical(d[1..], d[0]);
    Glue([d[0]], CountedOctets(g.value), g.rest);
    assert d == [d[0]] + d[1..];
  }

  ghost predicate Reads(d: seq<Byte>, n: nat, gs: seq<Subgroup>, rest: seq<Byte>) {
    PullSubgroups(d, n) == Got(gs, rest)
  }

  /** What reading some subgroups amounts to, the first apart. */
  lemma SubgroupsParts(d: seq<Byte>, n: nat, gs: seq<Subgroup>, rest: seq<Byte>) returns (behind: seq<Byte>)
    requires n > 0 && Reads(d, n, gs, rest)
    ensures gs != [] && |gs[0].bises| < 256 && SubgroupOctets(gs[0]) + behind == d
    ensures Reads(behind, n - 1, gs[1..], rest)
  {
    behind := PullSubgroup(d).rest;
    SubgroupCanonical(d);
    assert gs[1..] == PullSubgroups(behind, n - 1).value;
  }

  lemma SubgroupsJoin(gs: seq<Subgroup>, rest: seq<Byte>, behind: seq<Byte>, d: seq<Byte>)
    requires gs != [] && |gs[0].bises| < 256 && Counted(gs[1..])
    requires SubgroupsOctets(gs[1..]) + rest == behind && SubgroupOctets(gs[0]) + behind == d
    ensures Counted(gs) && SubgroupsOctets(gs) + rest == d
  {
    assert forall i :: 0 < i < |gs| ==> gs[i] == gs[1..][i - 1];
    Glue(SubgroupOctets(gs[0]), SubgroupsOctets(gs[1..]), rest);
  }

  lemma NoneRead(d: seq<Byte>, gs: seq<Subgroup>, rest: seq<Byte>)
    requires Reads(d, 0, gs, rest)
    ensures gs == [] && rest == d && SubgroupsOctets(gs) + rest == d
  {
    assert [] + rest == rest;
  }

  lemma {:induction false} SubgroupsCanonical(d: seq<Byte>, n: nat, gs: seq<Subgroup>, rest: seq<Byte>)
    requires Reads(d, n, gs, rest)
    ensures |gs| == n && Counted(gs) && SubgroupsOctets(gs) + rest == d
    decreases n
  {
    hide PullSubgroup, Reads;
    if n == 0 {
      NoneRead(d, gs, rest);
    } else {
      var behind := SubgroupsParts(d, n, gs, rest);
      SubgroupsCanonical(behind, n - 1, gs[1..], rest);
      SubgroupsJoin(gs, rest, behind, d);
    }
  }

  lemma BaseCanonical(d: seq<Byte>)
    requires PullBase(d).Got?
    ensures var b := PullBase(d); Countable(b.value) && BaseOctets(b.value) + b.rest == d
  {
    var b := PullBase(d);
    SubgroupsCanonical(d[4..], d[3], b.value.subgroups, b.rest);
    Le24Canonical(d[..3]);
    var n, gs := [d[3]], SubgroupsOctets(b.value.subgroups);
    Glue(n, gs, b.rest);
    Glue(ToLe24(b.value.pd), n + gs, b.rest);
    assert d == d[..3] + (n + d[4..]);
  }

  // ---- the validator ----

  lemma AcceptedAsWritten(adType: Byte, d: seq<Byte>)
    requires Accept(adType, d).Some?
    ensures var b := Accept(adType, d).value;
            InRange(b) && Countable(b) && ToLe16(BASIC_AUDIO_UUID) + BaseOctets(b) <= d
  {
    var b := PullBase(d[2..]);
    BaseCanonical(d[2..]);
    assert d == d[..2] + (BaseOctets(b.value) + b.rest);
  }

  lemma WrittenIsAccepted(d: seq<Byte>, b: Base)
    requires InRange(b) && Countable(b) && ToLe16(BASIC_AUDIO_UUID) + BaseOctets(b) <= d
    ensures Accept(SVC_DATA16, d) == Some(b)
  {
    hide BaseOctets, PullBase, InRange, Countable;
    var uuid, o := ToLe16(BASIC_AUDIO_UUID), BaseOctets(b);
    Behind(uuid, o, d);
    BaseReads(b, d[2 + |o|..]);
    AtLeastMinimum(b);
  }

  lemma Behind(a: seq<Byte>, b: seq<Byte>, d: seq<Byte>)
    requires a + b <= d
    ensures d[..|a|] == a && d[|a|..] == b + d[|a| + |b|..]
  {
    assert d == a + b + d[|a| + |b|..];
  }

  /** An announcement is accepted, as `b`, exactly when it is the UUID and the octets of
      `b`, which is in range, with anything behind them. */
  lemma AcceptedExactly(adType: Byte, d: seq<Byte>, b: Base)
    ensures Accept(adType, d) == Some(b) <==>
            && adType == SVC_DATA16 && InRange(b) && Countable(b)
            && ToLe16(BASIC_AUDIO_UUID) + BaseOctets(b) <= d
  {
    if Accept(adType, d) == Some(b) { AcceptedAsWritten(adType, d); }
    if InRange(b) && Countable(b) && ToLe16(BASIC_AUDIO_UUID) + BaseOctets(b) <= d { WrittenIsAccepted(d, b); }
  }

  lemma AtLeastMinimum(b: Base)
    requires InRange(b) && Countable(b)
    ensures |BaseOctets(b)| >= BASE_MIN_SIZE - 2
  {
    var g := b.subgroups[0];
    assert |BisesOctets(g.bises)| >= 2;
  }

  /** The fixed windows through which the accessors look at an accepted structure
      (at most 254 octets of it fit an advertising structure) hold all of it. */
  lemma WindowSuffices(adType: Byte, d: seq<Byte>, b: Base, beyond: seq<Byte>)
    requires Accept(adType, d) == Some(b) && |d| <= 2 + BASE_MAX_SIZE
    requires |d| - 2 + |beyond| >= BASE_MAX_SIZE
    ensures PullBase((d[2..] + beyond)[..BASE_MAX_SIZE]).Got?
    ensures PullBase((d[2..] + beyond)[..BASE_MAX_SIZE]).value == b
  {
    AcceptedAsWritten(adType, d);
    var o := BaseOctets(b);
    var w := (d[2..] + beyond)[..BASE_MAX_SIZE];
    Behind(ToLe16(BASIC_AUDIO_UUID), o, d);
    assert w == o + w[|o|..];
    BaseReads(b, w[|o|..]);
  }

  lemma {:induction false} PartIsSmaller(gs: seq<Subgroup>, k: nat)
    requires Counted(gs) && k < |gs|
    ensures |SubgroupOctets(gs[k])| <= |SubgroupsOctets(gs)|
  {
    if k > 0 { PartIsSmaller(gs[1..], k - 1); }
  }

  /** The same of the window on one subgroup. */
  lemma SubgroupWindowSuffices(b: Base, k: nat, behind: seq<Byte>)
    requires Countable(b) && |BaseOctets(b)| <= BASE_MAX_SIZE && k < |b.subgroups|
    requires |SubgroupOctets(b.subgroups[k]) + behind| >= SUBGROUP_MAX_SIZE
    ensures PullSubgroup((SubgroupOctets(b.subgroups[k]) + behind)[..SUBGROUP_MAX_SIZE]).Got?
    ensures PullSubgroup((SubgroupOctets(b.subgroups[k]) + behind)[..SUBGROUP_MAX_SIZE]).value == b.subgroups[k]
  {
    PartIsSmaller(b.subgroups, k);
    var o := SubgroupOctets(b.subgroups[k]);
    var w := (o + behind)[..SUBGROUP_MAX_SIZE];
    assert w == o + w[|o|..];
    SubgroupReads(b.subgroups[k], w[|o|..]);
  }
}
