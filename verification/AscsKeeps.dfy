/** Every event keeps the invariant, hence every run does. */
module AscsKeeps {
  import opened Prelude
  import opened AscsSpec
  import opened AscsInv

  // ---- the record of callbacks ----

  lemma LogOne(log: seq<Callback>, c: Callback)
    ensures (log + [c])[..|log|] == log
    ensures Playing(log + [c]) == if c == Started then true else if c.Stopped? then false else Playing(log)
    ensures Alternates(log + [c]) <==>
            Alternates(log) && (c == Started ==> !Playing(log)) && (c.Stopped? ==> Playing(log) && c.reason != SUCCESS)
  {
    assert (log + [c])[..|log|] == log;
  }

  lemma LogExit(a: Ase, to: EpState)
    requires AseInv(a) && (a.state == Streaming ==> to != Streaming)
    ensures Alternates(a.log + ExitLog(a, a.state, to)) && !Playing(a.log + ExitLog(a, a.state, to))
  {
    hide Playing, Alternates;
    var log := a.log;
    assert log + [] == log;
    if a.state == Streaming {
      var stop := Stopped(if a.reason == SUCCESS then UNSPECIFIED else a.reason);
      LogOne(log, Disabled);
      LogOne(log, stop);
      LogOne(log + [Disabled], stop);
      assert log + ([Disabled] + [stop]) == log + [Disabled] + [stop];
      assert log + ([] + [stop]) == log + [stop];
    } else {
      LogOne(log, Disabled);
    }
  }

  // ---- one endpoint ----

  /** Nothing of the links between endpoints and channels changed. */
  predicate SameLink(a: Ase, b: Ase) {
    a.conn == b.conn && a.id == b.id && a.dir == b.dir && a.iso == b.iso && a.cig == b.cig && a.cis == b.cis
  }

  /** A committed transition, but for the freeing of an ASE that became idle. */
  lemma CommitKeeps(a: Ase, connected: bool, canDisconnect: bool)
    requires AseInv(a) && a.conn != None && a.stream && a.work == NotQueued && Legal(a)
    ensures var b := Commit(a, connected, canDisconnect);
            SameLink(a, b) && (if a.pending == Idle then AseInv(b.(conn := None, disconnect := false, work := NotQueued, iso := None)) else AseInv(b))
  {
    var to := a.pending;
    if a.state == to && (to == Enabling || to == Streaming) {
      LogOne(a.log, MetadataUpdated);
    } else {
      assert a.state == Streaming ==> to != Streaming;
      LogExit(a, to);
      var c := a.(state := to, log := a.log + ExitLog(a, a.state, to));
      EnterKeeps(c, connected, canDisconnect);
    }
  }

  lemma EnterKeeps(c: Ase, connected: bool, canDisconnect: bool)
    requires c.conn != None && c.stream && c.work == NotQueued && Alternates(c.log) && !Playing(c.log)
    requires c.state == Disabling ==> c.dir == Source
    ensures var b := Enter(c, connected, canDisconnect);
            && SameLink(c, b)
            && if c.state == Idle then AseInv(b.(conn := None, disconnect := false, work := NotQueued, iso := None))
               else AseInv(b)
  {
    match c.state {
      case Idle => LogOne(c.log, Released);
      case CodecConfigured => LogOne(c.log, Configured);
      case QosConfigured => LogOne(c.log, QosSet);
      case Enabling => EnterEnablingKeeps(c, connected, canDisconnect);
      case Streaming => LogOne(c.log, Started);
      case Disabling => LogOne(c.log, Disabled);
      case Releasing => EnterReleasingKeeps(c, connected, canDisconnect);
    }
  }

  lemma EnterEnablingKeeps(c: Ase, connected: bool, canDisconnect: bool)
    requires c.conn != None && c.stream && c.work == NotQueued && Alternates(c.log) && !Playing(c.log)
    requires c.state == Enabling
    ensures var b := Enter(c, connected, canDisconnect); SameLink(c, b) && AseInv(b)
  {
    hide Playing, Alternates;
    LogOne(c.log, Enabled);
  }

  lemma EnterReleasingKeeps(c: Ase, connected: bool, canDisconnect: bool)
    requires c.conn != None && c.stream && c.work == NotQueued && Alternates(c.log) && !Playing(c.log)
    requires c.state == Releasing
    ensures var b := Enter(c, connected, canDisconnect); SameLink(c, b) && AseInv(b)
  {}

  lemma EnableKeeps(a: Ase, ok: bool)
    requires AseInv(a)
    ensures AseInv(Enable(a, ok)) && SameLink(a, Enable(a, ok))
  {}

  lemma StartKeeps(a: Ase, connected: bool, ok: bool)
    requires AseInv(a)
    ensures AseInv(Start(a, connected, ok)) && SameLink(a, Start(a, connected, ok))
  {}

  lemma DisableKeeps(a: Ase, reason: nat, ok: bool)
    requires AseInv(a)
    ensures AseInv(Disable(a, reason, ok)) && SameLink(a, Disable(a, reason, ok))
  {}

  lemma StopKeeps(a: Ase, canDisconnect: bool, ok: bool)
    requires AseInv(a)
    ensures AseInv(Stop(a, canDisconnect, ok)) && SameLink(a, Stop(a, canDisconnect, ok))
  {}

  lemma MetadataKeeps(a: Ase, ok: bool)
    requires AseInv(a)
    ensures AseInv(Metadata(a, ok)) && SameLink(a, Metadata(a, ok))
  {}

  lemma ReleaseKeeps(a: Ase, reason: nat, ok: bool)
    requires AseInv(a)
    ensures AseInv(Release(a, reason, ok)) && SameLink(a, Release(a, reason, ok))
  {}

  /** Every operation on one ASE found for a client. */
  lemma OperateKeeps(s: State, op: Op, i: nat, ok: bool)
    requires i < |s.ases| && AseInv(s.ases[i])
    ensures AseInv(Operate(s, op, i, ok)) && SameLink(s.ases[i], Operate(s, op, i, ok))
  {
    var a := s.ases[i];
    match op {
      case OpEnable => EnableKeeps(a, ok);
      case OpStart => StartKeeps(a, ChanIs(s, a, Connected), ok);
      case OpDisable => DisableKeeps(a, REMOTE_USER_TERM_CONN, ok);
      case OpStop => StopKeeps(a, CanDisconnect(s, i), ok);
      case OpMetadata => MetadataKeeps(a, ok);
      case OpRelease => ReleaseKeeps(a, REMOTE_USER_TERM_CONN, ok);
    }
  }

  lemma ConfigKeeps(a: Ase, ok: bool)
    requires AseInv(a) && a.conn != None
    ensures AseInv(Config(a, ok)) && SameLink(a, Config(a, ok))
  {}

  lemma ReconfigKeeps(a: Ase)
    requires AseInv(a) && a.conn != None && a.stream
    ensures AseInv(Request(a, CodecConfigured)) && SameLink(a, Request(a, CodecConfigured))
  {}

  lemma SameStateKeeps(a: Ase)
    requires AseInv(a) && a.conn != None && a.stream
    ensures AseInv(Request(a, a.state)) && SameLink(a, Request(a, a.state))
  {}

  lemma StreamingKeeps(a: Ase)
    requires AseInv(a) && a.conn != None && a.stream
    ensures AseInv(Request(a, Streaming)) && SameLink(a, Request(a, Streaming))
  {}

  /** Every call of the application on an ASE of its own. */
  lemma OperateLocalKeeps(s: State, op: LocalOp, i: nat, ok: bool)
    requires Owned(s, i) && AseInv(s.ases[i])
    ensures AseInv(OperateLocal(s, op, i, ok)) && SameLink(s.ases[i], OperateLocal(s, op, i, ok))
  {
    match op {
      case LocalReconfig => ReconfigKeeps(s.ases[i]);
      case LocalMetadata => SameStateKeeps(s.ases[i]);
      case LocalDisable => DisableKeeps(s.ases[i], LOCALHOST_TERM_CONN, ok);
      case LocalStart => StreamingKeeps(s.ases[i]);
    }
  }

  lemma EpConnectedKeeps(a: Ase)
    requires AseInv(a)
    ensures AseInv(EpConnected(a)) && SameLink(a, EpConnected(a))
  {
    LogOne(a.log, IsoUp);
  }

  lemma EpDisconnectedKeeps(a: Ase, reason: nat)
    requires AseInv(a) && a.iso != None
    ensures AseInv(EpDisconnected(a, reason)) && SameLink(a, EpDisconnected(a, reason))
  {
    LogOne(a.log, IsoDown(reason));
  }

  lemma NewKeeps(s: State, a: Ase, conn: nat, id: nat)
    requires AseInv(a) && a.conn == None
    ensures AseInv(NewAse(s, a, conn, id))
  {}

  // ---- links ----

  /** Endpoints and channels point to each other as before. */
  predicate SameLinks(s: State, u: State) {
    && |u.ases| == |s.ases| && |u.isos| == |s.isos| && u.sinks == s.sinks && u.count == s.count
    && (forall i :: 0 <= i < |s.ases| ==> SameLink(s.ases[i], u.ases[i]))
    && (forall k :: 0 <= k < |s.isos| ==>
          u.isos[k].ref == s.isos[k].ref && u.isos[k].rx == s.isos[k].rx && u.isos[k].tx == s.isos[k].tx)
  }

  lemma SameLinksKeep(s: State, u: State)
    requires Linked(s) && SameLinks(s, u)
    ensures Linked(u)
  {
    forall i | 0 <= i < |u.ases| ensures AseBound(u, i) { assert AseBound(s, i); }
    forall k | 0 <= k < |u.isos| ensures IsoInv(u, k) { assert IsoInv(s, k); }
    forall i, j | 0 <= i < |u.ases| && 0 <= j < |u.ases| ensures Shares(u, i, j) && OneEach(u, i, j) {
      assert Shares(s, i, j) && OneEach(s, i, j);
    }
  }

  /** One endpoint changed, not its links. */
  lemma SetKeeps(s: State, i: nat, a: Ase)
    requires Inv(s) && i < |s.ases| && AseInv(a) && SameLink(s.ases[i], a)
    ensures Inv(SetAse(s, i, a)) && SameLinks(s, SetAse(s, i, a))
  {
    SameLinksKeep(s, SetAse(s, i, a));
  }

  lemma ChanKeeps(s: State, k: nat, chan: Chan)
    requires Inv(s) && k < |s.isos|
    ensures Inv(SetIso(s, k, s.isos[k].(chan := chan))) && SameLinks(s, SetIso(s, k, s.isos[k].(chan := chan)))
  {
    SameLinksKeep(s, SetIso(s, k, s.isos[k].(chan := chan)));
  }

  // ---- unbinding and freeing ----

  lemma UnbindLinks(s: State, i: nat)
    requires Linked(s) && i < |s.ases|
    ensures Linked(Unbind(s, i))
    ensures var u := Unbind(s, i);
            && |u.ases| == |s.ases| && |u.isos| == |s.isos| && u.ases[i] == s.ases[i].(iso := None)
            && (forall j :: 0 <= j < |s.ases| && j != i ==> u.ases[j] == s.ases[j])
  {
    var u, a := Unbind(s, i), s.ases[i];
    assert AseBound(s, i);
    if a.iso != None {
      var k := a.iso.value;
      assert IsoInv(s, k);
      forall j | 0 <= j < |u.ases| ensures AseBound(u, j) { assert AseBound(s, j); }
      forall n | 0 <= n < |u.isos| ensures IsoInv(u, n) { assert IsoInv(s, n); UnbindIso(s, i, n); }
      forall m, n | 0 <= m < |u.ases| && 0 <= n < |u.ases| ensures Shares(u, m, n) && OneEach(u, m, n) {
        assert Shares(s, m, n) && OneEach(s, m, n);
      }
    }
  }

  lemma UnbindIso(s: State, i: nat, n: nat)
    requires i < |s.ases| && AseBound(s, i) && s.ases[i].iso != None && n < |s.isos| && IsoInv(s, n)
    ensures |Unbind(s, i).isos| == |s.isos| && IsoInv(Unbind(s, i), n)
  {}

  /** An endpoint without a channel can be changed freely, as long as ids stay apart. */
  lemma ReplaceLinks(s: State, i: nat, a: Ase)
    requires Linked(s) && i < |s.ases| && s.ases[i].iso == None && a.iso == None
    requires a.conn != None ==>
               forall j :: 0 <= j < |s.ases| && j != i && s.ases[j].conn == a.conn ==> s.ases[j].id != a.id
    ensures Linked(SetAse(s, i, a))
  {
    var u := SetAse(s, i, a);
    forall j | 0 <= j < |u.ases| ensures AseBound(u, j) { assert AseBound(s, j); }
    forall n | 0 <= n < |u.isos| ensures IsoInv(u, n) { assert IsoInv(s, n); }
    forall m, n | 0 <= m < |u.ases| && 0 <= n < |u.ases| ensures Shares(u, m, n) && OneEach(u, m, n) {
      assert Shares(s, m, n) && OneEach(s, m, n);
    }
  }

  lemma FreeKeeps(s: State, i: nat)
    requires Linked(s) && i < |s.ases| && (forall j :: 0 <= j < |s.ases| && j != i ==> AseInv(s.ases[j]))
    requires AseInv(s.ases[i].(conn := None, disconnect := false, work := NotQueued, iso := None))
    ensures Inv(Free(s, i))
  {
    UnbindLinks(s, i);
    ReplaceLinks(Unbind(s, i), i, Unbind(s, i).ases[i].(conn := None, disconnect := false, work := NotQueued));
  }

  // ---- binding ----

  /** The channel `k` as ase_qos finds or resets it, without the caller's reference. */
  function Base(s: State, k: nat): Iso
    requires k < |s.isos|
  {
    if s.isos[k].ref == 0 then UnusedIso else s.isos[k]
  }

  /** The channel ase_qos gets: the one carrying the CIS, or a free one if none does. */
  lemma IsoForGets(s: State, conn: Option<nat>, cig: nat, cis: nat)
    ensures
      var (u, k) := IsoFor(s, conn, cig, cis);
      if k == None then u == s
      else
        && k.value < |s.isos| && u == SetIso(s, k.value, Base(s, k.value).(ref := s.isos[k.value].ref + 1))
        && (s.isos[k.value].ref == 0 ==> forall j :: 0 <= j < |s.isos| ==> !Carries(s, s.isos[j], conn, cig, cis))
        && (s.isos[k.value].ref != 0 ==> Carries(s, s.isos[k.value], conn, cig, cis))
  {
    var k := FindIso(s, conn, cig, cis, 0);
    if k < |s.isos| { assert s.isos[k].ref > 0; }
  }

  /** A bound endpoint's CIS is carried by its channel. */
  lemma BoundCarries(s: State, i: nat)
    requires Linked(s) && i < |s.ases| && s.ases[i].iso != None
    ensures
      var k := s.ases[i].iso.value;
      k < |s.isos| && Carries(s, s.isos[k], s.ases[i].conn, s.ases[i].cig, s.ases[i].cis)
  {
    assert AseBound(s, i);
    var k := s.ases[i].iso.value;
    var ep := if s.isos[k].rx != None then s.isos[k].rx else s.isos[k].tx;
    assert IsoInv(s, k);
    assert Shares(s, i, ep.value);
  }

  /** An endpoint sits on channel `k` exactly when it names the CIS ase_qos chose `k` for. */
  predicate Chosen(s: State, k: nat, conn: Option<nat>, cig: nat, cis: nat) {
    forall j :: 0 <= j < |s.ases| && s.ases[j].iso != None ==>
      (s.ases[j].iso == Some(k) <==> s.ases[j].conn == conn && s.ases[j].cig == cig && s.ases[j].cis == cis)
  }

  lemma IsoForChooses(s: State, conn: Option<nat>, cig: nat, cis: nat)
    requires Linked(s) && IsoFor(s, conn, cig, cis).1 != None
    ensures Chosen(s, IsoFor(s, conn, cig, cis).1.value, conn, cig, cis)
  {
    var k := IsoFor(s, conn, cig, cis).1.value;
    IsoForGets(s, conn, cig, cis);
    forall j | 0 <= j < |s.ases| && s.ases[j].iso != None
      ensures s.ases[j].iso == Some(k) <==> s.ases[j].conn == conn && s.ases[j].cig == cig && s.ases[j].cis == cis
    {
      BoundCarries(s, j);
      assert IsoInv(s, k) && AseBound(s, j);
      if s.isos[k].ref != 0 {
        var ep := if s.isos[k].rx != None then s.isos[k].rx else s.isos[k].tx;
        assert Shares(s, j, ep.value);
      }
    }
  }

  ghost function BoundState(s: State, i: nat, k: nat, a: Ase): State
    requires i < |s.ases| && k < |s.isos|
  {
    SetAse(SetIso(s, k, WithSlot(Base(s, k), a.dir, Some(i)).(ref := s.isos[k].ref + 1)), i, a)
  }

  lemma BindLinks(s: State, i: nat, k: nat, a: Ase)
    requires Linked(s) && i < |s.ases| && k < |s.isos| && s.ases[i].iso == None
    requires a.iso == Some(k) && a.conn == s.ases[i].conn && a.id == s.ases[i].id && a.dir == s.ases[i].dir
    requires Slot(Base(s, k), a.dir) == None && Chosen(s, k, a.conn, a.cig, a.cis)
    ensures Linked(BoundState(s, i, k, a))
  {
    var u := BoundState(s, i, k, a);
    assert IsoInv(s, k);
    forall j | 0 <= j < |u.ases| ensures AseBound(u, j) { assert AseBound(s, j); }
    forall n | 0 <= n < |u.isos| ensures IsoInv(u, n) { assert IsoInv(s, n); }
    forall m, n | 0 <= m < |u.ases| && 0 <= n < |u.ases| ensures Shares(u, m, n) && OneEach(u, m, n) {
      assert Shares(s, m, n) && OneEach(s, m, n);
    }
  }

  // ---- QoS ----

  lemma QosUnboundKeeps(s: State, i: nat, cig: nat, cis: nat)
    requires Inv(s) && i < |s.ases|
    ensures
      var u := QosUnbound(s, i, cig, cis);
      && Inv(u) && |u.ases| == |s.ases|
      && (u.ases[i] == s.ases[i] || u.ases[i] == s.ases[i].(iso := None, streamIso := None))
      && (u.ases[i].iso != None ==> u.ases[i].cig == cig && u.ases[i].cis == cis)
  {
    UnbindLinks(s, i);
    var v := Unbind(s, i);
    assert AseInv(s.ases[i]);
    assert Inv(v) by { forall j | 0 <= j < |v.ases| ensures AseInv(v.ases[j]) { assert AseInv(s.ases[j]); } }
    SetKeeps(v, i, v.ases[i].(streamIso := None));
  }

  lemma QosBoundGets(s: State, i: nat, cig: nat, cis: nat)
    requires Linked(s) && i < |s.ases| && s.ases[i].iso == None
    ensures
      var b := QosBound(s, i, cig, cis);
      if !QosBinds(s, i, cig, cis) then b == s
      else
        var k := IsoFor(s, s.ases[i].conn, cig, cis).1;
        && k != None && k.value < |s.isos| && Slot(Base(s, k.value), s.ases[i].dir) == None
        && b == BoundState(s, i, k.value, s.ases[i].(iso := k, streamIso := k))
  {
    hide IsoFor, Linked;
    IsoForGets(s, s.ases[i].conn, cig, cis);
    var k := IsoFor(s, s.ases[i].conn, cig, cis).1;
    if k != None {
      UnusedIsFree(s, k.value);
      assert s.isos[k.value := s.isos[k.value]] == s.isos;
    }
  }

  lemma UnusedIsFree(s: State, k: nat)
    requires Linked(s) && k < |s.isos|
    ensures s.isos[k].ref == 0 ==> s.isos[k].rx == None && s.isos[k].tx == None
  {
    assert IsoInv(s, k);
  }

  lemma QosKeeps(s: State, i: nat, cig: nat, cis: nat, ok: bool)
    requires Inv(s) && i < |s.ases|
    ensures Inv(Qos(s, i, cig, cis, ok))
  {
    var a := s.ases[i];
    assert AseInv(a);
    if QosAdmitted(a, ok) {
      var u := QosUnbound(s, i, cig, cis);
      QosUnboundKeeps(s, i, cig, cis);
      var a' := Request(u.ases[i].(cig := cig, cis := cis), QosConfigured);
      if u.ases[i].iso != None {
        SetKeeps(u, i, a');
      } else {
        QosBoundGets(u, i, cig, cis);
        if QosBinds(u, i, cig, cis) { QosBindKeeps(u, i, cig, cis); }
      }
    }
  }

  lemma QosBindKeeps(s: State, i: nat, cig: nat, cis: nat)
    requires Inv(s) && i < |s.ases| && s.ases[i].iso == None && QosBinds(s, i, cig, cis)
    requires QosAdmitted(s.ases[i], true)
    ensures Inv(SetAse(QosBound(s, i, cig, cis), i,
                       Request(QosBound(s, i, cig, cis).ases[i].(cig := cig, cis := cis), QosConfigured)))
  {
    var a, b := s.ases[i], QosBound(s, i, cig, cis);
    assert AseInv(a);
    QosBoundGets(s, i, cig, cis);
    var k := IsoFor(s, a.conn, cig, cis).1;
    IsoForChooses(s, a.conn, cig, cis);
    var c := Request(b.ases[i].(cig := cig, cis := cis), QosConfigured);
    BindLinks(s, i, k.value, c);
    assert SetAse(b, i, c) == BoundState(s, i, k.value, c);
    assert AseInv(c);
  }
}
