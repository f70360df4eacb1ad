/** Every event of the endpoints keeps the invariant, hence every run does. */
module AscsSteps {
  import opened Prelude
  import opened AscsSpec
  import opened AscsInv
  import opened AscsKeeps

  // ---- the transition work ----

  lemma TransitionKeeps(s: State, i: nat)
    requires Linked(s) && i < |s.ases| && (forall j :: 0 <= j < |s.ases| && j != i ==> AseInv(s.ases[j]))
    requires AseInv(s.ases[i].(work := NotQueued)) && s.ases[i].conn != None && s.ases[i].stream
    requires Legal(s.ases[i]) && (s.ases[i].pending != Idle ==> s.ases[i].work == NotQueued)
    ensures Inv(Transition(s, i))
  {
    hide AseInv, Linked, Legal, ChanIs, CanDisconnect, Free, Commit;
    var a := s.ases[i];
    var moved := SetAse(s, i, a.(state := a.pending));
    var connected, canDisconnect := ChanIs(s, a, Connected), CanDisconnect(moved, i);
    var b := Commit(a, connected, canDisconnect);
    var u := SetAse(s, i, b);
    if a.pending == Idle {
      IdleCommit(a, connected, canDisconnect);
      SameLinksKeep(s, u);
      FreeKeeps(u, i);
    } else {
      CommitKeeps(a, connected, canDisconnect);
      SameLinksKeep(s, u);
    }
  }

  /** Becoming idle leaves what ase_free expects, queued or not. */
  lemma IdleCommit(a: Ase, connected: bool, canDisconnect: bool)
    requires AseInv(a.(work := NotQueued)) && a.conn != None && a.stream && a.pending == Idle
    ensures var b := Commit(a, connected, canDisconnect);
            SameLink(a, b) && AseInv(b.(conn := None, disconnect := false, work := NotQueued, iso := None))
  {
    hide AseInv, Commit;
    CommitKeeps(a.(work := NotQueued), connected, canDisconnect);
    CommitIgnoresWork(a, connected, canDisconnect);
  }

  lemma CommitIgnoresWork(a: Ase, connected: bool, canDisconnect: bool)
    requires a.pending == Idle
    ensures Commit(a, connected, canDisconnect) == Commit(a.(work := NotQueued), connected, canDisconnect).(work := a.work)
  {
    hide ExitLog, Enter;
    var log := a.log + ExitLog(a, a.state, Idle);
    ExitIgnoresWork(a);
    EnterIdle(a.(state := Idle, log := log), connected, canDisconnect);
    EnterIdle(a.(work := NotQueued, state := Idle, log := log), connected, canDisconnect);
  }

  lemma ExitIgnoresWork(a: Ase)
    ensures ExitLog(a.(work := NotQueued), a.state, Idle) == ExitLog(a, a.state, Idle)
  {}

  lemma EnterIdle(a: Ase, connected: bool, canDisconnect: bool)
    requires a.state == Idle
    ensures Enter(a, connected, canDisconnect)
            == a.(receiverReady := false, streamIso := None, stream := false, log := a.log + [Released])
  {}

  lemma RunWorkKeeps(s: State, i: nat, noMem: bool)
    requires Inv(s) && i < |s.ases| && s.ases[i].work != NotQueued
    ensures Inv(RunWork(s, i, noMem))
  {
    var a := s.ases[i];
    assert AseInv(a);
    if a.conn != None && noMem {
      SetKeeps(s, i, a.(work := Delayed));
    } else {
      var t := SetAse(s, i, a.(work := NotQueued));
      SetKeeps(s, i, a.(work := NotQueued));
      TransitionKeeps(t, i);
    }
  }

  lemma AclDownKeeps(s: State, i: nat, conn: nat, reason: nat)
    requires Inv(s) && i < |s.ases|
    ensures Inv(AclDown(s, i, conn, reason))
  {
    var a := s.ases[i];
    assert AseInv(a);
    if a.conn == Some(conn) && a.state != Idle {
      var t := SetAse(s, i, a.(reason := reason, pending := Idle));
      SameLinksKeep(s, t);
      TransitionKeeps(t, i);
    }
  }

  lemma {:induction false} AclRoundsKeep(s: State, n: nat, conn: nat, reason: nat)
    requires Inv(s) && n <= |s.ases|
    ensures Inv(AclRounds(s, n, conn, reason))
  {
    hide Inv, AclDown;
    if n > 0 {
      AclRoundsKeep(s, n - 1, conn, reason);
      AclDownKeeps(AclRounds(s, n - 1, conn, reason), n - 1, conn, reason);
    }
  }

  // ---- allocation ----

  lemma NewInv(s: State, f: nat, conn: nat, id: nat, a: Ase)
    requires Inv(s) && f < |s.ases| && s.ases[f].conn == None && FindAse(s.ases, conn, id, 0) == |s.ases|
    requires AseInv(a) && SameLink(NewAse(s, s.ases[f], conn, id), a)
    ensures Inv(SetAse(s, f, a))
  {
    assert AseInv(s.ases[f]);
    forall j | 0 <= j < |s.ases| && j != f && s.ases[j].conn == Some(conn) ensures s.ases[j].id != id {
      assert !Is(s.ases[j], conn, id);
    }
    ReplaceLinks(s, f, a);
  }

  lemma ConfigOpKeeps(s: State, conn: nat, id: nat, ok: bool)
    requires Inv(s)
    ensures Inv(ConfigOp(s, conn, id, ok))
  {
    var i, f := FindAse(s.ases, conn, id, 0), FreeSlot(s.ases, 0);
    if ValidId(s, id) {
      if i < |s.ases| {
        ConfigKeeps(s.ases[i], ok);
        SetKeeps(s, i, Config(s.ases[i], ok));
      } else if f < |s.ases| {
        var a := NewAse(s, s.ases[f], conn, id);
        NewKeeps(s, s.ases[f], conn, id);
        ConfigKeeps(a, ok);
        NewInv(s, f, conn, id, Config(a, ok));
        var u := SetAse(s, f, Config(a, ok));
        if !ok { FreeKeeps(u, f); }
      }
    }
  }

  lemma ConfigLocalKeeps(s: State, conn: nat, ok: bool)
    requires Inv(s)
    ensures Inv(ConfigLocal(s, conn, ok))
  {
    var id, f := FreeId(s, conn, 1), FreeSlot(s.ases, 0);
    if id <= s.count && f < |s.ases| {
      var a := NewAse(s, s.ases[f], conn, id);
      NewKeeps(s, s.ases[f], conn, id);
      ReconfigKeeps(a.(stream := true));
      NewInv(s, f, conn, id, if ok then Request(a.(stream := true), CodecConfigured) else a);
    }
  }

  lemma ReleaseLocalKeeps(s: State, i: nat, ok: bool)
    requires Inv(s) && i < |s.ases| && s.ases[i].conn != None
    ensures Inv(ReleaseLocal(s, i, ok))
  {
    var a := s.ases[i];
    assert AseInv(a);
    if a.state == Idle {
      FreeKeeps(s, i);
    } else {
      ReleaseKeeps(a, LOCALHOST_TERM_CONN, ok);
      SetKeeps(s, i, Release(a, LOCALHOST_TERM_CONN, ok));
    }
  }

  // ---- the channels ----

  /** The endpoint in a slot is bound. */
  lemma OnSlotKeeps(s: State, ep: Option<nat>, down: bool, reason: nat)
    requires Inv(s) && (ep != None && ep.value < |s.ases| ==> s.ases[ep.value].iso != None)
    ensures Inv(OnSlot(s, ep, down, reason)) && SameLinks(s, OnSlot(s, ep, down, reason))
  {
    if ep != None && ep.value < |s.ases| {
      var a := s.ases[ep.value];
      assert AseInv(a);
      if down { EpDisconnectedKeeps(a, reason); } else { EpConnectedKeeps(a); }
      SetKeeps(s, ep.value, if down then EpDisconnected(a, reason) else EpConnected(a));
    }
  }

  lemma BothSlotsKeep(s: State, k: nat, chan: Chan, down: bool, reason: nat)
    requires Inv(s) && k < |s.isos|
    ensures
      var u := SetIso(s, k, s.isos[k].(chan := chan));
      Inv(OnSlot(OnSlot(u, s.isos[k].rx, down, reason), s.isos[k].tx, down, reason))
  {
    var u := SetIso(s, k, s.isos[k].(chan := chan));
    ChanKeeps(s, k, chan);
    assert IsoInv(s, k);
    OnSlotKeeps(u, s.isos[k].rx, down, reason);
    OnSlotKeeps(OnSlot(u, s.isos[k].rx, down, reason), s.isos[k].tx, down, reason);
  }

  lemma DisconnectWorkKeeps(s: State, i: nat, ok: bool)
    requires Inv(s) && i < |s.ases|
    ensures Inv(DisconnectWork(s, i, ok))
  {
    var a := s.ases[i];
    assert AseInv(a);
    SetKeeps(s, i, a.(disconnect := false));
    if ok && ChanUp(s, a) { ChanKeeps(SetAse(s, i, a.(disconnect := false)), a.iso.value, Disconnecting); }
  }

  lemma IsoAcceptKeeps(s: State, conn: nat, cig: nat, cis: nat, encrypt: bool)
    requires Inv(s)
    ensures Inv(IsoAccept(s, conn, cig, cis, encrypt))
  {
    var i := FindCis(s.ases, conn, cig, cis, 0);
    if i < |s.ases| && ChanIs(s, s.ases[i], Disconnected) {
      ChanKeeps(s, s.ases[i].iso.value, if encrypt then EncryptPending else Connecting);
    }
  }

  // ---- all events ----

  /** Every event keeps the invariant. */
  lemma StepKeeps(s: State, e: Event)
    requires Inv(s) && CanHappen(s, e)
    ensures Inv(Step(s, e))
  {
    match e {
      case EConfig(conn, id, ok) => ConfigOpKeeps(s, conn, id, ok);
      case EQos(conn, id, cig, cis, ok) =>
        var i := FindAse(s.ases, conn, id, 0);
        if i < |s.ases| { QosKeeps(s, i, cig, cis, ok); }
      case EOperate(op, conn, id, ok) =>
        var i := FindAse(s.ases, conn, id, 0);
        if i < |s.ases| { OperateKeeps(s, op, i, ok); SetKeeps(s, i, Operate(s, op, i, ok)); }
      case EConfigLocal(conn, ok) => ConfigLocalKeeps(s, conn, ok);
      case EOperateLocal(op, i, ok) =>
        OperateLocalKeeps(s, op, i, ok);
        SetKeeps(s, i, OperateLocal(s, op, i, ok));
      case EReleaseLocal(i, ok) => ReleaseLocalKeeps(s, i, ok);
      case EIsoAccept(conn, cig, cis, encrypt) => IsoAcceptKeeps(s, conn, cig, cis, encrypt);
      case EIsoConnected(k) => BothSlotsKeep(s, k, Connected, false, 0);
      case EIsoDisconnected(k, reason) => BothSlotsKeep(s, k, Disconnected, true, reason);
      case EAclDisconnected(conn, reason) => AclRoundsKeep(s, |s.ases|, conn, reason);
      case EWork(i, noMem) => RunWorkKeeps(s, i, noMem);
      case EDisconnectWork(i, ok) => DisconnectWorkKeeps(s, i, ok);
    }
  }

  lemma InitialInv(s: State)
    requires Initial(s)
    ensures Inv(s)
  {
    forall i | 0 <= i < |s.ases| ensures AseInv(s.ases[i]) && AseBound(s, i) {}
    forall k | 0 <= k < |s.isos| ensures IsoInv(s, k) {}
  }

  /** Every reachable state satisfies the invariant. */
  lemma {:induction false} RunKeeps(s: State, es: seq<Event>)
    requires Inv(s) && Runs(s, es)
    ensures Inv(Exec(s, es))
    decreases |es|
  {
    if es != [] {
      StepKeeps(s, es[0]);
      RunKeeps(Step(s, es[0]), es[1..]);
    }
  }
}
