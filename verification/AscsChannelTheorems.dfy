/** When the state of an endpoint and the state of its channel part company. */
module AscsChannelTheorems {
  import opened Prelude
  import opened AscsSpec
  import opened AscsInv
  import opened AscsKeeps
  import opened AscsSteps
  import opened AscsTheorems
  import opened AscsIsoTheorems

  /** Every channel is in the state it was in. */
  predicate SameChans(s: State, u: State) {
    |u.isos| == |s.isos| && forall k :: 0 <= k < |s.isos| ==> u.isos[k].chan == s.isos[k].chan
  }

  lemma TransitionChans(s: State, i: nat)
    requires i < |s.ases|
    ensures SameChans(s, Transition(s, i))
  {}

  lemma AclDownChans(s: State, i: nat, conn: nat, reason: nat)
    requires i < |s.ases|
    ensures SameChans(s, AclDown(s, i, conn, reason))
  {
    var a := s.ases[i];
    if a.conn == Some(conn) && a.state != Idle {
      TransitionChans(SetAse(s, i, a.(reason := reason, pending := Idle)), i);
    }
  }

  lemma {:induction false} AclChans(s: State, n: nat, conn: nat, reason: nat)
    requires n <= |s.ases|
    ensures SameChans(s, AclRounds(s, n, conn, reason))
  {
    if n > 0 {
      AclChans(s, n - 1, conn, reason);
      AclDownChans(AclRounds(s, n - 1, conn, reason), n - 1, conn, reason);
    }
  }

  /** A QoS write for endpoint `j` leaves the channel of every other endpoint as it is. */
  lemma QosElsewhere(s: State, j: nat, cig: nat, cis: nat, ok: bool, i: nat)
    requires Inv(s) && j < |s.ases| && i < |s.ases| && i != j && s.ases[i].iso != None
    ensures
      var k, u := s.ases[i].iso.value, Qos(s, j, cig, cis, ok);
      k < |s.isos| == |u.isos| && u.isos[k].chan == s.isos[k].chan
  {
    assert AseBound(s, i);
    var v := QosUnbound(s, j, cig, cis);
    QosUnboundKeeps(s, j, cig, cis);
    UnbindAse(s, j);
    assert AseBound(v, i) && IsoInv(v, s.ases[i].iso.value);
    if v.ases[j].iso == None { QosBoundGets(v, j, cig, cis); }
  }

  // ---- streaming on a channel that is gone ----

  predicate Alive(s: State, a: Ase) { ChanIs(s, a, Connected) || ChanIs(s, a, Disconnecting) }

  /** The endpoint is Streaming on a channel that is not up, and nothing that waits for the
      work handler will take it out of that state. */
  predicate Stranded(s: State, i: nat) {
    && i < |s.ases|
    && var a := s.ases[i];
       a.state == Streaming && !Alive(s, a) && (a.work == NotQueued || a.pending == Streaming)
  }

  /** Streaming is committed after the channel went down; or a metadata update comes
      between the loss of the channel and the transition it asked for. */
  predicate Strands(s: State, e: Event, i: nat)
    requires i < |s.ases|
  {
    var a := s.ases[i];
    && !Alive(s, a)
    && match e
       case EWork(j, noMem) => j == i && !noMem && a.state == Enabling && a.pending == Streaming
       case EOperate(OpMetadata, conn, id, ok) =>
         ok && ValidId(s, id) && FindAse(s.ases, conn, id, 0) == i && a.state == Streaming
       case EOperateLocal(LocalMetadata, j, ok) => j == i && ok && a.state == Streaming
       case _ => false
  }

  /** The endpoint and the state of its channel are as before, or it is not Streaming. */
  predicate Untouched(s: State, u: State, i: nat)
    requires i < |s.ases|
  {
    && i < |u.ases| && u.ases[i].state == s.ases[i].state
    && (s.ases[i].state == Streaming ==>
          && u.ases[i].work == s.ases[i].work && u.ases[i].pending == s.ases[i].pending
          && (Alive(s, s.ases[i]) <==> Alive(u, u.ases[i])))
  }

  lemma ConfigUntouched(s: State, conn: nat, id: nat, ok: bool, i: nat)
    requires Inv(s) && i < |s.ases|
    ensures Untouched(s, ConfigOp(s, conn, id, ok), i)
  {
    var j, f := FindAse(s.ases, conn, id, 0), FreeSlot(s.ases, 0);
    if ValidId(s, id) && j == |s.ases| && f < |s.ases| {
      assert AseInv(s.ases[f]);
      var u := SetAse(s, f, Config(NewAse(s, s.ases[f], conn, id), ok));
      if !ok { UnbindAse(u, f); }
    }
  }

  lemma QosUntouched(s: State, j: nat, cig: nat, cis: nat, ok: bool, i: nat)
    requires Inv(s) && i < |s.ases| && j < |s.ases|
    ensures Untouched(s, Qos(s, j, cig, cis, ok), i)
  {
    QosEffect(s, j, cig, cis, ok);
    if i != j && s.ases[i].iso != None { QosElsewhere(s, j, cig, cis, ok, i); }
  }

  lemma AclUntouched(s: State, conn: nat, reason: nat, i: nat)
    requires i < |s.ases|
    ensures var u := AclRounds(s, |s.ases|, conn, reason); i < |u.ases| && (Stranded(u, i) ==> Stranded(s, i))
  {
    AclRoundsEffect(s, |s.ases|, conn, reason);
    AclChans(s, |s.ases|, conn, reason);
  }

  lemma WorkStrands(s: State, j: nat, noMem: bool, i: nat)
    requires Inv(s) && i < |s.ases| && j < |s.ases| && s.ases[j].work != NotQueued && !Stranded(s, i)
    ensures Stranded(RunWork(s, j, noMem), i) <==> Strands(s, EWork(j, noMem), i)
  {
    RunWorkEffect(s, j, noMem);
    if !noMem {
      TransitionChans(SetAse(s, j, s.ases[j].(work := NotQueued)), j);
      if i == j { CommitStrands(s, i); }
    }
  }

  lemma CommitStrands(s: State, i: nat)
    requires Inv(s) && i < |s.ases| && s.ases[i].work != NotQueued && !Stranded(s, i)
    ensures Stranded(RunWork(s, i, false), i) <==> Strands(s, EWork(i, false), i)
  {
    assert AseInv(s.ases[i]);
    RunWorkEffect(s, i, false);
  }

  /** Whenever it comes to that, it is by one of these two. */
  lemma StrandedExactly(s: State, e: Event, i: nat)
    requires Reachable(s) && CanHappen(s, e) && i < |s.ases| && !Stranded(s, i)
    ensures Stranded(Step(s, e), i) <==> Strands(s, e, i)
  {
    ReachableInv(s);
    match e {
      case EConfig(conn, id, ok) => ConfigUntouched(s, conn, id, ok, i);
      case EQos(conn, id, cig, cis, ok) =>
        var j := FindAse(s.ases, conn, id, 0);
        if j < |s.ases| { QosUntouched(s, j, cig, cis, ok, i); }
      case EAclDisconnected(conn, reason) => AclUntouched(s, conn, reason, i);
      case EWork(j, noMem) => WorkStrands(s, j, noMem, i);
      case _ => OthersStrand(s, e, i);
    }
  }

  lemma OperateStrands(s: State, op: Op, j: nat, ok: bool, i: nat)
    requires i < |s.ases| && j < |s.ases| && !Stranded(s, i)
    ensures Stranded(SetAse(s, j, Operate(s, op, j, ok)), i) <==>
            i == j && op == OpMetadata && ok && s.ases[i].state == Streaming && !Alive(s, s.ases[i])
  {
    match op {
      case OpEnable =>
      case OpStart =>
      case OpDisable =>
      case OpStop =>
      case OpMetadata =>
      case OpRelease =>
    }
  }

  lemma OperateLocalStrands(s: State, op: LocalOp, j: nat, ok: bool, i: nat)
    requires i < |s.ases| && j < |s.ases| && !Stranded(s, i)
    ensures Stranded(SetAse(s, j, OperateLocal(s, op, j, ok)), i) <==>
            i == j && op == LocalMetadata && ok && s.ases[i].state == Streaming && !Alive(s, s.ases[i])
  {}

  /** The endpoint in a slot that streams asks to leave when its channel is lost. */
  lemma SlotStrands(s: State, ep: Option<nat>, down: bool, reason: nat, i: nat)
    requires i < |s.ases| && (s.ases[i].state == Streaming ==> s.ases[i].stream)
    ensures var u := OnSlot(s, ep, down, reason);
            && |u.ases| == |s.ases| && u.isos == s.isos && u.ases[i].stream == s.ases[i].stream
            && u.ases[i].state == s.ases[i].state && u.ases[i].iso == s.ases[i].iso
            && (s.ases[i].state == Streaming ==> AseLeaves(u.ases[i], s.ases[i], down && ep == Some(i)))
  {}

  /** On channel `k` and both its slots. */
  lemma IsoStrands(s: State, k: nat, down: bool, reason: nat, i: nat)
    requires Inv(s) && k < |s.isos| && i < |s.ases| && !Stranded(s, i)
    ensures
      var u := SetIso(s, k, s.isos[k].(chan := if down then Disconnected else Connected));
      !Stranded(OnSlot(OnSlot(u, s.isos[k].rx, down, reason), s.isos[k].tx, down, reason), i)
  {
    assert AseBound(s, i) && AseInv(s.ases[i]) && IsoInv(s, k);
    var u := SetIso(s, k, s.isos[k].(chan := if down then Disconnected else Connected));
    var v := OnSlot(u, s.isos[k].rx, down, reason);
    SlotStrands(u, s.isos[k].rx, down, reason, i);
    SlotStrands(v, s.isos[k].tx, down, reason, i);
  }

  predicate AseLeaves(b: Ase, a: Ase, leaves: bool) {
    if leaves then b.work != NotQueued && b.pending == QosConfigured else b.work == a.work && b.pending == a.pending
  }

  lemma OthersStrand(s: State, e: Event, i: nat)
    requires Inv(s) && CanHappen(s, e) && i < |s.ases| && !Stranded(s, i)
    requires !e.EConfig? && !e.EQos? && !e.EAclDisconnected? && !e.EWork?
    ensures Stranded(Step(s, e), i) <==> Strands(s, e, i)
  {
    match e {
      case EOperate(op, conn, id, ok) =>
        var j := FindAse(s.ases, conn, id, 0);
        if j < |s.ases| { OperateStrands(s, op, j, ok, i); }
      case EOperateLocal(op, j, ok) => OperateLocalStrands(s, op, j, ok, i);
      case EConfigLocal(conn, ok) => ConfigLocalUntouched(s, conn, ok, i);
      case EReleaseLocal(j, ok) => ReleaseStrands(s, j, ok, i);
      case EIsoConnected(k) => IsoStrands(s, k, false, 0, i);
      case EIsoDisconnected(k, reason) => IsoStrands(s, k, true, reason, i);
      case EIsoAccept(conn, cig, cis, encrypt) => AcceptUntouched(s, conn, cig, cis, encrypt, i);
      case EDisconnectWork(j, ok) => DisconnectStrands(s, j, ok, i);
    }
  }

  lemma ConfigLocalUntouched(s: State, conn: nat, ok: bool, i: nat)
    requires Inv(s) && i < |s.ases|
    ensures Untouched(s, ConfigLocal(s, conn, ok), i)
  {
    var f := FreeSlot(s.ases, 0);
    if f < |s.ases| { assert AseInv(s.ases[f]); }
  }

  lemma FreeChans(s: State, j: nat)
    requires j < |s.ases|
    ensures SameChans(s, Free(s, j))
  {}

  lemma FreeStrands(s: State, j: nat, i: nat)
    requires i < |s.ases| && j < |s.ases| && s.ases[j].state == Idle && !Stranded(s, i)
    ensures !Stranded(Free(s, j), i)
  {
    FreeChans(s, j);
    UnbindAse(s, j);
    var u := Free(s, j);
    assert u.ases[i].state == s.ases[i].state && (i != j ==> u.ases[i] == s.ases[i]);
  }

  lemma ReleaseStrands(s: State, j: nat, ok: bool, i: nat)
    requires i < |s.ases| && j < |s.ases| && !Stranded(s, i)
    ensures !Stranded(ReleaseLocal(s, j, ok), i)
  {
    if s.ases[j].state == Idle { FreeStrands(s, j, i); }
  }

  lemma AcceptUntouched(s: State, conn: nat, cig: nat, cis: nat, encrypt: bool, i: nat)
    requires i < |s.ases|
    ensures Untouched(s, IsoAccept(s, conn, cig, cis, encrypt), i)
  {}

  lemma DisconnectStrands(s: State, j: nat, ok: bool, i: nat)
    requires i < |s.ases| && j < |s.ases| && !Stranded(s, i)
    ensures !Stranded(DisconnectWork(s, j, ok), i)
  {}

  // ---- a channel given up before its CIS is down ----

  predicate IsBound(s: State, i: nat, k: nat) { i < |s.ases| && s.ases[i].iso == Some(k) }

  /** Nobody refers to the channel any more, so it can be allocated, and thereby cleared,
      though it is not down. */
  predicate Abandoned(s: State, k: nat) { k < |s.isos| && s.isos[k].ref == 0 && s.isos[k].chan != Disconnected }

  /** A bound endpoint gives up its channel: it becomes idle, its link goes, or a QoS
      write names another CIS. */
  predicate LetsGo(s: State, e: Event, i: nat)
    requires i < |s.ases|
  {
    var a := s.ases[i];
    match e
    case EWork(j, noMem) => j == i && !noMem && a.pending == Idle
    case EAclDisconnected(conn, _) => a.conn == Some(conn)
    case EQos(conn, id, cig, cis, ok) =>
      ValidId(s, id) && FindAse(s.ases, conn, id, 0) == i && QosAdmitted(a, ok) && (a.cig != cig || a.cis != cis)
    case _ => false
  }

  /** A channel in use that is not down is abandoned exactly when all endpoints bound to
      it let go of it at once; a QoS write may also take it again, cleared. */
  lemma AbandonedExactly(s: State, e: Event, k: nat)
    requires Reachable(s) && CanHappen(s, e) && k < |s.isos| && s.isos[k].ref > 0 && s.isos[k].chan != Disconnected
    ensures k < |Step(s, e).isos|
    ensures Abandoned(Step(s, e), k) || (e.EQos? && Step(s, e).isos[k].chan == Disconnected) <==>
            forall i: nat :: IsBound(s, i, k) ==> LetsGo(s, e, i)
  {
    ReachableInv(s);
    var u := Step(s, e);
    StepKeeps(s, e);
    StepSizes(s, e);
    IsoSizes(s, e);
    assert IsoInv(s, k) && IsoInv(u, k);
    if i: nat :| IsBound(s, i, k) && !LetsGo(s, e, i) {
      Stays(s, e, i, k);
      assert AseBound(u, i);
    } else {
      AllGo(s, e, k);
    }
  }

  lemma IsoSizes(s: State, e: Event)
    requires Inv(s) && CanHappen(s, e)
    ensures |Step(s, e).isos| == |s.isos|
  {
    match e {
      case EWork(j, noMem) => WorkIsos(s, j, noMem);
      case EAclDisconnected(conn, reason) => AclChans(s, |s.ases|, conn, reason);
      case EQos(conn, id, cig, cis, ok) =>
        var j := FindAse(s.ases, conn, id, 0);
        if j < |s.ases| { QosIsos(s, j, cig, cis, ok); }
      case EConfig(conn, id, ok) => ConfigIsos(s, conn, id, ok);
      case _ =>
    }
  }

  lemma QosIsos(s: State, j: nat, cig: nat, cis: nat, ok: bool)
    requires j < |s.ases|
    ensures |Qos(s, j, cig, cis, ok).isos| == |s.isos|
  {}

  lemma ConfigIsos(s: State, conn: nat, id: nat, ok: bool)
    ensures |ConfigOp(s, conn, id, ok).isos| == |s.isos|
  {}

  lemma WorkIsos(s: State, j: nat, noMem: bool)
    requires j < |s.ases|
    ensures SameChans(s, RunWork(s, j, noMem))
  {
    TransitionChans(SetAse(s, j, s.ases[j].(work := NotQueued)), j);
  }

  /** A channel to which no endpoint is bound has no references. */
  lemma NobodyBound(s: State, k: nat)
    requires Inv(s) && k < |s.isos| && forall i: nat :: !IsBound(s, i, k)
    ensures s.isos[k].ref == 0
  {
    assert IsoInv(s, k);
    assert s.isos[k].rx != None ==> IsBound(s, s.isos[k].rx.value, k);
    assert s.isos[k].tx != None ==> IsBound(s, s.isos[k].tx.value, k);
  }

  /** An endpoint that does not let go stays bound; a QoS write leaves its channel alone. */
  lemma Stays(s: State, e: Event, i: nat, k: nat)
    requires Inv(s) && CanHappen(s, e) && IsBound(s, i, k) && k < |s.isos| && !LetsGo(s, e, i)
    ensures IsBound(Step(s, e), i, k)
    ensures e.EQos? ==> k < |Step(s, e).isos| && Step(s, e).isos[k].chan == s.isos[k].chan
  {
    hide Operate, OperateLocal, ConfigOp, ConfigLocal, Qos, RunWork, ReleaseLocal, AclRounds, OnSlot, Inv;
    match e {
      case EConfig(conn, id, ok) => ConfigStays(s, conn, id, ok, i);
      case EQos(conn, id, cig, cis, ok) =>
        var j := FindAse(s.ases, conn, id, 0);
        if ValidId(s, id) && j < |s.ases| { QosStays(s, j, cig, cis, ok, i, k); }
      case EConfigLocal(conn, ok) => ConfigLocalStays(s, conn, ok, i);
      case EReleaseLocal(j, ok) => ReleaseStays(s, j, ok, i);
      case EAclDisconnected(conn, reason) => AclRoundsEffect(s, |s.ases|, conn, reason);
      case EWork(j, noMem) => WorkStays(s, j, noMem, i);
      case EIsoConnected(n) => SlotsStay(s, n, Connected, false, 0, i);
      case EIsoDisconnected(n, reason) => SlotsStay(s, n, Disconnected, true, reason, i);
      case EOperate(op, conn, id, ok) =>
        var j := FindAse(s.ases, conn, id, 0);
        if j < |s.ases| { OperateStays(s, op, j, ok); }
      case EOperateLocal(op, j, ok) => OperateLocalStays(s, op, j, ok);
      case EIsoAccept(conn, cig, cis, encrypt) =>
      case EDisconnectWork(j, ok) =>
    }
  }

  lemma OperateStays(s: State, op: Op, j: nat, ok: bool)
    requires Inv(s) && j < |s.ases|
    ensures Operate(s, op, j, ok).iso == s.ases[j].iso
  {
    OperateKeeps(s, op, j, ok);
  }

  lemma OperateLocalStays(s: State, op: LocalOp, j: nat, ok: bool)
    requires Inv(s) && Owned(s, j)
    ensures OperateLocal(s, op, j, ok).iso == s.ases[j].iso
  {
    assert AseInv(s.ases[j]);
    OperateLocalKeeps(s, op, j, ok);
  }

  lemma ConfigLocalStays(s: State, conn: nat, ok: bool, i: nat)
    requires Inv(s) && i < |s.ases| && s.ases[i].iso != None
    ensures var u := ConfigLocal(s, conn, ok); i < |u.ases| && u.ases[i].iso == s.ases[i].iso
  {
    assert AseInv(s.ases[i]);
  }

  lemma ReleaseStays(s: State, j: nat, ok: bool, i: nat)
    requires Inv(s) && j < |s.ases| && i < |s.ases| && s.ases[i].iso != None
    ensures var u := ReleaseLocal(s, j, ok); i < |u.ases| && u.ases[i].iso == s.ases[i].iso
  {
    assert AseInv(s.ases[i]);
    UnbindAse(s, j);
  }

  lemma SlotsStay(s: State, n: nat, chan: Chan, down: bool, reason: nat, i: nat)
    requires n < |s.isos| && i < |s.ases|
    ensures
      var u := SetIso(s, n, s.isos[n].(chan := chan));
      var v := OnSlot(OnSlot(u, s.isos[n].rx, down, reason), s.isos[n].tx, down, reason);
      |v.ases| == |s.ases| && v.ases[i].iso == s.ases[i].iso
  {}

  lemma ConfigStays(s: State, conn: nat, id: nat, ok: bool, i: nat)
    requires Inv(s) && i < |s.ases| && s.ases[i].iso != None
    ensures var u := ConfigOp(s, conn, id, ok); i < |u.ases| && u.ases[i].iso == s.ases[i].iso
  {
    var f := FreeSlot(s.ases, 0);
    if f < |s.ases| {
      assert AseInv(s.ases[f]);
      UnbindAse(SetAse(s, f, Config(NewAse(s, s.ases[f], conn, id), ok)), f);
    }
  }

  lemma QosStays(s: State, j: nat, cig: nat, cis: nat, ok: bool, i: nat, k: nat)
    requires Inv(s) && j < |s.ases| && IsBound(s, i, k) && k < |s.isos|
    requires i == j ==> !QosAdmitted(s.ases[i], ok) || (s.ases[i].cig == cig && s.ases[i].cis == cis)
    ensures var u := Qos(s, j, cig, cis, ok); IsBound(u, i, k) && k < |u.isos| && u.isos[k].chan == s.isos[k].chan
  {
    if i != j {
      QosEffect(s, j, cig, cis, ok);
      QosElsewhere(s, j, cig, cis, ok, i);
    }
  }

  lemma WorkStays(s: State, j: nat, noMem: bool, i: nat)
    requires Inv(s) && j < |s.ases| && s.ases[j].work != NotQueued && i < |s.ases|
    requires i == j ==> noMem || s.ases[i].pending != Idle
    ensures var u := RunWork(s, j, noMem); i < |u.ases| && u.ases[i].iso == s.ases[i].iso
  {
    RunWorkEffect(s, j, noMem);
    assert AseInv(s.ases[j]);
  }

  /** When all of them go, nobody is bound to the channel, or it is the one taken next. */
  lemma AllGo(s: State, e: Event, k: nat)
    requires Inv(s) && CanHappen(s, e) && Inv(Step(s, e)) && |Step(s, e).ases| == |s.ases| && |Step(s, e).isos| == |s.isos|
    requires k < |s.isos| && s.isos[k].ref > 0 && forall i: nat :: IsBound(s, i, k) ==> LetsGo(s, e, i)
    ensures var u := Step(s, e);
            || (u.isos[k].ref == 0 && u.isos[k].chan == s.isos[k].chan)
            || (e.EQos? && u.isos[k].chan == Disconnected)
  {
    var u := Step(s, e);
    assert IsoInv(s, k) && IsoInv(u, k);
    var i: nat := if s.isos[k].rx != None then s.isos[k].rx.value else s.isos[k].tx.value;
    assert IsBound(s, i, k);
    match e {
      case EWork(j, noMem) => WorkIsos(s, j, noMem); WorkGoes(s, j, k); NobodyBound(u, k);
      case EAclDisconnected(conn, reason) =>
        AclChans(s, |s.ases|, conn, reason);
        AclGoes(s, conn, reason, k);
        NobodyBound(u, k);
      case EQos(conn, id, cig, cis, ok) => QosGoes(s, i, cig, cis, k);
      case _ =>
    }
  }

  lemma WorkGoes(s: State, j: nat, k: nat)
    requires Inv(s) && j < |s.ases| && s.ases[j].work != NotQueued && s.ases[j].pending == Idle
    requires forall i: nat :: IsBound(s, i, k) ==> i == j
    ensures forall i: nat :: !IsBound(RunWork(s, j, false), i, k)
  {
    var u := RunWork(s, j, false);
    RunWorkEffect(s, j, false);
    RunWorkKeeps(s, j, false);
    forall i: nat | i < |u.ases| ensures !IsBound(u, i, k) {
      assert AseInv(u.ases[j]) && (i != j ==> !IsBound(s, i, k));
    }
  }

  lemma AclGoes(s: State, conn: nat, reason: nat, k: nat)
    requires Inv(s) && forall i: nat :: IsBound(s, i, k) ==> s.ases[i].conn == Some(conn)
    ensures forall i: nat :: !IsBound(AclRounds(s, |s.ases|, conn, reason), i, k)
  {
    var u := AclRounds(s, |s.ases|, conn, reason);
    AclRoundsEffect(s, |s.ases|, conn, reason);
    AclRoundsKeep(s, |s.ases|, conn, reason);
    forall i: nat | i < |u.ases| ensures !IsBound(u, i, k) { assert AseInv(s.ases[i]) && AseInv(u.ases[i]); }
  }

  lemma QosGoes(s: State, j: nat, cig: nat, cis: nat, k: nat)
    requires Inv(s) && j < |s.ases| && k < |s.isos| && s.ases[j].iso == Some(k)
    requires forall i: nat :: IsBound(s, i, k) ==> i == j
    requires QosAdmitted(s.ases[j], true) && (s.ases[j].cig != cig || s.ases[j].cis != cis)
    requires Inv(Qos(s, j, cig, cis, true))
    ensures var u := Qos(s, j, cig, cis, true);
            && k < |u.isos|
            && (u.isos[k].chan == Disconnected || (u.isos[k].ref == 0 && u.isos[k].chan == s.isos[k].chan))
  {
    var v := QosUnbound(s, j, cig, cis);
    QosUnboundKeeps(s, j, cig, cis);
    UnbindAse(s, j);
    forall i: nat | i < |v.ases| ensures !IsBound(v, i, k) { assert i != j ==> !IsBound(s, i, k); }
    NobodyBound(v, k);
    QosBoundGets(v, j, cig, cis);
  }

  // ---- a run that strands an endpoint ----

  /** States visited one after the other are a run. */
  lemma {:induction false} Visits(ss: seq<State>, es: seq<Event>)
    requires |ss| == |es| + 1
    requires forall i :: 0 <= i < |es| ==> CanHappen(ss[i], es[i]) && Step(ss[i], es[i]) == ss[i + 1]
    ensures Runs(ss[0], es) && Exec(ss[0], es) == ss[|es|]
    decreases |es|
  {
    if es != [] {
      forall i | 0 <= i < |es[1..]|
        ensures CanHappen(ss[1..][i], es[1..][i]) && Step(ss[1..][i], es[1..][i]) == ss[1..][i + 1]
      {
        assert ss[1..][i] == ss[i + 1] && es[1..][i] == es[i + 1];
      }
      Visits(ss[1..], es[1..]);
    }
  }

  /** A server with one source and one channel. */
  function Solo(a: Ase, iso: Iso): State { State(0, 1, [a], [iso]) }

  const Asked := UnusedAse.(conn := Some(7), id := 1, dir := Source, pending := CodecConfigured, work := Queued, stream := true)
  const Made := Asked.(state := CodecConfigured, work := NotQueued, log := [Configured])
  const Bound7 := Made.(iso := Some(0), streamIso := Some(0), pending := QosConfigured, work := Queued)
  const Set7 := Bound7.(state := QosConfigured, work := NotQueued, log := [Configured, QosSet])
  const Enabling7 := Set7.(state := Enabling, pending := Enabling, log := [Configured, QosSet, Enabled])
  const Connected7 := Enabling7.(log := [Configured, QosSet, Enabled, IsoUp])
  const Started7 := Connected7.(receiverReady := true, pending := Streaming, work := Queued)

  function Cut7(reason: nat): Ase {
    Started7.(reason := reason, log := [Configured, QosSet, Enabled, IsoUp, IsoDown(reason)])
  }

  function Streams7(reason: nat): Ase {
    Cut7(reason).(state := Streaming, work := NotQueued,
                  log := [Configured, QosSet, Enabled, IsoUp, IsoDown(reason), Started])
  }

  function OneUser(chan: Chan): Iso { Iso(1, None, Some(0), chan) }

  lemma OneAse(a: Ase, b: Ase, iso: Iso, other: Iso)
    ensures SetAse(Solo(a, iso), 0, b) == Solo(b, iso) && SetIso(Solo(a, iso), 0, other) == Solo(a, other)
  {}

  lemma SoloConfigured()
    ensures Step(Solo(UnusedAse, UnusedIso), EConfig(7, 1, true)) == Solo(Asked, UnusedIso)
    ensures Step(Solo(Asked, UnusedIso), EWork(0, false)) == Solo(Made, UnusedIso)
  {
    var s := Solo(UnusedAse, UnusedIso);
    assert Config(NewAse(s, UnusedAse, 7, 1), true) == Asked;
    OneAse(UnusedAse, Asked, UnusedIso, UnusedIso);
    WorkCommits(Solo(Asked, UnusedIso), 0, Made);
    OneAse(Asked, Made, UnusedIso, UnusedIso);
  }

  lemma SoloBound()
    ensures Step(Solo(Made, UnusedIso), EQos(7, 1, 0, 0, true)) == Solo(Bound7, OneUser(Disconnected))
    ensures Step(Solo(Bound7, OneUser(Disconnected)), EWork(0, false)) == Solo(Set7, OneUser(Disconnected))
  {
    var s := Solo(Made, UnusedIso);
    assert FindIso(s, Some(7), 0, 0, 0) == 1 && FreeIso(s.isos, 0) == 0;
    var (u, k) := IsoFor(s, Some(7), 0, 0);
    assert u == Solo(Made, Iso(1, None, None, Disconnected)) && k == Some(0);
    assert QosBound(s, 0, 0, 0) == Solo(Made.(iso := Some(0), streamIso := Some(0)), OneUser(Disconnected));
    WorkCommits(Solo(Bound7, OneUser(Disconnected)), 0, Set7);
    OneAse(Bound7, Set7, OneUser(Disconnected), UnusedIso);
  }

  lemma SoloEnabled()
    ensures Step(Solo(Set7, OneUser(Disconnected)), EOperate(OpEnable, 7, 1, true))
            == Solo(Set7.(pending := Enabling, work := Queued), OneUser(Disconnected))
    ensures Step(Solo(Set7.(pending := Enabling, work := Queued), OneUser(Disconnected)), EWork(0, false))
            == Solo(Enabling7, OneUser(Disconnected))
  {
    var a := Set7.(pending := Enabling, work := Queued);
    OneAse(Set7, a, OneUser(Disconnected), UnusedIso);
    OneAse(a, a.(work := NotQueued), OneUser(Disconnected), UnusedIso);
    OneAse(a.(work := NotQueued), Enabling7, OneUser(Disconnected), UnusedIso);
    assert a.log + [] == a.log;
    assert Commit(a.(work := NotQueued), false, false) == Enabling7;
  }

  lemma SoloConnected(reason: nat)
    ensures Step(Solo(Enabling7, OneUser(Disconnected)), EIsoAccept(7, 0, 0, false)) == Solo(Enabling7, OneUser(Connecting))
    ensures Step(Solo(Enabling7, OneUser(Connecting)), EIsoConnected(0)) == Solo(Connected7, OneUser(Connected))
    ensures Step(Solo(Connected7, OneUser(Connected)), EOperate(OpStart, 7, 1, true)) == Solo(Started7, OneUser(Connected))
    ensures Step(Solo(Started7, OneUser(Connected)), EIsoDisconnected(0, reason)) == Solo(Cut7(reason), OneUser(Disconnected))
  {
    OneAse(Enabling7, Connected7, OneUser(Connecting), OneUser(Connected));
    OneAse(Enabling7, Connected7, OneUser(Connected), OneUser(Connected));
    OneAse(Enabling7, Connected7, OneUser(Disconnected), OneUser(Connecting));
    OneAse(Connected7, Started7, OneUser(Connected), OneUser(Connected));
    OneAse(Started7, Cut7(reason), OneUser(Connected), OneUser(Disconnected));
    OneAse(Started7, Cut7(reason), OneUser(Disconnected), OneUser(Disconnected));
    assert EpConnected(Enabling7) == Connected7 && EpDisconnected(Started7, reason) == Cut7(reason);
  }

  lemma SoloStreams(reason: nat)
    ensures Step(Solo(Cut7(reason), OneUser(Disconnected)), EWork(0, false)) == Solo(Streams7(reason), OneUser(Disconnected))
  {
    var a := Cut7(reason);
    OneAse(a, a.(work := NotQueued), OneUser(Disconnected), UnusedIso);
    OneAse(a.(work := NotQueued), Streams7(reason), OneUser(Disconnected), UnusedIso);
    assert a.log + [] == a.log;
    assert Commit(a.(work := NotQueued), false, false) == Streams7(reason);
  }

  /** The CIS goes down between the start of a source and the notification of Streaming:
      the application is told that it streams, and nothing is left to tell it otherwise. */
  lemma CanBeStranded(reason: nat)
    ensures
      var s0 := Solo(UnusedAse, UnusedIso);
      var es := [EConfig(7, 1, true), EWork(0, false), EQos(7, 1, 0, 0, true), EWork(0, false),
                 EOperate(OpEnable, 7, 1, true), EWork(0, false), EIsoAccept(7, 0, 0, false), EIsoConnected(0),
                 EOperate(OpStart, 7, 1, true), EIsoDisconnected(0, reason), EWork(0, false)];
      && Initial(s0) && Runs(s0, es) && Exec(s0, es) == Solo(Streams7(reason), OneUser(Disconnected))
      && Stranded(Exec(s0, es), 0)
  {
    hide Step, Runs, Exec;
    SoloConfigured();
    SoloBound();
    SoloEnabled();
    SoloConnected(reason);
    SoloStreams(reason);
    var down := OneUser(Disconnected);
    var ss := [Solo(UnusedAse, UnusedIso), Solo(Asked, UnusedIso), Solo(Made, UnusedIso), Solo(Bound7, down),
               Solo(Set7, down), Solo(Set7.(pending := Enabling, work := Queued), down), Solo(Enabling7, down),
               Solo(Enabling7, OneUser(Connecting)), Solo(Connected7, OneUser(Connected)),
               Solo(Started7, OneUser(Connected)), Solo(Cut7(reason), down), Solo(Streams7(reason), down)];
    Visits(ss, [EConfig(7, 1, true), EWork(0, false), EQos(7, 1, 0, 0, true), EWork(0, false),
                EOperate(OpEnable, 7, 1, true), EWork(0, false), EIsoAccept(7, 0, 0, false), EIsoConnected(0),
                EOperate(OpStart, 7, 1, true), EIsoDisconnected(0, reason), EWork(0, false)]);
  }
}
