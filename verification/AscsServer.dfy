/** bluetooth/audio/ascs.c and bap_iso.c themselves: the pools as arrays, each operation
    as a method that updates them in place, proved to compute the steps of AscsSpec and to
    make the calls on the pool of channels that IsoServer says, in that order. */
module AscsServer {
  import opened Prelude
  import opened AscsSpec
  import opened AscsInv
  import opened AscsSteps
  import P = IsoPool
  import T = IsoServer

  const EBADMSG := 77
  const EINVAL := 22

  lemma SetSame(s: State, i: nat)
    requires i < |s.ases|
    ensures SetAse(s, i, s.ases[i]) == s
  {
    assert s.ases[i := s.ases[i]] == s.ases;
  }

  lemma SetTwice(s: State, i: nat, a: Ase, b: Ase)
    requires i < |s.ases|
    ensures SetAse(SetAse(s, i, a), i, b) == SetAse(s, i, b)
  {
    assert s.ases[i := a][i := b] == s.ases[i := b];
  }

  /** `Transition` but for the freeing of an endpoint that became idle. */
  ghost function Moved(s: State, i: nat): State
    requires i < |s.ases|
  {
    var a := s.ases[i];
    SetAse(s, i, Commit(a, ChanIs(s, a, Connected), CanDisconnect(SetAse(s, i, a.(state := a.pending)), i)))
  }

  lemma CommitSameIso(s: State, i: nat)
    requires i < |s.ases|
    ensures |Moved(s, i).ases| == |s.ases| && Moved(s, i).ases[i].iso == s.ases[i].iso && Moved(s, i).isos == s.isos
  {}

  /** Whether a channel can be disconnected does not depend on callbacks. */
  lemma EnterIsCommit(s: State, moved: State, left: State, i: nat)
    requires i < |s.ases|
    requires
      var a := s.ases[i];
      && !(a.state == a.pending && (a.state == Enabling || a.state == Streaming))
      && moved == SetAse(s, i, a.(state := a.pending))
      && left == SetAse(moved, i, a.(state := a.pending, log := a.log + ExitLog(a.(state := a.pending), a.state, a.pending)))
    ensures Moved(s, i)
            == SetAse(left, i, Enter(left.ases[i], ChanIs(left, left.ases[i], Connected), CanDisconnect(left, i)))
  {
    var a := s.ases[i];
    assert CanDisconnect(left, i) == CanDisconnect(moved, i);
    assert ExitLog(a.(state := a.pending), a.state, a.pending) == ExitLog(a, a.state, a.pending);
    SetTwice(s, i, moved.ases[i], left.ases[i]);
    SetTwice(s, i, left.ases[i], Moved(s, i).ases[i]);
  }

  lemma RoundInRange(s: State, i: nat, conn: nat, reason: nat)
    requires Inv(s) && i < |s.ases|
    ensures var u := AclRounds(s, i, conn, reason);
            u.ases[i].iso != None ==> u.ases[i].iso.value < |u.isos|
  {
    AclRoundsKeep(s, i, conn, reason);
    assert AseBound(AclRounds(s, i, conn, reason), i);
  }

  class Server {
    const sinks: nat
    const count: nat
    const ases: array<Ase>
    const isos: array<Iso>
    /** The calls of the functions of bap_iso.c so far, and the endpoints set up. */
    ghost var calls: seq<P.Event>

    constructor (sinks: nat, count: nat, sessions: nat, channels: nat)
      ensures fresh(ases) && fresh(isos) && calls == []
      ensures Initial(Abs()) && Inv(Abs())
      ensures Abs().sinks == sinks && Abs().count == count && ases.Length == sessions && isos.Length == channels
    {
      this.sinks, this.count := sinks, count;
      ases := new Ase[sessions](_ => UnusedAse);
      isos := new Iso[channels](_ => UnusedIso);
      calls := [];
      new;
      InitialInv(Abs());
    }

    ghost function Abs(): State
      reads ases, isos
    {
      State(sinks, count, ases[..], isos[..])
    }

    // ---- ascs_ep_set_state ----

    method CheckTransition(a: Ase, state: EpState) returns (valid: bool)
      ensures valid == Valid(a.dir, a.linkLoss, a.state, state)
    {
      valid := false;
      match state {
        case Idle =>
          valid := true;
        case CodecConfigured =>
          match a.state {
            case Idle | CodecConfigured | QosConfigured | Releasing => valid := true;
            case _ =>
          }
        case QosConfigured =>
          match a.state {
            case CodecConfigured | QosConfigured => valid := true;
            case Disabling => valid := a.dir == Source;
            case Enabling | Streaming => valid := a.dir == Sink || a.linkLoss;
            case _ =>
          }
        case Enabling =>
          match a.state {
            case QosConfigured | Enabling => valid := true;
            case _ =>
          }
        case Streaming =>
          match a.state {
            case Enabling | Streaming => valid := true;
            case _ =>
          }
        case Disabling =>
          match a.state {
            case Enabling | Streaming => valid := a.dir == Source;
            case _ =>
          }
        case Releasing =>
          match a.state {
            case CodecConfigured | QosConfigured | Enabling | Streaming => valid := true;
            case Disabling => valid := a.dir == Source;
            case _ =>
          }
      }
    }

    method SetState(i: nat, state: EpState) returns (ret: int)
      requires i < ases.Length
      modifies ases
      ensures Abs() == SetAse(old(Abs()), i, Request(old(ases[i]), state))
      ensures ret == if Valid(old(ases[i]).dir, old(ases[i]).linkLoss, old(ases[i]).state, state) then 0 else -EBADMSG
    {
      var a := ases[i];
      var valid := CheckTransition(a, state);
      if !valid {
        ases[i] := a.(rejected := a.rejected + 1);
        return -EBADMSG;
      }
      ases[i] := ases[i].(pending := state);
      if ases[i].work == NotQueued {
        ases[i] := ases[i].(work := Queued);
      }
      ret := 0;
    }

    // ---- the pool of ISO channels ----

    /** bt_bap_iso_new */
    method IsoNew() returns (k: nat)
      modifies isos, `calls
      ensures calls == old(calls) + [P.ENew]
      ensures k == FreeIso(old(isos[..]), 0)
      ensures Abs() == if k < isos.Length then SetIso(old(Abs()), k, Iso(1, None, None, Disconnected)) else old(Abs())
    {
      calls := calls + [P.ENew];
      k := 0;
      while k < isos.Length && isos[k].ref != 0
        invariant k <= isos.Length
        invariant forall j :: 0 <= j < k ==> isos[j].ref != 0
      {
        k := k + 1;
      }
      assert k == FreeIso(isos[..], 0);
      if k < isos.Length {
        isos[k] := Iso(1, None, None, Disconnected);
      }
    }

    /** bt_bap_iso_find with bap_iso_find_func; a channel found gets a reference. */
    method IsoFind(conn: Option<nat>, cig: nat, cis: nat) returns (k: nat)
      modifies isos, `calls
      ensures calls == old(calls) + [P.EFind(T.Answers(old(Abs()), conn, cig, cis))]
      ensures k == FindIso(old(Abs()), conn, cig, cis, 0)
      ensures Abs() == if k < isos.Length then SetIso(old(Abs()), k, old(isos[..])[k].(ref := old(isos[..])[k].ref + 1)) else old(Abs())
    {
      calls := calls + [P.EFind(T.Answers(Abs(), conn, cig, cis))];
      k := 0;
      while k < isos.Length
        invariant k <= isos.Length
        invariant forall j :: 0 <= j < k ==> !Carries(Abs(), isos[j], conn, cig, cis)
        invariant isos[..] == old(isos[..])
      {
        var ep := if isos[k].rx != None then isos[k].rx else isos[k].tx;
        if isos[k].ref > 0 && ep != None && ep.value < ases.Length {
          var other := ases[ep.value];
          if other.conn == conn && other.cig == cig && other.cis == cis {
            assert k == FindIso(Abs(), conn, cig, cis, 0);
            isos[k] := isos[k].(ref := isos[k].ref + 1);
            return;
          }
        }
        k := k + 1;
      }
      assert k == FindIso(Abs(), conn, cig, cis, 0);
    }

    /** bap_iso_get_or_new */
    method IsoGetOrNew(conn: Option<nat>, cig: nat, cis: nat) returns (iso: Option<nat>)
      modifies isos, `calls
      ensures (Abs(), iso) == IsoFor(old(Abs()), conn, cig, cis)
      ensures calls == old(calls) + T.GetTrace(old(Abs()), conn, cig, cis)
    {
      var k := IsoFind(conn, cig, cis);
      if k < isos.Length {
        return Some(k);
      }
      k := IsoNew();
      iso := if k < isos.Length then Some(k) else None;
    }

    /** bt_bap_iso_unref, by a caller that holds a reference */
    method IsoUnref(k: nat)
      requires k < isos.Length
      modifies isos, `calls
      ensures Abs() == Unref(old(Abs()), k) && calls == old(calls) + [P.EUnref(k)]
    {
      calls := calls + [P.EUnref(k)];
      IsoDrop(k);
    }

    method IsoDrop(k: nat)
      requires k < isos.Length
      modifies isos
      ensures Abs() == Unref(old(Abs()), k)
    {
      isos[k] := isos[k].(ref := if isos[k].ref == 0 then 0 else isos[k].ref - 1);
    }

    /** bt_bap_iso_unbind_ep, for an endpoint that may be unbound */
    method IsoUnbind(i: nat)
      requires i < ases.Length && (ases[i].iso != None ==> ases[i].iso.value < isos.Length)
      modifies ases, isos, `calls
      ensures Abs() == Unbind(old(Abs()), i) && calls == old(calls) + T.FreeTrace(old(Abs()), i)
    {
      var iso := ases[i].iso;
      if iso != None {
        calls := calls + [P.EUnbindEp(i)];
        isos[iso.value] := WithSlot(isos[iso.value], ases[i].dir, None);
        IsoDrop(iso.value);
        ases[i] := ases[i].(iso := None);
      }
    }

    /** bt_bap_iso_bind_ep */
    method IsoBind(k: nat, i: nat)
      requires i < ases.Length && k < isos.Length
      modifies ases, isos, `calls
      ensures Abs() == Bind(old(Abs()), k, i) && calls == old(calls) + [P.EBindEp(k, i)]
    {
      calls := calls + [P.EBindEp(k, i)];
      isos[k] := WithSlot(isos[k], ases[i].dir, Some(i));
      isos[k] := isos[k].(ref := isos[k].ref + 1);
      ases[i] := ases[i].(iso := Some(k));
      assert isos[..] == Bind(old(Abs()), k, i).isos;
    }

    // ---- allocation ----

    method AseFind(conn: nat, id: nat) returns (i: nat)
      ensures i == FindAse(ases[..], conn, id, 0)
    {
      i := 0;
      while i < ases.Length && !(ases[i].conn == Some(conn) && ases[i].id == id)
        invariant i <= ases.Length
        invariant forall j :: 0 <= j < i ==> !Is(ases[j], conn, id)
      {
        i := i + 1;
      }
    }

    /** ase_new */
    method AseNew(conn: nat, id: nat) returns (i: nat)
      modifies ases, `calls
      ensures calls == old(calls) + if i < ases.Length then [P.EInitEp(i, DirOf(old(Abs()), id))] else []
      ensures i == FreeSlot(old(ases[..]), 0)
      ensures Abs() == if i < ases.Length then SetAse(old(Abs()), i, NewAse(old(Abs()), old(ases[..])[i], conn, id)) else old(Abs())
    {
      i := 0;
      while i < ases.Length && ases[i].conn != None
        invariant i <= ases.Length
        invariant forall j :: 0 <= j < i ==> ases[j].conn != None
      {
        i := i + 1;
      }
      assert i == FreeSlot(ases[..], 0);
      if i < ases.Length {
        calls := calls + [P.EInitEp(i, DirOf(Abs(), id))];
        ases[i] := Ase(Some(conn), id, if id > sinks then Source else Sink, Idle, Idle, NotQueued, false, None, None, 0, 0,
                       false, false, false, SUCCESS, ases[i].log, ases[i].rejected);
      }
    }

    /** ase_free */
    method AseFree(i: nat)
      requires i < ases.Length && (ases[i].iso != None ==> ases[i].iso.value < isos.Length)
      modifies ases, isos, `calls
      ensures Abs() == Free(old(Abs()), i) && calls == old(calls) + T.FreeTrace(old(Abs()), i)
    {
      IsoUnbind(i);
      ases[i] := ases[i].(conn := None);
      ases[i] := ases[i].(disconnect := false);
      ases[i] := ases[i].(work := NotQueued);
      assert ases[..] == Free(old(Abs()), i).ases;
    }

    // ---- the transition work ----

    /** bt_bap_stream_can_disconnect */
    method StreamCanDisconnect(i: nat) returns (can: bool)
      requires i < ases.Length
      ensures can == CanDisconnect(Abs(), i)
    {
      var a := ases[i];
      can := false;
      if a.stream && a.iso != None && a.iso.value < isos.Length {
        var iso := isos[a.iso.value];
        if iso.chan == Connected || iso.chan == Connecting {
          var pair := if iso.rx == Some(i) then iso.tx else iso.rx;
          if pair == None {
            can := true;
          } else if pair.value < ases.Length {
            can := ases[pair.value].state == QosConfigured || ases[pair.value].state == CodecConfigured;
          }
        }
      }
    }

    method IsoConnectedOf(i: nat) returns (connected: bool)
      requires i < ases.Length
      ensures connected == ChanIs(Abs(), ases[i], Connected)
    {
      var iso := ases[i].iso;
      connected := false;
      if iso != None && iso.value < isos.Length {
        connected := isos[iso.value].chan == Connected;
      }
    }

    /** A call of the stream operations. */
    method Call(i: nat, c: Callback)
      requires i < ases.Length
      modifies ases
      ensures Abs() == SetAse(old(Abs()), i, old(ases[i]).(log := old(ases[i]).log + [c]))
    {
      ases[i] := ases[i].(log := ases[i].log + [c]);
    }

    /** ase_exit_state_streaming and ase_exit_state_enabling */
    method ExitState(i: nat, from: EpState)
      requires i < ases.Length
      modifies ases
      ensures Abs() == SetAse(old(Abs()), i,
                              old(ases[i]).(log := old(ases[i]).log + ExitLog(old(ases[i]), from, old(ases[i]).state)))
    {
      ghost var before, a := Abs(), ases[i];
      if from == Streaming {
        var reason := ases[i].reason;
        if reason == SUCCESS {
          reason := UNSPECIFIED;
        }
        if ases[i].state == QosConfigured {
          Call(i, Disabled);
        }
        Call(i, Stopped(reason));
        assert a.log + [Disabled] + [Stopped(reason)] == a.log + ([Disabled] + [Stopped(reason)]);
        assert [] + [Stopped(reason)] == [Stopped(reason)];
      } else if from == Enabling {
        if ases[i].state == QosConfigured && ases[i].dir == Sink {
          Call(i, Disabled);
        }
      }
      assert a.log + [] == a.log;
      assert ases[..] == before.ases[i := ases[i]];
    }

    /** The ase_enter_state functions, but for the freeing of an idle ASE */
    method EnterState(i: nat)
      requires i < ases.Length
      modifies ases
      ensures Abs() == SetAse(old(Abs()), i, Enter(old(ases[i]), ChanIs(old(Abs()), old(ases[i]), Connected), CanDisconnect(old(Abs()), i)))
    {
      ghost var before := Abs();
      match ases[i].state {
        case Idle =>
          ases[i] := ases[i].(receiverReady := false, streamIso := None);
          ases[i] := ases[i].(stream := false);
          Call(i, Released);
        case CodecConfigured =>
          ases[i] := ases[i].(receiverReady := false, streamIso := None);
          Call(i, Configured);
        case QosConfigured =>
          ases[i] := ases[i].(receiverReady := false);
          Call(i, QosSet);
        case Enabling =>
          var connected := IsoConnectedOf(i);
          Call(i, Enabled);
          if ases[i].dir == Sink && ases[i].receiverReady && connected {
            var _ := SetState(i, Streaming);
          }
        case Streaming =>
          Call(i, Started);
        case Disabling =>
          ases[i] := ases[i].(receiverReady := false);
          Call(i, Disabled);
        case Releasing =>
          var canDisconnect := StreamCanDisconnect(i);
          ases[i] := ases[i].(receiverReady := false);
          if canDisconnect {
            ases[i] := ases[i].(disconnect := true);
          } else {
            var _ := SetState(i, Idle);
          }
      }
      assert ases[..] == before.ases[i := ases[i]];
    }

    /** The change of state and its callbacks */
    method Move(i: nat)
      requires i < ases.Length
      modifies ases
      ensures Abs() == Moved(old(Abs()), i)
    {
      ghost var before := Abs();
      var newState, oldState := ases[i].pending, ases[i].state;
      ases[i] := ases[i].(state := newState);
      ghost var moved := Abs();
      if oldState == newState && (newState == Enabling || newState == Streaming) {
        Call(i, MetadataUpdated);
      } else {
        ExitState(i, oldState);
        ghost var left := Abs();
        EnterState(i);
        EnterIsCommit(before, moved, left, i);
      }
    }

    /** state_transition_work_handler once the new state has been notified */
    method StateTransition(i: nat)
      requires i < ases.Length && (ases[i].iso != None ==> ases[i].iso.value < isos.Length)
      modifies ases, isos, `calls
      ensures Abs() == Transition(old(Abs()), i)
      ensures calls == old(calls) + if old(ases[i]).pending == Idle then T.FreeTrace(old(Abs()), i) else []
    {
      var newState := ases[i].pending;
      Move(i);
      CommitSameIso(old(Abs()), i);
      if newState == Idle {
        AseFree(i);
      }
    }

    /** state_transition_work_handler on the work queue; `noMem`: the notification found
        no buffer */
    method RunWork(i: nat, noMem: bool)
      requires Inv(Abs()) && CanHappen(Abs(), EWork(i, noMem))
      modifies ases, isos, `calls
      ensures Abs() == Step(old(Abs()), EWork(i, noMem)) && Inv(Abs())
      ensures calls == old(calls) + T.Trace(old(Abs()), EWork(i, noMem))
    {
      ghost var before := Abs();
      assert AseBound(before, i);
      ases[i] := ases[i].(work := NotQueued);
      if ases[i].conn != None && noMem {
        var oldState := ases[i].state;
        ases[i] := ases[i].(state := ases[i].pending);
        ases[i] := ases[i].(state := oldState);
        ases[i] := ases[i].(work := Delayed);
        assert ases[..] == before.ases[i := before.ases[i].(work := Delayed)];
      } else {
        StateTransition(i);
      }
      StepKeeps(before, EWork(i, noMem));
    }

    // ---- requests of the client ----

    /** ase_config; `ok`: the parameters and the answer of the application */
    method AseConfig(i: nat, ok: bool) returns (done: bool)
      requires i < ases.Length
      modifies ases
      ensures Abs() == SetAse(old(Abs()), i, Config(old(ases[i]), ok))
      ensures done <==> ok && (old(ases[i]).state == Idle || old(ases[i]).state == CodecConfigured || old(ases[i]).state == QosConfigured)
    {
      SetSame(Abs(), i);
      done := false;
      match ases[i].state {
        case Idle | CodecConfigured | QosConfigured =>
          if ok {
            ghost var before := Abs();
            if !ases[i].stream {
              ases[i] := ases[i].(streamIso := None);
              ases[i] := ases[i].(stream := true);
            }
            var _ := SetState(i, CodecConfigured);
            done := true;
            assert ases[..] == before.ases[i := ases[i]];
          }
        case _ =>
      }
    }

    /** One ASE of ascs_config */
    method ConfigWrite(conn: nat, id: nat, ok: bool)
      requires Inv(Abs())
      modifies ases, isos, `calls
      ensures Abs() == Step(old(Abs()), EConfig(conn, id, ok)) && Inv(Abs())
      ensures calls == old(calls) + T.Trace(old(Abs()), EConfig(conn, id, ok))
    {
      ghost var before := Abs();
      if 1 <= id <= count {
        var i := AseFind(conn, id);
        if i < ases.Length {
          var _ := AseConfig(i, ok);
        } else {
          i := AseNew(conn, id);
          if i < ases.Length {
            ghost var fresh' := Abs();
            var done := AseConfig(i, ok);
            SetTwice(before, i, fresh'.ases[i], Config(fresh'.ases[i], ok));
            if !done {
              AseFree(i);
            }
          }
        }
      }
      StepKeeps(before, EConfig(conn, id, ok));
    }

    /** bt_ascs_config_ase */
    method ConfigLocally(conn: nat, ok: bool)
      requires Inv(Abs())
      modifies ases, `calls
      ensures Abs() == Step(old(Abs()), EConfigLocal(conn, ok)) && Inv(Abs())
      ensures calls == old(calls) + T.Trace(old(Abs()), EConfigLocal(conn, ok))
    {
      ghost var before := Abs();
      var id := 1;
      while id <= count
        invariant 1 <= id <= count + 1
        invariant forall j :: 1 <= j < id ==> FindAse(ases[..], conn, j, 0) < ases.Length
        invariant ases[..] == before.ases && calls == old(calls)
      {
        var found := AseFind(conn, id);
        if found == ases.Length {
          break;
        }
        id := id + 1;
      }
      assert id == FreeId(before, conn, 1);
      if id <= count {
        var i := AseNew(conn, id);
        if i < ases.Length && ok {
          ghost var a := ases[i];
          ases[i] := ases[i].(stream := true);
          var _ := SetState(i, CodecConfigured);
          SetTwice(before, i, a, ases[i]);
          assert ases[..] == before.ases[i := Request(a.(stream := true), CodecConfigured)];
        }
      }
      StepKeeps(before, EConfigLocal(conn, ok));
    }

    /** ase_qos where the CIG or CIS may have changed */
    method QosUnbind(i: nat, cig: nat, cis: nat)
      requires i < ases.Length && (ases[i].iso != None ==> ases[i].iso.value < isos.Length)
      modifies ases, isos, `calls
      ensures Abs() == QosUnbound(old(Abs()), i, cig, cis)
      ensures calls == old(calls) + T.QosUnboundTrace(old(Abs()), i, cig, cis)
    {
      if ases[i].iso != None && (ases[i].cig != cig || ases[i].cis != cis) {
        IsoUnbind(i);
        ases[i] := ases[i].(streamIso := None);
      }
    }

    /** ase_qos where the endpoint may have no channel */
    method QosBind(i: nat, cig: nat, cis: nat) returns (bound: bool)
      requires i < ases.Length
      modifies ases, isos, `calls
      ensures Abs() == QosBound(old(Abs()), i, cig, cis)
      ensures calls == old(calls) + T.QosBoundTrace(old(Abs()), i, cig, cis)
      ensures bound == QosBinds(old(Abs()), i, cig, cis)
    {
      if ases[i].iso == None {
        var iso := IsoGetOrNew(ases[i].conn, cig, cis);
        if iso == None {
          return false;
        }
        var k := iso.value;
        if Slot(isos[k], ases[i].dir) != None {
          IsoUnref(k);
          return false;
        }
        IsoBind(k, i);
        IsoUnref(k);
        ases[i] := ases[i].(streamIso := Some(k));
      }
      bound := true;
    }

    /** ase_qos */
    method AseQos(i: nat, cig: nat, cis: nat, ok: bool)
      requires i < ases.Length && (ases[i].iso != None ==> ases[i].iso.value < isos.Length)
      modifies ases, isos, `calls
      ensures Abs() == Qos(old(Abs()), i, cig, cis, ok)
      ensures calls == old(calls) + T.QosTrace(old(Abs()), i, cig, cis, ok)
    {
      hide QosUnbound, QosBound, QosBinds, T.QosUnboundTrace, T.QosBoundTrace;
      if ases[i].state != CodecConfigured && ases[i].state != QosConfigured {
        return;
      }
      if !ases[i].stream || !ok {
        return;
      }
      QosUnbind(i, cig, cis);
      var bound := QosBind(i, cig, cis);
      if !bound {
        return;
      }
      ghost var before := Abs();
      ases[i] := ases[i].(cig := cig, cis := cis);
      var _ := SetState(i, QosConfigured);
      SetTwice(before, i, before.ases[i].(cig := cig, cis := cis), ases[i]);
    }

    /** One ASE of ascs_qos */
    method QosWrite(conn: nat, id: nat, cig: nat, cis: nat, ok: bool)
      requires Inv(Abs())
      modifies ases, isos, `calls
      ensures Abs() == Step(old(Abs()), EQos(conn, id, cig, cis, ok)) && Inv(Abs())
      ensures calls == old(calls) + T.Trace(old(Abs()), EQos(conn, id, cig, cis, ok))
    {
      ghost var before := Abs();
      if 1 <= id <= count {
        var i := AseFind(conn, id);
        if i < ases.Length {
          assert AseBound(before, i);
          AseQos(i, cig, cis, ok);
        }
      }
      StepKeeps(before, EQos(conn, id, cig, cis, ok));
    }

    /** ase_enable */
    method AseEnable(i: nat, ok: bool)
      requires i < ases.Length
      modifies ases
      ensures Abs() == SetAse(old(Abs()), i, Enable(old(ases[i]), ok))
    {
      SetSame(Abs(), i);
      if ases[i].state != QosConfigured || !ok {
        return;
      }
      var _ := SetState(i, Enabling);
    }

    /** ase_start */
    method AseStart(i: nat, ok: bool)
      requires i < ases.Length
      modifies ases
      ensures Abs() == SetAse(old(Abs()), i, Start(old(ases[i]), ChanIs(old(Abs()), old(ases[i]), Connected), ok))
    {
      SetSame(Abs(), i);
      if ases[i].state != Enabling {
        return;
      }
      var connected := IsoConnectedOf(i);
      if !connected || !ok {
        return;
      }
      ghost var before := Abs();
      ases[i] := ases[i].(receiverReady := true);
      var _ := SetState(i, Streaming);
      assert ases[..] == before.ases[i := ases[i]];
    }

    /** ase_disable; `answer`: what the application returns */
    method AseDisable(i: nat, reason: nat, answer: int) returns (ret: int)
      requires i < ases.Length
      modifies ases
      ensures Abs() == SetAse(old(Abs()), i, Disable(old(ases[i]), reason, answer == 0))
      ensures ret == if old(ases[i]).state == Enabling || old(ases[i]).state == Streaming then answer else -EBADMSG
    {
      SetSame(Abs(), i);
      match ases[i].state {
        case Enabling | Streaming =>
          ret := answer;
          if answer == 0 {
            ghost var before := Abs();
            ases[i] := ases[i].(reason := reason);
            var _ := SetState(i, if ases[i].dir == Source then Disabling else QosConfigured);
            assert ases[..] == before.ases[i := ases[i]];
          }
        case _ =>
          ret := -EBADMSG;
      }
    }

    /** ase_stop */
    method AseStop(i: nat, ok: bool)
      requires i < ases.Length
      modifies ases
      ensures Abs() == SetAse(old(Abs()), i, Stop(old(ases[i]), CanDisconnect(old(Abs()), i), ok))
    {
      SetSame(Abs(), i);
      if ases[i].state != Disabling || !ok {
        return;
      }
      ghost var before := Abs();
      var canDisconnect := StreamCanDisconnect(i);
      if canDisconnect {
        ases[i] := ases[i].(disconnect := true);
      }
      var _ := SetState(i, QosConfigured);
      assert ases[..] == before.ases[i := ases[i]];
    }

    /** ase_metadata */
    method AseMetadata(i: nat, ok: bool)
      requires i < ases.Length
      modifies ases
      ensures Abs() == SetAse(old(Abs()), i, Metadata(old(ases[i]), ok))
    {
      SetSame(Abs(), i);
      match ases[i].state {
        case Enabling | Streaming =>
          if ok { var _ := SetState(i, ases[i].state); }
        case _ =>
      }
    }

    /** ase_release */
    method AseRelease(i: nat, reason: nat, ok: bool)
      requires i < ases.Length
      modifies ases
      ensures Abs() == SetAse(old(Abs()), i, Release(old(ases[i]), reason, ok))
    {
      SetSame(Abs(), i);
      if ases[i].state == Idle || ases[i].state == Releasing || !ok {
        return;
      }
      ghost var before := Abs();
      ases[i] := ases[i].(reason := reason);
      var _ := SetState(i, Releasing);
      assert ases[..] == before.ases[i := ases[i]];
    }

    /** One ASE of ascs_enable, ascs_start, ascs_disable, ascs_stop, ascs_metadata, ascs_release */
    method Write(op: Op, conn: nat, id: nat, ok: bool)
      requires Inv(Abs())
      modifies ases
      ensures Abs() == Step(old(Abs()), EOperate(op, conn, id, ok)) && Inv(Abs())
    {
      ghost var before := Abs();
      if 1 <= id <= count {
        var i := AseFind(conn, id);
        if i < ases.Length {
          SetSame(before, i);
          match op {
            case OpEnable => AseEnable(i, ok);
            case OpStart => if ases[i].dir != Sink { AseStart(i, ok); }
            case OpDisable => var _ := AseDisable(i, REMOTE_USER_TERM_CONN, if ok then 0 else -EINVAL);
            case OpStop => if ases[i].dir != Sink { AseStop(i, ok); }
            case OpMetadata => AseMetadata(i, ok);
            case OpRelease => AseRelease(i, REMOTE_USER_TERM_CONN, ok);
          }
        }
      }
      StepKeeps(before, EOperate(op, conn, id, ok));
    }

    // ---- calls of the local application ----

    /** bt_bap_stream_reconfig, _metadata, _disable and _start on a stream of the server;
        `answer`: what the application's own callback returns.  EBADMSG is the refusal of
        the state alone: no admitted call meets the one of ascs_ep_set_state. */
    method LocalWrite(op: LocalOp, i: nat, answer: int) returns (ret: int)
      requires Inv(Abs()) && CanHappen(Abs(), EOperateLocal(op, i, answer == 0))
      modifies ases
      ensures Abs() == Step(old(Abs()), EOperateLocal(op, i, answer == 0)) && Inv(Abs())
      ensures !Admits(op, old(ases[i].state)) ==> ret == -EBADMSG
      ensures Admits(op, old(ases[i].state)) ==>
                ret == match op
                       case LocalReconfig => 0
                       case LocalStart => if old(ases[i].dir) == Sink then 0 else -EINVAL
                       case LocalMetadata => answer
                       case LocalDisable => answer
    {
      ghost var before := Abs();
      assert AseInv(before.ases[i]);
      SetSame(before, i);
      ret := -EBADMSG;
      match op {
        case LocalReconfig =>
          match ases[i].state {
            case Idle | CodecConfigured | QosConfigured =>
              if answer == 0 { var _ := SetState(i, CodecConfigured); }
              ret := 0;
            case _ =>
          }
        case LocalMetadata =>
          match ases[i].state {
            case Enabling | Streaming =>
              ret := answer;
              if answer == 0 { ret := SetState(i, ases[i].state); }
            case _ =>
          }
        case LocalDisable =>
          match ases[i].state {
            case Enabling | Streaming => ret := AseDisable(i, LOCALHOST_TERM_CONN, answer);
            case _ =>
          }
        case LocalStart =>
          if ases[i].state == Enabling {
            ret := ServerStart(i);
          }
      }
      assert ases[..] == before.ases[i := ases[i]];
      StepKeeps(before, EOperateLocal(op, i, answer == 0));
    }

    /** bt_bap_unicast_server_start */
    method ServerStart(i: nat) returns (ret: int)
      requires i < ases.Length && ases[i].state == Enabling
      modifies ases
      ensures Abs() == SetAse(old(Abs()), i, OperateLocal(old(Abs()), LocalStart, i, true))
      ensures ret == if old(ases[i].dir) == Sink then 0 else -EINVAL
    {
      ghost var before := Abs();
      SetSame(before, i);
      if ases[i].dir != Sink {
        return -EINVAL;
      }
      var connected := IsoConnectedOf(i);
      if connected {
        ret := SetState(i, Streaming);
      } else {
        ases[i] := ases[i].(receiverReady := true);
        ret := 0;
      }
      assert ases[..] == before.ases[i := ases[i]];
    }

    /** bt_ascs_release_ase */
    method LocalRelease(i: nat, ok: bool)
      requires Inv(Abs()) && CanHappen(Abs(), EReleaseLocal(i, ok))
      modifies ases, isos, `calls
      ensures Abs() == Step(old(Abs()), EReleaseLocal(i, ok)) && Inv(Abs())
      ensures calls == old(calls) + T.Trace(old(Abs()), EReleaseLocal(i, ok))
    {
      ghost var before := Abs();
      if ases[i].state == Idle {
        assert AseBound(before, i);
        AseFree(i);
      } else {
        AseRelease(i, LOCALHOST_TERM_CONN, ok);
      }
      StepKeeps(before, EReleaseLocal(i, ok));
    }

    // ---- events of the links ----

    /** ascs_iso_accept */
    method Accept(conn: nat, cig: nat, cis: nat, encrypt: bool)
      requires Inv(Abs())
      modifies isos
      ensures Abs() == Step(old(Abs()), EIsoAccept(conn, cig, cis, encrypt)) && Inv(Abs())
    {
      ghost var before := Abs();
      var i := 0;
      while i < ases.Length && !(ases[i].conn == Some(conn) && ases[i].cig == cig && ases[i].cis == cis)
        invariant i <= ases.Length
        invariant forall j :: 0 <= j < i ==> !Awaits(ases[j], conn, cig, cis)
      {
        i := i + 1;
      }
      assert i == FindCis(ases[..], conn, cig, cis, 0);
      if i < ases.Length && (ases[i].state == Enabling || ases[i].state == QosConfigured) {
        var iso := ases[i].iso;
        if iso != None && iso.value < isos.Length && isos[iso.value].chan == Disconnected {
          isos[iso.value] := isos[iso.value].(chan := if encrypt then EncryptPending else Connecting);
        }
      }
      StepKeeps(before, EIsoAccept(conn, cig, cis, encrypt));
    }

    /** ascs_ep_iso_connected, for the endpoint in a slot */
    method EpIsoConnected(ep: Option<nat>)
      modifies ases
      ensures Abs() == OnSlot(old(Abs()), ep, false, 0)
    {
      if ep == None || ep.value >= ases.Length {
        return;
      }
      var i := ep.value;
      ghost var before := Abs();
      SetSame(before, i);
      if ases[i].state != Enabling || !ases[i].stream {
        return;
      }
      ases[i] := ases[i].(reason := SUCCESS, linkLoss := false);
      ases[i] := ases[i].(log := ases[i].log + [IsoUp]);
      if ases[i].dir == Sink && ases[i].receiverReady {
        var _ := SetState(i, Streaming);
      }
      assert ases[..] == before.ases[i := ases[i]];
    }

    /** ascs_ep_iso_disconnected, for the endpoint in a slot */
    method EpIsoDisconnected(ep: Option<nat>, reason: nat)
      modifies ases
      ensures Abs() == OnSlot(old(Abs()), ep, true, reason)
    {
      if ep == None || ep.value >= ases.Length {
        return;
      }
      var i := ep.value;
      ghost var before := Abs();
      SetSame(before, i);
      if !ases[i].stream {
        return;
      }
      ases[i] := ases[i].(log := ases[i].log + [IsoDown(reason)]);
      ases[i] := ases[i].(disconnect := false, reason := reason);
      match ases[i].state {
        case Releasing =>
          var _ := SetState(i, Idle);
        case Streaming | Disabling =>
          ases[i] := ases[i].(linkLoss := true);
          var _ := SetState(i, QosConfigured);
        case _ =>
      }
      assert ases[..] == before.ases[i := ases[i]];
    }

    /** ascs_iso_connected */
    method ChannelConnected(k: nat)
      requires Inv(Abs()) && CanHappen(Abs(), EIsoConnected(k))
      modifies ases, isos
      ensures Abs() == Step(old(Abs()), EIsoConnected(k)) && Inv(Abs())
    {
      ghost var before := Abs();
      isos[k] := isos[k].(chan := Connected);
      var rx, tx := isos[k].rx, isos[k].tx;
      EpIsoConnected(rx);
      EpIsoConnected(tx);
      StepKeeps(before, EIsoConnected(k));
    }

    /** ascs_iso_disconnected */
    method ChannelDisconnected(k: nat, reason: nat)
      requires Inv(Abs()) && CanHappen(Abs(), EIsoDisconnected(k, reason))
      modifies ases, isos
      ensures Abs() == Step(old(Abs()), EIsoDisconnected(k, reason)) && Inv(Abs())
    {
      ghost var before := Abs();
      isos[k] := isos[k].(chan := Disconnected);
      var rx, tx := isos[k].rx, isos[k].tx;
      EpIsoDisconnected(rx, reason);
      EpIsoDisconnected(tx, reason);
      StepKeeps(before, EIsoDisconnected(k, reason));
    }

    /** One round of the loop of disconnected() */
    method LinkDown(i: nat, conn: nat, reason: nat)
      requires i < ases.Length && (ases[i].iso != None ==> ases[i].iso.value < isos.Length)
      modifies ases, isos, `calls
      ensures Abs() == AclDown(old(Abs()), i, conn, reason)
      ensures calls == old(calls) + T.AclDownTrace(old(Abs()), i, conn)
    {
      if ases[i].conn == Some(conn) && ases[i].state != Idle {
        ases[i] := ases[i].(reason := reason, pending := Idle);
        StateTransition(i);
      }
    }

    /** disconnected() */
    method LinkDisconnected(conn: nat, reason: nat)
      requires Inv(Abs())
      modifies ases, isos, `calls
      ensures Abs() == Step(old(Abs()), EAclDisconnected(conn, reason)) && Inv(Abs())
      ensures calls == old(calls) + T.Trace(old(Abs()), EAclDisconnected(conn, reason))
    {
      hide Inv, AclRounds, AclDown, T.AclTrace, T.AclDownTrace;
      ghost var before, made := Abs(), calls;
      StepKeeps(before, EAclDisconnected(conn, reason));
      T.AclLast(before, 0, conn, reason);
      var i := 0;
      while i < ases.Length
        invariant i <= ases.Length == |before.ases|
        invariant Abs() == AclRounds(before, i, conn, reason)
        invariant calls == made + T.AclTrace(before, i, conn, reason)
      {
        RoundInRange(before, i, conn, reason);
        T.AclLast(before, i + 1, conn, reason);
        LinkDown(i, conn, reason);
        i := i + 1;
      }
    }

    /** ascs_disconnect_stream_work_handler */
    method RunDisconnectWork(i: nat, ok: bool)
      requires Inv(Abs()) && CanHappen(Abs(), EDisconnectWork(i, ok))
      modifies ases, isos
      ensures Abs() == Step(old(Abs()), EDisconnectWork(i, ok)) && Inv(Abs())
    {
      ghost var before := Abs();
      ases[i] := ases[i].(disconnect := false);
      var iso := ases[i].iso;
      if iso != None && iso.value < isos.Length {
        var chan := isos[iso.value].chan;
        if (chan == Connected || chan == Connecting) && ok {
          isos[iso.value] := isos[iso.value].(chan := Disconnecting);
        }
      }
      StepKeeps(before, EDisconnectWork(i, ok));
    }
  }
}
