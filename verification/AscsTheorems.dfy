/** What the server's endpoints promise over all runs. */
module AscsTheorems {
  import opened Prelude
  import opened AscsSpec
  import opened AscsInv
  import opened AscsKeeps
  import opened AscsSteps

  /** `s` is where run `es` from `s0` ends. */
  predicate Reaches(s0: State, es: seq<Event>, s: State) {
    Initial(s0) && Runs(s0, es) && Exec(s0, es) == s
  }

  ghost predicate Reachable(s: State) {
    exists s0: State, es: seq<Event> :: Reaches(s0, es, s)
  }

  lemma ReachableInv(s: State)
    requires Reachable(s)
    ensures Inv(s)
  {
    var s0: State, es: seq<Event> :| Reaches(s0, es, s);
    InitialInv(s0);
    RunKeeps(s0, es);
  }

  /** The last event of a run, apart. */
  lemma {:induction false} LastOfRun(s: State, es: seq<Event>, e: Event)
    requires Runs(s, es) && Runs(s, es + [e])
    ensures CanHappen(Exec(s, es), e) && Exec(s, es + [e]) == Step(Exec(s, es), e)
    decreases |es|
  {
    if es == [] {
      assert [] + [e] == [e] && [e][1..] == [];
    } else {
      assert (es + [e])[1..] == es[1..] + [e];
      LastOfRun(Step(s, es[0]), es[1..], e);
    }
  }

  // ---- committed transitions ----

  /** The transitions unicast_client_ep_set_status takes part in. */
  predicate ClientAccepts(dir: Dir, from: EpState, to: EpState) {
    match to
    case Idle => true
    case CodecConfigured => from == Idle || from == CodecConfigured || from == QosConfigured || from == Releasing
    case QosConfigured =>
      if dir == Source
      then from == CodecConfigured || from == QosConfigured || from == Streaming || from == Disabling
      else from == CodecConfigured || from == QosConfigured || from == Enabling || from == Streaming
    case Enabling => from == QosConfigured || from == Enabling
    case Streaming => from == Enabling || from == Streaming
    case Disabling => dir == Source && (from == Enabling || from == Streaming)
    case Releasing =>
      || from == CodecConfigured || from == QosConfigured || from == Enabling || from == Streaming
      || (from == Disabling && dir == Source)
  }

  /** Whenever the transition work is queued or delayed, the transition it will make
      is in the server's table and one the client accepts. */
  lemma PendingIsLegal(s: State, i: nat)
    requires Reachable(s) && i < |s.ases| && s.ases[i].work != NotQueued
    ensures var a := s.ases[i]; Valid(a.dir, a.linkLoss, a.state, a.pending) && ClientAccepts(a.dir, a.state, a.pending)
  {
    ReachableInv(s);
    assert AseInv(s.ases[i]);
  }

  // ---- what events do to one endpoint ----

  /** The server relies on the endpoint's channel. */
  predicate Needs(a: Ase) {
    || a.state == QosConfigured || a.state == Enabling || a.state == Streaming || a.state == Disabling
    || (a.work != NotQueued && a.pending == QosConfigured)
    || a.disconnect
  }

  predicate HasChannel(a: Ase) { Needs(a) ==> a.iso != None }

  /** Same state, no invalid request, and no channel lost. */
  predicate Calm(a: Ase, b: Ase) {
    b.state == a.state && b.rejected == a.rejected && (HasChannel(a) ==> HasChannel(b))
  }

  lemma OperateCalm(s: State, op: Op, i: nat, ok: bool)
    requires i < |s.ases| && AseInv(s.ases[i])
    ensures Calm(s.ases[i], Operate(s, op, i, ok))
  {
    var a := s.ases[i];
    match op {
      case OpEnable => assert Calm(a, Enable(a, ok));
      case OpStart => assert Calm(a, Start(a, ChanIs(s, a, Connected), ok));
      case OpDisable => assert Calm(a, Disable(a, REMOTE_USER_TERM_CONN, ok));
      case OpStop => assert Calm(a, Stop(a, CanDisconnect(s, i), ok));
      case OpMetadata => assert Calm(a, Metadata(a, ok));
      case OpRelease => assert Calm(a, Release(a, REMOTE_USER_TERM_CONN, ok));
    }
  }

  lemma ConfigCalm(a: Ase, ok: bool)
    requires AseInv(a)
    ensures Calm(a, Config(a, ok))
  {}

  lemma EpCalm(a: Ase, reason: nat)
    requires AseInv(a)
    ensures Calm(a, EpConnected(a)) && Calm(a, EpDisconnected(a, reason))
  {}

  lemma EnterCalm(c: Ase, connected: bool, canDisconnect: bool)
    requires c.work == NotQueued && !c.disconnect && (canDisconnect ==> c.iso != None)
    ensures var b := Enter(c, connected, canDisconnect);
            b.state == c.state && b.rejected == c.rejected && b.iso == c.iso && (HasChannel(c) ==> HasChannel(b))
  {}

  /** A commit makes no invalid request, and asks for no channel that was not asked for. */
  lemma CommitCalm(a: Ase, connected: bool, canDisconnect: bool)
    requires Legal(a) && a.work != NotQueued && (canDisconnect ==> a.iso != None)
    ensures var b := Commit(a.(work := NotQueued), connected, canDisconnect);
            b.state == a.pending && b.rejected == a.rejected && (HasChannel(a) ==> HasChannel(b))
  {
    var to := a.pending;
    var c := a.(work := NotQueued, state := to, log := a.log + ExitLog(a.(work := NotQueued), a.state, to));
    assert HasChannel(a) ==> HasChannel(c);
    if a.disconnect { EnterCalmer(c, connected, canDisconnect); } else { EnterCalm(c, connected, canDisconnect); }
  }

  lemma EnterCalmer(c: Ase, connected: bool, canDisconnect: bool)
    requires c.work == NotQueued && c.disconnect
    ensures var b := Enter(c, connected, canDisconnect);
            b.state == c.state && b.rejected == c.rejected && b.iso == c.iso
  {}

  /** Nothing happened to any endpoint but calm changes. */
  predicate CalmStep(s: State, u: State) {
    |u.ases| == |s.ases| && forall i :: 0 <= i < |s.ases| ==> Calm(s.ases[i], u.ases[i])
  }

  lemma SetCalm(s: State, i: nat, a: Ase)
    requires i < |s.ases| && Calm(s.ases[i], a)
    ensures CalmStep(s, SetAse(s, i, a))
  {}

  lemma UnbindAse(s: State, i: nat)
    requires i < |s.ases|
    ensures |Unbind(s, i).ases| == |s.ases| && Unbind(s, i).ases[i].(iso := None) == s.ases[i].(iso := None)
    ensures forall j :: 0 <= j < |s.ases| && j != i ==> Unbind(s, i).ases[j] == s.ases[j]
  {}

  lemma FreeCalm(s: State, i: nat)
    requires i < |s.ases| && (s.ases[i].state == Idle || s.ases[i].state == Releasing)
    ensures CalmStep(s, Free(s, i))
  {
    UnbindAse(s, i);
  }

  lemma ConfigOpCalm(s: State, conn: nat, id: nat, ok: bool)
    requires Inv(s)
    ensures CalmStep(s, ConfigOp(s, conn, id, ok))
  {
    var i, f := FindAse(s.ases, conn, id, 0), FreeSlot(s.ases, 0);
    if ValidId(s, id) && i < |s.ases| {
      ConfigCalm(s.ases[i], ok);
    } else if ValidId(s, id) && f < |s.ases| {
      assert AseInv(s.ases[f]);
      var u := SetAse(s, f, Config(NewAse(s, s.ases[f], conn, id), ok));
      if !ok { FreeCalm(u, f); }
    }
  }

  lemma ConfigLocalCalm(s: State, conn: nat, ok: bool)
    requires Inv(s)
    ensures CalmStep(s, ConfigLocal(s, conn, ok))
  {
    var f := FreeSlot(s.ases, 0);
    if f < |s.ases| { assert AseInv(s.ases[f]); }
  }

  lemma OnSlotCalm(s: State, ep: Option<nat>, down: bool, reason: nat)
    requires AsesInv(s)
    ensures CalmStep(s, OnSlot(s, ep, down, reason))
  {
    if ep != None && ep.value < |s.ases| { EpCalm(s.ases[ep.value], reason); }
  }

  lemma CalmTwice(s: State, t: State, u: State)
    requires CalmStep(s, t) && CalmStep(t, u)
    ensures CalmStep(s, u)
  {
    forall i | 0 <= i < |s.ases| ensures Calm(s.ases[i], u.ases[i]) {
      assert Calm(s.ases[i], t.ases[i]) && Calm(t.ases[i], u.ases[i]);
    }
  }

  lemma IsoEventCalm(s: State, k: nat, chan: Chan, down: bool, reason: nat)
    requires Inv(s) && k < |s.isos|
    ensures
      var u := SetIso(s, k, s.isos[k].(chan := chan));
      CalmStep(s, OnSlot(OnSlot(u, s.isos[k].rx, down, reason), s.isos[k].tx, down, reason))
  {
    var u := SetIso(s, k, s.isos[k].(chan := chan));
    var v := OnSlot(u, s.isos[k].rx, down, reason);
    ChanKeeps(s, k, chan);
    assert IsoInv(s, k);
    OnSlotKeeps(u, s.isos[k].rx, down, reason);
    OnSlotCalm(u, s.isos[k].rx, down, reason);
    OnSlotCalm(v, s.isos[k].tx, down, reason);
    CalmTwice(u, v, OnSlot(v, s.isos[k].tx, down, reason));
  }

  predicate CalmEvent(e: Event) { !e.EWork? && !e.EAclDisconnected? && !e.EQos? && !e.EOperateLocal? && !e.EReleaseLocal? }

  lemma CalmEvents(s: State, e: Event)
    requires Inv(s) && CanHappen(s, e) && CalmEvent(e)
    ensures CalmStep(s, Step(s, e))
  {
    match e {
      case EConfig(conn, id, ok) => ConfigOpCalm(s, conn, id, ok);
      case EOperate(op, conn, id, ok) =>
        var i := FindAse(s.ases, conn, id, 0);
        if i < |s.ases| { OperateCalm(s, op, i, ok); SetCalm(s, i, Operate(s, op, i, ok)); }
      case EConfigLocal(conn, ok) => ConfigLocalCalm(s, conn, ok);
      case EIsoAccept(conn, cig, cis, encrypt) =>
      case EIsoConnected(k) => IsoEventCalm(s, k, Connected, false, 0);
      case EIsoDisconnected(k, reason) => IsoEventCalm(s, k, Disconnected, true, reason);
      case EDisconnectWork(i, ok) => SetCalm(s, i, s.ases[i].(disconnect := false));
      case _ =>
    }
  }

  // ---- the other events ----

  /** Only endpoint `i` changed. */
  predicate OnlyAse(s: State, u: State, i: nat) {
    |u.ases| == |s.ases| && i < |s.ases| && forall j :: 0 <= j < |s.ases| && j != i ==> u.ases[j] == s.ases[j]
  }

  lemma RunWorkEffect(s: State, i: nat, noMem: bool)
    requires Inv(s) && i < |s.ases| && s.ases[i].work != NotQueued
    ensures
      var u := RunWork(s, i, noMem);
      && OnlyAse(s, u, i) && u.ases[i].rejected == s.ases[i].rejected
      && (HasChannel(s.ases[i]) ==> HasChannel(u.ases[i]))
      && u.ases[i].state == if noMem then s.ases[i].state else s.ases[i].pending
  {
    var a := s.ases[i];
    assert AseInv(a);
    if !noMem {
      var t := SetAse(s, i, a.(work := NotQueued));
      var moved := SetAse(t, i, t.ases[i].(state := a.pending));
      var connected, canDisconnect := ChanIs(t, t.ases[i], Connected), CanDisconnect(moved, i);
      CommitCalm(a, connected, canDisconnect);
      var v := SetAse(t, i, Commit(t.ases[i], connected, canDisconnect));
      if a.pending == Idle { UnbindAse(v, i); }
    }
  }

  lemma AclDownEffect(s: State, i: nat, conn: nat, reason: nat)
    requires i < |s.ases|
    ensures
      var a, u := s.ases[i], AclDown(s, i, conn, reason);
      && OnlyAse(s, u, i)
      && if a.conn == Some(conn) && a.state != Idle
         then u.ases[i].conn == None && u.ases[i].state == Idle && u.ases[i].rejected == a.rejected
              && u.ases[i].work == NotQueued && !u.ases[i].disconnect
         else u == s
  {
    var a := s.ases[i];
    if a.conn == Some(conn) && a.state != Idle {
      var t := SetAse(s, i, a.(reason := reason, pending := Idle));
      var moved := SetAse(t, i, t.ases[i].(state := Idle));
      var v := SetAse(t, i, Commit(t.ases[i], ChanIs(t, t.ases[i], Connected), CanDisconnect(moved, i)));
      UnbindAse(v, i);
    }
  }

  /** The loop of disconnected() frees exactly the endpoints of the link that are not
      idle, and leaves every other endpoint alone. */
  lemma {:induction false} AclRoundsEffect(s: State, n: nat, conn: nat, reason: nat)
    requires n <= |s.ases|
    ensures
      var u := AclRounds(s, n, conn, reason);
      forall i :: 0 <= i < |s.ases| ==>
        if i < n && s.ases[i].conn == Some(conn) && s.ases[i].state != Idle
        then u.ases[i].conn == None && u.ases[i].state == Idle && u.ases[i].rejected == s.ases[i].rejected
             && u.ases[i].work == NotQueued && !u.ases[i].disconnect
        else u.ases[i] == s.ases[i]
  {
    hide AclDown;
    if n > 0 {
      AclRoundsEffect(s, n - 1, conn, reason);
      AclDownEffect(AclRounds(s, n - 1, conn, reason), n - 1, conn, reason);
    }
  }

  lemma QosEffect(s: State, i: nat, cig: nat, cis: nat, ok: bool)
    requires Inv(s) && i < |s.ases|
    ensures
      var a, u, v := s.ases[i], Qos(s, i, cig, cis, ok), QosUnbound(s, i, cig, cis);
      && OnlyAse(s, u, i) && u.ases[i].state == a.state && u.ases[i].rejected == a.rejected
      && if QosAdmitted(a, ok) && !QosBinds(v, i, cig, cis)
         then u.ases[i] == v.ases[i] && v.ases[i].iso == None
         else HasChannel(a) ==> HasChannel(u.ases[i])
  {
    hide Inv, QosBound, QosBinds, Unbind;
    var v := QosUnbound(s, i, cig, cis);
    QosUnboundKeeps(s, i, cig, cis);
    UnbindAse(s, i);
    QosBoundEffect(v, i, cig, cis);
  }

  lemma QosBoundEffect(s: State, i: nat, cig: nat, cis: nat)
    requires Inv(s) && i < |s.ases|
    ensures
      var b := QosBound(s, i, cig, cis);
      && OnlyAse(s, b, i)
      && b.ases[i] == s.ases[i].(iso := b.ases[i].iso, streamIso := b.ases[i].streamIso)
      && if QosBinds(s, i, cig, cis) then b.ases[i].iso != None else b.ases[i] == s.ases[i] && b.ases[i].iso == None
  {
    if s.ases[i].iso == None { QosBoundGets(s, i, cig, cis); }
  }

  // ---- invalid requests ----

  lemma OperateLocalEffect(s: State, op: LocalOp, i: nat, ok: bool)
    requires Owned(s, i) && AseInv(s.ases[i])
    ensures Calm(s.ases[i], OperateLocal(s, op, i, ok))
  {}

  lemma ReleaseLocalEffect(s: State, i: nat, ok: bool)
    requires i < |s.ases| && AseInv(s.ases[i])
    ensures CalmStep(s, ReleaseLocal(s, i, ok))
  {
    if s.ases[i].state == Idle { FreeCalm(s, i); }
  }

  /** What every event does to the state of an endpoint; none is an invalid request. */
  lemma EventEffect(s: State, e: Event, i: nat)
    requires Inv(s) && CanHappen(s, e) && i < |s.ases|
    ensures i < |Step(s, e).ases|
    ensures
      var a, b := s.ases[i], Step(s, e).ases[i];
      && b.rejected == a.rejected
      && b.state == match e
                    case EWork(j, noMem) => if j == i && !noMem then a.pending else a.state
                    case EAclDisconnected(conn, _) => if a.conn == Some(conn) then Idle else a.state
                    case _ => a.state
  {
    match e {
      case EQos(conn, id, cig, cis, ok) =>
        var j := FindAse(s.ases, conn, id, 0);
        if j < |s.ases| { QosEffect(s, j, cig, cis, ok); }
      case EOperateLocal(op, j, ok) => assert AseInv(s.ases[j]); OperateLocalEffect(s, op, j, ok);
      case EReleaseLocal(j, ok) => assert AseInv(s.ases[j]); ReleaseLocalEffect(s, j, ok);
      case EAclDisconnected(conn, reason) => AclRoundsEffect(s, |s.ases|, conn, reason);
      case EWork(j, noMem) => RunWorkEffect(s, j, noMem);
      case _ => CalmEvents(s, e);
    }
  }

  /** The branch of ascs_ep_set_state for invalid transitions is never reached: over no
      run does a write of a client, a call of the application, an event of a link or the
      work handler ask for a transition that is not in the table. */
  lemma NeverInvalid(s0: State, es: seq<Event>, s: State, i: nat)
    requires Reaches(s0, es, s) && i < |s.ases|
    ensures s.ases[i].rejected == 0
  {
    InitialInv(s0);
    NoneRejected(s0, es);
  }

  predicate Unrejected(s: State) { forall i :: 0 <= i < |s.ases| ==> s.ases[i].rejected == 0 }

  lemma {:induction false} NoneRejected(s: State, es: seq<Event>)
    requires Inv(s) && Unrejected(s) && Runs(s, es)
    ensures Unrejected(Exec(s, es))
    decreases |es|
  {
    if es != [] {
      var u := Step(s, es[0]);
      StepSizes(s, es[0]);
      forall i | 0 <= i < |u.ases| ensures u.ases[i].rejected == 0 { EventEffect(s, es[0], i); }
      StepKeeps(s, es[0]);
      NoneRejected(u, es[1..]);
    }
  }

  lemma StepSizes(s: State, e: Event)
    requires Inv(s) && CanHappen(s, e)
    ensures |Step(s, e).ases| == |s.ases|
  {
    match e {
      case EQos(conn, id, cig, cis, ok) =>
        var j := FindAse(s.ases, conn, id, 0);
        if j < |s.ases| { QosEffect(s, j, cig, cis, ok); }
      case EOperateLocal(op, j, ok) =>
      case EReleaseLocal(j, ok) => assert AseInv(s.ases[j]); ReleaseLocalEffect(s, j, ok);
      case EAclDisconnected(conn, reason) =>
      case EWork(j, noMem) => RunWorkEffect(s, j, noMem);
      case _ => CalmEvents(s, e);
    }
  }

  /** Every change of state of every endpoint, whatever the event, is one the client's
      state machine accepts. */
  lemma ChangesAreAccepted(s0: State, es: seq<Event>, s: State, e: Event, u: State, i: nat)
    requires Reaches(s0, es, s) && Reaches(s0, es + [e], u) && i < |s.ases|
    ensures i < |u.ases|
    ensures s.ases[i].state != u.ases[i].state ==> ClientAccepts(s.ases[i].dir, s.ases[i].state, u.ases[i].state)
  {
    ReachableInv(s);
    LastOfRun(s0, es, e);
    EventEffect(s, e, i);
    if e.EWork? && e.ase == i { PendingIsLegal(s, i); }
  }

  /** After the link is gone an endpoint still holds on to it exactly if it was idle:
      disconnected() passes over endpoints allocated but not yet configured. */
  lemma LinkKeptExactly(s: State, conn: nat, reason: nat, i: nat)
    requires i < |s.ases|
    ensures i < |Step(s, EAclDisconnected(conn, reason)).ases|
    ensures Step(s, EAclDisconnected(conn, reason)).ases[i].conn == Some(conn) <==>
            s.ases[i].conn == Some(conn) && s.ases[i].state == Idle
  {
    AclRoundsEffect(s, |s.ases|, conn, reason);
  }

  // ---- callbacks ----

  lemma {:induction false} PlayingMeans(log: seq<Callback>)
    ensures Playing(log) <==>
            exists i :: 0 <= i < |log| && log[i] == Started && forall k :: i < k < |log| ==> !log[k].Stopped?
  {
    if log != [] {
      var init, n := log[..|log| - 1], |log| - 1;
      PlayingMeans(init);
      assert init + [log[n]] == log;
      if Playing(init) {
        var i :| 0 <= i < |init| && init[i] == Started && forall k :: i < k < |init| ==> !init[k].Stopped?;
        assert log[i] == Started && forall k :: i < k < n ==> log[k] == init[k];
      }
      if i :| 0 <= i < n && log[i] == Started && forall k :: i < k < |log| ==> !log[k].Stopped? {
        assert init[i] == Started && forall k :: i < k < |init| ==> !init[k].Stopped?;
      }
    }
  }

  /** Position `i` holds the latest of the calls of started and stopped before position `j`. */
  predicate Last(log: seq<Callback>, i: nat, j: nat) {
    i < j <= |log| && (log[i] == Started || log[i].Stopped?) && forall k :: i < k < j ==> log[k] != Started && !log[k].Stopped?
  }

  lemma {:induction false} AlternatesMeans(log: seq<Callback>, i: nat, j: nat)
    requires Alternates(log) && i < j < |log| && Last(log, i, j)
    ensures log[j] == Started ==> log[i].Stopped?
    ensures log[j].Stopped? ==> log[i] == Started
    decreases |log|
  {
    var init := log[..|log| - 1];
    if j < |init| {
      AlternatesMeans(init, i, j);
    } else {
      PlayingFrom(init, i);
    }
  }

  lemma {:induction false} PlayingFrom(log: seq<Callback>, i: nat)
    requires Last(log, i, |log|)
    ensures Playing(log) <==> log[i] == Started
  {
    var n := |log| - 1;
    if i < n {
      assert log[n] != Started && !log[n].Stopped?;
      PlayingFrom(log[..n], i);
    }
  }

  lemma {:induction false} NotPlaying(log: seq<Callback>)
    requires forall k :: 0 <= k < |log| ==> log[k] != Started
    ensures !Playing(log)
  {
    if log != [] { NotPlaying(log[..|log| - 1]); }
  }

  lemma {:induction false} StopsHaveReason(log: seq<Callback>, j: nat)
    requires Alternates(log) && j < |log| && log[j].Stopped?
    ensures log[j].reason != SUCCESS
    ensures exists i :: 0 <= i < j && log[i] == Started
  {
    var init := log[..|log| - 1];
    if j < |init| {
      StopsHaveReason(init, j);
      var i :| 0 <= i < j && init[i] == Started;
      assert log[i] == Started;
    } else if forall k :: 0 <= k < |init| ==> init[k] != Started {
      NotPlaying(init);
    } else {
      var i :| 0 <= i < |init| && init[i] == Started;
      assert log[i] == Started;
    }
  }

  /** Between two neighbours among the calls of started and stopped of an endpoint one is
      of each kind, the first of all is started, stopped always carries a reason, and the
      application has been told started last exactly while the endpoint is Streaming. */
  lemma StartedStoppedAlternate(s: State, i: nat)
    requires Reachable(s) && i < |s.ases|
    ensures
      var log := s.ases[i].log;
      && (forall m, n :: 0 <= m < n < |log| && Last(log, m, n) ==>
            (log[n] == Started ==> log[m].Stopped?) && (log[n].Stopped? ==> log[m] == Started))
      && (forall n :: 0 <= n < |log| && log[n].Stopped? ==> log[n].reason != SUCCESS && exists m :: 0 <= m < n && log[m] == Started)
      && (s.ases[i].state == Streaming <==>
            exists m :: 0 <= m < |log| && log[m] == Started && forall k :: m < k < |log| ==> !log[k].Stopped?)
  {
    ReachableInv(s);
    assert AseInv(s.ases[i]);
    var log := s.ases[i].log;
    forall m, n | 0 <= m < n < |log| && Last(log, m, n)
      ensures (log[n] == Started ==> log[m].Stopped?) && (log[n].Stopped? ==> log[m] == Started)
    {
      AlternatesMeans(log, m, n);
    }
    forall n | 0 <= n < |log| && log[n].Stopped?
      ensures log[n].reason != SUCCESS && exists m :: 0 <= m < n && log[m] == Started
    {
      StopsHaveReason(log, n);
    }
    PlayingMeans(log);
  }

  /** Only source endpoints are ever disabling, and every endpoint in use has a stream. */
  lemma DisablingIsSource(s: State, i: nat)
    requires Reachable(s) && i < |s.ases|
    ensures s.ases[i].state == Disabling ==> s.ases[i].dir == Source
    ensures s.ases[i].state != Idle ==> s.ases[i].stream && s.ases[i].conn != None
  {
    ReachableInv(s);
    assert AseInv(s.ases[i]);
  }
}
