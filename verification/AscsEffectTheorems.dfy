/** What every event does, in the states the server can reach, to the endpoints and to the
    channels: each field, without the functions of AscsSpec that compute the step. */
module AscsEffectTheorems {
  import opened Prelude
  import opened AscsSpec
  import opened AscsInv
  import opened AscsKeeps
  import opened AscsSteps
  import opened AscsTheorems
  import opened AscsIsoTheorems
  import opened AscsChannelTheorems

  // ---- who may disconnect a CIS ----

  /** The channel of the endpoint is connected, or about to be. */
  predicate Up(s: State, i: nat)
    requires i < |s.ases|
  {
    var k := s.ases[i].iso;
    k != None && k.value < |s.isos| && s.isos[k.value].chan in {Connected, Connecting}
  }

  /** No other endpoint on the channel of endpoint `i` needs it. */
  predicate NobodyElse(s: State, i: nat)
    requires i < |s.ases|
  {
    forall j :: 0 <= j < |s.ases| && j != i && s.ases[j].iso == s.ases[i].iso ==>
      s.ases[j].state in {CodecConfigured, QosConfigured}
  }

  predicate MayDisconnect(s: State, i: nat)
    requires i < |s.ases|
  {
    s.ases[i].stream && Up(s, i) && NobodyElse(s, i)
  }

  /** bt_bap_stream_can_disconnect: the endpoint has a stream, its channel is up, and every
      other endpoint on it is Codec Configured or QoS Configured. */
  lemma DisconnectsExactly(s: State, i: nat)
    requires Reachable(s) && i < |s.ases|
    ensures CanDisconnect(s, i) <==> MayDisconnect(s, i)
  {
    ReachableInv(s);
    LinkedDisconnects(s, i);
  }

  lemma LinkedDisconnects(s: State, i: nat)
    requires Linked(s) && i < |s.ases|
    ensures CanDisconnect(s, i) <==> MayDisconnect(s, i)
  {
    var a := s.ases[i];
    if a.stream && Up(s, i) {
      var k := a.iso.value;
      assert AseBound(s, i) && IsoInv(s, k);
      var pair := if a.dir == Sink then s.isos[k].tx else s.isos[k].rx;
      assert pair == Slot(s.isos[k], if a.dir == Sink then Source else Sink);
      forall j | 0 <= j < |s.ases| && j != i && s.ases[j].iso == a.iso ensures pair == Some(j) { assert AseBound(s, j); }
      if pair != None { assert s.ases[pair.value].iso == a.iso && pair.value != i; }
    }
  }

  // ---- the work handler ----

  /** The endpoint waits for the work handler to take it to state `to`. */
  function AskedFor(a: Ase, to: Option<EpState>): Ase {
    if to == None then a else a.(pending := to.value, work := if a.work == Delayed then Delayed else Queued)
  }

  /** The calls of the application on the way from one state to the next. */
  function Calls(a: Ase, to: EpState): seq<Callback> {
    if a.state == to && (to == Enabling || to == Streaming) then [MetadataUpdated] else
    (if to == QosConfigured && (a.state == Streaming || (a.state == Enabling && a.dir == Sink)) then [Disabled] else [])
    + (if a.state == Streaming then [Stopped(if a.reason == 0 then 0x1f else a.reason)] else [])
    + match to
      case Idle => [Released]
      case CodecConfigured => [Configured]
      case QosConfigured => [QosSet]
      case Enabling => [Enabled]
      case Streaming => [Started]
      case Disabling => [Disabled]
      case Releasing => []
  }

  /** The channel of the endpoint is connected. */
  predicate Open(s: State, i: nat)
    requires i < |s.ases|
  {
    var k := s.ases[i].iso;
    k != None && k.value < |s.isos| && s.isos[k.value].chan == Connected
  }

  /** What a committed transition asks for in turn: a sink that is ready on an open channel
      streams, and an endpoint that does not wait for its CIS to go is idle. */
  function Next(s: State, i: nat, to: EpState): Option<EpState>
    requires i < |s.ases|
  {
    var a := s.ases[i];
    if to == Releasing && !MayDisconnect(s, i) then Some(Idle)
    else if to == Enabling && a.state != Enabling && a.dir == Sink && a.receiverReady && Open(s, i) then Some(Streaming)
    else None
  }

  /** The endpoint in its new state. */
  function Moved(s: State, i: nat, to: EpState): Ase
    requires i < |s.ases|
  {
    var a := s.ases[i];
    AskedFor(a.(state := to, work := NotQueued, log := a.log + Calls(a, to),
             receiverReady := a.receiverReady && (to == Enabling || to == Streaming),
             streamIso := if to == CodecConfigured then None else a.streamIso,
             disconnect := a.disconnect || (to == Releasing && MayDisconnect(s, i))),
          Next(s, i, to))
  }

  /** The endpoint given back to the pool. */
  function Gone(a: Ase): Ase {
    a.(conn := None, state := Idle, pending := Idle, work := NotQueued, stream := false, streamIso := None, iso := None,
       receiverReady := false, disconnect := false, log := a.log + Calls(a, Idle))
  }

  lemma MovesTo(a: Ase, connected: bool, canDisconnect: bool)
    requires Legal(a) && a.work == NotQueued && a.pending != Idle
    ensures
      var to := a.pending;
      var next := if to == Releasing && !canDisconnect then Some(Idle)
                  else if to == Enabling && a.state != Enabling && a.dir == Sink && a.receiverReady && connected then Some(Streaming)
                  else None;
      Commit(a, connected, canDisconnect)
      == AskedFor(a.(state := to, log := a.log + Calls(a, to), receiverReady := a.receiverReady && (to == Enabling || to == Streaming),
                  streamIso := if to == CodecConfigured then None else a.streamIso,
                  disconnect := a.disconnect || (to == Releasing && canDisconnect)),
               next)
  {
    CallsSplit(a, a.pending);
  }

  lemma CallsSplit(a: Ase, to: EpState)
    ensures !(a.state == to && (to == Enabling || to == Streaming)) ==>
      match to
      case Idle => a.log + ExitLog(a, a.state, to) + [Released] == a.log + Calls(a, to)
      case CodecConfigured => a.log + ExitLog(a, a.state, to) + [Configured] == a.log + Calls(a, to)
      case QosConfigured => a.log + ExitLog(a, a.state, to) + [QosSet] == a.log + Calls(a, to)
      case Enabling => a.log + ExitLog(a, a.state, to) + [Enabled] == a.log + Calls(a, to)
      case Streaming => a.log + ExitLog(a, a.state, to) + [Started] == a.log + Calls(a, to)
      case Disabling => a.log + ExitLog(a, a.state, to) + [Disabled] == a.log + Calls(a, to)
      case Releasing => a.log + ExitLog(a, a.state, to) == a.log + Calls(a, to)
  {}

  /** The channel test of the work handler, which has put the endpoint in its new state. */
  lemma MovedDisconnects(s: State, i: nat, a: Ase)
    requires Linked(s) && i < |s.ases| && SameLink(s.ases[i], a) && a.stream == s.ases[i].stream
    ensures CanDisconnect(SetAse(s, i, a), i) <==> MayDisconnect(s, i)
  {
    SameLinksKeep(s, SetAse(s, i, a));
    LinkedDisconnects(SetAse(s, i, a), i);
  }

  lemma FreedIs(s: State, i: nat, a: Ase)
    requires i < |s.ases|
    ensures
      var u := Free(SetAse(s, i, a), i);
      u.ases == s.ases[i := a.(conn := None, disconnect := false, work := NotQueued, iso := u.ases[i].iso)]
      && (s.ases[i].iso == a.iso && AseBound(s, i) ==> u.ases[i].iso == None)
  {
    UnbindAse(SetAse(s, i, a), i);
  }

  lemma TransitionIs(s: State, i: nat)
    requires Linked(s) && i < |s.ases| && s.ases[i].work == NotQueued
    requires s.ases[i].pending == Idle || Legal(s.ases[i])
    ensures
      var a, u := s.ases[i], Transition(s, i);
      if a.pending == Idle then u.ases == s.ases[i := Gone(a)] else u == s.(ases := s.ases[i := Moved(s, i, a.pending)])
  {
    hide CanDisconnect, Commit, Linked, Legal, Calls, Free;
    var a := s.ases[i];
    MovedDisconnects(s, i, a.(state := a.pending));
    var can := CanDisconnect(SetAse(s, i, a.(state := a.pending)), i);
    var c := Commit(a, ChanIs(s, a, Connected), can);
    if a.pending == Idle {
      CommitsIdle(a, ChanIs(s, a, Connected), can);
      BoundIs(s, i);
      FreedIs(s, i, c);
    } else {
      MovesTo(a, ChanIs(s, a, Connected), can);
    }
  }

  lemma BoundIs(s: State, i: nat)
    requires Linked(s) && i < |s.ases|
    ensures AseBound(s, i)
  {}

  lemma CommitsIdle(a: Ase, connected: bool, canDisconnect: bool)
    requires a.pending == Idle
    ensures Commit(a, connected, canDisconnect)
            == a.(state := Idle, log := a.log + Calls(a, Idle), receiverReady := false, streamIso := None, stream := false)
  {
    CallsSplit(a, Idle);
  }

  /** The work handler takes the endpoint to the state asked for last, with the calls of the
      application that go with it, and asks for what follows; an endpoint that becomes idle
      is given back.  Without memory for the notification only the retry is noted. */
  lemma WorkEffect(s: State, i: nat, noMem: bool)
    requires Reachable(s) && CanHappen(s, EWork(i, noMem))
    ensures
      var a, u := s.ases[i], Step(s, EWork(i, noMem));
      if noMem then u == s.(ases := s.ases[i := a.(work := Delayed)])
      else if a.pending == Idle then u.ases == s.ases[i := Gone(a)] && SameChans(s, u)
      else u == s.(ases := s.ases[i := Moved(s, i, a.pending)])
  {
    hide Transition, Linked, Legal, Alternates, Playing, Calls, MayDisconnect, Open;
    ReachableInv(s);
    assert AseInv(s.ases[i]);
    if !noMem {
      var t := SetAse(s, i, s.ases[i].(work := NotQueued));
      SameLinksKeep(s, t);
      LegalWithoutWork(s.ases[i]);
      TransitionIs(t, i);
      SameNeighbours(s, i);
      TransitionChans(t, i);
    }
  }

  lemma LegalWithoutWork(a: Ase)
    requires Legal(a)
    ensures Legal(a.(work := NotQueued))
  {}

  lemma SameNeighbours(s: State, i: nat)
    requires i < |s.ases|
    ensures
      var a, t := s.ases[i], SetAse(s, i, s.ases[i].(work := NotQueued));
      && (MayDisconnect(t, i) <==> MayDisconnect(s, i)) && (Open(t, i) <==> Open(s, i))
      && forall to :: Calls(t.ases[i], to) == Calls(a, to)
  {
    var t := SetAse(s, i, s.ases[i].(work := NotQueued));
    assert NobodyElse(t, i) <==> NobodyElse(s, i) by {
      forall j | 0 <= j < |s.ases| && j != i ensures t.ases[j] == s.ases[j] {}
    }
  }

  // ---- the link is gone ----

  lemma {:induction false} RoundsAre(s: State, n: nat, conn: nat, reason: nat)
    requires Inv(s) && n <= |s.ases|
    ensures
      var u := AclRounds(s, n, conn, reason);
      forall i :: 0 <= i < |s.ases| ==>
        u.ases[i] == if i < n && s.ases[i].conn == Some(conn) && s.ases[i].state != Idle
                     then Gone(s.ases[i].(reason := reason)) else s.ases[i]
  {
    hide AclDown, Inv, Gone;
    if n > 0 {
      RoundsAre(s, n - 1, conn, reason);
      AclRoundsKeep(s, n - 1, conn, reason);
      RoundIs(AclRounds(s, n - 1, conn, reason), n - 1, conn, reason);
    }
  }

  lemma RoundIs(s: State, i: nat, conn: nat, reason: nat)
    requires Inv(s) && i < |s.ases|
    ensures
      AclDown(s, i, conn, reason).ases
      == if s.ases[i].conn == Some(conn) && s.ases[i].state != Idle
         then s.ases[i := Gone(s.ases[i].(reason := reason))] else s.ases
  {
    hide Transition, Linked;
    var a := s.ases[i];
    if a.conn == Some(conn) && a.state != Idle {
      var t := SetAse(s, i, a.(reason := reason, pending := Idle));
      SameLinksKeep(s, t);
      IdleTransition(t, i);
    }
  }

  lemma IdleTransition(s: State, i: nat)
    requires Linked(s) && i < |s.ases| && s.ases[i].pending == Idle
    ensures Transition(s, i).ases == s.ases[i := Gone(s.ases[i])]
  {
    hide CanDisconnect, Commit, Linked, Calls, Free;
    var a := s.ases[i];
    var can := CanDisconnect(SetAse(s, i, a.(state := Idle)), i);
    CommitsIdle(a, ChanIs(s, a, Connected), can);
    BoundIs(s, i);
    FreedIs(s, i, Commit(a, ChanIs(s, a, Connected), can));
  }

  /** disconnected(): every endpoint of the link that is not idle is given back, with the
      reason of the link where it was streaming; no other endpoint notices. */
  lemma LinkDownEffect(s: State, conn: nat, reason: nat, i: nat)
    requires Reachable(s) && i < |s.ases|
    ensures
      var a, u := s.ases[i], Step(s, EAclDisconnected(conn, reason));
      && SameChans(s, u)
      && i < |u.ases| && u.ases[i] == if a.conn == Some(conn) && a.state != Idle then Gone(a.(reason := reason)) else a
  {
    ReachableInv(s);
    RoundsAre(s, |s.ases|, conn, reason);
    AclChans(s, |s.ases|, conn, reason);
  }

  // ---- what the client and the application ask for ----

  /** Endpoint `i` is the one a client of link `conn` means by `id`. */
  predicate Means(s: State, conn: nat, id: nat, i: nat) {
    1 <= id <= s.count && i < |s.ases| && s.ases[i].conn == Some(conn) && s.ases[i].id == id
  }

  lemma MeantIsFound(s: State, conn: nat, id: nat, i: nat)
    requires Linked(s) && i < |s.ases|
    ensures Means(s, conn, id, i) <==> ValidId(s, id) && FindAse(s.ases, conn, id, 0) == i
  {
    var j := FindAse(s.ases, conn, id, 0);
    if Means(s, conn, id, i) {
      assert Is(s.ases[i], conn, id);
      assert OneEach(s, j, i);
    }
  }

  predicate Flows(state: EpState) { state == Enabling || state == Streaming }

  predicate Configurable(state: EpState) { state == Idle || state == CodecConfigured || state == QosConfigured }

  /** The state an operation of the client asks endpoint `i` to take. */
  function OpWants(s: State, op: Op, i: nat): Option<EpState>
    requires i < |s.ases|
  {
    var a := s.ases[i];
    match op
    case OpEnable => if a.state == QosConfigured then Some(Enabling) else None
    case OpStart => if a.dir == Source && a.state == Enabling && Open(s, i) then Some(Streaming) else None
    case OpDisable => if !Flows(a.state) then None else Some(if a.dir == Source then Disabling else QosConfigured)
    case OpStop => if a.dir == Source && a.state == Disabling then Some(QosConfigured) else None
    case OpMetadata => if Flows(a.state) then Some(a.state) else None
    case OpRelease => if a.state == Idle || a.state == Releasing then None else Some(Releasing)
  }

  /** What an operation that is granted leaves behind: the reason for stopping, that the
      receiver is ready, and that the CIS is to be disconnected. */
  function Noted(s: State, op: Op, i: nat, reason: nat): Ase
    requires i < |s.ases|
  {
    var a := s.ases[i];
    match op
    case OpStart => a.(receiverReady := true)
    case OpStop => a.(disconnect := a.disconnect || MayDisconnect(s, i))
    case OpDisable => a.(reason := reason)
    case OpRelease => a.(reason := reason)
    case _ => a
  }

  /** What is granted. */
  function Granted(s: State, op: Op, i: nat, ok: bool): Ase
    requires i < |s.ases|
  {
    if ok && OpWants(s, op, i) != None then AskedFor(Noted(s, op, i, 0x13), OpWants(s, op, i)) else s.ases[i]
  }

  lemma StopIs(s: State, i: nat, ok: bool)
    requires Linked(s) && i < |s.ases|
    ensures Operate(s, OpStop, i, ok) == Granted(s, OpStop, i, ok)
  {
    hide Linked, CanDisconnect, MayDisconnect;
    LinkedDisconnects(s, i);
  }

  lemma ReleaseIs(s: State, i: nat, ok: bool)
    requires i < |s.ases| && AseInv(s.ases[i])
    ensures Operate(s, OpRelease, i, ok) == Granted(s, OpRelease, i, ok)
    ensures Operate(s, OpMetadata, i, ok) == Granted(s, OpMetadata, i, ok)
  {
    hide Alternates, Playing, Legal;
  }

  lemma OperateIs(s: State, op: Op, i: nat, ok: bool)
    requires Linked(s) && i < |s.ases| && AseInv(s.ases[i])
    ensures Operate(s, op, i, ok) == Granted(s, op, i, ok)
  {
    match op {
      case OpStop => StopIs(s, i, ok);
      case OpRelease => ReleaseIs(s, i, ok);
      case OpMetadata => ReleaseIs(s, i, ok);
      case OpEnable => EnableIs(s, i, ok);
      case OpStart => EnableIs(s, i, ok);
      case OpDisable => EnableIs(s, i, ok);
    }
  }

  lemma EnableIs(s: State, i: nat, ok: bool)
    requires i < |s.ases|
    ensures Operate(s, OpEnable, i, ok) == Granted(s, OpEnable, i, ok)
    ensures Operate(s, OpStart, i, ok) == Granted(s, OpStart, i, ok)
    ensures Operate(s, OpDisable, i, ok) == Granted(s, OpDisable, i, ok)
  {
    hide CanDisconnect, MayDisconnect;
  }

  /** Enable, Receiver Start Ready, Disable, Receiver Stop Ready, Update Metadata and Release
      do to the endpoint meant what the tables say, and nothing if none is meant, the
      application refuses, or the state does not admit them.  Receiver Stop Ready has the
      CIS disconnected exactly if nobody else needs it. */
  lemma OperateEffect(s: State, op: Op, conn: nat, id: nat, ok: bool)
    requires Reachable(s)
    ensures
      var u := Step(s, EOperate(op, conn, id, ok));
      && ((forall i: nat :: !Means(s, conn, id, i)) ==> u == s)
      && forall i: nat :: Means(s, conn, id, i) ==>
           u == s.(ases := s.ases[i := Granted(s, op, i, ok)])
  {
    hide Linked, AseInv, Operate, Granted;
    ReachableInv(s);
    var j := FindAse(s.ases, conn, id, 0);
    if j < |s.ases| { OperateIs(s, op, j, ok); assert s.ases[j := s.ases[j]] == s.ases; }
    forall i: nat | Means(s, conn, id, i) ensures ValidId(s, id) && j == i { MeantIsFound(s, conn, id, i); }
    if ValidId(s, id) && j < |s.ases| { assert Means(s, conn, id, j); }
  }

  /** What a call of the application asks of its endpoint. */
  function LocalWants(s: State, op: LocalOp, i: nat, ok: bool): Option<EpState>
    requires i < |s.ases|
  {
    var a := s.ases[i];
    match op
    case LocalReconfig => if ok && Configurable(a.state) then Some(CodecConfigured) else None
    case LocalMetadata => if ok && Flows(a.state) then Some(a.state) else None
    case LocalDisable =>
      if !ok || !Flows(a.state) then None else Some(if a.dir == Source then Disabling else QosConfigured)
    case LocalStart => if a.dir == Sink && a.state == Enabling && Open(s, i) then Some(Streaming) else None
  }

  /** The calls of the application do the same as the client's operations, with its own
      reason; a start of a sink that comes before its CIS is remembered. */
  lemma LocalCallEffect(s: State, op: LocalOp, i: nat, ok: bool)
    requires Reachable(s) && CanHappen(s, EOperateLocal(op, i, ok))
    ensures
      var a, wanted := s.ases[i], LocalWants(s, op, i, ok);
      var noted := if wanted != None && op == LocalDisable then a.(reason := 0x16)
                   else if op == LocalStart && a.dir == Sink && a.state == Enabling && !Open(s, i) then a.(receiverReady := true)
                   else a;
      Step(s, EOperateLocal(op, i, ok)) == s.(ases := s.ases[i := AskedFor(noted, wanted)])
  {
    hide Linked, Alternates, Playing;
    ReachableInv(s);
    assert AseInv(s.ases[i]);
  }

  /** bt_ascs_release_ase gives an idle endpoint back and asks any other to be released. */
  lemma LocalReleaseEffect(s: State, i: nat, ok: bool)
    requires Reachable(s) && CanHappen(s, EReleaseLocal(i, ok))
    ensures
      var a, u := s.ases[i], Step(s, EReleaseLocal(i, ok));
      if a.state == Idle then u.ases == s.ases[i := a.(conn := None, disconnect := false, work := NotQueued)] && u.isos == s.isos
      else u == s.(ases := s.ases[i := if ok && a.state != Releasing then AskedFor(a.(reason := 0x16), Some(Releasing)) else a])
  {
    hide Linked, Alternates, Playing;
    ReachableInv(s);
    assert AseInv(s.ases[i]);
    if s.ases[i].state == Idle {
      assert s.ases[i].iso == None;
      FreedIs(s, i, s.ases[i]);
      assert SetAse(s, i, s.ases[i]) == s;
    }
  }

  // ---- configuration ----

  /** The first slot of the pool no link holds. */
  predicate FirstFree(s: State, f: nat) {
    f < |s.ases| && s.ases[f].conn == None && forall j :: 0 <= j < f ==> s.ases[j].conn != None
  }

  /** A slot taken for `id`: ids up to the number of sinks are sinks. */
  function Fresh(s: State, f: nat, conn: nat, id: nat): Ase
    requires f < |s.ases|
  {
    UnusedAse.(conn := Some(conn), id := id, dir := if id <= s.sinks then Sink else Source,
               log := s.ases[f].log, rejected := s.ases[f].rejected)
  }

  function Configuring(a: Ase): Ase {
    AskedFor(a.(stream := true, streamIso := if a.stream then a.streamIso else None), Some(CodecConfigured))
  }

  lemma FoundFree(s: State, f: nat)
    ensures FirstFree(s, f) <==> f < |s.ases| && FreeSlot(s.ases, 0) == f
  {}

  /** Config Codec: an endpoint the client has is configured where its state allows it; for
      one it does not have the first free slot is taken, and given back if the
      configuration is refused. */
  lemma ConfigEffect(s: State, conn: nat, id: nat, ok: bool)
    requires Reachable(s)
    ensures
      var u := Step(s, EConfig(conn, id, ok));
      && (!(1 <= id <= s.count) ==> u == s)
      && (forall i: nat :: Means(s, conn, id, i) ==>
            u == if ok && Configurable(s.ases[i].state) then s.(ases := s.ases[i := Configuring(s.ases[i])]) else s)
      && ((1 <= id <= s.count && forall i: nat :: !Means(s, conn, id, i)) ==>
            && ((forall f: nat :: !FirstFree(s, f)) ==> u == s)
            && forall f: nat :: FirstFree(s, f) ==>
                 u == s.(ases := s.ases[f := if ok then Configuring(Fresh(s, f, conn, id))
                                             else Fresh(s, f, conn, id).(conn := None)]))
  {
    hide Linked, AseInv;
    ReachableInv(s);
    var j, f := FindAse(s.ases, conn, id, 0), FreeSlot(s.ases, 0);
    assert s.ases == s.ases[..];
    forall i: nat | Means(s, conn, id, i) ensures ValidId(s, id) && j == i { MeantIsFound(s, conn, id, i); }
    if j < |s.ases| { assert s.ases[j := s.ases[j]] == s.ases; assert ValidId(s, id) ==> Means(s, conn, id, j); }
    forall g: nat | FirstFree(s, g) ensures f == g { FoundFree(s, g); }
    if f < |s.ases| { assert FirstFree(s, f); NewIs(s, f, conn, id, ok); }
  }

  lemma NewIs(s: State, f: nat, conn: nat, id: nat, ok: bool)
    requires f < |s.ases|
    ensures
      var a := Fresh(s, f, conn, id);
      && Config(NewAse(s, s.ases[f], conn, id), ok) == (if ok then Configuring(a) else a)
      && Free(SetAse(s, f, a), f) == s.(ases := s.ases[f := a.(conn := None)])
  {}

  ghost predicate UsesId(s: State, conn: nat, id: nat) {
    exists i: nat :: Means(s, conn, id, i)
  }

  /** The first id the link does not use. */
  ghost predicate FirstUnused(s: State, conn: nat, id: nat) {
    1 <= id <= s.count && !UsesId(s, conn, id) && forall n :: 1 <= n < id ==> UsesId(s, conn, n)
  }

  lemma UsesIs(s: State, conn: nat, id: nat)
    requires Linked(s) && ValidId(s, id)
    ensures UsesId(s, conn, id) <==> FindAse(s.ases, conn, id, 0) < |s.ases|
  {
    var j := FindAse(s.ases, conn, id, 0);
    if j < |s.ases| { assert Means(s, conn, id, j); }
    forall i: nat | Means(s, conn, id, i) ensures i == j { MeantIsFound(s, conn, id, i); }
  }

  lemma UnusedIs(s: State, conn: nat, id: nat)
    requires Linked(s)
    ensures FirstUnused(s, conn, id) <==> id <= s.count && FreeId(s, conn, 1) == id
  {
    hide Linked;
    forall n | 1 <= n <= s.count ensures UsesId(s, conn, n) <==> FindAse(s.ases, conn, n, 0) < |s.ases| { UsesIs(s, conn, n); }
  }

  /** bt_ascs_config_ase: the first id the link does not use, in the first free slot, which
      stays taken even if the codec is refused. */
  lemma ConfigLocalEffect(s: State, conn: nat, ok: bool)
    requires Reachable(s)
    ensures
      var u := Step(s, EConfigLocal(conn, ok));
      && ((forall id: nat :: !FirstUnused(s, conn, id)) || (forall f: nat :: !FirstFree(s, f)) ==> u == s)
      && forall id: nat, f: nat :: FirstUnused(s, conn, id) && FirstFree(s, f) ==>
           u == s.(ases := s.ases[f := if ok then Configuring(Fresh(s, f, conn, id)) else Fresh(s, f, conn, id)])
  {
    hide Linked;
    ReachableInv(s);
    var n, g := FreeId(s, conn, 1), FreeSlot(s.ases, 0);
    if n <= s.count { UnusedIs(s, conn, n); }
    forall id: nat | FirstUnused(s, conn, id) ensures n == id { UnusedIs(s, conn, id); }
    forall f: nat | FirstFree(s, f) ensures g == f { FoundFree(s, f); }
    if g < |s.ases| { assert FirstFree(s, g); NewIs(s, g, conn, n, ok); }
  }

  // ---- the channel comes up, goes down, and is to be disconnected ----

  /** What a channel that comes up means for an endpoint bound to it. */
  function CameUp(a: Ase): Ase {
    if a.state != Enabling then a
    else AskedFor(a.(reason := 0, linkLoss := false, log := a.log + [IsoUp]),
               if a.dir == Sink && a.receiverReady then Some(Streaming) else None)
  }

  /** And one that is lost: streaming and disabling endpoints have lost their link, and go
      back to QoS Configured; releasing ones were waiting for it. */
  function WentDown(a: Ase, reason: nat): Ase {
    AskedFor(a.(reason := reason, disconnect := false, log := a.log + [IsoDown(reason)],
             linkLoss := a.linkLoss || a.state == Streaming || a.state == Disabling),
          if a.state == Releasing then Some(Idle)
          else if a.state == Streaming || a.state == Disabling then Some(QosConfigured) else None)
  }

  lemma SlotsReach(s: State, k: nat, chan: Chan, down: bool, reason: nat, i: nat)
    requires Linked(s) && k < |s.isos| && i < |s.ases|
    ensures
      var a := s.ases[i];
      var u := SetIso(s, k, s.isos[k].(chan := chan));
      var v := OnSlot(OnSlot(u, s.isos[k].rx, down, reason), s.isos[k].tx, down, reason);
      && |v.ases| == |s.ases| && v.isos == u.isos
      && v.ases[i] == if a.iso != Some(k) then a else if down then EpDisconnected(a, reason) else EpConnected(a)
  {
    assert IsoInv(s, k) && AseBound(s, i);
    hide EpConnected, EpDisconnected;
  }

  lemma EndpointsAre(a: Ase, reason: nat)
    requires AseInv(a) && a.iso != None
    ensures EpConnected(a) == CameUp(a) && EpDisconnected(a, reason) == WentDown(a, reason)
  {}

  /** A channel that is connected or lost reaches exactly the endpoints bound to it. */
  lemma ChannelEventEffect(s: State, e: Event, i: nat)
    requires Reachable(s) && CanHappen(s, e) && (e.EIsoConnected? || e.EIsoDisconnected?) && i < |s.ases|
    ensures
      var a, u := s.ases[i], Step(s, e);
      && i < |u.ases|
      && u.ases[i] == (if a.iso != Some(e.iso) then a else if e.EIsoConnected? then CameUp(a) else WentDown(a, e.reason))
      && u.isos == s.isos[e.iso := s.isos[e.iso].(chan := if e.EIsoConnected? then Connected else Disconnected)]
  {
    hide AseInv, Linked, OnSlot, EpConnected, EpDisconnected, CameUp, WentDown;
    ReachableInv(s);
    AseHolds(s, i);
    SlotsReach(s, e.iso, Connected, false, 0, i);
    if s.ases[i].iso != None { EndpointsAre(s.ases[i], if e.EIsoDisconnected? then e.reason else 0); }
    if e.EIsoDisconnected? { SlotsReach(s, e.iso, Disconnected, true, e.reason, i); }
  }

  lemma AseHolds(s: State, i: nat)
    requires Inv(s) && i < |s.ases|
    ensures AseInv(s.ases[i])
  {}

  /** The disconnect work takes the channel of its endpoint down if it is up; it is done
      then, whether or not the link took the request. */
  lemma DisconnectWorkEffect(s: State, i: nat, ok: bool)
    requires Reachable(s) && CanHappen(s, EDisconnectWork(i, ok))
    ensures
      var a, u := s.ases[i], Step(s, EDisconnectWork(i, ok));
      && u.ases == s.ases[i := a.(disconnect := false)]
      && u.isos == if ok && Up(s, i) then s.isos[a.iso.value := s.isos[a.iso.value].(chan := Disconnecting)] else s.isos
  {}

  /** A request of the link for a CIS takes the channel of the first endpoint of the link
      that names it, and no endpoint changes. */
  lemma AcceptEffect(s: State, conn: nat, cig: nat, cis: nat, encrypt: bool)
    requires Reachable(s)
    ensures
      var u := Step(s, EIsoAccept(conn, cig, cis, encrypt));
      && u.ases == s.ases
      && ((forall i: nat :: !FirstNamed(s, conn, cig, cis, i)) ==> u == s)
      && forall i: nat :: FirstNamed(s, conn, cig, cis, i) ==>
           var a := s.ases[i];
           if (a.state == Enabling || a.state == QosConfigured) && Down(s, i)
           then u.isos == s.isos[a.iso.value := s.isos[a.iso.value].(chan := if encrypt then EncryptPending else Connecting)]
           else u == s
  {
    var j := FindCis(s.ases, conn, cig, cis, 0);
    if j < |s.ases| { assert FirstNamed(s, conn, cig, cis, j); }
    forall i: nat | FirstNamed(s, conn, cig, cis, i) ensures i == j {}
  }

  predicate Down(s: State, i: nat)
    requires i < |s.ases|
  {
    var k := s.ases[i].iso;
    k != None && k.value < |s.isos| && s.isos[k.value].chan == Disconnected
  }

  predicate Names(a: Ase, conn: nat, cig: nat, cis: nat) { a.conn == Some(conn) && a.cig == cig && a.cis == cis }

  predicate FirstNamed(s: State, conn: nat, cig: nat, cis: nat, i: nat) {
    i < |s.ases| && Names(s.ases[i], conn, cig, cis) && forall j :: 0 <= j < i ==> !Names(s.ases[j], conn, cig, cis)
  }

  // ---- QoS ----

  /** The endpoint is bound already, and to the CIS asked for. */
  predicate HasIt(a: Ase, cig: nat, cis: nat) { a.iso != None && a.cig == cig && a.cis == cis }

  /** Another endpoint of the link has channel `k` for this CIS. */
  predicate CarriedBy(s: State, i: nat, cig: nat, cis: nat, k: nat, j: nat)
    requires i < |s.ases|
  {
    && j < |s.ases| && j != i && s.ases[j].iso == Some(k)
    && s.ases[j].conn == s.ases[i].conn && s.ases[j].cig == cig && s.ases[j].cis == cis
  }

  ghost predicate Carried(s: State, i: nat, cig: nat, cis: nat, k: nat)
    requires i < |s.ases|
  {
    exists j: nat :: CarriedBy(s, i, cig, cis, k, j)
  }

  /** Nobody but endpoint `i` has channel `k`. */
  predicate OnlyHis(s: State, i: nat, k: nat) {
    k < |s.isos| && forall j :: 0 <= j < |s.ases| && j != i ==> s.ases[j].iso != Some(k)
  }

  predicate DirectionFree(s: State, i: nat, k: nat)
    requires i < |s.ases|
  {
    forall j :: 0 <= j < |s.ases| && j != i && s.ases[j].iso == Some(k) ==> s.ases[j].dir != s.ases[i].dir
  }

  /** Channel `k` is what endpoint `i` has after it asked for the CIS: the channel it has for
      it, else the one that carries it in the other direction, else, if none carries it, the
      first nobody else uses. */
  ghost predicate Gets(s: State, i: nat, cig: nat, cis: nat, k: nat)
    requires i < |s.ases|
  {
    if HasIt(s.ases[i], cig, cis) then s.ases[i].iso == Some(k)
    else if exists n: nat :: Carried(s, i, cig, cis, n) then Carried(s, i, cig, cis, k) && DirectionFree(s, i, k)
    else OnlyHis(s, i, k) && forall n :: 0 <= n < k ==> !OnlyHis(s, i, n)
  }

  predicate QosAsked(a: Ase, ok: bool) { (a.state == CodecConfigured || a.state == QosConfigured) && a.stream && ok }

  /** A state in which endpoint `i` is unbound unless it has the CIS already. */
  ghost predicate Unbound(s: State, v: State, i: nat, cig: nat, cis: nat)
    requires i < |s.ases|
  {
    && Linked(v) && |v.ases| == |s.ases| && |v.isos| == |s.isos|
    && (forall j :: 0 <= j < |s.ases| && j != i ==> v.ases[j] == s.ases[j])
    && (forall k :: 0 <= k < |s.isos| ==> v.isos[k].chan == s.isos[k].chan)
    && var a := s.ases[i];
       v.ases[i] == if a.iso == None || HasIt(a, cig, cis) then a else a.(iso := None, streamIso := None)
  }

  lemma UnbindsFirst(s: State, i: nat, cig: nat, cis: nat)
    requires Linked(s) && i < |s.ases|
    ensures Unbound(s, QosUnbound(s, i, cig, cis), i, cig, cis)
    ensures QosUnbound(s, i, cig, cis) == s || s.ases[i].iso != None
  {
    UnbindLinks(s, i);
    hide Linked;
    SameLinksKeep(Unbind(s, i), Cleared(s, i));
  }

  ghost function Cleared(s: State, i: nat): State
    requires i < |s.ases|
  {
    SetAse(Unbind(s, i), i, Unbind(s, i).ases[i].(streamIso := None))
  }

  lemma CarriesIsCarried(s: State, v: State, i: nat, cig: nat, cis: nat, k: nat)
    requires i < |s.ases| && Unbound(s, v, i, cig, cis) && v.ases[i].iso == None && k < |s.isos|
    ensures Carries(v, v.isos[k], s.ases[i].conn, cig, cis) <==> Carried(s, i, cig, cis, k)
    ensures v.isos[k].ref == 0 <==> OnlyHis(s, i, k)
    ensures Slot(v.isos[k], s.ases[i].dir) == None <==> DirectionFree(s, i, k)
  {
    assert IsoInv(v, k);
    var iso := v.isos[k];
    forall j | 0 <= j < |s.ases| && j != i && s.ases[j].iso == Some(k) ensures iso.ref != 0 && Slot(iso, s.ases[j].dir) == Some(j) {
      assert AseBound(v, j);
    }
    if Carries(v, iso, s.ases[i].conn, cig, cis) {
      var ep := if iso.rx != None then iso.rx else iso.tx;
      assert CarriedBy(s, i, cig, cis, k, ep.value);
    }
    if Carried(s, i, cig, cis, k) {
      var j: nat :| CarriedBy(s, i, cig, cis, k, j);
      BoundCarries(v, j);
    }
  }

  lemma CarrierIsOne(s: State, v: State, i: nat, cig: nat, cis: nat, k: nat, n: nat)
    requires i < |s.ases| && Unbound(s, v, i, cig, cis) && Carried(s, i, cig, cis, k) && Carried(s, i, cig, cis, n)
    ensures k == n && k < |s.isos|
  {
    var j: nat :| CarriedBy(s, i, cig, cis, k, j);
    var m: nat :| CarriedBy(s, i, cig, cis, n, m);
    assert Shares(v, j, m) && AseBound(v, j);
  }

  lemma GetsCarried(s: State, v: State, i: nat, cig: nat, cis: nat, n: nat)
    requires i < |s.ases| && Unbound(s, v, i, cig, cis) && v.ases[i].iso == None && v.ases[i] == s.ases[i].(iso := None, streamIso := v.ases[i].streamIso)
    requires Carried(s, i, cig, cis, n)
    ensures IsoFor(v, s.ases[i].conn, cig, cis).1 == Some(n) && n < |s.isos| && v.isos[n].ref != 0
    ensures QosBinds(v, i, cig, cis) <==> DirectionFree(s, i, n)
    ensures forall m: nat :: Gets(s, i, cig, cis, m) <==> m == n && DirectionFree(s, i, n)
  {
    hide Linked, Carries, Carried, OnlyHis, DirectionFree;
    CarrierIsOne(s, v, i, cig, cis, n, n);
    CarriesIsCarried(s, v, i, cig, cis, n);
    var k := FindIso(v, s.ases[i].conn, cig, cis, 0);
    CarriesIsCarried(s, v, i, cig, cis, k);
    CarrierIsOne(s, v, i, cig, cis, n, k);
    assert v.isos[n].ref != 0 by { IsInUse(v, v.isos[n], s.ases[i].conn, cig, cis); }
    forall m: nat | Carried(s, i, cig, cis, m) ensures m == n { CarrierIsOne(s, v, i, cig, cis, n, m); }
  }

  lemma IsInUse(s: State, iso: Iso, conn: Option<nat>, cig: nat, cis: nat)
    requires Carries(s, iso, conn, cig, cis)
    ensures iso.ref != 0
  {}

  lemma GetsNew(s: State, v: State, i: nat, cig: nat, cis: nat)
    requires i < |s.ases| && Unbound(s, v, i, cig, cis) && v.ases[i].iso == None && v.ases[i] == s.ases[i].(iso := None, streamIso := v.ases[i].streamIso)
    requires forall n: nat :: !Carried(s, i, cig, cis, n)
    ensures
      var k := IsoFor(v, s.ases[i].conn, cig, cis).1;
      && (QosBinds(v, i, cig, cis) <==> k != None) && (k != None ==> k.value < |s.isos| && v.isos[k.value].ref == 0)
      && forall m: nat :: Gets(s, i, cig, cis, m) <==> k == Some(m)
  {
    hide Linked, Carries, Carried, OnlyHis, DirectionFree;
    forall n | 0 <= n < |s.isos|
      ensures !Carries(v, v.isos[n], s.ases[i].conn, cig, cis) && (v.isos[n].ref == 0 <==> OnlyHis(s, i, n))
    { CarriesIsCarried(s, v, i, cig, cis, n); }
    forall m: nat | OnlyHis(s, i, m) ensures m < |s.isos| { InPool(s, i, m); }
  }

  lemma InPool(s: State, i: nat, k: nat)
    requires OnlyHis(s, i, k)
    ensures k < |s.isos|
  {}

  /** Channel `k` is taken anew and starts disconnected, the others are in the state they were. */
  predicate TakenAnew(s: State, u: State, k: nat) {
    |u.isos| == |s.isos|
    && forall n :: 0 <= n < |s.isos| ==> u.isos[n].chan == if n == k then Disconnected else s.isos[n].chan
  }

  /** The endpoint has channel `k` and waits to be QoS Configured. */
  ghost predicate Won(s: State, u: State, i: nat, cig: nat, cis: nat, k: nat)
    requires i < |s.ases|
  {
    var a := s.ases[i];
    && u.ases == s.ases[i := AskedFor(a.(cig := cig, cis := cis, iso := Some(k),
                                      streamIso := if HasIt(a, cig, cis) then a.streamIso else Some(k)),
                                   Some(QosConfigured))]
    && if HasIt(a, cig, cis) || Carried(s, i, cig, cis, k) then SameChans(s, u) else TakenAnew(s, u, k)
  }

  /** It has none, and waits for what it waited for before. */
  predicate Lost(s: State, u: State, i: nat)
    requires i < |s.ases|
  {
    var a := s.ases[i];
    u.ases == s.ases[i := a.(iso := None, streamIso := if a.iso == None then a.streamIso else None)] && SameChans(s, u)
  }

  /** What a QoS write that is admitted makes of endpoint `i`. */
  ghost predicate QosDone(s: State, u: State, i: nat, cig: nat, cis: nat)
    requires i < |s.ases|
  {
    && ((forall k: nat :: !Gets(s, i, cig, cis, k)) ==> Lost(s, u, i))
    && forall k: nat :: Gets(s, i, cig, cis, k) ==> Won(s, u, i, cig, cis, k)
  }

  lemma QosIs(s: State, i: nat, cig: nat, cis: nat)
    requires Inv(s) && i < |s.ases| && QosAsked(s.ases[i], true)
    ensures QosDone(s, Qos(s, i, cig, cis, true), i, cig, cis)
  {
    hide Inv, Linked, Carries, Carried, OnlyHis, DirectionFree, IsoFor, QosUnbound, QosBound, QosBinds;
    InvLinked(s);
    var v := QosUnbound(s, i, cig, cis);
    UnbindsFirst(s, i, cig, cis);
    if HasIt(s.ases[i], cig, cis) {
      KeepsIt(s, i, cig, cis);
    } else {
      QosBoundGets(v, i, cig, cis);
      BoundFrom(s, v, i, cig, cis);
    }
  }

  lemma InvLinked(s: State)
    requires Inv(s)
    ensures Linked(s)
  {}

  lemma KeepsIt(s: State, i: nat, cig: nat, cis: nat)
    requires i < |s.ases| && HasIt(s.ases[i], cig, cis) && QosAsked(s.ases[i], true)
    ensures QosDone(s, Qos(s, i, cig, cis, true), i, cig, cis)
  {
    var a := s.ases[i];
    assert Gets(s, i, cig, cis, a.iso.value);
    assert Qos(s, i, cig, cis, true) == SetAse(s, i, Request(a.(cig := cig, cis := cis), QosConfigured));
  }

  /** The state after ase_qos went on from `v`, as QosBoundGets tells it. */
  ghost predicate BoundOn(v: State, i: nat, cig: nat, cis: nat)
    requires i < |v.ases|
  {
    var b := QosBound(v, i, cig, cis);
    if !QosBinds(v, i, cig, cis) then b == v
    else
      var k := IsoFor(v, v.ases[i].conn, cig, cis).1;
      && k != None && k.value < |v.isos| && Slot(Base(v, k.value), v.ases[i].dir) == None
      && b == BoundState(v, i, k.value, v.ases[i].(iso := k, streamIso := k))
  }

  function Ended(v: State, i: nat, cig: nat, cis: nat): State
    requires i < |v.ases|
  {
    var b := QosBound(v, i, cig, cis);
    if QosBinds(v, i, cig, cis) then SetAse(b, i, Request(b.ases[i].(cig := cig, cis := cis), QosConfigured)) else b
  }

  lemma BoundFrom(s: State, v: State, i: nat, cig: nat, cis: nat)
    requires i < |s.ases| && Unbound(s, v, i, cig, cis) && !HasIt(s.ases[i], cig, cis) && QosAsked(s.ases[i], true)
    requires BoundOn(v, i, cig, cis)
    ensures QosDone(s, Ended(v, i, cig, cis), i, cig, cis)
  {
    hide Linked, Carries, Carried, OnlyHis, DirectionFree, IsoFor, QosBound, QosBinds, Gets, BoundOn, Ended, Won, Lost;
    if n: nat :| Carried(s, i, cig, cis, n) {
      GetsCarried(s, v, i, cig, cis, n);
      if QosBinds(v, i, cig, cis) { assert Gets(s, i, cig, cis, n); EndsWon(s, v, i, cig, cis, n); } else { EndsLost(s, v, i, cig, cis); }
    } else {
      GetsNew(s, v, i, cig, cis);
      var k := IsoFor(v, s.ases[i].conn, cig, cis).1;
      if QosBinds(v, i, cig, cis) { assert Gets(s, i, cig, cis, k.value); EndsWon(s, v, i, cig, cis, k.value); } else { EndsLost(s, v, i, cig, cis); }
    }
  }

  lemma EndsLost(s: State, v: State, i: nat, cig: nat, cis: nat)
    requires i < |s.ases| && Unbound(s, v, i, cig, cis) && !HasIt(s.ases[i], cig, cis)
    requires BoundOn(v, i, cig, cis) && !QosBinds(v, i, cig, cis)
    ensures Lost(s, Ended(v, i, cig, cis), i)
  {
    hide Linked, QosBound, QosBinds, IsoFor;
    assert v.ases == s.ases[i := v.ases[i]];
  }

  lemma EndsWon(s: State, v: State, i: nat, cig: nat, cis: nat, k: nat)
    requires i < |s.ases| && Unbound(s, v, i, cig, cis) && !HasIt(s.ases[i], cig, cis) && QosAsked(s.ases[i], true)
    requires BoundOn(v, i, cig, cis) && QosBinds(v, i, cig, cis)
    requires IsoFor(v, s.ases[i].conn, cig, cis).1 == Some(k) && k < |v.isos|
    requires v.isos[k].ref != 0 <==> Carried(s, i, cig, cis, k)
    ensures Won(s, Ended(v, i, cig, cis), i, cig, cis, k)
  {
    hide Linked, QosBound, QosBinds, IsoFor, Carried;
    assert v.ases == s.ases[i := v.ases[i]];
    var c := v.ases[i].(iso := Some(k), streamIso := Some(k), cig := cig, cis := cis);
    assert Request(c, QosConfigured) == AskedFor(c, Some(QosConfigured));
  }

  /** Config QoS: an endpoint that has the CIS asked for keeps its channel.  Any other lets go
      of the channel it has, and gets the one that carries the CIS for the link in the other
      direction, or the first unused one if none carries it; with neither it is left
      without a channel, and nothing is asked. */
  lemma QosWriteEffect(s: State, conn: nat, id: nat, cig: nat, cis: nat, ok: bool)
    requires Reachable(s)
    ensures
      var u := Step(s, EQos(conn, id, cig, cis, ok));
      && ((forall i: nat :: !Means(s, conn, id, i)) ==> u == s)
      && forall i: nat :: Means(s, conn, id, i) ==> if QosAsked(s.ases[i], ok) then QosDone(s, u, i, cig, cis) else u == s
  {
    hide Inv, Qos, QosDone;
    ReachableInv(s);
    InvLinked(s);
    var j := FindAse(s.ases, conn, id, 0);
    if ValidId(s, id) && j < |s.ases| {
      assert Means(s, conn, id, j);
      if QosAsked(s.ases[j], ok) { QosIs(s, j, cig, cis); } else { NotAsked(s, j, cig, cis, ok); }
    }
    forall i: nat | Means(s, conn, id, i) ensures ValidId(s, id) && j == i { MeantIsFound(s, conn, id, i); }
  }

  lemma NotAsked(s: State, i: nat, cig: nat, cis: nat, ok: bool)
    requires i < |s.ases| && !QosAsked(s.ases[i], ok)
    ensures Qos(s, i, cig, cis, ok) == s
  {}

  /** ase_qos finds a channel exactly if there is one for the endpoint to get. */
  lemma BindsExactly(s: State, i: nat, cig: nat, cis: nat)
    requires Inv(s) && i < |s.ases|
    ensures QosBinds(QosUnbound(s, i, cig, cis), i, cig, cis) <==> exists k: nat :: Gets(s, i, cig, cis, k)
  {
    hide Inv, Linked, Carries, Carried, OnlyHis, DirectionFree, IsoFor, QosUnbound, QosBinds, Gets;
    InvLinked(s);
    var v := QosUnbound(s, i, cig, cis);
    UnbindsFirst(s, i, cig, cis);
    if HasIt(s.ases[i], cig, cis) {
      HasItGets(s, i, cig, cis);
    } else if n: nat :| Carried(s, i, cig, cis, n) {
      GetsCarried(s, v, i, cig, cis, n);
      assert Gets(s, i, cig, cis, n) <==> DirectionFree(s, i, n);
    } else {
      GetsNew(s, v, i, cig, cis);
      var k := IsoFor(v, s.ases[i].conn, cig, cis).1;
      if k != None { assert Gets(s, i, cig, cis, k.value); }
    }
  }

  lemma HasItGets(s: State, i: nat, cig: nat, cis: nat)
    requires i < |s.ases| && HasIt(s.ases[i], cig, cis)
    ensures Gets(s, i, cig, cis, s.ases[i].iso.value) && QosBinds(QosUnbound(s, i, cig, cis), i, cig, cis)
  {}

  /** The write that costs an endpoint the channel it relies on: another CIS, whose channel is
      taken in the direction of the endpoint, or which has none while all are used. */
  lemma LosesExactly(s: State, e: Event)
    requires Reachable(s) && CanHappen(s, e)
    ensures
      LosesChannel(s, e) <==>
        e.EQos? && exists i: nat :: Means(s, e.conn, e.id, i) && QosAsked(s.ases[i], e.ok) && Needs(s.ases[i])
                                    && forall k: nat :: !Gets(s, i, e.cig, e.cis, k)
  {
    hide Inv, Gets, QosBinds, QosUnbound, Needs;
    ReachableInv(s);
    InvLinked(s);
    if e.EQos? {
      var j := FindAse(s.ases, e.conn, e.id, 0);
      if j < |s.ases| { MeantIsFound(s, e.conn, e.id, j); BindsExactly(s, j, e.cig, e.cis); }
      forall i: nat | Means(s, e.conn, e.id, i) ensures i == j && ValidId(s, e.id) { MeantIsFound(s, e.conn, e.id, i); }
    }
  }

  // ---- which transitions disconnect a CIS ----

  /** An endpoint that enters Releasing has its CIS disconnected if nobody else needs it, and
      exactly otherwise asks to be idle at once. */
  lemma ReleasingDisconnects(s: State, i: nat)
    requires Reachable(s) && CanHappen(s, EWork(i, false)) && s.ases[i].pending == Releasing
    ensures
      var a, u := s.ases[i], Step(s, EWork(i, false));
      && i < |u.ases| && u.ases[i].state == Releasing
      && (u.ases[i].disconnect <==> a.disconnect || MayDisconnect(s, i))
      && (u.ases[i].work == NotQueued <==> MayDisconnect(s, i))
      && (!MayDisconnect(s, i) ==> u.ases[i].pending == Idle)
  {
    hide MayDisconnect, CanHappen, Step;
    WorkIndex(s, i);
    WorkEffect(s, i, false);
  }

  lemma WorkIndex(s: State, i: nat)
    requires CanHappen(s, EWork(i, false))
    ensures i < |s.ases| && s.ases[i].work != NotQueued
  {}

  /** Receiver Stop Ready for a disabling source does the same. */
  lemma StopDisconnects(s: State, conn: nat, id: nat, i: nat)
    requires Reachable(s) && Means(s, conn, id, i) && s.ases[i].state == Disabling
    ensures
      var a, u := s.ases[i], Step(s, EOperate(OpStop, conn, id, true));
      && i < |u.ases| && u.ases[i].pending == QosConfigured && u.ases[i].work != NotQueued
      && (u.ases[i].disconnect <==> a.disconnect || MayDisconnect(s, i))
  {
    hide MayDisconnect, Step, AseInv, Linked;
    ReachableInv(s);
    AseHolds(s, i);
    DisablingSource(s.ases[i]);
    OperateEffect(s, OpStop, conn, id, true);
  }

  lemma DisablingSource(a: Ase)
    requires AseInv(a) && a.state == Disabling
    ensures a.dir == Source
  {}

  // ---- the table of transitions ----

  /** The transitions of the server, those of sinks and those of sources apart. */
  lemma TransitionTable(dir: Dir, linkLoss: bool, from: EpState, to: EpState)
    ensures
      Valid(dir, linkLoss, from, to) <==>
        || to == Idle
        || (from, to) in {(Idle, CodecConfigured), (CodecConfigured, CodecConfigured), (QosConfigured, CodecConfigured),
                          (Releasing, CodecConfigured), (CodecConfigured, QosConfigured), (QosConfigured, QosConfigured),
                          (QosConfigured, Enabling), (Enabling, Enabling), (Enabling, Streaming), (Streaming, Streaming),
                          (CodecConfigured, Releasing), (QosConfigured, Releasing), (Enabling, Releasing), (Streaming, Releasing)}
        || (dir == Source && (from, to) in {(Enabling, Disabling), (Streaming, Disabling), (Disabling, QosConfigured), (Disabling, Releasing)})
        || ((dir == Sink || linkLoss) && (from, to) in {(Enabling, QosConfigured), (Streaming, QosConfigured)})
  {
    match to {
      case Idle =>
      case CodecConfigured =>
      case QosConfigured =>
      case Enabling =>
      case Streaming =>
      case Disabling =>
      case Releasing =>
    }
  }
}
