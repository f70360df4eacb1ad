/** The audio stream endpoints of bluetooth/audio/ascs.c and the pool of isochronous
    channels of bluetooth/audio/bap_iso.c, one function per event.  AscsServer proves
    that the methods, which update the two arrays in place, compute these functions.

    The callbacks of the application return arbitrary results (`ok`) and do not call
    back in.  `log` and `rejected` record what happened; no step reads them. */
module AscsSpec {
  import opened Prelude

  datatype Dir = Sink | Source

  datatype EpState = Idle | CodecConfigured | QosConfigured | Enabling | Streaming | Disabling | Releasing

  /** state_transition_work: not busy, on the work queue, or delayed for a retry */
  datatype Work = NotQueued | Queued | Delayed

  datatype Chan = Disconnected | EncryptPending | Connecting | Connected | Disconnecting

  /** Calls of the stream operations of the application. */
  datatype Callback =
    | Configured | QosSet | Enabled | Started | MetadataUpdated | Disabled
    | Stopped(reason: nat) | Released | IsoUp | IsoDown(reason: nat)

  /** struct bt_ascs_ase with its struct bt_bap_ep.  `stream` tells whether a stream is
      attached, `streamIso` is that stream's `iso`, `disconnect` whether disconnect_work
      is pending. */
  datatype Ase = Ase(
    conn: Option<nat>, id: nat, dir: Dir, state: EpState, pending: EpState, work: Work,
    stream: bool, streamIso: Option<nat>, iso: Option<nat>, cig: nat, cis: nat,
    receiverReady: bool, linkLoss: bool, disconnect: bool, reason: nat,
    log: seq<Callback>, rejected: nat)

  /** struct bt_bap_iso; rx and tx are the endpoints bound to it. */
  datatype Iso = Iso(ref: nat, rx: Option<nat>, tx: Option<nat>, chan: Chan)

  /** ASE ids 1..count; those up to `sinks` are sinks. */
  datatype State = State(sinks: nat, count: nat, ases: seq<Ase>, isos: seq<Iso>)

  const SUCCESS := 0x00
  const REMOTE_USER_TERM_CONN := 0x13
  const LOCALHOST_TERM_CONN := 0x16
  const UNSPECIFIED := 0x1f

  // ---- requesting a transition (ascs_ep_set_state) ----

  predicate Valid(dir: Dir, linkLoss: bool, from: EpState, to: EpState) {
    match to
    case Idle => true
    case CodecConfigured => (from == Idle || from == CodecConfigured || from == QosConfigured || from == Releasing)
    case QosConfigured =>
      || (from == CodecConfigured || from == QosConfigured)
      || (from == Disabling && dir == Source)
      || ((from == Enabling || from == Streaming) && (dir == Sink || linkLoss))
    case Enabling => (from == QosConfigured || from == Enabling)
    case Streaming => (from == Enabling || from == Streaming)
    case Disabling => (from == Enabling || from == Streaming) && dir == Source
    case Releasing =>
      || (from == CodecConfigured || from == QosConfigured || from == Enabling || from == Streaming)
      || (from == Disabling && dir == Source)
  }

  /** bt_work_schedule does nothing to work that is already queued or delayed. */
  function Request(a: Ase, to: EpState): Ase {
    if Valid(a.dir, a.linkLoss, a.state, to)
    then a.(pending := to, work := if a.work == NotQueued then Queued else a.work)
    else a.(rejected := a.rejected + 1)
  }

  // ---- the pool of ISO channels ----

  function Slot(iso: Iso, dir: Dir): Option<nat> { if dir == Sink then iso.rx else iso.tx }

  function WithSlot(iso: Iso, dir: Dir, ep: Option<nat>): Iso {
    if dir == Sink then iso.(rx := ep) else iso.(tx := ep)
  }

  function SetAse(s: State, i: nat, a: Ase): State
    requires i < |s.ases|
  {
    s.(ases := s.ases[i := a])
  }

  function SetIso(s: State, k: nat, iso: Iso): State
    requires k < |s.isos|
  {
    s.(isos := s.isos[k := iso])
  }

  /** bt_bap_iso_unref; the source asserts that the count was positive. */
  function Unref(s: State, k: nat): State
    requires k < |s.isos|
  {
    SetIso(s, k, s.isos[k].(ref := if s.isos[k].ref == 0 then 0 else s.isos[k].ref - 1))
  }

  /** bt_bap_iso_unbind_ep */
  function Unbind(s: State, i: nat): State
    requires i < |s.ases|
  {
    var a := s.ases[i];
    if a.iso == None || a.iso.value >= |s.isos| then s else
    var k := a.iso.value;
    SetAse(Unref(SetIso(s, k, WithSlot(s.isos[k], a.dir, None)), k), i, a.(iso := None))
  }

  /** bt_bap_iso_bind_ep */
  function Bind(s: State, k: nat, i: nat): State
    requires i < |s.ases| && k < |s.isos|
  {
    var iso := WithSlot(s.isos[k], s.ases[i].dir, Some(i));
    SetAse(SetIso(s, k, iso.(ref := iso.ref + 1)), i, s.ases[i].(iso := Some(k)))
  }

  /** bap_iso_find_func; bt_bap_iso_foreach passes over channels without references. */
  predicate Carries(s: State, iso: Iso, conn: Option<nat>, cig: nat, cis: nat) {
    var ep := if iso.rx != None then iso.rx else iso.tx;
    && iso.ref > 0 && ep != None && ep.value < |s.ases|
    && s.ases[ep.value].conn == conn && s.ases[ep.value].cig == cig && s.ases[ep.value].cis == cis
  }

  function FindIso(s: State, conn: Option<nat>, cig: nat, cis: nat, from: nat): (k: nat)
    requires from <= |s.isos|
    ensures from <= k <= |s.isos|
    ensures k < |s.isos| ==> Carries(s, s.isos[k], conn, cig, cis)
    ensures forall j :: from <= j < k ==> !Carries(s, s.isos[j], conn, cig, cis)
    decreases |s.isos| - from
  {
    if from == |s.isos| || Carries(s, s.isos[from], conn, cig, cis) then from
    else FindIso(s, conn, cig, cis, from + 1)
  }

  function FreeIso(isos: seq<Iso>, from: nat): (k: nat)
    requires from <= |isos|
    ensures from <= k <= |isos|
    ensures k < |isos| ==> isos[k].ref == 0
    ensures forall j :: from <= j < k ==> isos[j].ref != 0
    decreases |isos| - from
  {
    if from == |isos| || isos[from].ref == 0 then from else FreeIso(isos, from + 1)
  }

  /** bap_iso_get_or_new: the channel, with a reference for the caller. */
  function IsoFor(s: State, conn: Option<nat>, cig: nat, cis: nat): (State, Option<nat>) {
    var k := FindIso(s, conn, cig, cis, 0);
    if k < |s.isos| then (SetIso(s, k, s.isos[k].(ref := s.isos[k].ref + 1)), Some(k)) else
    var f := FreeIso(s.isos, 0);
    if f < |s.isos| then (SetIso(s, f, Iso(1, None, None, Disconnected)), Some(f)) else (s, None)
  }

  /** The channel an ASE is bound to is in state `chan`. */
  predicate ChanIs(s: State, a: Ase, chan: Chan) {
    a.iso != None && a.iso.value < |s.isos| && s.isos[a.iso.value].chan == chan
  }

  predicate ChanUp(s: State, a: Ase) { ChanIs(s, a, Connected) || ChanIs(s, a, Connecting) }

  /** bt_bap_stream_can_disconnect on the stream of ASE `i` */
  predicate CanDisconnect(s: State, i: nat)
    requires i < |s.ases|
  {
    var a := s.ases[i];
    && a.stream && ChanUp(s, a)
    && var iso := s.isos[a.iso.value];
       var pair := if iso.rx == Some(i) then iso.tx else iso.rx;
       pair == None || (pair.value < |s.ases| && (s.ases[pair.value].state == QosConfigured || s.ases[pair.value].state == CodecConfigured))
  }

  // ---- allocation ----

  function DirOf(s: State, id: nat): Dir { if id > s.sinks then Source else Sink }

  predicate ValidId(s: State, id: nat) { 1 <= id <= s.count }

  predicate Is(a: Ase, conn: nat, id: nat) { a.conn == Some(conn) && a.id == id }

  function FindAse(ases: seq<Ase>, conn: nat, id: nat, from: nat): (i: nat)
    requires from <= |ases|
    ensures from <= i <= |ases|
    ensures i < |ases| ==> Is(ases[i], conn, id)
    ensures forall j :: from <= j < i ==> !Is(ases[j], conn, id)
    decreases |ases| - from
  {
    if from == |ases| || Is(ases[from], conn, id) then from else FindAse(ases, conn, id, from + 1)
  }

  function FreeSlot(ases: seq<Ase>, from: nat): (i: nat)
    requires from <= |ases|
    ensures from <= i <= |ases|
    ensures i < |ases| ==> ases[i].conn == None
    ensures forall j :: from <= j < i ==> ases[j].conn != None
    decreases |ases| - from
  {
    if from == |ases| || ases[from].conn == None then from else FreeSlot(ases, from + 1)
  }

  /** The first id the connection does not use, count + 1 if it uses all. */
  function FreeId(s: State, conn: nat, from: nat): (id: nat)
    requires 1 <= from <= s.count + 1
    ensures from <= id <= s.count + 1
    ensures id <= s.count ==> FindAse(s.ases, conn, id, 0) == |s.ases|
    ensures forall j :: from <= j < id ==> FindAse(s.ases, conn, j, 0) < |s.ases|
    decreases s.count + 1 - from
  {
    if from == s.count + 1 || FindAse(s.ases, conn, from, 0) == |s.ases| then from else FreeId(s, conn, from + 1)
  }

  /** ase_init */
  function NewAse(s: State, old': Ase, conn: nat, id: nat): Ase {
    Ase(Some(conn), id, DirOf(s, id), Idle, Idle, NotQueued, false, None, None, 0, 0,
        false, false, false, SUCCESS, old'.log, old'.rejected)
  }

  /** ase_free */
  function Free(s: State, i: nat): State
    requires i < |s.ases|
  {
    var u := Unbind(s, i);
    SetAse(u, i, u.ases[i].(conn := None, disconnect := false, work := NotQueued))
  }

  // ---- the transition work ----

  /** The callbacks of leaving a state. */
  function ExitLog(a: Ase, from: EpState, to: EpState): seq<Callback> {
    match from
    case Streaming =>
      (if to == QosConfigured then [Disabled] else [])
      + [Stopped(if a.reason == SUCCESS then UNSPECIFIED else a.reason)]
    case Enabling => if to == QosConfigured && a.dir == Sink then [Disabled] else []
    case _ => []
  }

  /** `a` already is in its new state, and the callbacks of leaving the old one are made. */
  function Enter(a: Ase, connected: bool, canDisconnect: bool): Ase {
    match a.state
    case Idle => a.(receiverReady := false, streamIso := None, stream := false, log := a.log + [Released])
    case CodecConfigured => a.(receiverReady := false, streamIso := None, log := a.log + [Configured])
    case QosConfigured => a.(receiverReady := false, log := a.log + [QosSet])
    case Enabling =>
      var b := a.(log := a.log + [Enabled]);
      if a.dir == Sink && a.receiverReady && connected then Request(b, Streaming) else b
    case Streaming => a.(log := a.log + [Started])
    case Disabling => a.(receiverReady := false, log := a.log + [Disabled])
    case Releasing =>
      var b := a.(receiverReady := false);
      if canDisconnect then b.(disconnect := true) else Request(b, Idle)
  }

  /** The state change has been notified: `a` moves to its pending state. */
  function Commit(a: Ase, connected: bool, canDisconnect: bool): Ase {
    var to := a.pending;
    if a.state == to && (to == Enabling || to == Streaming) then a.(log := a.log + [MetadataUpdated])
    else Enter(a.(state := to, log := a.log + ExitLog(a, a.state, to)), connected, canDisconnect)
  }

  /** state_transition_work_handler from the notification on, for ASE `i` */
  function Transition(s: State, i: nat): State
    requires i < |s.ases|
  {
    var a := s.ases[i];
    var moved := SetAse(s, i, a.(state := a.pending));
    var u := SetAse(s, i, Commit(a, ChanIs(s, a, Connected), CanDisconnect(moved, i)));
    if a.pending == Idle then Free(u, i) else u
  }

  /** The handler on the work queue.  `noMem`: the notification found no buffer, so the
      state is put back and the work delayed. */
  function RunWork(s: State, i: nat, noMem: bool): State
    requires i < |s.ases|
  {
    var a := s.ases[i];
    if a.conn != None && noMem then SetAse(s, i, a.(work := Delayed))
    else Transition(SetAse(s, i, a.(work := NotQueued)), i)
  }

  // ---- requests of the client ----

  /** ase_config, with the callback and the checks of the parameters as `ok` */
  function Config(a: Ase, ok: bool): Ase {
    if (a.state == Idle || a.state == CodecConfigured || a.state == QosConfigured) && ok
    then Request(a.(stream := true, streamIso := if a.stream then a.streamIso else None), CodecConfigured)
    else a
  }

  /** One ASE of ascs_config */
  function ConfigOp(s: State, conn: nat, id: nat, ok: bool): State {
    if !ValidId(s, id) then s else
    var i := FindAse(s.ases, conn, id, 0);
    if i < |s.ases| then SetAse(s, i, Config(s.ases[i], ok)) else
    var f := FreeSlot(s.ases, 0);
    if f == |s.ases| then s else
    var a := NewAse(s, s.ases[f], conn, id);
    var u := SetAse(s, f, Config(a, ok));
    if ok then u else Free(u, f)
  }

  /** bt_ascs_config_ase; `ok`: the codec is supported */
  function ConfigLocal(s: State, conn: nat, ok: bool): State {
    var id := FreeId(s, conn, 1);
    var f := FreeSlot(s.ases, 0);
    if id > s.count || f == |s.ases| then s else
    var a := NewAse(s, s.ases[f], conn, id);
    SetAse(s, f, if ok then Request(a.(stream := true), CodecConfigured) else a)
  }

  predicate QosAdmitted(a: Ase, ok: bool) { (a.state == CodecConfigured || a.state == QosConfigured) && a.stream && ok }

  /** The unbinding in ase_qos: the CIG or CIS changed. */
  function QosUnbound(s: State, i: nat, cig: nat, cis: nat): State
    requires i < |s.ases|
  {
    var a := s.ases[i];
    if a.iso != None && (a.cig != cig || a.cis != cis)
    then SetAse(Unbind(s, i), i, Unbind(s, i).ases[i].(streamIso := None))
    else s
  }

  /** ase_qos can bind ASE `i`, or finds it bound. */
  predicate QosBinds(s: State, i: nat, cig: nat, cis: nat)
    requires i < |s.ases|
  {
    var a := s.ases[i];
    a.iso != None
    || var (u, k) := IsoFor(s, a.conn, cig, cis);
       k != None && k.value < |u.isos| && Slot(u.isos[k.value], a.dir) == None
  }

  /** ase_qos from the point where ASE `i` has no channel yet */
  function QosBound(s: State, i: nat, cig: nat, cis: nat): State
    requires i < |s.ases|
  {
    var a := s.ases[i];
    if a.iso != None then s else
    var (u, k) := IsoFor(s, a.conn, cig, cis);
    if k == None then s
    else if Slot(u.isos[k.value], a.dir) != None then Unref(u, k.value)
    else
      var b := Unref(Bind(u, k.value, i), k.value);
      SetAse(b, i, b.ases[i].(streamIso := k))
  }

  /** ase_qos */
  function Qos(s: State, i: nat, cig: nat, cis: nat, ok: bool): State
    requires i < |s.ases|
  {
    if !QosAdmitted(s.ases[i], ok) then s else
    var u := QosUnbound(s, i, cig, cis);
    var b := QosBound(u, i, cig, cis);
    if QosBinds(u, i, cig, cis) then SetAse(b, i, Request(b.ases[i].(cig := cig, cis := cis), QosConfigured)) else b
  }

  /** ase_enable */
  function Enable(a: Ase, ok: bool): Ase {
    if a.state == QosConfigured && ok then Request(a, Enabling) else a
  }

  /** ase_start */
  function Start(a: Ase, connected: bool, ok: bool): Ase {
    if a.state == Enabling && connected && ok then Request(a.(receiverReady := true), Streaming) else a
  }

  /** ase_disable */
  function Disable(a: Ase, reason: nat, ok: bool): Ase {
    if (a.state == Enabling || a.state == Streaming) && ok
    then Request(a.(reason := reason), if a.dir == Source then Disabling else QosConfigured)
    else a
  }

  /** ase_stop */
  function Stop(a: Ase, canDisconnect: bool, ok: bool): Ase {
    if a.state == Disabling && ok
    then Request(if canDisconnect then a.(disconnect := true) else a, QosConfigured)
    else a
  }

  /** ase_metadata: the same state again, to have it notified */
  function Metadata(a: Ase, ok: bool): Ase {
    if (a.state == Enabling || a.state == Streaming) && ok then Request(a, a.state) else a
  }

  /** ase_release */
  function Release(a: Ase, reason: nat, ok: bool): Ase {
    if (a.state != Idle && a.state != Releasing) && ok then Request(a.(reason := reason), Releasing) else a
  }

  /** One ASE of a control point write other than Config and QoS. */
  function Operate(s: State, op: Op, i: nat, ok: bool): Ase
    requires i < |s.ases|
  {
    var a := s.ases[i];
    match op
    case OpEnable => Enable(a, ok)
    case OpStart => if a.dir == Sink then a else Start(a, ChanIs(s, a, Connected), ok)
    case OpDisable => Disable(a, REMOTE_USER_TERM_CONN, ok)
    case OpStop => if a.dir == Sink then a else Stop(a, CanDisconnect(s, i), ok)
    case OpMetadata => Metadata(a, ok)
    case OpRelease => Release(a, REMOTE_USER_TERM_CONN, ok)
  }

  datatype Op = OpEnable | OpStart | OpDisable | OpStop | OpMetadata | OpRelease

  // ---- calls of the local application ----

  /** The states in which bt_bap_stream_reconfig, _metadata, _disable and _start go on to
      the server. */
  predicate Admits(op: LocalOp, state: EpState) {
    match op
    case LocalReconfig => state == Idle || state == CodecConfigured || state == QosConfigured
    case LocalMetadata => state == Enabling || state == Streaming
    case LocalDisable => state == Enabling || state == Streaming
    case LocalStart => state == Enabling
  }

  /** These calls, and bt_bap_unicast_server_reconfig, _metadata, _disable and _start
      behind them, on the application's own ASE */
  function OperateLocal(s: State, op: LocalOp, i: nat, ok: bool): Ase
    requires i < |s.ases|
  {
    var a := s.ases[i];
    if !Admits(op, a.state) then a else
    match op
    case LocalReconfig => if ok then Request(a, CodecConfigured) else a
    case LocalMetadata => if ok then Request(a, a.state) else a
    case LocalDisable => Disable(a, LOCALHOST_TERM_CONN, ok)
    case LocalStart =>
      if a.dir != Sink then a
      else if ChanIs(s, a, Connected) then Request(a, Streaming)
      else a.(receiverReady := true)
  }

  datatype LocalOp = LocalReconfig | LocalMetadata | LocalDisable | LocalStart

  /** bt_ascs_release_ase, which bt_bap_stream_release calls on its ASE unless idle or
      releasing, and bt_ascs_cleanup on every ASE in use */
  function ReleaseLocal(s: State, i: nat, ok: bool): State
    requires i < |s.ases|
  {
    if s.ases[i].state == Idle then Free(s, i) else SetAse(s, i, Release(s.ases[i], LOCALHOST_TERM_CONN, ok))
  }

  // ---- events of the links ----

  predicate Awaits(a: Ase, conn: nat, cig: nat, cis: nat) { a.conn == Some(conn) && a.cig == cig && a.cis == cis }

  function FindCis(ases: seq<Ase>, conn: nat, cig: nat, cis: nat, from: nat): (i: nat)
    requires from <= |ases|
    ensures from <= i <= |ases|
    ensures i < |ases| ==> Awaits(ases[i], conn, cig, cis)
    ensures forall j :: from <= j < i ==> !Awaits(ases[j], conn, cig, cis)
    decreases |ases| - from
  {
    if from == |ases| || Awaits(ases[from], conn, cig, cis) then from else FindCis(ases, conn, cig, cis, from + 1)
  }

  /** ascs_iso_accept */
  function IsoAccept(s: State, conn: nat, cig: nat, cis: nat, encrypt: bool): State {
    var i := FindCis(s.ases, conn, cig, cis, 0);
    if i < |s.ases| && (s.ases[i].state == Enabling || s.ases[i].state == QosConfigured) && ChanIs(s, s.ases[i], Disconnected)
    then var k := s.ases[i].iso.value;
         SetIso(s, k, s.isos[k].(chan := if encrypt then EncryptPending else Connecting))
    else s
  }

  /** ascs_ep_iso_connected */
  function EpConnected(a: Ase): Ase {
    if a.state != Enabling || !a.stream then a else
    var b := a.(reason := SUCCESS, linkLoss := false, log := a.log + [IsoUp]);
    if b.dir == Sink && b.receiverReady then Request(b, Streaming) else b
  }

  /** ascs_ep_iso_disconnected */
  function EpDisconnected(a: Ase, reason: nat): Ase {
    if !a.stream then a else
    var b := a.(log := a.log + [IsoDown(reason)], disconnect := false, reason := reason);
    if b.state == Releasing then Request(b, Idle)
    else if (b.state == Streaming || b.state == Disabling) then Request(b.(linkLoss := true), QosConfigured)
    else b
  }

  /** On the endpoint in one direction of a channel. */
  function OnSlot(s: State, ep: Option<nat>, down: bool, reason: nat): State {
    if ep == None || ep.value >= |s.ases| then s
    else SetAse(s, ep.value, if down then EpDisconnected(s.ases[ep.value], reason) else EpConnected(s.ases[ep.value]))
  }

  function IsoConnected(s: State, k: nat): State
    requires k < |s.isos|
  {
    var u := SetIso(s, k, s.isos[k].(chan := Connected));
    OnSlot(OnSlot(u, s.isos[k].rx, false, 0), s.isos[k].tx, false, 0)
  }

  function IsoDisconnected(s: State, k: nat, reason: nat): State
    requires k < |s.isos|
  {
    var u := SetIso(s, k, s.isos[k].(chan := Disconnected));
    OnSlot(OnSlot(u, s.isos[k].rx, true, reason), s.isos[k].tx, true, reason)
  }

  /** One round of the loop of disconnected() */
  function AclDown(s: State, i: nat, conn: nat, reason: nat): State
    requires i < |s.ases|
  {
    var a := s.ases[i];
    if a.conn == Some(conn) && a.state != Idle
    then Transition(SetAse(s, i, a.(reason := reason, pending := Idle)), i)
    else s
  }

  /** The rounds before round `n` */
  function AclRounds(s: State, n: nat, conn: nat, reason: nat): (u: State)
    requires n <= |s.ases|
    ensures |u.ases| == |s.ases| && |u.isos| == |s.isos| && u.sinks == s.sinks && u.count == s.count
  {
    if n == 0 then s else AclDown(AclRounds(s, n - 1, conn, reason), n - 1, conn, reason)
  }

  /** ascs_disconnect_stream_work_handler.  The streams of a channel are bound by the
      unicast client only, so on the server there never is a paired stream. */
  function DisconnectWork(s: State, i: nat, ok: bool): State
    requires i < |s.ases|
  {
    var u := SetAse(s, i, s.ases[i].(disconnect := false));
    if ok && ChanUp(s, s.ases[i])
    then var k := s.ases[i].iso.value; SetIso(u, k, s.isos[k].(chan := Disconnecting))
    else u
  }

  // ---- the transition system ----

  datatype Event =
    | EConfig(conn: nat, id: nat, ok: bool)
    | EQos(conn: nat, id: nat, cig: nat, cis: nat, ok: bool)
    | EOperate(op: Op, conn: nat, id: nat, ok: bool)
    | EConfigLocal(conn: nat, ok: bool)
    | EOperateLocal(local: LocalOp, ase: nat, ok: bool)
    | EReleaseLocal(ase: nat, ok: bool)
    | EIsoAccept(conn: nat, cig: nat, cis: nat, encrypt: bool)
    | EIsoConnected(iso: nat)
    | EIsoDisconnected(iso: nat, reason: nat)
    | EAclDisconnected(conn: nat, reason: nat)
    | EWork(ase: nat, noMem: bool)
    | EDisconnectWork(ase: nat, ok: bool)

  /** The application calls with a stream that is attached to an ASE in use. */
  predicate Owned(s: State, i: nat) { i < |s.ases| && s.ases[i].conn != None && s.ases[i].stream }

  /** A channel can be abandoned while its CIS is up and taken again, cleared, so what the
      link then says of the old CIS can reach it in any state. */
  predicate CanHappen(s: State, e: Event) {
    match e
    case EOperateLocal(_, i, _) => Owned(s, i)
    case EReleaseLocal(i, _) => i < |s.ases| && s.ases[i].conn != None
    case EIsoConnected(k) => k < |s.isos|
    case EIsoDisconnected(k, _) => k < |s.isos|
    case EWork(i, _) => i < |s.ases| && s.ases[i].work != NotQueued
    case EDisconnectWork(i, _) => i < |s.ases| && s.ases[i].disconnect
    case _ => true
  }

  function Step(s: State, e: Event): State
    requires CanHappen(s, e)
  {
    match e
    case EConfig(conn, id, ok) => ConfigOp(s, conn, id, ok)
    case EQos(conn, id, cig, cis, ok) =>
      var i := FindAse(s.ases, conn, id, 0);
      if ValidId(s, id) && i < |s.ases| then Qos(s, i, cig, cis, ok) else s
    case EOperate(op, conn, id, ok) =>
      var i := FindAse(s.ases, conn, id, 0);
      if ValidId(s, id) && i < |s.ases| then SetAse(s, i, Operate(s, op, i, ok)) else s
    case EConfigLocal(conn, ok) => ConfigLocal(s, conn, ok)
    case EOperateLocal(op, i, ok) => SetAse(s, i, OperateLocal(s, op, i, ok))
    case EReleaseLocal(i, ok) => ReleaseLocal(s, i, ok)
    case EIsoAccept(conn, cig, cis, encrypt) => IsoAccept(s, conn, cig, cis, encrypt)
    case EIsoConnected(k) => IsoConnected(s, k)
    case EIsoDisconnected(k, reason) => IsoDisconnected(s, k, reason)
    case EAclDisconnected(conn, reason) => AclRounds(s, |s.ases|, conn, reason)
    case EWork(i, noMem) => RunWork(s, i, noMem)
    case EDisconnectWork(i, ok) => DisconnectWork(s, i, ok)
  }

  predicate Runs(s: State, es: seq<Event>)
    decreases |es|
  {
    es != [] ==> CanHappen(s, es[0]) && Runs(Step(s, es[0]), es[1..])
  }

  function Exec(s: State, es: seq<Event>): State
    requires Runs(s, es)
    decreases |es|
  {
    if es == [] then s else Exec(Step(s, es[0]), es[1..])
  }

  const UnusedAse := Ase(None, 0, Sink, Idle, Idle, NotQueued, false, None, None, 0, 0,
                         false, false, false, SUCCESS, [], 0)
  const UnusedIso := Iso(0, None, None, Disconnected)

  predicate Initial(s: State) {
    && (forall i :: 0 <= i < |s.ases| ==> s.ases[i] == UnusedAse)
    && (forall k :: 0 <= k < |s.isos| ==> s.isos[k] == UnusedIso)
  }
}
