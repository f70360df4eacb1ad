/** Requests answered with success, which wait for the work handler, and what becomes of
    them: ascs_ep_set_state parks one at a time, and tests it against the state the
    endpoint is in, not against the one it is about to take. */
module AscsRequestTheorems {
  import opened Prelude
  import opened AscsSpec
  import opened AscsInv
  import opened AscsKeeps
  import opened AscsSteps
  import opened AscsTheorems
  import opened AscsChannelTheorems
  import opened AscsEffectTheorems

  /** A change to state `to` was asked for and waits. */
  predicate Parked(a: Ase, to: EpState) { a.work != NotQueued && a.pending == to && a.state != to }

  /** The endpoint has not moved, and waits for something else now. */
  predicate Overwritten(a: Ase, b: Ase, to: EpState) { b.state == a.state && b.pending != to }

  // ---- what an event asks of an endpoint ----

  /** The state an event asks endpoint `i`, which is in use, to take. */
  ghost function Wants(s: State, e: Event, i: nat): Option<EpState>
    requires i < |s.ases|
  {
    var a := s.ases[i];
    match e
    case EConfig(conn, id, ok) => if ok && Means(s, conn, id, i) && Configurable(a.state) then Some(CodecConfigured) else None
    case EQos(conn, id, cig, cis, ok) =>
      if Means(s, conn, id, i) && QosAsked(a, ok) && exists k: nat :: Gets(s, i, cig, cis, k)
      then Some(QosConfigured) else None
    case EOperate(op, conn, id, ok) => if ok && Means(s, conn, id, i) then OpWants(s, op, i) else None
    case EOperateLocal(op, j, ok) => if j == i then LocalWants(s, op, i, ok) else None
    case EReleaseLocal(j, ok) => if j == i && ok then OpWants(s, OpRelease, i) else None
    case EIsoConnected(k) =>
      if a.iso == Some(k) && a.state == Enabling && a.dir == Sink && a.receiverReady then Some(Streaming) else None
    case EIsoDisconnected(k, _) =>
      if a.iso != Some(k) then None
      else if a.state == Releasing then Some(Idle)
      else if a.state == Streaming || a.state == Disabling then Some(QosConfigured)
      else None
    case EConfigLocal(_, _) => None
    case EIsoAccept(_, _, _, _) => None
    case EAclDisconnected(_, _) => None
    case EWork(_, _) => None
    case EDisconnectWork(_, _) => None
  }

  /** What was asked of endpoint `i` is done, or the endpoint is freed. */
  predicate Ends(s: State, e: Event, i: nat)
    requires i < |s.ases|
  {
    var a := s.ases[i];
    match e
    case EWork(j, noMem) => j == i && !noMem
    case EAclDisconnected(conn, _) => a.conn == Some(conn) && a.state != Idle
    case EReleaseLocal(j, _) => j == i && a.state == Idle
    case _ => false
  }

  /** The endpoint waits on, for what is wanted of it last. */
  predicate Follows(a: Ase, b: Ase, wanted: Option<EpState>) {
    b.work != NotQueued && b.state == a.state && b.pending == if wanted == None then a.pending else wanted.value
  }

  // ---- each event ----

  lemma ConfigFollows(s: State, conn: nat, id: nat, ok: bool, i: nat)
    requires Inv(s) && i < |s.ases| && s.ases[i].work != NotQueued
    ensures i < |ConfigOp(s, conn, id, ok).ases|
    ensures Follows(s.ases[i], ConfigOp(s, conn, id, ok).ases[i], Wants(s, EConfig(conn, id, ok), i))
  {
    assert AseInv(s.ases[i]);
    MeantIsFound(s, conn, id, i);
    var j, f := FindAse(s.ases, conn, id, 0), FreeSlot(s.ases, 0);
    if ValidId(s, id) && j == |s.ases| && f < |s.ases| {
      UnbindAse(SetAse(s, f, Config(NewAse(s, s.ases[f], conn, id), ok)), f);
    }
  }

  lemma ConfigLocalFollows(s: State, conn: nat, ok: bool, i: nat)
    requires Inv(s) && i < |s.ases| && s.ases[i].work != NotQueued
    ensures i < |ConfigLocal(s, conn, ok).ases| && Follows(s.ases[i], ConfigLocal(s, conn, ok).ases[i], None)
  {
    assert AseInv(s.ases[i]);
  }

  lemma QosFollows(s: State, j: nat, cig: nat, cis: nat, ok: bool, i: nat)
    requires Inv(s) && i < |s.ases| && j < |s.ases| && s.ases[i].work != NotQueued
    ensures i < |Qos(s, j, cig, cis, ok).ases|
    ensures
      var wanted := i == j && QosAsked(s.ases[i], ok) && exists k: nat :: Gets(s, i, cig, cis, k);
      Follows(s.ases[i], Qos(s, j, cig, cis, ok).ases[i], if wanted then Some(QosConfigured) else None)
  {
    hide Inv, QosBound, QosBinds, Unbind, Gets;
    QosUnboundKeeps(s, j, cig, cis);
    UnbindAse(s, j);
    QosBoundEffect(QosUnbound(s, j, cig, cis), j, cig, cis);
    BindsExactly(s, j, cig, cis);
  }

  lemma OperateFollows(s: State, op: Op, i: nat, ok: bool)
    requires Linked(s) && i < |s.ases| && AseInv(s.ases[i]) && s.ases[i].work != NotQueued
    ensures Follows(s.ases[i], Operate(s, op, i, ok), if ok then OpWants(s, op, i) else None)
  {
    hide Linked, AseInv, Operate, OpWants, MayDisconnect;
    OperateIs(s, op, i, ok);
  }

  lemma OperateLocalFollows(s: State, op: LocalOp, i: nat, ok: bool)
    requires i < |s.ases| && AseInv(s.ases[i]) && s.ases[i].work != NotQueued
    ensures Follows(s.ases[i], OperateLocal(s, op, i, ok), LocalWants(s, op, i, ok))
  {
    hide CanDisconnect, Alternates, Playing;
  }

  lemma ReleaseFollows(s: State, j: nat, ok: bool, i: nat)
    requires Inv(s) && i < |s.ases| && j < |s.ases| && s.ases[i].work != NotQueued && !(j == i && s.ases[i].state == Idle)
    ensures i < |ReleaseLocal(s, j, ok).ases|
    ensures Follows(s.ases[i], ReleaseLocal(s, j, ok).ases[i], Wants(s, EReleaseLocal(j, ok), i))
  {
    assert AseInv(s.ases[i]);
    UnbindAse(s, j);
  }

  lemma EpFollows(a: Ase, reason: nat)
    requires AseInv(a) && a.work != NotQueued
    ensures Follows(a, EpConnected(a), if a.state == Enabling && a.dir == Sink && a.receiverReady then Some(Streaming) else None)
    ensures
      Follows(a, EpDisconnected(a, reason),
              if a.state == Releasing then Some(Idle)
              else if a.state == Streaming || a.state == Disabling then Some(QosConfigured) else None)
  {
    hide Alternates, Playing;
  }

  lemma IsoFollows(s: State, k: nat, down: bool, reason: nat, i: nat)
    requires Inv(s) && k < |s.isos| && i < |s.ases| && s.ases[i].work != NotQueued
    ensures
      var u := if down then IsoDisconnected(s, k, reason) else IsoConnected(s, k);
      i < |u.ases| && Follows(s.ases[i], u.ases[i], Wants(s, if down then EIsoDisconnected(k, reason) else EIsoConnected(k), i))
  {
    SlotsReach(s, k, if down then Disconnected else Connected, down, if down then reason else 0, i);
    assert AseInv(s.ases[i]);
    EpFollows(s.ases[i], reason);
    hide Inv, OnSlot, EpConnected, EpDisconnected;
  }

  lemma WorkFollows(s: State, j: nat, noMem: bool, i: nat)
    requires Inv(s) && i < |s.ases| && j < |s.ases| && s.ases[j].work != NotQueued && s.ases[i].work != NotQueued
    requires !(j == i && !noMem)
    ensures i < |RunWork(s, j, noMem).ases| && Follows(s.ases[i], RunWork(s, j, noMem).ases[i], None)
  {
    assert AseInv(s.ases[i]) && AseInv(s.ases[j]);
    RunWorkEffect(s, j, noMem);
  }

  lemma AclFollows(s: State, conn: nat, reason: nat, i: nat)
    requires i < |s.ases| && s.ases[i].work != NotQueued && !(s.ases[i].conn == Some(conn) && s.ases[i].state != Idle)
    ensures Follows(s.ases[i], AclRounds(s, |s.ases|, conn, reason).ases[i], None)
  {
    AclRoundsEffect(s, |s.ases|, conn, reason);
  }

  /** Whatever event, until what was asked of an endpoint is done or the endpoint is freed,
      it waits for what was asked of it last. */
  lemma LastWins(s: State, e: Event, i: nat)
    requires Reachable(s) && CanHappen(s, e) && i < |s.ases| && s.ases[i].work != NotQueued && !Ends(s, e, i)
    ensures i < |Step(s, e).ases| && Follows(s.ases[i], Step(s, e).ases[i], Wants(s, e, i))
  {
    ReachableInv(s);
    EventFollows(s, e, i);
  }

  lemma EventFollows(s: State, e: Event, i: nat)
    requires Inv(s) && CanHappen(s, e) && i < |s.ases| && s.ases[i].work != NotQueued && !Ends(s, e, i)
    ensures i < |Step(s, e).ases| && Follows(s.ases[i], Step(s, e).ases[i], Wants(s, e, i))
  {
    assert AseInv(s.ases[i]);
    InvLinked(s);
    hide Inv, Linked, AseInv, ConfigOp, Qos, Operate, ConfigLocal, OperateLocal, ReleaseLocal, IsoConnected, IsoDisconnected,
         AclRounds, RunWork, OpWants, LocalWants, QosAdmitted, QosBinds, QosUnbound;
    match e {
      case EConfig(conn, id, ok) => ConfigFollows(s, conn, id, ok, i);
      case EQos(conn, id, cig, cis, ok) =>
        var j := FindAse(s.ases, conn, id, 0);
        MeantIsFound(s, conn, id, i);
        if ValidId(s, id) && j < |s.ases| { QosFollows(s, j, cig, cis, ok, i); }
      case EOperate(op, conn, id, ok) => MeantIsFound(s, conn, id, i); OperateFollows(s, op, i, ok);
      case EConfigLocal(conn, ok) => ConfigLocalFollows(s, conn, ok, i);
      case EOperateLocal(op, j, ok) => if j == i { OperateLocalFollows(s, op, i, ok); }
      case EReleaseLocal(j, ok) => ReleaseFollows(s, j, ok, i);
      case EIsoAccept(conn, cig, cis, encrypt) =>
      case EIsoConnected(k) => IsoFollows(s, k, false, 0, i);
      case EIsoDisconnected(k, reason) => IsoFollows(s, k, true, reason, i);
      case EAclDisconnected(conn, reason) => AclFollows(s, conn, reason, i);
      case EWork(j, noMem) => WorkFollows(s, j, noMem, i);
      case EDisconnectWork(j, ok) =>
    }
  }

  // ---- requests that are lost ----

  /** A request answered with success, be it a release, a disable or any other, is
      overwritten before it is done exactly by an event that asks the endpoint for another
      state; nothing is kept of it. */
  lemma OverwrittenExactly(s: State, e: Event, i: nat, to: EpState)
    requires Reachable(s) && CanHappen(s, e) && i < |s.ases| && Parked(s.ases[i], to)
    ensures i < |Step(s, e).ases|
    ensures Overwritten(s.ases[i], Step(s, e).ases[i], to) <==> Wants(s, e, i) != None && Wants(s, e, i) != Some(to)
  {
    ReachableInv(s);
    if Ends(s, e, i) { EndMoves(s, e, i); } else { EventFollows(s, e, i); }
  }

  /** The end of a request takes the endpoint to the state asked for, or frees it. */
  lemma EndMoves(s: State, e: Event, i: nat)
    requires Inv(s) && CanHappen(s, e) && i < |s.ases| && s.ases[i].work != NotQueued && Ends(s, e, i)
    ensures i < |Step(s, e).ases| && Wants(s, e, i) == None
    ensures
      var a, b := s.ases[i], Step(s, e).ases[i];
      if e.EWork? then b.state == a.pending
      else b.state == Idle && b.conn == None && (a.state == Idle ==> b.pending == a.pending)
  {
    match e {
      case EWork(j, noMem) => assert AseInv(s.ases[j]); RunWorkEffect(s, j, noMem);
      case EAclDisconnected(conn, reason) => AclRoundsEffect(s, |s.ases|, conn, reason);
      case EReleaseLocal(j, ok) => UnbindAse(s, j);
      case _ =>
    }
  }

  /** No event of the run ends the request or asks the endpoint for another state. */
  ghost predicate Undisturbed(s: State, es: seq<Event>, i: nat, to: EpState)
    requires Runs(s, es)
    decreases |es|
  {
    es != [] ==>
      && i < |s.ases| && !Ends(s, es[0], i)
      && (Wants(s, es[0], i) == None || Wants(s, es[0], i) == Some(to))
      && Undisturbed(Step(s, es[0]), es[1..], i, to)
  }

  /** Over every such run the request lasts, through any number of failed notifications,
      and when the work handler finds memory it is what is done. */
  lemma {:induction false} RequestLasts(s: State, es: seq<Event>, i: nat, to: EpState)
    requires Inv(s) && Runs(s, es) && i < |s.ases| && Parked(s.ases[i], to) && Undisturbed(s, es, i, to)
    ensures var u := Exec(s, es);
            && i < |u.ases| && Parked(u.ases[i], to) && CanHappen(u, EWork(i, false))
            && i < |Step(u, EWork(i, false)).ases| && Step(u, EWork(i, false)).ases[i].state == to
    decreases |es|
  {
    if es == [] {
      EndMoves(s, EWork(i, false), i);
    } else {
      EventFollows(s, es[0], i);
      StepKeeps(s, es[0]);
      hide Inv, Step, CanHappen, Wants, Ends;
      RequestLasts(Step(s, es[0]), es[1..], i, to);
    }
  }

  // ---- runs that lose a release ----

  const Streaming7 := Started7.(state := Streaming, work := NotQueued,
                                log := [Configured, QosSet, Enabled, IsoUp, Started])
  const Releasing7 := Streaming7.(reason := REMOTE_USER_TERM_CONN, pending := Releasing, work := Queued)

  function Lost7(reason: nat): Ase {
    Releasing7.(reason := reason, linkLoss := true, pending := QosConfigured,
                log := [Configured, QosSet, Enabled, IsoUp, Started, IsoDown(reason)])
  }

  function Back7(reason: nat): Ase {
    Lost7(reason).(state := QosConfigured, work := NotQueued, receiverReady := false,
                   log := [Configured, QosSet, Enabled, IsoUp, Started, IsoDown(reason), Disabled,
                           Stopped(if reason == SUCCESS then UNSPECIFIED else reason), QosSet])
  }

  lemma SoloReleases()
    ensures Step(Solo(Started7, OneUser(Connected)), EWork(0, false)) == Solo(Streaming7, OneUser(Connected))
    ensures Step(Solo(Streaming7, OneUser(Connected)), EOperate(OpRelease, 7, 1, true)) == Solo(Releasing7, OneUser(Connected))
  {
    var up := OneUser(Connected);
    OneAse(Started7, Started7.(work := NotQueued), up, up);
    OneAse(Started7.(work := NotQueued), Streaming7, up, up);
    OneAse(Streaming7, Releasing7, up, up);
    assert Started7.log + [] == Started7.log;
    assert Commit(Started7.(work := NotQueued), true, true) == Streaming7;
    assert Commit(Started7.(work := NotQueued), true, false) == Streaming7;
  }

  lemma SoloLoses(reason: nat)
    ensures Step(Solo(Releasing7, OneUser(Connected)), EIsoDisconnected(0, reason)) == Solo(Lost7(reason), OneUser(Disconnected))
    ensures Step(Solo(Lost7(reason), OneUser(Disconnected)), EWork(0, false)) == Solo(Back7(reason), OneUser(Disconnected))
  {
    var up, down, a := OneUser(Connected), OneUser(Disconnected), Lost7(reason).(work := NotQueued);
    OneAse(Releasing7, Lost7(reason), up, down);
    OneAse(Releasing7, Lost7(reason), down, down);
    assert EpDisconnected(Releasing7, reason) == Lost7(reason);
    OneAse(Lost7(reason), a, down, down);
    OneAse(a, Back7(reason), down, down);
    BackCommits(reason);
  }

  lemma BackCommits(reason: nat)
    ensures Commit(Lost7(reason).(work := NotQueued), false, false) == Back7(reason)
  {
    var a := Lost7(reason).(work := NotQueued);
    var stop := Stopped(if reason == SUCCESS then UNSPECIFIED else reason);
    assert a.log + ([Disabled] + [stop]) + [QosSet] == Back7(reason).log;
  }

  /** A client releases a streaming endpoint and is answered with success.  The CIS goes
      down before the work handler runs, and the endpoint is QoS Configured again with
      nothing left to release it. */
  lemma ReleaseCanBeLost(reason: nat)
    ensures
      var s0 := Solo(UnusedAse, UnusedIso);
      var es := [EConfig(7, 1, true), EWork(0, false), EQos(7, 1, 0, 0, true), EWork(0, false),
                 EOperate(OpEnable, 7, 1, true), EWork(0, false), EIsoAccept(7, 0, 0, false), EIsoConnected(0),
                 EOperate(OpStart, 7, 1, true), EWork(0, false), EOperate(OpRelease, 7, 1, true),
                 EIsoDisconnected(0, reason), EWork(0, false)];
      && Initial(s0) && Runs(s0, es) && Exec(s0, es) == Solo(Back7(reason), OneUser(Disconnected))
      && Parked(Releasing7, Releasing) && Back7(reason).state == QosConfigured && Back7(reason).work == NotQueued
  {
    hide Step, Runs, Exec;
    SoloConfigured();
    SoloBound();
    SoloEnabled();
    SoloConnected(reason);
    SoloReleases();
    SoloLoses(reason);
    var up, down := OneUser(Connected), OneUser(Disconnected);
    var ss := [Solo(UnusedAse, UnusedIso), Solo(Asked, UnusedIso), Solo(Made, UnusedIso), Solo(Bound7, down),
               Solo(Set7, down), Solo(Set7.(pending := Enabling, work := Queued), down), Solo(Enabling7, down),
               Solo(Enabling7, OneUser(Connecting)), Solo(Connected7, up), Solo(Started7, up), Solo(Streaming7, up),
               Solo(Releasing7, up), Solo(Lost7(reason), down), Solo(Back7(reason), down)];
    Visits(ss, [EConfig(7, 1, true), EWork(0, false), EQos(7, 1, 0, 0, true), EWork(0, false),
                EOperate(OpEnable, 7, 1, true), EWork(0, false), EIsoAccept(7, 0, 0, false), EIsoConnected(0),
                EOperate(OpStart, 7, 1, true), EWork(0, false), EOperate(OpRelease, 7, 1, true),
                EIsoDisconnected(0, reason), EWork(0, false)]);
  }
}
