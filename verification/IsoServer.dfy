/** The ASCS server as one of the users of the pool of channels: the steps of IsoPool that
    each event of AscsSpec is made of, in the order of the code. */
module IsoServer {
  import opened Prelude
  import opened AscsSpec
  import opened AscsInv
  import AscsKeeps
  import AscsSteps
  import AscsTheorems
  import P = IsoPool

  // ---- the pool as the server sees it ----

  function Seen(iso: Iso): P.Iso { P.Iso(iso.ref, P.Half(iso.rx, None), P.Half(iso.tx, None)) }

  predicate Counted(s: State) { forall k :: 0 <= k < |s.isos| ==> s.isos[k].ref >= Users(s.isos[k]) }

  /** Its endpoints only, and no streams; the references it holds are those not bound. */
  function PoolOf(s: State): P.State
    requires Counted(s)
  {
    P.State(seq(|s.isos|, k requires 0 <= k < |s.isos| => Seen(s.isos[k])),
            seq(|s.ases|, i requires 0 <= i < |s.ases| => P.Ep(s.ases[i].dir, false, s.ases[i].iso)),
            [],
            seq(|s.isos|, k requires 0 <= k < |s.isos| => s.isos[k].ref - Users(s.isos[k])))
  }

  /** The steps `es` of the pool lead from `p` to `q`. */
  ghost predicate Takes(p: P.State, es: seq<P.Event>, q: P.State) {
    |p.held| == |p.isos| && P.Runs(p, es) && P.Exec(p, es) == q
  }

  /** The steps `ps` of the pool lead from what `s` makes of it to what `u` does. */
  ghost predicate Serves(s: State, ps: seq<P.Event>, u: State) {
    Counted(s) && Counted(u) && Takes(PoolOf(s), ps, PoolOf(u))
  }

  lemma {:induction false} TakesAll(p: P.State, es: seq<P.Event>, q: P.State, fs: seq<P.Event>, r: P.State)
    requires Takes(p, es, q) && Takes(q, fs, r)
    ensures Takes(p, es + fs, r)
    decreases |es|
  {
    if es == [] {
      assert es + fs == fs;
    } else {
      assert (es + fs)[1..] == es[1..] + fs;
      TakesAll(P.Step(p, es[0]), es[1..], q, fs, r);
    }
  }

  lemma ServesThen(s: State, ps: seq<P.Event>, t: State, qs: seq<P.Event>, u: State)
    requires Serves(s, ps, t) && Serves(t, qs, u)
    ensures Serves(s, ps + qs, u)
  {
    TakesAll(PoolOf(s), ps, PoolOf(t), qs, PoolOf(u));
  }

  lemma ServesOne(s: State, e: P.Event, u: State)
    requires Counted(s) && Counted(u) && P.CanHappen(PoolOf(s), e) && PoolOf(u) == P.Step(PoolOf(s), e)
    ensures Serves(s, [e], u)
  {
    assert [e][1..] == [];
  }

  /** The same counts and bindings. */
  predicate SameUse(s: State, u: State) {
    && |u.isos| == |s.isos| && (forall k :: 0 <= k < |s.isos| ==> Seen(u.isos[k]) == Seen(s.isos[k]))
    && |u.ases| == |s.ases|
    && forall i :: 0 <= i < |s.ases| ==> u.ases[i].dir == s.ases[i].dir && u.ases[i].iso == s.ases[i].iso
  }

  lemma SamePool(s: State, u: State)
    requires Counted(s) && SameUse(s, u)
    ensures Counted(u) && PoolOf(u) == PoolOf(s)
  {
    forall k | 0 <= k < |u.isos| ensures u.isos[k].ref >= Users(u.isos[k]) { assert Seen(u.isos[k]) == Seen(s.isos[k]); }
    assert forall k :: 0 <= k < |s.isos| ==> PoolOf(s).held[k] == PoolOf(u).held[k];
    assert PoolOf(s).isos == PoolOf(u).isos && PoolOf(s).eps == PoolOf(u).eps && PoolOf(s).held == PoolOf(u).held;
  }

  lemma SameUseServes(s: State, u: State)
    requires Counted(s) && SameUse(s, u)
    ensures Serves(s, [], u)
  {
    SamePool(s, u);
  }

  lemma ServesItself(s: State)
    requires Counted(s)
    ensures Serves(s, [], s)
  {
    SameUseServes(s, s);
  }

  /** What comes before or behind some steps without touching the pool. */
  lemma ServesBehind(s: State, t: State, ps: seq<P.Event>, u: State)
    requires Counted(s) && SameUse(s, t) && Serves(t, ps, u)
    ensures Serves(s, ps, u)
  {
    SamePool(s, t);
  }

  lemma ServesBefore(s: State, ps: seq<P.Event>, t: State, u: State)
    requires Serves(s, ps, t) && SameUse(t, u)
    ensures Serves(s, ps, u)
  {
    SamePool(t, u);
  }

  // ---- the operations on the pool ----

  lemma ServerBinds(s: State, k: nat, i: nat)
    requires Counted(s) && k < |s.isos| && i < |s.ases| && P.CanHappen(PoolOf(s), P.EBindEp(k, i))
    ensures Counted(Bind(s, k, i)) && PoolOf(Bind(s, k, i)) == P.Step(PoolOf(s), P.EBindEp(k, i))
  {}

  lemma ServerUnbinds(s: State, i: nat)
    requires Counted(s) && i < |s.ases| && s.ases[i].iso != None && AseBound(s, i)
    ensures P.CanHappen(PoolOf(s), P.EUnbindEp(i))
    ensures Counted(Unbind(s, i)) && PoolOf(Unbind(s, i)) == P.Step(PoolOf(s), P.EUnbindEp(i))
  {}

  lemma ServerUnrefs(s: State, k: nat)
    requires Counted(s) && k < |s.isos| && P.CanHappen(PoolOf(s), P.EUnref(k))
    ensures Counted(Unref(s, k)) && PoolOf(Unref(s, k)) == P.Step(PoolOf(s), P.EUnref(k))
  {}

  lemma {:induction false} SameFree(s: State, k: nat)
    requires Counted(s) && k <= |s.isos|
    ensures P.Free(PoolOf(s).isos, k) == FreeIso(s.isos, k)
    decreases |s.isos| - k
  {
    if k < |s.isos| { SameFree(s, k + 1); }
  }

  /** What bap_iso_find_func answers for each channel. */
  function Answers(s: State, conn: Option<nat>, cig: nat, cis: nat): seq<bool> {
    seq(|s.isos|, k requires 0 <= k < |s.isos| => Carries(s, s.isos[k], conn, cig, cis))
  }

  lemma {:induction false} SameFound(s: State, conn: Option<nat>, cig: nat, cis: nat, k: nat)
    requires Counted(s) && k <= |s.isos|
    ensures P.Found(PoolOf(s).isos, Answers(s, conn, cig, cis), k) == FindIso(s, conn, cig, cis, k)
    decreases |s.isos| - k
  {
    if k < |s.isos| { SameFound(s, conn, cig, cis, k + 1); }
  }

  lemma ServerTakes(s: State, k: nat)
    requires Counted(s) && k < |s.isos|
    ensures
      var u := SetIso(s, k, s.isos[k].(ref := s.isos[k].ref + 1));
      Counted(u) && PoolOf(u) == P.Take(PoolOf(s), k)
  {}

  lemma ServerAllocates(s: State, k: nat)
    requires Counted(s) && k < |s.isos| && k == P.Free(PoolOf(s).isos, 0)
    ensures
      var u := SetIso(s, k, Iso(1, None, None, Disconnected));
      Counted(u) && PoolOf(u) == P.Step(PoolOf(s), P.ENew)
  {}

  // ---- the steps of each event ----

  /** ase_free */
  function FreeTrace(s: State, i: nat): seq<P.Event>
    requires i < |s.ases|
  {
    if s.ases[i].iso == None then [] else [P.EUnbindEp(i)]
  }

  /** bap_iso_get_or_new: a search and, if that fails, an allocation */
  function GetTrace(s: State, conn: Option<nat>, cig: nat, cis: nat): seq<P.Event> {
    [P.EFind(Answers(s, conn, cig, cis))] + if FindIso(s, conn, cig, cis, 0) < |s.isos| then [] else [P.ENew]
  }

  /** ase_qos: the channel unbound if the CIG or CIS changed ... */
  function QosUnboundTrace(s: State, i: nat, cig: nat, cis: nat): seq<P.Event>
    requires i < |s.ases|
  {
    var a := s.ases[i];
    if a.iso != None && (a.cig != cig || a.cis != cis) then [P.EUnbindEp(i)] else []
  }

  /** ... and, without a channel, one found or made and either bound or found taken; the
      reference of the search is given back in both cases. */
  function QosBoundTrace(s: State, i: nat, cig: nat, cis: nat): seq<P.Event>
    requires i < |s.ases|
  {
    var a := s.ases[i];
    if a.iso != None then [] else
    var (u, k) := IsoFor(s, a.conn, cig, cis);
    GetTrace(s, a.conn, cig, cis)
    + if k == None then []
      else if Slot(u.isos[k.value], a.dir) != None then [P.EUnref(k.value)]
      else [P.EBindEp(k.value, i), P.EUnref(k.value)]
  }

  function QosTrace(s: State, i: nat, cig: nat, cis: nat, ok: bool): seq<P.Event>
    requires i < |s.ases|
  {
    if !QosAdmitted(s.ases[i], ok) then []
    else QosUnboundTrace(s, i, cig, cis) + QosBoundTrace(QosUnbound(s, i, cig, cis), i, cig, cis)
  }

  /** ase_new, where an endpoint is set up at all */
  function ConfigTrace(s: State, conn: nat, id: nat): seq<P.Event> {
    if ValidId(s, id) && FindAse(s.ases, conn, id, 0) == |s.ases| && FreeSlot(s.ases, 0) < |s.ases|
    then [P.EInitEp(FreeSlot(s.ases, 0), DirOf(s, id))]
    else []
  }

  function ConfigLocalTrace(s: State, conn: nat): seq<P.Event> {
    if FreeId(s, conn, 1) <= s.count && FreeSlot(s.ases, 0) < |s.ases|
    then [P.EInitEp(FreeSlot(s.ases, 0), DirOf(s, FreeId(s, conn, 1)))]
    else []
  }

  /** One round of disconnected() */
  function AclDownTrace(s: State, i: nat, conn: nat): seq<P.Event>
    requires i < |s.ases|
  {
    if s.ases[i].conn == Some(conn) && s.ases[i].state != Idle then FreeTrace(s, i) else []
  }

  function AclTrace(s: State, n: nat, conn: nat, reason: nat): seq<P.Event>
    requires n <= |s.ases|
  {
    if n == 0 then []
    else AclTrace(s, n - 1, conn, reason) + AclDownTrace(AclRounds(s, n - 1, conn, reason), n - 1, conn)
  }

  /** The handler of the transition work frees an endpoint that became idle. */
  function WorkTrace(s: State, i: nat, noMem: bool): seq<P.Event>
    requires i < |s.ases|
  {
    var a := s.ases[i];
    if (a.conn != None && noMem) || a.pending != Idle then [] else FreeTrace(s, i)
  }

  /** The steps of the pool an event of the server is made of. */
  function Trace(s: State, e: Event): seq<P.Event>
    requires CanHappen(s, e)
  {
    match e
    case EConfig(conn, id, _) => ConfigTrace(s, conn, id)
    case EQos(conn, id, cig, cis, ok) =>
      var i := FindAse(s.ases, conn, id, 0);
      if ValidId(s, id) && i < |s.ases| then QosTrace(s, i, cig, cis, ok) else []
    case EConfigLocal(conn, _) => ConfigLocalTrace(s, conn)
    case EReleaseLocal(i, _) => if s.ases[i].state == Idle then FreeTrace(s, i) else []
    case EAclDisconnected(conn, reason) => AclTrace(s, |s.ases|, conn, reason)
    case EWork(i, noMem) => WorkTrace(s, i, noMem)
    case EOperate(_, _, _, _) => []
    case EOperateLocal(_, _, _) => []
    case EIsoAccept(_, _, _, _) => []
    case EIsoConnected(_) => []
    case EIsoDisconnected(_, _) => []
    case EDisconnectWork(_, _) => []
  }

  function RunTrace(s: State, es: seq<Event>): seq<P.Event>
    requires Runs(s, es)
    decreases |es|
  {
    if es == [] then [] else Trace(s, es[0]) + RunTrace(Step(s, es[0]), es[1..])
  }

  // ---- what they make of the pool ----

  lemma InvCounted(s: State)
    requires Inv(s)
    ensures Counted(s)
  {
    forall k | 0 <= k < |s.isos| ensures s.isos[k].ref >= Users(s.isos[k]) { assert IsoInv(s, k); }
  }

  lemma InvBound(s: State, i: nat)
    requires Inv(s) && i < |s.ases|
    ensures Counted(s) && AseBound(s, i) && AseInv(s.ases[i])
  {
    InvCounted(s);
  }

  lemma ServesCounted(s: State, ps: seq<P.Event>, u: State)
    requires Serves(s, ps, u)
    ensures Counted(s) && Counted(u)
  {}

  lemma FreeServes(s: State, i: nat)
    requires Counted(s) && i < |s.ases| && AseBound(s, i)
    ensures Serves(s, FreeTrace(s, i), Free(s, i))
  {
    if s.ases[i].iso == None {
      SameUseServes(s, Free(s, i));
    } else {
      var u := Unbind(s, i);
      ServerUnbinds(s, i);
      ServesOne(s, P.EUnbindEp(i), u);
      ServesBefore(s, [P.EUnbindEp(i)], u, Free(s, i));
    }
  }

  lemma CommitStays(a: Ase, connected: bool, canDisconnect: bool)
    ensures Commit(a, connected, canDisconnect).dir == a.dir && Commit(a, connected, canDisconnect).iso == a.iso
  {
    hide ExitLog, Enter;
    EnterStays(a.(state := a.pending, log := a.log + ExitLog(a, a.state, a.pending)), connected, canDisconnect);
  }

  lemma EnterStays(a: Ase, connected: bool, canDisconnect: bool)
    ensures Enter(a, connected, canDisconnect).dir == a.dir && Enter(a, connected, canDisconnect).iso == a.iso
  {
    hide Valid;
  }

  lemma TransitionServes(s: State, i: nat)
    requires Counted(s) && i < |s.ases| && AseBound(s, i)
    ensures Serves(s, if s.ases[i].pending == Idle then FreeTrace(s, i) else [], Transition(s, i))
  {
    hide Commit, ChanIs, CanDisconnect, Serves;
    var a := s.ases[i];
    var connected, canDisconnect := ChanIs(s, a, Connected), CanDisconnect(SetAse(s, i, a.(state := a.pending)), i);
    CommitStays(a, connected, canDisconnect);
    var u := SetAse(s, i, Commit(a, connected, canDisconnect));
    SameUseServes(s, u);
    if a.pending == Idle {
      ServesCounted(s, [], u);
      FreeServes(u, i);
      ServesBehind(s, u, FreeTrace(s, i), Free(u, i));
    }
  }

  lemma SetServes(s: State, i: nat, a: Ase)
    requires Counted(s) && i < |s.ases| && a.dir == s.ases[i].dir && a.iso == s.ases[i].iso
    ensures Serves(s, [], SetAse(s, i, a)) && SameUse(s, SetAse(s, i, a)) && Counted(SetAse(s, i, a))
    ensures AseBound(s, i) ==> AseBound(SetAse(s, i, a), i)
  {
    SameUseServes(s, SetAse(s, i, a));
  }

  lemma RunWorkServes(s: State, i: nat, noMem: bool)
    requires Counted(s) && i < |s.ases| && AseBound(s, i)
    ensures Serves(s, WorkTrace(s, i, noMem), RunWork(s, i, noMem))
  {
    hide Transition, Serves;
    var a := s.ases[i];
    SetServes(s, i, a.(work := Delayed));
    if !(a.conn != None && noMem) {
      var t := SetAse(s, i, a.(work := NotQueued));
      SetServes(s, i, a.(work := NotQueued));
      TransitionServes(t, i);
      ServesBehind(s, t, WorkTrace(s, i, noMem), Transition(t, i));
    }
  }

  lemma AclDownServes(s: State, i: nat, conn: nat, reason: nat)
    requires Counted(s) && i < |s.ases| && AseBound(s, i)
    ensures Serves(s, AclDownTrace(s, i, conn), AclDown(s, i, conn, reason))
  {
    hide Transition, Serves;
    var a := s.ases[i];
    ServesItself(s);
    if a.conn == Some(conn) && a.state != Idle {
      var b := a.(reason := reason, pending := Idle);
      var t := SetAse(s, i, b);
      SetServes(s, i, b);
      TransitionServes(t, i);
      ServesBehind(s, t, FreeTrace(s, i), Transition(t, i));
    }
  }

  lemma AclLast(s: State, n: nat, conn: nat, reason: nat)
    requires n <= |s.ases|
    ensures
      if n == 0 then AclRounds(s, n, conn, reason) == s && AclTrace(s, n, conn, reason) == []
      else
        var t := AclRounds(s, n - 1, conn, reason);
        && AclRounds(s, n, conn, reason) == AclDown(t, n - 1, conn, reason)
        && AclTrace(s, n, conn, reason) == AclTrace(s, n - 1, conn, reason) + AclDownTrace(t, n - 1, conn)
  {}

  lemma {:induction false} AclServes(s: State, n: nat, conn: nat, reason: nat)
    requires Inv(s) && n <= |s.ases|
    ensures Serves(s, AclTrace(s, n, conn, reason), AclRounds(s, n, conn, reason))
  {
    hide *;
    AclLast(s, n, conn, reason);
    InvCounted(s);
    if n == 0 {
      ServesItself(s);
    } else {
      var t := AclRounds(s, n - 1, conn, reason);
      AclServes(s, n - 1, conn, reason);
      AscsSteps.AclRoundsKeep(s, n - 1, conn, reason);
      InvBound(t, n - 1);
      AclDownServes(t, n - 1, conn, reason);
      ServesThen(s, AclTrace(s, n - 1, conn, reason), t, AclDownTrace(t, n - 1, conn), AclDown(t, n - 1, conn, reason));
    }
  }

  /** A new endpoint is set up for the direction of its ID. */
  lemma NewServes(s: State, f: nat, a: Ase)
    requires Counted(s) && f < |s.ases| && s.ases[f].iso == None && a.iso == None
    ensures Serves(s, [P.EInitEp(f, a.dir)], SetAse(s, f, a)) && Counted(SetAse(s, f, a))
  {
    var u, e := SetAse(s, f, a), P.EInitEp(f, a.dir);
    assert PoolOf(u).eps == P.Step(PoolOf(s), e).eps;
    ServesOne(s, e, u);
  }

  /** An endpoint freed before it was ever bound */
  lemma FreeUnbound(s: State, f: nat)
    requires f < |s.ases| && s.ases[f].iso == None
    ensures SameUse(s, Free(s, f))
  {}

  lemma ConfigServes(s: State, conn: nat, id: nat, ok: bool)
    requires Inv(s)
    ensures Serves(s, ConfigTrace(s, conn, id), ConfigOp(s, conn, id, ok))
  {
    InvCounted(s);
    ServesItself(s);
    hide Serves;
    var i, f := FindAse(s.ases, conn, id, 0), FreeSlot(s.ases, 0);
    if ValidId(s, id) && i < |s.ases| {
      SetServes(s, i, Config(s.ases[i], ok));
    } else if ValidId(s, id) && f < |s.ases| {
      assert AseInv(s.ases[f]);
      var a := Config(NewAse(s, s.ases[f], conn, id), ok);
      var u := SetAse(s, f, a);
      NewServes(s, f, a);
      FreeUnbound(u, f);
      ServesBefore(s, ConfigTrace(s, conn, id), u, Free(u, f));
    }
  }

  lemma ConfigLocalServes(s: State, conn: nat, ok: bool)
    requires Inv(s)
    ensures Serves(s, ConfigLocalTrace(s, conn), ConfigLocal(s, conn, ok))
  {
    InvCounted(s);
    ServesItself(s);
    hide Serves;
    var id, f := FreeId(s, conn, 1), FreeSlot(s.ases, 0);
    if id <= s.count && f < |s.ases| {
      assert AseInv(s.ases[f]);
      var a := NewAse(s, s.ases[f], conn, id);
      NewServes(s, f, if ok then Request(a.(stream := true), CodecConfigured) else a);
    }
  }

  lemma QosUnboundServes(s: State, i: nat, cig: nat, cis: nat)
    requires Counted(s) && i < |s.ases| && AseBound(s, i)
    ensures Serves(s, QosUnboundTrace(s, i, cig, cis), QosUnbound(s, i, cig, cis))
  {
    ServesItself(s);
    hide Serves;
    var a := s.ases[i];
    if a.iso != None && (a.cig != cig || a.cis != cis) {
      var u := Unbind(s, i);
      ServerUnbinds(s, i);
      ServesOne(s, P.EUnbindEp(i), u);
      SetServes(u, i, u.ases[i].(streamIso := None));
      ServesBefore(s, [P.EUnbindEp(i)], u, QosUnbound(s, i, cig, cis));
    }
  }

  /** The channel found or made, with one reference more than it has endpoints. */
  lemma IsoForHolds(s: State, conn: Option<nat>, cig: nat, cis: nat)
    requires Inv(s)
    ensures
      var (u, k) := IsoFor(s, conn, cig, cis);
      && u.ases == s.ases && |u.isos| == |s.isos|
      && (k == None ==> u == s)
      && (k != None ==> k.value < |u.isos| && u.isos[k.value].ref == Users(u.isos[k.value]) + 1)
  {
    var k := FindIso(s, conn, cig, cis, 0);
    if k < |s.isos| { assert IsoInv(s, k); }
  }

  /** bap_iso_get_or_new: the search takes a reference to what it finds, or changes
      nothing, and the allocation then takes a free channel, or nothing if there is none. */
  lemma ServerGets(s: State, conn: Option<nat>, cig: nat, cis: nat)
    requires Counted(s)
    ensures Serves(s, GetTrace(s, conn, cig, cis), IsoFor(s, conn, cig, cis).0)
  {
    SameFound(s, conn, cig, cis, 0);
    SameFree(s, 0);
    var find := P.EFind(Answers(s, conn, cig, cis));
    var k, f, u := FindIso(s, conn, cig, cis, 0), FreeIso(s.isos, 0), IsoFor(s, conn, cig, cis).0;
    hide Seen, Users, Carries, Answers, Serves;
    if k < |s.isos| {
      ServerTakes(s, k);
      ServesOne(s, find, u);
      assert [find] + [] == [find];
    } else {
      ServesOne(s, find, s);
      if f < |s.isos| { ServerAllocates(s, f); }
      ServesOne(s, P.ENew, u);
      ServesThen(s, [find], s, [P.ENew], u);
    }
  }

  lemma BindServes(s: State, k: nat, i: nat)
    requires Counted(s) && k < |s.isos| && i < |s.ases| && s.ases[i].iso == None && Slot(s.isos[k], s.ases[i].dir) == None
    requires s.isos[k].ref == Users(s.isos[k]) + 1
    ensures Serves(s, [P.EBindEp(k, i), P.EUnref(k)], Unref(Bind(s, k, i), k))
  {
    var b := Bind(s, k, i);
    ServerBinds(s, k, i);
    ServesOne(s, P.EBindEp(k, i), b);
    assert b.isos[k].ref == Users(b.isos[k]) + 1;
    UnrefServes(b, k);
    ServesThen(s, [P.EBindEp(k, i)], b, [P.EUnref(k)], Unref(b, k));
    assert [P.EBindEp(k, i)] + [P.EUnref(k)] == [P.EBindEp(k, i), P.EUnref(k)];
  }

  lemma UnrefServes(s: State, k: nat)
    requires Counted(s) && k < |s.isos| && s.isos[k].ref == Users(s.isos[k]) + 1
    ensures Serves(s, [P.EUnref(k)], Unref(s, k))
  {
    ServerUnrefs(s, k);
    ServesOne(s, P.EUnref(k), Unref(s, k));
  }

  lemma QosBoundServes(s: State, i: nat, cig: nat, cis: nat)
    requires Inv(s) && i < |s.ases|
    ensures Serves(s, QosBoundTrace(s, i, cig, cis), QosBound(s, i, cig, cis))
  {
    hide IsoFor, Bind, Unref, Serves, Inv, Users, GetTrace;
    InvCounted(s);
    ServesItself(s);
    var a := s.ases[i];
    if a.iso == None {
      var (u, k) := IsoFor(s, a.conn, cig, cis);
      var got := GetTrace(s, a.conn, cig, cis);
      IsoForHolds(s, a.conn, cig, cis);
      ServerGets(s, a.conn, cig, cis);
      ServesCounted(s, got, u);
      if k == None {
        assert got + [] == got;
      } else if Slot(u.isos[k.value], a.dir) != None {
        UnrefServes(u, k.value);
        ServesThen(s, got, u, [P.EUnref(k.value)], Unref(u, k.value));
      } else {
        BindSizes(u, k.value, i);
        var b, bound := Unref(Bind(u, k.value, i), k.value), [P.EBindEp(k.value, i), P.EUnref(k.value)];
        BindServes(u, k.value, i);
        ServesThen(s, got, u, bound, b);
        ServesCounted(u, bound, b);
        SetServes(b, i, b.ases[i].(streamIso := k));
        ServesBefore(s, got + bound, b, QosBound(s, i, cig, cis));
      }
    }
  }

  lemma BindSizes(s: State, k: nat, i: nat)
    requires k < |s.isos| && i < |s.ases|
    ensures |Bind(s, k, i).isos| == |s.isos| && |Unref(Bind(s, k, i), k).ases| == |s.ases|
  {}

  lemma QosServes(s: State, i: nat, cig: nat, cis: nat, ok: bool)
    requires Inv(s) && i < |s.ases|
    ensures Serves(s, QosTrace(s, i, cig, cis, ok), Qos(s, i, cig, cis, ok))
  {
    InvCounted(s);
    ServesItself(s);
    assert AseBound(s, i);
    if QosAdmitted(s.ases[i], ok) {
      hide QosUnbound, QosBound, Serves, Inv, IsoFor, QosUnboundTrace, QosBoundTrace;
      var v := QosUnbound(s, i, cig, cis);
      var b := QosBound(v, i, cig, cis);
      AscsKeeps.QosUnboundKeeps(s, i, cig, cis);
      QosUnboundServes(s, i, cig, cis);
      QosBoundServes(v, i, cig, cis);
      ServesThen(s, QosUnboundTrace(s, i, cig, cis), v, QosBoundTrace(v, i, cig, cis), b);
      ServesCounted(s, QosTrace(s, i, cig, cis, ok), b);
      QosSizes(v, i, cig, cis);
      var c := Request(b.ases[i].(cig := cig, cis := cis), QosConfigured);
      SetServes(b, i, c);
      ServesBefore(s, QosTrace(s, i, cig, cis, ok), b, SetAse(b, i, c));
    }
  }

  lemma QosSizes(s: State, i: nat, cig: nat, cis: nat)
    requires i < |s.ases|
    ensures |QosBound(s, i, cig, cis).ases| == |s.ases|
  {}

  lemma SlotUse(s: State, ep: Option<nat>, down: bool, reason: nat)
    ensures SameUse(s, OnSlot(s, ep, down, reason))
  {}

  lemma IsoEventServes(s: State, k: nat, down: bool, reason: nat)
    requires Counted(s) && k < |s.isos|
    ensures Serves(s, [], if down then IsoDisconnected(s, k, reason) else IsoConnected(s, k))
  {
    var u := SetIso(s, k, s.isos[k].(chan := if down then Disconnected else Connected));
    var r := if down then reason else 0;
    var v := OnSlot(u, s.isos[k].rx, down, r);
    SlotUse(u, s.isos[k].rx, down, r);
    SlotUse(v, s.isos[k].tx, down, r);
    hide Serves, OnSlot;
    SameUseServes(s, OnSlot(v, s.isos[k].tx, down, r));
  }

  lemma DisconnectServes(s: State, i: nat, ok: bool)
    requires Counted(s) && i < |s.ases|
    ensures Serves(s, [], DisconnectWork(s, i, ok))
  {
    SameUseServes(s, DisconnectWork(s, i, ok));
  }

  lemma AcceptServes(s: State, conn: nat, cig: nat, cis: nat, encrypt: bool)
    requires Counted(s)
    ensures Serves(s, [], IsoAccept(s, conn, cig, cis, encrypt))
  {
    SameUseServes(s, IsoAccept(s, conn, cig, cis, encrypt));
  }

  lemma OperateServes(s: State, op: Op, i: nat, ok: bool)
    requires Inv(s) && i < |s.ases|
    ensures Serves(s, [], SetAse(s, i, Operate(s, op, i, ok)))
  {
    hide Serves, Operate;
    InvBound(s, i);
    AscsKeeps.OperateKeeps(s, op, i, ok);
    SetServes(s, i, Operate(s, op, i, ok));
  }

  lemma OperateLocalServes(s: State, op: LocalOp, i: nat, ok: bool)
    requires Inv(s) && Owned(s, i)
    ensures Serves(s, [], SetAse(s, i, OperateLocal(s, op, i, ok)))
  {
    hide Serves, OperateLocal;
    InvBound(s, i);
    AscsKeeps.OperateLocalKeeps(s, op, i, ok);
    SetServes(s, i, OperateLocal(s, op, i, ok));
  }

  lemma ReleaseServes(s: State, i: nat, ok: bool)
    requires Inv(s) && i < |s.ases|
    ensures Serves(s, if s.ases[i].state == Idle then FreeTrace(s, i) else [], ReleaseLocal(s, i, ok))
  {
    hide Serves, Free;
    InvBound(s, i);
    FreeServes(s, i);
    SetServes(s, i, Release(s.ases[i], LOCALHOST_TERM_CONN, ok));
  }

  // ---- every event, every run ----

  /** Every event of the server is just these steps of the pool, each possible where it is
      taken: what bap_iso.c asserts and relies on holds, and they lead from the pool as it
      was before the event to the pool as it is behind it. */
  lemma EventServes(s: State, e: Event)
    requires Inv(s) && CanHappen(s, e)
    ensures Counted(s) && Counted(Step(s, e)) && Takes(PoolOf(s), Trace(s, e), PoolOf(Step(s, e)))
  {
    StepServes(s, e);
  }

  lemma StepServes(s: State, e: Event)
    requires Inv(s) && CanHappen(s, e)
    ensures Serves(s, Trace(s, e), Step(s, e))
  {
    InvCounted(s);
    ServesItself(s);
    hide Serves, Inv, Counted, ConfigOp, Qos, Operate, ConfigLocal, OperateLocal, ReleaseLocal,
         IsoAccept, IsoConnected, IsoDisconnected, AclRounds, RunWork, DisconnectWork,
         ConfigTrace, ConfigLocalTrace, QosTrace, AclTrace, WorkTrace, FreeTrace;
    match e {
      case EConfig(conn, id, ok) => ConfigServes(s, conn, id, ok);
      case EQos(conn, id, cig, cis, ok) =>
        var i := FindAse(s.ases, conn, id, 0);
        if ValidId(s, id) && i < |s.ases| { QosServes(s, i, cig, cis, ok); }
      case EOperate(op, conn, id, ok) =>
        var i := FindAse(s.ases, conn, id, 0);
        if ValidId(s, id) && i < |s.ases| { OperateServes(s, op, i, ok); }
      case EConfigLocal(conn, ok) => ConfigLocalServes(s, conn, ok);
      case EOperateLocal(op, i, ok) => OperateLocalServes(s, op, i, ok);
      case EReleaseLocal(i, ok) => ReleaseServes(s, i, ok);
      case EIsoAccept(conn, cig, cis, encrypt) => AcceptServes(s, conn, cig, cis, encrypt);
      case EIsoConnected(k) => IsoEventServes(s, k, false, 0);
      case EIsoDisconnected(k, reason) => IsoEventServes(s, k, true, reason);
      case EAclDisconnected(conn, reason) => AclServes(s, |s.ases|, conn, reason);
      case EWork(i, noMem) =>
        InvBound(s, i);
        RunWorkServes(s, i, noMem);
      case EDisconnectWork(i, ok) => DisconnectServes(s, i, ok);
    }
  }

  lemma {:induction false} StepsServe(s: State, es: seq<Event>)
    requires Inv(s) && Runs(s, es)
    ensures Serves(s, RunTrace(s, es), Exec(s, es))
    decreases |es|
  {
    hide Serves, Inv, Step, Trace, CanHappen;
    InvCounted(s);
    if es == [] {
      ServesItself(s);
    } else {
      var u := Step(s, es[0]);
      StepServes(s, es[0]);
      AscsSteps.StepKeeps(s, es[0]);
      StepsServe(u, es[1..]);
      ServesThen(s, Trace(s, es[0]), u, RunTrace(u, es[1..]), Exec(s, es));
    }
  }

  /** Every run of the server is, as the pool sees it, the run of these steps one event
      after the other, from an unused pool. */
  lemma RunServes(s0: State, es: seq<Event>)
    requires Initial(s0) && Runs(s0, es)
    ensures Counted(s0) && P.Initial(PoolOf(s0))
    ensures Counted(Exec(s0, es)) && Takes(PoolOf(s0), RunTrace(s0, es), PoolOf(Exec(s0, es)))
  {
    AscsSteps.InitialInv(s0);
    StepsServe(s0, es);
  }

  /** So what holds of the pool over all runs holds of every state the server can reach. */
  lemma ServerIsUser(s: State)
    requires AscsTheorems.Reachable(s)
    ensures Counted(s) && P.Reachable(PoolOf(s))
  {
    var s0: State, es: seq<Event> :| AscsTheorems.Reaches(s0, es, s);
    RunServes(s0, es);
    assert P.Runs(PoolOf(s0), RunTrace(s0, es));
  }
}
