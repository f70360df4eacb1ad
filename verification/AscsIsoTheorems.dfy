/** What the endpoints and the pool of ISO channels promise each other over all runs. */
module AscsIsoTheorems {
  import opened Prelude
  import opened AscsSpec
  import opened AscsInv
  import opened AscsSteps
  import opened AscsTheorems

  /** The endpoints bound to channel `k`. */
  function Bound(s: State, k: nat): set<nat> {
    set i: nat | i < |s.ases| && s.ases[i].iso == Some(k)
  }

  /** The reference count of a channel is the number of endpoints bound to it, so a
      channel that can be allocated again has none. */
  lemma CountIsUsers(s: State, k: nat)
    requires Reachable(s) && k < |s.isos|
    ensures s.isos[k].ref == |Bound(s, k)|
  {
    ReachableInv(s);
    assert IsoInv(s, k);
    var rx := if s.isos[k].rx == None then {} else {s.isos[k].rx.value};
    var tx := if s.isos[k].tx == None then {} else {s.isos[k].tx.value};
    forall i: nat | i < |s.ases| && s.ases[i].iso == Some(k) ensures i in rx + tx { assert AseBound(s, i); }
    assert Bound(s, k) == rx + tx;
    OneOrNone(s.isos[k].rx, s.isos[k].tx);
  }

  lemma OneOrNone(a: Option<nat>, b: Option<nat>)
    requires a != None && b != None ==> a.value != b.value
    ensures |(if a == None then {} else {a.value}) + (if b == None then {} else {b.value})|
            == (if a == None then 0 else 1) + (if b == None then 0 else 1)
  {
    if a != None && b != None { assert |{a.value, b.value}| == 2; }
  }

  /** Endpoint and slot point at each other; sinks receive, sources transmit. */
  lemma LinksAreMutual(s: State, i: nat, k: nat)
    requires Reachable(s) && i < |s.ases| && k < |s.isos|
    ensures s.ases[i].iso == Some(k) <==> Some(i) == if s.ases[i].dir == Sink then s.isos[k].rx else s.isos[k].tx
    ensures s.ases[i].iso != None ==> s.ases[i].iso.value < |s.isos|
  {
    ReachableInv(s);
    assert AseBound(s, i) && IsoInv(s, k);
  }

  /** Two endpoints share a channel exactly when both are bound and name the same CIS of
      the same link, and then their directions are opposite. */
  lemma SharedByOpposites(s: State, i: nat, j: nat)
    requires Reachable(s) && i < |s.ases| && j < |s.ases| && i != j && s.ases[i].iso != None && s.ases[j].iso != None
    ensures s.ases[i].iso == s.ases[j].iso <==> SameCis(s.ases[i], s.ases[j])
    ensures s.ases[i].iso == s.ases[j].iso ==> s.ases[i].dir != s.ases[j].dir
  {
    ReachableInv(s);
    assert Shares(s, i, j) && AseBound(s, i) && AseBound(s, j);
  }

  /** A link does not hold the same ASE id twice. */
  lemma IdsAreDistinct(s: State, i: nat, j: nat)
    requires Reachable(s) && i < |s.ases| && j < |s.ases| && i != j && s.ases[i].conn != None
    ensures s.ases[i].conn == s.ases[j].conn ==> s.ases[i].id != s.ases[j].id
  {
    ReachableInv(s);
    assert OneEach(s, i, j);
  }

  // ---- endpoints that rely on a channel they do not have ----

  predicate AllHaveChannels(s: State) {
    forall i :: 0 <= i < |s.ases| ==> HasChannel(s.ases[i])
  }

  /** A QoS write that names another CIS, for which the server then finds no channel. */
  predicate LosesChannel(s: State, e: Event) {
    && e.EQos? && ValidId(s, e.id)
    && var i := FindAse(s.ases, e.conn, e.id, 0);
       && i < |s.ases| && QosAdmitted(s.ases[i], e.ok) && Needs(s.ases[i])
       && !QosBinds(QosUnbound(s, i, e.cig, e.cis), i, e.cig, e.cis)
  }

  lemma NeedsAfterUnbind(s: State, i: nat, cig: nat, cis: nat)
    requires i < |s.ases|
    ensures |QosUnbound(s, i, cig, cis).ases| == |s.ases| && (Needs(QosUnbound(s, i, cig, cis).ases[i]) <==> Needs(s.ases[i]))
  {
    UnbindAse(s, i);
  }

  lemma ChannelEffect(s: State, e: Event)
    requires Inv(s) && CanHappen(s, e) && AllHaveChannels(s) && !LosesChannel(s, e)
    ensures AllHaveChannels(Step(s, e))
  {
    match e {
      case EQos(conn, id, cig, cis, ok) =>
        var j := FindAse(s.ases, conn, id, 0);
        if j < |s.ases| { QosEffect(s, j, cig, cis, ok); NeedsAfterUnbind(s, j, cig, cis); }
      case EOperateLocal(op, j, ok) => assert AseInv(s.ases[j]); OperateLocalEffect(s, op, j, ok);
      case EReleaseLocal(j, ok) =>
        assert AseInv(s.ases[j]);
        ReleaseLocalEffect(s, j, ok);
        CalmHasChannels(s, ReleaseLocal(s, j, ok));
      case EAclDisconnected(conn, reason) => AclRoundsEffect(s, |s.ases|, conn, reason);
      case EWork(j, noMem) => RunWorkEffect(s, j, noMem);
      case _ => CalmEvents(s, e); CalmHasChannels(s, Step(s, e));
    }
  }

  lemma CalmHasChannels(s: State, u: State)
    requires CalmStep(s, u) && AllHaveChannels(s)
    ensures AllHaveChannels(u)
  {
    forall i | 0 <= i < |u.ases| ensures HasChannel(u.ases[i]) { assert Calm(s.ases[i], u.ases[i]); }
  }

  /** While every endpoint that relies on a channel has one, a step takes one away
      exactly when it is a QoS write that makes ase_qos unbind the endpoint and then fail:
      the pool is exhausted, or the channel of the CIS is taken in that direction. */
  lemma ChannelLostExactly(s: State, e: Event)
    requires Reachable(s) && CanHappen(s, e) && AllHaveChannels(s)
    ensures !AllHaveChannels(Step(s, e)) <==> LosesChannel(s, e)
  {
    ReachableInv(s);
    if LosesChannel(s, e) {
      var i := FindAse(s.ases, e.conn, e.id, 0);
      QosEffect(s, i, e.cig, e.cis, e.ok);
      NeedsAfterUnbind(s, i, e.cig, e.cis);
    } else {
      ChannelEffect(s, e);
    }
  }

  predicate KeepsChannels(s: State, es: seq<Event>)
    requires Runs(s, es)
    decreases |es|
  {
    es != [] ==> !LosesChannel(s, es[0]) && KeepsChannels(Step(s, es[0]), es[1..])
  }

  /** Over a run without such a write every endpoint that relies on a channel has one. */
  lemma {:induction false} RunHasChannels(s: State, es: seq<Event>)
    requires Inv(s) && AllHaveChannels(s) && Runs(s, es) && KeepsChannels(s, es)
    ensures AllHaveChannels(Exec(s, es))
    decreases |es|
  {
    if es != [] {
      StepKeeps(s, es[0]);
      ChannelEffect(s, es[0]);
      RunHasChannels(Step(s, es[0]), es[1..]);
    }
  }

  // ---- assertions and null pointers ----

  /** The event makes the source fail an assertion or follow a null pointer. */
  predicate Faults(s: State, e: Event) {
    match e
    case EWork(i, noMem) =>
      && i < |s.ases|
      && var a := s.ases[i];
         && (a.conn == None || !noMem)
         && (!a.stream || (a.pending == Idle && a.conn == None)
             || (a.pending == Streaming && a.state != Streaming && a.iso == None))
    case EOperate(OpStart, conn, id, _) =>
      && ValidId(s, id)
      && var i := FindAse(s.ases, conn, id, 0);
         i < |s.ases| && s.ases[i].dir == Source && s.ases[i].state == Enabling && s.ases[i].iso == None
    case EOperateLocal(LocalStart, i, _) =>
      i < |s.ases| && Admits(LocalStart, s.ases[i].state) && s.ases[i].dir == Sink && s.ases[i].iso == None
    case EIsoAccept(conn, cig, cis, _) =>
      var i := FindCis(s.ases, conn, cig, cis, 0);
      i < |s.ases| && (s.ases[i].state == Enabling || s.ases[i].state == QosConfigured) && s.ases[i].iso == None
    case EDisconnectWork(i, _) => i < |s.ases| && (s.ases[i].iso == None || !s.ases[i].stream)
    case _ => false
  }

  /** Endpoint `i` relies on a channel it does not have. */
  predicate Lacks(s: State, i: nat) { i < |s.ases| && Needs(s.ases[i]) && s.ases[i].iso == None }

  /** The event goes to the channel of endpoint `i`: it commits Streaming, starts the
      endpoint, accepts its CIS or disconnects it. */
  predicate Uses(s: State, e: Event, i: nat)
    requires i < |s.ases|
  {
    var a := s.ases[i];
    match e
    case EWork(j, noMem) => j == i && !noMem && a.state == Enabling && a.pending == Streaming
    case EOperate(OpStart, conn, id, _) =>
      ValidId(s, id) && FindAse(s.ases, conn, id, 0) == i && a.dir == Source && a.state == Enabling
    case EOperateLocal(LocalStart, j, _) => j == i && a.dir == Sink && a.state == Enabling
    case EIsoAccept(conn, cig, cis, _) =>
      FindCis(s.ases, conn, cig, cis, 0) == i && (a.state == Enabling || a.state == QosConfigured)
    case EDisconnectWork(j, _) => j == i
    case _ => false
  }

  /** In every reachable state an event faults exactly if it goes to the channel of an
      endpoint that relies on one and has none. */
  lemma FaultsExactly(s: State, e: Event)
    requires Reachable(s) && CanHappen(s, e)
    ensures Faults(s, e) <==> exists i: nat :: Lacks(s, i) && Uses(s, e, i)
  {
    ReachableInv(s);
    FaultIsUse(s, e);
  }

  lemma FaultIsUse(s: State, e: Event)
    requires Inv(s) && CanHappen(s, e)
    ensures Faults(s, e) <==> exists i: nat :: Lacks(s, i) && Uses(s, e, i)
  {
    match e {
      case EWork(j, _) => assert AseInv(s.ases[j]); assert Faults(s, e) ==> Lacks(s, j) && Uses(s, e, j);
      case EOperate(OpStart, conn, id, _) =>
        var j := FindAse(s.ases, conn, id, 0);
        assert Faults(s, e) ==> Lacks(s, j) && Uses(s, e, j);
      case EOperateLocal(_, j, _) => assert Faults(s, e) ==> Lacks(s, j) && Uses(s, e, j);
      case EIsoAccept(conn, cig, cis, _) =>
        var j := FindCis(s.ases, conn, cig, cis, 0);
        assert Faults(s, e) ==> Lacks(s, j) && Uses(s, e, j);
      case EDisconnectWork(j, _) => assert AseInv(s.ases[j]); assert Faults(s, e) ==> Lacks(s, j) && Uses(s, e, j);
      case _ =>
    }
  }

  /** While no write has cost an endpoint its channel, no event faults. */
  lemma NoFault(s0: State, es: seq<Event>, e: Event)
    requires Initial(s0) && Runs(s0, es) && KeepsChannels(s0, es)
    requires CanHappen(Exec(s0, es), e)
    ensures !Faults(Exec(s0, es), e)
  {
    var s := Exec(s0, es);
    InitialInv(s0);
    RunKeeps(s0, es);
    RunHasChannels(s0, es);
    FaultIsUse(s, e);
    assert forall i: nat :: !Lacks(s, i);
  }

  /** What bt_bap_iso_unbind_ep and bt_bap_iso_unref assert of a bound endpoint. */
  lemma UnbindIsSafe(s: State, i: nat)
    requires Reachable(s) && i < |s.ases| && s.ases[i].iso != None
    ensures
      var k := s.ases[i].iso.value;
      k < |s.isos| && Slot(s.isos[k], s.ases[i].dir) == Some(i) && s.isos[k].ref > 0
  {
    ReachableInv(s);
    assert AseBound(s, i) && IsoInv(s, s.ases[i].iso.value);
  }

  // ---- a run that loses a channel ----

  lemma RunCons(s: State, e: Event, rest: seq<Event>)
    requires CanHappen(s, e) && Runs(Step(s, e), rest)
    ensures Runs(s, [e] + rest) && Exec(s, [e] + rest) == Exec(Step(s, e), rest)
  {
    assert ([e] + rest)[1..] == rest;
  }

  /** A server with one sink, one source and one channel. */
  function Server(a: Ase, b: Ase, iso: Iso): State { State(1, 2, [a, b], [iso]) }

  const ConfiguredAse := UnusedAse.(conn := Some(7), state := CodecConfigured, pending := CodecConfigured,
                                    stream := true, log := [Configured])
  const SinkAse := ConfiguredAse.(id := 1)
  const SourceAse := ConfiguredAse.(id := 2, dir := Source)
  const BoundSink := SinkAse.(iso := Some(0), streamIso := Some(0), state := QosConfigured, pending := QosConfigured,
                              log := [Configured, QosSet])
  const BoundSource := SourceAse.(iso := Some(0), streamIso := Some(0), pending := QosConfigured, work := Queued)

  lemma ConfigSink(b: Ase, rest: seq<Event>)
    requires b == UnusedAse && Runs(Server(SinkAse, b, UnusedIso), rest)
    ensures var s := Server(UnusedAse, b, UnusedIso);
            && Runs(s, [EConfig(7, 1, true)] + ([EWork(0, false)] + rest))
            && Exec(s, [EConfig(7, 1, true)] + ([EWork(0, false)] + rest)) == Exec(Server(SinkAse, b, UnusedIso), rest)
  {
    var s0 := Server(UnusedAse, b, UnusedIso);
    var a1 := SinkAse.(state := Idle, work := Queued, log := []);
    var s1 := Server(a1, b, UnusedIso);
    assert Config(NewAse(s0, UnusedAse, 7, 1), true) == a1;
    assert [UnusedAse, b][0 := a1] == [a1, b];
    assert Step(s0, EConfig(7, 1, true)) == s1;
    WorkCommits(s1, 0, SinkAse);
    assert [a1, b][0 := SinkAse] == [SinkAse, b];
    RunCons(s1, EWork(0, false), rest);
    RunCons(s0, EConfig(7, 1, true), [EWork(0, false)] + rest);
  }

  lemma ConfigSource(rest: seq<Event>)
    requires Runs(Server(SinkAse, SourceAse, UnusedIso), rest)
    ensures var s := Server(SinkAse, UnusedAse, UnusedIso);
            && Runs(s, [EConfig(7, 2, true)] + ([EWork(1, false)] + rest))
            && Exec(s, [EConfig(7, 2, true)] + ([EWork(1, false)] + rest)) == Exec(Server(SinkAse, SourceAse, UnusedIso), rest)
  {
    var s0 := Server(SinkAse, UnusedAse, UnusedIso);
    var a1 := SourceAse.(state := Idle, work := Queued, log := []);
    var s1 := Server(SinkAse, a1, UnusedIso);
    assert FindAse(s0.ases, 7, 2, 0) == 2 && FreeSlot(s0.ases, 0) == 1;
    assert Config(NewAse(s0, UnusedAse, 7, 2), true) == a1;
    assert [SinkAse, UnusedAse][1 := a1] == [SinkAse, a1];
    assert Step(s0, EConfig(7, 2, true)) == s1;
    WorkCommits(s1, 1, SourceAse);
    assert [SinkAse, a1][1 := SourceAse] == [SinkAse, SourceAse];
    RunCons(s1, EWork(1, false), rest);
    RunCons(s0, EConfig(7, 2, true), [EWork(1, false)] + rest);
  }

  /** The work handler, on an endpoint becoming configured. */
  lemma WorkCommits(s: State, i: nat, b: Ase)
    requires i < |s.ases| && s.ases[i].work != NotQueued && s.ases[i].state != s.ases[i].pending
    requires s.ases[i].state == Idle || s.ases[i].state == CodecConfigured
    requires s.ases[i].pending == CodecConfigured || s.ases[i].pending == QosConfigured
    requires var a := s.ases[i];
             b == if a.pending == CodecConfigured
                  then a.(work := NotQueued, state := a.pending, receiverReady := false, streamIso := None, log := a.log + [Configured])
                  else a.(work := NotQueued, state := a.pending, receiverReady := false, log := a.log + [QosSet])
    ensures Step(s, EWork(i, false)) == SetAse(s, i, b)
  {
    assert s.ases[i].log + [] == s.ases[i].log;
  }

  lemma QosSink(rest: seq<Event>)
    requires Runs(Server(BoundSink, SourceAse, Iso(1, Some(0), None, Disconnected)), rest)
    ensures var s, es := Server(SinkAse, SourceAse, UnusedIso), [EQos(7, 1, 0, 0, true)] + ([EWork(0, false)] + rest);
            && Runs(s, es)
            && Exec(s, es) == Exec(Server(BoundSink, SourceAse, Iso(1, Some(0), None, Disconnected)), rest)
  {
    var s0 := Server(SinkAse, SourceAse, UnusedIso);
    var a1 := BoundSink.(state := CodecConfigured, work := Queued, log := [Configured]);
    var s1 := Server(a1, SourceAse, Iso(1, Some(0), None, Disconnected));
    assert FindIso(s0, Some(7), 0, 0, 0) == 1 && FreeIso(s0.isos, 0) == 0;
    QosBoundNew(s0, 0, 0);
    assert Qos(s0, 0, 0, 0, true) == s1;
    WorkCommits(s1, 0, BoundSink);
    assert [a1, SourceAse][0 := BoundSink] == [BoundSink, SourceAse];
    RunCons(s1, EWork(0, false), rest);
    RunCons(s0, EQos(7, 1, 0, 0, true), [EWork(0, false)] + rest);
  }

  lemma QosBoundNew(s: State, cig: nat, cis: nat)
    requires s == Server(SinkAse, SourceAse, UnusedIso) && cig == 0 && cis == 0
    ensures QosBound(s, 0, cig, cis)
            == Server(SinkAse.(iso := Some(0), streamIso := Some(0)), SourceAse, Iso(1, Some(0), None, Disconnected))
    ensures QosBinds(s, 0, cig, cis)
  {
    var (u, k) := IsoFor(s, Some(7), cig, cis);
    assert u == s.(isos := [Iso(1, None, None, Disconnected)]) && k == Some(0);
  }

  lemma QosSource(rest: seq<Event>)
    requires Runs(Server(BoundSink, BoundSource, Iso(2, Some(0), Some(1), Disconnected)), rest)
    ensures var s, es := Server(BoundSink, SourceAse, Iso(1, Some(0), None, Disconnected)), [EQos(7, 2, 0, 0, true)] + rest;
            && Runs(s, es)
            && Exec(s, es) == Exec(Server(BoundSink, BoundSource, Iso(2, Some(0), Some(1), Disconnected)), rest)
  {
    var s0 := Server(BoundSink, SourceAse, Iso(1, Some(0), None, Disconnected));
    assert FindAse(s0.ases, 7, 2, 0) == 1;
    var (u, k) := IsoFor(s0, Some(7), 0, 0);
    assert Carries(s0, s0.isos[0], Some(7), 0, 0);
    assert u == s0.(isos := [Iso(2, Some(0), None, Disconnected)]) && k == Some(0);
    assert QosBound(s0, 1, 0, 0)
           == Server(BoundSink, SourceAse.(iso := Some(0), streamIso := Some(0)), Iso(2, Some(0), Some(1), Disconnected));
    assert Step(s0, EQos(7, 2, 0, 0, true)) == Server(BoundSink, BoundSource, Iso(2, Some(0), Some(1), Disconnected));
    RunCons(s0, EQos(7, 2, 0, 0, true), rest);
  }

  lemma QosLoses()
    ensures var s := Server(BoundSink, BoundSource, Iso(2, Some(0), Some(1), Disconnected));
            && Step(s, EQos(7, 1, 0, 1, true))
               == Server(BoundSink.(iso := None, streamIso := None), BoundSource, Iso(1, None, Some(1), Disconnected))
  {
    var s := Server(BoundSink, BoundSource, Iso(2, Some(0), Some(1), Disconnected));
    var u := Server(BoundSink.(iso := None, streamIso := None), BoundSource, Iso(1, None, Some(1), Disconnected));
    assert Unbind(s, 0) == Server(BoundSink.(iso := None), BoundSource, Iso(1, None, Some(1), Disconnected));
    assert QosUnbound(s, 0, 0, 1) == u;
    assert FindIso(u, Some(7), 0, 1, 0) == 1 && FreeIso(u.isos, 0) == 1;
    assert IsoFor(u, Some(7), 0, 1) == (u, None);
  }

  /** The sink and the source of a link share the only channel; a QoS write that moves
      the sink to another CIS is refused, and leaves the sink QoS Configured without
      any channel. */
  lemma ChannelCanBeLost()
    ensures
      var s0 := Server(UnusedAse, UnusedAse, UnusedIso);
      var es := [EConfig(7, 1, true)] + ([EWork(0, false)] + ([EConfig(7, 2, true)] + ([EWork(1, false)]
                + ([EQos(7, 1, 0, 0, true)] + ([EWork(0, false)] + ([EQos(7, 2, 0, 0, true)]
                + ([EQos(7, 1, 0, 1, true)] + [])))))));
      && Initial(s0) && Runs(s0, es)
      && Exec(s0, es) == Server(BoundSink.(iso := None, streamIso := None), BoundSource, Iso(1, None, Some(1), Disconnected))
  {
    var s := Server(BoundSink, BoundSource, Iso(2, Some(0), Some(1), Disconnected));
    QosLoses();
    RunCons(s, EQos(7, 1, 0, 1, true), []);
    var es1 := [EQos(7, 1, 0, 1, true)] + [];
    QosSource(es1);
    var es2 := [EQos(7, 2, 0, 0, true)] + es1;
    QosSink(es2);
    var es3 := [EQos(7, 1, 0, 0, true)] + ([EWork(0, false)] + es2);
    ConfigSource(es3);
    ConfigSink(UnusedAse, [EConfig(7, 2, true)] + ([EWork(1, false)] + es3));
  }

  /** In that state the request of the link for the first CIS meets the assertion that
      its endpoint has a channel. */
  lemma LostChannelFaults()
    ensures
      var s0 := Server(UnusedAse, UnusedAse, UnusedIso);
      var es := [EConfig(7, 1, true)] + ([EWork(0, false)] + ([EConfig(7, 2, true)] + ([EWork(1, false)]
                + ([EQos(7, 1, 0, 0, true)] + ([EWork(0, false)] + ([EQos(7, 2, 0, 0, true)]
                + ([EQos(7, 1, 0, 1, true)] + [])))))));
      var e := EIsoAccept(7, 0, 0, false);
      && Initial(s0) && Runs(s0, es) && CanHappen(Exec(s0, es), e) && Faults(Exec(s0, es), e)
  {
    ChannelCanBeLost();
  }

  // ---- a run after which an endpoint holds on to a link that is gone ----

  /** The link goes down while the first configuration of an endpoint still waits for the
      work handler: the endpoint is passed over, and then becomes configured on it. */
  lemma LinkCanBeKept(reason: nat)
    ensures
      var s0 := Server(UnusedAse, UnusedAse, UnusedIso);
      var es := [EConfig(7, 1, true)] + ([EAclDisconnected(7, reason)] + ([EWork(0, false)] + []));
      && Initial(s0) && Runs(s0, es) && Exec(s0, es) == Server(SinkAse, UnusedAse, UnusedIso)
    ensures SinkAse.conn == Some(7) && SinkAse.state == CodecConfigured
  {
    var s0 := Server(UnusedAse, UnusedAse, UnusedIso);
    var a1 := SinkAse.(state := Idle, work := Queued, log := []);
    var s1 := Server(a1, UnusedAse, UnusedIso);
    assert Config(NewAse(s0, UnusedAse, 7, 1), true) == a1;
    assert [UnusedAse, UnusedAse][0 := a1] == [a1, UnusedAse];
    assert Step(s0, EConfig(7, 1, true)) == s1;
    assert AclRounds(s1, 1, 7, reason) == AclDown(AclRounds(s1, 0, 7, reason), 0, 7, reason) == s1;
    assert Step(s1, EAclDisconnected(7, reason)) == s1;
    WorkCommits(s1, 0, SinkAse);
    assert [a1, UnusedAse][0 := SinkAse] == [SinkAse, UnusedAse];
    RunCons(s1, EWork(0, false), []);
    RunCons(s1, EAclDisconnected(7, reason), [EWork(0, false)] + []);
    RunCons(s0, EConfig(7, 1, true), [EAclDisconnected(7, reason)] + ([EWork(0, false)] + []));
  }
}
