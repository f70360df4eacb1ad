/** Which requests of a link for a CIS the server accepts (ascs_iso_accept). */
module AscsAcceptTheorems {
  import opened Prelude
  import opened AscsSpec
  import opened AscsInv
  import opened AscsTheorems
  import opened AscsIsoTheorems

  predicate TakesCis(state: EpState) { state == Enabling || state == QosConfigured }

  /** Endpoint `f` is the first of the link that names the CIS of endpoint `i`. */
  predicate NamesFirst(s: State, i: nat, f: nat)
    requires i < |s.ases|
  {
    && f <= i && SameCis(s.ases[f], s.ases[i])
    && forall j :: 0 <= j < f ==> !SameCis(s.ases[j], s.ases[i])
  }

  /** The request for the CIS of endpoint `i`, which is bound to a channel. */
  function CisRequest(s: State, i: nat, encrypt: bool): Event
    requires i < |s.ases| && s.ases[i].conn != None
  {
    EIsoAccept(s.ases[i].conn.value, s.ases[i].cig, s.ases[i].cis, encrypt)
  }

  lemma FindsFirst(s: State, i: nat)
    requires i < |s.ases| && s.ases[i].conn != None
    ensures NamesFirst(s, i, FindCis(s.ases, s.ases[i].conn.value, s.ases[i].cig, s.ases[i].cis, 0))
  {
    var a := s.ases[i];
    var f := FindCis(s.ases, a.conn.value, a.cig, a.cis, 0);
    assert Awaits(a, a.conn.value, a.cig, a.cis);
  }

  lemma FirstIsUnique(s: State, i: nat, f: nat, g: nat)
    requires i < |s.ases| && NamesFirst(s, i, f) && NamesFirst(s, i, g)
    ensures f == g
  {}

  /** In every reachable state the request for the CIS of a bound endpoint goes to the first
      endpoint of the link that names this CIS.  If that is Enabling or QoS Configured but
      has no channel, and only then, the code meets its assertion.  It accepts exactly if
      that endpoint is in one of these states and bound, and the channel is down, and then
      takes the channel of the endpoint asked for.  Otherwise nothing changes. */
  lemma AcceptedExactly(s: State, i: nat, encrypt: bool)
    requires Reachable(s) && i < |s.ases| && s.ases[i].iso != None
    ensures s.ases[i].conn != None && s.ases[i].iso.value < |s.isos|
    ensures
      var k, u := s.ases[i].iso.value, Step(s, CisRequest(s, i, encrypt));
      && (Faults(s, CisRequest(s, i, encrypt)) <==>
            exists f: nat :: NamesFirst(s, i, f) && s.ases[f].iso == None && TakesCis(s.ases[f].state))
      && (u != s <==>
            && s.isos[k].chan == Disconnected
            && exists f: nat :: NamesFirst(s, i, f) && s.ases[f].iso != None && TakesCis(s.ases[f].state))
      && (u != s ==> u == SetIso(s, k, s.isos[k].(chan := if encrypt then EncryptPending else Connecting)))
  {
    ReachableInv(s);
    assert AseBound(s, i) && AseInv(s.ases[i]);
    var k, a := s.ases[i].iso.value, s.ases[i];
    var f := FindCis(s.ases, a.conn.value, a.cig, a.cis, 0);
    FindsFirst(s, i);
    assert Shares(s, f, i);
    AcceptStep(s, f, a.conn.value, a.cig, a.cis, encrypt);
    forall g: nat | NamesFirst(s, i, g) ensures g == f { FirstIsUnique(s, i, f, g); }
  }

  lemma AcceptStep(s: State, f: nat, conn: nat, cig: nat, cis: nat, encrypt: bool)
    requires f < |s.ases| && f == FindCis(s.ases, conn, cig, cis, 0)
    requires s.ases[f].iso != None ==> s.ases[f].iso.value < |s.isos|
    ensures
      var u := IsoAccept(s, conn, cig, cis, encrypt);
      if s.ases[f].iso != None && TakesCis(s.ases[f].state) && s.isos[s.ases[f].iso.value].chan == Disconnected
      then
        var k := s.ases[f].iso.value;
        u == SetIso(s, k, s.isos[k].(chan := if encrypt then EncryptPending else Connecting)) && u != s
      else u == s
  {
    var u := IsoAccept(s, conn, cig, cis, encrypt);
    if s.ases[f].iso != None && TakesCis(s.ases[f].state) && s.isos[s.ases[f].iso.value].chan == Disconnected {
      assert u.isos[s.ases[f].iso.value].chan != Disconnected;
    }
  }

  /** So an endpoint that waits for its CIS on a channel that is down is refused it
      exactly if the first of the link that names the same CIS is before it in the pool and
      in no state to take it: an endpoint only configured names CIS 0 of CIG 0. */
  lemma RefusedExactly(s: State, i: nat, encrypt: bool)
    requires Reachable(s) && i < |s.ases| && s.ases[i].iso != None && TakesCis(s.ases[i].state)
    ensures s.ases[i].conn != None && s.ases[i].iso.value < |s.isos|
    ensures s.isos[s.ases[i].iso.value].chan == Disconnected ==>
      (Step(s, CisRequest(s, i, encrypt)) == s && !Faults(s, CisRequest(s, i, encrypt)) <==>
         exists f: nat :: f < i && NamesFirst(s, i, f) && !TakesCis(s.ases[f].state))
  {
    AcceptedExactly(s, i, encrypt);
    var f := FindCis(s.ases, s.ases[i].conn.value, s.ases[i].cig, s.ases[i].cis, 0);
    FindsFirst(s, i);
    forall g: nat | NamesFirst(s, i, g) ensures g == f { FirstIsUnique(s, i, f, g); }
  }

  // ---- a run after which an endpoint is refused its CIS ----

  const PreparedSource := SourceAse.(iso := Some(0), streamIso := Some(0), state := QosConfigured, pending := QosConfigured,
                                 log := [Configured, QosSet])
  const EnablingSource := PreparedSource.(state := Enabling, pending := Enabling, log := [Configured, QosSet, Enabled])
  const SourceIso := Iso(1, None, Some(1), Disconnected)

  lemma QosForSource(rest: seq<Event>)
    requires Runs(Server(SinkAse, PreparedSource, SourceIso), rest)
    ensures var s, es := Server(SinkAse, SourceAse, UnusedIso), [EQos(7, 2, 0, 0, true)] + ([EWork(1, false)] + rest);
            Runs(s, es) && Exec(s, es) == Exec(Server(SinkAse, PreparedSource, SourceIso), rest)
  {
    var s0 := Server(SinkAse, SourceAse, UnusedIso);
    var a1 := PreparedSource.(state := CodecConfigured, work := Queued, log := [Configured]);
    var s1 := Server(SinkAse, a1, SourceIso);
    assert FindAse(s0.ases, 7, 2, 0) == 1;
    assert FindIso(s0, Some(7), 0, 0, 0) == 1 && FreeIso(s0.isos, 0) == 0;
    var (u, k) := IsoFor(s0, Some(7), 0, 0);
    assert u == s0.(isos := [Iso(1, None, None, Disconnected)]) && k == Some(0);
    assert QosBound(s0, 1, 0, 0) == Server(SinkAse, SourceAse.(iso := Some(0), streamIso := Some(0)), SourceIso);
    assert Step(s0, EQos(7, 2, 0, 0, true)) == s1;
    WorkCommits(s1, 1, PreparedSource);
    assert [SinkAse, a1][1 := PreparedSource] == [SinkAse, PreparedSource];
    RunCons(s1, EWork(1, false), rest);
    RunCons(s0, EQos(7, 2, 0, 0, true), [EWork(1, false)] + rest);
  }

  lemma EnabledByWork(s: State, a: Ase)
    requires a == PreparedSource.(pending := Enabling, work := Queued) && s == Server(SinkAse, a, SourceIso)
    ensures Step(s, EWork(1, false)) == Server(SinkAse, EnablingSource, SourceIso)
  {
    var b := a.(work := NotQueued);
    assert b.log + [] == b.log;
    assert Commit(b, false, CanDisconnect(SetAse(Server(SinkAse, b, SourceIso), 1, b.(state := Enabling)), 1)) == EnablingSource;
    assert SetAse(s, 1, b) == Server(SinkAse, b, SourceIso) by { assert [SinkAse, a][1 := b] == [SinkAse, b]; }
    assert [SinkAse, b][1 := EnablingSource] == [SinkAse, EnablingSource];
  }

  lemma EnableSource(rest: seq<Event>)
    requires Runs(Server(SinkAse, EnablingSource, SourceIso), rest)
    ensures var s, es := Server(SinkAse, PreparedSource, SourceIso), [EOperate(OpEnable, 7, 2, true)] + ([EWork(1, false)] + rest);
            Runs(s, es) && Exec(s, es) == Exec(Server(SinkAse, EnablingSource, SourceIso), rest)
  {
    var s0 := Server(SinkAse, PreparedSource, SourceIso);
    var a1 := PreparedSource.(pending := Enabling, work := Queued);
    var s1 := Server(SinkAse, a1, SourceIso);
    assert FindAse(s0.ases, 7, 2, 0) == 1;
    assert [SinkAse, PreparedSource][1 := a1] == [SinkAse, a1];
    assert Step(s0, EOperate(OpEnable, 7, 2, true)) == s1;
    EnabledByWork(s1, a1);
    RunCons(s1, EWork(1, false), rest);
    RunCons(s0, EOperate(OpEnable, 7, 2, true), [EWork(1, false)] + rest);
  }

  /** The sink of a link is only configured and so names CIS 0 of CIG 0; the source is
      enabled for just this CIS and never gets it. */
  lemma CanBeRefused(encrypt: bool)
    ensures
      var s0 := Server(UnusedAse, UnusedAse, UnusedIso);
      var es := [EConfig(7, 1, true)] + ([EWork(0, false)] + ([EConfig(7, 2, true)] + ([EWork(1, false)]
                + ([EQos(7, 2, 0, 0, true)] + ([EWork(1, false)] + ([EOperate(OpEnable, 7, 2, true)]
                + ([EWork(1, false)] + [])))))));
      var s := Server(SinkAse, EnablingSource, SourceIso);
      && Initial(s0) && Runs(s0, es) && Exec(s0, es) == s
      && CisRequest(s, 1, encrypt) == EIsoAccept(7, 0, 0, encrypt) && Step(s, EIsoAccept(7, 0, 0, encrypt)) == s
  {
    IsRefused(encrypt);
    hide Step, CanHappen;
    EnableSource([]);
    var es1 := [EOperate(OpEnable, 7, 2, true)] + ([EWork(1, false)] + []);
    QosForSource(es1);
    var es2 := [EQos(7, 2, 0, 0, true)] + ([EWork(1, false)] + es1);
    ConfigSource(es2);
    ConfigSink(UnusedAse, [EConfig(7, 2, true)] + ([EWork(1, false)] + es2));
  }

  lemma IsRefused(encrypt: bool)
    ensures
      var s := Server(SinkAse, EnablingSource, SourceIso);
      CisRequest(s, 1, encrypt) == EIsoAccept(7, 0, 0, encrypt) && Step(s, EIsoAccept(7, 0, 0, encrypt)) == s
  {
    var s := Server(SinkAse, EnablingSource, SourceIso);
    assert FindCis(s.ases, 7, 0, 0, 0) == 0;
  }
}
