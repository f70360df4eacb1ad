/** The pool of isochronous channels of bluetooth/audio/bap_iso.c and all who use it:
    endpoints and streams bound to a channel, and callers that hold a reference.
    Every function of the file is one step; `held` records how many references to each
    channel callers hold, no step reads it. */
module IsoPool {
  import opened Prelude
  import A = AscsSpec

  /** struct bt_bap_iso_dir: what is bound to one half of a channel */
  datatype Half = Half(ep: Option<nat>, stream: Option<nat>)

  datatype Iso = Iso(ref: nat, rx: Half, tx: Half)

  datatype Ep = Ep(dir: A.Dir, client: bool, iso: Option<nat>)

  /** `streams` holds the channel each stream is bound to. */
  datatype State = State(isos: seq<Iso>, eps: seq<Ep>, streams: seq<Option<nat>>, held: seq<nat>)

  const UNUSED := Half(None, None)

  // ---- halves ----

  /** bap_iso_get_iso_dir: for the unicast client the directions are reversed. */
  predicate IsRx(dir: A.Dir, client: bool) { if client then dir == A.Source else dir == A.Sink }

  predicate EpIsRx(ep: Ep) { IsRx(ep.dir, ep.client) }

  function HalfOf(iso: Iso, rx: bool): Half { if rx then iso.rx else iso.tx }

  function WithHalf(iso: Iso, rx: bool, half: Half): Iso { if rx then iso.(rx := half) else iso.(tx := half) }

  function WithEp(iso: Iso, rx: bool, ep: Option<nat>): Iso { WithHalf(iso, rx, HalfOf(iso, rx).(ep := ep)) }

  function WithStream(iso: Iso, rx: bool, stream: Option<nat>): Iso {
    WithHalf(iso, rx, HalfOf(iso, rx).(stream := stream))
  }

  // ---- steps ----

  /** The functions of the file, each a step; and the owner of an endpoint that is bound to
      nothing sets it up for another direction. */

  datatype Event =
    | ENew
    | ERef(k: nat)
    | EUnref(k: nat)
    | EFind(answers: seq<bool>)
    | EBindEp(k: nat, e: nat)
    | EUnbindEp(e: nat)
    | EBindStream(k: nat, j: nat, dir: A.Dir)
    | EUnbindStream(j: nat, dir: A.Dir)
    | EInitEp(e: nat, dir: A.Dir)

  /** The first channel without a reference, or the size of the pool. */
  function Free(isos: seq<Iso>, k: nat): (r: nat)
    requires k <= |isos|
    ensures k <= r <= |isos| && (r < |isos| ==> isos[r].ref == 0)
    ensures forall j :: k <= j < r ==> isos[j].ref > 0
    decreases |isos| - k
  {
    if k == |isos| || isos[k].ref == 0 then k else Free(isos, k + 1)
  }

  /** The first channel in use for which the caller's function answers true. */
  function Found(isos: seq<Iso>, answers: seq<bool>, k: nat): (r: nat)
    requires k <= |isos| == |answers|
    ensures k <= r <= |isos| && (r < |isos| ==> isos[r].ref > 0 && answers[r])
    ensures forall j :: k <= j < r ==> !(isos[j].ref > 0 && answers[j])
    decreases |isos| - k
  {
    if k == |isos| || (isos[k].ref > 0 && answers[k]) then k else Found(isos, answers, k + 1)
  }

  /** What the source asserts of its callers, or relies on. */
  predicate CanHappen(s: State, e: Event)
    requires |s.held| == |s.isos|
  {
    match e
    case ENew => true
    case ERef(k) => k < |s.isos|
    case EUnref(k) => k < |s.isos| && s.held[k] > 0
    case EFind(answers) => |answers| == |s.isos|
    case EBindEp(k, e) =>
      && k < |s.isos| && e < |s.eps| && s.isos[k].ref > 0
      && s.eps[e].iso == None && HalfOf(s.isos[k], EpIsRx(s.eps[e])).ep == None
    case EUnbindEp(e) => e < |s.eps| && s.eps[e].iso != None
    case EBindStream(k, j, dir) =>
      && k < |s.isos| && j < |s.streams| && s.isos[k].ref > 0
      && s.streams[j] == None && HalfOf(s.isos[k], IsRx(dir, true)).stream == None
    case EUnbindStream(j, dir) =>
      && j < |s.streams| && s.streams[j] != None && s.streams[j].value < |s.isos|
      && HalfOf(s.isos[s.streams[j].value], IsRx(dir, true)).stream == Some(j)
    case EInitEp(e, _) => e < |s.eps| && s.eps[e].iso == None
  }

  function Take(s: State, k: nat): State
    requires k < |s.isos| == |s.held|
  {
    s.(isos := s.isos[k := s.isos[k].(ref := s.isos[k].ref + 1)], held := s.held[k := s.held[k] + 1])
  }

  function Drop(iso: Iso): Iso { iso.(ref := if iso.ref == 0 then 0 else iso.ref - 1) }

  function Step(s: State, e: Event): State
    requires |s.held| == |s.isos| && CanHappen(s, e)
  {
    match e
    case ENew =>
      var k := Free(s.isos, 0);
      if k == |s.isos| then s
      else s.(isos := s.isos[k := Iso(1, UNUSED, UNUSED)], held := s.held[k := s.held[k] + 1])
    case ERef(k) => if s.isos[k].ref == 0 then s else Take(s, k)
    case EUnref(k) => s.(isos := s.isos[k := Drop(s.isos[k])], held := s.held[k := s.held[k] - 1])
    case EFind(answers) =>
      var k := Found(s.isos, answers, 0);
      if k == |s.isos| then s else Take(s, k)
    case EBindEp(k, e) =>
      var iso := WithEp(s.isos[k], EpIsRx(s.eps[e]), Some(e));
      s.(isos := s.isos[k := iso.(ref := iso.ref + 1)], eps := s.eps[e := s.eps[e].(iso := Some(k))])
    case EUnbindEp(e) =>
      var k := s.eps[e].iso.value;
      if k >= |s.isos| then s else
      s.(isos := s.isos[k := Drop(WithEp(s.isos[k], EpIsRx(s.eps[e]), None))],
         eps := s.eps[e := s.eps[e].(iso := None)])
    case EBindStream(k, j, dir) =>
      var iso := WithStream(s.isos[k], IsRx(dir, true), Some(j));
      s.(isos := s.isos[k := iso.(ref := iso.ref + 1)], streams := s.streams[j := Some(k)])
    case EUnbindStream(j, dir) =>
      var k := s.streams[j].value;
      s.(isos := s.isos[k := Drop(WithStream(s.isos[k], IsRx(dir, true), None))], streams := s.streams[j := None])
    case EInitEp(e, dir) => s.(eps := s.eps[e := s.eps[e].(dir := dir)])
  }

  // ---- what every step keeps ----

  function One(a: Option<nat>): nat { if a == None then 0 else 1 }

  function Bindings(iso: Iso): nat { One(iso.rx.ep) + One(iso.tx.ep) + One(iso.rx.stream) + One(iso.tx.stream) }

  predicate EpBound(s: State, e: nat)
    requires e < |s.eps|
  {
    var ep := s.eps[e];
    ep.iso != None ==> ep.iso.value < |s.isos| && HalfOf(s.isos[ep.iso.value], EpIsRx(ep)).ep == Some(e)
  }

  predicate StreamBound(s: State, j: nat)
    requires j < |s.streams|
  {
    var k := s.streams[j];
    k != None ==>
      && k.value < |s.isos|
      && (s.isos[k.value].rx.stream == Some(j) <==> s.isos[k.value].tx.stream != Some(j))
  }

  predicate EpAt(s: State, k: nat, rx: bool)
    requires k < |s.isos|
  {
    var e := HalfOf(s.isos[k], rx).ep;
    e != None ==> e.value < |s.eps| && s.eps[e.value].iso == Some(k) && EpIsRx(s.eps[e.value]) == rx
  }

  predicate StreamAt(s: State, k: nat, rx: bool)
    requires k < |s.isos|
  {
    var j := HalfOf(s.isos[k], rx).stream;
    j != None ==> j.value < |s.streams| && s.streams[j.value] == Some(k)
  }

  predicate HalfBound(s: State, k: nat, rx: bool)
    requires k < |s.isos|
  {
    EpAt(s, k, rx) && StreamAt(s, k, rx)
  }

  predicate IsoInv(s: State, k: nat)
    requires k < |s.isos| == |s.held|
  {
    HalfBound(s, k, true) && HalfBound(s, k, false) && s.isos[k].ref == Bindings(s.isos[k]) + s.held[k]
  }

  predicate Inv(s: State) {
    && |s.held| == |s.isos|
    && (forall e :: 0 <= e < |s.eps| ==> EpBound(s, e))
    && (forall j :: 0 <= j < |s.streams| ==> StreamBound(s, j))
    && (forall k :: 0 <= k < |s.isos| ==> IsoInv(s, k))
  }

  /** The pool at start. */
  predicate Initial(s: State) {
    && |s.held| == |s.isos|
    && (forall k :: 0 <= k < |s.isos| ==> s.isos[k] == Iso(0, UNUSED, UNUSED) && s.held[k] == 0)
    && (forall e :: 0 <= e < |s.eps| ==> s.eps[e].iso == None)
    && (forall j :: 0 <= j < |s.streams| ==> s.streams[j] == None)
  }

  /** The channel a step changes, or the size of the pool. */
  function Changed(s: State, e: Event): nat
    requires |s.held| == |s.isos| && CanHappen(s, e)
  {
    match e
    case ENew => Free(s.isos, 0)
    case ERef(k) => k
    case EUnref(k) => k
    case EFind(answers) => Found(s.isos, answers, 0)
    case EBindEp(k, _) => k
    case EUnbindEp(e) => s.eps[e].iso.value
    case EBindStream(k, _, _) => k
    case EUnbindStream(j, _) => s.streams[j].value
    case EInitEp(_, _) => |s.isos|
  }

  lemma OthersKeep(s: State, e: Event)
    requires Inv(s) && CanHappen(s, e)
    ensures var u := Step(s, e);
      && |u.isos| == |s.isos| == |u.held| && |u.eps| == |s.eps| && |u.streams| == |s.streams|
      && forall k :: 0 <= k < |s.isos| && k != Changed(s, e) ==> u.isos[k] == s.isos[k] && u.held[k] == s.held[k]
  {}

  lemma CountKeeps(s: State, e: Event, k: nat)
    requires Inv(s) && CanHappen(s, e) && k < |s.isos|
    ensures var u := Step(s, e); k < |u.isos| == |u.held| && u.isos[k].ref == Bindings(u.isos[k]) + u.held[k]
  {
    hide EpAt, StreamAt;
    OthersKeep(s, e);
    assert IsoInv(s, k);
    if e.EUnbindEp? { assert EpBound(s, e.e); }
  }

  lemma EpAtKeeps(s: State, e: Event, k: nat, rx: bool)
    requires Inv(s) && CanHappen(s, e) && k < |s.isos|
    ensures k < |Step(s, e).isos| && EpAt(Step(s, e), k, rx)
  {
    hide StreamAt, StreamBound;
    OthersKeep(s, e);
    assert IsoInv(s, k) && EpAt(s, k, rx);
    if e.EUnbindEp? { assert EpBound(s, e.e); }
  }

  lemma StreamAtKeeps(s: State, e: Event, k: nat, rx: bool)
    requires Inv(s) && CanHappen(s, e) && k < |s.isos|
    ensures k < |Step(s, e).isos| && StreamAt(Step(s, e), k, rx)
  {
    hide EpAt, EpBound;
    OthersKeep(s, e);
    assert IsoInv(s, k) && StreamAt(s, k, rx);
    if e.EUnbindStream? { assert StreamBound(s, e.j); }
  }

  lemma EpKeeps(s: State, e: Event, i: nat)
    requires Inv(s) && CanHappen(s, e) && i < |s.eps|
    ensures i < |Step(s, e).eps| && EpBound(Step(s, e), i)
  {
    OthersKeep(s, e);
    assert EpBound(s, i);
    if s.eps[i].iso != None { assert IsoInv(s, s.eps[i].iso.value); }
    if e.EUnbindEp? { assert EpBound(s, e.e); }
  }

  lemma StreamKeeps(s: State, e: Event, j: nat)
    requires Inv(s) && CanHappen(s, e) && j < |s.streams|
    ensures j < |Step(s, e).streams| && StreamBound(Step(s, e), j)
  {
    OthersKeep(s, e);
    assert StreamBound(s, j);
    if s.streams[j] != None { assert IsoInv(s, s.streams[j].value); }
    if e.EBindStream? { assert IsoInv(s, e.k); }
    if e.EUnbindStream? { assert StreamBound(s, e.j); }
  }

  lemma StepKeeps(s: State, e: Event)
    requires Inv(s) && CanHappen(s, e)
    ensures Inv(Step(s, e))
  {
    var u := Step(s, e);
    OthersKeep(s, e);
    forall k | 0 <= k < |u.isos| ensures IsoInv(u, k) {
      CountKeeps(s, e, k);
      EpAtKeeps(s, e, k, true);
      EpAtKeeps(s, e, k, false);
      StreamAtKeeps(s, e, k, true);
      StreamAtKeeps(s, e, k, false);
    }
    forall i | 0 <= i < |u.eps| ensures EpBound(u, i) { EpKeeps(s, e, i); }
    forall j | 0 <= j < |u.streams| ensures StreamBound(u, j) { StreamKeeps(s, e, j); }
  }

  // ---- whole runs ----

  predicate Runs(s: State, es: seq<Event>)
    requires |s.held| == |s.isos|
    decreases |es|
  {
    es == [] || (CanHappen(s, es[0]) && |Step(s, es[0]).held| == |Step(s, es[0]).isos| && Runs(Step(s, es[0]), es[1..]))
  }

  function Exec(s: State, es: seq<Event>): State
    requires |s.held| == |s.isos| && Runs(s, es)
    decreases |es|
  {
    if es == [] then s else Exec(Step(s, es[0]), es[1..])
  }

  ghost predicate Reachable(s: State) {
    exists s0: State, es: seq<Event> :: Initial(s0) && Runs(s0, es) && s == Exec(s0, es)
  }

  lemma {:induction false} RunKeeps(s: State, es: seq<Event>)
    requires Inv(s) && Runs(s, es)
    ensures Inv(Exec(s, es))
    decreases |es|
  {
    if es != [] {
      StepKeeps(s, es[0]);
      RunKeeps(Step(s, es[0]), es[1..]);
    }
  }

  lemma ReachableKeeps(s: State)
    requires Reachable(s)
    ensures Inv(s)
  {
    var s0, es :| Initial(s0) && Runs(s0, es) && s == Exec(s0, es);
    RunKeeps(s0, es);
  }

  // ---- who uses a channel ----

  /** The endpoints bound to channel `k`, and the streams. */
  function Eps(s: State, k: nat): set<nat> { set e: nat | e < |s.eps| && s.eps[e].iso == Some(k) }

  function Streams(s: State, k: nat): set<nat> { set j: nat | j < |s.streams| && s.streams[j] == Some(k) }

  function Singleton(a: Option<nat>): set<nat> { if a == None then {} else {a.value} }

  lemma PairSize(a: Option<nat>, b: Option<nat>)
    requires a != None ==> a != b
    ensures |Singleton(a) + Singleton(b)| == One(a) + One(b)
  {
    assert Singleton(a) * Singleton(b) == {};
  }

  lemma EpsAre(s: State, k: nat)
    requires Inv(s) && k < |s.isos|
    ensures Eps(s, k) == Singleton(s.isos[k].rx.ep) + Singleton(s.isos[k].tx.ep)
    ensures s.isos[k].rx.ep != None ==> s.isos[k].rx.ep != s.isos[k].tx.ep
  {
    assert IsoInv(s, k);
    assert EpAt(s, k, true) && EpAt(s, k, false);
    forall e | e in Eps(s, k) ensures e in Singleton(s.isos[k].rx.ep) + Singleton(s.isos[k].tx.ep) {
      assert EpBound(s, e);
    }
  }

  lemma StreamsAre(s: State, k: nat)
    requires Inv(s) && k < |s.isos|
    ensures Streams(s, k) == Singleton(s.isos[k].rx.stream) + Singleton(s.isos[k].tx.stream)
    ensures s.isos[k].rx.stream != None ==> s.isos[k].rx.stream != s.isos[k].tx.stream
  {
    assert IsoInv(s, k);
    assert StreamAt(s, k, true) && StreamAt(s, k, false);
    if s.isos[k].rx.stream != None { assert StreamBound(s, s.isos[k].rx.stream.value); }
    forall j | j in Streams(s, k) ensures j in Singleton(s.isos[k].rx.stream) + Singleton(s.isos[k].tx.stream) {
      assert StreamBound(s, j);
    }
  }

  /** The count of a channel is the number of its users: endpoints and streams bound to it
      and references that callers hold. */
  lemma CountIsUsers(s: State, k: nat)
    requires Reachable(s) && k < |s.isos|
    ensures |s.held| == |s.isos| && s.isos[k].ref == |Eps(s, k)| + |Streams(s, k)| + s.held[k]
  {
    ReachableKeeps(s);
    assert IsoInv(s, k);
    EpsAre(s, k);
    StreamsAre(s, k);
    PairSize(s.isos[k].rx.ep, s.isos[k].tx.ep);
    PairSize(s.isos[k].rx.stream, s.isos[k].tx.stream);
  }

  predicate Used(s: State, k: nat)
    requires |s.held| == |s.isos| && k < |s.isos|
  {
    Eps(s, k) != {} || Streams(s, k) != {} || s.held[k] > 0
  }

  /** Allocation hands out a channel nobody uses, and only fails if all are used. */
  lemma NewIsUnused(s: State)
    requires Reachable(s)
    ensures |s.held| == |s.isos|
    ensures var k := Free(s.isos, 0); k < |s.isos| ==> !Used(s, k)
    ensures Free(s.isos, 0) == |s.isos| <==> forall k :: 0 <= k < |s.isos| ==> Used(s, k)
  {
    ReachableKeeps(s);
    forall k | 0 <= k < |s.isos| ensures s.isos[k].ref == 0 <==> !Used(s, k) { CountIsUsers(s, k); }
  }

  /** What is bound to a channel stays until it is unbound itself, whatever others do. */
  lemma BoundStays(s: State, e: Event, k: nat)
    requires Reachable(s) && |s.held| == |s.isos| && CanHappen(s, e) && k < |s.isos|
    ensures var u := Step(s, e);
      && (forall i :: i in Eps(s, k) && i !in Eps(u, k) ==> e == EUnbindEp(i))
      && (forall j :: j in Streams(s, k) && j !in Streams(u, k) ==> e.EUnbindStream? && e.j == j)
  {
    ReachableKeeps(s);
  }

  /** Two endpoints bound to one channel are bound to different halves, and each is what
      bt_bap_iso_get_paired_ep returns for the other. */
  function Paired(s: State, e: nat): Option<nat>
    requires e < |s.eps| && s.eps[e].iso != None && s.eps[e].iso.value < |s.isos|
  {
    var iso := s.isos[s.eps[e].iso.value];
    if iso.rx.ep == Some(e) then iso.tx.ep else iso.rx.ep
  }

  lemma PairedIsOther(s: State, e: nat, f: nat)
    requires Reachable(s) && e < |s.eps| && f < |s.eps| && s.eps[e].iso != None
    ensures s.eps[e].iso.value < |s.isos|
    ensures Paired(s, e) == Some(f) <==> f != e && s.eps[f].iso == s.eps[e].iso
    ensures Paired(s, e) == Some(f) ==> EpIsRx(s.eps[e]) != EpIsRx(s.eps[f])
  {
    ReachableKeeps(s);
    assert EpBound(s, e) && EpBound(s, f);
    var k := s.eps[e].iso.value;
    assert IsoInv(s, k) && EpAt(s, k, true) && EpAt(s, k, false);
  }

  /** What unbinding asserts of an endpoint holds; of a stream it holds in exactly one
      direction; and the count that is then taken down is positive. */
  lemma UnbindIsSafe(s: State, e: nat, j: nat)
    requires Reachable(s)
    ensures e < |s.eps| && s.eps[e].iso != None ==>
      var k := s.eps[e].iso.value;
      k < |s.isos| && s.isos[k].ref > 0 && HalfOf(s.isos[k], EpIsRx(s.eps[e])).ep == Some(e)
    ensures |s.held| == |s.isos|
    ensures j < |s.streams| && s.streams[j] != None ==>
      && s.streams[j].value < |s.isos| && s.isos[s.streams[j].value].ref > 0
      && (CanHappen(s, EUnbindStream(j, A.Sink)) <==> !CanHappen(s, EUnbindStream(j, A.Source)))
  {
    ReachableKeeps(s);
    if e < |s.eps| && s.eps[e].iso != None {
      assert EpBound(s, e);
      assert IsoInv(s, s.eps[e].iso.value);
    }
    if j < |s.streams| && s.streams[j] != None {
      assert StreamBound(s, j);
      assert IsoInv(s, s.streams[j].value);
    }
  }

  // ---- each function of the file ----

  /** The half of a channel a user has: sinks of the server and sources of the client receive. */
  predicate Receives(dir: A.Dir, client: bool) { (dir == A.Sink) != client }

  /** From `a` to `b` channel `k` took or lost a user in one half, and nothing else changed. */
  predicate HalfSet(a: Iso, b: Iso, rx: bool, half: Half, up: bool) {
    && (if up then b.ref == a.ref + 1 else b.ref + 1 == a.ref)
    && b == (if rx then a.(rx := half) else a.(tx := half)).(ref := b.ref)
  }

  predicate OnlyChannel(s: State, u: State, k: nat) {
    |u.isos| == |s.isos| && forall n :: 0 <= n < |s.isos| && n != k ==> u.isos[n] == s.isos[n]
  }

  /** What each function does, by the fields it writes to: an allocation takes the first
      channel without a reference and clears it; binding and unbinding set one half and count;
      a search counts the first channel in use the caller says yes to. */
  lemma StepEffect(s: State, e: Event)
    requires Reachable(s) && |s.held| == |s.isos| && CanHappen(s, e)
    ensures
      var u := Step(s, e);
      match e
      case ENew =>
        && ((forall k :: 0 <= k < |s.isos| ==> s.isos[k].ref > 0) ==> u == s)
        && forall k: nat :: k < |s.isos| && s.isos[k].ref == 0 && (forall n :: 0 <= n < k ==> s.isos[n].ref > 0) ==>
             u == s.(isos := s.isos[k := Iso(1, Half(None, None), Half(None, None))], held := s.held[k := 1])
      case ERef(k) =>
        u == if s.isos[k].ref == 0 then s
             else s.(isos := s.isos[k := s.isos[k].(ref := s.isos[k].ref + 1)], held := s.held[k := s.held[k] + 1])
      case EUnref(k) =>
        && s.isos[k].ref > 0
        && u == s.(isos := s.isos[k := s.isos[k].(ref := s.isos[k].ref - 1)], held := s.held[k := s.held[k] - 1])
      case EFind(answers) =>
        && ((forall k :: 0 <= k < |s.isos| ==> s.isos[k].ref == 0 || !answers[k]) ==> u == s)
        && forall k: nat :: k < |s.isos| && s.isos[k].ref > 0 && answers[k]
                            && (forall n :: 0 <= n < k ==> s.isos[n].ref == 0 || !answers[n]) ==>
             u == s.(isos := s.isos[k := s.isos[k].(ref := s.isos[k].ref + 1)], held := s.held[k := s.held[k] + 1])
      case EBindEp(k, i) =>
        var rx, ep, iso := Receives(s.eps[i].dir, s.eps[i].client), s.eps[i], s.isos[k];
        && u == s.(isos := u.isos, eps := s.eps[i := ep.(iso := Some(k))]) && OnlyChannel(s, u, k)
        && HalfSet(iso, u.isos[k], rx, (if rx then iso.rx else iso.tx).(ep := Some(i)), true)
      case EUnbindEp(i) =>
        var rx, ep, k := Receives(s.eps[i].dir, s.eps[i].client), s.eps[i], s.eps[i].iso.value;
        && k < |s.isos| && u == s.(isos := u.isos, eps := s.eps[i := ep.(iso := None)]) && OnlyChannel(s, u, k)
        && HalfSet(s.isos[k], u.isos[k], rx, (if rx then s.isos[k].rx else s.isos[k].tx).(ep := None), false)
      case EBindStream(k, j, dir) =>
        var rx, iso := dir == A.Source, s.isos[k];
        && u == s.(isos := u.isos, streams := s.streams[j := Some(k)]) && OnlyChannel(s, u, k)
        && HalfSet(iso, u.isos[k], rx, (if rx then iso.rx else iso.tx).(stream := Some(j)), true)
      case EUnbindStream(j, dir) =>
        var rx, k := dir == A.Source, s.streams[j].value;
        && u == s.(isos := u.isos, streams := s.streams[j := None]) && OnlyChannel(s, u, k)
        && HalfSet(s.isos[k], u.isos[k], rx, (if rx then s.isos[k].rx else s.isos[k].tx).(stream := None), false)
      case EInitEp(i, dir) => u == s.(eps := s.eps[i := s.eps[i].(dir := dir)])
  {
    ReachableKeeps(s);
    match e {
      case ENew => NewEffect(s);
      case EFind(answers) => FindEffect(s, answers);
      case EUnref(k) => CountKnown(s, k);
      case EUnbindEp(i) => assert EpBound(s, i); CountKnown(s, s.eps[i].iso.value);
      case EUnbindStream(j, dir) => CountKnown(s, s.streams[j].value);
      case _ =>
    }
  }

  /** A channel with a reference held or anything bound has a positive count. */
  lemma CountKnown(s: State, k: nat)
    requires Inv(s) && k < |s.isos|
    ensures |s.held| == |s.isos| && s.isos[k].ref == Bindings(s.isos[k]) + s.held[k]
  {
    assert IsoInv(s, k);
  }

  lemma NewEffect(s: State)
    requires Inv(s)
    ensures |s.held| == |s.isos|
    ensures
      var u := Step(s, ENew);
      && ((forall k :: 0 <= k < |s.isos| ==> s.isos[k].ref > 0) ==> u == s)
      && forall k: nat :: k < |s.isos| && s.isos[k].ref == 0 && (forall n :: 0 <= n < k ==> s.isos[n].ref > 0) ==>
           u == s.(isos := s.isos[k := Iso(1, Half(None, None), Half(None, None))], held := s.held[k := 1])
  {
    var k := Free(s.isos, 0);
    if k < |s.isos| { CountKnown(s, k); }
  }

  lemma FindEffect(s: State, answers: seq<bool>)
    requires Inv(s) && |answers| == |s.isos|
    ensures |s.held| == |s.isos|
    ensures
      var u := Step(s, EFind(answers));
      && ((forall k :: 0 <= k < |s.isos| ==> s.isos[k].ref == 0 || !answers[k]) ==> u == s)
      && forall k: nat :: k < |s.isos| && s.isos[k].ref > 0 && answers[k]
                          && (forall n :: 0 <= n < k ==> s.isos[n].ref == 0 || !answers[n]) ==>
           u == s.(isos := s.isos[k := s.isos[k].(ref := s.isos[k].ref + 1)], held := s.held[k := s.held[k] + 1])
  {
    hide StreamBound, EpBound, IsoInv;
    var k := Found(s.isos, answers, 0);
    if k < |s.isos| { assert !(s.isos[k].ref == 0 || !answers[k]); }
  }
}
