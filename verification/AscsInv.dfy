/** What every event of the audio stream endpoints keeps. */
module AscsInv {
  import opened Prelude
  import opened AscsSpec

  // ---- one endpoint ----

  /** Started was called last, of Started and Stopped. */
  function Playing(log: seq<Callback>): bool {
    if log == [] then false else
    match log[|log| - 1]
    case Started => true
    case Stopped(_) => false
    case _ => Playing(log[..|log| - 1])
  }

  /** Started is called only when not playing, Stopped only when playing and with a reason. */
  predicate Alternates(log: seq<Callback>) {
    log != [] ==>
      && Alternates(log[..|log| - 1])
      && match log[|log| - 1]
         case Started => !Playing(log[..|log| - 1])
         case Stopped(reason) => Playing(log[..|log| - 1]) && reason != SUCCESS
         case _ => true
  }

  /** The pending transition is in the table; a source leaves Streaming for QoS
      Configured only after link loss, and never leaves Enabling for it. */
  predicate Legal(a: Ase) {
    && Valid(a.dir, a.linkLoss, a.state, a.pending)
    && !(a.dir == Source && a.state == Enabling && a.pending == QosConfigured)
  }

  predicate AseInv(a: Ase) {
    && (a.conn == None ==> a.state == Idle && a.work == NotQueued && a.iso == None && !a.disconnect)
    && (a.state != Idle ==> a.conn != None && a.stream)
    && (a.work != NotQueued ==> a.stream && Legal(a))
    && (a.state == Disabling ==> a.dir == Source)
    && (a.iso != None ==> a.state != Idle)
    && Alternates(a.log)
    && (Playing(a.log) <==> a.state == Streaming)
  }

  // ---- endpoints and channels ----

  predicate SameCis(a: Ase, b: Ase) { a.conn == b.conn && a.cig == b.cig && a.cis == b.cis }

  function Users(iso: Iso): nat { (if iso.rx == None then 0 else 1) + (if iso.tx == None then 0 else 1) }

  /** The endpoint points to a channel whose slot points back. */
  predicate AseBound(s: State, i: nat)
    requires i < |s.ases|
  {
    var a := s.ases[i];
    a.iso != None ==> a.iso.value < |s.isos| && Slot(s.isos[a.iso.value], a.dir) == Some(i)
  }

  predicate SlotBound(s: State, k: nat, dir: Dir)
    requires k < |s.isos|
  {
    var ep := Slot(s.isos[k], dir);
    ep != None ==> ep.value < |s.ases| && s.ases[ep.value].iso == Some(k) && s.ases[ep.value].dir == dir
  }

  predicate IsoInv(s: State, k: nat)
    requires k < |s.isos|
  {
    SlotBound(s, k, Sink) && SlotBound(s, k, Source) && s.isos[k].ref == Users(s.isos[k])
  }

  /** Endpoints share a channel exactly when they name the same CIS of the same link. */
  predicate Shares(s: State, i: nat, j: nat)
    requires i < |s.ases| && j < |s.ases|
  {
    var a, b := s.ases[i], s.ases[j];
    a.iso != None && b.iso != None ==> (a.iso == b.iso <==> SameCis(a, b))
  }

  /** A connection uses an ASE id once. */
  predicate OneEach(s: State, i: nat, j: nat)
    requires i < |s.ases| && j < |s.ases|
  {
    i != j && s.ases[i].conn != None && s.ases[i].conn == s.ases[j].conn ==> s.ases[i].id != s.ases[j].id
  }

  predicate Linked(s: State) {
    && (forall i :: 0 <= i < |s.ases| ==> AseBound(s, i))
    && (forall k :: 0 <= k < |s.isos| ==> IsoInv(s, k))
    && (forall i, j :: 0 <= i < |s.ases| && 0 <= j < |s.ases| ==> Shares(s, i, j))
    && (forall i, j :: 0 <= i < |s.ases| && 0 <= j < |s.ases| ==> OneEach(s, i, j))
  }

  predicate AsesInv(s: State) {
    forall i :: 0 <= i < |s.ases| ==> AseInv(s.ases[i])
  }

  predicate Inv(s: State) { AsesInv(s) && Linked(s) }
}
