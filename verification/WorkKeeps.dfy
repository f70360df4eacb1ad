/** Every elementary change the module makes keeps the invariant. */
module WorkKeeps {
  import opened WorkState
  import opened WorkSpec
  import opened WorkInv

  // ---- lists of tokens ----

  lemma {:induction false} TokensConcat(items: map<Work, Item>, a: seq<Work>, b: seq<Work>)
    ensures Tokens(items, a + b) == Tokens(items, a) + Tokens(items, b)
  {
    if a == [] {
      assert a + b == b;
    } else {
      assert (a + b)[1..] == a[1..] + b;
      TokensConcat(items, a[1..], b);
    }
  }

  /** Only the tokens of the client items of a list matter for its tokens. */
  lemma {:induction false} TokensFrame(items: map<Work, Item>, other: map<Work, Item>, p: seq<Work>)
    requires forall i :: 0 <= i < |p| && p[i].kind != Flusher ==>
               p[i] in items && p[i] in other && items[p[i]].token == other[p[i]].token
    ensures Tokens(items, p) == Tokens(other, p)
  {
    if p != [] {
      assert p[0].kind != Flusher ==> p[0] in items;
      forall i | 0 <= i < |p[1..]| && p[1..][i].kind != Flusher
        ensures p[1..][i] in items && p[1..][i] in other && items[p[1..][i]].token == other[p[1..][i]].token
      {
        assert p[1..][i] == p[i + 1];
      }
      TokensFrame(items, other, p[1..]);
    }
  }

  lemma {:induction false} TokensMember(items: map<Work, Item>, p: seq<Work>, t: nat)
    ensures t in Tokens(items, p) <==>
            exists i :: 0 <= i < |p| && p[i] in items && p[i].kind != Flusher && items[p[i]].token == t
  {
    if p != [] {
      TokensMember(items, p[1..], t);
      if t in Tokens(items, p[1..]) {
        var i :| 0 <= i < |p[1..]| && p[1..][i] in items && p[1..][i].kind != Flusher && items[p[1..][i]].token == t;
        assert p[i + 1] == p[1..][i];
      }
      if i :| 0 < i < |p| && p[i] in items && p[i].kind != Flusher && items[p[i]].token == t {
        assert p[1..][i - 1] == p[i];
      }
    }
  }

  ghost predicate Ascending(p: seq<nat>) {
    forall i, j :: 0 <= i < j < |p| ==> p[i] < p[j]
  }

  lemma {:induction false} KeptMember(n: nat, cancelled: set<nat>, t: nat)
    ensures t in Kept(n, cancelled) <==> t < n && t !in cancelled
  {
    if n > 0 { KeptMember(n - 1, cancelled, t); }
  }

  lemma {:induction false} KeptAscending(n: nat, cancelled: set<nat>)
    ensures Ascending(Kept(n, cancelled))
    ensures forall i :: 0 <= i < |Kept(n, cancelled)| ==> Kept(n, cancelled)[i] < n
  {
    if n > 0 { KeptAscending(n - 1, cancelled); }
  }

  lemma {:induction false} KeptIgnores(n: nat, cancelled: set<nat>, t: nat)
    requires t >= n
    ensures Kept(n, cancelled + {t}) == Kept(n, cancelled)
  {
    if n > 0 { KeptIgnores(n - 1, cancelled, t); }
  }

  lemma CutFront(m: seq<nat>, last: nat, i: nat)
    requires i < |m|
    ensures (m + [last])[i] == m[i] && (m + [last])[..i] + (m + [last])[i + 1..] == m[..i] + m[i + 1..] + [last]
  {}

  lemma CutLast(m: seq<nat>, last: nat)
    ensures (m + [last])[..|m|] + (m + [last])[|m| + 1..] == m
  {}

  lemma KeptBelow(n: nat, cancelled: set<nat>, i: nat)
    requires i < |Kept(n, cancelled)|
    ensures Kept(n, cancelled)[i] < n
  {
    KeptAscending(n, cancelled);
  }

  lemma KeptStep(n: nat, cancelled: set<nat>)
    requires n > 0
    ensures Kept(n, cancelled) == if n - 1 in cancelled then Kept(n - 1, cancelled) else Kept(n - 1, cancelled) + [n - 1]
  {}

  /** Cancelling one more token takes exactly that token out. */
  lemma {:induction false} KeptCut(n: nat, cancelled: set<nat>, i: nat)
    requires i < |Kept(n, cancelled)|
    ensures Kept(n, cancelled + {Kept(n, cancelled)[i]}) == Kept(n, cancelled)[..i] + Kept(n, cancelled)[i + 1..]
  {
    assert n > 0;
    hide Kept;
    var k, m := Kept(n, cancelled), Kept(n - 1, cancelled);
    KeptStep(n, cancelled);
    KeptStep(n, cancelled + {k[i]});
    if n - 1 in cancelled {
      KeptCut(n - 1, cancelled, i);
    } else if i == |m| {
      KeptIgnores(n - 1, cancelled, n - 1);
      CutLast(m, n - 1);
    } else {
      KeptBelow(n - 1, cancelled, i);
      KeptCut(n - 1, cancelled, i);
      CutFront(m, n - 1, i);
    }
  }

  /** Cutting out one element leaves the others. */
  lemma CutOne<T>(p: seq<T>, i: nat)
    requires i < |p|
    ensures forall j :: 0 <= j < |p| && j != i ==> p[j] in p[..i] + p[i + 1..]
  {
    var r := p[..i] + p[i + 1..];
    forall j | 0 <= j < |p| && j != i ensures p[j] in r {
      assert p[j] == if j < i then r[j] else r[j - 1];
    }
  }

  // ---- what a change of one item and one queue leaves alone ----

  ghost predicate SamePlace(a: Item, b: Item) {
    && a.running == b.running && a.queued == b.queued && a.flushing == b.flushing
    && a.queue == b.queue && a.token == b.token && a.home == b.home && a.targets == b.targets
  }

  /** `w` is neither pending on `r` nor run by it. */
  ghost predicate Apart(s: State, r: WorkQ, w: Work)
    requires r in s.queues
  {
    w !in s.queues[r].pending && s.queues[r].worker != Running(w)
  }

  /** `u` is `s` but for item `w` and queue `q` (null: none). */
  ghost predicate Differ(s: State, u: State, w: Work?, q: WorkQ?) {
    && u.items.Keys == s.items.Keys && u.queues.Keys == s.queues.Keys
    && u.cancellers == s.cancellers && u.cancels == s.cancels
    && (forall v :: v in s.items && v != w ==> u.items[v] == s.items[v])
    && (forall r :: r in s.queues && r != q ==> u.queues[r] == s.queues[r])
    && (w != null ==> w in s.items)
    && (q != null ==> q in s.queues)
  }

  /** Items other than `w` stay where they are. */
  ghost predicate OthersStay(old': Queue, new': Queue, w: Work?) {
    && (forall i :: 0 <= i < |old'.pending| && old'.pending[i] != w ==> old'.pending[i] in new'.pending)
    && (old'.worker.Running? && old'.worker.work != w ==> new'.worker == old'.worker)
  }

  ghost predicate Changes(s: State, u: State, w: Work?, q: WorkQ?) {
    && Differ(s, u, w, q)
    && (q != null ==> OthersStay(s.queues[q], u.queues[q], w))
    && (w != null ==>
          || SamePlace(s.items[w], u.items[w])
          || forall r :: r in s.queues && r != q ==> Apart(s, r, w))
  }

  lemma OtherItem(s: State, u: State, w: Work?, q: WorkQ?, v: Work)
    requires Changes(s, u, w, q) && v in s.items && v != w && ItemInv(s, v)
    ensures ItemInv(u, v)
  {}

  lemma OtherQueue(s: State, u: State, w: Work?, q: WorkQ?, r: WorkQ)
    requires Changes(s, u, w, q) && r in s.queues && r != q && QueueInv(s, r)
    ensures QueueInv(u, r)
  {
    var p := s.queues[r].pending;
    forall i | 0 <= i < |p| ensures WaitsOn(u, r, p[i]) { assert WaitsOn(s, r, p[i]); }
  }

  lemma Members(s: State, q: WorkQ)
    requires q in s.queues && QueueInv(s, q)
    ensures forall i :: 0 <= i < |s.queues[q].pending| ==> s.queues[q].pending[i] in s.items
  {
    forall i | 0 <= i < |s.queues[q].pending| ensures s.queues[q].pending[i] in s.items {
      assert WaitsOn(s, q, s.queues[q].pending[i]);
    }
  }

  lemma OtherAccounted(s: State, u: State, w: Work?, q: WorkQ?, r: WorkQ)
    requires Changes(s, u, w, q) && r in s.queues && r != q && QueueInv(s, r) && Accounted(s, r)
    ensures Accounted(u, r)
  {
    Members(s, r);
    TokensFrame(s.items, u.items, s.queues[r].pending);
  }

  lemma OtherFlush(s: State, u: State, w: Work?, q: WorkQ?, f: Work)
    requires Changes(s, u, w, q) && f in s.items && f != w && FlushInv(s, f)
    requires q == null || s.items[f].home != q
    ensures FlushInv(u, f)
  {}

  lemma OtherCancel(s: State, u: State, w: Work?, q: WorkQ?, c: Canceller)
    requires Changes(s, u, w, q) && c in s.cancellers && CancelInv(s, c)
    requires q == null || s.cancellers[c].on != q
    ensures CancelInv(u, c)
  {}

  lemma OtherItems(s: State, u: State, w: Work?, q: WorkQ?)
    requires Changes(s, u, w, q) && (forall v :: v in s.items ==> ItemInv(s, v))
    requires w != null ==> ItemInv(u, w)
    ensures forall v :: v in u.items ==> ItemInv(u, v)
  {
    forall v | v in u.items && v != w ensures ItemInv(u, v) { OtherItem(s, u, w, q, v); }
  }

  lemma OtherQueues(s: State, u: State, w: Work?, q: WorkQ?)
    requires Changes(s, u, w, q) && (forall r :: r in s.queues ==> QueueInv(s, r) && Accounted(s, r))
    requires q != null ==> QueueInv(u, q) && Accounted(u, q)
    ensures forall r :: r in u.queues ==> QueueInv(u, r) && Accounted(u, r)
  {
    forall r | r in u.queues && r != q ensures QueueInv(u, r) && Accounted(u, r) {
      OtherQueue(s, u, w, q, r);
      OtherAccounted(s, u, w, q, r);
    }
  }

  /** What holds of the flushers and cancellers that wait on `q`. */
  ghost predicate WaitersInv(s: State, q: WorkQ?) {
    && (forall f :: f in s.items && f.kind == Flusher && s.items[f].home == q ==> FlushInv(s, f))
    && (forall c :: c in s.cancellers && s.cancellers[c].on == q ==> CancelInv(s, c))
  }

  lemma OtherWaiters(s: State, u: State, w: Work?, q: WorkQ?)
    requires Changes(s, u, w, q)
    requires forall f :: f in s.items && f.kind == Flusher ==> FlushInv(s, f)
    requires forall c :: c in s.cancellers ==> CancelInv(s, c)
    requires w != null && w.kind == Flusher ==> FlushInv(u, w)
    requires q != null ==> WaitersInv(u, q)
    ensures forall f :: f in u.items && f.kind == Flusher ==> FlushInv(u, f)
    ensures forall c :: c in u.cancellers ==> CancelInv(u, c)
  {
    forall f | f in u.items && f.kind == Flusher ensures FlushInv(u, f) {
      if f != w && (q == null || u.items[f].home != q) { OtherFlush(s, u, w, q, f); }
    }
    forall c | c in u.cancellers ensures CancelInv(u, c) {
      if q == null || u.cancellers[c].on != q { OtherCancel(s, u, w, q, c); }
    }
  }

  lemma OtherList(s: State, u: State, w: Work?, q: WorkQ?)
    requires Changes(s, u, w, q) && CancelListInv(s)
    ensures CancelListInv(u)
  {}

  /** So only `w`, `q`, and what waits on `q` has to be looked at. */
  lemma OthersKeep(s: State, u: State, w: Work?, q: WorkQ?)
    requires Inv(s) && Changes(s, u, w, q)
    requires w != null ==> ItemInv(u, w) && (w.kind == Flusher ==> FlushInv(u, w))
    requires q != null ==> QueueInv(u, q) && Accounted(u, q) && WaitersInv(u, q)
    ensures Inv(u)
  {
    OtherItems(s, u, w, q);
    OtherQueues(s, u, w, q);
    OtherWaiters(s, u, w, q);
    OtherList(s, u, w, q);
  }

  // ---- where an item is ----

  /** An item that is not queued is in no pending list. */
  lemma NotPending(s: State, w: Work)
    requires (forall q :: q in s.queues ==> QueueInv(s, q)) && w in s.items
    requires if w.kind == Flusher then !s.items[w].flushing || s.items[w].running else !s.items[w].queued
    ensures forall q :: q in s.queues ==> w !in s.queues[q].pending
  {
    forall q | q in s.queues ensures w !in s.queues[q].pending {
      assert QueueInv(s, q);
      forall i | 0 <= i < |s.queues[q].pending| ensures s.queues[q].pending[i] != w {
        assert WaitsOn(s, q, s.queues[q].pending[i]);
      }
    }
  }

  /** An item pending on a queue, or run by it, is on no other queue. */
  lemma OnOneQueue(s: State, q: WorkQ, w: Work)
    requires Linked(s) && q in s.queues && !Apart(s, q, w)
    ensures forall r :: r in s.queues && r != q ==> Apart(s, r, w)
  {
    assert QueueInv(s, q) && (w in s.queues[q].pending ==> WaitsOn(s, q, w));
    assert ItemInv(s, w);
    forall r | r in s.queues && r != q ensures Apart(s, r, w) {
      assert QueueInv(s, r) && (w in s.queues[r].pending ==> WaitsOn(s, r, w));
    }
  }

  /** The submission being run no longer waits. */
  lemma RunningNotWaiting(s: State, q: WorkQ)
    requires q in s.queues && Accounted(s, q) && s.queues[q].begun != []
    ensures NotWaiting(s.items, s.queues[q].pending, s.queues[q].begun[|s.queues[q].begun| - 1])
  {
    var qu := s.queues[q];
    var n, ts := |qu.begun|, Tokens(s.items, qu.pending);
    var k := qu.begun + ts;
    KeptAscending(|qu.accepted|, qu.cancelled);
    TokensMember(s.items, qu.pending, qu.begun[n - 1]);
    forall j | 0 <= j < |ts| ensures ts[j] != qu.begun[n - 1] {
      assert k[n - 1] < k[n + j];
    }
  }

  // ---- flags of one item, flags of one queue ----

  lemma TouchKeeps(s: State, w: Work, it: Item)
    requires Inv(s) && w in s.items && SamePlace(s.items[w], it)
    requires ItemInv(s.(items := s.items[w := it]), w)
    ensures Inv(s.(items := s.items[w := it]))
  {
    var u := s.(items := s.items[w := it]);
    if w.kind == Flusher { assert FlushInv(s, w); TouchFlush(s, w, it); }
    OthersKeep(s, u, w, null);
  }

  lemma TouchFlush(s: State, w: Work, it: Item)
    requires w in s.items && SamePlace(s.items[w], it) && FlushInv(s, w)
    ensures FlushInv(s.(items := s.items[w := it]), w)
  {}

  ghost predicate SameLists(a: Queue, b: Queue) {
    && a.pending == b.pending && a.accepted == b.accepted && a.cancelled == b.cancelled && a.begun == b.begun
    && (a.worker == b.worker || (!a.worker.Running? && !b.worker.Running?))
  }

  /** The part of the queue invariant that flags and semaphores enter. */
  ghost predicate FlagsInv(qu: Queue) {
    && (qu.busy <==> qu.worker.Running?)
    && (qu.started <==> qu.worker != Absent)
    && (!qu.started ==> qu.pending == [])
    && qu.notify <= 1 && qu.drainSem <= 1
    && (qu.started && qu.plugged && !qu.drain ==> qu.pending == [] && !qu.worker.Running?)
    && (qu.worker == Blocked && qu.notify == 0 ==> qu.pending == [] && !qu.drain)
  }

  lemma ControlQueue(s: State, q: WorkQ, qu: Queue)
    requires q in s.queues && QueueInv(s, q) && SameLists(s.queues[q], qu) && FlagsInv(qu)
    ensures QueueInv(s.(queues := s.queues[q := qu]), q)
  {
    var u, p := s.(queues := s.queues[q := qu]), qu.pending;
    forall i | 0 <= i < |p| ensures WaitsOn(u, q, p[i]) { assert WaitsOn(s, q, p[i]); }
  }

  lemma ControlWaiters(s: State, q: WorkQ, qu: Queue)
    requires q in s.queues && WaitersInv(s, q) && SameLists(s.queues[q], qu)
    ensures WaitersInv(s.(queues := s.queues[q := qu]), q)
  {
    var u := s.(queues := s.queues[q := qu]);
    forall f | f in u.items && f.kind == Flusher && u.items[f].home == q ensures FlushInv(u, f) { assert FlushInv(s, f); }
    forall c | c in u.cancellers && u.cancellers[c].on == q ensures CancelInv(u, c) { assert CancelInv(s, c); }
  }

  lemma ControlKeeps(s: State, q: WorkQ, qu: Queue)
    requires Inv(s) && q in s.queues && SameLists(s.queues[q], qu) && FlagsInv(qu)
    ensures Inv(s.(queues := s.queues[q := qu]))
  {
    assert QueueInv(s, q) && Accounted(s, q);
    ControlQueue(s, q, qu);
    ControlWaiters(s, q, qu);
    OthersKeep(s, s.(queues := s.queues[q := qu]), null, q);
  }

  // ---- an accepted submission ----

  ghost predicate CanEnqueue(s: State, w: Work, q: WorkQ) {
    && Client(s, w) && q in s.queues
    && !s.items[w].queued && !s.items[w].canceling && (s.items[w].running ==> s.items[w].queue == q)
    && s.queues[q].started && !(s.queues[q].plugged && !s.queues[q].drain)
  }

  lemma EnqueueQueue(s: State, w: Work, q: WorkQ)
    requires CanEnqueue(s, w, q) && QueueInv(s, q) && w !in s.queues[q].pending
    ensures QueueInv(Enqueue(s, w, q), q)
  {
    var u, p := Enqueue(s, w, q), s.queues[q].pending;
    forall i | 0 <= i < |p| ensures WaitsOn(u, q, p[i]) { assert WaitsOn(s, q, p[i]); }
  }

  lemma EnqueueAccounted(s: State, w: Work, q: WorkQ)
    requires CanEnqueue(s, w, q) && QueueInv(s, q) && Accounted(s, q) && w !in s.queues[q].pending
    ensures Accounted(Enqueue(s, w, q), q)
  {
    var u, p := Enqueue(s, w, q), s.queues[q].pending;
    Members(s, q);
    TokensFrame(s.items, u.items, p);
    TokensConcat(u.items, p, [w]);
    assert Tokens(u.items, [w]) == [|s.queues[q].accepted|] + Tokens(u.items, []);
  }

  lemma EnqueueWaiters(s: State, w: Work, q: WorkQ)
    requires CanEnqueue(s, w, q) && WaitersInv(s, q) && w !in s.queues[q].pending
    ensures WaitersInv(Enqueue(s, w, q), q)
  {
    var u := Enqueue(s, w, q);
    forall f | f in u.items && f.kind == Flusher && u.items[f].home == q ensures FlushInv(u, f) { assert FlushInv(s, f); }
    forall c | c in u.cancellers && u.cancellers[c].on == q ensures CancelInv(u, c) { assert CancelInv(s, c); }
  }

  lemma EnqueueKeeps(s: State, w: Work, q: WorkQ)
    requires Inv(s) && CanEnqueue(s, w, q)
    ensures Inv(Enqueue(s, w, q))
  {
    NotPending(s, w);
    assert ItemInv(s, w) && QueueInv(s, q);
    EnqueueQueue(s, w, q);
    EnqueueAccounted(s, w, q);
    EnqueueWaiters(s, w, q);
    EnqueueChanges(s, w, q);
    OthersKeep(s, Enqueue(s, w, q), w, q);
  }

  lemma EnqueueChanges(s: State, w: Work, q: WorkQ)
    requires Linked(s) && CanEnqueue(s, w, q) && (forall r :: r in s.queues ==> w !in s.queues[r].pending)
    ensures Changes(s, Enqueue(s, w, q), w, q) && ItemInv(Enqueue(s, w, q), w)
  {
    assert ItemInv(s, w);
    forall r | r in s.queues && r != q ensures Apart(s, r, w) { assert QueueInv(s, r); }
  }

  // ---- a flusher put behind an item, or first ----

  ghost predicate CanPlace(s: State, w: Work, f: Work, q: WorkQ) {
    && Client(s, w) && FreeFlusher(s, f) && q in s.queues && s.items[w].queue == q
    && NeedsFlush(s.items[w])
  }

  /** Where the flusher goes. */
  ghost function Place(s: State, w: Work, q: WorkQ): nat
    requires w in s.items && q in s.queues
    ensures Place(s, w, q) <= |s.queues[q].pending|
  {
    if s.items[w].queued && w in s.queues[q].pending then IndexOf(s.queues[q].pending, w) + 1 else 0
  }

  lemma PlaceList(s: State, w: Work, f: Work, q: WorkQ)
    requires CanPlace(s, w, f, q)
    ensures var p, i := s.queues[q].pending, Place(s, w, q);
            PlaceFlusher(s, w, f, q).queues[q].pending == p[..i] + [f] + p[i..]
  {}

  lemma PlaceQueue(s: State, w: Work, f: Work, q: WorkQ)
    requires CanPlace(s, w, f, q) && QueueInv(s, q) && ItemInv(s, w) && f !in s.queues[q].pending
    ensures QueueInv(PlaceFlusher(s, w, f, q), q)
  {
    var u, p, i := PlaceFlusher(s, w, f, q), s.queues[q].pending, Place(s, w, q);
    PlaceList(s, w, f, q);
    forall j | 0 <= j < |p| ensures WaitsOn(u, q, p[j]) {
      assert WaitsOn(s, q, p[j]);
      PlaceWaits(s, w, f, q, p[j]);
    }
    PlaceNoDup(p, i, f);
  }

  lemma PlaceNoDup(p: seq<Work>, i: nat, f: Work)
    requires NoDup(p) && i <= |p| && f !in p
    ensures NoDup(p[..i] + [f] + p[i..])
  {}

  lemma PlaceWaits(s: State, w: Work, f: Work, q: WorkQ, v: Work)
    requires CanPlace(s, w, f, q) && WaitsOn(s, q, v) && v != f
    ensures WaitsOn(PlaceFlusher(s, w, f, q), q, v)
  {}

  lemma PlaceAccounted(s: State, w: Work, f: Work, q: WorkQ)
    requires CanPlace(s, w, f, q) && QueueInv(s, q) && Accounted(s, q) && f !in s.queues[q].pending
    ensures Accounted(PlaceFlusher(s, w, f, q), q)
  {
    var u, p, i := PlaceFlusher(s, w, f, q), s.queues[q].pending, Place(s, w, q);
    PlaceList(s, w, f, q);
    Members(s, q);
    TokensFrame(s.items, u.items, p);
    AddFlusher(u.items, p, i, f);
  }

  lemma AddFlusher(items: map<Work, Item>, p: seq<Work>, i: nat, f: Work)
    requires i <= |p| && f.kind == Flusher
    ensures Tokens(items, p[..i] + [f] + p[i..]) == Tokens(items, p)
  {
    TokensConcat(items, p[..i], p[i..]);
    assert p[..i] + p[i..] == p;
    TokensConcat(items, p[..i] + [f], p[i..]);
    TokensConcat(items, p[..i], [f]);
    assert Tokens(items, [f]) == [] + Tokens(items, []);
  }

  /** The submissions to wait for are in front of the flusher or running. */
  lemma PlaceFlush(s: State, w: Work, f: Work, q: WorkQ)
    requires CanPlace(s, w, f, q) && QueueInv(s, q) && Accounted(s, q) && ItemInv(s, w) && f !in s.queues[q].pending
    ensures FlushInv(PlaceFlusher(s, w, f, q), f)
  {
    var u, p, i := PlaceFlusher(s, w, f, q), s.queues[q].pending, Place(s, w, q);
    PlaceList(s, w, f, q);
    Members(s, q);
    if s.queues[q].begun != [] { RunningNotWaiting(s, q); }
    if s.items[w].queued { assert WaitsOn(s, q, w); }
    if s.items[w].running { assert RunsOn(s, q, w); }
    var p' := u.queues[q].pending;
    forall t, a, b | t in u.items[f].targets && 0 <= a < b < |p'| && p'[a] == f && p'[b].kind != Flusher && p'[b] in u.items
      ensures u.items[p'[b]].token != t
    {
      assert a == i && p'[b] == p[b - 1] && WaitsOn(s, q, p[b - 1]);
    }
  }

  lemma PlaceOther(s: State, w: Work, f: Work, q: WorkQ, g: Work)
    requires CanPlace(s, w, f, q) && f !in s.queues[q].pending
    requires g in s.items && g != f && s.items[g].home == q && FlushInv(s, g)
    ensures FlushInv(PlaceFlusher(s, w, f, q), g)
  {
    PlaceList(s, w, f, q);
  }

  lemma PlaceCancel(s: State, w: Work, f: Work, q: WorkQ, c: Canceller)
    requires CanPlace(s, w, f, q) && c in s.cancellers && s.cancellers[c].on == q && CancelInv(s, c)
    ensures CancelInv(PlaceFlusher(s, w, f, q), c)
  {
    PlaceList(s, w, f, q);
  }

  lemma PlaceWaiters(s: State, w: Work, f: Work, q: WorkQ)
    requires CanPlace(s, w, f, q) && WaitersInv(s, q) && f !in s.queues[q].pending
    requires FlushInv(PlaceFlusher(s, w, f, q), f)
    ensures WaitersInv(PlaceFlusher(s, w, f, q), q)
  {
    var u := PlaceFlusher(s, w, f, q);
    forall g | g in u.items && g != f && g.kind == Flusher && u.items[g].home == q ensures FlushInv(u, g) {
      PlaceOther(s, w, f, q, g);
    }
    forall c | c in u.cancellers && u.cancellers[c].on == q ensures CancelInv(u, c) { PlaceCancel(s, w, f, q, c); }
  }

  lemma PlaceChanges(s: State, w: Work, f: Work, q: WorkQ)
    requires Linked(s) && CanPlace(s, w, f, q) && (forall r :: r in s.queues ==> f !in s.queues[r].pending)
    ensures Changes(s, PlaceFlusher(s, w, f, q), f, q) && ItemInv(PlaceFlusher(s, w, f, q), f)
  {
    PlaceList(s, w, f, q);
    var p, i := s.queues[q].pending, Place(s, w, q);
    assert f in p[..i] + [f] + p[i..];
    forall r | r in s.queues && r != q ensures Apart(s, r, f) { assert QueueInv(s, r) && ItemInv(s, f); }
  }

  lemma PlaceKeeps(s: State, w: Work, f: Work, q: WorkQ)
    requires Inv(s) && CanPlace(s, w, f, q)
    ensures Inv(PlaceFlusher(s, w, f, q))
  {
    NotPending(s, f);
    assert ItemInv(s, w) && QueueInv(s, q) && Accounted(s, q);
    PlaceQueue(s, w, f, q);
    PlaceAccounted(s, w, f, q);
    PlaceFlush(s, w, f, q);
    PlaceWaiters(s, w, f, q);
    PlaceChanges(s, w, f, q);
    OthersKeep(s, PlaceFlusher(s, w, f, q), f, q);
  }

  // ---- a submission removed by a cancel ----

  ghost predicate CanDequeue(s: State, w: Work, q: WorkQ) {
    Client(s, w) && q in s.queues && s.items[w].queued && s.items[w].queue == q
  }

  lemma DequeueQueue(s: State, w: Work, q: WorkQ)
    requires CanDequeue(s, w, q) && QueueInv(s, q)
    ensures QueueInv(Dequeue(s, w, q), q)
  {
    var u, p := Dequeue(s, w, q), s.queues[q].pending;
    forall i | 0 <= i < |p| && p[i] != w ensures WaitsOn(u, q, p[i]) { assert WaitsOn(s, q, p[i]); }
  }

  /** Taking an item out of a list and cancelling its token balance. */
  lemma CutToken(items: map<Work, Item>, begun: seq<nat>, p: seq<Work>, i: nat, n: nat, cancelled: set<nat>)
    requires i < |p| && p[i] in items && p[i].kind != Flusher
    requires begun + Tokens(items, p) == Kept(n, cancelled)
    ensures begun + Tokens(items, p[..i] + p[i + 1..]) == Kept(n, cancelled + {items[p[i]].token})
  {
    var a, b, t := p[..i], p[i + 1..], items[p[i]].token;
    SplitTokens(items, p, i);
    TokensConcat(items, a, b);
    var x, y := begun + Tokens(items, a), Tokens(items, b);
    hide Kept, Tokens;
    Around(begun, Tokens(items, a), t, y);
    KeptCut(n, cancelled, |x|);
    Associative(begun, Tokens(items, a), y);
  }

  lemma Around(begun: seq<nat>, a: seq<nat>, t: nat, b: seq<nat>)
    ensures var k, x := begun + (a + [t] + b), begun + a; |x| < |k| && k[|x|] == t && k[..|x|] == x && k[|x| + 1..] == b
  {
    assert begun + (a + [t] + b) == (begun + a) + [t] + b;
  }

  lemma Associative(a: seq<nat>, b: seq<nat>, c: seq<nat>)
    ensures (a + b) + c == a + (b + c)
  {}

  lemma SplitTokens(items: map<Work, Item>, p: seq<Work>, i: nat)
    requires i < |p| && p[i] in items && p[i].kind != Flusher
    ensures Tokens(items, p) == Tokens(items, p[..i]) + [items[p[i]].token] + Tokens(items, p[i + 1..])
  {
    assert p == p[..i] + p[i..] && p[i..][0] == p[i] && p[i..][1..] == p[i + 1..];
    TokensConcat(items, p[..i], p[i..]);
  }

  lemma DequeueAccounted(s: State, w: Work, q: WorkQ)
    requires CanDequeue(s, w, q) && QueueInv(s, q) && Accounted(s, q) && w in s.queues[q].pending
    ensures Accounted(Dequeue(s, w, q), q)
  {
    var u, qu := Dequeue(s, w, q), s.queues[q];
    var p, i := qu.pending, IndexOf(qu.pending, w);
    assert WaitsOn(s, q, p[i]);
    Members(s, q);
    CutToken(s.items, qu.begun, p, i, |qu.accepted|, qu.cancelled);
    TokensFrame(s.items, u.items, p[..i] + p[i + 1..]);
  }

  lemma DequeueWaiters(s: State, w: Work, q: WorkQ)
    requires CanDequeue(s, w, q) && WaitersInv(s, q) && w in s.queues[q].pending
    ensures WaitersInv(Dequeue(s, w, q), q)
  {
    var u, p, i := Dequeue(s, w, q), s.queues[q].pending, IndexOf(s.queues[q].pending, w);
    var p' := u.queues[q].pending;
    assert forall j :: 0 <= j < |p'| ==> p'[j] == if j < i then p[j] else p[j + 1];
    forall f | f in u.items && f.kind == Flusher && u.items[f].home == q ensures FlushInv(u, f) { assert FlushInv(s, f); }
    forall c | c in u.cancellers && u.cancellers[c].on == q ensures CancelInv(u, c) { assert CancelInv(s, c); }
  }

  lemma DequeueKeeps(s: State, w: Work, q: WorkQ)
    requires Inv(s) && CanDequeue(s, w, q)
    ensures Inv(Dequeue(s, w, q))
  {
    assert ItemInv(s, w) && QueueInv(s, q) && Accounted(s, q);
    DequeueQueue(s, w, q);
    DequeueAccounted(s, w, q);
    DequeueWaiters(s, w, q);
    DequeueChanges(s, w, q);
    OthersKeep(s, Dequeue(s, w, q), w, q);
  }

  lemma DequeueChanges(s: State, w: Work, q: WorkQ)
    requires Linked(s) && CanDequeue(s, w, q)
    ensures Changes(s, Dequeue(s, w, q), w, q) && ItemInv(Dequeue(s, w, q), w)
  {
    assert ItemInv(s, w);
    OnOneQueue(s, q, w);
  }

  // ---- the queue thread takes an item ----

  ghost predicate CanTakeHead(s: State, q: WorkQ) {
    && q in s.queues && s.queues[q].worker == Ready
    && s.queues[q].pending != [] && s.queues[q].pending[0] in s.items
  }

  lemma TakeQueue(s: State, q: WorkQ)
    requires CanTakeHead(s, q) && QueueInv(s, q)
    ensures QueueInv(TakeHead(s, q), q)
  {
    var u, p := TakeHead(s, q), s.queues[q].pending;
    assert WaitsOn(s, q, p[0]);
    forall i | 0 < i < |p| ensures WaitsOn(u, q, p[i]) { assert WaitsOn(s, q, p[i]); }
    assert forall i :: 0 <= i < |p[1..]| ==> p[1..][i] == p[i + 1];
  }

  lemma TakeAccounted(s: State, q: WorkQ)
    requires CanTakeHead(s, q) && QueueInv(s, q) && Accounted(s, q)
    ensures Accounted(TakeHead(s, q), q)
  {
    var u, p := TakeHead(s, q), s.queues[q].pending;
    Members(s, q);
    TokensFrame(s.items, u.items, p[1..]);
  }

  lemma TakeWaiters(s: State, q: WorkQ)
    requires CanTakeHead(s, q) && QueueInv(s, q) && WaitersInv(s, q)
    ensures WaitersInv(TakeHead(s, q), q)
  {
    var u, p := TakeHead(s, q), s.queues[q].pending;
    assert WaitsOn(s, q, p[0]);
    assert forall i :: 0 <= i < |p[1..]| ==> p[1..][i] == p[i + 1];
    forall f | f in u.items && f.kind == Flusher && u.items[f].home == q ensures FlushInv(u, f) { assert FlushInv(s, f); }
    forall c | c in u.cancellers && u.cancellers[c].on == q ensures CancelInv(u, c) { assert CancelInv(s, c); }
  }

  lemma TakeHeadKeeps(s: State, q: WorkQ)
    requires Inv(s) && CanTakeHead(s, q)
    ensures Inv(TakeHead(s, q))
  {
    var w := s.queues[q].pending[0];
    assert QueueInv(s, q) && Accounted(s, q);
    TakeQueue(s, q);
    TakeAccounted(s, q);
    TakeWaiters(s, q);
    TakeChanges(s, q);
    if w.kind == Flusher { assert FlushInv(s, w) && WaitsOn(s, q, w); }
    OthersKeep(s, TakeHead(s, q), w, q);
  }

  lemma TakeChanges(s: State, q: WorkQ)
    requires Linked(s) && CanTakeHead(s, q)
    ensures var w := s.queues[q].pending[0]; Changes(s, TakeHead(s, q), w, q) && ItemInv(TakeHead(s, q), w)
  {
    var w := s.queues[q].pending[0];
    assert QueueInv(s, q) && ItemInv(s, w) && WaitsOn(s, q, w);
    OnOneQueue(s, q, w);
  }
}
