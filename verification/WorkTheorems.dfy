/** What base/bt_work.c promises its callers, over every run of the module. */
module WorkTheorems {
  import opened WorkState
  import opened WorkSpec
  import opened WorkInv
  import opened WorkKeeps
  import opened WorkSteps

  /** `s` is where run `es` from `s0` ends. */
  ghost predicate Reached(s0: State, es: seq<Event>, s: State) {
    Initial(s0) && Runs(s0, es) && Exec(s0, es) == s
  }

  lemma ReachedInv(s0: State, es: seq<Event>, s: State)
    requires Reached(s0, es, s)
    ensures Inv(s)
  {
    InitialInv(s0);
    RunKeeps(s0, es);
  }

  /** A run written out event by event. */
  lemma RunCons(s: State, e: Event, es: seq<Event>)
    requires Enabled(s, e) && Runs(Step(s, e), es)
    ensures Runs(s, [e] + es) && Exec(s, [e] + es) == Exec(Step(s, e), es)
  {
    assert ([e] + es)[1..] == es;
  }

  /** The last event of a run, apart. */
  lemma {:induction false} LastStep(s0: State, es: seq<Event>, s: State, e: Event, u: State)
    requires Reached(s0, es, s) && Reached(s0, es + [e], u)
    ensures Enabled(s, e) && u == Step(s, e)
  {
    LastOfRun(s0, es, e);
  }

  lemma {:induction false} LastOfRun(s: State, es: seq<Event>, e: Event)
    requires Runs(s, es) && Runs(s, es + [e])
    ensures Enabled(Exec(s, es), e) && Exec(s, es + [e]) == Step(Exec(s, es), e)
    decreases |es|
  {
    if es == [] {
      assert [] + [e] == [e] && [e][1..] == [];
    } else {
      assert (es + [e])[1..] == es[1..] + [e];
      LastOfRun(Step(s, es[0]), es[1..], e);
    }
  }

  // ---- one handler at a time ----

  /** No item is ever run by two queue threads; the item being run is marked, its
      `queue` is the queue running it, and it can be pending on that queue only. */
  lemma NonReentrancy(s0: State, es: seq<Event>, s: State, w: Work, q: WorkQ, r: WorkQ)
    requires Reached(s0, es, s) && q in s.queues && r in s.queues
    requires s.queues[q].worker == Running(w)
    ensures s.queues[r].worker == Running(w) ==> r == q
    ensures w in s.items && s.items[w].running && (w.kind != Flusher ==> s.items[w].queue == q)
    ensures w in s.queues[r].pending ==> r == q && w.kind != Flusher
  {
    ReachedInv(s0, es, s);
    assert QueueInv(s, q) && RunsOn(s, q, w);
    OnOneQueue(s, q, w);
    if w in s.queues[q].pending { assert WaitsOn(s, q, w); }
  }

  /** QUEUED holds exactly of the items that sit in the list of their own queue,
      once, and in no other list. */
  lemma QueuedIsPending(s0: State, es: seq<Event>, s: State, w: Work, q: WorkQ)
    requires Reached(s0, es, s) && w in s.items && w.kind != Flusher && q in s.queues
    ensures s.items[w].queued && s.items[w].queue == q <==> w in s.queues[q].pending
    ensures multiset(s.queues[q].pending)[w] <= 1
  {
    ReachedInv(s0, es, s);
    assert ItemInv(s, w) && QueueInv(s, q);
    if w in s.queues[q].pending { assert WaitsOn(s, q, w); }
    NoDupOnce(s.queues[q].pending, w);
  }

  lemma {:induction false} NoDupOnce(p: seq<Work>, w: Work)
    requires NoDup(p)
    ensures multiset(p)[w] <= 1
  {
    if p != [] {
      assert p == [p[0]] + p[1..];
      assert p[0] !in p[1..];
      NoDupOnce(p[1..], w);
    }
  }

  // ---- every accepted submission, once, in order ----

  ghost function Once(b: bool): nat { if b then 1 else 0 }

  lemma {:induction false} KeptOnce(n: nat, cancelled: set<nat>, t: nat)
    ensures multiset(Kept(n, cancelled))[t] == Once(t < n && t !in cancelled)
  {
    if n > 0 { KeptOnce(n - 1, cancelled, t); }
  }

  /** An accepted submission has been cancelled, or has begun, or still waits:
      exactly one of the three, and exactly once. */
  lemma AcceptedExactlyOnce(s0: State, es: seq<Event>, s: State, q: WorkQ, t: nat)
    requires Reached(s0, es, s) && q in s.queues && t < |s.queues[q].accepted|
    ensures var qu := s.queues[q];
            multiset(qu.begun)[t] + multiset(Tokens(s.items, qu.pending))[t] + Once(t in qu.cancelled) == 1
  {
    ReachedInv(s0, es, s);
    var qu := s.queues[q];
    assert Accounted(s, q);
    KeptOnce(|qu.accepted|, qu.cancelled, t);
    assert multiset(qu.begun + Tokens(s.items, qu.pending)) == multiset(qu.begun) + multiset(Tokens(s.items, qu.pending));
  }

  /** Handlers of one queue start in the order of acceptance, and when the thread
      starts a client item it is the oldest submission not cancelled and not begun. */
  lemma FirstComeFirstServed(s0: State, es: seq<Event>, s: State, q: WorkQ)
    requires Reached(s0, es, s) && q in s.queues
    ensures Ascending(s.queues[q].begun)
    ensures
      var qu := s.queues[q];
      qu.worker == Ready && qu.pending != [] && qu.pending[0].kind != Flusher ==>
        var w := qu.pending[0];
        && w in s.items
        && var t := s.items[w].token;
           && Step(s, ETake(q)).queues[q].begun == qu.begun + [t]
           && t < |qu.accepted| && qu.accepted[t] == w && t !in qu.cancelled && t !in qu.begun
           && forall o :: 0 <= o < |qu.accepted| && o !in qu.cancelled && o !in qu.begun ==> t <= o
  {
    ReachedInv(s0, es, s);
    var qu := s.queues[q];
    assert QueueInv(s, q) && Accounted(s, q);
    var k := Kept(|qu.accepted|, qu.cancelled);
    KeptAscending(|qu.accepted|, qu.cancelled);
    forall i, j | 0 <= i < j < |qu.begun| ensures qu.begun[i] < qu.begun[j] { assert k[i] < k[j]; }
    if qu.pending != [] && qu.pending[0].kind != Flusher {
      OldestFirst(s, q);
    }
  }

  lemma OldestFirst(s: State, q: WorkQ)
    requires q in s.queues && QueueInv(s, q) && Accounted(s, q)
    requires s.queues[q].pending != [] && s.queues[q].pending[0].kind != Flusher
    ensures
      var qu := s.queues[q];
      var w := qu.pending[0];
      && w in s.items
      && var t := s.items[w].token;
         && t < |qu.accepted| && qu.accepted[t] == w && t !in qu.cancelled && t !in qu.begun
         && forall o :: 0 <= o < |qu.accepted| && o !in qu.cancelled && o !in qu.begun ==> t <= o
  {
    var qu := s.queues[q];
    var w := qu.pending[0];
    assert WaitsOn(s, q, w);
    var t, k := s.items[w].token, Kept(|qu.accepted|, qu.cancelled);
    KeptAscending(|qu.accepted|, qu.cancelled);
    assert k[|qu.begun|] == t;
    KeptMember(|qu.accepted|, qu.cancelled, t);
    forall i | 0 <= i < |qu.begun| ensures qu.begun[i] != t { assert k[i] < k[|qu.begun|]; }
    forall o | 0 <= o < |qu.accepted| && o !in qu.cancelled && o !in qu.begun ensures t <= o {
      KeptMember(|qu.accepted|, qu.cancelled, o);
      var i :| 0 <= i < |k| && k[i] == o;
      assert i >= |qu.begun|;
    }
  }

  // ---- finished or removed ----

  /** The handler run for submission `t` of `q` has returned, or a cancel removed `t`. */
  ghost predicate Retired(s: State, q: WorkQ, t: nat) {
    q in s.queues && (t in s.queues[q].cancelled || (t in s.queues[q].begun && !RunsToken(s.queues[q], t)))
  }

  ghost predicate Accepted(s: State, q: WorkQ, t: nat) {
    q in s.queues && t < |s.queues[q].accepted|
  }

  /** A submission that neither waits nor runs is retired. */
  lemma GoneIsRetired(s: State, q: WorkQ, t: nat)
    requires Inv(s) && Accepted(s, q, t)
    requires NotWaiting(s.items, s.queues[q].pending, t) && !RunsToken(s.queues[q], t)
    ensures Retired(s, q, t)
  {
    var qu := s.queues[q];
    assert Accounted(s, q);
    KeptMember(|qu.accepted|, qu.cancelled, t);
    TokensMember(s.items, qu.pending, t);
    var k := qu.begun + Tokens(s.items, qu.pending);
    if t in k {
      var i :| 0 <= i < |k| && k[i] == t;
    }
  }

  /** And the other way round. */
  lemma RetiredIsGone(s: State, q: WorkQ, t: nat)
    requires Inv(s) && Accepted(s, q, t) && Retired(s, q, t)
    ensures NotWaiting(s.items, s.queues[q].pending, t) && !RunsToken(s.queues[q], t)
  {
    var qu := s.queues[q];
    assert Accounted(s, q) && QueueInv(s, q);
    var ts := Tokens(s.items, qu.pending);
    KeptAscending(|qu.accepted|, qu.cancelled);
    KeptMember(|qu.accepted|, qu.cancelled, t);
    TokensMember(s.items, qu.pending, t);
    var k := qu.begun + ts;
    forall j | 0 <= j < |ts| ensures ts[j] != t {
      assert k[|qu.begun| + j] == ts[j];
      if t in qu.begun {
        var i :| 0 <= i < |qu.begun| && qu.begun[i] == t;
        assert k[i] < k[|qu.begun| + j];
      }
    }
    if qu.begun != [] { assert k[|qu.begun| - 1] in k; }
  }

  // ---- what a step does to the histories ----

  ghost predicate Grows(a: Queue, b: Queue) {
    a.accepted <= b.accepted && a.cancelled <= b.cancelled && a.begun <= b.begun
  }

  ghost predicate SameWorker(a: Queue, b: Queue) {
    a.begun == b.begun && (b.worker.Running? ==> a.worker == b.worker)
  }

  ghost predicate FlushOf(e: Event, f: Work) {
    FlushEvent(e) && e.flusher == f
  }

  ghost predicate CancelOf(e: Event, c: Canceller) {
    (e.ECancelSync? || e.ECancelDelayableSync?) && e.canceller == c
  }

  ghost predicate CancelEvent(e: Event) {
    e.ECancel? || e.ECancelSync? || e.ECancelDelayable? || e.ECancelDelayableSync?
  }

  ghost predicate SubmitEvent(e: Event) { e.ESubmit? || e.ESchedule? || e.EReschedule? || e.ETimeout? }

  ghost predicate FlushEvent(e: Event) { e.EFlush? || e.EFlushDelayable? }

  ghost predicate Advances(s: State, u: State, q: WorkQ)
    requires q in s.queues
  {
    q in u.queues && Grows(s.queues[q], u.queues[q]) && SameWorker(s.queues[q], u.queues[q])
  }

  /** What the operations on items do to a queue: they leave its flags and its
      thread alone and take no wake-up away. */
  ghost predicate Fills(s: State, u: State, q: WorkQ)
    requires q in s.queues
  {
    && q in u.queues
    && var a, b := s.queues[q], u.queues[q];
       && a.accepted <= b.accepted && a.cancelled <= b.cancelled && a.notify <= b.notify
       && b == a.(pending := b.pending, notify := b.notify, accepted := b.accepted, cancelled := b.cancelled)
  }

  lemma SubmitFills(s: State, w: Work, to: WorkQ?, caller: WorkQ?, q: WorkQ)
    requires w in s.items && q in s.queues
    ensures Fills(s, Submit(s, w, to, caller), q)
  {}

  lemma FlushFills(s: State, w: Work, f: Work, q: WorkQ)
    requires w in s.items && f in s.items && q in s.queues
    ensures Fills(s, Flush(s, w, f), q)
  {}

  lemma CancelFills(s: State, w: Work, q: WorkQ)
    requires w in s.items && q in s.queues
    ensures Fills(s, CancelAsync(s, w), q)
  {}

  lemma SubmitEventFills(s: State, e: Event, q: WorkQ)
    requires Enabled(s, e) && q in s.queues && SubmitEvent(e)
    ensures Fills(s, Step(s, e), q)
  {
    if e.ESubmit? { SubmitFills(s, e.work, e.queue, e.caller, q); }
    else if e.ESchedule? { SubmitFills(s, e.work, e.to, e.caller, q); }
    else if e.EReschedule? { SubmitFills(Unschedule(s, e.work), e.work, e.to, e.caller, q); }
    else { SubmitFills(Unschedule(s, e.work), e.work, s.items[e.work].delayQueue, null, q); }
  }

  lemma FlushEventFills(s: State, e: Event, q: WorkQ)
    requires Enabled(s, e) && q in s.queues && FlushEvent(e)
    ensures Fills(s, Step(s, e), q)
  {
    hide Flush;
    var w, f := e.work, e.flusher;
    if e.EFlush? {
      FlushFills(s, w, f, q);
    } else {
      var u := Unschedule(s, w);
      var v := Submit(u, w, s.items[w].delayQueue, e.caller);
      SubmitFills(u, w, s.items[w].delayQueue, e.caller, q);
      FlushFills(u, w, f, q);
      FlushFills(v, w, f, q);
    }
  }

  lemma CancelEventFills(s: State, e: Event, q: WorkQ)
    requires Enabled(s, e) && q in s.queues && CancelEvent(e)
    ensures Fills(s, Step(s, e), q)
  {
    if e.ECancel? || e.ECancelSync? { CancelFills(s, e.work, q); }
    else { CancelFills(Unschedule(s, e.work), e.work, q); }
  }

  ghost predicate ItemEvent(e: Event) { SubmitEvent(e) || FlushEvent(e) || CancelEvent(e) }

  lemma ItemEventFills(s: State, e: Event, q: WorkQ)
    requires Enabled(s, e) && q in s.queues && ItemEvent(e)
    ensures Fills(s, Step(s, e), q)
  {
    if SubmitEvent(e) { SubmitEventFills(s, e, q); }
    else if CancelEvent(e) { CancelEventFills(s, e, q); }
    else { FlushEventFills(s, e, q); }
  }

  lemma ControlGrows(s: State, e: Event, q: WorkQ)
    requires Enabled(s, e) && q in s.queues && OnQueue(e)
    ensures Advances(s, Step(s, e), q)
  {}

  lemma ThreadGrows(s: State, e: Event, q: WorkQ)
    requires Enabled(s, e) && q in s.queues && !ItemEvent(e) && !OnQueue(e)
    ensures q in Step(s, e).queues && Grows(s.queues[q], Step(s, e).queues[q])
    ensures e != ETake(q) ==> Advances(s, Step(s, e), q)
  {}

  lemma FillsAdvances(s: State, u: State, q: WorkQ)
    requires q in s.queues && Fills(s, u, q)
    ensures Advances(s, u, q)
  {}

  /** Histories only grow, and only Take lets a handler begin. */
  lemma StepGrows(s: State, e: Event, q: WorkQ)
    requires Enabled(s, e) && q in s.queues
    ensures q in Step(s, e).queues && Grows(s.queues[q], Step(s, e).queues[q])
    ensures e != ETake(q) ==> Advances(s, Step(s, e), q)
  {
    if ItemEvent(e) {
      ItemEventFills(s, e, q);
      FillsAdvances(s, Step(s, e), q);
    } else if OnQueue(e) {
      ControlGrows(s, e, q);
    } else {
      ThreadGrows(s, e, q);
    }
  }

  ghost predicate SameTargets(s: State, u: State, f: Work)
    requires f in s.items
  {
    f in u.items && u.items[f].home == s.items[f].home && u.items[f].targets == s.items[f].targets
  }

  lemma SubmitKeepsTargets(s: State, e: Event, f: Work)
    requires Enabled(s, e) && f in s.items && SubmitEvent(e)
    ensures SameTargets(s, Step(s, e), f)
  {}

  /** A cancel leaves waiters and what they wait for alone. */
  lemma CancelAsyncFrame(s: State, w: Work)
    requires w in s.items
    ensures
      var u := CancelAsync(s, w);
      && u.cancellers == s.cancellers && u.cancels == s.cancels && w in u.items
      && forall f :: f in s.items ==> SameTargets(s, u, f)
  {}

  lemma CancelKeepsTargets(s: State, e: Event, f: Work)
    requires Enabled(s, e) && f in s.items && CancelEvent(e)
    ensures SameTargets(s, Step(s, e), f)
  {
    if e.ECancel? || e.ECancelSync? {
      CancelAsyncFrame(s, e.work);
    } else {
      var t := Unschedule(s, e.work);
      CancelAsyncFrame(t, e.work);
      assert SameTargets(s, t, f) && SameTargets(t, CancelAsync(t, e.work), f);
    }
  }

  lemma FlushKeepsTargets(s: State, e: Event, f: Work)
    requires Enabled(s, e) && f in s.items && FlushEvent(e) && e.flusher != f
    ensures SameTargets(s, Step(s, e), f)
  {
    var b := BeforeFlush(s, e);
    FlushFrame(b, e.work, e.flusher, f);
    if e.EFlushDelayable? { SubmitFrame(Unschedule(s, e.work), e.work, s.items[e.work].delayQueue, e.caller, f); }
  }

  lemma FlushFrame(s: State, w: Work, flusher: Work, f: Work)
    requires w in s.items && flusher in s.items && f in s.items && flusher != f
    ensures SameTargets(s, Flush(s, w, flusher), f)
  {}

  lemma SubmitFrame(s: State, w: Work, to: WorkQ?, caller: WorkQ?, f: Work)
    requires w in s.items && f in s.items
    ensures SameTargets(s, Submit(s, w, to, caller), f)
  {}

  lemma StepKeepsTargets(s: State, e: Event, f: Work)
    requires Enabled(s, e) && f in s.items && !FlushOf(e, f)
    ensures SameTargets(s, Step(s, e), f)
  {
    if SubmitEvent(e) { SubmitKeepsTargets(s, e, f); }
    else if CancelEvent(e) { CancelKeepsTargets(s, e, f); }
    else if FlushEvent(e) { FlushKeepsTargets(s, e, f); }
  }

  lemma StepKeepsWait(s: State, e: Event, c: Canceller)
    requires Enabled(s, e) && c in s.cancellers && !CancelOf(e, c)
    ensures var u := Step(s, e);
            c in u.cancellers && u.cancellers[c].on == s.cancellers[c].on && u.cancellers[c].token == s.cancellers[c].token
  {
    if CancelEvent(e) {
      CancelAsyncFrame(s, e.work);
      CancelAsyncFrame(Unschedule(s, e.work), e.work);
    } else {
      OthersKeepWait(s, e, c);
    }
  }

  lemma OthersKeepWait(s: State, e: Event, c: Canceller)
    requires Enabled(s, e) && c in s.cancellers && !CancelEvent(e)
    ensures var u := Step(s, e);
            c in u.cancellers && u.cancellers[c].on == s.cancellers[c].on && u.cancellers[c].token == s.cancellers[c].token
            && u.cancellers[c].work == s.cancellers[c].work
  {}

  /** The token with which a handler begins was neither begun nor cancelled before. */
  lemma TakeBegins(s: State, q: WorkQ)
    requires Inv(s) && Enabled(s, ETake(q))
    ensures var a, b := s.queues[q], Step(s, ETake(q)).queues[q];
            forall t :: RunsToken(b, t) ==> t !in a.begun && t !in a.cancelled && t !in b.cancelled
  {
    assert QueueInv(s, q) && Accounted(s, q);
    var p := s.queues[q].pending;
    if p != [] {
      assert WaitsOn(s, q, p[0]);
      if p[0].kind != Flusher { OldestFirst(s, q); }
    }
  }

  lemma RetiredAcross(s: State, u: State, q: WorkQ, t: nat)
    requires Retired(s, q, t) && q in u.queues && Grows(s.queues[q], u.queues[q])
    requires
      || SameWorker(s.queues[q], u.queues[q])
      || forall r :: RunsToken(u.queues[q], r) ==> r !in s.queues[q].begun && r !in u.queues[q].cancelled
    ensures Retired(u, q, t)
  {}

  /** Finished or removed stays so. */
  lemma RetiredStays(s: State, e: Event, q: WorkQ, t: nat)
    requires Inv(s) && Enabled(s, e) && Retired(s, q, t)
    ensures Retired(Step(s, e), q, t)
  {
    var u := Step(s, e);
    StepGrows(s, e, q);
    if e == ETake(q) { TakeBegins(s, q); }
    RetiredAcross(s, u, q, t);
  }

  // ---- flush ----

  /** What is left of an item's submissions is on its own queue. */
  lemma OutstandingComplete(s: State, w: Work, q: WorkQ, t: nat)
    requires Inv(s) && Client(s, w) && Accepted(s, q, t) && s.queues[q].accepted[t] == w && !Retired(s, q, t)
    ensures s.items[w].queue == q && t in Outstanding(s, w)
  {
    var qu := s.queues[q];
    assert ItemInv(s, w) && QueueInv(s, q);
    if RunsToken(qu, t) {
      assert RunsOn(s, q, qu.worker.work);
    } else {
      if NotWaiting(s.items, qu.pending, t) { GoneIsRetired(s, q, t); }
      var i :| 0 <= i < |qu.pending| && qu.pending[i].kind != Flusher && qu.pending[i] in s.items && s.items[qu.pending[i]].token == t;
      assert WaitsOn(s, q, qu.pending[i]);
    }
  }

  /** A released flusher has seen all its targets off. */
  lemma FlusherDone(s: State, f: Work, t: nat)
    requires Inv(s) && f in s.items && f.kind == Flusher && !s.items[f].flushing
    requires s.items[f].home != null && t in s.items[f].targets
    ensures Retired(s, s.items[f].home, t)
  {
    assert FlushInv(s, f) && ItemInv(s, f);
    GoneIsRetired(s, s.items[f].home, t);
  }

  ghost predicate NeverFlushes(es: seq<Event>, f: Work) { forall i :: 0 <= i < |es| ==> !FlushOf(es[i], f) }

  lemma {:induction false} TargetsLast(s: State, es: seq<Event>, f: Work)
    requires Inv(s) && Runs(s, es) && f in s.items && NeverFlushes(es, f)
    ensures SameTargets(s, Exec(s, es), f)
    decreases |es|
  {
    if es != [] {
      StepKeeps(s, es[0]);
      StepKeepsTargets(s, es[0], f);
      TargetsLast(Step(s, es[0]), es[1..], f);
    }
  }

  lemma {:induction false} RetiredLasts(s: State, es: seq<Event>, q: WorkQ, t: nat)
    requires Inv(s) && Runs(s, es) && Retired(s, q, t)
    ensures Retired(Exec(s, es), q, t)
    decreases |es|
  {
    if es != [] {
      StepKeeps(s, es[0]);
      RetiredStays(s, es[0], q, t);
      RetiredLasts(Step(s, es[0]), es[1..], q, t);
    }
  }

  /** The flusher `f` stands for a flush of `w`: it records all that is left of it. */
  ghost predicate Guards(u: State, f: Work, w: Work) {
    && f in u.items && f.kind == Flusher && w in u.items && u.items[f].flushing
    && u.items[f].home != null && u.items[f].home == u.items[w].queue && u.items[f].targets == Outstanding(u, w)
  }

  /** Placing the flusher, which happens just when anything is left. */
  lemma FlushPlaces(s: State, w: Work, f: Work)
    requires Inv(s) && Client(s, w) && FreeFlusher(s, f)
    ensures var u := Flush(s, w, f);
            if u.items[f].flushing then Guards(u, f, w) else Outstanding(u, w) == {}
  {
    assert ItemInv(s, w);
  }

  /** The state on which work_flush_locked acts. */
  ghost function BeforeFlush(s: State, e: Event): State
    requires Enabled(s, e) && FlushEvent(e)
  {
    if e.EFlush? || Busy(s.items[e.work]) == 0 then s else SubmitDelayed(s, e.work, e.stopped, e.caller)
  }

  lemma BeforeFlushKeeps(s: State, e: Event)
    requires Inv(s) && Enabled(s, e) && FlushEvent(e)
    ensures var b := BeforeFlush(s, e); Inv(b) && Client(b, e.work) && FreeFlusher(b, e.flusher)
    ensures Step(s, e) == Flush(BeforeFlush(s, e), e.work, e.flusher)
  {
    if e.EFlushDelayable? && Busy(s.items[e.work]) != 0 {
      UnscheduleKeeps(s, e.work);
      SubmitKeeps(Unschedule(s, e.work), e.work, s.items[e.work].delayQueue, e.caller);
    }
  }

  lemma FlushEventPlaces(s: State, e: Event)
    requires Inv(s) && Enabled(s, e) && FlushEvent(e)
    ensures var u := Step(s, e);
            && e.flusher in u.items && e.work in u.items
            && if u.items[e.flusher].flushing then Guards(u, e.flusher, e.work) else Outstanding(u, e.work) == {}
  {
    BeforeFlushKeeps(s, e);
    FlushPlaces(BeforeFlush(s, e), e.work, e.flusher);
  }

  lemma GuardedRetires(u: State, f: Work, w: Work, rest: seq<Event>, q: WorkQ, t: nat)
    requires Inv(u) && Client(u, w) && Guards(u, f, w) && Runs(u, rest) && NeverFlushes(rest, f)
    requires Accepted(u, q, t) && u.queues[q].accepted[t] == w
    ensures
      var last := Exec(u, rest);
      && f in last.items
      && (last.items[f].sem > 0 ==> !last.items[f].flushing)
      && (!last.items[f].flushing ==> Retired(last, q, t))
  {
    TargetsLast(u, rest, f);
    RunKeeps(u, rest);
    var last := Exec(u, rest);
    assert ItemInv(last, f);
    if !last.items[f].flushing {
      if Retired(u, q, t) {
        RetiredLasts(u, rest, q, t);
      } else {
        OutstandingComplete(u, w, q, t);
        FlusherDone(last, f, t);
      }
    }
  }

  /** A flush is a barrier.  Let the call place its flusher; in every state of every
      continuation in which the flusher has been released (its semaphore can only
      then be taken), each submission of the item that was queued or running at the
      call has finished its handler or was removed by a cancel. */
  lemma FlushIsBarrier(s0: State, es: seq<Event>, s: State, e: Event, u: State, rest: seq<Event>, q: WorkQ, t: nat)
    requires Reached(s0, es, s) && Reached(s0, es + [e], u)
    requires FlushEvent(e) && e.flusher in u.items && u.items[e.flusher].flushing
    requires Runs(u, rest) && NeverFlushes(rest, e.flusher)
    requires Accepted(u, q, t) && u.queues[q].accepted[t] == e.work
    ensures
      var last := Exec(u, rest);
      && e.flusher in last.items
      && (last.items[e.flusher].sem > 0 ==> !last.items[e.flusher].flushing)
      && (!last.items[e.flusher].flushing ==> Retired(last, q, t))
  {
    ReachedInv(s0, es, s);
    LastStep(s0, es, s, e, u);
    StepKeeps(s, e);
    FlushEventPlaces(s, e);
    GuardedRetires(u, e.flusher, e.work, rest, q, t);
  }

  /** A flush that places no flusher had nothing to wait for. */
  lemma NoFlushNeeded(s0: State, es: seq<Event>, s: State, e: Event, q: WorkQ, t: nat)
    requires Reached(s0, es, s) && Enabled(s, e) && FlushEvent(e) && !Step(s, e).items[e.flusher].flushing
    requires Accepted(Step(s, e), q, t) && Step(s, e).queues[q].accepted[t] == e.work
    ensures Retired(Step(s, e), q, t)
  {
    ReachedInv(s0, es, s);
    StepKeeps(s, e);
    FlushEventPlaces(s, e);
    if !Retired(Step(s, e), q, t) { OutstandingComplete(Step(s, e), e.work, q, t); }
  }
}
