/** Every event of the module keeps the invariant, hence every run does. */
module WorkSteps {
  import opened WorkState
  import opened WorkSpec
  import opened WorkInv
  import opened WorkKeeps

  // ---- the handler has returned ----

  ghost predicate CanFinish(s: State, q: WorkQ) {
    q in s.queues && s.queues[q].worker.Running? && s.queues[q].worker.work in s.items
  }

  ghost function FinishCore(s: State, q: WorkQ): State
    requires CanFinish(s, q)
  {
    var qu := s.queues[q];
    s.(items := s.items[qu.worker.work := FinishItem(s.items[qu.worker.work])],
       queues := s.queues[q := qu.(busy := false, worker := Ready)])
  }

  lemma FinishQueue(s: State, q: WorkQ)
    requires CanFinish(s, q) && QueueInv(s, q)
    ensures QueueInv(FinishCore(s, q), q)
  {
    var u, p := FinishCore(s, q), s.queues[q].pending;
    assert RunsOn(s, q, s.queues[q].worker.work);
    forall i | 0 <= i < |p| ensures WaitsOn(u, q, p[i]) { assert WaitsOn(s, q, p[i]); }
  }

  lemma FinishWaiters(s: State, q: WorkQ)
    requires CanFinish(s, q) && QueueInv(s, q) && WaitersInv(s, q)
    ensures WaitersInv(FinishCore(s, q), q)
  {
    var u, w := FinishCore(s, q), s.queues[q].worker.work;
    assert RunsOn(s, q, w);
    forall f | f in u.items && f.kind == Flusher && u.items[f].home == q ensures FlushInv(u, f) { assert FlushInv(s, f); }
    forall c | c in u.cancellers && u.cancellers[c].on == q ensures CancelInv(u, c) { assert CancelInv(s, c); }
  }

  lemma FinishChanges(s: State, q: WorkQ)
    requires Linked(s) && CanFinish(s, q)
    ensures var w := s.queues[q].worker.work; Changes(s, FinishCore(s, q), w, q) && ItemInv(FinishCore(s, q), w)
  {
    var w := s.queues[q].worker.work;
    assert QueueInv(s, q) && ItemInv(s, w) && RunsOn(s, q, w);
    OnOneQueue(s, q, w);
  }

  lemma FinishAccounted(s: State, q: WorkQ)
    requires CanFinish(s, q) && QueueInv(s, q) && Accounted(s, q)
    ensures Accounted(FinishCore(s, q), q)
  {
    Members(s, q);
    TokensFrame(s.items, FinishCore(s, q).items, s.queues[q].pending);
  }

  lemma FinishCoreKeeps(s: State, q: WorkQ)
    requires Inv(s) && CanFinish(s, q)
    ensures Inv(FinishCore(s, q))
  {
    var w := s.queues[q].worker.work;
    assert QueueInv(s, q) && Accounted(s, q);
    FinishQueue(s, q);
    FinishAccounted(s, q);
    FinishWaiters(s, q);
    FinishChanges(s, q);
    if w.kind == Flusher { assert RunsOn(s, q, w) && FlushInv(FinishCore(s, q), w); }
    OthersKeep(s, FinishCore(s, q), w, q);
  }

  // ---- the list of cancellers ----

  lemma ListKeeps(s: State, u: State)
    requires Inv(s) && u.items == s.items && u.queues == s.queues
    requires CancelListInv(u) && (forall c :: c in u.cancellers ==> CancelInv(u, c))
    ensures Inv(u)
  {
    forall v | v in u.items ensures ItemInv(u, v) { assert ItemInv(s, v); }
    forall q | q in u.queues ensures QueueInv(u, q) && Accounted(u, q) { SameQueue(s, u, q); }
    forall f | f in u.items && f.kind == Flusher ensures FlushInv(u, f) { assert FlushInv(s, f); }
  }

  lemma SameQueue(s: State, u: State, q: WorkQ)
    requires q in s.queues && QueueInv(s, q) && Accounted(s, q) && u.items == s.items && u.queues == s.queues
    ensures QueueInv(u, q) && Accounted(u, q)
  {
    var p := s.queues[q].pending;
    forall i | 0 <= i < |p| ensures WaitsOn(u, q, p[i]) { assert WaitsOn(s, q, p[i]); }
  }

  lemma ReleaseKeeps(s: State, w: Work)
    requires Inv(s) && w in s.items && !s.items[w].running
    ensures Inv(ReleaseCanceller(s, w))
  {
    var u, i := ReleaseCanceller(s, w), FirstWait(s, s.cancels, w);
    if i < |s.cancels| {
      forall c | c in u.cancellers ensures CancelInv(u, c) {
        assert CancelInv(s, c);
        var on := s.cancellers[c].on;
        if on != null { assert QueueInv(s, on); }
        ReleaseOne(s, w, c);
      }
      ReleaseList(s, w);
      ListKeeps(s, u);
    }
  }

  lemma ReleaseOne(s: State, w: Work, c: Canceller)
    requires w in s.items && !s.items[w].running && c in s.cancellers && CancelInv(s, c) && CancelListInv(s)
    requires s.cancellers[c].on != null ==> s.cancellers[c].on in s.queues && QueueInv(s, s.cancellers[c].on)
    requires FirstWait(s, s.cancels, w) < |s.cancels|
    ensures CancelInv(ReleaseCanceller(s, w), c)
  {
    CutOne(s.cancels, FirstWait(s, s.cancels, w));
  }

  lemma ReleaseList(s: State, w: Work)
    requires CancelListInv(s) && FirstWait(s, s.cancels, w) < |s.cancels|
    ensures CancelListInv(ReleaseCanceller(s, w))
  {}

  lemma AwaitKeeps(s: State, w: Work, c: Canceller)
    requires Inv(s) && Client(s, w) && FreeCanceller(s, c)
    ensures Inv(AwaitCancel(s, w, c))
  {
    var u, it := AwaitCancel(s, w, c), s.items[w];
    assert ItemInv(s, w);
    if it.canceling {
      assert QueueInv(s, it.queue) && RunsOn(s, it.queue, w) && Accounted(s, it.queue);
      RunningNotWaiting(s, it.queue);
      forall d | d in u.cancellers ensures CancelInv(u, d) { assert CancelInv(s, d); }
      ListKeeps(s, u);
    }
  }

  lemma CancelSemKeeps(s: State, c: Canceller)
    requires Inv(s) && c in s.cancellers && s.cancellers[c].sem >= 1
    ensures Inv(TakeCancelSem(s, c))
  {
    var u := TakeCancelSem(s, c);
    forall d | d in u.cancellers ensures CancelInv(u, d) { assert CancelInv(s, d); }
    ListKeeps(s, u);
  }

  // ---- the operations ----

  lemma SubmitKeeps(s: State, w: Work, q: WorkQ?, caller: WorkQ?)
    requires Inv(s) && Client(s, w) && Known(s, q)
    ensures Inv(Submit(s, w, q, caller))
  {
    assert ItemInv(s, w);
    if SubmitCode(s, w, q, caller) > 0 { EnqueueKeeps(s, w, Target(s.items[w], q)); }
  }

  lemma DelayKeeps(s: State, w: Work, delayed: bool, q: WorkQ?)
    requires Inv(s) && Client(s, w) && w.kind == Delayable && Known(s, q) && (delayed ==> q != null)
    ensures Inv(SetDelay(s, w, delayed, q))
  {
    assert ItemInv(s, w);
    TouchKeeps(s, w, s.items[w].(delayed := delayed, delayQueue := q));
  }

  lemma ScheduleLockedKeeps(s: State, w: Work, q: WorkQ, noWait: bool, caller: WorkQ?)
    requires Inv(s) && Client(s, w) && w.kind == Delayable && q in s.queues
    ensures Inv(ScheduleLocked(s, w, q, noWait, caller))
  {
    if noWait { SubmitKeeps(s, w, q, caller); } else { DelayKeeps(s, w, true, q); }
  }

  lemma UnscheduleKeeps(s: State, w: Work)
    requires Inv(s) && Client(s, w) && w.kind == Delayable
    ensures Inv(Unschedule(s, w)) && Client(Unschedule(s, w), w)
    ensures Known(s, s.items[w].delayQueue)
  {
    assert ItemInv(s, w);
    DelayKeeps(s, w, false, s.items[w].delayQueue);
  }

  lemma FlushKeeps(s: State, w: Work, f: Work)
    requires Inv(s) && Client(s, w) && FreeFlusher(s, f)
    ensures Inv(Flush(s, w, f))
  {
    assert ItemInv(s, w);
    if NeedsFlush(s.items[w]) { PlaceKeeps(s, w, f, s.items[w].queue); }
  }

  lemma FlushDelayableKeeps(s: State, w: Work, f: Work, stopped: bool, caller: WorkQ?)
    requires Inv(s) && Client(s, w) && w.kind == Delayable && FreeFlusher(s, f)
    ensures Inv(FlushDelayable(s, w, f, stopped, caller))
  {
    if Busy(s.items[w]) != 0 {
      var u := Unschedule(s, w);
      UnscheduleKeeps(s, w);
      SubmitKeeps(u, w, s.items[w].delayQueue, caller);
      FlushKeeps(SubmitDelayed(s, w, stopped, caller), w, f);
    }
  }

  /** A cancelled item with a running handler is marked, any other is idle. */
  lemma CancelAsyncKeeps(s: State, w: Work)
    requires Inv(s) && Client(s, w) && !s.items[w].delayed
    ensures Inv(CancelAsync(s, w)) && Client(CancelAsync(s, w), w)
    ensures CancelAsync(s, w).cancels == s.cancels && CancelAsync(s, w).cancellers == s.cancellers
  {
    assert ItemInv(s, w);
    if !s.items[w].canceling && s.items[w].queued { DequeueKeeps(s, w, s.items[w].queue); }
    MarkKeeps(DequeueIfQueued(s, w), w);
  }

  lemma MarkKeeps(s: State, w: Work)
    requires Inv(s) && Client(s, w) && !s.items[w].delayed && (!s.items[w].canceling ==> !s.items[w].queued)
    ensures Inv(MarkCanceling(s, w))
  {
    assert ItemInv(s, w);
    TouchKeeps(s, w, s.items[w].(canceling := s.items[w].canceling || Busy(s.items[w]) != 0));
    assert s.items[w := s.items[w]] == s.items;
  }

  lemma CancelDelayableKeeps(s: State, w: Work)
    requires Inv(s) && Client(s, w) && w.kind == Delayable
    ensures Inv(CancelDelayable(s, w)) && Client(CancelDelayable(s, w), w)
    ensures CancelDelayable(s, w).cancels == s.cancels && CancelDelayable(s, w).cancellers == s.cancellers
  {
    UnscheduleKeeps(s, w);
    CancelAsyncKeeps(Unschedule(s, w), w);
  }

  lemma TakeKeeps(s: State, q: WorkQ)
    requires Inv(s) && q in s.queues && s.queues[q].worker == Ready
    ensures Inv(Take(s, q))
  {
    assert QueueInv(s, q);
    if s.queues[q].pending == [] {
      ControlKeeps(s, q, TakeNothing(s.queues[q]));
    } else {
      Members(s, q);
      TakeHeadKeeps(s, q);
    }
  }

  lemma FinishKeeps(s: State, q: WorkQ)
    requires Inv(s) && CanFinish(s, q)
    ensures Inv(Finish(s, q))
  {
    FinishCoreKeeps(s, q);
    ReleaseKeeps(FinishCore(s, q), s.queues[q].worker.work);
  }

  lemma FlushSemKeeps(s: State, f: Work)
    requires Inv(s) && f in s.items && f.kind == Flusher && s.items[f].sem >= 1
    ensures Inv(TakeFlushSem(s, f))
  {
    var it := s.items[f].(sem := s.items[f].sem - 1);
    FlushSemOne(s, f);
    assert TakeFlushSem(s, f) == s.(items := s.items[f := it]);
    hide *;
    TouchKeeps(s, f, it);
  }

  lemma FlushSemOne(s: State, f: Work)
    requires Inv(s) && f in s.items && f.kind == Flusher && s.items[f].sem >= 1
    ensures
      var it := s.items[f].(sem := s.items[f].sem - 1);
      SamePlace(s.items[f], it) && ItemInv(s.(items := s.items[f := it]), f)
  {
    assert ItemInv(s, f);
  }

  ghost predicate OnQueue(e: Event) {
    e.EWake? || e.EStart? || e.EDrain? || e.EUnplug? || e.EStop? || e.EStopTimeout? || e.ETakeDrainSem?
  }

  /** The queue after an event that concerns only its flags and semaphores. */
  ghost function QueueAfter(s: State, e: Event): Queue
    requires Enabled(s, e) && OnQueue(e)
  {
    Step(s, e).queues[e.on]
  }

  lemma ControlFlags(s: State, e: Event)
    requires Enabled(s, e) && OnQueue(e) && QueueInv(s, e.on)
    ensures FlagsInv(QueueAfter(s, e)) && SameLists(s.queues[e.on], QueueAfter(s, e))
  {}

  lemma ControlShape(s: State, e: Event)
    requires Enabled(s, e) && OnQueue(e)
    ensures Step(s, e) == s.(queues := s.queues[e.on := QueueAfter(s, e)])
  {
    assert s.queues[e.on := s.queues[e.on]] == s.queues;
  }

  lemma ControlStep(s: State, e: Event)
    requires Inv(s) && Enabled(s, e) && OnQueue(e)
    ensures Inv(Step(s, e))
  {
    assert QueueInv(s, e.on);
    ControlFlags(s, e);
    ControlShape(s, e);
    ControlKeeps(s, e.on, QueueAfter(s, e));
  }

  lemma SubmitStep(s: State, e: Event)
    requires Inv(s) && Enabled(s, e) && (e.ESubmit? || e.ESchedule? || e.EReschedule? || e.ETimeout?)
    ensures Inv(Step(s, e))
  {
    if e.ESubmit? {
      SubmitKeeps(s, e.work, e.queue, e.caller);
    } else {
      UnscheduleKeeps(s, e.work);
      if e.ESchedule? {
        ScheduleLockedKeeps(s, e.work, e.to, e.noWait, e.caller);
      } else if e.EReschedule? {
        ScheduleLockedKeeps(Unschedule(s, e.work), e.work, e.to, e.noWait, e.caller);
      } else {
        SubmitKeeps(Unschedule(s, e.work), e.work, s.items[e.work].delayQueue, null);
      }
    }
  }

  lemma CancelStep(s: State, e: Event)
    requires Inv(s) && Enabled(s, e)
    requires e.ECancel? || e.ECancelSync? || e.ECancelDelayable? || e.ECancelDelayableSync?
    ensures Inv(Step(s, e))
  {
    assert ItemInv(s, e.work);
    if e.ECancel? || e.ECancelSync? {
      CancelAsyncKeeps(s, e.work);
      if e.ECancelSync? { AwaitKeeps(CancelAsync(s, e.work), e.work, e.canceller); }
    } else {
      CancelDelayableKeeps(s, e.work);
      if e.ECancelDelayableSync? { AwaitKeeps(CancelDelayable(s, e.work), e.work, e.canceller); }
    }
  }

  /** Every event keeps the invariant. */
  lemma StepKeeps(s: State, e: Event)
    requires Inv(s) && Enabled(s, e)
    ensures Inv(Step(s, e))
  {
    if e.ESubmit? || e.ESchedule? || e.EReschedule? || e.ETimeout? { SubmitStep(s, e); }
    else if e.EFlush? { FlushKeeps(s, e.work, e.flusher); }
    else if e.EFlushDelayable? { FlushDelayableKeeps(s, e.work, e.flusher, e.stopped, e.caller); }
    else if OnQueue(e) { ControlStep(s, e); }
    else if e.ETake? { TakeKeeps(s, e.on); }
    else if e.EFinish? { FinishKeeps(s, e.on); }
    else if e.ETakeFlushSem? { FlushSemKeeps(s, e.flusher); }
    else if e.ETakeCancelSem? { CancelSemKeeps(s, e.canceller); }
    else { CancelStep(s, e); }
  }

  lemma InitialInv(s: State)
    requires Initial(s)
    ensures Inv(s)
  {
    forall q | q in s.queues ensures QueueInv(s, q) && Accounted(s, q) {}
  }

  /** Every reachable state satisfies the invariant. */
  lemma {:induction false} RunKeeps(s: State, es: seq<Event>)
    requires Inv(s) && Runs(s, es)
    ensures Inv(Exec(s, es))
    decreases |es|
  {
    if es != [] {
      StepKeeps(s, es[0]);
      RunKeeps(Step(s, es[0]), es[1..]);
    }
  }
}
