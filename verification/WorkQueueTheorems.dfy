/** What draining, plugging and stopping a queue promise, and what wakes its thread. */
module WorkQueueTheorems {
  import opened WorkState
  import opened WorkSpec
  import opened WorkInv
  import opened WorkSteps
  import opened WorkTheorems

  // ---- a plugged queue ----

  ghost predicate Quiet(s: State, q: WorkQ) {
    && q in s.queues
    && var qu := s.queues[q];
       qu.started && qu.plugged && qu.pending == [] && !qu.worker.Running?
  }

  /** A started queue that is plugged and no longer draining has nothing pending
      and runs nothing. */
  lemma PluggedIsQuiet(s0: State, es: seq<Event>, s: State, q: WorkQ)
    requires Reached(s0, es, s) && q in s.queues
    requires s.queues[q].started && s.queues[q].plugged && !s.queues[q].drain
    ensures Quiet(s, q)
  {
    ReachedInv(s0, es, s);
    assert QueueInv(s, q);
  }

  /** Still quiet, or its thread has returned. */
  ghost predicate Stays(u: State, q: WorkQ) { q in u.queues && (u.queues[q].started ==> Quiet(u, q)) }

  lemma QuietSubmit(s: State, w: Work, to: WorkQ?, caller: WorkQ?, q: WorkQ)
    requires Client(s, w) && Quiet(s, q) && (caller != null ==> caller in s.queues && s.queues[caller].worker.Running?)
    ensures Submit(s, w, to, caller).queues[q] == s.queues[q]
  {}

  lemma QuietFlush(s: State, w: Work, f: Work, q: WorkQ)
    requires Client(s, w) && f in s.items && ItemInv(s, w) && Quiet(s, q)
    ensures Flush(s, w, f).queues[q] == s.queues[q]
  {}

  lemma QuietCancel(s: State, w: Work, q: WorkQ)
    requires Client(s, w) && ItemInv(s, w) && Quiet(s, q)
    ensures CancelAsync(s, w).queues[q] == s.queues[q]
  {}

  lemma QuietSubmitStep(s: State, e: Event, q: WorkQ)
    requires Enabled(s, e) && Quiet(s, q) && SubmitEvent(e)
    ensures Stays(Step(s, e), q)
  {
    if e.ESubmit? { QuietSubmit(s, e.work, e.queue, e.caller, q); }
    else if e.ESchedule? { QuietSubmit(s, e.work, e.to, e.caller, q); }
    else if e.EReschedule? { QuietSubmit(Unschedule(s, e.work), e.work, e.to, e.caller, q); }
    else { QuietSubmit(Unschedule(s, e.work), e.work, s.items[e.work].delayQueue, null, q); }
  }

  lemma QuietFlushStep(s: State, e: Event, q: WorkQ)
    requires Inv(s) && Enabled(s, e) && Quiet(s, q) && FlushEvent(e)
    ensures Stays(Step(s, e), q)
  {
    BeforeFlushKeeps(s, e);
    var b := BeforeFlush(s, e);
    if e.EFlushDelayable? { QuietSubmit(Unschedule(s, e.work), e.work, s.items[e.work].delayQueue, e.caller, q); }
    assert ItemInv(b, e.work);
    QuietFlush(b, e.work, e.flusher, q);
  }

  lemma QuietCancelStep(s: State, e: Event, q: WorkQ)
    requires Inv(s) && Enabled(s, e) && Quiet(s, q) && CancelEvent(e)
    ensures Stays(Step(s, e), q)
  {
    if e.ECancel? || e.ECancelSync? {
      assert ItemInv(s, e.work);
      QuietCancel(s, e.work, q);
    } else {
      QuietCancelDelayable(s, e.work, q);
    }
    CancelEventQueues(s, e);
  }

  lemma QuietCancelDelayable(s: State, w: Work, q: WorkQ)
    requires Inv(s) && Client(s, w) && w.kind == Delayable && Quiet(s, q)
    ensures q in CancelDelayable(s, w).queues && CancelDelayable(s, w).queues[q] == s.queues[q]
  {
    UnscheduleKeeps(s, w);
    assert ItemInv(Unschedule(s, w), w);
    QuietCancel(Unschedule(s, w), w, q);
  }

  /** The queues after a cancel are those after its asynchronous part, or unchanged. */
  lemma CancelEventQueues(s: State, e: Event)
    requires Enabled(s, e) && CancelEvent(e)
    ensures
      || Step(s, e).queues == s.queues
      || Step(s, e).queues == if e.ECancel? || e.ECancelSync? then CancelAsync(s, e.work).queues
                              else CancelDelayable(s, e.work).queues
  {}

  lemma QuietOtherStep(s: State, e: Event, q: WorkQ)
    requires Enabled(s, e) && Quiet(s, q) && e != EUnplug(q) && !ItemEvent(e)
    ensures Stays(Step(s, e), q)
  {}

  lemma QuietStep(s: State, e: Event, q: WorkQ)
    requires Inv(s) && Enabled(s, e) && Quiet(s, q) && e != EUnplug(q)
    ensures Stays(Step(s, e), q)
  {
    hide Inv, Enabled, Quiet, Stays, Step, SubmitEvent, FlushEvent, CancelEvent;
    if SubmitEvent(e) { QuietSubmitStep(s, e, q); }
    else if FlushEvent(e) { QuietFlushStep(s, e, q); }
    else if CancelEvent(e) { QuietCancelStep(s, e, q); }
    else { QuietOtherStep(s, e, q); }
  }

  /** Neither pulls the plug nor starts the queue again. */
  ghost predicate LeavesPlugged(es: seq<Event>, q: WorkQ) {
    forall i :: 0 <= i < |es| ==> es[i] != EUnplug(q) && es[i] != EStart(q)
  }

  lemma StoppedStep(s: State, e: Event, q: WorkQ)
    requires Inv(s) && Enabled(s, e) && q in s.queues && !s.queues[q].started && e != EStart(q)
    ensures q in Step(s, e).queues && !Step(s, e).queues[q].started
  {
    assert QueueInv(s, q);
    StartsOnly(s, e, q);
  }

  lemma StartsOnly(s: State, e: Event, q: WorkQ)
    requires Enabled(s, e) && q in s.queues && e != EStart(q)
    ensures q in Step(s, e).queues && (Step(s, e).queues[q].started ==> s.queues[q].started)
  {
    if ItemEvent(e) { ItemEventFills(s, e, q); }
  }

  /** It stays so until unplugged or started again: nothing is accepted meanwhile. */
  lemma {:induction false} PluggedStaysQuiet(s: State, es: seq<Event>, q: WorkQ)
    requires Inv(s) && Runs(s, es) && q in s.queues && Stays(s, q) && LeavesPlugged(es, q)
    ensures Stays(Exec(s, es), q)
    decreases |es|
  {
    if es != [] {
      StepKeeps(s, es[0]);
      if s.queues[q].started { QuietStep(s, es[0], q); } else { StoppedStep(s, es[0], q); }
      PluggedStaysQuiet(Step(s, es[0]), es[1..], q);
    }
  }

  // ---- drain ----

  ghost predicate AllRetired(s: State, q: WorkQ, n: nat) {
    forall t :: 0 <= t < n ==> Retired(s, q, t)
  }

  /** With nothing pending and nothing running, every submission is done with. */
  lemma IdleRetires(s: State, q: WorkQ)
    requires Inv(s) && q in s.queues && s.queues[q].pending == [] && !s.queues[q].worker.Running?
    ensures AllRetired(s, q, |s.queues[q].accepted|)
  {
    forall t | 0 <= t < |s.queues[q].accepted| ensures Retired(s, q, t) { GoneIsRetired(s, q, t); }
  }

  ghost predicate Draining(s: State, q: WorkQ, plug: bool) {
    q in s.queues && s.queues[q].started && s.queues[q].drain && (plug ==> s.queues[q].plugged)
  }

  /** Only the queue thread, finding nothing pending, ends a drain; it gives the
      semaphore the drainer waits on. */
  lemma DrainEnds(s: State, e: Event, q: WorkQ, plug: bool)
    requires Inv(s) && Enabled(s, e) && Draining(s, q, plug) && (plug ==> e != EUnplug(q))
    requires !Draining(Step(s, e), q, plug)
    ensures e == ETake(q) && s.queues[q].pending == []
    ensures q in Step(s, e).queues
    ensures Step(s, e).queues[q] == s.queues[q].(drain := false, drainSem := 1, worker := Blocked)
  {
    assert QueueInv(s, q);
    if e != ETake(q) { DrainLasts(s, e, q); }
  }

  ghost predicate Drained(u: State, q: WorkQ, plug: bool, n: nat) {
    q in u.queues && AllRetired(u, q, n) && (plug ==> Stays(u, q))
  }

  lemma DrainStep(s: State, e: Event, q: WorkQ, plug: bool)
    requires Inv(s) && Enabled(s, e) && Draining(s, q, plug) && (plug ==> e != EUnplug(q))
    ensures Draining(Step(s, e), q, plug) || Drained(Step(s, e), q, plug, |s.queues[q].accepted|)
  {
    if !Draining(Step(s, e), q, plug) {
      DrainEnds(s, e, q, plug);
      IdleRetires(s, q);
      forall t | 0 <= t < |s.queues[q].accepted| ensures Retired(Step(s, e), q, t) { RetiredStays(s, e, q, t); }
    }
  }

  lemma DrainLasts(s: State, e: Event, q: WorkQ)
    requires Enabled(s, e) && q in s.queues && s.queues[q].started && e != ETake(q)
    ensures q in Step(s, e).queues
    ensures var a, b := s.queues[q], Step(s, e).queues[q];
            b.started && (a.drain ==> b.drain) && (a.plugged && e != EUnplug(q) ==> b.plugged)
  {
    if ItemEvent(e) { ItemEventFills(s, e, q); }
  }

  lemma {:induction false} DrainRun(s: State, es: seq<Event>, q: WorkQ, plug: bool, n: nat)
    requires Inv(s) && Runs(s, es) && (plug ==> LeavesPlugged(es, q))
    requires (Draining(s, q, plug) && n <= |s.queues[q].accepted|) || Drained(s, q, plug, n)
    ensures q in Exec(s, es).queues
    ensures !Exec(s, es).queues[q].drain || !Draining(s, q, plug) ==> Drained(Exec(s, es), q, plug, n)
    decreases |es|
  {
    if Drained(s, q, plug, n) {
      forall t | 0 <= t < n ensures Retired(Exec(s, es), q, t) { RetiredLasts(s, es, q, t); }
      if plug { PluggedStaysQuiet(s, es, q); }
      QueueLasts(s, es, q);
    } else if es != [] {
      StepKeeps(s, es[0]);
      DrainStep(s, es[0], q, plug);
      StepGrows(s, es[0], q);
      DrainRun(Step(s, es[0]), es[1..], q, plug, n);
    }
  }

  lemma {:induction false} QueueLasts(s: State, es: seq<Event>, q: WorkQ)
    requires Runs(s, es) && q in s.queues
    ensures q in Exec(s, es).queues
    decreases |es|
  {
    if es != [] {
      StepGrows(s, es[0], q);
      QueueLasts(Step(s, es[0]), es[1..], q);
    }
  }

  /** A drain is a barrier.  In every state of every continuation in which DRAIN has
      been cleared, all that the queue had accepted before the call has finished or
      was cancelled; if the drain plugs a started queue, that queue then stays quiet
      until it is unplugged or started again, although handlers may have submitted
      more while it drained. */
  lemma DrainIsBarrier(s0: State, es: seq<Event>, s: State, q: WorkQ, plug: bool, rest: seq<Event>)
    requires Reached(s0, es, s) && q in s.queues && MustDrain(s.queues[q], plug)
    requires Runs(Step(s, EDrain(q, plug)), rest)
    ensures
      var last := Exec(Step(s, EDrain(q, plug)), rest);
      && q in last.queues
      && (!last.queues[q].drain ==> AllRetired(last, q, |s.queues[q].accepted|))
      && (!last.queues[q].drain && plug && s.queues[q].started && LeavesPlugged(rest, q) ==> Stays(last, q))
  {
    var u, n := Step(s, EDrain(q, plug)), |s.queues[q].accepted|;
    ReachedInv(s0, es, s);
    StepKeeps(s, EDrain(q, plug));
    if s.queues[q].started {
      DrainRun(u, rest, q, false, n);
      if plug && LeavesPlugged(rest, q) { DrainRun(u, rest, q, true, n); }
    } else {
      assert QueueInv(u, q);
      IdleRetires(u, q);
      QueueLasts(u, rest, q);
      forall t | 0 <= t < n ensures Retired(Exec(u, rest), q, t) { RetiredLasts(u, rest, q, t); }
    }
  }

  /** A drain that does not wait found the queue idle. */
  lemma NoDrainNeeded(s0: State, es: seq<Event>, s: State, q: WorkQ, plug: bool)
    requires Reached(s0, es, s) && q in s.queues && !MustDrain(s.queues[q], plug)
    ensures AllRetired(s, q, |s.queues[q].accepted|)
  {
    ReachedInv(s0, es, s);
    assert QueueInv(s, q);
    IdleRetires(s, q);
  }

  // ---- the end of the thread ----

  /** The queue thread returns only on request, with nothing pending and every
      accepted submission finished or cancelled. */
  lemma ExitsEmpty(s0: State, es: seq<Event>, s: State, e: Event, u: State, q: WorkQ)
    requires Reached(s0, es, s) && Reached(s0, es + [e], u) && q in s.queues && q in u.queues
    requires s.queues[q].worker != Absent && u.queues[q].worker == Absent
    ensures e == ETake(q) && s.queues[q].stop && !s.queues[q].drain && s.queues[q].pending == []
    ensures AllRetired(s, q, |s.queues[q].accepted|)
  {
    ReachedInv(s0, es, s);
    LastStep(s0, es, s, e, u);
    AbsentOnly(s, e, q);
    IdleRetires(s, q);
  }

  lemma AbsentOnly(s: State, e: Event, q: WorkQ)
    requires Enabled(s, e) && q in s.queues && s.queues[q].worker != Absent
    requires q in Step(s, e).queues && Step(s, e).queues[q].worker == Absent
    ensures e == ETake(q) && s.queues[q].stop && !s.queues[q].drain && s.queues[q].pending == []
  {
    if ItemEvent(e) { ItemEventFills(s, e, q); }
  }

  // ---- waking the thread ----

  /** While anything is pending, or a drain is asked for, the thread of a started
      queue is at work or its wake-up is already in the semaphore. */
  lemma NoLostWakeup(s0: State, es: seq<Event>, s: State, q: WorkQ)
    requires Reached(s0, es, s) && q in s.queues && s.queues[q].started
    requires s.queues[q].pending != [] || s.queues[q].drain
    ensures match s.queues[q].worker
            case Absent => false
            case Ready => true
            case Blocked => s.queues[q].notify == 1
            case Running(_) => true
  {
    ReachedInv(s0, es, s);
    assert QueueInv(s, q);
  }

  /** The same of a request to stop. */
  ghost predicate StopKept(s: State, q: WorkQ)
    requires q in s.queues
  {
    s.queues[q].stop && s.queues[q].worker == Blocked ==> s.queues[q].notify >= 1
  }

  /** It is kept by every step but one: the thread ends a drain, the branch that
      sleeps without looking at STOP, while no wake-up is left in the semaphore. */
  lemma StopLostExactly(s0: State, es: seq<Event>, s: State, e: Event, u: State, q: WorkQ)
    requires Reached(s0, es, s) && Reached(s0, es + [e], u) && q in s.queues && StopKept(s, q)
    ensures q in u.queues
    ensures !StopKept(u, q) <==> LosesStop(s, e, q)
  {
    LastStep(s0, es, s, e, u);
    ReachedInv(s0, es, s);
    StopLostStep(s, e, q);
  }

  /** The queue thread ends a drain, and no wake-up is left for STOP. */
  ghost predicate LosesStop(s: State, e: Event, q: WorkQ)
    requires q in s.queues
  {
    e == ETake(q) && s.queues[q].pending == [] && s.queues[q].drain && s.queues[q].stop && s.queues[q].notify == 0
  }

  lemma StopLostStep(s: State, e: Event, q: WorkQ)
    requires Inv(s) && Enabled(s, e) && q in s.queues && StopKept(s, q)
    ensures q in Step(s, e).queues
    ensures !StopKept(Step(s, e), q) <==> LosesStop(s, e, q)
  {
    assert QueueInv(s, q);
    if ItemEvent(e) { ItemEventFills(s, e, q); } else { OtherNotifies(s, e, q); }
  }

  lemma OtherNotifies(s: State, e: Event, q: WorkQ)
    requires Enabled(s, e) && q in s.queues && QueueInv(s, q) && StopKept(s, q) && !ItemEvent(e)
    ensures q in Step(s, e).queues
    ensures !StopKept(Step(s, e), q) <==> LosesStop(s, e, q)
  {}

  /** STOP is kept at the start of the run and behind each of its steps. */
  ghost predicate KeptThroughout(s: State, es: seq<Event>, q: WorkQ)
    requires Runs(s, es)
    decreases |es|
  {
    && q in s.queues && StopKept(s, q)
    && (es != [] ==> KeptThroughout(Step(s, es[0]), es[1..], q))
  }

  /** One of the steps of the run loses it. */
  ghost predicate EverLoses(s: State, es: seq<Event>, q: WorkQ)
    requires Runs(s, es)
    decreases |es|
  {
    es != [] && ((q in s.queues && LosesStop(s, es[0], q)) || EverLoses(Step(s, es[0]), es[1..], q))
  }

  /** Over every run a request to stop is kept throughout exactly if none of the steps is
      that one. */
  lemma StopLostInRun(s0: State, es: seq<Event>, q: WorkQ)
    requires Initial(s0) && Runs(s0, es) && q in s0.queues
    ensures !KeptThroughout(s0, es, q) <==> EverLoses(s0, es, q)
  {
    InitialInv(s0);
    LostInRun(s0, es, q);
  }

  lemma {:induction false} LostInRun(s: State, es: seq<Event>, q: WorkQ)
    requires Inv(s) && Runs(s, es) && q in s.queues && StopKept(s, q)
    ensures !KeptThroughout(s, es, q) <==> EverLoses(s, es, q)
    decreases |es|
  {
    hide Inv, Step, Enabled, LosesStop;
    if es != [] {
      StepKeeps(s, es[0]);
      StopLostStep(s, es[0], q);
      if !LosesStop(s, es[0], q) { LostInRun(Step(s, es[0]), es[1..], q); }
    }
  }

  // ---- a caller who keeps drain and stop apart ----

  /** No stop while the queue drains, and no drain while it is to stop. */
  ghost predicate KeepsApart(s: State, es: seq<Event>, q: WorkQ)
    requires Runs(s, es)
    decreases |es|
  {
    es != [] ==> Apart(s, es[0], q) && KeepsApart(Step(s, es[0]), es[1..], q)
  }

  ghost predicate Apart(s: State, e: Event, q: WorkQ) {
    q in s.queues ==> (e == EStop(q) ==> !s.queues[q].drain) && (e.EDrain? && e.on == q ==> !s.queues[q].stop)
  }

  ghost predicate Tidy(s: State, q: WorkQ) {
    q in s.queues && !(s.queues[q].drain && s.queues[q].stop) && StopKept(s, q)
  }

  lemma TidyStep(s: State, e: Event, q: WorkQ)
    requires Inv(s) && Enabled(s, e) && Tidy(s, q) && Apart(s, e, q)
    ensures Tidy(Step(s, e), q)
  {
    hide Inv, QueueInv, Enabled, Step, ItemEvent, Apart;
    if ItemEvent(e) {
      TidyItemStep(s, e, q);
    } else {
      QueueKeepsInv(s, q);
      OtherNotifies(s, e, q);
      NotBoth(s, e, q);
    }
  }

  lemma QueueKeepsInv(s: State, q: WorkQ)
    requires Inv(s) && q in s.queues
    ensures QueueInv(s, q)
  {}

  lemma TidyItemStep(s: State, e: Event, q: WorkQ)
    requires Inv(s) && Enabled(s, e) && Tidy(s, q) && ItemEvent(e)
    ensures Tidy(Step(s, e), q)
  {
    hide Step, ItemEvent, Enabled;
    assert QueueInv(s, q);
    ItemEventFills(s, e, q);
  }

  lemma NotBoth(s: State, e: Event, q: WorkQ)
    requires Enabled(s, e) && Tidy(s, q) && Apart(s, e, q) && !ItemEvent(e)
    ensures q in Step(s, e).queues && !(Step(s, e).queues[q].drain && Step(s, e).queues[q].stop)
    ensures e == ETake(q) && s.queues[q].drain ==> !s.queues[q].stop
  {}

  lemma {:induction false} TidyRun(s: State, es: seq<Event>, q: WorkQ)
    requires Inv(s) && Runs(s, es) && Tidy(s, q) && KeepsApart(s, es, q)
    ensures Tidy(Exec(s, es), q)
    decreases |es|
  {
    if es != [] {
      StepKeeps(s, es[0]);
      TidyStep(s, es[0], q);
      TidyRun(Step(s, es[0]), es[1..], q);
    }
  }

  /** Over every run that keeps them apart, a request to stop is never lost: the thread
      of a queue that is to stop is at work, or its wake-up is in the semaphore. */
  lemma StopNeverLost(s0: State, es: seq<Event>, q: WorkQ)
    requires Initial(s0) && Runs(s0, es) && q in s0.queues && KeepsApart(s0, es, q)
    ensures q in Exec(s0, es).queues && StopKept(Exec(s0, es), q)
  {
    InitialInv(s0);
    TidyRun(s0, es, q);
  }

  ghost function OneQueue(q: WorkQ, qu: Queue): State { State(map[], map[q := qu], map[], []) }

  const Asleep := NewQueue.(started := true, worker := Blocked)
  const Stopping := Asleep.(drain := true, plugged := true, stop := true, notify := 1)
  const StopLost := Stopping.(drain := false, drainSem := 1, notify := 0)

  lemma FallsAsleep(q: WorkQ, rest: seq<Event>)
    requires Runs(OneQueue(q, Asleep), rest)
    ensures var s0, es := OneQueue(q, NewQueue), [EStart(q)] + ([ETake(q)] + rest);
            Initial(s0) && Runs(s0, es) && Exec(s0, es) == Exec(OneQueue(q, Asleep), rest)
  {
    var idle := NewQueue.(started := true, worker := Ready);
    assert Step(OneQueue(q, NewQueue), EStart(q)) == OneQueue(q, idle);
    assert Step(OneQueue(q, idle), ETake(q)) == OneQueue(q, Asleep);
    RunCons(OneQueue(q, idle), ETake(q), rest);
    RunCons(OneQueue(q, NewQueue), EStart(q), [ETake(q)] + rest);
  }

  lemma DrainsAndStops(q: WorkQ, rest: seq<Event>)
    requires Runs(OneQueue(q, Stopping), rest)
    ensures var es := [EDrain(q, true)] + ([EStop(q)] + rest);
            Runs(OneQueue(q, Asleep), es) && Exec(OneQueue(q, Asleep), es) == Exec(OneQueue(q, Stopping), rest)
  {
    var draining := Asleep.(drain := true, plugged := true, notify := 1);
    assert Step(OneQueue(q, Asleep), EDrain(q, true)) == OneQueue(q, draining);
    assert Step(OneQueue(q, draining), EStop(q)) == OneQueue(q, Stopping);
    RunCons(OneQueue(q, draining), EStop(q), rest);
    RunCons(OneQueue(q, Asleep), EDrain(q, true), [EStop(q)] + rest);
  }

  lemma WakesForDrain(q: WorkQ)
    ensures var es := [EWake(q)] + ([ETake(q)] + []);
            Runs(OneQueue(q, Stopping), es) && Exec(OneQueue(q, Stopping), es) == OneQueue(q, StopLost)
  {
    var woken := Stopping.(notify := 0, worker := Ready);
    assert Step(OneQueue(q, Stopping), EWake(q)) == OneQueue(q, woken);
    assert Step(OneQueue(q, woken), ETake(q)) == OneQueue(q, StopLost);
    RunCons(OneQueue(q, woken), ETake(q), []);
    RunCons(OneQueue(q, Stopping), EWake(q), [ETake(q)] + []);
  }

  /** Drain and stop an idle queue: both wake-ups fall on a semaphore of limit one,
      the thread ends the drain and sleeps on, with STOP still asked for. */
  lemma StopCanBeLost(q: WorkQ)
    ensures
      var s0 := OneQueue(q, NewQueue);
      var es := [EStart(q)] + ([ETake(q)] + ([EDrain(q, true)] + ([EStop(q)] + ([EWake(q)] + ([ETake(q)] + [])))));
      Initial(s0) && Runs(s0, es) && Exec(s0, es) == OneQueue(q, StopLost)
    ensures StopLost.stop && StopLost.worker == Blocked && StopLost.notify == 0
  {
    WakesForDrain(q);
    DrainsAndStops(q, [EWake(q)] + ([ETake(q)] + []));
    FallsAsleep(q, [EDrain(q, true)] + ([EStop(q)] + ([EWake(q)] + ([ETake(q)] + []))));
  }
}
