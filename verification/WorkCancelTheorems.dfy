/** What bt_work_cancel_sync promises, and where it does not. */
module WorkCancelTheorems {
  import opened WorkState
  import opened WorkSpec
  import opened WorkInv
  import opened WorkKeeps
  import opened WorkSteps
  import opened WorkTheorems

  ghost predicate SyncCancel(e: Event) { e.ECancelSync? || e.ECancelDelayableSync? }

  ghost predicate NeverCancelsWith(es: seq<Event>, c: Canceller) { forall i :: 0 <= i < |es| ==> !CancelOf(es[i], c) }

  // ---- waiting for the handler that was running ----

  /** Canceller `c` is on the list for the handler of `w` that is running. */
  ghost predicate Awaits(u: State, c: Canceller, w: Work) {
    && c in u.cancellers && c in u.cancels && w in u.items
    && u.cancellers[c].work == w && u.cancellers[c].on != null && u.cancellers[c].on == u.items[w].queue
    && Outstanding(u, w) <= {u.cancellers[c].token}
  }

  lemma CancelAsyncLeaves(s: State, w: Work)
    requires Inv(s) && Client(s, w) && !s.items[w].delayed
    ensures var it := CancelAsync(s, w).items[w];
            !it.queued && !it.delayed && (it.running <==> it.canceling)
  {
    assert ItemInv(s, w);
  }

  /** Nothing of the item waits, on a queue or for its timer, and it is marked if it still runs. */
  ghost predicate LeftAlone(it: Item) { !it.queued && !it.delayed && (it.running <==> it.canceling) }

  lemma CancelDelayableLeaves(s: State, w: Work)
    requires Inv(s) && Client(s, w) && w.kind == Delayable
    ensures w in CancelDelayable(s, w).items && LeftAlone(CancelDelayable(s, w).items[w])
  {
    UnscheduleKeeps(s, w);
    CancelAsyncLeaves(Unschedule(s, w), w);
  }

  /** Waiting for a cancel changes no item, and an item that is not busy is left alone. */
  lemma AwaitItems(s: State, w: Work, c: Canceller)
    requires Inv(s) && Client(s, w)
    ensures AwaitCancel(s, w, c).items == s.items
    ensures Busy(s.items[w]) == 0 ==> LeftAlone(s.items[w])
  {}

  lemma CancelIs(s: State, e: Event)
    requires Inv(s) && Enabled(s, e) && CancelEvent(e)
    ensures e.ECancel? || e.ECancelSync? || e.ECancelDelayable? || e.ECancelDelayableSync?
    ensures Client(s, e.work) && (if e.ECancel? || e.ECancelSync? then !s.items[e.work].delayed else e.work.kind == Delayable)
    ensures Step(s, e) ==
            match e
            case ECancel(w) => CancelAsync(s, w)
            case ECancelSync(w, c) => CancelSync(s, w, c)
            case ECancelDelayable(w) => CancelDelayable(s, w)
            case ECancelDelayableSync(w, c) => CancelDelayableSync(s, w, c)
            case _ => s
  {
    assert ItemInv(s, e.work);
  }

  /** So it is after a cancel of any kind, whatever the item was doing before. */
  lemma CancelLeaves(s: State, e: Event)
    requires Inv(s) && Enabled(s, e) && CancelEvent(e)
    ensures e.work in Step(s, e).items && LeftAlone(Step(s, e).items[e.work])
  {
    var w := e.work;
    CancelIs(s, e);
    hide *;
    match e {
      case ECancel(_) => CancelAsyncLeaves(s, w);
      case ECancelDelayable(_) => CancelDelayableLeaves(s, w);
      case ECancelSync(_, c) => PlainSyncLeaves(s, w, c);
      case ECancelDelayableSync(_, c) => DelayableSyncLeaves(s, w, c);
    }
  }

  lemma PlainSyncLeaves(s: State, w: Work, c: Canceller)
    requires Inv(s) && Client(s, w) && !s.items[w].delayed
    ensures w in CancelSync(s, w, c).items && LeftAlone(CancelSync(s, w, c).items[w])
  {
    CancelAsyncLeaves(s, w);
    CancelAsyncKeeps(s, w);
    var u := CancelAsync(s, w);
    AwaitItems(s, w, c);
    hide Inv, CancelAsync, Busy;
    AwaitItems(u, w, c);
  }

  lemma DelayableSyncLeaves(s: State, w: Work, c: Canceller)
    requires Inv(s) && Client(s, w) && w.kind == Delayable
    ensures w in CancelDelayableSync(s, w, c).items && LeftAlone(CancelDelayableSync(s, w, c).items[w])
  {
    CancelDelayableLeaves(s, w);
    CancelDelayableKeeps(s, w);
    AwaitItems(s, w, c);
    var u := CancelDelayable(s, w);
    hide Inv, CancelDelayable, Busy;
    AwaitItems(u, w, c);
  }

  lemma AwaitPlaces(s: State, w: Work, c: Canceller)
    requires Inv(s) && Client(s, w) && FreeCanceller(s, c)
    requires !s.items[w].queued && (s.items[w].running <==> s.items[w].canceling)
    ensures var u := AwaitCancel(s, w, c);
            if c in u.cancels then Awaits(u, c, w) else Outstanding(u, w) == {}
  {
    assert ItemInv(s, w);
    if s.items[w].running { assert QueueInv(s, s.items[w].queue) && RunsOn(s, s.items[w].queue, w); }
  }

  lemma SyncCancelPlaces(s: State, e: Event)
    requires Inv(s) && Enabled(s, e) && SyncCancel(e)
    ensures var u := Step(s, e);
            && e.work in u.items
            && if e.canceller in u.cancels then Awaits(u, e.canceller, e.work) else Outstanding(u, e.work) == {}
  {
    var w, c := e.work, e.canceller;
    assert ItemInv(s, w);
    if Busy(s.items[w]) != 0 {
      if e.ECancelSync? {
        CancelAsyncLeaves(s, w);
        CancelAsyncKeeps(s, w);
        AwaitPlaces(CancelAsync(s, w), w, c);
      } else {
        UnscheduleKeeps(s, w);
        CancelAsyncLeaves(Unschedule(s, w), w);
        CancelDelayableKeeps(s, w);
        AwaitPlaces(CancelDelayable(s, w), w, c);
      }
    }
  }

  lemma {:induction false} WaitLasts(s: State, es: seq<Event>, c: Canceller)
    requires Inv(s) && Runs(s, es) && c in s.cancellers && NeverCancelsWith(es, c)
    ensures var u := Exec(s, es);
            c in u.cancellers && u.cancellers[c].on == s.cancellers[c].on && u.cancellers[c].token == s.cancellers[c].token
    decreases |es|
  {
    if es != [] {
      StepKeeps(s, es[0]);
      StepKeepsWait(s, es[0], c);
      WaitLasts(Step(s, es[0]), es[1..], c);
    }
  }

  lemma AwaitedRetires(u: State, c: Canceller, w: Work, rest: seq<Event>, q: WorkQ, t: nat)
    requires Inv(u) && Client(u, w) && Runs(u, rest) && NeverCancelsWith(rest, c) && c in u.cancellers
    requires if c in u.cancels then Awaits(u, c, w) else Outstanding(u, w) == {}
    requires Accepted(u, q, t) && u.queues[q].accepted[t] == w
    ensures
      var last := Exec(u, rest);
      && c in last.cancellers
      && (last.cancellers[c].sem > 0 ==> c !in last.cancels)
      && (c !in last.cancels ==> Retired(last, q, t))
  {
    WaitLasts(u, rest, c);
    RunKeeps(u, rest);
    var last := Exec(u, rest);
    if c !in last.cancels {
      if Retired(u, q, t) {
        RetiredLasts(u, rest, q, t);
      } else {
        OutstandingComplete(u, w, q, t);
        assert CancelInv(last, c);
        GoneIsRetired(last, q, t);
      }
    }
  }

  /** A synchronous cancel is a barrier.  In every state of every continuation in
      which its canceller is off the list (its semaphore can only then be taken; if
      it never got on the list, at once), no submission of the item accepted before
      the call waits or runs. */
  lemma CancelSyncIsBarrier(s0: State, es: seq<Event>, s: State, e: Event, u: State, rest: seq<Event>, q: WorkQ, t: nat)
    requires Reached(s0, es, s) && Reached(s0, es + [e], u) && SyncCancel(e)
    requires Runs(u, rest) && NeverCancelsWith(rest, e.canceller)
    requires Accepted(u, q, t) && u.queues[q].accepted[t] == e.work
    ensures
      var last := Exec(u, rest);
      && e.canceller in last.cancellers
      && (last.cancellers[e.canceller].sem > 0 ==> e.canceller !in last.cancels)
      && (e.canceller !in last.cancels ==> Retired(last, q, t))
  {
    ReachedInv(s0, es, s);
    LastStep(s0, es, s, e, u);
    StepKeeps(s, e);
    SyncCancelPlaces(s, e);
    SyncCancelKnows(s, e);
    AwaitedRetires(u, e.canceller, e.work, rest, q, t);
  }

  lemma SyncCancelKnows(s: State, e: Event)
    requires Enabled(s, e) && SyncCancel(e)
    ensures e.canceller in Step(s, e).cancellers
  {}

  // ---- when the semaphore is given ----

  /** A canceller is released by the end of the handler it waits for, and by
      nothing else; the item is then neither running nor in any list. */
  lemma ReleasedWhenIdle(s0: State, es: seq<Event>, s: State, e: Event, u: State, c: Canceller)
    requires Reached(s0, es, s) && Reached(s0, es + [e], u)
    requires c in s.cancellers && c in s.cancels && c !in u.cancels
    ensures
      var w := s.cancellers[c].work;
      && e.EFinish? && w != null && e.on in s.queues && s.queues[e.on].worker == Running(w)
      && c in u.cancellers && u.cancellers[c].sem == 1
      && w in u.items && !u.items[w].running && !u.items[w].queued && !u.items[w].canceling
      && forall q :: q in u.queues ==> Apart(u, q, w)
  {
    ReachedInv(s0, es, s);
    LastStep(s0, es, s, e, u);
    StepKeeps(s, e);
    ListStep(s, e);
    var w := s.queues[e.on].worker.work;
    assert QueueInv(s, e.on) && RunsOn(s, e.on, w) && ItemInv(s, w) && ItemInv(u, w);
    FinishReleases(s, e.on, c);
    NotPending(u, w);
    forall q | q in u.queues ensures Apart(u, q, w) {
      assert QueueInv(u, q);
      assert u.queues[q].worker.Running? ==> RunsOn(u, q, u.queues[q].worker.work);
    }
  }

  lemma FinishReleases(s: State, q: WorkQ, c: Canceller)
    requires CanFinish(s, q) && CancelListInv(s) && c in s.cancels && c !in Finish(s, q).cancels
    ensures var w := s.queues[q].worker.work;
            && s.cancellers[c].work == w && !s.items[w].flushing && s.items[w].canceling
            && Finish(s, q).cancellers[c].sem == 1
  {
    var w := s.queues[q].worker.work;
    var i := FirstWait(FinishCore(s, q), s.cancels, w);
    if i < |s.cancels| { CutOne(s.cancels, i); }
  }

  /** Only a synchronous cancel puts on the list, only the end of a handler takes off. */
  lemma ListStep(s: State, e: Event)
    requires Enabled(s, e)
    ensures var u := Step(s, e);
            && (!e.EFinish? && !SyncCancel(e) ==> u.cancels == s.cancels)
            && (SyncCancel(e) ==> u.cancels == s.cancels || u.cancels == s.cancels + [e.canceller])
  {}

  // ---- CANCELING blocks the item ----

  /** `u` has no more submissions of `w` accepted on `q` than `s`. */
  ghost predicate NoneAccepted(s: State, u: State, w: Work, q: WorkQ) {
    && q in s.queues && q in u.queues
    && forall t :: |s.queues[q].accepted| <= t < |u.queues[q].accepted| ==> u.queues[q].accepted[t] != w
  }

  ghost predicate MarkedItem(s: State, w: Work) { Client(s, w) && s.items[w].canceling }

  /** Between the cancel and the end of the handler nothing of the item is accepted,
      and only the end of that handler clears the mark. */
  lemma CancelingBlocks(s0: State, es: seq<Event>, s: State, e: Event, u: State, w: Work, q: WorkQ)
    requires Reached(s0, es, s) && Reached(s0, es + [e], u) && MarkedItem(s, w) && q in s.queues
    requires e.EFinish? ==> e.on in s.queues && s.queues[e.on].worker != Running(w)
    ensures MarkedItem(u, w)
    ensures NoneAccepted(s, u, w, q)
  {
    LastStep(s0, es, s, e, u);
    MarkLasts(s, e, w);
    if SubmitEvent(e) { SubmitAccepts(s, e, w, q); }
    else if FlushEvent(e) { FlushAccepts(s, e, w, q); }
    else { OthersAccept(s, e, q); }
  }

  lemma MarkLasts(s: State, e: Event, w: Work)
    requires Enabled(s, e) && MarkedItem(s, w)
    requires e.EFinish? ==> s.queues[e.on].worker != Running(w)
    ensures MarkedItem(Step(s, e), w)
  {
    if SubmitEvent(e) { SubmitMarks(s, e, w); }
    else if FlushEvent(e) { FlushMarks(s, e, w); }
    else if CancelEvent(e) { CancelMarks(s, e, w); }
    else if e.EFinish? { FinishMarks(s, e.on, w); }
  }

  lemma SubmitMarks(s: State, e: Event, w: Work)
    requires Enabled(s, e) && SubmitEvent(e) && MarkedItem(s, w)
    ensures MarkedItem(Step(s, e), w)
  {}

  lemma FlushMarks(s: State, e: Event, w: Work)
    requires Enabled(s, e) && FlushEvent(e) && MarkedItem(s, w)
    ensures MarkedItem(Step(s, e), w)
  {}

  lemma CancelMarks(s: State, e: Event, w: Work)
    requires Enabled(s, e) && CancelEvent(e) && MarkedItem(s, w)
    ensures MarkedItem(Step(s, e), w)
  {
    CancelAsyncMarks(s, e.work, w);
    CancelAsyncMarks(Unschedule(s, e.work), e.work, w);
  }

  lemma CancelAsyncMarks(s: State, v: Work, w: Work)
    requires v in s.items && w in s.items
    ensures w in CancelAsync(s, v).items && (s.items[w].canceling ==> CancelAsync(s, v).items[w].canceling)
  {}

  lemma FinishMarks(s: State, q: WorkQ, w: Work)
    requires CanFinish(s, q) && MarkedItem(s, w) && s.queues[q].worker.work != w
    ensures MarkedItem(Finish(s, q), w)
  {}

  lemma SubmitAccepts(s: State, e: Event, w: Work, q: WorkQ)
    requires Enabled(s, e) && SubmitEvent(e) && MarkedItem(s, w) && q in s.queues
    ensures NoneAccepted(s, Step(s, e), w, q)
  {}

  lemma FlushAccepts(s: State, e: Event, w: Work, q: WorkQ)
    requires Enabled(s, e) && FlushEvent(e) && MarkedItem(s, w) && q in s.queues
    ensures NoneAccepted(s, Step(s, e), w, q)
  {}

  lemma OthersAccept(s: State, e: Event, q: WorkQ)
    requires Enabled(s, e) && q in s.queues && !SubmitEvent(e) && !FlushEvent(e)
    ensures q in Step(s, e).queues && Step(s, e).queues[q].accepted == s.queues[q].accepted
  {
    if CancelEvent(e) { CancelAccepts(s, e, q); }
    else if e.EFinish? { FinishAccepts(s, e.on, q); }
    else if e.ETake? { TakeAccepts(s, e.on, q); }
    else { ControlAccepts(s, e, q); }
  }

  lemma CancelAccepts(s: State, e: Event, q: WorkQ)
    requires Enabled(s, e) && q in s.queues && CancelEvent(e)
    ensures q in Step(s, e).queues && Step(s, e).queues[q].accepted == s.queues[q].accepted
  {
    CancelAsyncAccepts(s, e.work, q);
    CancelAsyncAccepts(Unschedule(s, e.work), e.work, q);
  }

  lemma CancelAsyncAccepts(s: State, w: Work, q: WorkQ)
    requires w in s.items && q in s.queues
    ensures q in CancelAsync(s, w).queues && CancelAsync(s, w).queues[q].accepted == s.queues[q].accepted
  {}

  lemma FinishAccepts(s: State, r: WorkQ, q: WorkQ)
    requires CanFinish(s, r) && q in s.queues
    ensures q in Finish(s, r).queues && Finish(s, r).queues[q].accepted == s.queues[q].accepted
  {}

  lemma TakeAccepts(s: State, r: WorkQ, q: WorkQ)
    requires r in s.queues && q in s.queues
    ensures q in Take(s, r).queues && Take(s, r).queues[q].accepted == s.queues[q].accepted
  {}

  lemma ControlAccepts(s: State, e: Event, q: WorkQ)
    requires Enabled(s, e) && q in s.queues && !SubmitEvent(e) && !FlushEvent(e) && !CancelEvent(e) && !e.EFinish? && !e.ETake?
    ensures q in Step(s, e).queues && Step(s, e).queues[q].accepted == s.queues[q].accepted
  {}

  // ---- entries of pending_cancels that nobody will release ----

  /** Every listed canceller names an item that is marked CANCELING. */
  ghost predicate CancelsLive(s: State) {
    forall i :: 0 <= i < |s.cancels| ==> Marked(s, s.cancels[i])
  }

  ghost predicate Marked(s: State, c: Canceller) {
    && c in s.cancellers
    && var w := s.cancellers[c].work;
       w != null && w in s.items && s.items[w].canceling
  }

  ghost predicate TwoWait(s: State, w: Work) {
    exists i, j :: 0 <= i < j < |s.cancels| && Names(s, s.cancels[i], w) && Names(s, s.cancels[j], w)
  }

  /** Steps that end no handler leave every mark. */
  lemma MarksLast(s: State, e: Event)
    requires Inv(s) && Enabled(s, e) && CancelsLive(s) && !e.EFinish?
    ensures CancelsLive(Step(s, e))
  {
    var u := Step(s, e);
    ListStep(s, e);
    forall i | 0 <= i < |u.cancels| ensures Marked(u, u.cancels[i]) {
      if i < |s.cancels| {
        MarkedLasts(s, e, s.cancels[i]);
      } else {
        NewIsMarked(s, e);
      }
    }
  }

  lemma NewIsMarked(s: State, e: Event)
    requires Inv(s) && Enabled(s, e) && SyncCancel(e) && e.canceller in Step(s, e).cancels
    ensures Marked(Step(s, e), e.canceller)
  {
    StepKeeps(s, e);
    SyncCancelPlaces(s, e);
    var u := Step(s, e);
    assert ItemInv(u, e.work);
    AwaitMarks(s, e);
  }

  lemma AwaitMarks(s: State, e: Event)
    requires Enabled(s, e) && SyncCancel(e) && e.canceller in Step(s, e).cancels
    ensures Step(s, e).items[e.work].canceling
  {}

  lemma MarkedLasts(s: State, e: Event, c: Canceller)
    requires Inv(s) && Enabled(s, e) && Marked(s, c) && c in s.cancels && !e.EFinish?
    ensures Marked(Step(s, e), c)
  {
    MarkLasts(s, e, s.cancellers[c].work);
    WorkLasts(s, e, c);
  }

  lemma WorkLasts(s: State, e: Event, c: Canceller)
    requires Enabled(s, e) && c in s.cancellers && c in s.cancels
    ensures c in Step(s, e).cancellers && Step(s, e).cancellers[c].work == s.cancellers[c].work
  {
    if CancelEvent(e) {
      CancelAsyncFrame(s, e.work);
      CancelAsyncFrame(Unschedule(s, e.work), e.work);
    } else {
      OthersKeepWait(s, e, c);
    }
  }

  /** What the end of the handler of `w` leaves of the marks and of the list. */
  lemma FinishFrame(s: State, q: WorkQ)
    requires Inv(s) && CanFinish(s, q) && CancelsLive(s)
    ensures
      var u, w, i := Finish(s, q), s.queues[q].worker.work, FirstWait(s, s.cancels, s.queues[q].worker.work);
      && (forall c :: c in s.cancellers ==> c in u.cancellers && u.cancellers[c].work == s.cancellers[c].work)
      && w in u.items && !u.items[w].canceling
      && (forall v :: v in s.items && v != w ==> v in u.items && u.items[v] == s.items[v])
      && u.cancels == if i == |s.cancels| then s.cancels else s.cancels[..i] + s.cancels[i + 1..]
  {
    var v, w := FinishCore(s, q), s.queues[q].worker.work;
    assert QueueInv(s, q) && RunsOn(s, q, w) && ItemInv(s, w);
    hide Inv, QueueInv, FirstWait, ReleaseCanceller;
    forall j | 0 <= j < |s.cancels| ensures Marked(s, s.cancels[j]) && Names(v, s.cancels[j], w) == Names(s, s.cancels[j], w) {}
    FirstWaitIs(s, v, s.cancels, w);
    ReleaseFrame(v, w);
  }

  lemma ReleaseFrame(s: State, w: Work)
    requires forall j :: 0 <= j < |s.cancels| ==> s.cancels[j] in s.cancellers
    ensures
      var u, i := ReleaseCanceller(s, w), FirstWait(s, s.cancels, w);
      && u.items == s.items
      && (forall c :: c in s.cancellers ==> c in u.cancellers && u.cancellers[c].work == s.cancellers[c].work)
      && u.cancels == if i == |s.cancels| then s.cancels else s.cancels[..i] + s.cancels[i + 1..]
  {}

  lemma FirstWaitIs(s: State, u: State, cs: seq<Canceller>, w: Work)
    requires forall j :: 0 <= j < |cs| ==> Names(u, cs[j], w) == Names(s, cs[j], w)
    ensures FirstWait(u, cs, w) == FirstWait(s, cs, w)
  {
    hide FirstWait;
    var a, b := FirstWait(u, cs, w), FirstWait(s, cs, w);
    assert a < |cs| ==> Names(s, cs[a], w);
    assert b < |cs| ==> Names(u, cs[b], w);
  }

  /** The end of a handler leaves an entry without a mark just when two wait for it. */
  lemma FinishLeavesStale(s: State, q: WorkQ)
    requires Inv(s) && CanFinish(s, q) && CancelsLive(s)
    ensures !CancelsLive(Finish(s, q)) <==> TwoWait(s, s.queues[q].worker.work)
  {
    FinishFrame(s, q);
    hide Inv, Finish;
    var u, w := Finish(s, q), s.queues[q].worker.work;
    var i := FirstWait(s, s.cancels, w);
    if i == |s.cancels| {
      forall j | 0 <= j < |s.cancels| ensures !Names(s, s.cancels[j], w) && Marked(u, s.cancels[j]) {
        assert Marked(s, s.cancels[j]);
      }
    } else {
      StaleAfterCut(s, u, w, i);
    }
  }

  /** The first entry for `w` is cut out and `w` loses its mark. */
  lemma StaleAfterCut(s: State, u: State, w: Work, i: nat)
    requires CancelsLive(s) && i < |s.cancels| && Names(s, s.cancels[i], w)
    requires forall j :: 0 <= j < i ==> !Names(s, s.cancels[j], w)
    requires u.cancels == s.cancels[..i] + s.cancels[i + 1..]
    requires forall c :: c in s.cancellers ==> c in u.cancellers && u.cancellers[c].work == s.cancellers[c].work
    requires w in u.items && !u.items[w].canceling
    requires forall v :: v in s.items && v != w ==> v in u.items && u.items[v] == s.items[v]
    ensures !CancelsLive(u) <==> TwoWait(s, w)
  {
    forall j | 0 <= j < |u.cancels|
      ensures var k := if j < i then j else j + 1;
              u.cancels[j] == s.cancels[k] && (Marked(u, u.cancels[j]) <==> !Names(s, s.cancels[k], w))
    {
      assert Marked(s, s.cancels[if j < i then j else j + 1]);
    }
    if TwoWait(s, w) {
      var a, b :| 0 <= a < b < |s.cancels| && Names(s, s.cancels[a], w) && Names(s, s.cancels[b], w);
      assert u.cancels[b - 1] == s.cancels[b];
      assert !Marked(u, u.cancels[b - 1]);
    }
  }

  /** finalize_cancel_locked clears CANCELING but releases only the first canceller
      of the item: the list comes to hold an entry nobody will release exactly when
      a handler ends for which two cancellers wait. */
  lemma StaleEntryExactly(s0: State, es: seq<Event>, s: State, e: Event, u: State)
    requires Reached(s0, es, s) && Reached(s0, es + [e], u) && CancelsLive(s)
    ensures !CancelsLive(u) <==>
            e.EFinish? && e.on in s.queues && s.queues[e.on].worker.Running? && TwoWait(s, s.queues[e.on].worker.work)
  {
    LastStep(s0, es, s, e, u);
    ReachedInv(s0, es, s);
    if e.EFinish? { FinishLeavesStale(s, e.on); } else { MarksLast(s, e); }
  }

  // ---- one synchronous canceller per item at a time ----

  ghost predicate Waited(s: State, w: Work) {
    exists i :: 0 <= i < |s.cancels| && Names(s, s.cancels[i], w)
  }

  /** No synchronous cancel of an item for which one already waits. */
  ghost predicate OneAtATime(s: State, es: seq<Event>)
    requires Runs(s, es)
    decreases |es|
  {
    es != [] ==> (SyncCancel(es[0]) ==> !Waited(s, es[0].work)) && OneAtATime(Step(s, es[0]), es[1..])
  }

  ghost predicate SoleWaits(s: State) {
    forall i, j :: 0 <= i < j < |s.cancels| ==> OtherWork(s, s.cancels[i], s.cancels[j])
  }

  ghost predicate OtherWork(s: State, c: Canceller, d: Canceller) {
    c in s.cancellers && d in s.cancellers && s.cancellers[c].work != s.cancellers[d].work
  }

  lemma SoleStep(s: State, e: Event)
    requires Inv(s) && Enabled(s, e) && CancelsLive(s) && SoleWaits(s)
    requires SyncCancel(e) ==> !Waited(s, e.work)
    ensures CancelsLive(Step(s, e)) && SoleWaits(Step(s, e))
  {
    var u := Step(s, e);
    if e.EFinish? {
      FinishLeavesStale(s, e.on);
      FinishCuts(s, e.on);
      SoleAfterCut(s, u);
    } else {
      MarksLast(s, e);
      ListStep(s, e);
      forall i | 0 <= i < |s.cancels| ensures s.cancels[i] in u.cancellers && u.cancellers[s.cancels[i]].work == s.cancellers[s.cancels[i]].work {
        assert Marked(s, s.cancels[i]);
        WorkLasts(s, e, s.cancels[i]);
      }
      if SyncCancel(e) && u.cancels != s.cancels { NewNames(s, e); SoleAfterAppend(s, u, e); }
    }
  }

  lemma NewNames(s: State, e: Event)
    requires Enabled(s, e) && SyncCancel(e) && Step(s, e).cancels != s.cancels
    ensures Names(Step(s, e), e.canceller, e.work)
  {}

  lemma SoleAfterAppend(s: State, u: State, e: Event)
    requires SoleWaits(s) && SyncCancel(e) && !Waited(s, e.work)
    requires u.cancels == s.cancels + [e.canceller] && Names(u, e.canceller, e.work)
    requires forall i :: 0 <= i < |s.cancels| ==>
               && s.cancels[i] in u.cancellers && s.cancels[i] in s.cancellers
               && u.cancellers[s.cancels[i]].work == s.cancellers[s.cancels[i]].work
    ensures SoleWaits(u)
  {
    forall i | 0 <= i < |s.cancels| ensures s.cancellers[s.cancels[i]].work != e.work {
      assert !Names(s, s.cancels[i], e.work);
    }
  }

  lemma FinishCuts(s: State, q: WorkQ)
    requires CanFinish(s, q)
    ensures var u := Finish(s, q);
            && (u.cancels == s.cancels || exists i :: 0 <= i < |s.cancels| && u.cancels == s.cancels[..i] + s.cancels[i + 1..])
            && forall c :: c in s.cancellers ==> c in u.cancellers && u.cancellers[c].work == s.cancellers[c].work
  {}

  lemma SoleAfterCut(s: State, u: State)
    requires SoleWaits(s)
    requires u.cancels == s.cancels || exists i :: 0 <= i < |s.cancels| && u.cancels == s.cancels[..i] + s.cancels[i + 1..]
    requires forall c :: c in s.cancellers ==> c in u.cancellers && u.cancellers[c].work == s.cancellers[c].work
    ensures SoleWaits(u)
  {
    hide Names, Waited;
    var i := |s.cancels|;
    if u.cancels != s.cancels {
      i :| 0 <= i < |s.cancels| && u.cancels == s.cancels[..i] + s.cancels[i + 1..];
    }
    forall j, k | 0 <= j < k < |u.cancels| ensures OtherWork(u, u.cancels[j], u.cancels[k]) {
      var j', k' := if j < i then j else j + 1, if k < i then k else k + 1;
      assert u.cancels[j] == s.cancels[j'] && u.cancels[k] == s.cancels[k'];
      assert OtherWork(s, s.cancels[j'], s.cancels[k']);
    }
  }

  /** Under that rule every listed canceller of every reachable state names an item
      that is marked, so the end of its handler will release it. */
  lemma {:induction false} SoleCancellersLive(s: State, es: seq<Event>)
    requires Inv(s) && CancelsLive(s) && SoleWaits(s) && Runs(s, es) && OneAtATime(s, es)
    ensures CancelsLive(Exec(s, es)) && SoleWaits(Exec(s, es))
    decreases |es|
  {
    if es != [] {
      StepKeeps(s, es[0]);
      SoleStep(s, es[0]);
      SoleCancellersLive(Step(s, es[0]), es[1..]);
    }
  }

  lemma SoleCancellersReleased(s0: State, es: seq<Event>, q: WorkQ)
    requires Initial(s0) && Runs(s0, es) && OneAtATime(s0, es) && CanFinish(Exec(s0, es), q)
    ensures CancelsLive(Exec(s0, es))
    ensures !Waited(Finish(Exec(s0, es), q), Exec(s0, es).queues[q].worker.work)
  {
    InitialInv(s0);
    SoleCancellersLive(s0, es);
    RunKeeps(s0, es);
    var s := Exec(s0, es);
    var u, w := Finish(s, q), s.queues[q].worker.work;
    SoleStep(s, EFinish(q));
    StepKeeps(s, EFinish(q));
    UnmarkedByFinish(s, q);
    forall i | 0 <= i < |u.cancels| ensures !Names(u, u.cancels[i], w) { assert Marked(u, u.cancels[i]); }
  }

  lemma UnmarkedByFinish(s: State, q: WorkQ)
    requires Inv(s) && CanFinish(s, q)
    ensures var w := s.queues[q].worker.work; w in Finish(s, q).items && !Finish(s, q).items[w].canceling
  {
    var w := s.queues[q].worker.work;
    assert ItemInv(s, w);
  }

  // ---- a run that leaves a stale entry ----

  ghost function OneItem(q: WorkQ, w: Work, a: Canceller, b: Canceller): State {
    State(map[w := IdleItem], map[q := NewQueue], map[a := IdleCanceller, b := IdleCanceller], [])
  }

  /** The item runs on a started queue. */
  ghost function ItemRuns(q: WorkQ, w: Work, a: Canceller, b: Canceller): State {
    OneItem(q, w, a, b).(
      items := map[w := IdleItem.(running := true, queue := q)],
      queues := map[q := NewQueue.(started := true, busy := true, notify := 1, worker := Running(w),
                                   accepted := [w], begun := [0])])
  }

  lemma GetsRunning(q: WorkQ, w: Work, a: Canceller, b: Canceller, rest: seq<Event>)
    requires w.kind == Plain && Runs(ItemRuns(q, w, a, b), rest)
    ensures var s0, es := OneItem(q, w, a, b), [EStart(q)] + ([ESubmit(w, q, null)] + ([ETake(q)] + rest));
            Initial(s0) && Runs(s0, es) && Exec(s0, es) == Exec(ItemRuns(q, w, a, b), rest)
  {
    hide Step, Enabled, Runs, Exec;
    var s0 := OneItem(q, w, a, b);
    var s1 := s0.(queues := map[q := NewQueue.(started := true, worker := Ready)]);
    var s2 := s1.(items := map[w := IdleItem.(queued := true, queue := q)],
                  queues := map[q := s1.queues[q].(pending := [w], notify := 1, accepted := [w])]);
    StartOnly(q, w, a, b);
    SubmitOnly(s1, s2, q, w);
    TakeOnly(s2, q, w, a, b);
    RunCons(s2, ETake(q), rest);
    RunCons(s1, ESubmit(w, q, null), [ETake(q)] + rest);
    RunCons(s0, EStart(q), [ESubmit(w, q, null)] + ([ETake(q)] + rest));
  }

  lemma StartOnly(q: WorkQ, w: Work, a: Canceller, b: Canceller)
    ensures
      var s0 := OneItem(q, w, a, b);
      Enabled(s0, EStart(q)) && Step(s0, EStart(q)) == s0.(queues := map[q := NewQueue.(started := true, worker := Ready)])
  {}

  lemma SubmitOnly(s1: State, s2: State, q: WorkQ, w: Work)
    requires w.kind == Plain && s1.items == map[w := IdleItem]
    requires s1.queues == map[q := NewQueue.(started := true, worker := Ready)]
    requires s2 == s1.(items := map[w := IdleItem.(queued := true, queue := q)],
                       queues := map[q := s1.queues[q].(pending := [w], notify := 1, accepted := [w])])
    ensures Enabled(s1, ESubmit(w, q, null)) && Step(s1, ESubmit(w, q, null)) == s2
  {
    assert [] + [w] == [w];
    assert SubmitCode(s1, w, q, null) == 1;
    assert Enqueue(s1, w, q).items == s2.items;
    assert Enqueue(s1, w, q).queues == s2.queues;
  }

  lemma TakeOnly(s2: State, q: WorkQ, w: Work, a: Canceller, b: Canceller)
    requires w.kind == Plain
    requires s2 == OneItem(q, w, a, b).(
               items := map[w := IdleItem.(queued := true, queue := q)],
               queues := map[q := NewQueue.(started := true, worker := Ready, pending := [w], notify := 1, accepted := [w])])
    ensures Enabled(s2, ETake(q)) && Step(s2, ETake(q)) == ItemRuns(q, w, a, b)
  {
    assert [w][1..] == [] && [] + [0] == [0];
    assert TakeHead(s2, q).items == ItemRuns(q, w, a, b).items;
    assert TakeHead(s2, q).queues == ItemRuns(q, w, a, b).queues;
  }

  /** Two threads cancel the same running item and wait: when the handler has ended
      the second is still on the list, its semaphore not given. */
  lemma TwoCancellersStrandOne(q: WorkQ, w: Work, a: Canceller, b: Canceller)
    requires w.kind == Plain && a != b
    ensures
      var s0 := OneItem(q, w, a, b);
      var es := [EStart(q)] + ([ESubmit(w, q, null)] + ([ETake(q)]
                + ([ECancelSync(w, a)] + ([ECancelSync(w, b)] + ([EFinish(q)] + [])))));
      && Initial(s0) && Runs(s0, es)
      && var s := Exec(s0, es);
         && s.cancels == [b] && s.cancellers == map[a := Cancel(w, 1, q, 0), b := Cancel(w, 0, q, 0)]
         && s.items == map[w := IdleItem.(queue := q)]
  {
    var s3 := ItemRuns(q, w, a, b);
    var marked := map[w := IdleItem.(running := true, canceling := true, queue := q)];
    var s4 := s3.(items := marked, cancels := [a], cancellers := map[a := Cancel(w, 0, q, 0), b := IdleCanceller]);
    var s5 := s4.(cancels := [a, b], cancellers := map[a := Cancel(w, 0, q, 0), b := Cancel(w, 0, q, 0)]);
    assert Step(s3, ECancelSync(w, a)) == s4;
    assert Step(s4, ECancelSync(w, b)) == s5;
    RunCons(s5, EFinish(q), []);
    RunCons(s4, ECancelSync(w, b), [EFinish(q)] + []);
    RunCons(s3, ECancelSync(w, a), [ECancelSync(w, b)] + ([EFinish(q)] + []));
    GetsRunning(q, w, a, b, [ECancelSync(w, a)] + ([ECancelSync(w, b)] + ([EFinish(q)] + [])));
    StrandedByFinish(s5, q, w, a, b);
  }

  lemma StrandedByFinish(s: State, q: WorkQ, w: Work, a: Canceller, b: Canceller)
    requires CanFinish(s, q) && s.queues[q].worker.work == w && a != b
    requires s.items == map[w := IdleItem.(running := true, canceling := true, queue := q)]
    requires s.cancels == [a, b] && s.cancellers == map[a := Cancel(w, 0, q, 0), b := Cancel(w, 0, q, 0)]
    ensures var u := Finish(s, q);
            && u.cancels == [b] && u.cancellers == map[a := Cancel(w, 1, q, 0), b := Cancel(w, 0, q, 0)]
            && u.items == map[w := IdleItem.(queue := q)]
  {
    var v := FinishCore(s, q);
    assert Names(v, s.cancels[0], w);
    assert FirstWait(v, s.cancels, w) == 0;
    assert s.cancels[..0] + s.cancels[1..] == [b];
  }
}
