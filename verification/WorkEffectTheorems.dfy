/** What every call, the timer and the thread of a queue do in the states the module can
    reach, told by the fields of items and queues alone: the functions of WorkSpec that
    compute a step are not named, so that what they compute is settled here. */
module WorkEffectTheorems {
  import opened WorkState
  import opened WorkSpec
  import opened WorkInv
  import opened WorkKeeps
  import opened WorkSteps
  import opened WorkTheorems

  // ---- submission ----

  /** The queue is open to a submission; `own`: the thread of the queue makes it. */
  ghost predicate Open(qu: Queue, own: bool) {
    qu.started && (qu.drain ==> own) && (qu.plugged ==> qu.drain)
  }

  /** Where a submission for `q` belongs: on the queue that runs the item, if one does. */
  ghost function Goal(it: Item, q: WorkQ?): WorkQ? {
    if !it.running && q != null then q else it.queue
  }

  /** A submission of `w` for `q`, made by the thread of `caller`, is accepted. */
  ghost predicate Welcome(s: State, w: Work, q: WorkQ?, caller: WorkQ?)
    requires w in s.items
  {
    var it := s.items[w];
    var goal := Goal(it, q);
    !it.canceling && !it.queued && goal != null && goal in s.queues && Open(s.queues[goal], caller == goal)
  }

  /** `w` was put at the end of `q` as its newest submission, and the thread of `q` has a
      wake-up; nothing else changed. */
  ghost predicate Joins(s: State, u: State, w: Work, q: WorkQ?) {
    && w in s.items && q != null && q in s.queues && q in u.queues
    && u.items == s.items[w := s.items[w].(queued := true, queue := q, token := |s.queues[q].accepted|)]
    && u.queues == s.queues[q := s.queues[q].(pending := u.queues[q].pending, accepted := u.queues[q].accepted, notify := 1)]
    && u.queues[q].pending == s.queues[q].pending + [w]
    && u.queues[q].accepted == s.queues[q].accepted + [w]
    && u.cancellers == s.cancellers && u.cancels == s.cancels
  }

  ghost predicate JoinsIf(s: State, u: State, w: Work, q: WorkQ?, caller: WorkQ?) {
    && w in s.items
    && if Welcome(s, w, q, caller) then Joins(s, u, w, Goal(s.items[w], q)) else u == s
  }

  /** Only whether and for which queue `w` is delayed. */
  ghost function Timed(s: State, w: Work, delayed: bool, q: WorkQ?): State
    requires w in s.items
  {
    s.(items := s.items[w := s.items[w].(delayed := delayed, delayQueue := q)])
  }

  ghost function Untimed(s: State, w: Work): State
    requires w in s.items
  {
    Timed(s, w, false, s.items[w].delayQueue)
  }

  /** What the invariant says of the pointers a submission follows. */
  lemma Pointed(s: State, w: Work)
    requires Inv(s) && Client(s, w)
    ensures
      var it := s.items[w];
      && Known(s, it.queue) && Known(s, it.delayQueue)
      && (it.queued || it.running ==> it.queue != null)
      && (it.delayed ==> it.delayQueue != null)
      && (it.canceling ==> it.running && !it.queued)
      && !it.flushing
  {
    assert ItemInv(s, w);
  }

  lemma OneWakeup(s: State, q: WorkQ)
    requires Inv(s) && q in s.queues
    ensures s.queues[q].notify <= 1 && s.queues[q].drainSem <= 1
  {
    assert QueueInv(s, q);
  }

  lemma SubmitJoins(s: State, w: Work, q: WorkQ?, caller: WorkQ?)
    requires Inv(s) && Client(s, w) && Known(s, q)
    ensures JoinsIf(s, Submit(s, w, q, caller), w, q, caller)
  {
    hide Inv;
    Pointed(s, w);
    var goal := Goal(s.items[w], q);
    if goal != null { OneWakeup(s, goal); }
  }

  /** bt_work_submit_to_queue: the item joins the queue it belongs on exactly if it is
      neither canceling nor queued and that queue is open to the caller. */
  lemma SubmitEffect(s0: State, es: seq<Event>, s: State, w: Work, q: WorkQ?, caller: WorkQ?)
    requires Reached(s0, es, s) && Enabled(s, ESubmit(w, q, caller))
    ensures JoinsIf(s, Step(s, ESubmit(w, q, caller)), w, q, caller)
  {
    ReachedInv(s0, es, s);
    SubmitJoins(s, w, q, caller);
  }

  /** work_timeout: the timer of a delayed item clears DELAYED and submits the item to the
      queue it was scheduled for, from no queue's thread; one that comes late does nothing. */
  lemma TimeoutEffect(s0: State, es: seq<Event>, s: State, w: Work)
    requires Reached(s0, es, s) && Enabled(s, ETimeout(w))
    ensures
      var it, u := s.items[w], Step(s, ETimeout(w));
      if it.delayed then JoinsIf(Untimed(s, w), u, w, it.delayQueue, null) else u == s
  {
    hide Submit, Inv, JoinsIf;
    ReachedInv(s0, es, s);
    Pointed(s, w);
    UnscheduleKeeps(s, w);
    SubmitJoins(Unschedule(s, w), w, s.items[w].delayQueue, null);
  }

  /** bt_work_schedule_for_queue acts on items that are idle or just running: it submits at
      once, or sets DELAYED for the queue asked for. */
  lemma ScheduleEffect(s0: State, es: seq<Event>, s: State, w: Work, q: WorkQ, noWait: bool, caller: WorkQ?)
    requires Reached(s0, es, s) && Enabled(s, ESchedule(w, q, noWait, caller))
    ensures
      var it, u := s.items[w], Step(s, ESchedule(w, q, noWait, caller));
      if it.canceling || it.queued || it.delayed then u == s
      else if noWait then JoinsIf(s, u, w, q, caller)
      else u == Timed(s, w, true, q)
  {
    hide Submit, Inv, JoinsIf;
    ReachedInv(s0, es, s);
    Pointed(s, w);
    SubmitJoins(s, w, q, caller);
  }

  /** bt_work_reschedule_for_queue acts on every item; what it was scheduled for is undone. */
  lemma RescheduleEffect(s0: State, es: seq<Event>, s: State, w: Work, q: WorkQ, noWait: bool, caller: WorkQ?)
    requires Reached(s0, es, s) && Enabled(s, EReschedule(w, q, noWait, caller))
    ensures
      var u := Step(s, EReschedule(w, q, noWait, caller));
      if noWait then JoinsIf(Untimed(s, w), u, w, q, caller) else u == Timed(s, w, true, q)
  {
    hide Submit, Inv, JoinsIf;
    ReachedInv(s0, es, s);
    UnscheduleKeeps(s, w);
    SubmitJoins(Unschedule(s, w), w, q, caller);
  }

  /** What the numbers mean: queued on the queue that runs the item (2) or on the one asked
      for (1), queued already (0), no queue at all (-EINVAL), the queue not started
      (-ENODEV), the item canceling or the queue closed (-EBUSY). */
  ghost predicate Answers(s: State, w: Work, q: WorkQ?, caller: WorkQ?, ret: int)
    requires w in s.items && Known(s, Goal(s.items[w], q))
  {
    var it := s.items[w];
    var goal := Goal(it, q);
    && (ret == 2 <==> Welcome(s, w, q, caller) && it.running)
    && (ret == 1 <==> Welcome(s, w, q, caller) && !it.running)
    && (ret == 0 <==> it.queued)
    && (ret == -22 <==> !it.canceling && !it.queued && goal == null)
    && (ret == -19 <==> !it.canceling && !it.queued && goal != null && !s.queues[goal].started)
    && (ret == -16 <==> it.canceling
                        || (!it.queued && goal != null && s.queues[goal].started && !Open(s.queues[goal], caller == goal)))
  }

  lemma SubmitAnswers(s0: State, es: seq<Event>, s: State, w: Work, q: WorkQ?, caller: WorkQ?)
    requires Reached(s0, es, s) && Enabled(s, ESubmit(w, q, caller))
    ensures Known(s, Goal(s.items[w], q)) && Answers(s, w, q, caller, SubmitCode(s, w, q, caller))
  {
    hide Inv;
    ReachedInv(s0, es, s);
    Pointed(s, w);
  }

  /** A schedule that may act answers for the submission it makes, or 1 for a delay. */
  lemma ScheduleAnswers(s0: State, es: seq<Event>, s: State, w: Work, q: WorkQ, noWait: bool, caller: WorkQ?)
    requires Reached(s0, es, s) && Enabled(s, EReschedule(w, q, noWait, caller))
    ensures
      var ret, ret' := ScheduleLockedCode(s, w, q, noWait, caller), ScheduleLockedCode(Unschedule(s, w), w, q, noWait, caller);
      ret == ret' && Known(s, Goal(s.items[w], q)) && if noWait then Answers(s, w, q, caller, ret) else ret == 1
  {
    hide Inv, Answers;
    ReachedInv(s0, es, s);
    Pointed(s, w);
    SubmitAnswers(s0, es, s, w, q, caller);
  }

  // ---- flush ----

  /** A flusher waits for `w`: directly behind it if it is queued, in front of everything
      if it is running; with neither, nothing changes. */
  ghost predicate Flushes(s: State, u: State, w: Work, f: Work) {
    && w in s.items && f in s.items
    && if !s.items[w].queued && !s.items[w].running then u == s else
       var q := s.items[w].queue;
       && q != null && q in s.queues && q in u.queues
       && u.items == s.items[f := IdleItem.(flushing := true, token := s.items[f].token, home := q, targets := Outstanding(s, w))]
       && u.queues == s.queues[q := s.queues[q].(pending := u.queues[q].pending, notify := 1)]
       && (if s.items[w].queued then Behind(s.queues[q].pending, u.queues[q].pending, w, f)
           else u.queues[q].pending == [f] + s.queues[q].pending)
       && u.cancellers == s.cancellers && u.cancels == s.cancels
  }

  /** `r` is `p` with `f` directly behind `w`. */
  ghost predicate Behind(p: seq<Work>, r: seq<Work>, w: Work, f: Work) {
    exists i :: 0 <= i < |p| && p[i] == w && r == p[..i + 1] + [f] + p[i + 1..]
  }

  lemma PlacedBehind(p: seq<Work>, w: Work, f: Work)
    requires w in p
    ensures Behind(p, Placed(p, true, w, f), w, f)
  {
    assert p[IndexOf(p, w)] == w;
  }

  lemma FlushFlushes(s: State, w: Work, f: Work)
    requires Inv(s) && Client(s, w) && f in s.items
    ensures Flushes(s, Flush(s, w, f), w, f)
  {
    hide Inv, Behind, Placed;
    Pointed(s, w);
    var q := s.items[w].queue;
    if NeedsFlush(s.items[w]) {
      OneWakeup(s, q);
      if s.items[w].queued { InItsList(s, w); PlacedBehind(s.queues[q].pending, w, f); }
      PlacedInFront(s.queues[q].pending, w, f);
    }
  }

  lemma InItsList(s: State, w: Work)
    requires Inv(s) && Client(s, w) && s.items[w].queued
    ensures s.items[w].queue in s.queues && w in s.queues[s.items[w].queue].pending
  {
    assert ItemInv(s, w);
  }

  lemma PlacedInFront(p: seq<Work>, w: Work, f: Work)
    ensures Placed(p, false, w, f) == [f] + p
  {}

  /** bt_work_flush, up to the wait */
  lemma FlushEffect(s0: State, es: seq<Event>, s: State, w: Work, f: Work)
    requires Reached(s0, es, s) && Enabled(s, EFlush(w, f))
    ensures Flushes(s, Step(s, EFlush(w, f)), w, f)
  {
    ReachedInv(s0, es, s);
    FlushFlushes(s, w, f);
  }

  /** `w` and behind it `f` were put at the end of `q`. */
  ghost predicate JoinTogether(s: State, u: State, w: Work, f: Work, q: WorkQ?) {
    q != null && q in s.queues && q in u.queues && u.queues[q].pending == s.queues[q].pending + [w, f]
  }

  lemma JoinFlush(s: State, v: State, u: State, w: Work, f: Work, q: WorkQ?)
    requires Joins(s, v, w, q) && Flushes(v, u, w, f) && w !in s.queues[q].pending
    ensures JoinTogether(s, u, w, f, q)
  {
    var p := s.queues[q].pending;
    var i :| 0 <= i < |v.queues[q].pending| && v.queues[q].pending[i] == w
             && u.queues[q].pending == v.queues[q].pending[..i + 1] + [f] + v.queues[q].pending[i + 1..];
    assert i == |p|;
    assert (p + [w])[..i + 1] == p + [w] && (p + [w])[i + 1..] == [];
  }

  lemma DelayedJoins(s: State, w: Work, f: Work, caller: WorkQ?)
    requires Inv(s) && Enabled(s, EFlushDelayable(w, f, true, caller)) && s.items[w].delayed
    ensures
      var it, u := s.items[w], Step(s, EFlushDelayable(w, f, true, caller));
      exists v :: JoinsIf(Untimed(s, w), v, w, it.delayQueue, caller) && Flushes(v, u, w, f)
  {
    hide Submit, Inv, ItemInv, Flush, Flushes, JoinsIf;
    var q := s.items[w].delayQueue;
    Pointed(s, w);
    UnscheduleKeeps(s, w);
    SubmitJoins(Unschedule(s, w), w, q, caller);
    SubmitKeeps(Unschedule(s, w), w, q, caller);
    SubmitFrame(Unschedule(s, w), w, q, caller, w);
    SubmitFrame(Unschedule(s, w), w, q, caller, f);
    var v := Submit(Unschedule(s, w), w, q, caller);
    FlushFlushes(v, w, f);
    assert JoinsIf(Untimed(s, w), v, w, q, caller) && Flushes(v, Step(s, EFlushDelayable(w, f, true, caller)), w, f);
  }

  lemma UndelayedFlushes(s: State, w: Work, f: Work, stopped: bool, caller: WorkQ?)
    requires Inv(s) && Enabled(s, EFlushDelayable(w, f, stopped, caller)) && !(s.items[w].delayed && stopped)
    ensures Flushes(Untimed(s, w), Step(s, EFlushDelayable(w, f, stopped, caller)), w, f)
  {
    hide Submit, Inv, ItemInv, Flush;
    UnscheduleKeeps(s, w);
    FlushFlushes(Unschedule(s, w), w, f);
  }

  /** bt_work_flush_delayable: an item whose timer is stopped in time is submitted to the
      queue it was scheduled for, and where that queue takes it the flusher joins right
      behind it; otherwise the delay is dropped, and what is queued or running is flushed. */
  lemma FlushDelayableEffect(s0: State, es: seq<Event>, s: State, w: Work, f: Work, stopped: bool, caller: WorkQ?)
    requires Reached(s0, es, s) && Enabled(s, EFlushDelayable(w, f, stopped, caller))
    ensures
      var it, u := s.items[w], Step(s, EFlushDelayable(w, f, stopped, caller));
      var goal := Goal(it, it.delayQueue);
      if it.delayed && stopped && Welcome(s, w, it.delayQueue, caller)
      then JoinTogether(s, u, w, f, goal)
           && exists v :: Joins(Untimed(s, w), v, w, goal) && Flushes(v, u, w, f)
      else Flushes(Untimed(s, w), u, w, f)
  {
    hide Inv, Flushes, Joins, Step;
    ReachedInv(s0, es, s);
    var it, t, u := s.items[w], Untimed(s, w), Step(s, EFlushDelayable(w, f, stopped, caller));
    if it.delayed && stopped {
      DelayedJoins(s, w, f, caller);
      var v :| JoinsIf(t, v, w, it.delayQueue, caller) && Flushes(v, u, w, f);
      if Welcome(s, w, it.delayQueue, caller) {
        NowhereElse(s, w);
        JoinFlush(t, v, u, w, f, Goal(it, it.delayQueue));
      }
    } else {
      UndelayedFlushes(s, w, f, stopped, caller);
    }
  }

  lemma NowhereElse(s: State, w: Work)
    requires Inv(s) && Client(s, w) && !s.items[w].queued
    ensures forall q :: q in s.queues ==> w !in s.queues[q].pending
  {
    NotPending(s, w);
  }

  /** What the calls answer: whether there is a flusher to wait for. */
  lemma FlushAnswers(s0: State, es: seq<Event>, s: State, e: Event)
    requires Reached(s0, es, s) && Enabled(s, e) && FlushEvent(e)
    ensures
      var it := s.items[e.work];
      var waits := if e.EFlush? then NeedsFlush(it)
                   else Busy(it) != 0 && NeedsFlush(SubmitDelayed(s, e.work, e.stopped, e.caller).items[e.work]);
      && waits == Step(s, e).items[e.flusher].flushing
      && waits == (it.queued || it.running
                   || (e.EFlushDelayable? && it.delayed && e.stopped && Welcome(s, e.work, it.delayQueue, e.caller)))
  {
    hide Inv, Flush, Submit;
    ReachedInv(s0, es, s);
    Pointed(s, e.work);
    if e.EFlush? {
      FlushFlushes(s, e.work, e.flusher);
    } else {
      var t, q := Unschedule(s, e.work), s.items[e.work].delayQueue;
      UnscheduleKeeps(s, e.work);
      SubmitJoins(t, e.work, q, e.caller);
      SubmitFrame(t, e.work, q, e.caller, e.work);
      SubmitFrame(t, e.work, q, e.caller, e.flusher);
      SubmitKeeps(t, e.work, q, e.caller);
      FlushFlushes(t, e.work, e.flusher);
      FlushFlushes(Submit(t, e.work, q, e.caller), e.work, e.flusher);
    }
  }

  // ---- cancel ----

  /** `r` is `p` without one `w`. */
  ghost predicate Cut(p: seq<Work>, r: seq<Work>, w: Work) {
    exists i :: 0 <= i < |p| && p[i] == w && r == p[..i] + p[i + 1..]
  }

  /** Item `w` is neither queued nor delayed any more, and is marked CANCELING exactly if
      its handler runs; what was queued is out of its list and recorded as cancelled. */
  ghost predicate Cancels(s: State, u: State, w: Work) {
    && w in s.items
    && var it := s.items[w];
       && u.items == s.items[w := it.(queued := false, delayed := false, canceling := it.running)]
       && if !it.queued then u.queues == s.queues
          else it.queue != null && it.queue in s.queues && it.queue in u.queues
               && var qu := s.queues[it.queue];
                  && u.queues == s.queues[it.queue := qu.(pending := u.queues[it.queue].pending, cancelled := qu.cancelled + {it.token})]
                  && Cut(qu.pending, u.queues[it.queue].pending, w)
  }

  lemma RemoveCuts(p: seq<Work>, w: Work)
    requires w in p
    ensures Cut(p, Remove(p, w), w)
  {
    assert p[IndexOf(p, w)] == w;
  }

  lemma CancelCancels(s: State, w: Work)
    requires Inv(s) && Client(s, w) && !s.items[w].delayed
    ensures Cancels(s, CancelAsync(s, w), w)
    ensures CancelAsync(s, w).cancels == s.cancels && CancelAsync(s, w).cancellers == s.cancellers
  {
    hide Inv, Cut, Remove;
    Pointed(s, w);
    if s.items[w].queued {
      InItsList(s, w);
      RemoveCuts(s.queues[s.items[w].queue].pending, w);
    }
  }

  lemma CancelDelayableCancels(s: State, w: Work)
    requires Inv(s) && Client(s, w) && w.kind == Delayable
    ensures Cancels(s, CancelDelayable(s, w), w)
    ensures CancelDelayable(s, w).cancels == s.cancels && CancelDelayable(s, w).cancellers == s.cancellers
  {
    hide Inv, Cut, CancelAsync;
    UnscheduleKeeps(s, w);
    CancelCancels(Unschedule(s, w), w);
  }

  lemma OnlyDelayableDelays(s: State, w: Work)
    requires Inv(s) && Client(s, w) && w.kind == Plain
    ensures !s.items[w].delayed
  {
    assert ItemInv(s, w);
  }

  /** bt_work_cancel and bt_work_cancel_delayable; they answer with the flags of what still
      runs, RUNNING and CANCELING. */
  lemma CancelEffect(s0: State, es: seq<Event>, s: State, e: Event)
    requires Reached(s0, es, s) && Enabled(s, e) && (e.ECancel? || e.ECancelDelayable?)
    ensures
      var u := Step(s, e);
      && Cancels(s, u, e.work) && u.cancels == s.cancels && u.cancellers == s.cancellers
      && Busy(u.items[e.work]) == if s.items[e.work].running then 3 else 0
  {
    hide Inv, Cut, CancelAsync, CancelDelayable;
    ReachedInv(s0, es, s);
    Pointed(s, e.work);
    if e.ECancel? { OnlyDelayableDelays(s, e.work); CancelCancels(s, e.work); } else { CancelDelayableCancels(s, e.work); }
  }

  /** bt_work_cancel_sync and bt_work_cancel_delayable_sync, up to the wait: the canceller
      joins the end of the list exactly if the handler of the item runs, and waits for the
      submission being run. */
  lemma CancelSyncEffect(s0: State, es: seq<Event>, s: State, e: Event)
    requires Reached(s0, es, s) && Enabled(s, e) && (e.ECancelSync? || e.ECancelDelayableSync?)
    ensures
      var it, u, c := s.items[e.work], Step(s, e), e.canceller;
      && Cancels(s, u, e.work)
      && if !it.running then u.cancels == s.cancels && u.cancellers == s.cancellers else
         && u.cancels == s.cancels + [c]
         && it.queue != null && it.queue in s.queues && s.queues[it.queue].begun != []
         && var begun := s.queues[it.queue].begun;
            u.cancellers == s.cancellers[c := Cancel(e.work, 0, it.queue, begun[|begun| - 1])]
  {
    hide Inv, Cut, CancelAsync, CancelDelayable, Cancels;
    ReachedInv(s0, es, s);
    Pointed(s, e.work);
    if s.items[e.work].running { RunsNow(s, e.work); }
    var u := if e.ECancelSync? then CancelAsync(s, e.work) else CancelDelayable(s, e.work);
    if e.ECancelSync? { OnlyDelayableDelays(s, e.work); CancelCancels(s, e.work); } else { CancelDelayableCancels(s, e.work); }
    AwaitAdds(s, u, e.work, e.canceller);
    if Busy(s.items[e.work]) == 0 { NothingToCancel(s, e.work); }
  }

  /** The thread of its queue is in the handler of a running item. */
  lemma RunsNow(s: State, w: Work)
    requires Inv(s) && Client(s, w) && s.items[w].running
    ensures
      var q := s.items[w].queue;
      q != null && q in s.queues && s.queues[q].worker == Running(w) && s.queues[q].begun != []
  {
    assert ItemInv(s, w);
    assert QueueInv(s, s.items[w].queue);
  }

  lemma NothingToCancel(s: State, w: Work)
    requires w in s.items && Busy(s.items[w]) == 0
    ensures Cancels(s, s, w)
  {
    assert s.items == s.items[w := s.items[w]];
  }

  lemma AwaitAdds(s: State, u: State, w: Work, c: Canceller)
    requires Cancels(s, u, w) && u.cancels == s.cancels && u.cancellers == s.cancellers
    requires s.items[w].running ==> s.items[w].queue != null && s.items[w].queue in s.queues && s.queues[s.items[w].queue].begun != []
    ensures
      var it, v := s.items[w], AwaitCancel(u, w, c);
      && Cancels(s, v, w)
      && if !it.running then v.cancels == s.cancels && v.cancellers == s.cancellers else
         && v.cancels == s.cancels + [c]
         && var begun := s.queues[it.queue].begun;
            v.cancellers == s.cancellers[c := Cancel(w, 0, it.queue, begun[|begun| - 1])]
  {
    hide Cut;
  }

  // ---- the thread of a queue ----

  /** Queue `q` became `qu`, and nothing else of the module changed but, maybe, the items. */
  ghost predicate OnlyQueue(s: State, u: State, q: WorkQ, qu: Queue) {
    u.queues == s.queues[q := qu] && u.cancellers == s.cancellers && u.cancels == s.cancels
  }

  /** What the thread does at the top of its loop: it takes the head of the list and is in
      its handler; with an empty list it ends a drain, or returns, or just sleeps. */
  lemma TakeEffect(s0: State, es: seq<Event>, s: State, q: WorkQ)
    requires Reached(s0, es, s) && Enabled(s, ETake(q))
    ensures
      var qu, u := s.queues[q], Step(s, ETake(q));
      if qu.pending != [] then
        var w := qu.pending[0];
        && w in s.items && u.items == s.items[w := s.items[w].(running := true, queued := false)]
        && OnlyQueue(s, u, q, qu.(pending := qu.pending[1..], busy := true, worker := Running(w), begun := u.queues[q].begun))
        && u.queues[q].begun == if w.kind == Flusher then qu.begun else qu.begun + [s.items[w].token]
      else
        && u.items == s.items
        && if qu.drain then OnlyQueue(s, u, q, qu.(drain := false, drainSem := 1, worker := Blocked))
           else if qu.stop then OnlyQueue(s, u, q, qu.(started := false, plugged := false, stop := false, worker := Absent))
           else OnlyQueue(s, u, q, qu.(worker := Blocked))
  {
    hide Inv;
    ReachedInv(s0, es, s);
    OneWakeup(s, q);
    AtTheTop(s, q);
  }

  /** A thread at the top of its loop runs nothing, and the head of its list is an item. */
  lemma AtTheTop(s: State, q: WorkQ)
    requires Inv(s) && Enabled(s, ETake(q))
    ensures !s.queues[q].busy && (s.queues[q].pending != [] ==> s.queues[q].pending[0] in s.items)
  {
    assert QueueInv(s, q);
    if s.queues[q].pending != [] { assert WaitsOn(s, q, s.queues[q].pending[0]); }
  }

  /** What it does after a handler: the item no longer runs nor is it CANCELING, a flusher
      gives its semaphore, and the first canceller listed for a CANCELING item is taken off
      the list and given its own. */
  lemma FinishEffect(s0: State, es: seq<Event>, s: State, q: WorkQ)
    requires Reached(s0, es, s) && Enabled(s, EFinish(q))
    ensures
      var qu, u := s.queues[q], Step(s, EFinish(q));
      var w := qu.worker.work;
      && u.queues == s.queues[q := qu.(busy := false, worker := Ready)]
      && if w.kind == Flusher then
           && u.items == s.items[w := s.items[w].(running := false, flushing := false, sem := 1)]
           && u.cancels == s.cancels && u.cancellers == s.cancellers
         else
           && u.items == s.items[w := s.items[w].(running := false, canceling := false)]
           && if s.items[w].canceling then ReleasesFirst(s, u, w) else u.cancels == s.cancels && u.cancellers == s.cancellers
  {
    hide Inv, FirstWait, ReleasesFirst, ReleaseCanceller;
    ReachedInv(s0, es, s);
    InHandler(s, q);
    var w := s.queues[q].worker.work;
    FirstReleased(s, s.(items := s.items[w := FinishItem(s.items[w])],
                     queues := s.queues[q := s.queues[q].(busy := false, worker := Ready)]), w);
  }

  lemma InHandler(s: State, q: WorkQ)
    requires Inv(s) && Enabled(s, EFinish(q))
    ensures
      var w := s.queues[q].worker.work;
      var it := s.items[w];
      (it.flushing <==> w.kind == Flusher) && (w.kind == Flusher ==> it.sem == 0 && !it.canceling)
  {
    assert QueueInv(s, q) && RunsOn(s, q, s.queues[q].worker.work);
    assert ItemInv(s, s.queues[q].worker.work);
  }

  ghost predicate ReleasesFirst(s: State, u: State, w: Work) {
    if forall i :: 0 <= i < |s.cancels| ==> !Names(s, s.cancels[i], w) then u.cancels == s.cancels && u.cancellers == s.cancellers else
    exists i :: 0 <= i < |s.cancels| && ReleasesAt(s, u, w, i)
  }

  ghost predicate ReleasesAt(s: State, u: State, w: Work, i: nat)
    requires i < |s.cancels|
  {
    var c := s.cancels[i];
    && Names(s, c, w) && (forall j :: 0 <= j < i ==> !Names(s, s.cancels[j], w))
    && u.cancels == s.cancels[..i] + s.cancels[i + 1..]
    && u.cancellers == s.cancellers[c := s.cancellers[c].(sem := Give(s.cancellers[c].sem))]
  }

  lemma FirstReleased(s: State, t: State, w: Work)
    requires t.cancels == s.cancels && t.cancellers == s.cancellers
    ensures var u := ReleaseCanceller(t, w);
            ReleasesFirst(s, u, w) && u.items == t.items && u.queues == t.queues
  {
    var i := FirstWait(t, t.cancels, w);
    forall j | 0 <= j < |s.cancels| ensures Names(s, s.cancels[j], w) <==> Names(t, t.cancels[j], w) {}
    if i < |s.cancels| { assert ReleasesAt(s, ReleaseCanceller(t, w), w, i); }
  }

  // ---- queue control ----

  /** bt_work_queue_start, _unplug, the end of a stop that timed out, and the wake-up of the
      thread write to the flags and semaphores of their queue, and to nothing else. */
  lemma ControlEffect(s0: State, es: seq<Event>, s: State, e: Event)
    requires Reached(s0, es, s) && Enabled(s, e) && (e.EStart? || e.EUnplug? || e.EStopTimeout? || e.EWake?)
    ensures
      var qu, u := s.queues[e.on], Step(s, e);
      && u.items == s.items
      && OnlyQueue(s, u, e.on,
                   if e.EStart? then Queue(true, false, false, false, false, [], 0, 0, Ready, qu.accepted, qu.cancelled, qu.begun)
                   else if e.EUnplug? then qu.(plugged := false)
                   else if e.EStopTimeout? then qu.(stop := false)
                   else qu.(notify := 0, worker := Ready))
  {
    hide Inv, Submit, Schedule, Reschedule, Timeout, Flush, FlushDelayable, CancelAsync, CancelSync, CancelDelayable,
         CancelDelayableSync, Take, Finish;
    ReachedInv(s0, es, s);
    SemaphoresAreBinary(s);
  }

  /** bt_work_queue_drain has something to wait for if a handler runs, anything is pending, the
      queue drains already or is to be plugged; without, nothing changes. */
  lemma DrainEffect(s0: State, es: seq<Event>, s: State, q: WorkQ, plug: bool)
    requires Reached(s0, es, s) && Enabled(s, EDrain(q, plug))
    ensures
      var qu, u := s.queues[q], Step(s, EDrain(q, plug));
      if !qu.worker.Running? && !qu.drain && !plug && qu.pending == [] then u == s
      else u.items == s.items && OnlyQueue(s, u, q, qu.(drain := true, plugged := qu.plugged || plug, notify := 1))
  {
    hide Inv, Submit, Schedule, Reschedule, Timeout, Flush, FlushDelayable, CancelAsync, CancelSync, CancelDelayable,
         CancelDelayableSync, Take, Finish;
    ReachedInv(s0, es, s);
    SemaphoresAreBinary(s);
  }

  /** bt_work_queue_stop sets STOP on a queue that is started and plugged, and wakes it. */
  lemma StopEffect(s0: State, es: seq<Event>, s: State, q: WorkQ)
    requires Reached(s0, es, s) && Enabled(s, EStop(q))
    ensures
      var qu, u := s.queues[q], Step(s, EStop(q));
      if qu.started && qu.plugged then u.items == s.items && OnlyQueue(s, u, q, qu.(stop := true, notify := 1)) else u == s
  {
    hide Inv, Submit, Schedule, Reschedule, Timeout, Flush, FlushDelayable, CancelAsync, CancelSync, CancelDelayable,
         CancelDelayableSync, Take, Finish;
    ReachedInv(s0, es, s);
    SemaphoresAreBinary(s);
  }

  /** A waiter that goes on takes its semaphore, which was given once. */
  lemma WaiterEffect(s0: State, es: seq<Event>, s: State, e: Event)
    requires Reached(s0, es, s) && Enabled(s, e) && (e.ETakeFlushSem? || e.ETakeCancelSem? || e.ETakeDrainSem?)
    ensures
      Step(s, e) == if e.ETakeFlushSem? then s.(items := s.items[e.flusher := s.items[e.flusher].(sem := 0)])
                    else if e.ETakeCancelSem?
                    then s.(cancellers := s.cancellers[e.canceller := s.cancellers[e.canceller].(sem := 0)])
                    else s.(queues := s.queues[e.on := s.queues[e.on].(drainSem := 0)])
  {
    hide Inv, Submit, Schedule, Reschedule, Timeout, Flush, FlushDelayable, CancelAsync, CancelSync, CancelDelayable,
         CancelDelayableSync, Take, Finish;
    ReachedInv(s0, es, s);
    SemaphoresAreBinary(s);
  }

  lemma SemaphoresAreBinary(s: State)
    requires Inv(s)
    ensures forall q :: q in s.queues ==>
              s.queues[q].notify <= 1 && s.queues[q].drainSem <= 1 && (s.queues[q].busy <==> s.queues[q].worker.Running?)
    ensures forall f :: f in s.items && f.kind == Flusher ==> s.items[f].sem <= 1
    ensures forall c :: c in s.cancellers ==> s.cancellers[c].sem <= 1
  {
    forall q | q in s.queues
      ensures s.queues[q].notify <= 1 && s.queues[q].drainSem <= 1 && (s.queues[q].busy <==> s.queues[q].worker.Running?)
    { assert QueueInv(s, q); }
    forall f | f in s.items && f.kind == Flusher ensures s.items[f].sem <= 1 { assert ItemInv(s, f); }
  }

  /** What bt_work_queue_stop answers, and when bt_work_queue_drain waits. */
  lemma ControlAnswers(s0: State, es: seq<Event>, s: State, q: WorkQ, plug: bool)
    requires Reached(s0, es, s) && q in s.queues
    ensures
      var qu := s.queues[q];
      && (StopCode(qu) == -114 <==> !qu.started)
      && (StopCode(qu) == -16 <==> qu.started && !qu.plugged)
      && (StopCode(qu) == 0 <==> Step(s, EStop(q)).queues[q].stop && qu.started && qu.plugged)
      && (MustDrain(qu, plug) <==> qu.worker.Running? || qu.drain || plug || qu.pending != [])
  {
    hide Inv;
    ReachedInv(s0, es, s);
    SemaphoresAreBinary(s);
  }

  /** Each flag is one bit of what bt_work_busy_get answers. */
  lemma BusyBits(it: Item)
    ensures
      var b := Busy(it);
      && (it.running <==> b % 2 == 1) && (it.canceling <==> b / 2 % 2 == 1) && (it.queued <==> b / 4 % 2 == 1)
      && (it.delayed <==> b / 8 % 2 == 1) && (it.flushing <==> b / 16 == 1) && b < 32
  {
    var low := (if it.running then 1 else 0) + (if it.canceling then 2 else 0);
    assert Busy(it) % 4 == low;
  }
}
