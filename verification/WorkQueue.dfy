/** base/bt_work.c itself: each locked section as a method that updates the
    structures in place, proved to compute the corresponding step of WorkSpec. */
module WorkQueue {
  import opened WorkState
  import opened WorkSpec
  import opened WorkInv
  import opened WorkKeeps
  import opened WorkSteps

  function ItemOf(w: Work): Item
    reads w
  {
    Item(w.running, w.canceling, w.queued, w.delayed, w.flushing, w.queue, w.delayQueue, w.sem, 0, null, {})
  }

  ghost function GhostItem(w: Work): Item
    reads w
  {
    ItemOf(w).(token := w.token, home := w.home, targets := w.targets)
  }

  ghost function GhostQueue(q: WorkQ): Queue
    reads q
  {
    Queue(q.started, q.busy, q.drain, q.plugged, q.stop, q.pending, q.notify, q.drainSem, q.worker,
          q.accepted, q.cancelled, q.begun)
  }

  ghost function GhostCanceller(c: Canceller): Cancel
    reads c
  {
    Cancel(c.work, c.sem, c.on, c.token)
  }

  // ---- each step writes to one item and one queue ----

  lemma SubmitWrites(s: State, w: Work, q: WorkQ?, caller: WorkQ?)
    requires w in s.items && Known(s, Target(s.items[w], q))
    ensures
      var target, u := Target(s.items[w], q), Submit(s, w, q, caller);
      && Differ(s, u, w, target)
      && SubmitCode(s, w, q, caller)
         == Verdict(s.items[w], if target == null then -EINVAL else Admission(s.queues[target], caller == target))
      && if SubmitCode(s, w, q, caller) > 0
         then target != null && u.items[w] == QueuedItem(s.items[w], target, |s.queues[target].accepted|)
              && u.queues[target] == Appended(s.queues[target], w)
         else u == s
  {}

  lemma DelayWrites(s: State, w: Work, delayed: bool, q: WorkQ?)
    requires w in s.items
    ensures Differ(s, SetDelay(s, w, delayed, q), w, null)
  {}

  lemma FlushWrites(s: State, w: Work, f: Work)
    requires w in s.items && f in s.items && s.items[w].queue != null && s.items[w].queue in s.queues
    ensures Differ(s, PlaceFlusher(s, w, f, s.items[w].queue), f, s.items[w].queue)
  {}

  predicate Dequeues(it: Item) { !it.canceling && it.queued && it.queue != null }

  function CancelledItem(it: Item): Item {
    var it' := if Dequeues(it) then it.(queued := false) else it;
    if Busy(it') != 0 then it'.(canceling := true) else it'
  }

  lemma CancelWrites(s: State, w: Work)
    requires w in s.items && Known(s, s.items[w].queue)
    ensures
      var it, u := s.items[w], CancelAsync(s, w);
      && Differ(s, u, w, it.queue) && u.items[w] == CancelledItem(it)
      && (it.queue != null ==>
            u.queues[it.queue] == if Dequeues(it) then Without(s.queues[it.queue], w, it.token) else s.queues[it.queue])
  {}

  lemma TakeWrites(s: State, q: WorkQ)
    requires q in s.queues && (s.queues[q].pending != [] ==> s.queues[q].pending[0] in s.items)
    ensures Differ(s, Take(s, q), if s.queues[q].pending == [] then null else s.queues[q].pending[0], q)
  {}

  /** What the invariant says about the structures a step follows pointers to. */
  lemma Pointers(s: State, w: Work)
    requires Inv(s) && Client(s, w)
    ensures Known(s, s.items[w].queue) && Known(s, s.items[w].delayQueue)
    ensures NeedsFlush(s.items[w]) ==> s.items[w].queue != null
  {
    assert ItemInv(s, w);
  }

  /** The pointers bt_work_flush_delayable follows, before and after its submission. */
  ghost predicate FlushReady(s: State, w: Work, stopped: bool, caller: WorkQ?)
    requires w in s.items
  {
    var u, q := Unschedule(s, w), s.items[w].delayQueue;
    && Known(u, Target(u.items[w], q))
    && var it := SubmitDelayed(s, w, stopped, caller).items[w];
       Known(s, it.queue) && (NeedsFlush(it) ==> it.queue != null)
  }

  lemma FlushPointers(s: State, w: Work, stopped: bool, caller: WorkQ?)
    requires Inv(s) && Client(s, w) && w.kind == Delayable
    ensures FlushReady(s, w, stopped, caller)
  {
    Pointers(s, w);
    UnscheduleKeeps(s, w);
    Pointers(Unschedule(s, w), w);
    SubmitKeeps(Unschedule(s, w), w, s.items[w].delayQueue, caller);
    Pointers(Submit(Unschedule(s, w), w, s.items[w].delayQueue, caller), w);
  }

  lemma HeadIsItem(s: State, q: WorkQ)
    requires Inv(s) && q in s.queues && s.queues[q].pending != []
    ensures s.queues[q].pending[0] in s.items
  {
    assert QueueInv(s, q) && WaitsOn(s, q, s.queues[q].pending[0]);
  }

  /** The structures under the module lock. */
  class WorkModule {
    var pendingCancels: seq<Canceller>
    ghost const works: set<Work>
    ghost const queues: set<WorkQ>
    ghost const cancellers: set<Canceller>

    ghost function Items(): map<Work, Item>
      reads works
    {
      map w | w in works :: GhostItem(w)
    }

    ghost function Queues(): map<WorkQ, Queue>
      reads queues
    {
      map q | q in queues :: GhostQueue(q)
    }

    ghost function Cancellers(): map<Canceller, Cancel>
      reads cancellers
    {
      map c | c in cancellers :: GhostCanceller(c)
    }

    ghost function Abs(): State
      reads this, works, queues, cancellers
    {
      State(Items(), Queues(), Cancellers(), pendingCancels)
    }

    /** The module over structures nobody has used yet. */
    constructor (ghost works: set<Work>, ghost queues: set<WorkQ>, ghost cancellers: set<Canceller>)
      requires forall w :: w in works ==> GhostItem(w) == IdleItem
      requires forall q :: q in queues ==> GhostQueue(q) == NewQueue
      requires forall c :: c in cancellers ==> GhostCanceller(c) == IdleCanceller
      ensures this.works == works && this.queues == queues && this.cancellers == cancellers
      ensures Initial(Abs()) && Inv(Abs())
    {
      this.works, this.queues, this.cancellers := works, queues, cancellers;
      pendingCancels := [];
      new;
      InitialInv(Abs());
    }

    /** Only `w` and `q` were written to, and they became what they are in `u`. */
    twostate lemma Became(new w: Work?, new q: WorkQ?, u: State)
      requires unchanged(this) && unchanged(works - {w}) && unchanged(queues - {q}) && unchanged(cancellers)
      requires Differ(old(Abs()), u, w, q)
      requires w != null ==> w in works && u.items[w] == GhostItem(w)
      requires q != null ==> q in queues && u.queues[q] == GhostQueue(q)
      ensures Abs() == u
    {
      forall v | v in works && v != w ensures GhostItem(v) == u.items[v] { assert old(GhostItem(v)) == GhostItem(v); }
      forall r | r in queues && r != q ensures GhostQueue(r) == u.queues[r] { assert old(GhostQueue(r)) == GhostQueue(r); }
      assert Items() == u.items && Queues() == u.queues;
    }

    /** Only the list and `c` were written to, and they became what they are in `u`. */
    twostate lemma Listed(new c: Canceller, u: State)
      requires unchanged(works) && unchanged(queues) && unchanged(cancellers - {c})
      requires u.items == old(Items()) && u.queues == old(Queues()) && u.cancels == pendingCancels
      requires c in cancellers && u.cancellers == old(Cancellers())[c := GhostCanceller(c)]
      ensures Abs() == u
    {
      assert Items() == old(Items()) && Queues() == old(Queues());
      forall d | d in cancellers && d != c ensures GhostCanceller(d) == u.cancellers[d] { assert old(GhostCanceller(d)) == GhostCanceller(d); }
      assert Cancellers() == u.cancellers;
    }

    /** The flags that make an item busy, as a number. */
    method BusyGet(work: Work) returns (ret: nat)
      ensures ret == Busy(GhostItem(work))
    {
      ret := 0;
      if work.running { ret := ret + 1; }
      if work.canceling { ret := ret + 2; }
      if work.queued { ret := ret + 4; }
      if work.delayed { ret := ret + 8; }
      if work.flushing { ret := ret + 16; }
    }

    // ---- submission ----

    method QueueSubmitLocked(queue: WorkQ, work: Work, caller: WorkQ?) returns (ret: int)
      modifies queue
      ensures ret == Admission(old(GhostQueue(queue)), caller == queue)
      ensures GhostQueue(queue) == if ret < 0 then old(GhostQueue(queue)) else Appended(old(GhostQueue(queue)), work)
    {
      var chained := caller == queue;
      if !queue.started {
        ret := -ENODEV;
      } else if queue.drain && !chained {
        ret := -EBUSY;
      } else if queue.plugged && !queue.drain {
        ret := -EBUSY;
      } else {
        queue.pending := queue.pending + [work];
        queue.accepted := queue.accepted + [work];
        ret := 1;
        queue.notify := Give(queue.notify);
      }
    }

    /** `target` is the queue the submission would go to. */
    method SubmitToQueueLocked(work: Work, queuep: WorkQ?, caller: WorkQ?, ghost target: WorkQ?) returns (ret: int)
      requires target == Target(GhostItem(work), queuep)
      modifies work, if target == null then {} else {target}
      ensures ret == Verdict(old(GhostItem(work)),
                             if target == null then -EINVAL else Admission(old(GhostQueue(target)), caller == target))
      ensures ret <= 0 ==> GhostItem(work) == old(GhostItem(work))
      ensures target != null && ret <= 0 ==> GhostQueue(target) == old(GhostQueue(target))
      ensures target != null && ret > 0 ==>
                && GhostItem(work) == QueuedItem(old(GhostItem(work)), target, |old(target.accepted)|)
                && GhostQueue(target) == Appended(old(GhostQueue(target)), work)
    {
      ret := 0;
      if work.canceling {
        ret := -EBUSY;
      } else if !work.queued {
        ret := 1;
        var queue := queuep;
        if queue == null {
          queue := work.queue;
        }
        if work.running {
          queue := work.queue;
          ret := 2;
        }
        var rc := -EINVAL;
        if queue != null {
          rc := QueueSubmitLocked(queue, work, caller);
        }
        if rc < 0 {
          ret := rc;
        } else {
          work.token := |queue.accepted| - 1;
          work.queued := true;
          work.queue := queue;
        }
      }
    }

    /** The same, as a step of the module. */
    method SubmitLocked(work: Work, queue: WorkQ?, caller: WorkQ?) returns (ret: int)
      requires work in works && Known(Abs(), Target(GhostItem(work), queue))
      modifies works, queues
      ensures Abs() == WorkSpec.Submit(old(Abs()), work, queue, caller)
      ensures ret == SubmitCode(old(Abs()), work, queue, caller)
    {
      ghost var before, target := Abs(), Target(GhostItem(work), queue);
      SubmitWrites(before, work, queue, caller);
      ret := SubmitToQueueLocked(work, queue, caller, target);
      Became(work, target, WorkSpec.Submit(before, work, queue, caller));
    }

    /** bt_work_submit_to_queue */
    method Submit(work: Work, queue: WorkQ?, caller: WorkQ?) returns (ret: int)
      requires Inv(Abs()) && Enabled(Abs(), ESubmit(work, queue, caller))
      modifies works, queues
      ensures Abs() == Step(old(Abs()), ESubmit(work, queue, caller)) && Inv(Abs())
      ensures ret == SubmitCode(old(Abs()), work, queue, caller)
    {
      ghost var before := Abs();
      Pointers(before, work);
      ret := SubmitLocked(work, queue, caller);
      StepKeeps(before, ESubmit(work, queue, caller));
    }

    // ---- delayed submission ----

    /** `stopped`: os_timer_stop found the timer armed. */
    method UnscheduleLocked(work: Work, stopped: bool) returns (ret: bool)
      requires work in works
      modifies work
      ensures Abs() == Unschedule(old(Abs()), work)
      ensures ret <==> old(work.delayed) && stopped
    {
      ghost var before := Abs();
      DelayWrites(before, work, false, work.delayQueue);
      ret := false;
      if work.delayed {
        work.delayed := false;
        ret := stopped;
      }
      Became(work, null, Unschedule(before, work));
    }

    method ScheduleForQueueLocked(queue: WorkQ, work: Work, noWait: bool, caller: WorkQ?) returns (ret: int)
      requires work in works && queue in queues && Known(Abs(), GhostItem(work).queue)
      modifies works, queues
      ensures Abs() == ScheduleLocked(old(Abs()), work, queue, noWait, caller)
      ensures ret == ScheduleLockedCode(old(Abs()), work, queue, noWait, caller)
    {
      hide WorkSpec.Submit, SubmitCode;
      ghost var before := Abs();
      ret := 1;
      if noWait {
        ret := SubmitLocked(work, queue, caller);
      } else {
        DelayWrites(before, work, true, queue);
        work.delayed := true;
        work.delayQueue := queue;
        Became(work, null, SetDelay(before, work, true, queue));
      }
    }

    /** bt_work_schedule_for_queue */
    method Schedule(queue: WorkQ, work: Work, noWait: bool, caller: WorkQ?) returns (ret: int)
      requires Inv(Abs()) && Enabled(Abs(), ESchedule(work, queue, noWait, caller))
      modifies works, queues
      ensures Abs() == Step(old(Abs()), ESchedule(work, queue, noWait, caller)) && Inv(Abs())
      ensures ret == if Busy(old(GhostItem(work)).(running := false)) == 0
                     then ScheduleLockedCode(old(Abs()), work, queue, noWait, caller) else 0
    {
      ghost var before := Abs();
      Pointers(before, work);
      ret := 0;
      if !work.canceling && !work.queued && !work.delayed && !work.flushing {
        ret := ScheduleForQueueLocked(queue, work, noWait, caller);
      }
      StepKeeps(before, ESchedule(work, queue, noWait, caller));
    }

    /** bt_work_reschedule_for_queue */
    method Reschedule(queue: WorkQ, work: Work, noWait: bool, caller: WorkQ?) returns (ret: int)
      requires Inv(Abs()) && Enabled(Abs(), EReschedule(work, queue, noWait, caller))
      modifies works, queues
      ensures Abs() == Step(old(Abs()), EReschedule(work, queue, noWait, caller)) && Inv(Abs())
      ensures ret == ScheduleLockedCode(Unschedule(old(Abs()), work), work, queue, noWait, caller)
    {
      ghost var before := Abs();
      Pointers(before, work);
      var _ := UnscheduleLocked(work, true);
      ret := ScheduleForQueueLocked(queue, work, noWait, caller);
      StepKeeps(before, EReschedule(work, queue, noWait, caller));
    }

    /** work_timeout */
    method Timeout(work: Work)
      requires Inv(Abs()) && Enabled(Abs(), ETimeout(work))
      modifies works, queues
      ensures Abs() == Step(old(Abs()), ETimeout(work)) && Inv(Abs())
    {
      ghost var before := Abs();
      Pointers(before, work);
      if work.delayed {
        var _ := UnscheduleLocked(work, true);
        var queue := work.delayQueue;
        var _ := SubmitLocked(work, queue, null);
      }
      StepKeeps(before, ETimeout(work));
    }

    // ---- flush ----

    /** init_flusher; what the flusher waits for is kept with it. */
    method InitFlusher(flusher: Work, ghost home: WorkQ, ghost targets: set<nat>)
      modifies flusher
      ensures GhostItem(flusher) == FreshFlusher(old(flusher.token), home, targets)
    {
      flusher.running, flusher.canceling, flusher.queued, flusher.delayed := false, false, false, false;
      flusher.queue, flusher.delayQueue, flusher.sem := null, null, 0;
      flusher.flushing := true;
      flusher.home, flusher.targets := home, targets;
    }

    method QueueFlusherLocked(queue: WorkQ, work: Work, flusher: Work)
      requires work != flusher
      modifies queue, flusher
      ensures GhostItem(flusher) ==
              FreshFlusher(old(flusher.token), queue, Pending(old(GhostItem(work)), old(GhostQueue(queue))))
      ensures GhostQueue(queue) == old(GhostQueue(queue)).(pending := Placed(old(queue.pending), work.queued, work, flusher))
    {
      InitFlusher(flusher, queue, Pending(GhostItem(work), GhostQueue(queue)));
      if work.queued && work in queue.pending {
        queue.pending := InsertAfter(queue.pending, work, flusher);
      } else {
        queue.pending := [flusher] + queue.pending;
      }
    }

    method WorkFlushLocked(work: Work, flusher: Work) returns (needFlush: bool)
      requires work in works && flusher in works && work != flusher
      requires work.queue in queues || (work.queue == null && !work.queued && !work.running)
      modifies works, queues
      ensures Abs() == WorkSpec.Flush(old(Abs()), work, flusher)
      ensures needFlush == NeedsFlush(old(GhostItem(work)))
    {
      needFlush := work.queued || work.running;
      if needFlush {
        QueueAndNotify(work.queue, work, flusher);
      }
    }

    method QueueAndNotify(queue: WorkQ, work: Work, flusher: Work)
      requires work in works && flusher in works && work != flusher && queue in queues && work.queue == queue
      modifies works, queues
      ensures Abs() == PlaceFlusher(old(Abs()), work, flusher, queue)
    {
      ghost var before := Abs();
      FlushWrites(before, work, flusher);
      QueueFlusherLocked(queue, work, flusher);
      queue.notify := Give(queue.notify);
      Became(flusher, queue, PlaceFlusher(before, work, flusher, queue));
    }

    /** bt_work_flush, up to the wait on the flusher's semaphore */
    method Flush(work: Work, flusher: Work) returns (needFlush: bool)
      requires Inv(Abs()) && Enabled(Abs(), EFlush(work, flusher))
      modifies works, queues
      ensures Abs() == Step(old(Abs()), EFlush(work, flusher)) && Inv(Abs())
      ensures needFlush == NeedsFlush(old(GhostItem(work)))
    {
      ghost var before := Abs();
      Pointers(before, work);
      needFlush := WorkFlushLocked(work, flusher);
      StepKeeps(before, EFlush(work, flusher));
    }

    method FlushDelayableLocked(work: Work, flusher: Work, stopped: bool, caller: WorkQ?) returns (needFlush: bool)
      requires work in works && flusher in works && work != flusher && FlushReady(Abs(), work, stopped, caller)
      modifies works, queues
      ensures Abs() == WorkSpec.FlushDelayable(old(Abs()), work, flusher, stopped, caller)
      ensures needFlush == (Busy(old(GhostItem(work))) != 0
                            && NeedsFlush(SubmitDelayed(old(Abs()), work, stopped, caller).items[work]))
    {
      needFlush := false;
      var busy := BusyGet(work);
      if busy != 0 {
        var unscheduled := UnscheduleLocked(work, stopped);
        if unscheduled {
          var queue := work.delayQueue;
          var _ := SubmitLocked(work, queue, caller);
        }
        needFlush := WorkFlushLocked(work, flusher);
      }
    }

    /** bt_work_flush_delayable, up to the wait */
    method FlushDelayable(work: Work, flusher: Work, stopped: bool, caller: WorkQ?) returns (needFlush: bool)
      requires Inv(Abs()) && Enabled(Abs(), EFlushDelayable(work, flusher, stopped, caller))
      modifies works, queues
      ensures Abs() == Step(old(Abs()), EFlushDelayable(work, flusher, stopped, caller)) && Inv(Abs())
      ensures needFlush == (Busy(old(GhostItem(work))) != 0
                            && NeedsFlush(SubmitDelayed(old(Abs()), work, stopped, caller).items[work]))
    {
      ghost var before := Abs();
      FlushPointers(before, work, stopped, caller);
      needFlush := FlushDelayableLocked(work, flusher, stopped, caller);
      StepKeeps(before, EFlushDelayable(work, flusher, stopped, caller));
    }

    // ---- cancel ----

    method QueueRemoveLocked(queue: WorkQ?, work: Work)
      modifies work, if queue == null then {} else {queue}
      ensures GhostItem(work) == old(GhostItem(work)).(queued := false)
      ensures queue != null && old(work.queued) ==> GhostQueue(queue) == Without(old(GhostQueue(queue)), work, old(work.token))
      ensures queue != null && !old(work.queued) ==> GhostQueue(queue) == old(GhostQueue(queue))
    {
      if work.queued {
        work.queued := false;
        if queue != null {
          queue.pending := Remove(queue.pending, work);
          queue.cancelled := queue.cancelled + {work.token};
        }
      }
    }

    method CancelAsyncLocked(work: Work) returns (ret: nat)
      requires work.queued ==> work.queue != null
      modifies work, if work.queue == null then {} else {work.queue}
      ensures GhostItem(work) == CancelledItem(old(GhostItem(work)))
      ensures work.queue != null ==>
                GhostQueue(work.queue) == if Dequeues(old(GhostItem(work)))
                                          then Without(old(GhostQueue(work.queue)), work, old(work.token))
                                          else old(GhostQueue(work.queue))
      ensures ret == Busy(GhostItem(work))
    {
      if !work.canceling {
        QueueRemoveLocked(work.queue, work);
      }
      ret := BusyGet(work);
      if ret != 0 {
        work.canceling := true;
        ret := BusyGet(work);
      }
    }

    /** The same, as a step of the module. */
    method CancelLocked(work: Work) returns (ret: nat)
      requires work in works && Known(Abs(), work.queue) && (work.queued ==> work.queue != null)
      modifies works, queues
      ensures Abs() == CancelAsync(old(Abs()), work)
      ensures ret == Busy(GhostItem(work))
    {
      ghost var before := Abs();
      CancelWrites(before, work);
      ret := CancelAsyncLocked(work);
      Became(work, before.items[work].queue, CancelAsync(before, work));
    }

    method CancelSyncLocked(work: Work, canceller: Canceller) returns (ret: bool)
      requires work in works && canceller in cancellers
      modifies this, cancellers
      ensures Abs() == AwaitCancel(old(Abs()), work, canceller)
      ensures ret == old(work.canceling)
      ensures ret ==> canceller in pendingCancels
    {
      ghost var before := Abs();
      ret := work.canceling;
      if ret {
        canceller.sem := 0;
        canceller.work := work;
        canceller.on := work.queue;
        canceller.token := if work.queue == null || work.queue !in queues || work.queue.begun == [] then 0
                           else work.queue.begun[|work.queue.begun| - 1];
        pendingCancels := pendingCancels + [canceller];
        Listed(canceller, AwaitCancel(before, work, canceller));
      }
    }

    /** bt_work_cancel */
    method Cancel(work: Work) returns (ret: nat)
      requires Inv(Abs()) && Enabled(Abs(), ECancel(work))
      modifies works, queues
      ensures Abs() == Step(old(Abs()), ECancel(work)) && Inv(Abs())
      ensures ret == Busy(GhostItem(work))
    {
      ghost var before := Abs();
      Pointers(before, work);
      ret := CancelLocked(work);
      StepKeeps(before, ECancel(work));
    }

    /** bt_work_cancel_sync, up to the wait on the canceller's semaphore */
    method CancelSync(work: Work, canceller: Canceller) returns (pending: bool, needWait: bool)
      requires Inv(Abs()) && Enabled(Abs(), ECancelSync(work, canceller))
      modifies this, works, queues, cancellers
      ensures Abs() == Step(old(Abs()), ECancelSync(work, canceller)) && Inv(Abs())
      ensures pending == (Busy(old(GhostItem(work))) != 0)
      ensures needWait <==> canceller in pendingCancels
    {
      Pointers(Abs(), work);
      StepKeeps(Abs(), ECancelSync(work, canceller));
      hide Inv;
      pending, needWait := CancelSyncBegin(work, canceller);
    }

    /** The locked section of the same. */
    method CancelSyncBegin(work: Work, canceller: Canceller) returns (pending: bool, needWait: bool)
      requires work in works && Known(Abs(), work.queue) && (work.queued ==> work.queue != null)
      requires canceller in cancellers && canceller !in pendingCancels
      modifies this, works, queues, cancellers
      ensures Abs() == WorkSpec.CancelSync(old(Abs()), work, canceller)
      ensures pending == (Busy(old(GhostItem(work))) != 0)
      ensures needWait <==> canceller in pendingCancels
    {
      var busy := BusyGet(work);
      pending := busy != 0;
      needWait := false;
      if pending {
        var _ := CancelLocked(work);
        needWait := CancelSyncLocked(work, canceller);
      }
    }

    method CancelDelayableAsyncLocked(work: Work) returns (ret: nat)
      requires work in works && Known(Abs(), work.queue) && (work.queued ==> work.queue != null)
      modifies works, queues
      ensures Abs() == WorkSpec.CancelDelayable(old(Abs()), work)
      ensures ret == Busy(GhostItem(work))
    {
      var _ := UnscheduleLocked(work, true);
      ret := CancelLocked(work);
    }

    /** bt_work_cancel_delayable */
    method CancelDelayable(work: Work) returns (ret: nat)
      requires Inv(Abs()) && Enabled(Abs(), ECancelDelayable(work))
      modifies works, queues
      ensures Abs() == Step(old(Abs()), ECancelDelayable(work)) && Inv(Abs())
      ensures ret == Busy(GhostItem(work))
    {
      ghost var before := Abs();
      Pointers(before, work);
      ret := CancelDelayableAsyncLocked(work);
      StepKeeps(before, ECancelDelayable(work));
    }

    /** bt_work_cancel_delayable_sync, up to the wait */
    method CancelDelayableSync(work: Work, canceller: Canceller) returns (pending: bool, needWait: bool)
      requires Inv(Abs()) && Enabled(Abs(), ECancelDelayableSync(work, canceller))
      modifies this, works, queues, cancellers
      ensures Abs() == Step(old(Abs()), ECancelDelayableSync(work, canceller)) && Inv(Abs())
      ensures pending == (Busy(old(GhostItem(work))) != 0)
      ensures needWait <==> canceller in pendingCancels
    {
      Pointers(Abs(), work);
      StepKeeps(Abs(), ECancelDelayableSync(work, canceller));
      hide Inv;
      pending, needWait := CancelDelayableBegin(work, canceller);
    }

    /** The locked section of the same. */
    method CancelDelayableBegin(work: Work, canceller: Canceller) returns (pending: bool, needWait: bool)
      requires work in works && Known(Abs(), work.queue) && (work.queued ==> work.queue != null)
      requires canceller in cancellers && canceller !in pendingCancels
      modifies this, works, queues, cancellers
      ensures Abs() == WorkSpec.CancelDelayableSync(old(Abs()), work, canceller)
      ensures pending == (Busy(old(GhostItem(work))) != 0)
      ensures needWait <==> canceller in pendingCancels
    {
      var busy := BusyGet(work);
      pending := busy != 0;
      needWait := false;
      if pending {
        var _ := CancelDelayableAsyncLocked(work);
        needWait := CancelSyncLocked(work, canceller);
      }
    }

    // ---- the thread of a queue ----

    /** First locked section of work_queue_main.  `work` is the item whose handler is
        called next; without one the thread returns (`exit`) or sleeps. */
    method TakeWork(queue: WorkQ) returns (work: Work?, exit: bool)
      requires Inv(Abs()) && Enabled(Abs(), ETake(queue))
      modifies works, queues
      ensures Abs() == Step(old(Abs()), ETake(queue)) && Inv(Abs())
      ensures work != null ==> queue.worker == Running(work)
      ensures work == null ==> queue.worker == if exit then Absent else Blocked
    {
      ghost var before := Abs();
      if queue.pending != [] { HeadIsItem(before, queue); }
      work, exit := TakeLocked(queue);
      StepKeeps(before, ETake(queue));
    }

    method TakeLocked(queue: WorkQ) returns (work: Work?, exit: bool)
      requires queue in queues && (queue.pending != [] ==> queue.pending[0] in works)
      modifies works, queues
      ensures Abs() == Take(old(Abs()), queue)
      ensures work != null ==> queue.worker == Running(work)
      ensures work == null ==> queue.worker == if exit then Absent else Blocked
    {
      ghost var before := Abs();
      TakeWrites(before, queue);
      work, exit := null, false;
      if queue.pending != [] {
        work := queue.pending[0];
        BeginLocked(queue, work);
      } else {
        exit := IdleLocked(queue);
      }
      Became(work, queue, Take(before, queue));
    }

    method BeginLocked(queue: WorkQ, work: Work)
      requires queue.pending != [] && queue.pending[0] == work
      modifies queue, work
      ensures GhostItem(work) == old(GhostItem(work)).(running := true, queued := false)
      ensures GhostQueue(queue) == Begin(old(GhostQueue(queue)), old(work.token))
    {
      queue.pending := queue.pending[1..];
      queue.busy := true;
      work.running := true;
      work.queued := false;
      queue.worker := Running(work);
      queue.begun := queue.begun + if work.kind == Flusher then [] else [work.token];
    }

    /** Nothing is pending. */
    method IdleLocked(queue: WorkQ) returns (exit: bool)
      modifies queue
      ensures GhostQueue(queue) == TakeNothing(old(GhostQueue(queue)))
      ensures queue.worker == if exit then Absent else Blocked
    {
      exit := false;
      if queue.drain {
        queue.drain := false;
        queue.drainSem := Give(queue.drainSem);
      } else if queue.stop {
        queue.started, queue.busy, queue.drain, queue.plugged, queue.stop := false, false, false, false, false;
        exit := true;
      }
      queue.worker := if exit then Absent else Blocked;
    }

    /** Second locked section of work_queue_main: the handler has returned. */
    method FinishWork(queue: WorkQ)
      requires Inv(Abs()) && Enabled(Abs(), EFinish(queue))
      modifies this, works, queues, cancellers
      ensures Abs() == Step(old(Abs()), EFinish(queue)) && Inv(Abs())
    {
      ghost var before := Abs();
      FinishLocked(queue);
      StepKeeps(before, EFinish(queue));
    }

    method FinishLocked(queue: WorkQ)
      requires queue in queues && queue.worker.Running? && queue.worker.work in works
      requires forall i :: 0 <= i < |pendingCancels| ==> pendingCancels[i] in cancellers
      modifies this, works, queues, cancellers
      ensures Abs() == Finish(old(Abs()), queue)
    {
      ghost var before := Abs();
      var work := queue.worker.work;
      var cancelled := ClearLocked(queue, work);
      Became(work, queue, FinishCore(before, queue));
      if cancelled {
        ReleaseLocked(work);
      }
    }

    /** The flags of the item and of the queue; finalize_flush_locked for a flusher. */
    method ClearLocked(queue: WorkQ, work: Work) returns (cancelled: bool)
      requires queue.worker == Running(work)
      modifies queue, work
      ensures GhostItem(work) == FinishItem(old(GhostItem(work)))
      ensures GhostQueue(queue) == old(GhostQueue(queue)).(busy := false, worker := Ready)
      ensures cancelled <==> old(!work.flushing && work.canceling)
    {
      cancelled := false;
      work.running := false;
      if work.flushing {
        work.flushing := false;
        work.sem := Give(work.sem);
      } else if work.canceling {
        work.canceling := false;
        cancelled := true;
      }
      queue.busy := false;
      queue.worker := Ready;
    }

    /** The search of finalize_cancel_locked: it stops at the first match. */
    method ReleaseLocked(work: Work)
      requires forall i :: 0 <= i < |pendingCancels| ==> pendingCancels[i] in cancellers
      modifies this, cancellers
      ensures Abs() == ReleaseCanceller(old(Abs()), work)
    {
      ghost var before := Abs();
      var i := 0;
      while i < |pendingCancels| && pendingCancels[i].work != work
        invariant i <= |pendingCancels|
        invariant forall j :: 0 <= j < i ==> pendingCancels[j].work != work
      {
        i := i + 1;
      }
      assert i == FirstWait(before, before.cancels, work);
      if i < |pendingCancels| {
        var wc := pendingCancels[i];
        pendingCancels := pendingCancels[..i] + pendingCancels[i + 1..];
        wc.sem := Give(wc.sem);
        Listed(wc, ReleaseCanceller(before, work));
      }
    }

    method WakeLocked(queue: WorkQ)
      requires queue in queues && queue.notify >= 1
      modifies queues
      ensures Abs() == WorkSpec.Wake(old(Abs()), queue)
    {
      ghost var before := Abs();
      queue.notify := queue.notify - 1;
      queue.worker := Ready;
      Became(null, queue, WorkSpec.Wake(before, queue));
    }

    /** The thread returns from os_sem_take on notifyq. */
    method Wake(queue: WorkQ)
      requires Inv(Abs()) && Enabled(Abs(), EWake(queue))
      modifies queues
      ensures Abs() == Step(old(Abs()), EWake(queue)) && Inv(Abs())
    {
      ghost var before := Abs();
      WakeLocked(queue);
      StepKeeps(before, EWake(queue));
    }

    // ---- queue control ----

    method InitQueue(queue: WorkQ)
      modifies queue
      ensures GhostQueue(queue) == Started(old(GhostQueue(queue)))
    {
      queue.pending, queue.notify, queue.drainSem := [], 0, 0;
      queue.started, queue.busy, queue.drain, queue.plugged, queue.stop := true, false, false, false, false;
      queue.worker := Ready;
    }

    method StartLocked(queue: WorkQ)
      requires queue in queues
      modifies queues
      ensures Abs() == WorkSpec.Start(old(Abs()), queue)
    {
      ghost var before := Abs();
      InitQueue(queue);
      Became(null, queue, WorkSpec.Start(before, queue));
    }

    /** bt_work_queue_start */
    method Start(queue: WorkQ)
      requires Inv(Abs()) && Enabled(Abs(), EStart(queue))
      modifies queues
      ensures Abs() == Step(old(Abs()), EStart(queue)) && Inv(Abs())
    {
      ghost var before := Abs();
      StartLocked(queue);
      StepKeeps(before, EStart(queue));
    }

    method DrainLocked(queue: WorkQ, plug: bool) returns (wait: bool)
      requires queue in queues
      modifies queues
      ensures Abs() == WorkSpec.Drain(old(Abs()), queue, plug)
      ensures wait == MustDrain(old(GhostQueue(queue)), plug)
    {
      ghost var before := Abs();
      wait := queue.busy || queue.drain || plug || queue.pending != [];
      if wait {
        queue.drain := true;
        if plug {
          queue.plugged := true;
        }
        queue.notify := Give(queue.notify);
      }
      Became(null, queue, WorkSpec.Drain(before, queue, plug));
    }

    /** bt_work_queue_drain, up to the wait on drainq */
    method Drain(queue: WorkQ, plug: bool) returns (wait: bool)
      requires Inv(Abs()) && Enabled(Abs(), EDrain(queue, plug))
      modifies queues
      ensures Abs() == Step(old(Abs()), EDrain(queue, plug)) && Inv(Abs())
      ensures wait == MustDrain(old(GhostQueue(queue)), plug)
    {
      ghost var before := Abs();
      wait := DrainLocked(queue, plug);
      StepKeeps(before, EDrain(queue, plug));
    }

    method UnplugLocked(queue: WorkQ) returns (ret: int)
      requires queue in queues
      modifies queues
      ensures Abs() == WorkSpec.Unplug(old(Abs()), queue)
      ensures ret == if old(queue.plugged) then 0 else -EALREADY
    {
      ghost var before := Abs();
      ret := -EALREADY;
      if queue.plugged {
        queue.plugged := false;
        ret := 0;
      }
      Became(null, queue, WorkSpec.Unplug(before, queue));
    }

    /** bt_work_queue_unplug */
    method Unplug(queue: WorkQ) returns (ret: int)
      requires Inv(Abs()) && Enabled(Abs(), EUnplug(queue))
      modifies queues
      ensures Abs() == Step(old(Abs()), EUnplug(queue)) && Inv(Abs())
      ensures ret == if old(queue.plugged) then 0 else -EALREADY
    {
      ghost var before := Abs();
      ret := UnplugLocked(queue);
      StepKeeps(before, EUnplug(queue));
    }

    method StopLocked(queue: WorkQ) returns (ret: int)
      requires queue in queues
      modifies queues
      ensures Abs() == WorkSpec.Stop(old(Abs()), queue)
      ensures ret == StopCode(old(GhostQueue(queue)))
    {
      ghost var before := Abs();
      if !queue.started {
        ret := -EALREADY;
      } else if !queue.plugged {
        ret := -EBUSY;
      } else {
        queue.stop := true;
        queue.notify := Give(queue.notify);
        ret := 0;
      }
      Became(null, queue, WorkSpec.Stop(before, queue));
    }

    /** bt_work_queue_stop, up to the join */
    method Stop(queue: WorkQ) returns (ret: int)
      requires Inv(Abs()) && Enabled(Abs(), EStop(queue))
      modifies queues
      ensures Abs() == Step(old(Abs()), EStop(queue)) && Inv(Abs())
      ensures ret == StopCode(old(GhostQueue(queue)))
    {
      ghost var before := Abs();
      ret := StopLocked(queue);
      StepKeeps(before, EStop(queue));
    }

    method StopTimeoutLocked(queue: WorkQ)
      requires queue in queues
      modifies queues
      ensures Abs() == WorkSpec.StopTimeout(old(Abs()), queue)
    {
      ghost var before := Abs();
      queue.stop := false;
      Became(null, queue, WorkSpec.StopTimeout(before, queue));
    }

    /** bt_work_queue_stop after a join that timed out */
    method StopTimeout(queue: WorkQ)
      requires Inv(Abs()) && Enabled(Abs(), EStopTimeout(queue))
      modifies queues
      ensures Abs() == Step(old(Abs()), EStopTimeout(queue)) && Inv(Abs())
    {
      ghost var before := Abs();
      StopTimeoutLocked(queue);
      StepKeeps(before, EStopTimeout(queue));
    }
  }
}
