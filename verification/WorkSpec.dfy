/** One function per locked section of base/bt_work.c, from module state to module
    state. WorkQueue proves that the methods, which update the structures in place,
    compute these functions; the properties are proved about them. */
module WorkSpec {
  import opened WorkState

  const EINVAL := 22
  const EBUSY := 16
  const ENODEV := 19
  const EALREADY := 114

  /** flags_get(&work->flags) & BT_WORK_MASK */
  function Busy(it: Item): nat {
    (if it.running then 1 else 0) + (if it.canceling then 2 else 0) + (if it.queued then 4 else 0)
    + (if it.delayed then 8 else 0) + (if it.flushing then 16 else 0)
  }

  /** Token of the submission whose handler the queue thread is in. */
  ghost predicate RunsToken(qu: Queue, t: nat) {
    qu.worker.Running? && qu.worker.work.kind != Flusher && qu.begun != [] && qu.begun[|qu.begun| - 1] == t
  }

  /** Tokens of an item, on its own queue, whose handler has not finished. */
  ghost function Pending(it: Item, qu: Queue): set<nat> {
    (if it.queued then {it.token} else {})
    + (if it.running && qu.begun != [] then {qu.begun[|qu.begun| - 1]} else {})
  }

  ghost function Outstanding(s: State, w: Work): set<nat>
    requires w in s.items
  {
    var it := s.items[w];
    if it.queue == null || it.queue !in s.queues then {} else Pending(it, s.queues[it.queue])
  }

  // ---- submission (queue_submit_locked, submit_to_queue_locked) ----

  function Admission(qu: Queue, chained: bool): int {
    if !qu.started then -ENODEV
    else if qu.drain && !chained then -EBUSY
    else if qu.plugged && !qu.drain then -EBUSY
    else 1
  }

  /** The queue a submission would go to. */
  function Target(it: Item, q: WorkQ?): WorkQ? {
    if it.running || q == null then it.queue else q
  }

  function QueuedItem(it: Item, q: WorkQ, t: nat): Item { it.(queued := true, queue := q, token := t) }

  function Appended(qu: Queue, w: Work): Queue {
    qu.(pending := qu.pending + [w], notify := Give(qu.notify), accepted := qu.accepted + [w])
  }

  function Enqueue(s: State, w: Work, q: WorkQ): State
    requires w in s.items && q in s.queues
  {
    s.(items := s.items[w := QueuedItem(s.items[w], q, |s.queues[q].accepted|)],
       queues := s.queues[q := Appended(s.queues[q], w)])
  }

  /** What a submission returns when its queue answers `rc`. */
  function Verdict(it: Item, rc: int): int {
    if it.canceling then -EBUSY
    else if it.queued then 0
    else if rc < 0 then rc
    else if it.running then 2 else 1
  }

  /** `caller` is the queue whose thread makes the call, if any. */
  function SubmitCode(s: State, w: Work, q: WorkQ?, caller: WorkQ?): int
    requires w in s.items
  {
    var target := Target(s.items[w], q);
    if target == null || target !in s.queues then Verdict(s.items[w], -EINVAL)
    else Verdict(s.items[w], Admission(s.queues[target], caller == target))
  }

  function Submit(s: State, w: Work, q: WorkQ?, caller: WorkQ?): State
    requires w in s.items
  {
    if SubmitCode(s, w, q, caller) > 0 then Enqueue(s, w, Target(s.items[w], q)) else s
  }

  // ---- delayed submission ----

  function SetDelay(s: State, w: Work, delayed: bool, q: WorkQ?): State
    requires w in s.items
  {
    s.(items := s.items[w := s.items[w].(delayed := delayed, delayQueue := q)])
  }

  /** unschedule_locked, as far as it changes the item */
  function Unschedule(s: State, w: Work): State
    requires w in s.items
  {
    SetDelay(s, w, false, s.items[w].delayQueue)
  }

  function ScheduleLocked(s: State, w: Work, q: WorkQ, noWait: bool, caller: WorkQ?): State
    requires w in s.items
  {
    if noWait then Submit(s, w, q, caller) else SetDelay(s, w, true, q)
  }

  /** schedule_for_queue_locked's result */
  function ScheduleLockedCode(s: State, w: Work, q: WorkQ, noWait: bool, caller: WorkQ?): int
    requires w in s.items
  {
    if noWait then SubmitCode(s, w, q, caller) else 1
  }

  function Schedule(s: State, w: Work, q: WorkQ, noWait: bool, caller: WorkQ?): State
    requires w in s.items
  {
    var it := s.items[w];
    if Busy(it.(running := false)) == 0 then ScheduleLocked(s, w, q, noWait, caller) else s
  }

  function Reschedule(s: State, w: Work, q: WorkQ, noWait: bool, caller: WorkQ?): State
    requires w in s.items
  {
    ScheduleLocked(Unschedule(s, w), w, q, noWait, caller)
  }

  function Timeout(s: State, w: Work): State
    requires w in s.items
  {
    if s.items[w].delayed then Submit(Unschedule(s, w), w, s.items[w].delayQueue, null) else s
  }

  // ---- flush ----

  function NeedsFlush(it: Item): bool { it.queued || it.running }

  /** init_flusher */
  function FreshFlusher(t: nat, q: WorkQ, targets: set<nat>): Item {
    IdleItem.(flushing := true, token := t, home := q, targets := targets)
  }

  /** Where queue_flusher_locked puts the flusher `f` of `w`. */
  function Placed(p: seq<Work>, queued: bool, w: Work, f: Work): seq<Work> {
    if queued && w in p then InsertAfter(p, w, f) else [f] + p
  }

  function WithFlusher(qu: Queue, queued: bool, w: Work, f: Work): Queue {
    qu.(pending := Placed(qu.pending, queued, w, f), notify := Give(qu.notify))
  }

  /** work_flush_locked on an item that is queued or running */
  ghost function PlaceFlusher(s: State, w: Work, f: Work, q: WorkQ): State
    requires w in s.items && f in s.items && q in s.queues
  {
    s.(items := s.items[f := FreshFlusher(s.items[f].token, q, Outstanding(s, w))],
       queues := s.queues[q := WithFlusher(s.queues[q], s.items[w].queued, w, f)])
  }

  ghost function Flush(s: State, w: Work, f: Work): State
    requires w in s.items && f in s.items
  {
    var it := s.items[w];
    if NeedsFlush(it) && it.queue != null && it.queue in s.queues then PlaceFlusher(s, w, f, it.queue) else s
  }

  /** What bt_work_flush_delayable does before the flush proper: a submission that
      was still delayed (`stopped`: os_timer_stop found its timer armed) is made. */
  function SubmitDelayed(s: State, w: Work, stopped: bool, caller: WorkQ?): State
    requires w in s.items
  {
    var u := Unschedule(s, w);
    if s.items[w].delayed && stopped then Submit(u, w, s.items[w].delayQueue, caller) else u
  }

  ghost function FlushDelayable(s: State, w: Work, f: Work, stopped: bool, caller: WorkQ?): State
    requires w in s.items && f in s.items
  {
    if Busy(s.items[w]) == 0 then s else Flush(SubmitDelayed(s, w, stopped, caller), w, f)
  }

  // ---- cancel ----

  function Without(qu: Queue, w: Work, t: nat): Queue {
    qu.(pending := Remove(qu.pending, w), cancelled := qu.cancelled + {t})
  }

  function Dequeue(s: State, w: Work, q: WorkQ): State
    requires w in s.items && q in s.queues
  {
    s.(items := s.items[w := s.items[w].(queued := false)],
       queues := s.queues[q := Without(s.queues[q], w, s.items[w].token)])
  }

  function MarkCanceling(s: State, w: Work): State
    requires w in s.items
  {
    if Busy(s.items[w]) != 0 then s.(items := s.items[w := s.items[w].(canceling := true)]) else s
  }

  function DequeueIfQueued(s: State, w: Work): State
    requires w in s.items
  {
    var it := s.items[w];
    if !it.canceling && it.queued && it.queue != null && it.queue in s.queues then Dequeue(s, w, it.queue) else s
  }

  function CancelAsync(s: State, w: Work): State
    requires w in s.items
  {
    MarkCanceling(DequeueIfQueued(s, w), w)
  }

  /** cancel_sync_locked */
  ghost function AwaitCancel(s: State, w: Work, c: Canceller): State
    requires w in s.items
  {
    var it := s.items[w];
    if !it.canceling then s else
    var t := if it.queue == null || it.queue !in s.queues || s.queues[it.queue].begun == [] then 0
             else s.queues[it.queue].begun[|s.queues[it.queue].begun| - 1];
    s.(cancels := s.cancels + [c], cancellers := s.cancellers[c := Cancel(w, 0, it.queue, t)])
  }

  ghost function CancelSync(s: State, w: Work, c: Canceller): State
    requires w in s.items
  {
    if Busy(s.items[w]) != 0 then AwaitCancel(CancelAsync(s, w), w, c) else s
  }

  function CancelDelayable(s: State, w: Work): State
    requires w in s.items
  {
    CancelAsync(Unschedule(s, w), w)
  }

  ghost function CancelDelayableSync(s: State, w: Work, c: Canceller): State
    requires w in s.items
  {
    if Busy(s.items[w]) != 0 then AwaitCancel(CancelDelayable(s, w), w, c) else s
  }

  // ---- the queue thread ----

  function Begin(qu: Queue, t: nat): Queue
    requires qu.pending != []
  {
    var w := qu.pending[0];
    qu.(pending := qu.pending[1..], busy := true, worker := Running(w),
        begun := qu.begun + if w.kind == Flusher then [] else [t])
  }

  ghost function TakeHead(s: State, q: WorkQ): State
    requires q in s.queues && s.queues[q].pending != [] && s.queues[q].pending[0] in s.items
  {
    var w := s.queues[q].pending[0];
    s.(items := s.items[w := s.items[w].(running := true, queued := false)],
       queues := s.queues[q := Begin(s.queues[q], s.items[w].token)])
  }

  /** What the queue thread does when it finds nothing pending. */
  function TakeNothing(qu: Queue): Queue {
    if qu.drain then qu.(drain := false, drainSem := Give(qu.drainSem), worker := Blocked)
    else if qu.stop then
      qu.(started := false, busy := false, drain := false, plugged := false, stop := false, worker := Absent)
    else qu.(worker := Blocked)
  }

  /** First locked section of work_queue_main. */
  ghost function Take(s: State, q: WorkQ): State
    requires q in s.queues
  {
    var qu := s.queues[q];
    if qu.pending == [] then s.(queues := s.queues[q := TakeNothing(qu)])
    else if qu.pending[0] in s.items then TakeHead(s, q) else s
  }

  predicate Names(s: State, c: Canceller, w: Work) {
    c in s.cancellers && s.cancellers[c].work == w
  }

  /** Position of the first canceller of `w`, or the length of the list. */
  function FirstWait(s: State, cs: seq<Canceller>, w: Work): (i: nat)
    ensures i <= |cs|
    ensures i < |cs| ==> Names(s, cs[i], w)
    ensures forall j :: 0 <= j < i ==> !Names(s, cs[j], w)
  {
    if cs == [] || Names(s, cs[0], w) then 0 else
    var r := FirstWait(s, cs[1..], w);
    assert forall j :: 0 < j < r + 1 ==> cs[j] == cs[1..][j - 1];
    r + 1
  }

  /** finalize_cancel_locked, the pending_cancels part */
  function ReleaseCanceller(s: State, w: Work): State {
    var i := FirstWait(s, s.cancels, w);
    if i == |s.cancels| then s else
    var c := s.cancels[i];
    s.(cancels := s.cancels[..i] + s.cancels[i + 1..],
       cancellers := s.cancellers[c := s.cancellers[c].(sem := Give(s.cancellers[c].sem))])
  }

  /** Second locked section of work_queue_main, the item part */
  function FinishItem(it: Item): Item {
    if it.flushing then it.(running := false, flushing := false, sem := Give(it.sem))
    else it.(running := false, canceling := false)
  }

  function Finish(s: State, q: WorkQ): State
    requires q in s.queues && s.queues[q].worker.Running? && s.queues[q].worker.work in s.items
  {
    var qu := s.queues[q];
    var w := qu.worker.work;
    var it := s.items[w];
    var u := s.(items := s.items[w := FinishItem(it)],
                queues := s.queues[q := qu.(busy := false, worker := Ready)]);
    if !it.flushing && it.canceling then ReleaseCanceller(u, w) else u
  }

  function Wake(s: State, q: WorkQ): State
    requires q in s.queues && s.queues[q].notify >= 1
  {
    var qu := s.queues[q];
    s.(queues := s.queues[q := qu.(notify := qu.notify - 1, worker := Ready)])
  }

  // ---- queue control ----

  function Started(qu: Queue): Queue {
    qu.(started := true, busy := false, drain := false, plugged := false, stop := false,
        pending := [], notify := 0, drainSem := 0, worker := Ready)
  }

  function Start(s: State, q: WorkQ): State
    requires q in s.queues
  {
    s.(queues := s.queues[q := Started(s.queues[q])])
  }

  predicate MustDrain(qu: Queue, plug: bool) {
    qu.busy || qu.drain || plug || qu.pending != []
  }

  function Drain(s: State, q: WorkQ, plug: bool): State
    requires q in s.queues
  {
    var qu := s.queues[q];
    if MustDrain(qu, plug) then
      s.(queues := s.queues[q := qu.(drain := true, plugged := qu.plugged || plug, notify := Give(qu.notify))])
    else s
  }

  function Unplug(s: State, q: WorkQ): State
    requires q in s.queues
  {
    s.(queues := s.queues[q := s.queues[q].(plugged := false)])
  }

  function StopCode(qu: Queue): int {
    if !qu.started then -EALREADY else if !qu.plugged then -EBUSY else 0
  }

  function Stop(s: State, q: WorkQ): State
    requires q in s.queues
  {
    var qu := s.queues[q];
    if StopCode(qu) == 0 then s.(queues := s.queues[q := qu.(stop := true, notify := Give(qu.notify))]) else s
  }

  function StopTimeout(s: State, q: WorkQ): State
    requires q in s.queues
  {
    s.(queues := s.queues[q := s.queues[q].(stop := false)])
  }

  // ---- waiters ----

  function TakeFlushSem(s: State, f: Work): State
    requires f in s.items && s.items[f].sem >= 1
  {
    s.(items := s.items[f := s.items[f].(sem := s.items[f].sem - 1)])
  }

  function TakeCancelSem(s: State, c: Canceller): State
    requires c in s.cancellers && s.cancellers[c].sem >= 1
  {
    s.(cancellers := s.cancellers[c := s.cancellers[c].(sem := s.cancellers[c].sem - 1)])
  }

  function TakeDrainSem(s: State, q: WorkQ): State
    requires q in s.queues && s.queues[q].drainSem >= 1
  {
    s.(queues := s.queues[q := s.queues[q].(drainSem := s.queues[q].drainSem - 1)])
  }

  // ---- the transition system ----

  datatype Event =
    | ESubmit(work: Work, queue: WorkQ?, caller: WorkQ?)
    | ESchedule(work: Work, to: WorkQ, noWait: bool, caller: WorkQ?)
    | EReschedule(work: Work, to: WorkQ, noWait: bool, caller: WorkQ?)
    | ETimeout(work: Work)
    | EFlush(work: Work, flusher: Work)
    | EFlushDelayable(work: Work, flusher: Work, stopped: bool, caller: WorkQ?)
    | ECancel(work: Work)
    | ECancelSync(work: Work, canceller: Canceller)
    | ECancelDelayable(work: Work)
    | ECancelDelayableSync(work: Work, canceller: Canceller)
    | ETake(on: WorkQ)
    | EFinish(on: WorkQ)
    | EWake(on: WorkQ)
    | EStart(on: WorkQ)
    | EDrain(on: WorkQ, plug: bool)
    | EUnplug(on: WorkQ)
    | EStop(on: WorkQ)
    | EStopTimeout(on: WorkQ)
    | ETakeFlushSem(flusher: Work)
    | ETakeCancelSem(canceller: Canceller)
    | ETakeDrainSem(on: WorkQ)

  /** A flusher or canceller may be handed in again only after it was given back:
      both live in the caller's bt_work_sync. */
  ghost predicate FreeFlusher(s: State, f: Work) {
    f in s.items && f.kind == Flusher && !s.items[f].flushing
  }

  ghost predicate FreeCanceller(s: State, c: Canceller) {
    c in s.cancellers && c !in s.cancels
  }

  ghost predicate Client(s: State, w: Work) { w in s.items && w.kind != Flusher }

  ghost predicate Known(s: State, q: WorkQ?) { q != null ==> q in s.queues }

  /** A queue thread calls the API only from the handler of a client item. */
  ghost predicate Calls(s: State, caller: WorkQ?) {
    caller != null ==>
      caller in s.queues && s.queues[caller].worker.Running? && s.queues[caller].worker.work.kind != Flusher
  }

  /** What the caller, the timer or the scheduler must respect. */
  ghost predicate Enabled(s: State, e: Event) {
    match e
    case ESubmit(w, q, caller) => Client(s, w) && Known(s, q) && Calls(s, caller)
    case ESchedule(w, q, _, caller) => Client(s, w) && w.kind == Delayable && q in s.queues && Calls(s, caller)
    case EReschedule(w, q, _, caller) => Client(s, w) && w.kind == Delayable && q in s.queues && Calls(s, caller)
    case ETimeout(w) => Client(s, w) && w.kind == Delayable
    case EFlush(w, f) => Client(s, w) && w.kind == Plain && FreeFlusher(s, f)
    case EFlushDelayable(w, f, _, caller) =>
      Client(s, w) && w.kind == Delayable && FreeFlusher(s, f) && Calls(s, caller)
    case ECancel(w) => Client(s, w) && w.kind == Plain
    case ECancelSync(w, c) => Client(s, w) && w.kind == Plain && FreeCanceller(s, c)
    case ECancelDelayable(w) => Client(s, w) && w.kind == Delayable
    case ECancelDelayableSync(w, c) => Client(s, w) && w.kind == Delayable && FreeCanceller(s, c)
    case ETake(q) => q in s.queues && s.queues[q].worker == Ready
    case EFinish(q) => q in s.queues && s.queues[q].worker.Running? && s.queues[q].worker.work in s.items
    case EWake(q) => q in s.queues && s.queues[q].worker == Blocked && s.queues[q].notify >= 1
    case EStart(q) => q in s.queues && !s.queues[q].started
    case EDrain(q, _) => q in s.queues
    case EUnplug(q) => q in s.queues
    case EStop(q) => q in s.queues
    case EStopTimeout(q) => q in s.queues
    case ETakeFlushSem(f) => f in s.items && f.kind == Flusher && s.items[f].sem >= 1
    case ETakeCancelSem(c) => c in s.cancellers && s.cancellers[c].sem >= 1
    case ETakeDrainSem(q) => q in s.queues && s.queues[q].drainSem >= 1
  }

  ghost function Step(s: State, e: Event): State
    requires Enabled(s, e)
  {
    match e
    case ESubmit(w, q, caller) => Submit(s, w, q, caller)
    case ESchedule(w, q, noWait, caller) => Schedule(s, w, q, noWait, caller)
    case EReschedule(w, q, noWait, caller) => Reschedule(s, w, q, noWait, caller)
    case ETimeout(w) => Timeout(s, w)
    case EFlush(w, f) => Flush(s, w, f)
    case EFlushDelayable(w, f, stopped, caller) => FlushDelayable(s, w, f, stopped, caller)
    case ECancel(w) => CancelAsync(s, w)
    case ECancelSync(w, c) => CancelSync(s, w, c)
    case ECancelDelayable(w) => CancelDelayable(s, w)
    case ECancelDelayableSync(w, c) => CancelDelayableSync(s, w, c)
    case ETake(q) => Take(s, q)
    case EFinish(q) => Finish(s, q)
    case EWake(q) => Wake(s, q)
    case EStart(q) => Start(s, q)
    case EDrain(q, plug) => Drain(s, q, plug)
    case EUnplug(q) => Unplug(s, q)
    case EStop(q) => Stop(s, q)
    case EStopTimeout(q) => StopTimeout(s, q)
    case ETakeFlushSem(f) => TakeFlushSem(s, f)
    case ETakeCancelSem(c) => TakeCancelSem(s, c)
    case ETakeDrainSem(q) => TakeDrainSem(s, q)
  }

  /** A run: every event is allowed in the state it meets. */
  ghost predicate Runs(s: State, es: seq<Event>)
    decreases |es|
  {
    es != [] ==> Enabled(s, es[0]) && Runs(Step(s, es[0]), es[1..])
  }

  ghost function Exec(s: State, es: seq<Event>): State
    requires Runs(s, es)
    decreases |es|
  {
    if es == [] then s else Exec(Step(s, es[0]), es[1..])
  }

  /** Nothing submitted, no queue started. */
  ghost predicate Initial(s: State) {
    && (forall w :: w in s.items ==> s.items[w] == IdleItem)
    && (forall q :: q in s.queues ==> s.queues[q] == NewQueue)
    && (forall c :: c in s.cancellers ==> s.cancellers[c] == IdleCanceller)
    && s.cancels == []
  }
}
