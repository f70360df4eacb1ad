/** What every step of the work module keeps. */
module WorkInv {
  import opened WorkState
  import opened WorkSpec

  /** Tokens of the client items in a pending list, in order. */
  ghost function Tokens(items: map<Work, Item>, p: seq<Work>): seq<nat> {
    if p == [] then [] else
    (if p[0].kind == Flusher || p[0] !in items then [] else [items[p[0]].token]) + Tokens(items, p[1..])
  }

  /** The tokens below `n` that were not cancelled, ascending. */
  ghost function Kept(n: nat, cancelled: set<nat>): seq<nat> {
    if n == 0 then [] else Kept(n - 1, cancelled) + if n - 1 in cancelled then [] else [n - 1]
  }

  ghost predicate NoDup<T>(p: seq<T>) {
    forall i, j :: 0 <= i < j < |p| ==> p[i] != p[j]
  }

  // ---- items and queues agree ----

  ghost predicate ItemInv(s: State, w: Work)
    requires w in s.items
  {
    var it := s.items[w];
    && Known(s, it.queue) && Known(s, it.delayQueue) && Known(s, it.home)
    && (w.kind != Flusher ==>
          && !it.flushing && it.home == null && it.targets == {}
          && (it.delayed ==> w.kind == Delayable && it.delayQueue != null)
          && (it.canceling ==> it.running && !it.queued)
          && (it.queued ==> it.queue != null && w in s.queues[it.queue].pending)
          && (it.running ==> it.queue != null && s.queues[it.queue].worker == Running(w)))
    && (w.kind == Flusher ==>
          && !it.queued && !it.canceling && !it.delayed && it.sem <= 1
          && (it.flushing ==>
                && it.home != null && it.sem == 0
                && (w in s.queues[it.home].pending || s.queues[it.home].worker == Running(w)))
          && (it.running ==> it.flushing && s.queues[it.home].worker == Running(w)))
  }

  /** `w` sits in the pending list of `q`. */
  ghost predicate WaitsOn(s: State, q: WorkQ, w: Work)
    requires q in s.queues
  {
    && w in s.items
    && var it := s.items[w];
       if w.kind == Flusher then it.flushing && !it.running && it.home == q
       else it.queued && it.queue == q && it.token < |s.queues[q].accepted| && s.queues[q].accepted[it.token] == w
  }

  /** The thread of `q` is in the handler of `w`. */
  ghost predicate RunsOn(s: State, q: WorkQ, w: Work)
    requires q in s.queues
  {
    && w in s.items
    && var it, qu := s.items[w], s.queues[q];
       && it.running
       && if w.kind == Flusher then it.flushing && it.home == q
          else it.queue == q && qu.begun != []
               && qu.begun[|qu.begun| - 1] < |qu.accepted| && qu.accepted[qu.begun[|qu.begun| - 1]] == w
  }

  ghost predicate QueueInv(s: State, q: WorkQ)
    requires q in s.queues
  {
    var qu := s.queues[q];
    && NoDup(qu.pending)
    && (forall i :: 0 <= i < |qu.pending| ==> WaitsOn(s, q, qu.pending[i]))
    && (qu.worker.Running? ==> RunsOn(s, q, qu.worker.work))
    && (qu.busy <==> qu.worker.Running?)
    && (qu.started <==> qu.worker != Absent)
    && (!qu.started ==> qu.pending == [])
    && qu.notify <= 1 && qu.drainSem <= 1
    && (qu.started && qu.plugged && !qu.drain ==> qu.pending == [] && !qu.worker.Running?)
    && (qu.worker == Blocked && qu.notify == 0 ==> qu.pending == [] && !qu.drain)
  }

  ghost predicate CancelListInv(s: State) {
    && NoDup(s.cancels)
    && (forall i :: 0 <= i < |s.cancels| ==> s.cancels[i] in s.cancellers)
    && (forall c :: c in s.cancellers ==>
          && Known(s, s.cancellers[c].on)
          && s.cancellers[c].sem <= 1
          && (c in s.cancels ==>
                s.cancellers[c].sem == 0 && s.cancellers[c].on != null
                && s.cancellers[c].work != null && Client(s, s.cancellers[c].work)))
  }

  ghost predicate Linked(s: State) {
    && (forall w :: w in s.items ==> ItemInv(s, w))
    && (forall q :: q in s.queues ==> QueueInv(s, q))
    && CancelListInv(s)
  }

  // ---- accounting ----

  /** Every accepted submission that no cancel removed has begun or is waiting,
      once, in the order of acceptance. */
  ghost predicate Accounted(s: State, q: WorkQ)
    requires q in s.queues
  {
    var qu := s.queues[q];
    && (forall t :: t in qu.cancelled ==> t < |qu.accepted|)
    && qu.begun + Tokens(s.items, qu.pending) == Kept(|qu.accepted|, qu.cancelled)
  }

  // ---- barriers ----

  /** No client item in `p` waits with token `t`. */
  ghost predicate NotWaiting(items: map<Work, Item>, p: seq<Work>, t: nat) {
    forall i :: 0 <= i < |p| && p[i].kind != Flusher && p[i] in items ==> items[p[i]].token != t
  }

  /** No client item in `p` behind `f` waits with token `t`. */
  ghost predicate NotBehind(items: map<Work, Item>, p: seq<Work>, f: Work, t: nat) {
    forall i, j :: 0 <= i < j < |p| && p[i] == f && p[j].kind != Flusher && p[j] in items ==> items[p[j]].token != t
  }

  /** A target of a flusher never waits behind the flusher; once the flusher is
      released no target waits or runs at all. */
  ghost predicate FlushInv(s: State, f: Work)
    requires f in s.items
  {
    var it := s.items[f];
    it.home != null && it.home in s.queues ==>
      var qu := s.queues[it.home];
      forall t :: t in it.targets ==>
        && t < |qu.accepted|
        && (if it.flushing && !it.running then NotBehind(s.items, qu.pending, f, t) else NotWaiting(s.items, qu.pending, t))
        && (!it.flushing ==> !RunsToken(qu, t))
  }

  /** The submission a canceller waits for does not wait in a list, and runs
      only while the canceller is on the list. */
  ghost predicate CancelInv(s: State, c: Canceller)
    requires c in s.cancellers
  {
    var k := s.cancellers[c];
    k.on != null && k.on in s.queues ==>
      var qu := s.queues[k.on];
      && k.token < |qu.accepted|
      && NotWaiting(s.items, qu.pending, k.token)
      && (RunsToken(qu, k.token) ==> c in s.cancels && qu.worker.work == k.work)
  }

  ghost predicate Inv(s: State) {
    && Linked(s)
    && (forall q :: q in s.queues ==> Accounted(s, q))
    && (forall f :: f in s.items && f.kind == Flusher ==> FlushInv(s, f))
    && (forall c :: c in s.cancellers ==> CancelInv(s, c))
  }
}
