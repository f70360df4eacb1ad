/** The data of base/bt_work.c: the structures as classes, and the value of the
    whole module (every structure it knows, plus histories) as a datatype.

    The histories (`accepted`, `cancelled`, `begun`, `token`, `targets`) record
    what happened; no step reads them to decide anything.  A submission accepted
    by a queue is identified by its token, its index in that queue's `accepted`. */
module WorkState {

  /** What the memory of a work item is part of. */
  datatype Kind = Plain | Delayable | Flusher

  /** struct bt_work, together with the fields of the structure around it:
      `delayQueue` of struct bt_work_delayable, `sem` of struct bt_work_flusher. */
  class Work {
    const kind: Kind
    var running: bool
    var canceling: bool
    var queued: bool
    var delayed: bool
    var flushing: bool
    var queue: WorkQ?
    var delayQueue: WorkQ?
    var sem: nat
    /** token of the latest accepted submission */
    ghost var token: nat
    /** for a flusher: the queue it was put on and the tokens it waits for */
    ghost var home: WorkQ?
    ghost var targets: set<nat>

    constructor (kind: Kind)
      ensures this.kind == kind
      ensures !running && !canceling && !queued && !delayed && !flushing
      ensures queue == null && delayQueue == null && sem == 0
      ensures token == 0 && home == null && targets == {}
    {
      this.kind := kind;
      running, canceling, queued, delayed, flushing := false, false, false, false, false;
      queue, delayQueue, sem := null, null, 0;
      token, home, targets := 0, null, {};
    }
  }

  /** Where the thread of a queue is, between two locked sections. */
  datatype Worker =
    | Absent              // not started, or returned
    | Ready               // about to take the lock at the top of its loop
    | Blocked             // in os_sem_take on notifyq
    | Running(work: Work) // calling the handler of `work`

  /** struct bt_work_q */
  class WorkQ {
    var started: bool
    var busy: bool
    var drain: bool
    var plugged: bool
    var stop: bool
    var pending: seq<Work>
    var notify: nat
    var drainSem: nat
    var worker: Worker
    ghost var accepted: seq<Work>
    ghost var cancelled: set<nat>
    ghost var begun: seq<nat>

    constructor ()
      ensures !started && !busy && !drain && !plugged && !stop
      ensures pending == [] && notify == 0 && drainSem == 0 && worker == Absent
      ensures accepted == [] && cancelled == {} && begun == []
    {
      started, busy, drain, plugged, stop := false, false, false, false, false;
      pending, notify, drainSem, worker := [], 0, 0, Absent;
      accepted, cancelled, begun := [], {}, [];
    }
  }

  /** struct bt_work_canceller */
  class Canceller {
    var work: Work?
    var sem: nat
    /** the submission whose handler is waited for */
    ghost var on: WorkQ?
    ghost var token: nat

    constructor ()
      ensures work == null && sem == 0 && on == null && token == 0
    {
      work, sem := null, 0;
      on, token := null, 0;
    }
  }

  datatype Item = Item(
    running: bool, canceling: bool, queued: bool, delayed: bool, flushing: bool,
    queue: WorkQ?, delayQueue: WorkQ?, sem: nat,
    token: nat, home: WorkQ?, targets: set<nat>)

  datatype Queue = Queue(
    started: bool, busy: bool, drain: bool, plugged: bool, stop: bool,
    pending: seq<Work>, notify: nat, drainSem: nat, worker: Worker,
    accepted: seq<Work>, cancelled: set<nat>, begun: seq<nat>)

  datatype Cancel = Cancel(work: Work?, sem: nat, on: WorkQ?, token: nat)

  /** Everything the module lock protects. `cancels` is the list pending_cancels. */
  datatype State = State(
    items: map<Work, Item>,
    queues: map<WorkQ, Queue>,
    cancellers: map<Canceller, Cancel>,
    cancels: seq<Canceller>)

  const IdleItem := Item(false, false, false, false, false, null, null, 0, 0, null, {})
  const NewQueue := Queue(false, false, false, false, false, [], 0, 0, Absent, [], {}, [])
  const IdleCanceller := Cancel(null, 0, null, 0)

  // ---- the singly linked list operations the module uses ----

  /** First position of `w`. */
  function IndexOf<T(==)>(p: seq<T>, w: T): (i: nat)
    requires w in p
    ensures i < |p| && p[i] == w && w !in p[..i]
  {
    if p[0] == w then 0 else
    var r := IndexOf(p[1..], w);
    assert p[..r + 1] == [p[0]] + p[1..][..r];
    r + 1
  }

  /** bt_slist_find_and_remove */
  function Remove<T(==)>(p: seq<T>, w: T): seq<T> {
    if w in p then var i := IndexOf(p, w); p[..i] + p[i + 1..] else p
  }

  /** bt_slist_insert after node `w` */
  function InsertAfter<T(==)>(p: seq<T>, w: T, f: T): seq<T>
    requires w in p
  {
    var i := IndexOf(p, w); p[..i + 1] + [f] + p[i + 1..]
  }

  /** os_sem_give on a semaphore of limit one */
  function Give(n: nat): nat { if n >= 1 then n else n + 1 }
}
