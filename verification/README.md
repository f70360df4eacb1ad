# Bluetooth host stack: a verified model

This project models the parts of the Bluetooth host stack whose correctness is hard to
see from any one function, and proves what they promise:

- **The work queue** (`Work*.dfy`). One atomic step per locked section of
  `base/bt_work.c`; a handler runs between the two locked sections of a queue thread.
  Callers, timers and threads interleave freely over any number of queues and items.
  Each accepted submission has a ghost token, so that the barriers (flush, synchronous
  cancel, drain) can be stated about submissions and not about items. `WorkQueue.dfy`
  is the module itself, over heap objects with flag fields, lists and semaphores.
- **The ASCS server** (`Ascs*.dfy`). The endpoint state machine with its parked
  transitions, the pool of channels shared by two endpoints each, link and channel loss,
  and the disconnect work, as a state machine over events; `AscsServer.dfy` is the
  code over the two pools as arrays. `AscsControl*.dfy` is the ASE Control Point: what a
  write holds, and what is answered. `Iso*.dfy` is the pool of channels with all who use
  it, streams and the client's endpoints included, and the calls the server makes on it.
- **Buffers** (`Buf*.dfy`). The fixed-size pool with its lazily used part and free list,
  reference counts that cascade along a chain, and chains as one string of bytes.
- **H4 framing** (`H4*.dfy`). Packets reassembled from arbitrary reads, in the serial and
  the user channel driver.
- **Codecs** (`Base*.dfy`, `RecvState*.dfy`, `SimpleBuf.dfy`). The Broadcast Audio Source
  Endpoint structure and the Broadcast Receive State, written and read over the cursor of
  `base/bt_buf_simple.c`.
- **CRC-32** (`Crc32.dfy`). The sixteen-entry table against the polynomial, bit by bit.

A component is in three layers. A `...Spec` module says what each step does to a value that
stands for the whole state. Lemmas prove an invariant of every step and, from it, the
properties over all runs; `...EffectTheorems`, `AscsAnswerTheorems` and `BaseLayout` settle
what the steps compute without naming the functions that do, field by field and octet by
octet. A class with the fields of the source has a method for each of
its functions, proved to compute just those steps. `dafny verify dfyconfig.toml` checks
everything.

## What the proofs found

Where a promise fails of the code as it stands, the exact condition is proved and a
concrete case given:

- `STOP` can be lost: the branch that ends a drain goes to sleep without testing it
  (`StopLostInRun`, `StopCanBeLost`; never if drain and stop of a queue are kept apart,
  `StopNeverLost`).
- A second synchronous canceller of one item is never released, because the search stops
  at the first entry (`StaleEntryExactly`, `TwoCancellersStrandOne`).
- A QoS write that changes the CIS and then fails leaves the endpoint QoS Configured
  without a channel, and the next event that goes there fails an assertion or follows a
  null pointer (`ChannelLostExactly`, `ChannelCanBeLost`, `FaultsExactly`,
  `LostChannelFaults`).
- Endpoints allocated but not yet configured outlive their link, and can become
  configured on it (`LinkKeptExactly`, `LinkCanBeKept`).
- A CIS that goes down while Streaming is still to be committed leaves the endpoint
  Streaming without it (`StrandedExactly`, `CanBeStranded`).
- An endpoint that is only configured still names CIS 0 of CIG 0, and hides an enabled
  endpoint of that CIS behind it from the request of the link (`RefusedExactly`,
  `CanBeRefused`).
- A request answered with success is lost if another is made before the work handler has
  run, a release for instance by the loss of the CIS or by a metadata update
  (`OverwrittenExactly`, `ReleaseCanBeLost`).
- A codec configuration longer than the server keeps gets no reply at all, although the
  service asks for one for each endpoint (`OneReplyEach`, `SilenceHappens`).
- Receiver Stop Ready is not held to the number of endpoints, and its response can run
  into the assertion of its buffer (`AscsControl.OverrunExactly`, `StopOverruns`).
- The reference count of a buffer is an octet that is raised unchecked; the 256th
  reference makes a held buffer count as free (`RefKeepsExactly`, `CountCanWrap`).
- The encoder of the broadcast announcement checks the room for every part but the seven
  octets a further subgroup begins with (`BaseSource.OverrunExactly`, `OverrunHappens`).

Where code and comments disagree the model follows the code: encoding a broadcast
announcement asks for 16 free octets, not the 13 of the comment
(bluetooth/audio/bap_broadcast_source.c:415-418); walking over subgroups passes over the
last one too when there are several (bluetooth/audio/bap_base.c:336-337); Receiver Start
Ready is taken in Enabling, not in QoS Configured (bluetooth/audio/ascs.c:2473-2474).

Where an event carries `ok`, it stands for all checks and application
answers that the model does not look into; every theorem holds whatever they are.

## Model

| member | source | states |
|---|---|---|
| WorkSteps.StepKeeps | base/bt_work.c:186-230 | every event of every caller, timer and queue thread keeps the joint invariant of all items, queues, waiters and the cancel list |
| WorkSteps.RunKeeps | base/bt_work.c:379-482 | so does every interleaving of any length over any number of queues and items |
| WorkTheorems.NonReentrancy | base/bt_work.c:186-230 | an item being run is run by one queue thread only, is marked RUNNING, has that queue in `queue`, and can be pending on that queue only; a flusher being run is pending nowhere |
| WorkTheorems.QueuedIsPending | base/bt_work.c:178-229 | QUEUED holds exactly of the items that are in the list of the queue their `queue` names, there once, and in no other list |
| WorkTheorems.AcceptedExactlyOnce | base/bt_work.c:393-401 | each accepted submission has begun, or waits, or was dequeued by a cancel: exactly one of the three, once |
| WorkTheorems.FirstComeFirstServed | base/bt_work.c:385-415 | handlers of a queue start in order of acceptance, and the one started next is the oldest submission not cancelled and not begun |
| WorkTheorems.OldestFirst | base/bt_work.c:393-401 | the head of a list is the oldest submission outstanding on that queue |
| WorkTheorems.GoneIsRetired | base/bt_work.c:452-470 | a submission neither waiting nor running has finished its handler or was cancelled |
| WorkTheorems.RetiredIsGone | base/bt_work.c:452-470 | and one finished or cancelled neither waits nor runs |
| WorkTheorems.RetiredLasts | base/bt_work.c:379-482 | finished or cancelled is for good, over every continuation |
| WorkTheorems.OutstandingComplete | base/bt_work.c:211-229 | what is left of the submissions of an item is all on its own queue, wherever the item was submitted |
| WorkTheorems.FlusherDone | base/bt_work.c:71-78 | a flusher that was released has no target left |
| WorkTheorems.FlushIsBarrier | base/bt_work.c:285-304 | in every continuation, once a flusher is released (its semaphore can be taken only then) every submission of the item that was queued or running at the flush has finished or been cancelled, whatever else was flushed, cancelled and resubmitted |
| WorkTheorems.NoFlushNeeded | base/bt_work.c:269-283 | a flush that places no flusher had nothing to wait for |
| WorkCancelTheorems.CancelLeaves | base/bt_work.c:706-711 | after a cancel of any kind the item is neither queued nor delayed, whatever it was before, and is CANCELING exactly if it still runs |
| WorkCancelTheorems.CancelSyncIsBarrier | base/bt_work.c:350-373 | in every continuation in which its canceller is off the list (its semaphore can be taken only then; at once if it never got on) no submission accepted before the synchronous cancel waits or runs |
| WorkCancelTheorems.ReleasedWhenIdle | base/bt_work.c:80-98 | a canceller is released only by the end of the handler of its item, which is then not running, not CANCELING and in no list |
| WorkCancelTheorems.CancelingBlocks | base/bt_work.c:190-193 | while an item is CANCELING no queue accepts it, and only the end of its handler clears the mark |
| WorkCancelTheorems.FinishLeavesStale | base/bt_work.c:80-98 | the end of a handler leaves a canceller of an unmarked item behind exactly when two cancellers name the item |
| WorkCancelTheorems.StaleEntryExactly | base/bt_work.c:80-98 | over all runs, `pending_cancels` gets an entry nobody will release exactly at the end of a handler two cancellers wait for (the search stops at the first match) |
| WorkCancelTheorems.SoleCancellersLive | base/bt_work.c:80-98 | with at most one canceller per item at a time, every listed canceller of every reachable state names a CANCELING item |
| WorkCancelTheorems.SoleCancellersReleased | base/bt_work.c:464-469 | and the end of a handler leaves nobody waiting for its item |
| WorkCancelTheorems.TwoCancellersStrandOne | base/bt_work.c:80-98 | the run that shows the limit: two synchronous cancels of one running item, of which the second is never released |
| WorkQueueTheorems.PluggedIsQuiet | base/bt_work.c:160-181 | a STARTED queue that is PLUGGED and not DRAINing has nothing pending and runs nothing |
| WorkQueueTheorems.PluggedStaysQuiet | base/bt_work.c:160-181 | and it stays so over every run without unplug or restart of it, whatever is submitted, drained or stopped |
| WorkQueueTheorems.DrainEnds | base/bt_work.c:416-424 | only the queue thread ends a drain, when nothing is pending, and it then gives the drainer's semaphore |
| WorkQueueTheorems.DrainIsBarrier | base/bt_work.c:547-569 | in every continuation in which DRAIN is clear again, every submission accepted before the drain is finished or cancelled, whether or not the queue was started; and a plugging drain of a started queue leaves it quiet until it is unplugged or restarted |
| WorkQueueTheorems.NoDrainNeeded | base/bt_work.c:547-569 | a drain that does not wait found every submission finished or cancelled |
| WorkQueueTheorems.ExitsEmpty | base/bt_work.c:416-432 | the thread returns only when STOP is set and DRAIN is not, with an empty list and every accepted submission finished or cancelled |
| WorkQueueTheorems.NoLostWakeup | base/bt_work.c:142-151 | while anything is pending or DRAIN is set, the thread is at work or its wake-up is in the semaphore, which saturates at one |
| WorkQueueTheorems.StopLostExactly | base/bt_work.c:416-450 | STOP is not so kept: it is lost exactly by the step that ends a drain and sleeps without testing it while no wake-up is left |
| WorkQueueTheorems.StopCanBeLost | base/bt_work.c:416-450 | a six-step run that ends with STOP set, the thread asleep and no wake-up left |
| WorkQueueTheorems.StopLostInRun | base/bt_work.c:416-450 | over every run STOP is lost at some point exactly if some step of the run is that step |
| WorkQueueTheorems.StopNeverLost | base/bt_work.c:547-614 | over every run whose callers never stop a queue that drains and never drain one that is to stop, STOP is never lost |
| WorkEffectTheorems.SubmitEffect | base/bt_work.c:186-230 | in every reachable state a submission puts the item at the end of the queue it belongs on (the one that runs it, else the one asked for, else its last) with a wake-up given, exactly if the item is neither CANCELING nor QUEUED and that queue is started, drains only for its own thread and is plugged only while it drains; else nothing changes |
| WorkEffectTheorems.TimeoutEffect | base/bt_work.c:616-636 | the timer of a delayed item clears DELAYED and the item is accepted by its delay queue, or the queue that runs it, under just these conditions and from no queue thread; a timer that comes late does nothing |
| WorkEffectTheorems.ScheduleEffect | base/bt_work.c:713-731 | a schedule leaves a canceling, queued or delayed item alone; else without delay it submits under these conditions, and with one sets DELAYED for the queue asked for and nothing more |
| WorkEffectTheorems.RescheduleEffect | base/bt_work.c:740-758 | a reschedule does so whatever the item is at, its old schedule undone |
| WorkEffectTheorems.SubmitAnswers | base/bt_work.c:153-230 | 2, 1, 0, -EINVAL, -ENODEV and -EBUSY are each answered in exactly which states |
| WorkEffectTheorems.ScheduleAnswers | base/bt_work.c:670-687 | a schedule that may act answers for the submission it makes, or 1 for a delay |
| WorkEffectTheorems.FlushEffect | base/bt_work.c:285-304 | the flusher of a queued item stands directly behind it, that of a running one in front of everything, fresh and FLUSHING, with a wake-up given; with neither nothing changes |
| WorkEffectTheorems.FlushDelayableEffect | base/bt_work.c:804-840 | a delayed item whose timer is stopped in time and whose queue takes it joins the end of that queue with the flusher right behind it; else the delay is dropped and what is queued or running is flushed |
| WorkEffectTheorems.FlushAnswers | base/bt_work.c:269-283 | the caller has to wait exactly if a flusher was placed, which is if the item is queued, running, or submitted by the flush |
| WorkEffectTheorems.CancelEffect | base/bt_work.c:306-348 | a cancel takes the item out of its list once, the others in order, clears QUEUED and DELAYED, marks it CANCELING exactly if it runs, and answers RUNNING with CANCELING then and 0 otherwise |
| WorkEffectTheorems.CancelSyncEffect | base/bt_work.c:350-373 | the synchronous ones do the same, and the canceller joins the end of the list, for the submission being run, exactly if the item runs |
| WorkEffectTheorems.TakeEffect | base/bt_work.c:385-450 | the thread takes the head of the list, or ends a drain, or returns with all flags clear, or sleeps: each exactly when, and what it writes |
| WorkEffectTheorems.FinishEffect | base/bt_work.c:452-475 | after a handler the item neither runs nor is CANCELING, a flusher gives its semaphore, and the first canceller listed for a CANCELING item is taken off the list and given its own |
| WorkEffectTheorems.ControlEffect | base/bt_work.c:484-614 | start, unplug, the end of a stop that timed out and the wake-up of the thread write these flags and semaphores of their queue and nothing else |
| WorkEffectTheorems.DrainEffect | base/bt_work.c:547-569 | a drain sets DRAIN, and PLUGGED if asked to, and wakes the thread, exactly if a handler runs, anything is pending, the queue drains already or is to be plugged; else nothing changes |
| WorkEffectTheorems.StopEffect | base/bt_work.c:590-604 | a stop sets STOP and wakes the thread exactly if the queue is started and plugged |
| WorkEffectTheorems.WaiterEffect | base/bt_work.c:300-303 | a waiter that goes on takes its semaphore, which was given once, and nothing else |
| WorkEffectTheorems.ControlAnswers | base/bt_work.c:547-604 | what stop answers and when drain waits |
| WorkEffectTheorems.BusyBits | base/bt_work.h:20-28 | each flag is its bit of what bt_work_busy_get answers |
| WorkQueue.WorkModule.constructor | base/bt_work.c:46-62 | over fresh structures the module is in an initial state and meets the invariant |
| WorkQueue.WorkModule.BusyGet | base/bt_work.c:108-121 | the flags that make an item busy |
| WorkQueue.WorkModule.QueueSubmitLocked | base/bt_work.c:153-184 | the code, and the item at the end of the list with one wake-up given, or nothing changed |
| WorkQueue.WorkModule.SubmitToQueueLocked | base/bt_work.c:186-230 | the code for every combination of flags, and the item queued on the chosen queue or nothing changed |
| WorkQueue.WorkModule.SubmitLocked | base/bt_work.c:186-230 | computes the submission step of the state machine and its code |
| WorkQueue.WorkModule.Submit | base/bt_work.c:232-267 | the same as a public call, keeping the invariant |
| WorkQueue.WorkModule.UnscheduleLocked | base/bt_work.c:689-704 | clears DELAYED; true exactly when it was set and the timer was stopped in time |
| WorkQueue.WorkModule.ScheduleForQueueLocked | base/bt_work.c:670-687 | submits at once or sets DELAYED; the code |
| WorkQueue.WorkModule.Schedule | base/bt_work.c:713-731 | the step and its code; a busy item is left alone |
| WorkQueue.WorkModule.Reschedule | base/bt_work.c:740-758 | the step and its code, the old schedule undone first |
| WorkQueue.WorkModule.Timeout | base/bt_work.c:616-636 | the step a timer takes, whose effect is `TimeoutEffect`, keeping the invariant |
| WorkQueue.WorkModule.InitFlusher | base/bt_work.c:53-59 | a flusher marked FLUSHING with an empty semaphore and its targets recorded |
| WorkQueue.WorkModule.QueueFlusherLocked | base/bt_work.c:123-133 | the flusher directly behind its item, or at the front for one running |
| WorkQueue.WorkModule.WorkFlushLocked | base/bt_work.c:269-283 | computes the flush step; true exactly when the caller must wait |
| WorkQueue.WorkModule.QueueAndNotify | base/bt_work.c:269-283 | the flusher placed and the thread woken |
| WorkQueue.WorkModule.Flush | base/bt_work.c:285-304 | the flush step up to the wait, keeping the invariant |
| WorkQueue.WorkModule.FlushDelayableLocked | base/bt_work.c:804-840 | a delayed item is submitted first, then flushed; whether to wait |
| WorkQueue.WorkModule.FlushDelayable | base/bt_work.c:804-840 | the same as a public call, keeping the invariant |
| WorkQueue.WorkModule.QueueRemoveLocked | base/bt_work.c:135-140 | the item out of its list, its submission recorded as cancelled |
| WorkQueue.WorkModule.CancelAsyncLocked | base/bt_work.c:306-325 | dequeues, marks a busy item CANCELING, and returns what still keeps it busy |
| WorkQueue.WorkModule.CancelLocked | base/bt_work.c:306-325 | computes the cancel step of the state machine |
| WorkQueue.WorkModule.CancelSyncLocked | base/bt_work.c:327-336 | puts the canceller on the list exactly if the item is CANCELING |
| WorkQueue.WorkModule.Cancel | base/bt_work.c:338-348 | the cancel step, keeping the invariant |
| WorkQueue.WorkModule.CancelSync | base/bt_work.c:350-373 | the synchronous cancel up to the wait; whether it was pending and whether to wait |
| WorkQueue.WorkModule.CancelSyncBegin | base/bt_work.c:357-366 | its locked section |
| WorkQueue.WorkModule.CancelDelayableAsyncLocked | base/bt_work.c:706-711 | the schedule undone, then the item cancelled |
| WorkQueue.WorkModule.CancelDelayable | base/bt_work.c:768-778 | the same as a public call, keeping the invariant |
| WorkQueue.WorkModule.CancelDelayableSync | base/bt_work.c:780-802 | the same with a canceller, up to the wait |
| WorkQueue.WorkModule.CancelDelayableBegin | base/bt_work.c:786-795 | its locked section |
| WorkQueue.WorkModule.TakeWork | base/bt_work.c:385-450 | the first locked section of the thread: the item whose handler runs next, or sleep, or return |
| WorkQueue.WorkModule.TakeLocked | base/bt_work.c:385-450 | computes the take step |
| WorkQueue.WorkModule.BeginLocked | base/bt_work.c:393-415 | RUNNING for QUEUED, and the submission recorded as begun |
| WorkQueue.WorkModule.IdleLocked | base/bt_work.c:416-450 | an empty list: the end of a drain, the end of the thread, or sleep |
| WorkQueue.WorkModule.FinishWork | base/bt_work.c:452-470 | the second locked section: the handler has returned |
| WorkQueue.WorkModule.FinishLocked | base/bt_work.c:452-470 | computes the finish step |
| WorkQueue.WorkModule.ClearLocked | base/bt_work.c:452-470 | the flags of item and queue, the flusher's semaphore, and whether a cancel was waiting |
| WorkQueue.WorkModule.ReleaseLocked | base/bt_work.c:80-98 | the first canceller of the item off the list and its semaphore given |
| WorkQueue.WorkModule.Wake | base/bt_work.c:440-450 | the thread takes the wake-up and looks again |
| WorkQueue.WorkModule.Start | base/bt_work.c:515-545 | the start step, keeping the invariant |
| WorkQueue.WorkModule.Drain | base/bt_work.c:547-569 | the drain step; whether to wait |
| WorkQueue.WorkModule.Unplug | base/bt_work.c:571-585 | the unplug step and its code |
| WorkQueue.WorkModule.Stop | base/bt_work.c:587-614 | the stop step and its code |
| WorkQueue.WorkModule.StopTimeout | base/bt_work.c:606-611 | the step after a join that timed out |
| WorkSpec.FirstWait | base/bt_work.c:85-97 | the first entry of the cancel list that names the item |
| AscsSteps.StepKeeps | bluetooth/audio/ascs.c:504-702 | every write, link event, application call and work-handler run keeps the invariant of all endpoints and channels |
| AscsSteps.RunKeeps | bluetooth/audio/ascs.c:504-702 | so does every run |
| AscsTheorems.PendingIsLegal | bluetooth/audio/ascs.c:598-702 | whenever the transition work is queued or delayed (requests overwritten, reverted for want of memory and retried) the transition it will make is in the server's table and one the client accepts |
| AscsTheorems.NeverInvalid | bluetooth/audio/ascs.c:598-702 | over no run is the branch for invalid transitions reached: not by a write, nor by a local call, each of which the stream layer lets through in its states only, nor by a link event, nor by the work handler |
| AscsTheorems.EventEffect | bluetooth/audio/ascs.c:504-596 | which events change the state of an endpoint, and to what; none is rejected |
| AscsTheorems.ChangesAreAccepted | bluetooth/audio/bap_unicast_client.c:1292-1434 | every committed change of state of every endpoint is one the switch of the client takes |
| AscsTheorems.AclRoundsEffect | bluetooth/audio/ascs.c:1283-1307 | the loop on disconnection frees exactly the endpoints of the link that are not idle |
| AscsTheorems.LinkKeptExactly | bluetooth/audio/ascs.c:1283-1307 | after the link is gone an endpoint holds on to it exactly if it was idle |
| AscsTheorems.StartedStoppedAlternate | bluetooth/audio/ascs.c:298-502 | over all runs (link loss, release and disconnection included) the calls of started and stopped of an endpoint alternate, started first, stopped never without a reason, and started was last exactly while the endpoint is Streaming |
| AscsTheorems.DisablingIsSource | bluetooth/audio/ascs.c:1262-1281 | only source endpoints are ever Disabling, and every endpoint not idle has a stream and a link |
| AscsIsoTheorems.CountIsUsers | bluetooth/audio/ascs.c:1971-2000 | between events the server is left with no reference but those of its bound endpoints: the count of a channel is their number, so none is allocated while bound (with all users of the pool: `IsoPool.CountIsUsers`, which the server inherits by `IsoServer.ServerIsUser`) |
| AscsIsoTheorems.LinksAreMutual | bluetooth/audio/bap_iso.c:235-283 | endpoint and direction slot point at each other |
| AscsIsoTheorems.SharedByOpposites | bluetooth/audio/ascs.c:1319-1361 | two bound endpoints share a channel exactly when link, CIG and CIS are the same, and their directions are then opposite |
| AscsIsoTheorems.IdsAreDistinct | bluetooth/audio/ascs.c:1404-1426 | a link never holds one ASE ID twice |
| AscsIsoTheorems.UnbindIsSafe | bluetooth/audio/bap_iso.c:264-283 | what unbinding asserts of the slot and unreferencing of the count holds of every bound endpoint |
| AscsIsoTheorems.ChannelLostExactly | bluetooth/audio/ascs.c:1971-2000 | an endpoint that relies on a channel loses it exactly by a QoS write that unbinds it and then finds the pool exhausted or the direction taken |
| AscsIsoTheorems.RunHasChannels | bluetooth/audio/ascs.c:1908-2012 | over a run without such a write every endpoint that relies on a channel has one |
| AscsIsoTheorems.FaultsExactly | bluetooth/audio/ascs.c:231-285 | in every reachable state an event fails an assertion or follows a null channel exactly if it goes to the channel of an endpoint that relies on one and has none; for a start and a request of the link this is nearly their own guard, the weight is in the commits of the work handler and in the disconnect work, which test nothing |
| AscsIsoTheorems.NoFault | bluetooth/audio/ascs.c:231-285 | while no write has cost an endpoint its channel, no event does |
| AscsIsoTheorems.ChannelCanBeLost | bluetooth/audio/ascs.c:1971-2000 | an eight-event run after which an endpoint is QoS Configured without a channel |
| AscsIsoTheorems.LostChannelFaults | bluetooth/audio/ascs.c:823-860 | and the request of the link for its CIS, which then fails an assertion |
| AscsIsoTheorems.LinkCanBeKept | bluetooth/audio/ascs.c:1283-1307 | a run after which an endpoint is Codec Configured on a link that is gone |
| AscsChannelTheorems.StrandedExactly | bluetooth/audio/ascs.c:1034-1074 | an endpoint comes to stream on a channel that is down, with nothing queued to take it out of Streaming, exactly when Streaming is committed after the channel went down, or when a metadata update replaces the transition its loss had asked for |
| AscsChannelTheorems.CanBeStranded | bluetooth/audio/ascs.c:1034-1074 | an eleven-event run that does the first |
| AscsChannelTheorems.AbandonedExactly | bluetooth/audio/ascs.c:172-187 | a channel that is not down loses its last reference, or is taken again and cleared by a QoS write, exactly when all endpoints bound to it let go of it in one event |
| AscsServer.Server.constructor | bluetooth/audio/ascs.c:1387-1402 | an unused pool of endpoints and of channels, in an initial state |
| AscsServer.Server.CheckTransition | bluetooth/audio/ascs.c:605-676 | whether a transition is in the table, for direction and link loss |
| AscsServer.Server.SetState | bluetooth/audio/ascs.c:598-702 | parks a legal request and queues the work, or counts a rejection; the code |
| AscsServer.Server.IsoNew | bluetooth/audio/bap_iso.c:31-49 | the first channel with count zero, taken with count one |
| AscsServer.Server.IsoFind | bluetooth/audio/bap_iso.c:84-133 | the first channel in use that carries the CIS, with one more reference |
| AscsServer.Server.IsoGetOrNew | bluetooth/audio/ascs.c:1337-1361 | such a channel or a new one |
| AscsServer.Server.IsoUnref | bluetooth/audio/bap_iso.c:73-82 | one reference less, recorded as a call |
| AscsServer.Server.IsoUnbind | bluetooth/audio/bap_iso.c:264-283 | slot and endpoint forget each other and the reference goes |
| AscsServer.Server.IsoBind | bluetooth/audio/bap_iso.c:235-262 | slot and endpoint point at each other and a reference is taken |
| AscsServer.Server.AseFind | bluetooth/audio/ascs.c:1428-1439 | the first endpoint of the link with the ID |
| AscsServer.Server.AseNew | bluetooth/audio/ascs.c:1404-1426 | the first free endpoint, set up with direction by ID |
| AscsServer.Server.AseFree | bluetooth/audio/ascs.c:172-187 | channel unbound, works cancelled, link let go |
| AscsServer.Server.StreamCanDisconnect | bluetooth/audio/bap_stream.c:450-491 | whether the endpoint has a stream on a channel that is up and no other endpoint on it needs it, which is `DisconnectsExactly` |
| AscsServer.Server.ExitState | bluetooth/audio/ascs.c:399-464 | the callbacks of leaving Streaming or Enabling |
| AscsServer.Server.EnterState | bluetooth/audio/ascs.c:298-397 | the callbacks and requests of entering each state |
| AscsServer.Server.StateTransition | bluetooth/audio/ascs.c:547-596 | a notified transition committed, an idle endpoint freed |
| AscsServer.Server.RunWork | bluetooth/audio/ascs.c:504-596 | the work-handler event: commit, or revert and retry when the notification finds no memory; the calls on the pool of channels are those of its trace |
| AscsServer.Server.AseConfig | bluetooth/audio/ascs.c:1536-1683 | codec configuration where the state allows it and the application agrees |
| AscsServer.Server.ConfigWrite | bluetooth/audio/ascs.c:1845-1895 | the configuration event: ID, endpoint found or made, freed again when refused; the calls of its trace |
| AscsServer.Server.ConfigLocally | bluetooth/audio/ascs.c:1698-1764 | the same from the application; the calls of its trace |
| AscsServer.Server.QosUnbind | bluetooth/audio/ascs.c:1971-1975 | the channel unbound when CIG or CIS changed, with the call of its trace |
| AscsServer.Server.QosBind | bluetooth/audio/ascs.c:1977-2000 | a channel bound unless the pool is exhausted or the direction taken, with the calls of its trace in order |
| AscsServer.Server.AseQos | bluetooth/audio/ascs.c:1908-2012 | both, and the request for QoS Configured; the calls of both in order |
| AscsServer.Server.QosWrite | bluetooth/audio/ascs.c:2050-2101 | the QoS event for one endpoint and the calls of its trace |
| AscsServer.Server.AseEnable | bluetooth/audio/ascs.c:2318-2376 | the Enable operation on one endpoint |
| AscsServer.Server.AseStart | bluetooth/audio/ascs.c:2462-2519 | the Receiver Start Ready operation, only with a connected channel |
| AscsServer.Server.AseDisable | bluetooth/audio/ascs.c:1219-1281 | the Disable operation, by direction, and what it returns |
| AscsServer.Server.AseStop | bluetooth/audio/ascs.c:2673-2729 | the Receiver Stop Ready operation |
| AscsServer.Server.AseMetadata | bluetooth/audio/ascs.c:2255-2316 | the Update Metadata operation: the state it is in, requested again |
| AscsServer.Server.AseRelease | bluetooth/audio/ascs.c:1168-1204 | the Release operation |
| AscsServer.Server.Write | bluetooth/audio/ascs.c:2409-2974 | the event of a client operation on one endpoint, for six operations |
| AscsServer.Server.LocalWrite | bluetooth/audio/bap_stream.c:773-980 | the event of an application call and what it returns: EBADMSG exactly in the states the stream layer refuses, otherwise what the operation and the application say |
| AscsServer.Server.ServerStart | bluetooth/audio/bap_unicast_server.c:126-152 | a start of a sink is requested, of a source refused |
| AscsServer.Server.LocalRelease | bluetooth/audio/ascs.c:1206-1217 | the event of bt_ascs_release_ase; it frees an idle endpoint, which only the cleanup of the server asks for, since the stream layer refuses a release in Idle; the calls of its trace |
| AscsServer.Server.Accept | bluetooth/audio/ascs.c:823-860 | the event of a CIS request |
| AscsServer.Server.EpIsoConnected | bluetooth/audio/ascs.c:968-1014 | what a connected channel means for one slot |
| AscsServer.Server.EpIsoDisconnected | bluetooth/audio/ascs.c:1034-1074 | what a lost channel means for one slot |
| AscsServer.Server.ChannelConnected | bluetooth/audio/ascs.c:1016-1032 | the event of a connected channel, both slots |
| AscsServer.Server.ChannelDisconnected | bluetooth/audio/ascs.c:1076-1091 | the event of a lost channel, both slots |
| AscsServer.Server.LinkDown | bluetooth/audio/ascs.c:1290-1305 | one round of the loop on disconnection and its call |
| AscsServer.Server.LinkDisconnected | bluetooth/audio/ascs.c:1283-1307 | the event of a lost link, keeping the invariant, and the calls of its trace |
| AscsServer.Server.RunDisconnectWork | bluetooth/audio/ascs.c:231-285 | the event of the disconnect work |
| AscsSpec.FindIso | bluetooth/audio/bap_iso.c:84-133 | the first channel in use that carries link, CIG and CIS |
| AscsSpec.FreeIso | bluetooth/audio/bap_iso.c:31-49 | the first channel nobody refers to |
| AscsSpec.FindAse | bluetooth/audio/ascs.c:1428-1439 | the first endpoint of the link with the ID |
| AscsSpec.FreeId | bluetooth/audio/ascs.c:1698-1725 | the first ID the link does not use |
| AscsAcceptTheorems.AcceptedExactly | bluetooth/audio/ascs.c:823-860 | in every reachable state the request for the CIS of a bound endpoint meets the assertion exactly if the first endpoint of the link that names this CIS is Enabling or QoS Configured without a channel; it is accepted exactly if that endpoint is in one of these states and bound and the channel is down, and then takes the channel of the endpoint asked for; else nothing changes |
| AscsAcceptTheorems.RefusedExactly | bluetooth/audio/ascs.c:823-860 | so an endpoint that waits for its CIS is refused it, without an assertion met, exactly if the first of the link that names the same CIS is before it in the pool and in no state to take it |
| AscsAcceptTheorems.CanBeRefused | bluetooth/audio/ascs.c:1377-1385 | an eight-event run after which an Enabling source never gets CIS 0 of CIG 0, because the sink before it, only configured, still names it |
| AscsRequestTheorems.LastWins | bluetooth/audio/ascs.c:693-702 | until what was asked of an endpoint is done or the endpoint is freed, it stays in its state and waits for what an event asked of it last, whatever was answered before |
| AscsRequestTheorems.OverwrittenExactly | bluetooth/audio/ascs.c:693-702 | a request answered with success, a release or disable included, is lost before it is done exactly by an event that asks the endpoint for another state: which events these are in which state, of client, application and link, is the table `Wants` |
| AscsRequestTheorems.RequestLasts | bluetooth/audio/ascs.c:504-596 | over every run without such an event it lasts, through any number of notifications without memory, and is what the work handler then does |
| AscsRequestTheorems.ReleaseCanBeLost | bluetooth/audio/ascs.c:1056-1073 | a thirteen-event run: a streaming endpoint is released, its CIS goes down before the work handler runs, and it is QoS Configured with nothing left to release it |
| AscsEffectTheorems.DisconnectsExactly | bluetooth/audio/bap_stream.c:450-491 | in every reachable state the CIS of an endpoint may be disconnected exactly if it has a stream, its channel is connected or connecting, and every other endpoint on that channel is Codec or QoS Configured |
| AscsEffectTheorems.ReleasingDisconnects | bluetooth/audio/ascs.c:481-502 | an endpoint that enters Releasing has its CIS disconnected exactly then, and exactly otherwise asks to be idle at once |
| AscsEffectTheorems.StopDisconnects | bluetooth/audio/ascs.c:2673-2729 | Receiver Stop Ready of a disabling source asks for QoS Configured and has the CIS disconnected exactly then |
| AscsEffectTheorems.WorkEffect | bluetooth/audio/ascs.c:504-596 | the work handler takes the endpoint to the state asked for last, with which calls of the application, which fields set and which state asked for next; an endpoint that becomes idle is given back; a failed notification leaves all but the retry as it was |
| AscsEffectTheorems.LinkDownEffect | bluetooth/audio/ascs.c:1283-1307 | a lost link gives back every endpoint of it that is not idle, with which calls, and no other endpoint or channel state changes |
| AscsEffectTheorems.OperateEffect | bluetooth/audio/ascs.c:2409-2974 | what each of the six operations of a client asks of the endpoint it means and notes with it, by state, direction and channel, and that nothing else changes |
| AscsEffectTheorems.LocalCallEffect | bluetooth/audio/bap_stream.c:773-980 | what the four calls of the application ask of their endpoint, and that a start of a sink before its CIS is remembered |
| AscsEffectTheorems.LocalReleaseEffect | bluetooth/audio/ascs.c:1206-1217 | bt_ascs_release_ase gives an idle endpoint back and asks any other but a releasing one to be released |
| AscsEffectTheorems.ConfigEffect | bluetooth/audio/ascs.c:1845-1895 | Config Codec configures the endpoint the client has for the ID, or takes the first free slot for a new one and gives it back when refused |
| AscsEffectTheorems.ConfigLocalEffect | bluetooth/audio/ascs.c:1698-1764 | the application gets the first ID the link does not use in the first free slot |
| AscsEffectTheorems.ChannelEventEffect | bluetooth/audio/ascs.c:972-1092 | a channel connected or lost reaches exactly the endpoints bound to it: which calls, fields and requests by state and direction |
| AscsEffectTheorems.DisconnectWorkEffect | bluetooth/audio/ascs.c:231-285 | the disconnect work takes the channel of its endpoint down exactly if it is up and the link agrees |
| AscsEffectTheorems.AcceptEffect | bluetooth/audio/ascs.c:823-860 | a request of the link takes the channel of the first endpoint that names the CIS, if that endpoint is in a state for it and the channel is down |
| AscsEffectTheorems.QosWriteEffect | bluetooth/audio/ascs.c:1908-2012 | a QoS write keeps the channel of an endpoint that has the CIS; any other endpoint lets its channel go and gets the one that carries the CIS in the other direction, or the first unused one if none carries it, or is left without |
| AscsEffectTheorems.BindsExactly | bluetooth/audio/ascs.c:1971-2000 | ase_qos finds a channel exactly if there is one of these |
| AscsEffectTheorems.LosesExactly | bluetooth/audio/ascs.c:1971-2000 | the writes that cost an endpoint the channel it relies on, by the state of the pool alone |
| AscsEffectTheorems.TransitionTable | bluetooth/audio/ascs.c:605-676 | the transitions of the server as a set of pairs, for both directions, for sources, and for sinks or after link loss |
| IsoPool.StepKeeps | bluetooth/audio/bap_iso.c:31-362 | every allocation, reference, search, binding and unbinding, of endpoints and streams of server and client, keeps counts, bindings and held references in step |
| IsoPool.RunKeeps | bluetooth/audio/bap_iso.c:31-362 | so does every run |
| IsoPool.CountIsUsers | bluetooth/audio/bap_iso.c:31-133 | over every run the count of a channel is the number of endpoints bound to it, of streams bound to it, and of references callers hold |
| IsoPool.NewIsUnused | bluetooth/audio/bap_iso.c:31-49 | allocation hands out a channel nobody uses, and fails exactly when all are used |
| IsoPool.BoundStays | bluetooth/audio/bap_iso.c:235-362 | what is bound to a channel stays bound until it is unbound itself, whatever others do |
| IsoPool.PairedIsOther | bluetooth/audio/bap_iso.c:300-307 | bt_bap_iso_get_paired_ep returns exactly the other endpoint bound to the channel, which is bound to the other half |
| IsoPool.UnbindIsSafe | bluetooth/audio/bap_iso.c:264-362 | what unbinding and unreferencing assert holds: of every bound endpoint, and of every bound stream in exactly one direction |
| IsoPool.StepEffect | bluetooth/audio/bap_iso.c:31-362 | what each function writes in every reachable state: which channel an allocation and a search take, which half a binding sets for sinks and sources of server and client, and the count |
| IsoServer.EventServes | bluetooth/audio/ascs.c:1908-2012 | every event leads from the pool before it to the pool behind it by just the steps `Trace` gives for it, each possible where it is taken: an endpoint set up; a channel unbound; one searched for, made if not found, bound or found taken, and the reference of the search given back |
| IsoServer.RunServes | bluetooth/audio/ascs.c:1319-1361 | over every run from the start these steps, one event after the other, are a run of the pool that leads to its pool |
| IsoServer.ServerIsUser | bluetooth/audio/ascs.c:1319-1361 | so the pool of every state the server can reach is one the pool can reach, and what holds of these holds of it |
| IsoServer.ServerGets | bluetooth/audio/ascs.c:1337-1361 | bap_iso_get_or_new of the server is a search of the pool followed, only if that finds nothing, by an allocation |
| IsoPool.Free | bluetooth/audio/bap_iso.c:35-40 | the first channel without a reference |
| IsoPool.Found | bluetooth/audio/bap_iso.c:84-133 | the first channel in use for which the caller says yes |
| IsoChannels.Channels.constructor | bluetooth/audio/bap_iso.c:26-29 | an unused pool, with nothing bound |
| IsoChannels.Channels.New | bluetooth/audio/bap_iso.c:31-49 | the allocation step and the channel |
| IsoChannels.Channels.Ref | bluetooth/audio/bap_iso.c:51-71 | the reference step; it fails exactly at count zero |
| IsoChannels.Channels.AddRef | bluetooth/audio/bap_iso.c:51-71 | a count is never raised from zero |
| IsoChannels.Channels.DecRef | bluetooth/audio/bap_iso.c:73-82 | one reference less, of a count that is positive |
| IsoChannels.Channels.Unref | bluetooth/audio/bap_iso.c:73-82 | the step of a caller that gives its reference back |
| IsoChannels.Channels.Find | bluetooth/audio/bap_iso.c:84-133 | the search step over channels held meanwhile: one reference more for the one found, the others as before |
| IsoChannels.Channels.BindEp | bluetooth/audio/bap_iso.c:235-262 | the binding step of an endpoint |
| IsoChannels.Channels.UnbindEp | bluetooth/audio/bap_iso.c:264-283 | its undoing |
| IsoChannels.Channels.BindStream | bluetooth/audio/bap_iso.c:310-334 | the binding step of a stream |
| IsoChannels.Channels.UnbindStream | bluetooth/audio/bap_iso.c:336-362 | its undoing |
| AscsControl.AcceptedExactly | bluetooth/audio/ascs.c:1801-1843 | for all octets, a length check lets a write pass as the entries `es` exactly when it is their number, which may be taken, and then they, with nothing behind |
| AscsControl.EntriesRead | bluetooth/audio/ascs.c:2378-2420 | entries written one behind the other are read back |
| AscsControl.EntriesCanonical | bluetooth/audio/ascs.c:2378-2420 | entries read are the octets they were read from |
| AscsControl.OneReplyEach | bluetooth/audio/ascs.c:1845-1895 | a write gets one reply for each entry, in its place, exactly if no entry is a good configuration, of an endpoint that is there, longer than the server keeps |
| AscsControl.SilenceHappens | bluetooth/audio/ascs.c:1563-1567 | a write of one such entry, answered by a response without replies |
| AscsControl.AddedAll | bluetooth/audio/ascs.c:1132-1161 | for all replies, the response becomes its head and the replies that get in (none behind a closing one or the 255th), or the buffer is too small for exactly these |
| AscsControl.AnsweredInOrder | bluetooth/audio/ascs.c:2976-3047 | unless a code closes the response, a taken write that names no more endpoints than there are is answered within the buffer by opcode, number and replies; one for each entry, with its ID, exactly if none is such a configuration |
| AscsControl.OverrunExactly | bluetooth/audio/ascs.c:2731-2757 | the response overruns its buffer exactly for a Receiver Stop Ready that names more endpoints than there are, fewer than 255 of these, and closes the response with none of as many replies |
| AscsControl.StopOverruns | bluetooth/audio/ascs.c:2731-2757 | one entry more than there are endpoints suffices |
| AscsAnswerTheorems.EntryAnswered | bluetooth/audio/ascs.c:2409-2974 | in the octets of the response each entry of a taken operation is answered in its place by its ASE ID, a code and a reason, and exactly when each code is: invalid direction for start and stop of sinks only, invalid ASE, invalid state or no memory for a missing endpoint, invalid configuration with its reason, no memory for long metadata, and otherwise what came of the operation |
| AscsAnswerTheorems.RefusedWrites | bluetooth/audio/ascs.c:2976-3047 | an unknown opcode is answered by 0x01 and octets that are no operation that may be taken by 0x02, for all endpoints at once |
| AscsAnswerTheorems.OperationIs | bluetooth/audio/ascs.c:1801-1843 | the octets of an operation that is taken, with opcodes, sizes and limits as numbers |
| AscsControlPoint.SameSize | bluetooth/audio/ascs.c:2029-2044 | entries of one size are whole exactly when the octets are as many as their number times that size |
| AscsControlPoint.MeasureEntries | bluetooth/audio/ascs.c:1810-1841 | the loops of the length checks: whether the octets are exactly that many entries |
| AscsControlPoint.MeasureAtOnce | bluetooth/audio/ascs.c:2014-2048 | the same for entries of one size, by the length alone |
| AscsControlPoint.IsValidLen | bluetooth/audio/ascs.c:1801-1843 | the length check of an operation, with the cursor back where it was when it passes |
| AscsControlPoint.TakeEntry | bluetooth/audio/ascs.c:1853-1862 | the pulls of the second pass, which check nothing, never go past the end |
| AscsControlPoint.ControlPoint.constructor | bluetooth/audio/ascs.c:1110-1118 | a response buffer of two octets and three for each endpoint |
| AscsControlPoint.ControlPoint.Init | bluetooth/audio/ascs.c:1120-1130 | opcode and zero |
| AscsControlPoint.ControlPoint.RspAdd | bluetooth/audio/ascs.c:1132-1161 | one reply added and counted, the response closed, or the assertion met |
| AscsControlPoint.ControlPoint.ReplyFor | bluetooth/audio/ascs.c:2857-2903 | the reply to one entry, which code when is `EntryAnswered` |
| AscsControlPoint.ControlPoint.Run | bluetooth/audio/ascs.c:1845-1895 | the second pass takes every octet of an accepted write and adds the replies in order |
| AscsControlPoint.ControlPoint.RunEntries | bluetooth/audio/ascs.c:1857-1892 | its loop |
| AscsControlPoint.ControlPoint.Write | bluetooth/audio/ascs.c:2976-3047 | for all octets and all outcomes of the endpoints, exactly what is notified |
| BufKeeps.NextIsUnused | base/bt_buf.c:202-276 | allocation takes a buffer without reference, holder, predecessor or fragment, and fails exactly when the free list and the unused part are empty |
| BufKeeps.AllocKeeps | base/bt_buf.c:202-276 | allocation keeps the split of the pool into unused part, free list and live buffers, and the counts |
| BufKeeps.RefKeepsExactly | base/bt_buf.c:374-381 | taking a reference keeps them exactly if the buffer has fewer than 255: the count is an octet, and at the next it wraps to zero while the buffer is held |
| BufKeeps.CountCanWrap | base/bt_buf.c:374-381 | a buffer allocated and referenced 255 times, held by 256 and counted as free |
| BufKeeps.DropKeeps | base/bt_buf.c:337-372 | so does giving one back; the fragment behind a freed buffer is live and held |
| BufKeeps.UnrefKeeps | base/bt_buf.c:337-372 | so does releasing a chain |
| BufKeeps.UnrefFreesRun | base/bt_buf.c:337-372 | releasing a chain frees exactly its leading run of buffers with one reference, takes one from the buffer behind it, changes nothing else, and puts the freed ones in front of the free list, last freed first |
| BufSpec.Run | base/bt_buf.c:340-370 | the length of that run |
| BufSpec.BlocksDisjoint | base/bt_buf.c:120-128 | the data blocks of different buffers do not overlap |
| BufSpec.BlockFits | base/bt_buf.c:120-128 | and lie inside the data of the pool |
| BufChain.AddChain | base/bt_buf.c:470-481 | the chain added stands behind the whole chain of the head |
| BufChain.InsertChain | base/bt_buf.c:458-468 | the chain inserted stands between the parent and what followed it |
| BufChain.InsertKeeps | base/bt_buf.c:458-468 | inserting keeps the pool's invariant |
| BufChain.DetachKeeps | base/bt_buf.c:483-496 | so does taking a fragment out |
| BufChain.AddMemContent | base/bt_buf.h:1396-1408 | bytes added stand behind the content of their buffer; no other content changes |
| BufChain.AddMemFlatten | base/bt_buf.c:543-585 | adding to the last buffer of a chain adds to the end of its bytes |
| BufChain.AllocBeside | base/bt_buf.c:567-575 | a buffer allocated meanwhile is not in the chain and moves none of its bytes |
| BufChain.LinkedBehind | base/bt_buf.c:470-481 | linking it behind the chain moves none either |
| BufChain.AllocEffect | base/bt_buf.c:202-276 | an allocation takes the buffer freed last, else the first never used, with one reference, no fragments, no headroom and no bytes, and a data block unless nothing is asked for; nothing else changes |
| BufChain.FragDelChain | base/bt_buf.c:483-501 | taking a fragment out closes the chain up around it; it loses one reference and is given back if that was the last |
| BufChain.FragDelHead | base/bt_buf.c:483-501 | without a parent what followed the fragment is the caller's, its chain intact |
| BufChain.MatchUnique | base/bt_buf.c:587-621 | there is one longest common prefix |
| BufChain.Match | base/bt_buf.c:587-621 | it agrees, and ends at a difference or an end |
| BufChain.Appended | base/bt_buf.c:503-621 | behind what a chain held, its bytes from there on are what was appended, and agree with it as far as that goes |
| BufPool.BufferPool.constructor | base/bt_buf.c:30-43 | a pool all unused, meeting the invariant |
| BufPool.BufferPool.AllocLen | base/bt_buf.c:202-276 | the allocation step of a pool with fixed-size data and without waiting; the buffer was not in use and is now |
| BufPool.BufferPool.RefBuf | base/bt_buf.c:374-381 | the reference step, the count modulo 256; the invariant holds behind it exactly if the count was below 255 |
| BufPool.BufferPool.DropOne | base/bt_buf.c:345-370 | one round of the release loop; it goes on exactly if the buffer had one reference |
| BufPool.BufferPool.UnrefBuf | base/bt_buf.c:337-372 | the loop releases exactly the leading run |
| BufPool.BufferPool.FragLast | base/bt_buf.c:447-456 | the last buffer of the chain |
| BufPool.BufferPool.FragInsert | base/bt_buf.c:458-468 | the insertion step |
| BufPool.BufferPool.FragAdd | base/bt_buf.c:470-481 | the same behind the last buffer, or a reference without a head, which alone can make the count wrap |
| BufPool.BufferPool.FragDel | base/bt_buf.c:483-501 | the fragment out and released; what followed it |
| BufPool.BufferPool.AddMemory | base/bt_buf_simple.c:40-43 | the bytes behind the content, within the tailroom |
| BufPool.BufferPool.FillLast | base/bt_buf.c:553-560 | one part of the bytes into the last fragment |
| BufPool.BufferPool.Extend | base/bt_buf.c:562-578 | a fragment more, or none exactly when the pool is empty |
| BufPool.BufferPool.AppendRound | base/bt_buf.c:551-580 | one round; the free buffers get fewer |
| BufPool.BufferPool.AppendBytes | base/bt_buf.c:543-585 | the chain's bytes grow by exactly the returned prefix, all of it unless the pool is empty and the last fragment full; every fragment but the last is filled, new ones from the start of a whole data block; other live buffers keep their bytes |
| BufPool.BufferPool.FragsLen | base/bt_buf.h:2613-2623 | the number of bytes of the chain |
| BufPool.BufferPool.SkipTo | base/bt_buf.c:513-519 | the fragment and the place in it where the offset falls |
| BufPool.BufferPool.CopyRound | base/bt_buf.c:521-533 | one fragment's part copied |
| BufPool.BufferPool.Linearize | base/bt_buf.c:503-537 | the destination begins with exactly the slice asked for and is otherwise unchanged |
| BufPool.BufferPool.CompareRound | base/bt_buf.c:604-618 | one fragment compared: the longest common prefix found, or the comparison goes on behind it |
| BufPool.BufferPool.CompareOne | base/bt_buf.c:600-615 | how many bytes of one fragment agree |
| BufPool.BufferPool.DataMatch | base/bt_buf.c:587-621 | the length of the longest common prefix of the chain from an offset and the data |
| BufPool.BufferPool.AppendReadBack | base/bt_buf.c:503-621 | append, then linearize and compare from where the chain ended: the destination holds the appended bytes as far as it has room, and just these agree |
| H4.CompleteIsStable | drivers/h4.c:120-195 | a length once decoded, or found invalid, does not change when more arrives; a positive one is a packet |
| H4.PacketForms | drivers/h4.c:120-195 | a packet is just what has one of the five forms: where the length of its data stands for each type, in how many octets, the low one first, and how many bits of it count |
| H4.CompleteExactly | drivers/h4.c:120-195 | the decoder says invalid exactly of an octet that is none of the five types, and finds a packet exactly if a beginning of the octets has one of these forms, with its length |
| H4.PartIsIncomplete | drivers/h4.c:120-195 | no proper part of a packet looks complete or invalid |
| H4.DrainTakes | drivers/h4.c:251-306 | one read delivers the packets that became whole and keeps the part of the next |
| H4.PrefixSplits | drivers/h4.c:206-307 | any prefix of a stream is whole packets and a part of one, whatever follows the packets it covers |
| H4.ChunkInvariance | drivers/h4.c:206-307 | for packets that fit the frame, every way of cutting the stream into reads decodes the same packets in the same order, each once |
| H4.OnlyPackets | drivers/h4.c:206-307 | whatever the stream, only whole packets that fit the frame are delivered |
| H4.DeliveredExactly | drivers/h4.c:262-268 | a packet alone on the line is delivered exactly if it fits the frame |
| H4.DrainLeaves | drivers/h4.c:251-306 | one read delivers the packets at its front and keeps what is not yet whole, unless that fills the frame |
| H4.DrainDrops | drivers/h4.c:256-261 | an octet that is no packet type costs the rest of its read, and nothing in front of it |
| H4.AfterInvalid | drivers/h4.c:206-307 | a stream with such an octet behind its packets, cut into reads in any way: the packets are delivered, the rest of the read with the octet is lost, and decoding starts anew with the next read |
| H4.AfterTooLong | drivers/h4.c:262-268 | a stream with a packet longer than the frame behind others, cut into reads that fit: the others are delivered, exactly a frame full of the long one is dropped, and decoding starts anew in its middle |
| H4.DriversAgree | drivers/userchan.c:235-329 | over frames of one size the two overflow rules deliver the same packets |
| H4Rx.Receiver.constructor | drivers/h4.c:206-216 | an empty frame |
| H4Rx.Receiver.Read | drivers/h4.c:232-249 | a read appends to the frame |
| H4Rx.Receiver.Shift | drivers/h4.c:270-272 | the unparsed bytes at the front of the frame |
| H4Rx.Receiver.TakeFront | drivers/h4.c:251-286 | a packet, of the forms of `PacketForms`, taken off the front, or nothing |
| H4Rx.Receiver.H4Turn | drivers/h4.c:206-307 | one turn decodes what the reference decoder decodes and keeps its rest |
| H4Rx.Receiver.H4Loop | drivers/h4.c:251-306 | the inner loop alone |
| H4Rx.Receiver.UserChannelTurn | drivers/userchan.c:235-329 | the same for the other driver, which drops a full frame before the next read |
| H4Rx.Receiver.DropFull | drivers/userchan.c:257-262 | that drop |
| H4Rx.Receiver.UserChannelLoop | drivers/userchan.c:281-325 | its inner loop |
| Crc32.EntryIsSum | base/utils.c:116-121 | each table entry is what four bit steps add |
| Crc32.NibbleIsHalf | base/utils.c:128-129 | one look-up does the work of four bit steps, for every register and half octet |
| Crc32.OctetIsNibbles | base/utils.c:125-130 | two look-ups do the work of the eight of an octet |
| Crc32.Update | base/utils.c:114-133 | for every message and start, the reflected CRC-32 computed bit by bit |
| Crc32.UpdateConcat | base/utils.c:109-133 | updating over two parts is one pass over both |
| Crc32.MessageIsInjective | base/utils.c:114-133 | different starts never meet |
| Crc32.OctetsDiffer | base/utils.c:125-130 | different octets leave different registers |
| Crc32.OneOctetIsDetected | base/utils.c:114-133 | a change confined to one octet of a message always changes its CRC |
| Crc32.CheckValue | base/utils.c:109-133 | the text 123456789 has the CRC 0xCBF43926, the check value of this CRC |
| RecvState.RoundTrip | bluetooth/audio/bap_scan_delegator.c:236-271 | parsing what was written for a state in range gives it back (an unused bad code cleared) |
| RecvState.Canonical | bluetooth/audio/bap_broadcast_assistant.c:226-326 | octets accepted are exactly those written for the state read, which is in range |
| RecvState.AcceptedExactly | bluetooth/audio/bap_broadcast_assistant.c:226-326 | the parser accepts exactly what the writer can write |
| RecvState.EncodedOctets | bluetooth/audio/bap_scan_delegator.c:236-271 | where every field of the encoding stands and in which octets, the low one first: ID, address, set ID, broadcast ID, both states, the bad code only in state 3, the number of subgroups and each in its place |
| RecvState.ErrorsExactly | bluetooth/audio/bap_broadcast_assistant.c:226-326 | which error the parser ends with: too few octets at all, more subgroups than are kept, or otherwise octets that are no encoding |
| RecvState.SubgroupsRoundTrip | bluetooth/audio/bap_scan_delegator.c:263-270 | the same for the list of subgroups |
| RecvState.SubgroupsCanonical | bluetooth/audio/bap_broadcast_assistant.c:281-323 | and back |
| RecvStateCodec.PutRecvState | bluetooth/audio/bap_scan_delegator.c:236-271 | the writer leaves exactly the encoding, or nothing for an inactive state |
| RecvStateCodec.PutSubgroup | bluetooth/audio/bap_scan_delegator.c:263-270 | one subgroup appended |
| RecvStateCodec.ParseRecvState | bluetooth/audio/bap_broadcast_assistant.c:226-326 | the parser returns what the reference parser does, each error included |
| RecvStateCodec.PullSubgroups | bluetooth/audio/bap_broadcast_assistant.c:281-323 | its loop |
| RecvStateCodec.PullOne | bluetooth/audio/bap_broadcast_assistant.c:281-323 | one subgroup, or where the source gives up |
| SimpleBuf.Buffer.constructor | base/bt_buf_simple.c:10-17 | a buffer of the given size without data |
| SimpleBuf.Buffer.Reset | base/bt_buf_simple.c:12-28 | empty, at the start |
| SimpleBuf.Buffer.AddU8 | base/bt_buf_simple.c:45-53 | an octet behind the data |
| SimpleBuf.Buffer.AddMem | base/bt_buf_simple.c:40-43 | octets behind the data |
| SimpleBuf.Buffer.PullU8 | base/bt_buf_simple.c:331-339 | an octet off the front |
| SimpleBuf.Buffer.PullMem | base/bt_buf_simple.c:319-329 | octets off the front |
| Prelude.Le16RoundTrip | base/byteorder.h:224-237 | sixteen bits through two octets and back, both ways |
| Prelude.Le24RoundTrip | base/byteorder.h:239-252 | twenty-four bits through three octets and back |
| Prelude.Le24Canonical | base/byteorder.h:239-252 | three octets through their number and back |
| Prelude.Le32RoundTrip | base/byteorder.h:254-267 | thirty-two bits through four octets and back |
| Prelude.Le32Canonical | base/byteorder.h:254-267 | four octets through their number and back |
| Prelude.LeastFirst | base/byteorder.h:224-267 | octet k of what is written of a number is the number over 256^k, modulo 256, for 16, 24 and 32 bits |
| Prelude.WeighedSum | base/byteorder.h:405-438 | and the readers weigh octet k by 256^k |
| BaseSpec.AcceptedExactly | bluetooth/audio/bap_base.c:97-210 | an announcement is accepted as `b` exactly when it is of the right type, the UUID, and the octets of `b`, whose counts and indices are in range, with anything behind |
| BaseSpec.BaseReads | bluetooth/audio/bap_base.c:216-265 | the walkers read back every structure, whatever stands behind it |
| BaseSpec.BaseCanonical | bluetooth/audio/bap_base.c:216-265 | octets walked over are the octets of what was read |
| BaseSpec.WindowSuffices | bluetooth/audio/bap_base.c:228-230 | the fixed window of the accessors holds the whole of an accepted structure of an advertising structure |
| BaseSpec.SubgroupWindowSuffices | bluetooth/audio/bap_base.c:361-383 | and that on a subgroup the whole subgroup |
| BaseSource.NumberedInOrder | bluetooth/audio/bap_broadcast_source.c:324-407 | across subgroups the BISes are numbered 1, 2, 3 and so on and carry the data of the streams in order |
| BaseSource.AnnouncedIsAccepted | bluetooth/audio/bap_broadcast_source.c:409-442 | what a created source announces is accepted, and read back whole, exactly if it has at most 24 subgroups |
| BaseLayout.AnnouncedOctets | bluetooth/audio/bap_broadcast_source.c:409-442 | what is announced, octet by octet: 51 18, the presentation delay low octet first, the number of subgroups, and each subgroup as configured in its place, with codec, company and vendor, configuration, metadata and each BIS at their places, and nothing else |
| BaseLayout.AcceptedOctets | bluetooth/audio/bap_base.c:97-210 | what is accepted, in numbers: service data 0x16, the octets of 1 to 24 subgroups of 1 to 31 BISes of index 1 to 31, with anything behind them |
| BaseSource.EncodedExactly | bluetooth/audio/bap_broadcast_source.c:409-442 | encoding succeeds exactly when UUID and structure fit and 16 octets are free |
| BaseSource.OverrunExactly | bluetooth/audio/bap_broadcast_source.c:341-346 | it meets the buffer's assertion exactly when some subgroups fit and leave fewer than the seven octets the next begins with |
| BaseSource.OverrunHappens | bluetooth/audio/bap_broadcast_source.c:341-346 | two minimal subgroups in twenty octets do |
| BaseSource.SubgroupsFit | bluetooth/audio/bap_broadcast_source.c:430-440 | the loop over subgroups ends well, refused or overrun exactly by their sizes |
| BaseSource.SubgroupFits | bluetooth/audio/bap_broadcast_source.c:324-407 | one subgroup does, exactly by its size |
| BaseCodec.EncodeBase | bluetooth/audio/bap_broadcast_source.c:409-442 | the buffer holds the announcement exactly, or a beginning of it when refused; how it ended |
| BaseCodec.PutSubgroups | bluetooth/audio/bap_broadcast_source.c:430-440 | its loop |
| BaseCodec.PutSubgroup | bluetooth/audio/bap_broadcast_source.c:324-407 | one subgroup appended, or a beginning of it |
| BaseCodec.PutBises | bluetooth/audio/bap_broadcast_source.c:374-404 | its BISes, numbered on |
| BaseCodec.PutBis | bluetooth/audio/bap_broadcast_source.c:378-401 | one of them, or a beginning of it |
| BaseCodec.Validate | bluetooth/audio/bap_base.c:97-210 | the validator with its early exits accepts exactly what the reference reader accepts |
| BaseCodec.CheckSubgroup | bluetooth/audio/bap_base.c:152-207 | one round of it |
| BaseCodec.CheckPullLtv | bluetooth/audio/bap_base.c:80-95 | a value passed over, or known not to be there |
| BaseCodec.PullValue | bluetooth/audio/bap_base.c:67-78 | a value read |
| BaseCodec.PullCodecId | bluetooth/audio/bap_base.c:53-65 | a codec identifier read |
| BaseCodec.GetSize | bluetooth/audio/bap_base.c:216-265 | the length of the encoding |
| BaseCodec.ForeachSubgroup | bluetooth/audio/bap_base.c:303-359 | the callback is shown the subgroups in order, each where it stands, until it stops |
| BaseCodec.ShowSubgroups | bluetooth/audio/bap_base.c:328-356 | its loop |
| BaseCodec.BisCount | bluetooth/audio/bap_base.c:492-505 | the number of BISes of the subgroup |
| BaseCodec.SubgroupHeader | bluetooth/audio/bap_base.c:361-434 | codec, configuration and metadata of the subgroup |
| BaseCodec.ForeachBis | bluetooth/audio/bap_base.c:507-554 | the callback is shown the BISes in order with index and data, until it stops |
| BaseCodec.ShowBises | bluetooth/audio/bap_base.c:537-551 | its loop |

## Left out

- Scheduling: `no_yield` and the yield after a handler, priorities, names, and the handler pointers themselves; handlers do nothing to the module but through its calls.
- Work items and queues initialised again while in use; items are never released.
- The main work queue is taken as started, so the transition work of an endpoint is always accepted.
- Waiting for a flush, drain or cancel is the caller's semaphore, which the model gives but does not take; with one waiter at a time, as the source needs it (two drainers or two cancellers share one give).
- Liveness: nothing is claimed about when a handler returns or a thread is scheduled.
- WorkCancelTheorems.SoleCancellersLive: for at most one canceller of an item at a time, because of the finding above.
- The pool of channels: a call of bap_iso.c is one step, so the moment between taking a free channel and clearing it is not modelled; nobody can find the channel then, because nothing is bound to it. Callers bind to channels in use only, as the code relies on. Connections of bound endpoints, quality of service and data paths are not part of this model.
- bt_bap_stream_reconfig answers 0 even where the server refuses (bluetooth/audio/bap_stream.c:814-820), and so does the model.
- What the link says of a channel can come in any state of it, also of a CIS that was given up: the channel may have been taken again since. When the controller says it is not part of this model.
- Application callbacks answer as they like but do not call back into the server, and a stream handed out belongs to one endpoint.
- The search for a paired stream in the disconnect work (bluetooth/audio/ascs.c:231-285): on the server no stream is ever bound to a channel's direction, so it finds none.
- bt_ascs_config_ase keeps the endpoint it made when the codec is not supported, as the code does.
- Contents of codec configuration, metadata and QoS parameters, HCI reasons other than those the machine tests, data paths, and the values notified.
- AscsControlPoint.ControlPoint.Run: what becomes of each endpoint is a parameter; AscsServer.Server.Write has the endpoint's side, one endpoint at a time.
- Prepared and long writes, attribute permissions, notification of the response, security.
- Heap and variable-length data of buffers, buffers over external data, user data, cloning, the destroy callback, headroom operations other than taking from the front, and the allocation callback of bt_buf_append_bytes.
- BufPool.BufferPool.AllocLen: a waiting allocation is not modelled; the pool without a free buffer refuses at once.
- Fields of a freed buffer are the ones it was freed with until it is allocated again, when they are set.
- What a stream holds behind an invalid octet or in the middle of an overlong packet is decoded as it comes (`AfterInvalid`, `AfterTooLong`); nothing marks where the next packet begins. Whether a receive buffer is available for a decoded packet is not modelled.
- EAGAIN, interrupted and failed reads, and sending.
- BaseSource.AnnouncedIsAccepted: parameters bt_bap_broadcast_source_create refuses (no stream in a subgroup, more than 31 in all) are not encoded.
- The bit field of BIS indices and the copies into a codec configuration (bluetooth/audio/bap_base.c:436-490, 556-650), and the LTV walker of bluetooth/audio/audio.c.
- Unicast client (but for its table of transitions), broadcast sink and assistant (but for the parser), profiles above BAP.
- base/bt_poll.c, the waiting path of base/bt_mem_pool.c, sockets, threads, timers, logging.
