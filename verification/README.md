# A verified model of the simpyc kernel

simpyc is a discrete-event simulation kernel in C: a binary heap of scheduled events, events with callback
arrays and a free list, processes that suspend on events and can be interrupted, and blocking stores,
containers and resources built on top. This project models that core in Dafny and proves what it promises
for every program that runs on it.

`dafny verify dfyconfig.toml` checks everything.

## How it is modelled

**The kernel** (`Kernel.dfy`) is a state machine. One state holds the clock, the queue, all events and
process structs ever allocated (a pointer is a place in the list), both free lists, and the point the
dispatch loop has reached in the callbacks of the event it is dispatching. Steps are those of the C code:
pop an entry, run one callback, execute one call of user code, finish the event. User code, meaning every
process body and callback with whatever memory they share, is an arbitrary function from the transcript of
what has happened to the next call, so every theorem about histories speaks of every program. Between steps
the host can make calls and start or end a `sim_run_until`.

`Env.dfy` is the same kernel as the program runs it: a class whose methods update the fields in place, with
the array heap of `Heap.dfy` for its queue and real loops over callbacks. Each method is proved equal to the
step or the loop of the state machine. The constructor gives the state of the empty history; a host call, a
`sim_step`, a `sim_run` and a `sim_run_until` each lead from the state of a history to that of a longer one
(`Runs.CallMade`, `Split.LoopIsHistory`, `Split.RunUntilIsHistory`), so what is proved about histories holds
of the fields.

**What processes are entitled to** (`Protocol.dfy`) is an automaton that reads only the transcript: no
callbacks, resume events, free lists or queue. For one process it says whether it waits, whether its event
has fired and with which value, whether an interrupt is pending, and whether a switch to it is due.
`FollowProof.dfy` shows that the kernel follows it for every process at every step; `Runs.dfy` extends that
to all histories. `Wakeups.dfy`, `InterruptCall.dfy`, `Cause.dfy`, `Callbacks.dfy`, `Registration.dfy`,
`Firing.dfy`, `Done.dfy` and `Recycling.dfy` draw the consequences: no wake-up is lost, spurious or doubled;
an interrupt is delivered once, at the same time, with the first cause (and it is said exactly when it is
not); dispatch is in order and on time, with the value the event was triggered with; callbacks are called
once and in turn, and processes that wait for one event are woken in turn; the event of a process is pending
until the process ends, and is then triggered; the free lists hold exactly what can be used again.
`Split.dfy` shows that running up to a time in two parts changes nothing, by a bisimulation up to a renaming
of sequence numbers.

**Stores, container, resources and conditions** each have a state, a specification of each call on it, a
class whose methods change the fields in the program's order and are proved equal to that specification, and
theorems about every history of calls. A call gets the handle of the event just allocated for it, and
returns the calls it makes on the kernel: `Deliver`, `Complete`, `Grant`, `PutDone` and `GetDone` stand for
`sim_event_succeed` on an event, `Evict` for `sim_process_interrupt`, `Pool` for pushing a request on the
free list. The theorems are in terms of the calls: `FilterLedger.dfy` proves the filter store against a
ledger that keeps every put and get, `FilterOrder.dfy` says when puts overtake each other, and
`PreemptiveCalls.dfy` says which call each holder and waiter stands for. `Eviction.dfy` puts the preemptive
resource and the kernel together.

`Bags.dfy` and `Ranked.dfy` hold what several of them share.

## What user code may do

The machine stops at a call outside the documented contract (`Kernel.Legal`): a delay below 0, a handle to a
resume event (user code is never given one), a yield outside a process, or the pooling of a request that was
not processed, is in the pool already, or is being dispatched. Everything else is allowed, including
self-interrupts, yields on processed or recycled events, interrupts of dead processes, and triggering events
twice.

## Where code and documentation differ

The model follows the code.

- `include/simpyc.h:48` calls `sim_run_until` inclusive; `src/env.c:115-128` leaves events at exactly
  `until` in the queue (`Split.RunUntilCuts`).
- `include/simpyc.h:99-100` says that the cause of an interrupt can be read with
  `sim_process_interrupt_cause`. It can, from the call of `sim_process_interrupt` until the delivery, by
  others or by a process that is running; but `src/process.c:161-163` clears it before `sim_yield` returns,
  so a process that has just been woken by the interrupt reads NULL and has only the return value
  (`Causes.CauseIsPending`, `Causes.ClearedOnReturn`).
- `include/simpyc.h:97-98` says that an interrupt resumes the process whatever it waits for. That is so
  exactly if no interrupt is pending, or the pending one is due (`InterruptCalls.InterruptCall`). An
  interrupt of a process that has not been started is not delivered by the start: it stays pending, with no
  switch due, and while it does, further interrupts are dropped, until the event the process waits for is
  dispatched (`InterruptCalls.StartOverlooks`, `InterruptCalls.DroppedCall`,
  `InterruptCalls.OverlookedUntilNoticed`; `EarlyInterrupts.EarlyInterruptWaits` and
  `EarlyInterrupts.SecondInterruptDropped` are histories of it). It is the only way to get there
  (`InterruptCalls.OverlookedIsEarly`). The owner of an evicted request in that state is not told
  (`Evictions.EvictedOwnerIsTold`).
- `include/simpyc.h:103-105` says that the interrupt flag is cleared by the next call of `sim_yield`;
  `src/process.c:157-165` sets or clears it when that call returns, so it is still up for code that runs
  while the process is suspended (`Causes.FlagTellsLastReturn`).
- A filter store can have a free slot while a put waits, because the result of the dispatch at
  `src/filter_store.c:173` is not used. `FilterStores.GetKeepsFullUnless` says exactly when that comes
  about. A put made then completes ahead of the one that waits, and only then are puts out of order
  (`FilterOrders.PutsInOrder`).
- The counter of an AnyOf whose inputs were partly processed when it was made is never freed
  (`src/cond.c:42-45`); `Conditions.Follows` says exactly when it is.

## Model

| member | source | states |
|---|---|---|
| `Wakeups.SuspendedProcess` | src/process.c:42-74 | in every history, a started process that is suspended between steps has its resume event queued, once and for the current time, exactly when the transcript says a switch to it is due; and its yielded event is unprocessed and still holds its waiter callback exactly when the transcript says it waits |
| `Wakeups.SuspendedOneWay` | src/process.c:147-178 | such a process is always in one of the two conditions, and in both only with an interrupt pending; once its event has been processed and no interrupt is pending, the value it will be resumed with is the one the event had |
| `Wakeups.YieldGivesBoth` | src/process.c:147-154 | a yielding process gets into both conditions if and only if the event is unprocessed and its resume was queued before the call, which takes a pending interrupt; so "exactly one of the two" holds outside this case |
| `Wakeups.TranscriptAllowed` | src/process.c:147-167 | for every user code and history: each return from sim_yield was due, happened once for it, and returned the first pending cause, flagged, or else the value the yielded event had when it was processed; each process started once; stale waiter callbacks, recycled events and reused structs cause no return |
| `Wakeups.NewProcessWillStart` | src/process.c:96-133 | a process that has been created, on a new struct or a dead one's, has its first switch in the queue |
| `InterruptCalls.InterruptStatus` | src/process.c:169-178 | an interrupt of a live process leaves the first cause pending, calls the wait off if it is the first, and changes nothing if one is pending; afterwards the first cause is due for delivery if and only if the process is alive and none was pending, or the pending one was due |
| `Wakeups.DeliveryStep` | src/process.c:147-178 | while an interrupt is to be delivered, a move of the machine leaves the clock alone and either keeps it so, with the same cause whatever further interrupts come, or hands control to the process with that cause |
| `Wakeups.InterruptDelivered` | src/process.c:156-178 | over any continuation of any history: the interrupt is still due at the same time, or the first switch to the process after it returned the cause from sim_yield at that time |
| `InterruptCalls.InterruptCall` | src/process.c:169-178 | for every call in every history: in every continuation the next switch to the process answers it, at the time of the call and with the first pending cause, if and only if the process is alive and no interrupt was pending, or the pending one is due (the switch is a return from sim_yield, or the start for a process not started yet) |
| `InterruptCalls.InterruptIgnored` | src/process.c:169-171 | a call on a process that is not alive or has an interrupt pending changes nothing but the transcript |
| `InterruptCalls.DroppedCall` | src/process.c:169-171 | a call on a started process with an interrupt pending and no switch due changes nothing at all |
| `InterruptCalls.OverlookedUntilNoticed` | src/process.c:147-171 | over any continuation the process stays in that state, however often it is interrupted, until the event it waits for is dispatched or it, having control, yields a processed event or ends |
| `InterruptCalls.OverlookedIsEarly` | src/process.c:77-80 | in every transcript of the kernel, that state comes only from an interrupt taken before the start of the process and pending ever since |
| `InterruptCalls.StartOverlooks` | src/process.c:77-80 | and it always comes from one: a process started with an interrupt pending is in that state, because the start delivers nothing |
| `Wakeups.InterruptedOnce` | src/process.c:158-164 | between two interrupted returns of a process there was an interrupt of it: one interrupt is delivered once |
| `EarlyInterrupts.EarlyInterruptWaits` | src/process.c:169-178 | a concrete history showing that the guarantee fails for a process interrupted before its start: it ends suspended with the interrupt pending and no switch due |
| `EarlyInterrupts.SecondInterruptDropped` | src/process.c:169-171 | the same history with a second interrupt, of the process that now waits: it is dropped, and nothing is due |
| `EarlyInterrupts.SelfInterruptGivesBoth` | src/process.c:147-178 | a concrete history in which a process interrupts itself and yields a pending event: it waits for the event and its resume is queued as well |
| `Causes.CauseIsPending` | src/process.c:158-178 | in every history the cause stored for a live process is that of the interrupt it has pending, and NULL if it has none |
| `Causes.ClearedOnReturn` | src/process.c:158-167 | from each return from sim_yield, flagged as an interrupt or not, until the next interrupt of the process, the stored cause is NULL |
| `Causes.FlagTellsLastReturn` | src/process.c:157-165 | in every history the flag read by sim_process_was_interrupted tells whether the last return of the process from sim_yield, since it was created, was an interrupt; on a reused struct too |
| `Wakeups.ClockStands` | src/process.c:54-74 | while a switch to some process is due no move advances the clock |
| `Wakeups.AheadStep` | src/process.c:71-73 | no move puts an entry before a queued resume; each dispatch until its own is of an entry that was ahead of it |
| `Wakeups.SwitchIsNear` | src/process.c:54-74 | over any continuation in which a queued resume has not been dispatched, at most the entries ahead of it have been, and the clock has not moved: a due switch is not postponed for ever |
| `Wakeups.ProcessesAccounted` | src/process.c:86-91 | the free list of process structs holds the dead processes and no others, once each, in every history |
| `Wakeups.DispatchOrder` | src/env.c:71-94 | in every history the dispatched keys (time, priority, seq) strictly increase, events of one time come out in the order they were scheduled, and nothing queued lies in the past or before anything dispatched |
| `Wakeups.ClockForward` | src/env.c:90-94 | no move sets the clock back |
| `Wakeups.TriggeredAreQueued` | src/event.c:44-81 | in every history the triggered events are exactly those in the queue, with one entry each |
| `Wakeups.PoolApart` | src/event.c:14-38 | in every history the free list has no duplicates and holds only processed events without callbacks, none of them queued, being dispatched, waited for, or a process's resume or done event |
| `Recycling.NothingLeaks` | src/event.c:114-120 | in every history an event is in the free list if and only if it can be used again: one of a timeout, store or container call once its dispatch is over, one of a request once it has been released, and no other |
| `Recycling.GrowsOnlyIfEmpty` | src/event.c:16-28 | no move adds an event or process struct while the free list it would come from has one, and none adds two |
| `Recycling.NewHandle` | src/event.c:14-38 | a new handle is pending, ok, without value, reason or callbacks, recyclable exactly for store and container calls, comes from the free list or new memory, and nothing else changes |
| `Runs.ApplyInv` | src/event.c:108-121 | every move of the machine, whatever the user code, keeps the full invariant of events, queue, processes, free lists, dispatch loop and transcript |
| `Runs.ReachInv` | src/env.c:108-134 | the invariant holds after every history: any user code, any number of steps, host calls, and runs up to a time |
| `Callbacks.CalledInOrder` | src/event.c:95-121 | in every history each user callback is called once per registration, by the dispatch of its event, in the order of registration; when a dispatch is over none of its callbacks is still to be called, and a processed event has none registered |
| `Registrations.CallbacksAsRegistered` | src/event.c:95-113 | in every history the callbacks of an event, waiting processes and user callbacks alike, are exactly those registered since it was last dispatched, in the order of registration; and those still to be called in a dispatch are the last of those it started with |
| `Registrations.WaiterQueuesLast` | src/process.c:42-47 | a process whose wait is over joins the queue for the current time behind everything due by then, so processes that wait for one event are switched to in the order in which they yielded it |
| `Registrations.LateSubscriber` | src/event.c:95-101 | a callback registered on a processed event is called at once with its own argument, and nothing else changes |
| `Registrations.YieldReadsValue` | src/process.c:147-153 | a yield shows in the transcript whether the event had been processed and the value it has, which is what sim_yield will return if it had |
| `Firings.EntryStep` | src/event.c:108-113 | whatever a move does, a queued entry either stays queued with its event as it was triggered but for new callbacks, or is dispatched: at its time, with that value, running exactly the callbacks it has then |
| `Firings.FiresOnTime` | src/event.c:44-51 | the same over every continuation of every history |
| `Firings.TimeoutOnTime` | src/event.c:57-65 | a timeout of delay d >= 0 made at time t is, in every continuation, dispatched at exactly t + d with the value it was given, or still queued for then |
| `Firings.SucceedOnTime` | src/event.c:67-73 | a pending event that is succeeded gets the value, is ok, and is dispatched so at the same time or still queued for then, in every continuation; on any other event the call does nothing, so the first trigger wins |
| `Firings.FailOnTime` | src/event.c:75-81 | a pending event that is failed is not ok, has the reason and keeps its value, and is dispatched so at the same time or still queued for then, in every continuation; on any other event the call does nothing |
| `Firings.EndIsAnnounced` | src/process.c:81-85 | in every history the done event of a process that has ended has been processed or is queued, whether it was asked for before or after the end |
| `Firings.ProcessEventDone` | src/process.c:135-145 | a done event asked for after the end is triggered at once |
| `Firings.ReturnDone` | src/process.c:77-91 | the end of a process triggers its done event, if it has one that is pending |
| `Dones.DoneIsPending` | src/process.c:135-145 | in every history, the event handed out for a live process since it was created is the one its struct has, and is pending, without value and not queued, unless user code triggered it itself |
| `Dones.AskedAgain` | src/process.c:135-145 | sim_process_event shows the handle it returns; a later call returns the same one and changes nothing else |
| `Dones.EndTriggers` | src/process.c:81-85 | the end of a process queues its untouched event for that time, ok and with no value, and in every continuation it is dispatched then or still queued for then |
| `Dones.LateAskTriggers` | src/process.c:140-142 | an event first asked for after the end of the process is queued so by that call |
| `Runs.CallMade` | src/event.c:40-106 | a move that makes a legal call, of the host or of user code, leads to exactly the state the call gives |
| `Split.BeforeIsEarlier` | src/env.c:119-128 | for NORMAL entries the sentinel test is exactly `time < until`: events at `until` are excluded |
| `Split.SentinelOrder` | src/env.c:115-127 | the test of the loop is the heap's own order against an entry (until, URGENT, the number taken) |
| `Entries.KeyOrder` | src/heap.c:9-15 | the keys are strictly and totally ordered: by time, then priority, then number |
| `Split.RunUntilCuts` | src/env.c:114-134 | of the entries queued at the start, sim_run_until dispatches exactly those earlier than `until` and leaves exactly the others queued; everything it dispatches is earlier and everything it leaves is not; the clock ends at `until` unless it was later; the invariant is kept |
| `Split.LoopIsHistory` | src/env.c:108-112 | from a reachable state, the loop of sim_run or sim_step leads to the state of a longer history, so all that is proved of histories holds there |
| `Split.RunUntilIsHistory` | src/env.c:114-134 | and so does sim_run_until, its sentinel and its clock included |
| `Split.ShiftKeepsOrder` | src/heap.c:9-15 | renaming the sequence numbers from some number on keeps the order of keys |
| `Split.SplitRun` | src/env.c:114-134 | for a <= b, if sim_run_until(b) ends, so do sim_run_until(a) and then sim_run_until(b), in the same state but for sequence numbers, which are one higher after the cut |
| `Split.JoinRun` | src/env.c:114-134 | conversely, if both halves end so does the whole, in the same state up to the same renaming |
| `Split.ShiftIsInvisible` | src/env.c:114-134 | the renaming leaves the clock, events, processes, free lists, transcript and the order and times of all dispatches as they were |
| `EventHeap.Heap.Grow` | src/heap.c:29-33 | growth doubles the capacity, 32 at first, and keeps the entries in place |
| `EventHeap.Heap.SiftUp` | src/heap.c:35-43 | repairs heap order when only the last node may be smaller than its parent, and loses no entry |
| `EventHeap.Heap.SiftDown` | src/heap.c:45-54 | repairs heap order when only the root may be larger than its children, and loses no entry |
| `EventHeap.BestOf` | src/heap.c:46-49 | the smallest of a node and its children, no child being smaller |
| `EventHeap.Heap.Push` | src/heap.c:56-61 | adds exactly the entry, across growth, and keeps heap order |
| `EventHeap.Heap.Pop` | src/heap.c:63-72 | fails exactly when empty; otherwise returns a least entry under the key order, removes exactly it, and keeps heap order |
| `EventHeap.Heap.Peek` | src/heap.c:74-78 | fails exactly when empty; otherwise returns a least entry |
| `EventHeap.Heap.Drain` | src/heap.c:56-72 | popping until empty returns all entries in sorted order |
| `EventHeap.RootIsLeast` | src/heap.c:35-54 | heap order between parents and children makes the root least of all |
| `EventHeap.MoveLastToRoot` | src/heap.c:65-70 | putting the last entry in the root's place removes the root and breaks heap order at the root only |
| `Environment.Env.constructor` | src/env.c:10-15 | an empty environment at time 0 with an empty heap |
| `Environment.Env.Alloc` | src/event.c:14-38 | takes the head of the free list, reset, or a new event, as the model says |
| `Environment.Env.Schedule` | src/event.c:44-51 | pushes the entry (now + delay, NORMAL, next number) on the array heap, which stays in step with the model's queue |
| `Environment.Env.Timeout` | src/event.c:57-65 | the model's timeout: born triggered, recyclable, scheduled |
| `Environment.Env.Succeed` | src/event.c:67-73 | no effect unless pending; else triggered with the value and scheduled for now |
| `Environment.Env.Fail` | src/event.c:75-81 | no effect unless pending; else triggered, not ok, with the reason, and scheduled for now |
| `Environment.Env.Append` | src/event.c:102-105 | the callback joins the end of the event's array |
| `Environment.Env.ScheduleResume` | src/process.c:54-74 | coalesces onto a pending resume, else resets or allocates the resume event, subscribes the one callback and schedules it: equal to the model's step |
| `Environment.Env.Spawn` | src/process.c:96-133 | a process on a reused or new struct, its resume scheduled |
| `Environment.Env.ProcessEvent` | src/process.c:135-145 | the done event, made on the first call and triggered at once if the process is dead |
| `Environment.Env.Suspend` | src/process.c:147-154 | the part of sim_yield before the switch |
| `Environment.Env.AfterSwitch` | src/process.c:156-166 | the part of sim_yield after the switch: the wait and a pending interrupt are cleared, and the cause or the resume value returned |
| `Environment.Env.Interrupt` | src/process.c:169-178 | no effect on dead or already interrupted processes; else the cause is stored, the wait called off and the resume scheduled |
| `Environment.Env.Exit` | src/process.c:81-91 | the done event, if asked for and pending, succeeds; the struct goes to the free list |
| `Environment.Env.Resume` | src/process.c:29-37 | nothing for a dead process; else the process runs until it yields or returns |
| `Environment.Env.Waiter` | src/process.c:42-47 | passes the event's value on to schedule_resume unless the process is dead or has moved on |
| `Environment.Env.RunCallbacks` | src/event.c:108-121 | the callbacks of the snapshot are run in order and the event is then recycled if it is recyclable: the same machine steps as the model's loop, whatever the callbacks do |
| `Environment.Env.Call` | src/event.c:40-106 | each call, of user code during a dispatch or of the host between steps, takes the concrete state to the state the model gives |
| `Environment.Env.Step` | src/env.c:71-94 | reports an empty queue; else dispatches exactly the least entry, with all its callbacks |
| `Environment.Env.StepOnce` | src/env.c:71-94 | sim_step as the host calls it: equals the model's loop for one more dispatch, which is of the least entry; reports an empty queue |
| `Environment.Env.Run` | src/env.c:108-112 | equals the model's loop; on return the queue is empty and the result is the number of dispatches |
| `Environment.Env.Earlier` | src/env.c:121-128 | the sentinel test on the head of the heap decides exactly whether the model's loop is over |
| `Environment.Env.RunUntil` | src/env.c:114-134 | equals the model's sim_run_until and returns the number of dispatches, so the theorems about splitting and cut-off are about this loop |
| `Stores.RefinesFifo` | src/store.c:73-118 | after any calls the k-th get has the k-th put's item whenever both exist, puts have completed in call order, with capacity c > 0 exactly min(puts, matched gets + c) of them, and buffer and queues are the unmatched stretches of the calls |
| `Stores.AnswersInOrder` | src/store.c:73-118 | everything a store hands to the kernel, and the order of it, is a function of the calls alone: which get is served which item, which put completes, and which of the two first |
| `Stores.PutStep` | src/store.c:73-95 | one put takes the state determined by a history to the one determined by the longer history |
| `Stores.GetStep` | src/store.c:97-118 | the same for one get |
| `Stores.Store.ItemPush` | src/store.c:45-52 | the item joins the end of the buffer, and is counted |
| `Stores.Store.ItemPop` | src/store.c:54-62 | the first item leaves the buffer, and is counted out |
| `Stores.Store.Put` | src/store.c:73-95 | direct hand-off, buffering or queueing, with the events succeeded in the program's order: equal to the step the FIFO theorem is about |
| `Stores.Store.Get` | src/store.c:97-118 | takes the first item and lets the first waiting put in, or queues: equal to the step the FIFO theorem is about |
| `Containers.PutQuiet` | src/container.c:75-86 | a put leaves nobody waiting who could be served, keeps the level within bounds, and serves both queues from the front, though it wakes getters only |
| `Containers.GetQuiet` | src/container.c:88-99 | the same for a get, which wakes putters only |
| `Containers.FairAndConserving` | src/container.c:53-99 | after any calls: 0 <= level <= capacity, the first getter wants more than the level and the first putter does not fit; the calls that went through are, in each queue, a prefix of the calls made, in order; level = init + puts through - gets through |
| `Containers.OwnFirst` | src/container.c:75-99 | a call goes through at once exactly if nobody of its kind waits and the level allows it; its own completion comes first, then those of the other kind that it lets through |
| `Containers.WakeGetsServes` | src/container.c:53-62 | the wake loop serves getters from the front and stops only at one that cannot be served |
| `Containers.WakePutsServes` | src/container.c:64-73 | the same for putters |
| `Containers.Container.TryWakeGets` | src/container.c:53-62 | the loop over the fields does what the specification says |
| `Containers.Container.TryWakePuts` | src/container.c:64-73 | the loop over the fields does what the specification says |
| `Containers.Container.Put` | src/container.c:75-86 | the whole call on the fields equals the step the theorem is about |
| `Containers.Container.Get` | src/container.c:88-99 | the whole call on the fields equals the step the theorem is about |
| `FilterStores.PutKeeps` | src/filter_store.c:108-143 | no waiting getter accepts a buffered item, and the count is within a positive capacity, after every put |
| `FilterStores.GetKeeps` | src/filter_store.c:145-191 | and after every get, for every family of filters |
| `FilterStores.HandOverOne` | src/filter_store.c:75-106 | with one new item at the end of a buffer nobody wanted, the one dispatch pass can match only that item, gives it to the earliest getter that accepts it, and restores the invariant |
| `FilterStores.GetFirstFit` | src/filter_store.c:145-179 | a get takes the earliest item it accepts; if a put waits it completes, and its item goes to the earliest getter that accepts it or into the buffer |
| `FilterStores.PutFirstFit` | src/filter_store.c:122-137 | an unblocked put goes to the earliest getter that accepts its item |
| `FilterStores.PutBuffers` | src/filter_store.c:139-142 | an unblocked put whose item no waiting getter accepts goes to the end of the buffer, completes, and changes nothing else |
| `FilterStores.GetKeepsFullUnless` | src/filter_store.c:164-175 | "puts wait only at a full buffer" survives a get if and only if it is not the case that two puts waited, the get found an item, and the first put's item is one a waiting getter accepts |
| `FilterStores.PutKeepsFull` | src/filter_store.c:112-143 | a put never breaks it |
| `FilterStores.FreeSlotExample` | src/filter_store.c:164-175 | five calls on a store of one slot that leave the buffer empty and a put waiting |
| `FilterLedgers.RefinesLedger` | src/filter_store.c:75-191 | after any calls the buffer holds, in the order in which their puts completed, exactly the items not delivered, and the getters wait in the order of their calls; each get took, of the items then left that it accepts, the one whose put completed first, each item went to the first getter left that accepts it, and the outputs are those, in that order |
| `FilterLedgers.DoneInOrder` | src/filter_store.c:139-142 | the puts the ledger has as completed are those whose completion was handed out, in that order |
| `FilterLedgers.ItemFound` | src/filter_store.c:151-161 | the scan from the head finds the earliest item left that is accepted, and unlinking it leaves the rest in order |
| `FilterOrders.PutsInOrder` | src/filter_store.c:108-191 | for puts with events of their own: over any calls, those that completed followed by those that wait are the put calls in order if and only if no put was made while another waited and a slot was free |
| `FilterOrders.FullKeepsOrder` | src/filter_store.c:108-120 | in particular as long as puts wait only at a full buffer |
| `FilterOrders.OvertakingExample` | src/filter_store.c:112-142 | after those five calls a sixth, a put, completes while the third put call waits on |
| `FilterStores.Conserving` | src/filter_store.c:108-191 | after any calls: items put = buffered + held by waiting puts + delivered, as multisets; every delivered item satisfies its getter's filter; the two invariants hold |
| `FilterStores.FilterStore.TryDispatchToWaiters` | src/filter_store.c:75-106 | the two nested scans find the first getter that accepts a buffered item and the first such item |
| `FilterStores.FilterStore.BufferItem` | src/filter_store.c:64-71 | the item joins the end of the buffer, and is counted |
| `FilterStores.FilterStore.TakeItem` | src/filter_store.c:157-162 | the item found is unlinked, counted out and delivered |
| `FilterStores.FilterStore.Put` | src/filter_store.c:108-143 | equals the step the theorems are about |
| `FilterStores.FilterStore.Get` | src/filter_store.c:145-191 | equals the step the theorems are about |
| `RankedLists.InsertSorted` | src/priority_store.c:60-71 | the insertion loop over the list equals the specified insertion |
| `RankedLists.InsertKeeps` | src/priority_store.c:60-71 | inserting a newcomer keeps the list strictly sorted by (priority, seq) and adds exactly it |
| `RankedLists.PlaceOfNewest` | src/priority_resource.c:42-53 | a newcomer goes behind everyone of its own or a better priority and ahead of everyone else |
| `PriorityStores.PutKeeps` | src/priority_store.c:73-115 | the list stays sorted, getters wait only at an empty buffer and putters only at a full one; an item a put delivers is its own, to an empty buffer |
| `PriorityStores.GetKeeps` | src/priority_store.c:117-153 | the same for a get; what it delivers is least among the items buffered at that moment |
| `PriorityStores.OrderedAndConserving` | src/priority_store.c:60-153 | after any calls: the invariants; puts complete and gets are served in call order; items put = buffered + held by waiting puts + delivered, with their priorities |
| `PriorityStores.ItemsOfCalls` | src/priority_store.c:60-153 | after any calls: the first put calls have completed and the others wait in order; each buffered or delivered item has the priority, the item and, as its number, the place of its put call, and each completed call's item is buffered or delivered, once; so a get takes the least by the priorities passed and then by the order of the puts |
| `PriorityStores.PriorityStore.ItemInsertSorted` | src/priority_store.c:60-71 | insertion into the list, counted |
| `PriorityStores.PriorityStore.Put` | src/priority_store.c:73-115 | equals the step the theorems are about |
| `PriorityStores.PriorityStore.Get` | src/priority_store.c:117-153 | equals the step the theorems are about |
| `PriorityResources.DoKeeps` | src/priority_resource.c:55-86 | a call keeps in_use within capacity, the queue sorted, and nobody waiting at a free slot; the request is granted or queued with its priority, a release grants to the first in line, and pools the request if it has been processed |
| `PriorityResources.Accounted` | src/priority_resource.c:55-86 | after any calls every request, with the priority it was made with, has been granted or is queued, once each; in_use = grants - effective releases; and exactly the processed requests of those releases have been pooled, in order |
| `PriorityResources.WaitersTied` | src/priority_resource.c:60-67 | every waiter has the event and the priority of the call it stands for, and numbers follow the order of the calls |
| `PriorityResources.ReleaseServesFirst` | src/priority_resource.c:71-85 | a release with calls waiting grants exactly the one of them with the least priority passed to the call, the first made among equals, before it pools the released request, and leaves the others in line |
| `PriorityResources.PriorityResource.Request` | src/priority_resource.c:55-69 | equals the step the theorems are about |
| `PriorityResources.PriorityResource.Release` | src/priority_resource.c:71-86 | equals the step the theorems are about, including the early return and the pooling of a processed request |
| `PreemptiveResources.Weakest` | src/preemptive_resource.c:74-88 | the first holder in the list among those with the largest priority value |
| `PreemptiveResources.RequestKeeps` | src/preemptive_resource.c:102-146 | a request keeps in_use = number of holders <= capacity, waiters strictly sorted, none waiting at a free slot, and no waiting preempt request strictly outranking a holder |
| `PreemptiveResources.ReleaseKeeps` | src/preemptive_resource.c:148-174 | and so does a release |
| `PreemptiveResources.EvictsWeakestNewest` | src/preemptive_resource.c:115-133 | an eviction removes exactly the most recently granted of the holders with the largest priority value, strictly worse than the newcomer, and the newcomer takes its place |
| `PreemptiveResources.RequestDecides` | src/preemptive_resource.c:109-145 | a request is granted if a slot is free, evicts if it may preempt and some holder has a larger priority value, and otherwise waits, with all that was passed |
| `PreemptiveResources.ReleaseOfHeld` | src/preemptive_resource.c:148-174 | releasing a held request takes exactly it off, lets the first waiter in with that one's process and priority, and then pools the request if it has been processed |
| `PreemptiveResources.ReleaseOfOther` | src/preemptive_resource.c:148-174 | releasing a request that is not held, evicted or waiting, frees no slot and grants none |
| `PreemptiveResources.Accounted` | src/preemptive_resource.c:102-174 | after any calls the invariants hold; every request made, with the process and the priority it was made with, is once, as multisets, holding, waiting, or gone by eviction or its release; those that hold or are gone are those granted; and exactly the processed ones of those released have been pooled, in order |
| `PreemptiveCalls.AllTied` | src/preemptive_resource.c:90-100 | in every history each waiter and each holder has the event, the process and the priority of the call it stands for (a waiter also its right to preempt) |
| `PreemptiveCalls.ReleaseServesFirst` | src/preemptive_resource.c:159-168 | the release of a held request with calls waiting grants the one of them with the least priority passed to the call, the first made among equals |
| `PreemptiveResources.OneStatus` | src/preemptive_resource.c:102-174 | a request made once, for a process and with a priority, is at any time exactly one of waiting, holding, evicted and released, and that once |
| `PreemptiveResources.BestHold` | src/preemptive_resource.c:102-174 | when every request may preempt, every holder's priority value is at most every waiter's, through grants, evictions and releases |
| `PreemptiveResources.PreemptiveResource.FindWeakest` | src/preemptive_resource.c:74-88 | the scan finds the specified holder |
| `PreemptiveResources.PreemptiveResource.InsertWaiter` | src/preemptive_resource.c:59-70 | sorted insertion, counted |
| `PreemptiveResources.PreemptiveResource.Add` | src/preemptive_resource.c:90-100 | the holder joins the front of the list, counted |
| `PreemptiveResources.PreemptiveResource.Request` | src/preemptive_resource.c:102-146 | equals the step the theorems are about |
| `PreemptiveResources.PreemptiveResource.FindHolder` | src/preemptive_resource.c:150-151 | the scan finds the first holder with the request |
| `PreemptiveResources.PreemptiveResource.GiveUp` | src/preemptive_resource.c:149-157 | the holder, if there is one, leaves and frees its slot; otherwise nothing changes |
| `PreemptiveResources.PreemptiveResource.LetWaiterIn` | src/preemptive_resource.c:159-168 | the first waiter takes a free slot and is granted its request |
| `PreemptiveResources.PreemptiveResource.Release` | src/preemptive_resource.c:148-174 | equals the step the theorems are about |
| `Evictions.EvictedOwnerIsTold` | src/preemptive_resource.c:115-133 | resource and kernel together, after any calls: the process passed to the call that made the evicted request is answered by the next switch to it, at the time of the eviction, if and only if it is alive and no interrupt was pending, which makes the new request the cause, or the pending one was due, whose cause it gets instead; with one pending that is not due it is left as it was |
| `Evictions.ReleaseCalls` | src/preemptive_resource.c:159-173 | the calls a release makes on the kernel: the event of the waiter let in succeeds, and then the request goes to the free list if it has been processed |
| `Conditions.Follows` | src/cond.c:14-56 | for any inputs with multiplicity, some processed already and the others later in any order: AllOf's output is triggered exactly when all have been processed and AnyOf's exactly when one has, by one succeed call; the shared counter is never used after it is freed |
| `Conditions.CountMeaning` | src/cond.c:35-41 | the counts mean "all inputs" and "at least one input" |
| `Conditions.FireExact` | src/cond.c:14-25 | the dispatch of one more input, on which there may be several subscriptions, keeps state and inputs in step |
| `Conditions.Condition.constructor` | src/cond.c:27-56 | the two loops over the inputs set the counter up, trigger at once, or subscribe in order, as specified |
| `Conditions.Condition.Called` | src/cond.c:14-25 | one call of the callback, on the fields |
| `Conditions.Condition.InputProcessed` | src/event.c:108-113 | the subscriptions on an input are called once each, in order |

## Left out

- Coroutine switches and stacks (`src/coro.c` and the assembly): a switch is "user code runs until it yields or
  returns".
- Realtime pacing and strict mode (`src/env.c:75-88`, `src/env.c:96-106`): the factor is 0.
- Destroy functions, failing allocation, and the memory behind callback arrays (`cb_grow`): no state of interest.
- `src/resource.c`: the case of equal priorities in `src/priority_resource.c`.
- Rounding and infinities of `double`, and wrap-around of the 64-bit sequence numbers: times and amounts are
  exact reals and numbers are unbounded, so where `level + amount` rounds, the bounds of the container are not
  covered.
- Negative container amounts and an initial level outside [0, capacity]; resources of less than one slot.
- `sim_peek` and the getters of counts, levels and capacities: they read one field.
- A run started from inside a process or callback; filters with side effects.
- A callback called at once by `sim_event_on` on a processed event is part of its caller's code: it is in the
  transcript, but not given a control state of its own.
- Linked lists and their tail pointers are sequences: relinking and aliasing inside a store or resource is not
  modelled.
- What only records history does not exist in the program: an event's `kind`, a holder's `since`, the holder or
  priority named in a `Grant` or `Freed`, the number and priority that a priority store's delivery carries, the
  condition's `calls` and `misused`, and the kernel's `trace`, `log` and `ctl`.
- The output event of a condition is triggered by the condition only; user code that triggers it itself is not
  modelled there.
- `sim_process_was_interrupted` is modelled by the flag in the transcript and `Environment.Env.AfterSwitch`.
- Environment.Env.Run: takes a bound on machine steps, because a program may schedule for ever; it reports when
  the bound was too small.
- Environment.Env.RunUntil: takes the same bound, for a program may loop without advancing the clock;
  `Split.LoopMore` shows that a larger bound does not change a result.
- Wakeups.InterruptDelivered: for a process interrupted before its start it promises the start and not the
  delivery, because the code does not deliver then; `InterruptCalls.StartOverlooks` says what follows.
