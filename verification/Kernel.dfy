/** The simulation kernel as a value: events, processes, the queue, both free lists, the point the
    dispatch loop has reached, and the transcript of what user code did and saw. */
module Kernel {
  import opened Entries

  type EventId = nat   // the address of an event struct: its place in `events`
  type ProcId = nat    // the address of a process struct: its place in `procs`
  type Value = int     // an opaque pointer

  const NULL: Value := 0

  datatype Option<+T> = None | Some(value: T)

  datatype EventState = Pending | Triggered | Processed

  /** The callbacks an event can hold: the two internal ones, or one of user code's. */
  datatype Callback = ResumeCb(p: ProcId) | WaiterCb(p: ProcId) | UserCb(tag: int)

  /** Which call allocated the event. The source has no such field; nothing below branches on it
      except `Legal`, which uses it to say what user code may do with a handle. */
  datatype Kind = Plain | Transient | Request | ResumeOf(p: ProcId) | DoneOf(p: ProcId)

  datatype Event = Event(
    state: EventState, cbs: seq<Callback>, value: Value, ok: bool, reason: Value, recyclable: bool, kind: Kind)

  datatype ProcState = New | Running | Dead

  datatype Proc = Proc(
    done: Option<EventId>, yielded: Option<EventId>, resumeEv: Option<EventId>, resumeValue: Value,
    state: ProcState, interruptPending: bool, cause: Value, wasInterrupted: bool)

  /** Who has control while an event is dispatched: the callback loop, a process, a user callback. */
  datatype Runner = Loop | InProc(p: ProcId) | InUser

  /** Idle: control is with the host program. Dispatch: `e` has been popped, `rest` are the callbacks
      of the snapshot still to be called. */
  datatype Control = Idle | Dispatch(e: EventId, rest: seq<Callback>, who: Runner)

  /** The calls user code can make. */
  datatype Cmd =
    | NewEvent                          // sim_event
    | NewTransient                      // the event of a store or container call
    | NewRequest                        // the event of a resource request
    | Timeout(delay: real, v: Value)
    | Succeed(e: EventId, v: Value)
    | Fail(e: EventId, why: Value)
    | On(e: EventId, tag: int)
    | Spawn
    | ProcEvent(p: ProcId)
    | Interrupt(p: ProcId, c: Value)
    | Recycle(e: EventId)               // the pooling step of a resource release
    | Yield(e: EventId)
    | Return

  /** The transcript. User code is a function of it, so it holds everything user code can observe,
      and no sequence number. */
  datatype Obs =
    | Dispatched(e: EventId, v: Value, at: real)
    | Spawned(p: ProcId)
    | Started(p: ProcId)
    | Yielded(p: ProcId, e: EventId, ready: bool, v: Value)
    | Woke(p: ProcId, v: Value, interrupted: bool)
    | Exited(p: ProcId)
    | Called(tag: int, e: EventId)      // a user callback, by the callback loop
    | Entered(tag: int, e: EventId)     // a user callback, at once, by sim_event_on
    | Left
    | Got(e: EventId)
    | GotDone(p: ProcId, e: EventId)   // by sim_process_event
    | Did(c: Cmd)

  /** All of user code, whatever memory it shares: from what has happened so far to its next call. */
  type User = seq<Obs> -> Cmd

  datatype Kernel = Kernel(
    now: real, nextSeq: nat, queue: set<Entry>, events: seq<Event>, procs: seq<Proc>,
    eventPool: seq<EventId>, procPool: seq<ProcId>, ctl: Control, log: seq<Obs>, trace: seq<Entry>)

  const INIT := Kernel(0.0, 0, {}, [], [], [], [], Idle, [], [])

  // ---------- pointers stay in range ----------

  predicate CbOk(cb: Callback, n: nat) {
    cb.UserCb? || cb.p < n
  }

  predicate CbsOk(cbs: seq<Callback>, n: nat) {
    forall i :: 0 <= i < |cbs| ==> CbOk(cbs[i], n)
  }

  predicate IdOk(o: Option<EventId>, n: nat) {
    o.Some? ==> o.value < n
  }

  predicate ProcOk(pr: Proc, n: nat) {
    IdOk(pr.done, n) && IdOk(pr.yielded, n) && IdOk(pr.resumeEv, n)
  }

  predicate CtlOk(ctl: Control, nEvents: nat, nProcs: nat) {
    ctl.Dispatch? ==> ctl.e < nEvents && CbsOk(ctl.rest, nProcs) && (ctl.who.InProc? ==> ctl.who.p < nProcs)
  }

  ghost predicate Wf(k: Kernel) {
    && (forall e :: 0 <= e < |k.events| ==> CbsOk(k.events[e].cbs, |k.procs|))
    && (forall p :: 0 <= p < |k.procs| ==> ProcOk(k.procs[p], |k.events|))
    && (forall i :: 0 <= i < |k.eventPool| ==> k.eventPool[i] < |k.events|)
    && (forall i :: 0 <= i < |k.procPool| ==> k.procPool[i] < |k.procs|)
    && (forall x :: x in k.queue ==> x.event < |k.events|)
    && CtlOk(k.ctl, |k.events|, |k.procs|)
  }

  // ---------- events (event.c) ----------

  function Fresh(kind: Kind): Event {
    Event(Pending, [], NULL, true, NULL, false, kind)
  }

  /** The address the next allocation returns. */
  function NextEvent(k: Kernel): EventId {
    if k.eventPool != [] then k.eventPool[0] else |k.events|
  }

  function Alloc(k: Kernel, kind: Kind): Kernel
    requires k.eventPool != [] ==> k.eventPool[0] < |k.events|
  {
    if k.eventPool != [] then
      k.(eventPool := k.eventPool[1..], events := k.events[k.eventPool[0] := Fresh(kind)])
    else
      k.(events := k.events + [Fresh(kind)])
  }

  function Schedule(k: Kernel, e: EventId, delay: real): Kernel {
    k.(queue := k.queue + {Entry(k.now + delay, NORMAL, k.nextSeq, e)}, nextSeq := k.nextSeq + 1)
  }

  function SetEvent(k: Kernel, e: EventId, ev: Event): Kernel
    requires e < |k.events|
  {
    k.(events := k.events[e := ev])
  }

  function NewTimeout(k: Kernel, delay: real, v: Value): Kernel
    requires k.eventPool != [] ==> k.eventPool[0] < |k.events|
  {
    var e := NextEvent(k);
    var k1 := Alloc(k, Transient);
    Schedule(SetEvent(k1, e, k1.events[e].(value := v, state := Triggered, recyclable := true)), e, delay)
  }

  function Succeeded(k: Kernel, e: EventId, v: Value): Kernel
    requires e < |k.events|
  {
    if !k.events[e].state.Pending? then k
    else Schedule(SetEvent(k, e, k.events[e].(value := v, ok := true, state := Triggered)), e, 0.0)
  }

  function Failed(k: Kernel, e: EventId, why: Value): Kernel
    requires e < |k.events|
  {
    if !k.events[e].state.Pending? then k
    else Schedule(SetEvent(k, e, k.events[e].(reason := why, ok := false, state := Triggered)), e, 0.0)
  }

  function Subscribed(k: Kernel, e: EventId, cb: Callback): Kernel
    requires e < |k.events|
  {
    SetEvent(k, e, k.events[e].(cbs := k.events[e].cbs + [cb]))
  }

  // ---------- processes (process.c) ----------

  function SetProc(k: Kernel, p: ProcId, pr: Proc): Kernel
    requires p < |k.procs|
  {
    k.(procs := k.procs[p := pr])
  }

  function Say(k: Kernel, o: Obs): Kernel {
    k.(log := k.log + [o])
  }

  /** Puts the process's own resume event, which must exist, back in the queue. */
  function Retrigger(k: Kernel, p: ProcId, r: EventId): Kernel
    requires r < |k.events|
  {
    var ev := k.events[r];
    Schedule(SetEvent(k, r, ev.(state := Triggered, cbs := ev.cbs + [ResumeCb(p)])), r, 0.0)
  }

  function ScheduleResume(k: Kernel, p: ProcId, v: Value): Kernel
    requires Wf(k) && p < |k.procs|
  {
    var pr := k.procs[p].(resumeValue := v);
    if pr.resumeEv.Some? && k.events[pr.resumeEv.value].state.Triggered? then
      SetProc(k, p, pr)
    else if pr.resumeEv.None? then
      var r := NextEvent(k);
      Retrigger(SetProc(Alloc(k, ResumeOf(p)), p, pr.(resumeEv := Some(r))), p, r)
    else
      var r := pr.resumeEv.value;
      var ev := k.events[r].(state := Pending, ok := true, value := NULL, reason := NULL);
      Retrigger(SetEvent(SetProc(k, p, pr), r, ev), p, r)
  }

  function NewProc(resumeEv: Option<EventId>): Proc {
    Proc(None, None, resumeEv, NULL, New, false, NULL, false)
  }

  function NextProc(k: Kernel): ProcId {
    if k.procPool != [] then k.procPool[0] else |k.procs|
  }

  /** The process struct set up, its resume not yet scheduled. */
  function AllocProc(k: Kernel): Kernel
    requires k.procPool != [] ==> k.procPool[0] < |k.procs|
  {
    if k.procPool != [] then
      var p := k.procPool[0];
      k.(procPool := k.procPool[1..], procs := k.procs[p := NewProc(k.procs[p].resumeEv)])
    else
      k.(procs := k.procs + [NewProc(None)])
  }

  lemma AllocProcWf(k: Kernel)
    requires Wf(k)
    ensures Wf(AllocProc(k)) && NextProc(k) < |AllocProc(k).procs|
  {
    var k1 := AllocProc(k);
    forall e | 0 <= e < |k1.events| ensures CbsOk(k1.events[e].cbs, |k1.procs|) {
      assert CbsOk(k.events[e].cbs, |k.procs|);
    }
    assert forall p :: 0 <= p < |k.procs| ==> ProcOk(k.procs[p], |k.events|);
    assert CtlOk(k.ctl, |k.events|, |k.procs|);
  }

  function Spawning(k: Kernel): Kernel
    requires Wf(k)
  {
    AllocProcWf(k);
    ScheduleResume(AllocProc(k), NextProc(k), NULL)
  }

  function ProcessEvent(k: Kernel, p: ProcId): (r: (Kernel, EventId))
    requires Wf(k) && p < |k.procs|
  {
    if k.procs[p].done.Some? then (k, k.procs[p].done.value)
    else
      var d := NextEvent(k);
      var k1 := SetProc(Alloc(k, DoneOf(p)), p, k.procs[p].(done := Some(d)));
      if k.procs[p].state.Dead? then (Succeeded(k1, d, NULL), d) else (k1, d)
  }

  /** The half of sim_yield before the switch. */
  function Suspend(k: Kernel, p: ProcId, e: EventId): Kernel
    requires Wf(k) && p < |k.procs| && e < |k.events|
  {
    var k1 := SetProc(k, p, k.procs[p].(yielded := Some(e)));
    if k.events[e].state.Processed? then ScheduleResume(k1, p, k.events[e].value)
    else Subscribed(k1, e, WaiterCb(p))
  }

  /** What sim_yield returns after the switch back, and the process fields it leaves. */
  function YieldValue(pr: Proc): Value {
    if pr.interruptPending then pr.cause else pr.resumeValue
  }

  function AfterYield(pr: Proc): Proc {
    if pr.interruptPending then
      pr.(yielded := None, interruptPending := false, wasInterrupted := true, cause := NULL)
    else
      pr.(yielded := None, wasInterrupted := false)
  }

  function Interrupting(k: Kernel, p: ProcId, c: Value): Kernel
    requires Wf(k) && p < |k.procs|
  {
    var pr := k.procs[p];
    if pr.state.Dead? || pr.interruptPending then k
    else
      ScheduleResume(SetProc(k, p, pr.(interruptPending := true, cause := c, yielded := None)), p, c)
  }

  /** The end of process_entry, once the process function has returned. */
  function Exiting(k: Kernel, p: ProcId): Kernel
    requires Wf(k) && p < |k.procs|
  {
    var d := k.procs[p].done;
    var k1 := if d.Some? && k.events[d.value].state.Pending? then Succeeded(k, d.value, NULL) else k;
    SetProc(k1, p, k1.procs[p].(state := Dead)).(procPool := [p] + k1.procPool)
  }

  // ---------- the dispatch loop (env.c, event.c) ----------

  lemma {:induction false} LeastExists(q: set<Entry>) returns (x: Entry)
    requires q != {}
    ensures x in q && forall y :: y in q ==> Le(x, y)
    decreases |q|
  {
    x :| x in q;
    if q != {x} {
      var rest := q - {x};
      assert q == rest + {x} && |rest| < |q|;
      var z := LeastExists(rest);
      assert forall y :: y in q ==> y == x || y in rest;
      if EntryLt(z, x) {
        x := z;
      }
    }
  }

  /** The entry the heap hands out next. */
  ghost function Least(q: set<Entry>): (x: Entry)
    requires q != {}
    ensures x in q && forall y :: y in q ==> Le(x, y)
  {
    assert exists x :: x in q && forall y :: y in q ==> Le(x, y) by {
      var x := LeastExists(q);
    }
    var x :| x in q && forall y :: y in q ==> Le(x, y);
    x
  }

  /** The head of sim_step: pop, advance the clock, take the event's callbacks. */
  function PopEntry(k: Kernel, x: Entry): Kernel
    requires x.event < |k.events|
  {
    var ev := k.events[x.event];
    Say(SetEvent(k, x.event, ev.(state := Processed, cbs := [])), Dispatched(x.event, ev.value, x.time))
    .(queue := k.queue - {x}, now := x.time, ctl := Dispatch(x.event, ev.cbs, Loop), trace := k.trace + [x])
  }

  ghost function Pop(k: Kernel): Kernel
    requires Wf(k) && k.queue != {}
  {
    PopEntry(k, Least(k.queue))
  }

  /** resume_cb: switch into the process, which starts or returns from sim_yield. */
  function SwitchIn(k: Kernel, p: ProcId): Kernel
    requires p < |k.procs| && k.ctl.Dispatch?
  {
    var pr := k.procs[p];
    match pr.state
    case Dead => k
    case New =>
      Say(SetProc(k, p, pr.(state := Running)), Started(p)).(ctl := k.ctl.(who := InProc(p)))
    case Running =>
      Say(SetProc(k, p, AfterYield(pr)), Woke(p, YieldValue(pr), pr.interruptPending))
      .(ctl := k.ctl.(who := InProc(p)))
  }

  /** waiter_cb: pass the event's value on, unless the process has moved on. */
  function WaiterFires(k: Kernel, p: ProcId, e: EventId): Kernel
    requires Wf(k) && p < |k.procs| && e < |k.events|
  {
    var pr := k.procs[p];
    if pr.state.Dead? || pr.yielded != Some(e) then k
    else ScheduleResume(k, p, k.events[e].value)
  }

  function DropCallback(k: Kernel): Kernel
    requires k.ctl.Dispatch? && k.ctl.rest != []
  {
    k.(ctl := k.ctl.(rest := k.ctl.rest[1..]))
  }

  lemma DropCallbackWf(k: Kernel)
    requires Wf(k) && k.ctl.Dispatch? && k.ctl.rest != []
    ensures Wf(DropCallback(k)) && CbOk(k.ctl.rest[0], |k.procs|)
  {
    assert CtlOk(k.ctl, |k.events|, |k.procs|);
  }

  /** One turn of the callback loop. */
  function RunCallback(k: Kernel): Kernel
    requires Wf(k) && k.ctl.Dispatch? && k.ctl.rest != []
  {
    DropCallbackWf(k);
    var k1 := DropCallback(k);
    match k.ctl.rest[0]
    case ResumeCb(p) => SwitchIn(k1, p)
    case WaiterCb(p) => WaiterFires(k1, p, k.ctl.e)
    case UserCb(tag) => Say(k1, Called(tag, k.ctl.e)).(ctl := k1.ctl.(who := InUser))
  }

  /** The end of the callback loop: a recyclable event goes to the head of the free list. */
  function Finish(k: Kernel): Kernel
    requires k.ctl.Dispatch? && k.ctl.e < |k.events|
  {
    var k1 := if k.events[k.ctl.e].recyclable then k.(eventPool := [k.ctl.e] + k.eventPool) else k;
    k1.(ctl := Idle)
  }

  // ---------- user code ----------

  /** A handle user code may hold: any event but the processes' own resume events. */
  predicate Handle(k: Kernel, e: EventId) {
    e < |k.events| && !k.events[e].kind.ResumeOf?
  }

  /** What the documented contract lets user code do in state `k`. */
  predicate Legal(k: Kernel, c: Cmd) {
    match c
    case Timeout(d, _) => d >= 0.0
    case Succeed(e, _) => Handle(k, e)
    case Fail(e, _) => Handle(k, e)
    case On(e, _) => Handle(k, e)
    case ProcEvent(p) => p < |k.procs|
    case Interrupt(p, _) => p < |k.procs|
    case Recycle(e) =>
      && Handle(k, e) && k.events[e].kind.Request? && k.events[e].state.Processed?
      && e !in k.eventPool && !(k.ctl.Dispatch? && k.ctl.e == e)
    case Yield(e) => Handle(k, e) && k.ctl.Dispatch? && k.ctl.who.InProc?
    case Return => k.ctl.Dispatch? && !k.ctl.who.Loop?
    case _ => true
  }

  function Exec(k: Kernel, c: Cmd): Kernel
    requires Wf(k) && Legal(k, c)
  {
    var e := NextEvent(k);
    match c
    case NewEvent => Say(Alloc(k, Plain), Got(e))
    case NewTransient =>
      var k1 := Alloc(k, Transient);
      Say(SetEvent(k1, e, k1.events[e].(recyclable := true)), Got(e))
    case NewRequest => Say(Alloc(k, Request), Got(e))
    case Timeout(d, v) => Say(NewTimeout(k, d, v), Got(e))
    case Succeed(x, v) => Say(Succeeded(k, x, v), Did(c))
    case Fail(x, why) => Say(Failed(k, x, why), Did(c))
    case On(x, tag) =>
      if k.events[x].state.Processed? then Say(k, Entered(tag, x))
      else Say(Subscribed(k, x, UserCb(tag)), Did(c))
    case Spawn => Say(Spawning(k), Spawned(NextProc(k)))
    case ProcEvent(p) => var (k1, d) := ProcessEvent(k, p); Say(k1, GotDone(p, d))
    case Interrupt(p, v) => Say(Interrupting(k, p, v), Did(c))
    case Recycle(x) => Say(k.(eventPool := [x] + k.eventPool), Did(c))
    case Yield(x) =>
      var p := k.ctl.who.p;
      Say(Suspend(k, p, x), Yielded(p, x, k.events[x].state.Processed?, k.events[x].value))
      .(ctl := k.ctl.(who := Loop))
    case Return =>
      match k.ctl.who
      case InProc(p) => Say(Exiting(k, p), Exited(p)).(ctl := k.ctl.(who := Loop))
      case _ => Say(k, Left).(ctl := k.ctl.(who := Loop))
  }

  /** One step of the machine inside sim_step. User code that breaks its contract stops it. */
  ghost function Tick(u: User, k: Kernel): Kernel
    requires Wf(k)
  {
    match k.ctl
    case Idle => if k.queue == {} then k else Pop(k)
    case Dispatch(_, rest, Loop) => if rest == [] then Finish(k) else RunCallback(k)
    case Dispatch(_, _, _) => if Legal(k, u(k.log)) then Exec(k, u(k.log)) else k
  }

  // ---------- whole histories ----------

  /** What can happen next: the dispatch loop moves on; or, between steps, the host program makes a
      call, or a sim_run_until starts (taking a number for its sentinel) or ends. */
  datatype Move = Run | Host(c: Cmd) | UntilStart | UntilEnd(t: real)

  /** sim_run_until has come to its end: nothing earlier than `t` is left. */
  ghost predicate NothingBefore(k: Kernel, t: real) {
    forall x :: x in k.queue ==> t <= x.time
  }

  ghost function Apply(u: User, k: Kernel, m: Move): Kernel
    requires Wf(k)
  {
    match m
    case Run => Tick(u, k)
    case Host(c) => if k.ctl.Idle? && Legal(k, c) then Exec(k, c) else k
    case UntilStart => if k.ctl.Idle? then k.(nextSeq := k.nextSeq + 1) else k
    case UntilEnd(t) => if k.ctl.Idle? && NothingBefore(k, t) && k.now < t then k.(now := t) else k
  }

  /** The call the move makes, if it is one. */
  function CallOf(u: User, k: Kernel, m: Move): Option<Cmd> {
    match m
    case Host(c) => if k.ctl.Idle? && Legal(k, c) then Some(c) else None
    case Run => if k.ctl.Dispatch? && !k.ctl.who.Loop? && Legal(k, u(k.log)) then Some(u(k.log)) else None
    case _ => None
  }

  // ---------- every step keeps pointers in range ----------

  lemma WfCtl(k: Kernel)
    requires Wf(k)
    ensures CtlOk(k.ctl, |k.events|, |k.procs|)
  {
  }

  /** `k1` has everything `k` has, and possibly more events. */
  predicate Grows(k: Kernel, k1: Kernel) {
    |k.events| <= |k1.events| && |k.procs| == |k1.procs|
  }

  lemma AllocWf(k: Kernel, kind: Kind)
    requires Wf(k)
    ensures Wf(Alloc(k, kind)) && Grows(k, Alloc(k, kind)) && NextEvent(k) < |Alloc(k, kind).events|
    ensures Alloc(k, kind).events[NextEvent(k)] == Fresh(kind)
  {
    var k1 := Alloc(k, kind);
    assert forall p :: 0 <= p < |k.procs| ==> ProcOk(k.procs[p], |k.events|);
    assert CtlOk(k.ctl, |k.events|, |k.procs|);
  }

  lemma SetProcWf(k: Kernel, p: ProcId, pr: Proc)
    requires Wf(k) && p < |k.procs| && (ProcOk(k.procs[p], |k.events|) ==> ProcOk(pr, |k.events|))
    ensures Wf(SetProc(k, p, pr))
  {
    assert ProcOk(k.procs[p], |k.events|);
  }

  lemma SucceededWf(k: Kernel, e: EventId, v: Value)
    requires Wf(k) && e < |k.events|
    ensures Wf(Succeeded(k, e, v)) && Grows(k, Succeeded(k, e, v))
  {
    assert CbsOk(k.events[e].cbs, |k.procs|);
  }

  lemma ScheduleResumeWf(k: Kernel, p: ProcId, v: Value)
    requires Wf(k) && p < |k.procs|
    ensures Wf(ScheduleResume(k, p, v)) && Grows(k, ScheduleResume(k, p, v))
  {
    var pr := k.procs[p].(resumeValue := v);
    assert ProcOk(k.procs[p], |k.events|);
    if pr.resumeEv.None? {
      AllocWf(k, ResumeOf(p));
      var k1 := Alloc(k, ResumeOf(p));
      assert ProcOk(k1.procs[p], |k1.events|);
      var k2 := SetProc(k1, p, pr.(resumeEv := Some(NextEvent(k))));
      assert Wf(k2);
      RetriggerWf(k2, p, NextEvent(k));
    } else if !k.events[pr.resumeEv.value].state.Triggered? {
      var r := pr.resumeEv.value;
      assert CbsOk(k.events[r].cbs, |k.procs|);
      var ev := k.events[r].(state := Pending, ok := true, value := NULL, reason := NULL);
      RetriggerWf(SetEvent(SetProc(k, p, pr), r, ev), p, r);
    }
  }

  lemma RetriggerWf(k: Kernel, p: ProcId, r: EventId)
    requires Wf(k) && r < |k.events| && p < |k.procs|
    ensures Wf(Retrigger(k, p, r)) && Grows(k, Retrigger(k, p, r))
  {
    assert CbsOk(k.events[r].cbs, |k.procs|);
  }

  lemma ProcessEventWf(k: Kernel, p: ProcId)
    requires Wf(k) && p < |k.procs|
    ensures Wf(ProcessEvent(k, p).0) && Grows(k, ProcessEvent(k, p).0)
  {
    if k.procs[p].done.None? {
      AllocWf(k, DoneOf(p));
      assert ProcOk(Alloc(k, DoneOf(p)).procs[p], |Alloc(k, DoneOf(p)).events|);
      var k1 := SetProc(Alloc(k, DoneOf(p)), p, k.procs[p].(done := Some(NextEvent(k))));
      assert Wf(k1);
      if k.procs[p].state.Dead? { SucceededWf(k1, NextEvent(k), NULL); }
    }
  }

  lemma SuspendWf(k: Kernel, p: ProcId, e: EventId)
    requires Wf(k) && p < |k.procs| && e < |k.events|
    ensures Wf(Suspend(k, p, e)) && Grows(k, Suspend(k, p, e))
  {
    assert ProcOk(k.procs[p], |k.events|);
    var k1 := SetProc(k, p, k.procs[p].(yielded := Some(e)));
    assert Wf(k1);
    if k.events[e].state.Processed? {
      ScheduleResumeWf(k1, p, k.events[e].value);
    } else {
      assert CbsOk(k.events[e].cbs, |k.procs|);
    }
  }

  lemma InterruptingWf(k: Kernel, p: ProcId, c: Value)
    requires Wf(k) && p < |k.procs|
    ensures Wf(Interrupting(k, p, c)) && Grows(k, Interrupting(k, p, c))
  {
    var pr := k.procs[p];
    assert ProcOk(pr, |k.events|);
    if !(pr.state.Dead? || pr.interruptPending) {
      var k1 := SetProc(k, p, pr.(interruptPending := true, cause := c, yielded := None));
      assert Wf(k1);
      ScheduleResumeWf(k1, p, c);
    }
  }

  lemma ExitingWf(k: Kernel, p: ProcId)
    requires Wf(k) && p < |k.procs|
    ensures Wf(Exiting(k, p)) && Grows(k, Exiting(k, p))
  {
    assert ProcOk(k.procs[p], |k.events|);
    var d := k.procs[p].done;
    if d.Some? { SucceededWf(k, d.value, NULL); }
  }

  lemma SayWf(k: Kernel, o: Obs)
    requires Wf(k)
    ensures Wf(Say(k, o))
  {
  }

  lemma AnyAllocWf(k: Kernel, c: Cmd)
    requires Wf(k) && Legal(k, c) && (c.NewEvent? || c.NewTransient? || c.NewRequest? || c.Timeout?)
    ensures Wf(Exec(k, c))
  {
    AllocWf(k, match c case NewEvent => Plain case NewRequest => Request case _ => Transient);
  }

  lemma SubscribedWf(k: Kernel, e: EventId, cb: Callback)
    requires Wf(k) && e < |k.events| && CbOk(cb, |k.procs|)
    ensures Wf(Subscribed(k, e, cb))
  {
    assert CbsOk(k.events[e].cbs, |k.procs|);
  }

  lemma FailedWf(k: Kernel, e: EventId, why: Value)
    requires Wf(k) && e < |k.events|
    ensures Wf(Failed(k, e, why))
  {
    assert CbsOk(k.events[e].cbs, |k.procs|);
  }

  lemma {:induction false} SwitchWf(k: Kernel, c: Cmd)
    requires Wf(k) && Legal(k, c) && (c.Yield? || c.Return?)
    ensures Wf(Exec(k, c))
  {
    assert CtlOk(k.ctl, |k.events|, |k.procs|);
    match c
    case Yield(x) =>
      SuspendWf(k, k.ctl.who.p, x);
      LeaveWf(k, Suspend(k, k.ctl.who.p, x));
    case Return =>
      if k.ctl.who.InProc? {
        ExitingWf(k, k.ctl.who.p);
        LeaveWf(k, Exiting(k, k.ctl.who.p));
      } else {
        LeaveWf(k, k);
      }
  }

  lemma LeaveWf(k: Kernel, k1: Kernel)
    requires Wf(k) && Wf(k1) && Grows(k, k1) && k.ctl.Dispatch?
    ensures forall o :: Wf(Say(k1, o).(ctl := k.ctl.(who := Loop)))
  {
    assert CtlOk(k.ctl, |k.events|, |k.procs|);
  }

  lemma {:induction false} SpawnWf(k: Kernel)
    requires Wf(k)
    ensures Wf(Spawning(k))
  {
    AllocProcWf(k);
    ScheduleResumeWf(AllocProc(k), NextProc(k), NULL);
  }

  lemma RecycleWf(k: Kernel, x: EventId)
    requires Wf(k) && x < |k.events|
    ensures Wf(k.(eventPool := [x] + k.eventPool))
  {
  }

  lemma {:induction false} ExecWf(k: Kernel, c: Cmd)
    requires Wf(k) && Legal(k, c)
    ensures Wf(Exec(k, c))
  {
    hide Wf;
    match c
    case Succeed(x, v) => SucceededWf(k, x, v); SayWf(Succeeded(k, x, v), Did(c));
    case Fail(x, why) => FailedWf(k, x, why); SayWf(Failed(k, x, why), Did(c));
    case On(x, tag) =>
      SayWf(k, Entered(tag, x));
      SubscribedWf(k, x, UserCb(tag));
      SayWf(Subscribed(k, x, UserCb(tag)), Did(c));
    case Spawn => SpawnWf(k); SayWf(Spawning(k), Spawned(NextProc(k)));
    case ProcEvent(p) => ProcessEventWf(k, p); SayWf(ProcessEvent(k, p).0, GotDone(p, ProcessEvent(k, p).1));
    case Interrupt(p, v) => InterruptingWf(k, p, v); SayWf(Interrupting(k, p, v), Did(c));
    case Recycle(x) => RecycleWf(k, x); SayWf(k.(eventPool := [x] + k.eventPool), Did(c));
    case Yield(x) => SwitchWf(k, c);
    case Return => SwitchWf(k, c);
    case _ => AnyAllocWf(k, c);
  }

  lemma {:induction false} RunCallbackWf(k: Kernel)
    requires Wf(k) && k.ctl.Dispatch? && k.ctl.rest != []
    ensures Wf(RunCallback(k))
  {
    DropCallbackWf(k);
    var k1 := DropCallback(k);
    match k.ctl.rest[0]
    case ResumeCb(p) => assert ProcOk(k1.procs[p], |k1.events|);
    case WaiterCb(p) => if k1.procs[p].yielded == Some(k.ctl.e) { ScheduleResumeWf(k1, p, k.events[k.ctl.e].value); }
    case UserCb(tag) => assert CtlOk(k1.ctl, |k.events|, |k.procs|);
  }

  lemma PopWf(k: Kernel)
    requires Wf(k) && k.queue != {}
    ensures Wf(Pop(k))
  {
    var x := Least(k.queue);
    assert CbsOk(k.events[x.event].cbs, |k.procs|);
  }

  lemma {:induction false} TickWf(u: User, k: Kernel)
    requires Wf(k)
    ensures Wf(Tick(u, k))
  {
    match k.ctl
    case Idle => if k.queue != {} { PopWf(k); }
    case Dispatch(e, rest, Loop) =>
      assert CtlOk(k.ctl, |k.events|, |k.procs|);
      if rest != [] { RunCallbackWf(k); }
    case Dispatch(_, _, _) => if Legal(k, u(k.log)) { ExecWf(k, u(k.log)); }
  }

  lemma {:induction false} ApplyWf(u: User, k: Kernel, m: Move)
    requires Wf(k)
    ensures Wf(Apply(u, k, m))
  {
    match m
    case Run => TickWf(u, k);
    case Host(c) => if Legal(k, c) { ExecWf(k, c); }
    case UntilStart =>
    case UntilEnd(t) =>
  }

  /** The state a history of moves leads to. */
  ghost function Reach(u: User, ms: seq<Move>): (k: Kernel)
    ensures Wf(k)
  {
    if ms == [] then INIT
    else
      var k := Reach(u, ms[..|ms| - 1]);
      ApplyWf(u, k, ms[|ms| - 1]);
      Apply(u, k, ms[|ms| - 1])
  }
}
