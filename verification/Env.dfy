/** The kernel as the program runs it: fields updated in place, the array heap for a queue, the callback
    loop over the event's snapshot. Each method is proved to do exactly what the value model says.
    `ctl`, `trace` and `queue` are not stored by the program; they record where it is. `log` is the
    transcript that stands for user code's own memory. */
module Environment {
  import opened Entries
  import opened EventHeap
  import opened K = Kernel
  import opened Split

  class Env {
    var now: real
    var nextSeq: nat
    const heap: Heap
    var events: seq<Event>
    var procs: seq<Proc>
    var eventPool: seq<EventId>
    var procPool: seq<ProcId>
    var log: seq<Obs>
    ghost var queue: set<Entry>
    ghost var ctl: Control
    ghost var trace: seq<Entry>

    ghost function State(): K.Kernel
      reads this
    {
      K.Kernel(now, nextSeq, queue, events, procs, eventPool, procPool, ctl, log, trace)
    }

    /** The array heap holds the queue, and the next number is new. */
    ghost predicate Linked()
      reads this, heap, heap.data
    {
      && heap.Valid() && heap.Contents() == multiset(queue)
      && (forall x :: x in queue ==> x.seqNo < nextSeq)
      && (forall x, y :: x in queue && y in queue && x.seqNo == y.seqNo ==> x == y)
    }

    constructor ()
      ensures State() == INIT && Linked() && fresh(heap) && fresh(heap.data)
    {
      heap := new Heap();
      now, nextSeq, events, procs := 0.0, 0, [], [];
      eventPool, procPool, log := [], [], [];
      queue, ctl, trace := {}, Idle, [];
    }

    // ---------- event.c ----------

    method Alloc(kind: Kind) returns (e: EventId)
      requires Wf(State())
      modifies this`events, this`eventPool
      ensures State() == K.Alloc(old(State()), kind) && e == NextEvent(old(State()))
      ensures Wf(State()) && e < |events| && events[e] == Fresh(kind)
    {
      AllocWf(State(), kind);
      if eventPool != [] {
        e := eventPool[0];
        eventPool := eventPool[1..];
        events := events[e := Fresh(kind)];
      } else {
        e := |events|;
        events := events + [Fresh(kind)];
      }
    }

    method Schedule(e: EventId, delay: real)
      requires Linked()
      modifies this`nextSeq, this`queue, heap, heap.data
      ensures State() == K.Schedule(old(State()), e, delay)
      ensures Linked() && (heap.data == old(heap.data) || fresh(heap.data))
    {
      var he := Entry(now + delay, NORMAL, nextSeq, e);
      heap.Push(he);
      queue := queue + {he};
      nextSeq := nextSeq + 1;
    }

    method Timeout(delay: real, v: Value) returns (e: EventId)
      requires Wf(State()) && Linked()
      modifies this, heap, heap.data
      ensures State() == NewTimeout(old(State()), delay, v) && e == NextEvent(old(State()))
      ensures Linked() && (heap.data == old(heap.data) || fresh(heap.data))
    {
      e := Alloc(Transient);
      events := events[e := events[e].(value := v, state := Triggered, recyclable := true)];
      Schedule(e, delay);
    }

    method Succeed(e: EventId, v: Value)
      requires e < |events| && Linked()
      modifies this, heap, heap.data
      ensures State() == Succeeded(old(State()), e, v)
      ensures Linked() && (heap.data == old(heap.data) || fresh(heap.data))
    {
      if !events[e].state.Pending? { return; }
      events := events[e := events[e].(value := v, ok := true, state := Triggered)];
      Schedule(e, 0.0);
    }

    method Fail(e: EventId, why: Value)
      requires e < |events| && Linked()
      modifies this, heap, heap.data
      ensures State() == Failed(old(State()), e, why)
      ensures Linked() && (heap.data == old(heap.data) || fresh(heap.data))
    {
      if !events[e].state.Pending? { return; }
      events := events[e := events[e].(reason := why, ok := false, state := Triggered)];
      Schedule(e, 0.0);
    }

    method Append(e: EventId, cb: Callback)
      requires e < |events|
      modifies this`events
      ensures State() == Subscribed(old(State()), e, cb)
    {
      events := events[e := events[e].(cbs := events[e].cbs + [cb])];
    }

    // ---------- process.c ----------

    /** The tail of schedule_resume: trigger, subscribe resume_cb, schedule. */
    method Retrigger(p: ProcId, r: EventId)
      requires r < |events| && Linked()
      modifies this`events, this`nextSeq, this`queue, heap, heap.data
      ensures State() == K.Retrigger(old(State()), p, r)
      ensures Linked() && (heap.data == old(heap.data) || fresh(heap.data))
    {
      MarkTriggered(p, r);
      hide Linked;
      Schedule(r, 0.0);
    }

    method MarkTriggered(p: ProcId, r: EventId)
      requires r < |events| && Linked()
      modifies this`events
      ensures Linked() && |events| == old(|events|)
      ensures var ev := old(events)[r];
              State() == SetEvent(old(State()), r, ev.(state := Triggered, cbs := ev.cbs + [ResumeCb(p)]))
    {
      events := events[r := events[r].(state := Triggered)];
      Append(r, ResumeCb(p));
    }

    method ScheduleResume(p: ProcId, v: Value)
      requires Wf(State()) && p < |procs| && Linked()
      modifies this, heap, heap.data
      ensures State() == K.ScheduleResume(old(State()), p, v)
      ensures Linked() && (heap.data == old(heap.data) || fresh(heap.data))
    {
      hide Wf, Linked;
      SetResumeValue(p, v);
      var ev := procs[p].resumeEv;
      if ev.Some? && events[ev.value].state.Triggered? { return; }
      var r := ResumeEvent(p);
      Retrigger(p, r);
    }

    method SetResumeValue(p: ProcId, v: Value)
      requires Wf(State()) && p < |procs| && Linked()
      modifies this`procs
      ensures Wf(State()) && Linked() && p < |procs|
      ensures State() == SetProc(old(State()), p, old(procs)[p].(resumeValue := v))
      ensures IdOk(procs[p].resumeEv, |events|)
    {
      ghost var k := State();
      procs := procs[p := procs[p].(resumeValue := v)];
      SetProcWf(k, p, procs[p]);
      assert ProcOk(procs[p], |events|) by { assert State() == SetProc(k, p, procs[p]); }
    }

    /** The process's resume event: a new one if it has none, or else its own, reset. */
    method ResumeEvent(p: ProcId) returns (r: EventId)
      requires Wf(State()) && p < |procs| && Linked() && IdOk(procs[p].resumeEv, |events|)
      modifies this`events, this`eventPool, this`procs
      ensures Linked() && r < |events|
      ensures var k := old(State()); var pr := old(procs)[p];
              if pr.resumeEv.None? then
                r == NextEvent(k) && State() == SetProc(K.Alloc(k, ResumeOf(p)), p, pr.(resumeEv := Some(r)))
              else
                && r == pr.resumeEv.value
                && State() == SetEvent(k, r, k.events[r].(state := Pending, ok := true, value := NULL, reason := NULL))
    {
      if procs[p].resumeEv.None? {
        r := Alloc(ResumeOf(p));
        procs := procs[p := procs[p].(resumeEv := Some(r))];
      } else {
        r := procs[p].resumeEv.value;
        events := events[r := events[r].(state := Pending, ok := true, value := NULL, reason := NULL)];
      }
    }

    method Spawn() returns (p: ProcId)
      requires Wf(State()) && Linked()
      modifies this, heap, heap.data
      ensures State() == Spawning(old(State())) && p == NextProc(old(State()))
      ensures Linked() && (heap.data == old(heap.data) || fresh(heap.data))
    {
      AllocProcWf(State());
      if procPool != [] {
        p := procPool[0];
        procPool := procPool[1..];
        procs := procs[p := NewProc(procs[p].resumeEv)];
      } else {
        p := |procs|;
        procs := procs + [NewProc(None)];
      }
      ScheduleResume(p, NULL);
    }

    method ProcessEvent(p: ProcId) returns (d: EventId)
      requires Wf(State()) && p < |procs| && Linked()
      modifies this, heap, heap.data
      ensures (State(), d) == K.ProcessEvent(old(State()), p)
      ensures Linked() && (heap.data == old(heap.data) || fresh(heap.data))
    {
      if procs[p].done.None? {
        d := Alloc(DoneOf(p));
        procs := procs[p := procs[p].(done := Some(d))];
        if procs[p].state.Dead? {
          Succeed(d, NULL);
        }
      }
      d := procs[p].done.value;
    }

    /** sim_yield up to the switch. */
    method Suspend(p: ProcId, e: EventId)
      requires Wf(State()) && p < |procs| && e < |events| && Linked()
      modifies this, heap, heap.data
      ensures State() == K.Suspend(old(State()), p, e)
      ensures Linked() && (heap.data == old(heap.data) || fresh(heap.data))
    {
      assert ProcOk(procs[p], |events|);
      procs := procs[p := procs[p].(yielded := Some(e))];
      if events[e].state.Processed? {
        ScheduleResume(p, events[e].value);
      } else {
        Append(e, WaiterCb(p));
      }
    }

    /** sim_yield after the switch back. */
    method AfterSwitch(p: ProcId) returns (v: Value)
      requires p < |procs|
      modifies this`procs
      ensures procs == old(procs)[p := AfterYield(old(procs)[p])] && v == YieldValue(old(procs)[p])
      ensures procs[p].yielded.None? && !procs[p].interruptPending
      ensures procs[p].wasInterrupted == old(procs)[p].interruptPending
    {
      procs := procs[p := procs[p].(yielded := None)];
      if procs[p].interruptPending {
        procs := procs[p := procs[p].(interruptPending := false, wasInterrupted := true)];
        v := procs[p].cause;
        procs := procs[p := procs[p].(cause := NULL)];
        return;
      }
      procs := procs[p := procs[p].(wasInterrupted := false)];
      v := procs[p].resumeValue;
    }

    method Interrupt(p: ProcId, c: Value)
      requires Wf(State()) && p < |procs| && Linked()
      modifies this, heap, heap.data
      ensures State() == Interrupting(old(State()), p, c)
      ensures Linked() && (heap.data == old(heap.data) || fresh(heap.data))
    {
      if procs[p].state.Dead? { return; }
      if procs[p].interruptPending { return; }
      ghost var k := State();
      procs := procs[p := procs[p].(interruptPending := true, cause := c)];
      procs := procs[p := procs[p].(yielded := None)];
      SetProcWf(k, p, procs[p]);
      assert State() == SetProc(k, p, procs[p]);
      hide Wf;
      ScheduleResume(p, c);
    }

    /** process_entry once the process function has returned. */
    method Exit(p: ProcId)
      requires Wf(State()) && p < |procs| && Linked()
      modifies this, heap, heap.data
      ensures State() == Exiting(old(State()), p)
      ensures Linked() && (heap.data == old(heap.data) || fresh(heap.data))
    {
      assert ProcOk(procs[p], |events|);
      var d := procs[p].done;
      if d.Some? && events[d.value].state.Pending? {
        Succeed(d.value, NULL);
      }
      procs := procs[p := procs[p].(state := Dead)];
      procPool := [p] + procPool;
    }

    // ---------- user code's calls ----------

    /** The calls that make an event. */
    method CallAlloc(c: Cmd)
      requires Wf(State()) && Legal(State(), c) && Linked()
      requires c.NewEvent? || c.NewTransient? || c.NewRequest? || c.Timeout?
      modifies this, heap, heap.data
      ensures State() == Exec(old(State()), c)
      ensures Linked() && (heap.data == old(heap.data) || fresh(heap.data))
    {
      hide Wf;
      var e;
      match c {
        case NewEvent => e := Alloc(Plain);
        case NewTransient =>
          e := Alloc(Transient);
          events := events[e := events[e].(recyclable := true)];
        case NewRequest => e := Alloc(Request);
        case Timeout(d, v) => e := Timeout(d, v);
      }
      log := log + [Got(e)];
    }

    /** The other calls that concern events only. */
    method CallEvent(c: Cmd)
      requires Wf(State()) && Legal(State(), c) && Linked()
      requires c.Succeed? || c.Fail? || c.On? || c.Recycle?
      modifies this, heap, heap.data
      ensures State() == Exec(old(State()), c)
      ensures Linked() && (heap.data == old(heap.data) || fresh(heap.data))
    {
      var o := Did(c);
      hide Wf;
      match c {
        case Succeed(e, v) => Succeed(e, v);
        case Fail(e, why) => Fail(e, why);
        case On(e, tag) =>
          if events[e].state.Processed? { o := Entered(tag, e); } else { Append(e, UserCb(tag)); }
        case Recycle(e) => eventPool := [e] + eventPool;
      }
      log := log + [o];
    }

    /** The calls that concern other processes. */
    method CallProcess(c: Cmd)
      requires Wf(State()) && Legal(State(), c) && Linked()
      requires c.Spawn? || c.ProcEvent? || c.Interrupt?
      modifies this, heap, heap.data
      ensures State() == Exec(old(State()), c)
      ensures Linked() && (heap.data == old(heap.data) || fresh(heap.data))
    {
      ghost var k := State();
      var o := Did(c);
      hide Wf, Spawning, K.ProcessEvent, Interrupting;
      match c {
        case Spawn => var q := Spawn(); o := Spawned(q);
        case ProcEvent(q) => var e := ProcessEvent(q); o := GotDone(q, e);
        case Interrupt(q, v) => Interrupt(q, v);
      }
      log := log + [o];
    }

    /** The calls that give up control: yield, and return from the process function or user callback. */
    method CallYield(e: EventId, p: ProcId)
      requires Wf(State()) && Legal(State(), Yield(e)) && Linked() && ctl.who == InProc(p) && p < |procs|
      modifies this, heap, heap.data
      ensures State() == Exec(old(State()), Yield(e))
      ensures Linked() && (heap.data == old(heap.data) || fresh(heap.data))
    {
      ghost var k := State();
      hide Wf;
      var o := Yielded(p, e, events[e].state.Processed?, events[e].value);
      Suspend(p, e);
      ctl := k.ctl.(who := Loop);
      log := log + [o];
    }

    method CallReturn(p: Option<ProcId>)
      requires Wf(State()) && Legal(State(), Return) && Linked() && (p.Some? ==> p.value < |procs|)
      requires ctl.who == if p.Some? then InProc(p.value) else InUser
      modifies this, heap, heap.data
      ensures State() == Exec(old(State()), Return)
      ensures Linked() && (heap.data == old(heap.data) || fresh(heap.data))
    {
      ghost var k := State();
      hide Wf, Exiting;
      var o := Left;
      if p.Some? { Exit(p.value); o := Exited(p.value); }
      ctl := k.ctl.(who := Loop);
      log := log + [o];
    }

    /** One call, of user code while an event is dispatched or of the host between steps; `p` is the process
        that makes it, if one does. */
    method Call(c: Cmd, p: Option<ProcId>)
      requires Wf(State()) && Legal(State(), c) && Linked()
      requires if ctl.Idle? then p.None? else ctl.who == if p.Some? then InProc(p.value) else InUser
      modifies this, heap, heap.data
      ensures State() == Exec(old(State()), c)
      ensures Wf(State()) && Linked() && (heap.data == old(heap.data) || fresh(heap.data))
    {
      assert CtlOk(ctl, |events|, |procs|);
      hide Wf, Exec;
      ExecWf(State(), c);
      match c {
        case Spawn => CallProcess(c);
        case ProcEvent(_) => CallProcess(c);
        case Interrupt(_, _) => CallProcess(c);
        case Yield(e) => CallYield(e, p.value);
        case Return => CallReturn(p);
        case Succeed(_, _) => CallEvent(c);
        case Fail(_, _) => CallEvent(c);
        case On(_, _) => CallEvent(c);
        case Recycle(_) => CallEvent(c);
        case _ => CallAlloc(c);
      }
    }

    /** User code has control and keeps it until it yields or returns. `left` is the fuel not used. */
    method UserRuns(u: User, p: Option<ProcId>, cur: EventId, ghost lim: Limit, fuel: nat) returns (left: nat, ok: bool)
      requires Wf(State()) && Linked() && ctl.Dispatch? && ctl.e == cur
      requires ctl.who == if p.Some? then InProc(p.value) else InUser
      modifies this, heap, heap.data
      ensures Wf(State()) && Linked() && (heap.data == old(heap.data) || fresh(heap.data))
      ensures ctl.Dispatch? && ctl.e == old(ctl).e && ctl.rest == old(ctl).rest && trace == old(trace)
      ensures left <= fuel && (ok ==> ctl.who.Loop?)
      ensures RunLoop(u, old(State()), lim, fuel) == if ok then RunLoop(u, State(), lim, left) else None
    {
      left, ok := fuel, false;
      hide Wf, RunLoop, Tick, Linked;
      while left > 0 && !ok
        invariant Wf(State()) && Linked() && (heap.data == old(heap.data) || fresh(heap.data))
        invariant ctl.Dispatch? && ctl.e == old(ctl).e && ctl.rest == old(ctl).rest && trace == old(trace)
        invariant left <= fuel
        invariant ctl.who == if ok then Loop else if p.Some? then InProc(p.value) else InUser
        invariant RunLoop(u, old(State()), lim, fuel) == RunLoop(u, State(), lim, left)
        decreases left
      {
        OneStep(u, State(), lim, left);
        ok := UserCall(u, p, cur);
        left := left - 1;
      }
      if !ok { OutOfFuel(u, State(), lim); }
    }

    /** The next call of user code; `over` when it gives up control. */
    method UserCall(u: User, p: Option<ProcId>, cur: EventId) returns (over: bool)
      requires Wf(State()) && Linked() && ctl.Dispatch? && ctl.e == cur
      requires ctl.who == if p.Some? then InProc(p.value) else InUser
      modifies this, heap, heap.data
      ensures Wf(State()) && State() == Tick(u, old(State()))
      ensures Linked() && (heap.data == old(heap.data) || fresh(heap.data))
      ensures trace == old(trace) && ctl == if over then old(ctl).(who := Loop) else old(ctl)
    {
      var c := u(log);
      ghost var k := State();
      var legal := IsLegal(c, p, cur);
      over := false;
      hide Wf, Exec, Legal;
      if legal {
        Call(c, p);
        ExecControl(k, c);
        over := c.Yield? || c.Return?;
      }
    }

    lemma ExecControl(k: K.Kernel, c: Cmd)
      requires Wf(k) && Legal(k, c)
      ensures Exec(k, c).trace == k.trace
      ensures Exec(k, c).ctl == if c.Yield? || c.Return? then k.ctl.(who := Loop) else k.ctl
    {
      match c
      case Spawn => AllocProcWf(k);
      case _ =>
    }

    /** Whether the call `c` keeps to user code's contract, while `cur` is being dispatched. */
    method IsLegal(c: Cmd, p: Option<ProcId>, cur: EventId) returns (b: bool)
      requires ctl.Dispatch? && ctl.e == cur && ctl.who == if p.Some? then InProc(p.value) else InUser
      ensures b == Legal(State(), c)
    {
      var who := if p.Some? then InProc(p.value) else InUser;
      b := Legal(K.Kernel(now, nextSeq, {}, events, procs, eventPool, procPool, Dispatch(cur, [], who), log, []), c);
    }

    // ---------- the dispatch loop ----------

    /** resume_cb: switch into `p`, unless it is dead, until it switches back. */
    method Resume(u: User, p: ProcId, cur: EventId, ghost lim: Limit, fuel: nat) returns (left: nat, ok: bool)
      requires Wf(State()) && Linked() && ctl.Dispatch? && ctl.e == cur && ctl.who.Loop? && p < |procs|
      modifies this, heap, heap.data
      ensures Wf(State()) && Linked() && (heap.data == old(heap.data) || fresh(heap.data))
      ensures ctl.Dispatch? && ctl.e == cur && ctl.rest == old(ctl).rest && trace == old(trace)
      ensures left <= fuel && (ok ==> ctl.who.Loop?)
      ensures var k := SwitchIn(old(State()), p);
              && Wf(k)
              && RunLoop(u, k, lim, fuel) == if ok then RunLoop(u, State(), lim, left) else None
    {
      assert ProcOk(procs[p], |events|);
      if procs[p].state.Dead? { return fuel, true; }
      if procs[p].state.New? {
        procs := procs[p := procs[p].(state := Running)];
        log := log + [Started(p)];
      } else {
        var intr := procs[p].interruptPending;
        var v := AfterSwitch(p);
        log := log + [Woke(p, v, intr)];
      }
      ctl := ctl.(who := InProc(p));
      left, ok := UserRuns(u, Some(p), cur, lim, fuel);
    }

    /** waiter_cb. */
    method Waiter(p: ProcId, e: EventId)
      requires Wf(State()) && p < |procs| && e < |events| && Linked()
      modifies this, heap, heap.data
      ensures State() == WaiterFires(old(State()), p, e)
      ensures Linked() && (heap.data == old(heap.data) || fresh(heap.data))
    {
      if procs[p].state.Dead? { return; }
      if procs[p].yielded != Some(e) { return; }
      ScheduleResume(p, events[e].value);
    }

    /** A step of the machine that is not the end of the run. */
    lemma {:induction false} OneStep(u: User, k: K.Kernel, lim: Limit, fuel: nat)
      requires Wf(k) && fuel > 0 && !Done(k, lim)
      ensures Wf(Tick(u, k)) && RunLoop(u, k, lim, fuel) == RunLoop(u, Tick(u, k), lim, fuel - 1)
    {
      TickWf(u, k);
    }

    lemma OutOfFuel(u: User, k: K.Kernel, lim: Limit)
      requires Wf(k) && !Done(k, lim)
      ensures RunLoop(u, k, lim, 0) == None
    {
    }

    lemma {:induction false} StepIsCallback(u: User, k: K.Kernel, lim: Limit, fuel: nat)
      requires Wf(k) && fuel > 0 && k.ctl.Dispatch? && k.ctl.who.Loop? && k.ctl.rest != []
      ensures Wf(DropCallback(k)) && CbOk(k.ctl.rest[0], |k.procs|) && k.ctl.e < |k.events|
      ensures var k1 := AfterDrop(DropCallback(k), k.ctl.rest[0]);
              Wf(k1) && RunLoop(u, k, lim, fuel) == RunLoop(u, k1, lim, fuel - 1)
    {
      RunCallbackWf(k);
      DropCallbackWf(k);
      OneStep(u, k, lim, fuel);
    }

    /** What the callback `cb`, just taken off the snapshot, does first. */
    ghost function AfterDrop(k1: K.Kernel, cb: Callback): K.Kernel
      requires Wf(k1) && k1.ctl.Dispatch? && CbOk(cb, |k1.procs|) && k1.ctl.e < |k1.events|
    {
      match cb
      case ResumeCb(p) => SwitchIn(k1, p)
      case WaiterCb(p) => WaiterFires(k1, p, k1.ctl.e)
      case UserCb(tag) => Say(k1, Called(tag, k1.ctl.e)).(ctl := k1.ctl.(who := InUser))
    }

    /** A user callback has control until it returns. */
    method Enter(u: User, tag: int, e: EventId, ghost lim: Limit, fuel: nat) returns (left: nat, ok: bool)
      requires Wf(State()) && Linked() && ctl.Dispatch? && ctl.e == e && ctl.who.Loop?
      modifies this, heap, heap.data
      ensures Wf(State()) && Linked() && (heap.data == old(heap.data) || fresh(heap.data))
      ensures ctl.Dispatch? && ctl.e == e && ctl.rest == old(ctl).rest && trace == old(trace)
      ensures left <= fuel && (ok ==> ctl.who.Loop?)
      ensures var k := Say(old(State()), Called(tag, e)).(ctl := old(ctl).(who := InUser));
              && Wf(k)
              && RunLoop(u, k, lim, fuel) == if ok then RunLoop(u, State(), lim, left) else None
    {
      hide RunLoop;
      log := log + [Called(tag, e)];
      ctl := ctl.(who := InUser);
      left, ok := UserRuns(u, None, e, lim, fuel);
    }

    /** One callback of the snapshot of event `e`. */
    method CallOne(u: User, cb: Callback, e: EventId, ghost lim: Limit, fuel: nat) returns (left: nat, ok: bool)
      requires Wf(State()) && Linked() && fuel > 0
      requires ctl.Dispatch? && ctl.e == e && ctl.who.Loop? && ctl.rest != [] && ctl.rest[0] == cb
      modifies this, heap, heap.data
      ensures Wf(State()) && Linked() && (heap.data == old(heap.data) || fresh(heap.data))
      ensures ctl.Dispatch? && ctl.e == e && ctl.rest == old(ctl).rest[1..] && trace == old(trace)
      ensures left <= fuel && (ok ==> ctl.who.Loop?)
      ensures RunLoop(u, old(State()), lim, fuel) == if ok then RunLoop(u, State(), lim, left) else None
    {
      hide Wf, RunLoop, Done, Linked, AfterDrop, DropCallback;
      StepIsCallback(u, State(), lim, fuel);
      left, ok := Dropped(u, cb, e, lim, fuel - 1);
    }

    method Dropped(u: User, cb: Callback, e: EventId, ghost lim: Limit, fuel: nat) returns (left: nat, ok: bool)
      requires Wf(State()) && Linked() && ctl.Dispatch? && ctl.e == e && e < |events| && ctl.who.Loop?
      requires ctl.rest != [] && ctl.rest[0] == cb && CbOk(cb, |procs|) && Wf(DropCallback(State()))
      modifies this, heap, heap.data
      ensures Wf(State()) && Linked() && (heap.data == old(heap.data) || fresh(heap.data))
      ensures ctl.Dispatch? && ctl.e == e && ctl.rest == old(ctl).rest[1..] && trace == old(trace)
      ensures left <= fuel && (ok ==> ctl.who.Loop?)
      ensures var k := AfterDrop(DropCallback(old(State())), cb);
              && Wf(k)
              && RunLoop(u, k, lim, fuel) == if ok then RunLoop(u, State(), lim, left) else None
    {
      ghost var k := State();
      ctl := ctl.(rest := ctl.rest[1..]);
      left, ok := fuel, true;
      assert State() == DropCallback(k);
      hide Wf, RunLoop, SwitchIn, WaiterFires, Linked;
      match cb {
        case ResumeCb(p) => left, ok := Resume(u, p, e, lim, fuel);
        case WaiterCb(p) => WaiterControl(State(), p, e); Waiter(p, e);
        case UserCb(tag) => left, ok := Enter(u, tag, e, lim, fuel);
      }
    }

    lemma WaiterControl(k: K.Kernel, p: ProcId, e: EventId)
      requires Wf(k) && p < |k.procs| && e < |k.events|
      ensures WaiterFires(k, p, e).ctl == k.ctl && WaiterFires(k, p, e).trace == k.trace && Wf(WaiterFires(k, p, e))
    {
      if !k.procs[p].state.Dead? && k.procs[p].yielded == Some(e) { ScheduleResumeWf(k, p, k.events[e].value); }
    }

    /** _sim_event_run_callbacks, after the event has been marked processed and its array reset. */
    method RunCallbacks(u: User, e: EventId, cbs: seq<Callback>, ghost lim: Limit, fuel: nat)
      returns (left: nat, ok: bool)
      requires Wf(State()) && Linked() && ctl == Dispatch(e, cbs, Loop)
      modifies this, heap, heap.data
      ensures Wf(State()) && Linked() && (heap.data == old(heap.data) || fresh(heap.data))
      ensures left <= fuel && (ok ==> ctl.Idle?)
      ensures trace == old(trace)
      ensures RunLoop(u, old(State()), lim, fuel) == if ok then RunLoop(u, State(), lim, left) else None
    {
      left, ok := fuel, true;
      var i := 0;
      hide Wf, RunLoop;
      while i < |cbs|
        invariant 0 <= i <= |cbs| && left <= fuel
        invariant Wf(State()) && Linked() && (heap.data == old(heap.data) || fresh(heap.data))
        invariant ok && ctl == Dispatch(e, cbs[i..], Loop) && trace == old(trace)
        invariant RunLoop(u, old(State()), lim, fuel) == RunLoop(u, State(), lim, left)
      {
        if left == 0 {
          OutOfFuel(u, State(), lim);
          return 0, false;
        }
        left, ok := CallOne(u, cbs[i], e, lim, left);
        if !ok { return; }
        i := i + 1;
      }
      if left == 0 {
        OutOfFuel(u, State(), lim);
        return 0, false;
      }
      OneStep(u, State(), lim, left);
      Recycled(e);
      left := left - 1;
    }

    /** The end of _sim_event_run_callbacks. */
    method Recycled(e: EventId)
      requires Wf(State()) && ctl == Dispatch(e, [], Loop)
      modifies this`eventPool, this`ctl
      ensures State() == Finish(old(State()))
    {
      if events[e].recyclable {
        eventPool := [e] + eventPool;
      }
      ctl := Idle;
    }

    /** sim_step. `more` is false exactly when the queue was empty. */
    method Step(u: User, ghost lim: Limit, fuel: nat) returns (more: bool, left: nat, ok: bool)
      requires Wf(State()) && Linked() && ctl.Idle?
      requires !Done(State(), lim) || queue == {}
      modifies this, heap, heap.data
      ensures Wf(State()) && Linked() && (heap.data == old(heap.data) || fresh(heap.data))
      ensures more == (old(queue) != {})
      ensures !more ==> ok && left == fuel && State() == old(State())
      ensures more && ok ==> ctl.Idle? && left < fuel && trace == old(trace) + [Least(old(queue))]
      ensures RunLoop(u, old(State()), lim, fuel) == if ok then RunLoop(u, State(), lim, left) else None
    {
      hide Wf, RunLoop, Tick, Done, Linked, Least;
      left, ok := fuel, true;
      more := NonEmpty();
      if more { left, ok := StepNext(u, lim, fuel); }
    }

    method StepNext(u: User, ghost lim: Limit, fuel: nat) returns (left: nat, ok: bool)
      requires Wf(State()) && Linked() && ctl.Idle? && queue != {} && !Done(State(), lim)
      modifies this, heap, heap.data
      ensures Wf(State()) && Linked() && (heap.data == old(heap.data) || fresh(heap.data))
      ensures ok ==> ctl.Idle? && left < fuel && trace == old(trace) + [Least(old(queue))]
      ensures RunLoop(u, old(State()), lim, fuel) == if ok then RunLoop(u, State(), lim, left) else None
    {
      hide Wf, RunLoop, Tick, Done, Linked, Pop, PopEntry, Least;
      if fuel == 0 {
        OutOfFuel(u, State(), lim);
        return 0, false;
      }
      ghost var k := State();
      OneStep(u, k, lim, fuel);
      TickIsPop(u, k);
      var e, cbs := Begin();
      left, ok := RunCallbacks(u, e, cbs, lim, fuel - 1);
    }

    lemma TickIsPop(u: User, k: K.Kernel)
      requires Wf(k) && k.ctl.Idle? && k.queue != {}
      ensures Tick(u, k) == Pop(k) && Pop(k).trace == k.trace + [Least(k.queue)]
    {
    }

    /** The head of sim_step. */
    method Begin() returns (e: EventId, cbs: seq<Callback>)
      requires Wf(State()) && Linked() && ctl.Idle? && queue != {}
      modifies this, heap, heap.data
      ensures Wf(State()) && State() == Pop(old(State())) && ctl == Dispatch(e, cbs, Loop)
      ensures Linked() && heap.data == old(heap.data)
    {
      ghost var k := State();
      PopWf(k);
      hide Wf;
      var he := Take();
      cbs := Mark(he);
      e := he.event;
      assert State() == Pop(k);
    }

    method NonEmpty() returns (b: bool)
      requires Linked()
      ensures b == (queue != {})
    {
      var he;
      b, he := heap.Peek();
      HeapLeast(he, queue);
    }

    /** Pops the heap and moves the clock. */
    method Take() returns (he: Entry)
      requires Linked() && queue != {}
      modifies this`queue, this`now, heap, heap.data
      ensures he == Least(old(queue)) && now == he.time && queue == old(queue) - {he}
      ensures Linked() && heap.data == old(heap.data)
    {
      var more;
      HeapLeast(Least(queue), queue);
      more, he := heap.Pop();
      HeapLeast(he, queue);
      queue := queue - {he};
      now := he.time;
    }

    /** Marks the popped event processed and takes its callbacks. */
    method Mark(he: Entry) returns (cbs: seq<Callback>)
      requires he.event < |events| && ctl.Idle?
      modifies this`events, this`log, this`ctl, this`trace
      ensures ctl == Dispatch(he.event, cbs, Loop)
      ensures State() == PopEntry(old(State()), he).(queue := old(queue), now := old(now))
    {
      cbs := events[he.event].cbs;
      log := log + [Dispatched(he.event, events[he.event].value, he.time)];
      events := events[he.event := events[he.event].(state := Processed, cbs := [])];
      ctl, trace := Dispatch(he.event, cbs, Loop), trace + [he];
    }

    /** The entry at the root of the heap is the one the model names. */
    lemma HeapLeast(x: Entry, q: set<Entry>)
      requires forall y, z :: y in q && z in q && y.seqNo == z.seqNo ==> y == z
      ensures (multiset(q) != multiset{}) == (q != {})
      ensures IsLeast(x, multiset(q)) ==> q != {} && x == Least(q) && multiset(q) - multiset{x} == multiset(q - {x})
    {
      if q != {} {
        var z := Least(q);
        assert z in multiset(q);
        if IsLeast(x, multiset(q)) {
          assert Le(x, z) && Le(z, x);
        }
      }
    }

    /** sim_step by itself, as the host calls it. */
    method StepOnce(u: User, fuel: nat) returns (more: bool, ok: bool)
      requires Wf(State()) && Linked() && ctl.Idle?
      modifies this, heap, heap.data
      ensures Wf(State()) && Linked() && (heap.data == old(heap.data) || fresh(heap.data))
      ensures more == (old(queue) != {})
      ensures RunLoop(u, old(State()), Count(|old(trace)| + 1), fuel) == if ok then Some(State()) else None
      ensures ok ==> ctl.Idle? && trace == old(trace) + if more then [Least(old(queue))] else []
    {
      hide Wf, Linked, Least, Tick;
      ghost var lim := Count(|trace| + 1);
      var left;
      more, left, ok := Step(u, lim, fuel);
    }

    /** sim_run: `n` events dispatched, none left; or more than `fuel` machine steps were needed. */
    method Run(u: User, fuel: nat) returns (n: nat, ok: bool)
      requires Wf(State()) && Linked() && ctl.Idle?
      modifies this, heap, heap.data
      ensures Wf(State()) && Linked() && (heap.data == old(heap.data) || fresh(heap.data))
      ensures RunLoop(u, old(State()), Never, fuel) == if ok then Some(State()) else None
      ensures ok ==> ctl.Idle? && queue == {} && |trace| == |old(trace)| + n
    {
      var left, more := fuel, true;
      n, ok := 0, true;
      while more
        invariant Wf(State()) && Linked() && (heap.data == old(heap.data) || fresh(heap.data))
        invariant ok && ctl.Idle? && |trace| == |old(trace)| + n
        invariant !more ==> queue == {}
        invariant RunLoop(u, old(State()), Never, fuel) == RunLoop(u, State(), Never, left)
        decreases left, more
      {
        hide Wf, RunLoop, Linked;
        more, left, ok := Step(u, Never, left);
        if !ok { return; }
        if more { n := n + 1; }
      }
    }

    /** The test in sim_run_until: is there a next entry, and is it before the sentinel? */
    method Earlier(until: real, stop: nat) returns (b: bool)
      requires Wf(State()) && Linked() && ctl.Idle?
      ensures b == !Done(State(), At(until, stop))
    {
      var he;
      b, he := heap.Peek();
      HeapLeast(he, queue);
      if !b { return; }
      if he.time < until { b := true; }
      else if he.time > until { b := false; }
      else if he.priority < URGENT { b := true; }
      else if he.priority > URGENT { b := false; }
      else { b := he.seqNo < stop; }
    }

    /** sim_run_until. */
    method RunUntil(u: User, until: real, fuel: nat) returns (n: nat, ok: bool)
      requires Wf(State()) && Linked() && ctl.Idle?
      modifies this, heap, heap.data
      ensures Wf(State()) && Linked() && (heap.data == old(heap.data) || fresh(heap.data))
      ensures Split.RunUntil(u, old(State()), until, fuel) == if ok then Some(State()) else None
      ensures ok ==> ctl.Idle? && |trace| == |old(trace)| + n
    {
      ghost var k := State();
      var stop := TakeNumber();
      assert State() == k.(nextSeq := k.nextSeq + 1);
      hide Linked, Wf, RunLoop;
      n, ok := Events(u, until, stop, fuel);
      if !ok { return; }
      AdvanceTo(until);
    }

    method TakeNumber() returns (n: nat)
      requires Wf(State()) && Linked()
      modifies this`nextSeq
      ensures Wf(State()) && Linked() && n == old(nextSeq)
      ensures State() == old(State()).(nextSeq := n + 1)
    {
      n := nextSeq;
      nextSeq := nextSeq + 1;
    }

    method AdvanceTo(until: real)
      requires Wf(State()) && Linked()
      modifies this`now
      ensures Wf(State()) && Linked()
      ensures State() == Advance(old(State()), until)
    {
      if now < until { now := until; }
    }

    /** The loop of sim_run_until. */
    method Events(u: User, until: real, stop: nat, fuel: nat) returns (n: nat, ok: bool)
      requires Wf(State()) && Linked() && ctl.Idle?
      modifies this, heap, heap.data
      ensures Wf(State()) && Linked() && (heap.data == old(heap.data) || fresh(heap.data))
      ensures RunLoop(u, old(State()), At(until, stop), fuel) == if ok then Some(State()) else None
      ensures ok ==> ctl.Idle? && |trace| == |old(trace)| + n
    {
      hide Linked, Wf, Tick, Before, Least;
      var left := fuel;
      n, ok := 0, true;
      var go := Earlier(until, stop);
      while go
        invariant Wf(State()) && Linked() && (heap.data == old(heap.data) || fresh(heap.data))
        invariant ok && ctl.Idle? && |trace| == |old(trace)| + n
        invariant go == !Done(State(), At(until, stop))
        invariant RunLoop(u, old(State()), At(until, stop), fuel) == RunLoop(u, State(), At(until, stop), left)
        decreases left, go
      {
        hide RunLoop;
        var more;
        more, left, ok := Step(u, At(until, stop), left);
        if !ok || !more { return; }
        n := n + 1;
        go := Earlier(until, stop);
      }
    }
  }
}
