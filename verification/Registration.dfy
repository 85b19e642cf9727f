/** The callbacks of an event, waiting processes among them: they are those registered since it was last
    dispatched, in order, and a dispatch goes through them from the first to the last. */
module Registrations {
  import opened Entries
  import opened Kernel
  import opened Protocol
  import opened Invariants
  import opened ShapeProof
  import opened FollowProof
  import opened Runs
  import opened Wakeups
  import opened Firings

  /** Told from the transcript alone: what has been registered on `e` and not been dispatched. */
  function NextReg(r: seq<Callback>, o: Obs, e: EventId): seq<Callback> {
    match o
    case Did(On(x, tag)) => if x == e then r + [UserCb(tag)] else r
    case Yielded(p, x, ready, _) => if x == e && !ready then r + [WaiterCb(p)] else r
    case Dispatched(x, _, _) => if x == e then [] else r
    case _ => r
  }

  function RegOf(log: seq<Obs>, e: EventId): seq<Callback> {
    if log == [] then [] else NextReg(RegOf(log[..|log| - 1], e), log[|log| - 1], e)
  }

  /** What was registered on the event dispatched last, when it was. */
  function LastReg(log: seq<Obs>): seq<Callback> {
    if log == [] then []
    else if log[|log| - 1].Dispatched? then RegOf(log[..|log| - 1], log[|log| - 1].e)
    else LastReg(log[..|log| - 1])
  }

  lemma RegSay(log: seq<Obs>, o: Obs, e: EventId)
    ensures RegOf(log + [o], e) == NextReg(RegOf(log, e), o, e)
    ensures LastReg(log + [o]) == if o.Dispatched? then RegOf(log, o.e) else LastReg(log)
  {
    assert (log + [o])[..|log|] == log;
  }

  /** The callbacks that count: a resume event has one of its own, which is not registered. */
  function Registered(ev: Event): seq<Callback> {
    if ev.kind.ResumeOf? then [] else ev.cbs
  }

  predicate Tail<T(==)>(s: seq<T>, all: seq<T>) {
    |s| <= |all| && s == all[|all| - |s|..]
  }

  ghost predicate AllRegistered(k: Kernel) {
    && (forall e: nat :: RegOf(k.log, e) == if e < |k.events| then Registered(k.events[e]) else [])
    && (k.ctl.Dispatch? && k.ctl.e < |k.events| && !k.events[k.ctl.e].kind.ResumeOf? ==> Tail(k.ctl.rest, LastReg(k.log)))
  }

  // ---------- what does not concern registration ----------

  ghost predicate SameRegs(k: Kernel, k1: Kernel) {
    && |k.events| <= |k1.events|
    && (forall e :: 0 <= e < |k.events| ==> Registered(k1.events[e]) == Registered(k.events[e]))
    && (forall e :: |k.events| <= e < |k1.events| ==> Registered(k1.events[e]) == [])
    && SameDispatch(k, k1)
  }

  /** The dispatch is where it was, but it may have ended. */
  predicate SameDispatch(k: Kernel, k1: Kernel) {
    k1.ctl.Dispatch? ==>
      && k.ctl.Dispatch? && k1.ctl.e == k.ctl.e && k1.ctl.e < |k.events| && k1.ctl.e < |k1.events|
      && (k1.events[k1.ctl.e].kind.ResumeOf? || (!k.events[k1.ctl.e].kind.ResumeOf? && Tail(k1.ctl.rest, k.ctl.rest)))
  }

  predicate Aside(o: Obs) {
    !o.Dispatched? && !(o.Did? && o.c.On?) && !(o.Yielded? && !o.ready)
  }

  lemma SameRegistered(k: Kernel, k1: Kernel)
    requires AllRegistered(k) && SameRegs(k, k1)
    requires k1.log == k.log || (k1.log != [] && k1.log[..|k1.log| - 1] == k.log && Aside(k1.log[|k1.log| - 1]))
    ensures AllRegistered(k1)
  {
    SameLog(k.log, k1.log);
    hide RegOf, LastReg, Registered, Aside;
    if k1.ctl.Dispatch? && !k1.events[k1.ctl.e].kind.ResumeOf? {
      TailTail(k1.ctl.rest, k.ctl.rest, LastReg(k.log));
    }
  }

  lemma SameLog(log: seq<Obs>, log1: seq<Obs>)
    requires log1 == log || (log1 != [] && log1[..|log1| - 1] == log && Aside(log1[|log1| - 1]))
    ensures (forall e: nat :: RegOf(log1, e) == RegOf(log, e)) && LastReg(log1) == LastReg(log)
  {
  }

  lemma TailTail<T>(a: seq<T>, b: seq<T>, c: seq<T>)
    requires Tail(a, b) && Tail(b, c)
    ensures Tail(a, c)
  {
    assert c[|c| - |b|..][|b| - |a|..] == c[|c| - |a|..];
  }

  lemma PlaceRegs(k: Kernel, ev: Event, k1: Kernel)
    requires Inv(k) && k1.events == Put(k.events, NextEvent(k), ev) && k1.ctl == k.ctl && Registered(ev) == []
    ensures SameRegs(k, k1)
  {
    hide AllFollow, Accepts, Shape;
    NextEventFree(k);
    SlotEmpty(k);
    WfCtl(k);
    hide Wf;
  }

  lemma SlotEmpty(k: Kernel)
    requires Wf(k) && Shape(k)
    ensures NextEvent(k) < |k.events| ==> Registered(k.events[NextEvent(k)]) == []
  {
    if k.eventPool != [] { assert EventOk(k.events[k.eventPool[0]], k.eventPool[0], k.procs); }
  }

  lemma AllocRegs(k: Kernel, c: Cmd)
    requires Inv(k) && AllRegistered(k) && Legal(k, c)
    requires c.NewEvent? || c.NewTransient? || c.NewRequest? || c.Timeout?
    ensures AllRegistered(Exec(k, c))
  {
    hide AllFollow, Accepts, Shape, AllRegistered;
    var k1 := Exec(k, c);
    SlotNew(k);
    assert k1.events == Put(k.events, NextEvent(k), k1.events[NextEvent(k)]);
    PlaceRegs(k, k1.events[NextEvent(k)], k1);
    SameRegistered(k, k1);
  }

  lemma SlotNew(k: Kernel)
    requires Inv(k)
    ensures NextEvent(k) <= |k.events|
    ensures forall kind: Kind :: NextEvent(k) < |Alloc(k, kind).events| && Alloc(k, kind).events == Put(k.events, NextEvent(k), Fresh(kind))
  {
    NextEventFree(k);
  }

  /** Only the process's resume event changes. */
  lemma ResumeRegs(k: Kernel, p: ProcId, v: Value)
    requires Wf(k) && Shape(k) && p < |k.procs| && !RestHas(k.ctl, ResumeCb(p))
    ensures var k1 := ScheduleResume(k, p, v); SameRegs(k, k1) && k1.log == k.log && k1.ctl == k.ctl
  {
    ScheduleResumeEffect(k, p, v);
    WfCtl(k);
    var r := k.procs[p].resumeEv.value;
    assert EventOk(k.events[r], r, k.procs);
    hide Wf, QueueOk, AllQueued, EventsOk, PoolOk, DeadOk, TraceOk, ScheduleResume;
    assert k.events[r].kind.ResumeOf?;
    assert k.ctl.Dispatch? ==> k.ctl.rest == k.ctl.rest[0..];
  }

  lemma SpawnRegs(k: Kernel)
    requires Inv(k) && AllRegistered(k) && InControl(k.ctl)
    ensures AllRegistered(Exec(k, Spawn))
  {
    hide AllFollow, Accepts, Shape, AllRegistered, SameRegs;
    AllocProcWf(k);
    if k.procPool == [] {
      CreateEffect(k);
      NextEventFree(k);
      PlaceRegs(k, Fresh(ResumeOf(|k.procs|)).(state := Triggered, cbs := [ResumeCb(|k.procs|)]), Spawning(k));
    } else {
      ReuseShape(k);
      LoopShape(k);
      NoResumeLeft(k, NextProc(k));
      ResumeRegs(AllocProc(k), NextProc(k), NULL);
      FromSame(k, AllocProc(k), Spawning(k));
    }
    SayRegs(k, Spawning(k), Spawned(NextProc(k)));
  }

  /** Only events and control matter. */
  lemma FromSame(k: Kernel, k0: Kernel, k1: Kernel)
    requires k0.events == k.events && k0.ctl == k.ctl
    ensures SameRegs(k0, k1) ==> SameRegs(k, k1)
  {
  }

  lemma SayRegs(k: Kernel, k1: Kernel, o: Obs)
    requires AllRegistered(k) && SameRegs(k, k1) && k1.log == k.log && Aside(o)
    ensures AllRegistered(Say(k1, o))
  {
    hide AllRegistered, Registered;
    SameRegistered(k, Say(k1, o));
  }

  lemma InterruptRegs(k: Kernel, p: ProcId, c: Value)
    requires Inv(k) && AllRegistered(k) && p < |k.procs| && InControl(k.ctl)
    ensures AllRegistered(Exec(k, Interrupt(p, c)))
  {
    hide AllFollow, Accepts, Shape, AllRegistered, SameRegs, ScheduleResume;
    var pr := k.procs[p];
    if pr.state.Dead? || pr.interruptPending {
      NoRegs(k);
    } else {
      var pr1 := pr.(interruptPending := true, cause := c, yielded := None);
      SetProcShape(k, p, pr1);
      SetProcWf(k, p, pr1);
      LoopShape(k);
      NoResumeLeft(k, p);
      ResumeRegs(SetProc(k, p, pr1), p, c);
      FromSame(k, SetProc(k, p, pr1), Interrupting(k, p, c));
    }
    SayRegs(k, Interrupting(k, p, c), Did(Interrupt(p, c)));
  }

  lemma NoRegs(k: Kernel)
    requires Wf(k)
    ensures SameRegs(k, k)
  {
    WfCtl(k);
    assert k.ctl.Dispatch? ==> k.ctl.rest == k.ctl.rest[0..];
  }

  lemma ProcessEventRegs(k: Kernel, p: ProcId)
    requires Inv(k) && AllRegistered(k) && p < |k.procs|
    ensures AllRegistered(Exec(k, ProcEvent(p)))
  {
    hide AllFollow, Accepts, Shape, AllRegistered, SameRegs;
    var k1 := ProcessEvent(k, p).0;
    if k.procs[p].done.Some? {
      NoRegs(k);
    } else {
      SlotNew(k);
      PlaceRegs(k, k1.events[NextEvent(k)], k1);
    }
    SayRegs(k, k1, GotDone(p, ProcessEvent(k, p).1));
  }

  lemma ReturnRegs(k: Kernel)
    requires Inv(k) && AllRegistered(k) && Legal(k, Return)
    ensures AllRegistered(Exec(k, Return))
  {
    hide AllFollow, Accepts, Shape, AllRegistered;
    WfCtl(k);
    if k.ctl.who.InProc? { assert ProcOk(k.procs[k.ctl.who.p], |k.events|); }
    hide Wf;
    var k1 := Exec(k, Return);
    assert k1.ctl.rest == k.ctl.rest[0..];
    SameRegistered(k, k1);
  }

  /** Calls that leave all callbacks alone. */
  lemma QuietRegs(k: Kernel, c: Cmd)
    requires Inv(k) && AllRegistered(k) && Legal(k, c) && (c.Succeed? || c.Fail? || c.Recycle?)
    ensures AllRegistered(Exec(k, c))
  {
    hide AllFollow, Accepts, Shape, AllRegistered;
    WfCtl(k);
    hide Wf;
    assert k.ctl.Dispatch? ==> k.ctl.rest == k.ctl.rest[0..];
    SameRegistered(k, Exec(k, c));
  }

  // ---------- what does ----------

  lemma OnRegs(k: Kernel, e: EventId, tag: int)
    requires Wf(k) && AllRegistered(k) && Legal(k, On(e, tag))
    ensures AllRegistered(Exec(k, On(e, tag)))
  {
    hide AllRegistered, SameRegs;
    if k.events[e].state.Processed? {
      NoRegs(k);
      SayRegs(k, k, Entered(tag, e));
    } else {
      NewReg(k, e, tag);
    }
  }

  lemma NewReg(k: Kernel, e: EventId, tag: int)
    requires Wf(k) && AllRegistered(k) && Legal(k, On(e, tag)) && !k.events[e].state.Processed?
    ensures AllRegistered(Exec(k, On(e, tag)))
  {
    var k1 := Exec(k, On(e, tag));
    forall x: nat ensures RegOf(k1.log, x) == NextReg(RegOf(k.log, x), Did(On(e, tag)), x) {
      RegSay(k.log, Did(On(e, tag)), x);
    }
    RegSay(k.log, Did(On(e, tag)), 0);
    hide RegOf, LastReg, Wf;
  }

  lemma YieldRegs(k: Kernel, e: EventId)
    requires Inv(k) && AllRegistered(k) && Legal(k, Yield(e))
    ensures AllRegistered(Exec(k, Yield(e)))
  {
    hide AllFollow, Accepts, Shape, AllRegistered, SameRegs, ScheduleResume;
    WfCtl(k);
    var p := k.ctl.who.p;
    if k.events[e].state.Processed? {
      var pr1 := k.procs[p].(yielded := Some(e));
      SetProcShape(k, p, pr1);
      SetProcWf(k, p, pr1);
      LoopShape(k);
      NoResumeLeft(k, p);
      ResumeRegs(SetProc(k, p, pr1), p, k.events[e].value);
      FromSame(k, SetProc(k, p, pr1), Suspend(k, p, e));
      SayRegs(k, Suspend(k, p, e), Yielded(p, e, true, k.events[e].value));
      WhoRegs(Say(Suspend(k, p, e), Yielded(p, e, true, k.events[e].value)));
    } else {
      WaitRegs(k, e);
    }
  }

  /** Who has control does not matter. */
  lemma WhoRegs(k: Kernel)
    requires AllRegistered(k) && k.ctl.Dispatch?
    ensures AllRegistered(k.(ctl := k.ctl.(who := Loop)))
  {
  }

  lemma WaitRegs(k: Kernel, e: EventId)
    requires Wf(k) && AllRegistered(k) && Legal(k, Yield(e)) && k.ctl.who.p < |k.procs| && !k.events[e].state.Processed?
    ensures AllRegistered(Exec(k, Yield(e)))
  {
    var p := k.ctl.who.p;
    var k1 := Exec(k, Yield(e));
    var o := Yielded(p, e, false, k.events[e].value);
    forall x: nat ensures RegOf(k1.log, x) == NextReg(RegOf(k.log, x), o, x) {
      RegSay(k.log, o, x);
    }
    RegSay(k.log, o, 0);
    hide RegOf, LastReg, Wf;
  }

  lemma PopRegs(k: Kernel)
    requires Inv(k) && AllRegistered(k) && k.ctl.Idle? && k.queue != {}
    ensures AllRegistered(Pop(k))
  {
    hide AllFollow, Accepts;
    var x := Least(k.queue);
    var k1 := Pop(k);
    var o := Dispatched(x.event, k.events[x.event].value, x.time);
    assert x.event < |k.events|;
    forall e: nat ensures RegOf(k1.log, e) == NextReg(RegOf(k.log, e), o, e) {
      RegSay(k.log, o, e);
    }
    RegSay(k.log, o, 0);
    hide RegOf, LastReg, Wf, Shape;
    assert k1.ctl.rest == k.events[x.event].cbs;
    assert k1.ctl.rest == k1.ctl.rest[0..];
  }

  lemma CallbackRegs(k: Kernel)
    requires Inv(k) && AllRegistered(k) && k.ctl.Dispatch? && k.ctl.who.Loop? && k.ctl.rest != []
    ensures AllRegistered(RunCallback(k))
  {
    hide AllFollow, Accepts, QueueOk, AllQueued, EventsOk, LinksOk, PoolOk, DeadOk, TraceOk, AllRegistered, ScheduleResume;
    WfCtl(k);
    DropCallbackWf(k);
    DropShape(k);
    var k0, k1 := DropCallback(k), RunCallback(k);
    DropRegs(k);
    match k.ctl.rest[0]
    case WaiterCb(p) =>
      if !k.procs[p].state.Dead? && k.procs[p].yielded == Some(k.ctl.e) {
        ResumeRegs(k0, p, k.events[k.ctl.e].value);
        SameRegistered(k0, k1);
      }
    case _ =>
      hide Wf;
      assert k1.ctl.rest == k0.ctl.rest[0..];
      SameRegistered(k0, k1);
  }

  lemma DropRegs(k: Kernel)
    requires Wf(k) && AllRegistered(k) && k.ctl.Dispatch? && k.ctl.rest != []
    ensures AllRegistered(DropCallback(k))
  {
    WfCtl(k);
    assert k.ctl.rest[1..] == k.ctl.rest[|k.ctl.rest| - |k.ctl.rest[1..]|..];
    hide Wf;
    SameRegistered(k, DropCallback(k));
  }

  // ---------- every history ----------

  lemma ExecRegs(k: Kernel, c: Cmd)
    requires Inv(k) && AllRegistered(k) && Legal(k, c) && InControl(k.ctl)
    ensures AllRegistered(Exec(k, c))
  {
    hide AllFollow, Accepts, Shape, AllRegistered, Exec, Wf;
    match c
    case Spawn => SpawnRegs(k);
    case ProcEvent(p) => ProcessEventRegs(k, p);
    case Interrupt(p, v) => InterruptRegs(k, p, v);
    case Yield(e) => YieldRegs(k, e);
    case Return => ReturnRegs(k);
    case On(e, tag) => OnRegs(k, e, tag);
    case Succeed(_, _) => QuietRegs(k, c);
    case Fail(_, _) => QuietRegs(k, c);
    case Recycle(_) => QuietRegs(k, c);
    case _ => AllocRegs(k, c);
  }

  lemma ApplyRegs(u: User, k: Kernel, m: Move)
    requires Inv(k) && AllRegistered(k)
    ensures AllRegistered(Apply(u, k, m))
  {
    hide AllFollow, Accepts, Shape, AllRegistered, Exec, RunCallback, Pop, Wf;
    WfCtl(k);
    match m
    case Host(c) => if k.ctl.Idle? && Legal(k, c) { ExecRegs(k, c); }
    case Run =>
      match k.ctl {
        case Idle => if k.queue != {} { PopRegs(k); }
        case Dispatch(_, rest, Loop) => if rest == [] { SameRegistered(k, Finish(k)); } else { CallbackRegs(k); }
        case Dispatch(_, _, _) => if Legal(k, u(k.log)) { ExecRegs(k, u(k.log)); }
      }
    case _ => SameRegistered(k, Apply(u, k, m));
  }

  /** In every history the callbacks of an event are exactly those registered since it was last dispatched, in
      the order of registration, processes and user callbacks alike; and while it is dispatched, those still to
      be called are the last of those it had. */
  lemma {:induction false} CallbacksAsRegistered(u: User, ms: seq<Move>)
    ensures AllRegistered(Reach(u, ms))
  {
    hide Apply, Inv;
    if ms != [] {
      var init := ms[..|ms| - 1];
      CallbacksAsRegistered(u, init);
      ReachInv(u, init);
      ApplyRegs(u, Reach(u, init), ms[|ms| - 1]);
    }
  }

  /** A process whose turn it is joins the queue behind everything that is due now: so processes that wait for
      one event are switched to in the order in which they yielded it. */
  lemma {:induction false} WaiterQueuesLast(u: User, k: Kernel, p: ProcId)
    requires Inv(k) && k.ctl.Dispatch? && k.ctl.who.Loop? && k.ctl.rest != [] && k.ctl.rest[0] == WaiterCb(p)
    requires RefOf(k.log, p).Live? && WaiterNext(k.procs[p], p, k.ctl) && !InFlight(k.events, k.procs[p], p, k.ctl)
    ensures var k1 := Apply(u, k, Run); var x := Entry(k.now, NORMAL, k.nextSeq, k.procs[p].resumeEv.value);
            && p < |k.procs| && ResumeEntry(k1, p, x) && k1.queue == k.queue + {x}
            && (forall y :: y in k.queue && y.time <= k.now ==> EntryLt(y, x))
            && k1.ctl.rest == k.ctl.rest[1..]
  {
    assert p < |k.procs|;
    DropCallbackWf(k);
    DropShape(k);
    assert Follows(k.events, k.procs[p], p, k.ctl, RefOf(k.log, p));
    hide AllFollow, Accepts;
    assert Entry(k.now + 0.0, NORMAL, k.nextSeq, k.procs[p].resumeEv.value) == Entry(k.now, NORMAL, k.nextSeq, k.procs[p].resumeEv.value);
  }

  // ---------- calls answered at once ----------

  /** A callback registered on an event that has been processed is called at once, with its own tag, and the
      event keeps nothing of it. */
  lemma {:induction false} LateSubscriber(u: User, ms: seq<Move>, m: Move, e: EventId, tag: int)
    requires CallOf(u, Reach(u, ms), m) == Some(On(e, tag)) && Reach(u, ms).events[e].state.Processed?
    ensures Reach(u, ms + [m]) == Say(Reach(u, ms), Entered(tag, e))
  {
    CallMade(u, ms, m, On(e, tag));
    hide Reach, CallOf;
  }

  /** What sim_yield will return for an event processed already is the value that event has. */
  lemma {:induction false} YieldReadsValue(u: User, ms: seq<Move>, m: Move, e: EventId)
    requires CallOf(u, Reach(u, ms), m) == Some(Yield(e))
    ensures var k, k1 := Reach(u, ms), Reach(u, ms + [m]);
            && k.ctl.Dispatch? && k.ctl.who.InProc? && k.ctl.who.p < |k1.procs|
            && k1.log == k.log + [Yielded(k.ctl.who.p, e, k.events[e].state.Processed?, k.events[e].value)]
            && k1.procs[k.ctl.who.p].yielded == Some(e)
  {
    hide Reach, CallOf, Exec;
    CallMade(u, ms, m, Yield(e));
    ReachInv(u, ms);
    YieldShows(Reach(u, ms), e);
  }

  lemma YieldShows(k: Kernel, e: EventId)
    requires Inv(k) && Legal(k, Yield(e))
    ensures var k1 := Exec(k, Yield(e)); var p := k.ctl.who.p;
            && p < |k1.procs| && k1.procs[p].yielded == Some(e)
            && k1.log == k.log + [Yielded(p, e, k.events[e].state.Processed?, k.events[e].value)]
  {
    hide AllFollow, Accepts;
    WfCtl(k);
    if k.events[e].state.Processed? { SuspendReadyEffect(k, k.ctl.who.p, e); }
  }
}
