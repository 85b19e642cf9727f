/** No event is leaked and none is freed early: what is in the free list is told exactly. */
module Recycling {
  import opened Entries
  import opened Kernel
  import opened Protocol
  import opened Invariants
  import opened ShapeProof
  import opened FollowProof
  import opened Runs
  import opened Wakeups
  import opened Firings
  import opened Dones

  /** Told from the transcript: the request `e` has been released for pooling since it was handed out. */
  function Recycled(log: seq<Obs>, e: EventId): bool {
    if log == [] then false else NextRecycled(Recycled(log[..|log| - 1], e), log[|log| - 1], e)
  }

  function NextRecycled(r: bool, o: Obs, e: EventId): bool {
    match o
    case Got(x) => r && x != e
    case Did(Recycle(x)) => r || x == e
    case _ => r
  }

  lemma RecycledSay(log: seq<Obs>, o: Obs, e: EventId)
    ensures Recycled(log + [o], e) == NextRecycled(Recycled(log, e), o, e)
  {
    assert (log + [o])[..|log|] == log;
  }

  predicate Dispatching(ctl: Control, e: EventId) {
    ctl.Dispatch? && ctl.e == e
  }

  /** An event that can be used again: of a timeout, store or container call, once its dispatch is over; of a
      resource request, once it has been released; and no other. */
  predicate Free(ev: Event, e: EventId, ctl: Control, log: seq<Obs>) {
    match ev.kind
    case Transient => ev.state.Processed? && !Dispatching(ctl, e)
    case Request => Recycled(log, e)
    case _ => false
  }

  ghost predicate PoolExact(k: Kernel) {
    forall e :: 0 <= e < |k.events| ==> (e in k.eventPool <==> Free(k.events[e], e, k.ctl, k.log))
  }

  // ---------- what does not concern the free list ----------

  ghost predicate SamePool(k: Kernel, k1: Kernel) {
    && k1.eventPool == k.eventPool && |k1.events| == |k.events| && SameTarget(k.ctl, k1.ctl)
    && (forall e :: 0 <= e < |k.events| ==>
      k1.events[e].kind == k.events[e].kind
      && (k.events[e].kind.Transient? ==> k1.events[e].state.Processed? == k.events[e].state.Processed?))
  }

  predicate SameTarget(c: Control, c1: Control) {
    c1.Dispatch? == c.Dispatch? && (c.Dispatch? ==> c1.e == c.e)
  }

  predicate Elsewhere(o: Obs) {
    !o.Got? && !(o.Did? && o.c.Recycle?)
  }

  predicate Quiet(k: Kernel, k1: Kernel) {
    k1.log == k.log || (k1.log != [] && k1.log[..|k1.log| - 1] == k.log && Elsewhere(k1.log[|k1.log| - 1]))
  }

  lemma SameFree(k: Kernel, k1: Kernel)
    requires PoolExact(k) && SamePool(k, k1) && Quiet(k, k1)
    ensures PoolExact(k1)
  {
    forall e: nat ensures Recycled(k1.log, e) == Recycled(k.log, e) {
    }
    hide Recycled;
    forall e | 0 <= e < |k1.events| ensures e in k1.eventPool <==> Free(k1.events[e], e, k1.ctl, k1.log) {
      assert e in k.eventPool <==> Free(k.events[e], e, k.ctl, k.log);
    }
  }

  lemma ResumePool(k: Kernel, k0: Kernel, p: ProcId, v: Value)
    requires Wf(k0) && Shape(k0) && p < |k0.procs| && !RestHas(k0.ctl, ResumeCb(p)) && SamePool(k, k0)
    ensures SamePool(k, ScheduleResume(k0, p, v)) && ScheduleResume(k0, p, v).log == k0.log
  {
    ScheduleResumeEffect(k0, p, v);
    ResumePoolOwn(k0, p, v);
  }

  lemma ResumePoolOwn(k: Kernel, p: ProcId, v: Value)
    requires Wf(k) && Shape(k) && p < |k.procs|
    ensures ScheduleResume(k, p, v).eventPool == k.eventPool
    ensures var r := k.procs[p].resumeEv.value; r < |k.events| && k.events[r].kind == ResumeOf(p)
  {
    hide QueueOk, AllQueued, EventsOk, PoolOk, DeadOk, TraceOk, LoopOk;
  }

  lemma InterruptPool(k: Kernel, p: ProcId, c: Value)
    requires Inv(k) && p < |k.procs| && InControl(k.ctl)
    ensures SamePool(k, Exec(k, Interrupt(p, c)))
  {
    hide AllFollow, Accepts, Shape, ScheduleResume;
    var pr := k.procs[p];
    if !(pr.state.Dead? || pr.interruptPending) {
      var pr1 := pr.(interruptPending := true, cause := c, yielded := None);
      SetProcShape(k, p, pr1);
      SetProcWf(k, p, pr1);
      LoopShape(k);
      NoResumeLeft(k, p);
      ResumePool(k, SetProc(k, p, pr1), p, c);
    }
  }

  lemma YieldPool(k: Kernel, e: EventId)
    requires Inv(k) && Legal(k, Yield(e))
    ensures SamePool(k, Exec(k, Yield(e)))
  {
    hide AllFollow, Accepts, Shape, ScheduleResume;
    WfCtl(k);
    var p := k.ctl.who.p;
    if k.events[e].state.Processed? {
      var pr1 := k.procs[p].(yielded := Some(e));
      SetProcShape(k, p, pr1);
      SetProcWf(k, p, pr1);
      LoopShape(k);
      NoResumeLeft(k, p);
      ResumePool(k, SetProc(k, p, pr1), p, k.events[e].value);
    }
  }

  lemma QuietPool(k: Kernel, c: Cmd)
    requires Inv(k) && Legal(k, c) && (c.Succeed? || c.Fail? || c.On? || c.Return?)
    ensures SamePool(k, Exec(k, c))
  {
    hide AllFollow, Accepts, Shape;
    WfCtl(k);
    if c.Return? && k.ctl.who.InProc? { assert ProcOk(k.procs[k.ctl.who.p], |k.events|); }
    hide Wf;
  }

  lemma SameExec(k: Kernel, c: Cmd)
    requires Inv(k) && PoolExact(k) && Legal(k, c) && InControl(k.ctl)
    requires c.Succeed? || c.Fail? || c.On? || c.Return? || c.Interrupt? || c.Yield?
    ensures PoolExact(Exec(k, c))
  {
    hide AllFollow, Accepts, Shape, Wf, Exec, PoolExact, SamePool;
    match c {
      case Interrupt(p, v) => InterruptPool(k, p, v);
      case Yield(e) => YieldPool(k, e);
      case _ => QuietPool(k, c);
    }
    ExecSays(k, c);
    SameFree(k, Exec(k, c));
  }

  lemma ExecSays(k: Kernel, c: Cmd)
    requires Inv(k) && Legal(k, c) && (c.Succeed? || c.Fail? || c.On? || c.Return? || c.Interrupt? || c.Yield?)
    ensures Quiet(k, Exec(k, c))
  {
    hide AllFollow, Accepts, Shape, ScheduleResume;
    ExecLog(k, c);
    WfCtl(k);
    var l := Exec(k, c).log;
    assert l[..|l| - 1] == k.log;
  }

  // ---------- what does ----------

  /** The next slot is taken into use with the event `ev`. */
  lemma TakeSlot(k: Kernel, k1: Kernel, ev: Event)
    requires Inv(k) && PoolExact(k) && k1.ctl == k.ctl
    requires k1.events == Put(k.events, NextEvent(k), ev) && k1.eventPool == if k.eventPool != [] then k.eventPool[1..] else []
    requires ev.kind.Transient? ==> !ev.state.Processed?
    requires (Quiet(k, k1) && !ev.kind.Request?) || k1.log == k.log + [Got(NextEvent(k))]
    ensures PoolExact(k1)
  {
    var n := NextEvent(k);
    TakeRecycled(k.log, k1.log, n);
    NextEventFree(k);
    hide Inv, Recycled, Quiet, PoolExact;
    forall e | 0 <= e < |k1.events| ensures e in k1.eventPool <==> Free(k1.events[e], e, k1.ctl, k1.log) {
      if e != n { Others(k, k1, n, e); }
    }
    PoolFold(k1);
  }

  lemma TakeRecycled(log: seq<Obs>, log1: seq<Obs>, n: EventId)
    requires log1 == log || (log1 != [] && log1[..|log1| - 1] == log && Elsewhere(log1[|log1| - 1])) || log1 == log + [Got(n)]
    ensures forall e: nat :: e != n ==> Recycled(log1, e) == Recycled(log, e)
    ensures log1 == log + [Got(n)] ==> !Recycled(log1, n)
  {
    forall e: nat ensures e != n ==> Recycled(log1, e) == Recycled(log, e) {
      if log1 == log + [Got(n)] { RecycledSay(log, Got(n), e); }
    }
    if log1 == log + [Got(n)] { RecycledSay(log, Got(n), n); }
  }

  lemma Others(k: Kernel, k1: Kernel, n: EventId, e: EventId)
    requires PoolExact(k) && e != n && e < |k.events| && k1.ctl == k.ctl && e < |k1.events| && k1.events[e] == k.events[e]
    requires n == (if k.eventPool != [] then k.eventPool[0] else |k.events|)
    requires k1.eventPool == if k.eventPool != [] then k.eventPool[1..] else []
    requires Recycled(k1.log, e) == Recycled(k.log, e)
    ensures e in k1.eventPool <==> Free(k1.events[e], e, k1.ctl, k1.log)
  {
    assert e in k.eventPool <==> Free(k.events[e], e, k.ctl, k.log);
    if k.eventPool != [] { assert k.eventPool == [k.eventPool[0]] + k.eventPool[1..]; }
  }

  lemma PoolFold(k: Kernel)
    requires forall e :: 0 <= e < |k.events| ==> (e in k.eventPool <==> Free(k.events[e], e, k.ctl, k.log))
    ensures PoolExact(k)
  {
  }

  lemma AllocPool(k: Kernel, c: Cmd)
    requires Inv(k) && PoolExact(k) && Legal(k, c)
    requires c.NewEvent? || c.NewTransient? || c.NewRequest? || c.Timeout?
    ensures PoolExact(Exec(k, c))
  {
    hide AllFollow, Accepts, Shape, PoolExact;
    var k1 := Exec(k, c);
    NextEventFree(k);
    hide Wf;
    assert k1.events == Put(k.events, NextEvent(k), k1.events[NextEvent(k)]);
    TakeSlot(k, k1, k1.events[NextEvent(k)]);
  }

  lemma ProcessEventPool(k: Kernel, p: ProcId)
    requires Inv(k) && PoolExact(k) && p < |k.procs|
    ensures PoolExact(Exec(k, ProcEvent(p)))
  {
    hide AllFollow, Accepts, Shape, PoolExact;
    var k1 := Exec(k, ProcEvent(p));
    var n := NextEvent(k);
    if k.procs[p].done.Some? {
      SameFree(k, k1);
    } else {
      SlotNotDone(k);
      hide Wf;
      assert k1.events == Put(k.events, n, k1.events[n]);
      TakeSlot(k, k1, k1.events[n]);
    }
  }

  lemma SpawnPool(k: Kernel)
    requires Inv(k) && PoolExact(k) && InControl(k.ctl)
    ensures PoolExact(Exec(k, Spawn))
  {
    hide AllFollow, Accepts, Shape, PoolExact, SamePool, ScheduleResume;
    AllocProcWf(k);
    if k.procPool == [] {
      CreatePool(k);
    } else {
      var k0 := AllocProc(k);
      ReuseShape(k);
      LoopShape(k);
      NoResumeLeft(k, NextProc(k));
      SameEvents(k, k0);
      ResumePool(k, k0, NextProc(k), NULL);
      SameFree(k, Spawning(k));
      SayFree(Spawning(k), Spawned(NextProc(k)));
    }
  }

  lemma SameEvents(k: Kernel, k1: Kernel)
    requires k1.events == k.events && k1.eventPool == k.eventPool && k1.ctl == k.ctl
    ensures SamePool(k, k1)
  {
  }

  lemma SayFree(k: Kernel, o: Obs)
    requires PoolExact(k) && Elsewhere(o)
    ensures PoolExact(Say(k, o))
  {
    hide PoolExact;
    SameEvents(k, Say(k, o));
    SameFree(k, Say(k, o));
  }

  lemma CreatePool(k: Kernel)
    requires Inv(k) && PoolExact(k) && k.procPool == []
    ensures PoolExact(Exec(k, Spawn))
  {
    hide AllFollow, Accepts, Shape, PoolExact, Spawning;
    AllocProcWf(k);
    CreateEffect(k);
    var p := |k.procs|;
    TakeSlot(k, Exec(k, Spawn), Fresh(ResumeOf(p)).(state := Triggered, cbs := [ResumeCb(p)]));
  }

  lemma RecyclePool(k: Kernel, e: EventId)
    requires PoolExact(k) && Wf(k) && Legal(k, Recycle(e))
    ensures PoolExact(Exec(k, Recycle(e)))
  {
    var k1 := Exec(k, Recycle(e));
    forall x: nat ensures Recycled(k1.log, x) == (Recycled(k.log, x) || x == e) {
      RecycledSay(k.log, Did(Recycle(e)), x);
    }
    hide Recycled, Wf;
    forall x | 0 <= x < |k1.events| ensures x in k1.eventPool <==> Free(k1.events[x], x, k1.ctl, k1.log) {
      assert x in k.eventPool <==> Free(k.events[x], x, k.ctl, k.log);
    }
  }

  lemma PopPool(k: Kernel)
    requires Inv(k) && PoolExact(k) && k.ctl.Idle? && k.queue != {}
    ensures PoolExact(Pop(k))
  {
    hide AllFollow, Accepts;
    var x := Least(k.queue);
    var k1 := Pop(k);
    assert x.event < |k.events| && k.events[x.event].state.Triggered?;
    assert x.event !in k.eventPool;
    forall e: nat ensures Recycled(k1.log, e) == Recycled(k.log, e) {
      RecycledSay(k.log, Dispatched(x.event, k.events[x.event].value, x.time), e);
    }
    hide Recycled, Wf, Shape;
    forall e | 0 <= e < |k1.events| ensures e in k1.eventPool <==> Free(k1.events[e], e, k1.ctl, k1.log) {
      assert e in k.eventPool <==> Free(k.events[e], e, k.ctl, k.log);
    }
  }

  lemma FinishPool(k: Kernel)
    requires Inv(k) && PoolExact(k) && k.ctl.Dispatch? && k.ctl.who.Loop? && k.ctl.rest == [] && k.ctl.e < |k.events|
    ensures PoolExact(Finish(k))
  {
    hide AllFollow, Accepts;
    var k1 := Finish(k);
    assert EventOk(k.events[k.ctl.e], k.ctl.e, k.procs);
    assert LoopOk(k.ctl, k.events);
    hide Recycled, Wf, Shape;
    forall e | 0 <= e < |k1.events| ensures e in k1.eventPool <==> Free(k1.events[e], e, k1.ctl, k1.log) {
      assert e in k.eventPool <==> Free(k.events[e], e, k.ctl, k.log);
    }
  }

  lemma CallbackPool(k: Kernel)
    requires Inv(k) && PoolExact(k) && k.ctl.Dispatch? && k.ctl.who.Loop? && k.ctl.rest != []
    ensures PoolExact(RunCallback(k))
  {
    hide AllFollow, Accepts, QueueOk, AllQueued, EventsOk, LinksOk, PoolOk, DeadOk, TraceOk, PoolExact, ScheduleResume;
    DropCallbackWf(k);
    DropShape(k);
    match k.ctl.rest[0] {
      case WaiterCb(p) =>
        if !k.procs[p].state.Dead? && k.procs[p].yielded == Some(k.ctl.e) {
          ResumePool(k, DropCallback(k), p, k.events[k.ctl.e].value);
        }
      case _ =>
    }
    SameFree(k, RunCallback(k));
  }

  // ---------- every history ----------

  lemma ExecPool(k: Kernel, c: Cmd)
    requires Inv(k) && PoolExact(k) && Legal(k, c) && InControl(k.ctl)
    ensures PoolExact(Exec(k, c))
  {
    hide AllFollow, Accepts, Shape, PoolExact, Exec, Wf;
    match c
    case Spawn => SpawnPool(k);
    case ProcEvent(p) => ProcessEventPool(k, p);
    case Recycle(e) => RecyclePool(k, e);
    case NewEvent => AllocPool(k, c);
    case NewTransient => AllocPool(k, c);
    case NewRequest => AllocPool(k, c);
    case Timeout(_, _) => AllocPool(k, c);
    case _ => SameExec(k, c);
  }

  lemma ApplyPool(u: User, k: Kernel, m: Move)
    requires Inv(k) && PoolExact(k)
    ensures PoolExact(Apply(u, k, m))
  {
    hide AllFollow, Accepts, Shape, PoolExact, Exec, RunCallback, Pop, Finish, Wf;
    WfCtl(k);
    match m
    case Host(c) => if k.ctl.Idle? && Legal(k, c) { ExecPool(k, c); }
    case Run =>
      match k.ctl {
        case Idle => if k.queue != {} { PopPool(k); }
        case Dispatch(_, rest, Loop) => if rest == [] { FinishPool(k); } else { CallbackPool(k); }
        case Dispatch(_, _, _) => if Legal(k, u(k.log)) { ExecPool(k, u(k.log)); }
      }
    case _ => SameFree(k, Apply(u, k, m));
  }

  lemma {:induction false} ReachPool(u: User, ms: seq<Move>)
    ensures PoolExact(Reach(u, ms))
  {
    hide Apply, Inv;
    if ms != [] {
      var init := ms[..|ms| - 1];
      ReachPool(u, init);
      ReachInv(u, init);
      ApplyPool(u, Reach(u, init), ms[|ms| - 1]);
    }
  }

  /** In every history an event is in the free list exactly if it can be used again: nothing is leaked. */
  lemma {:induction false} NothingLeaks(u: User, ms: seq<Move>, k: Kernel, e: EventId)
    requires k == Reach(u, ms) && e < |k.events|
    ensures e in k.eventPool <==> Free(k.events[e], e, k.ctl, k.log)
  {
    hide Reach;
    ReachPool(u, ms);
  }

  /** Memory grows only when there is nothing to reuse: an event or process struct is added only if the free
      list it would come from is empty, and one at a time. */
  lemma {:induction false} GrowsOnlyIfEmpty(u: User, k: Kernel, m: Move)
    requires Inv(k)
    ensures var k1 := Apply(u, k, m);
            && (|k1.events| == |k.events| || (|k1.events| == |k.events| + 1 && k.eventPool == []))
            && (|k1.procs| == |k.procs| || (|k1.procs| == |k.procs| + 1 && k.procPool == []))
  {
    hide AllFollow, Accepts, Shape, Exec, Wf, RunCallback, Pop;
    match m
    case Host(c) => if k.ctl.Idle? && Legal(k, c) { ExecGrows(k, c); }
    case Run =>
      match k.ctl {
        case Idle => if k.queue != {} { PopGrows(k); }
        case Dispatch(_, rest, Loop) => if rest != [] { CallbackGrows(k); } else { WfCtl(k); }
        case Dispatch(_, _, _) => if Legal(k, u(k.log)) { ExecGrows(k, u(k.log)); }
      }
    case _ =>
  }

  lemma PopGrows(k: Kernel)
    requires Wf(k) && k.queue != {}
    ensures |Pop(k).events| == |k.events| && Pop(k).procs == k.procs
  {
  }

  lemma CallbackGrows(k: Kernel)
    requires Inv(k) && k.ctl.Dispatch? && k.ctl.who.Loop? && k.ctl.rest != []
    ensures |RunCallback(k).events| == |k.events| && |RunCallback(k).procs| == |k.procs|
  {
    hide AllFollow, Accepts, QueueOk, AllQueued, EventsOk, LinksOk, PoolOk, DeadOk, TraceOk;
    DropCallbackWf(k);
    DropShape(k);
    match k.ctl.rest[0]
    case WaiterCb(p) =>
      if !k.procs[p].state.Dead? && k.procs[p].yielded == Some(k.ctl.e) {
        ScheduleResumeEffect(DropCallback(k), p, k.events[k.ctl.e].value);
      }
    case _ =>
  }

  lemma ExecGrows(k: Kernel, c: Cmd)
    requires Inv(k) && Legal(k, c) && InControl(k.ctl)
    ensures var k1 := Exec(k, c);
            && (|k1.events| == |k.events| || (|k1.events| == |k.events| + 1 && k.eventPool == []))
            && (|k1.procs| == |k.procs| || (|k1.procs| == |k.procs| + 1 && k.procPool == []))
  {
    hide AllFollow, Accepts, Shape;
    match c
    case Spawn => SpawnGrows(k);
    case Interrupt(p, v) => InterruptGrows(k, p, v);
    case Yield(e) => YieldGrows(k, e);
    case Return => WfCtl(k); if k.ctl.who.InProc? { assert ProcOk(k.procs[k.ctl.who.p], |k.events|); }
    case _ => hide Wf;
  }

  lemma InterruptGrows(k: Kernel, p: ProcId, v: Value)
    requires Inv(k) && p < |k.procs| && InControl(k.ctl)
    ensures var k1 := Exec(k, Interrupt(p, v)); |k1.events| == |k.events| && |k1.procs| == |k.procs|
  {
    hide AllFollow, Accepts, Shape, ScheduleResume;
    InterruptPool(k, p, v);
    InterruptingWf(k, p, v);
  }

  lemma YieldGrows(k: Kernel, e: EventId)
    requires Inv(k) && Legal(k, Yield(e))
    ensures var k1 := Exec(k, Yield(e)); |k1.events| == |k.events| && |k1.procs| == |k.procs|
  {
    hide AllFollow, Accepts, Shape, ScheduleResume;
    YieldPool(k, e);
    WfCtl(k);
    SuspendWf(k, k.ctl.who.p, e);
  }

  lemma SpawnGrows(k: Kernel)
    requires Inv(k) && InControl(k.ctl)
    ensures var k1 := Exec(k, Spawn);
            && (|k1.events| == |k.events| || (|k1.events| == |k.events| + 1 && k.eventPool == []))
            && (|k1.procs| == |k.procs| || (|k1.procs| == |k.procs| + 1 && k.procPool == []))
  {
    hide AllFollow, Accepts, Shape, ScheduleResume;
    AllocProcWf(k);
    if k.procPool == [] {
      CreateEffect(k);
      NextEventFree(k);
    } else {
      ReuseShape(k);
      LoopShape(k);
      NoResumeLeft(k, NextProc(k));
      ReuseEffect(k);
    }
  }

  /** As if its memory had never been used. */
  predicate Clear(ev: Event, recyclable: bool) {
    ev == Event(Pending, [], NULL, true, NULL, recyclable, ev.kind) && !ev.kind.ResumeOf?
  }

  /** From `k` to `k1` a handle has been made: clear of whatever its memory was used for before, and in no list,
      and nothing else has changed. */
  ghost predicate Made(k: Kernel, k1: Kernel, recyclable: bool) {
    && k1.log != [] && k1.log[|k1.log| - 1].Got?
    && var e := k1.log[|k1.log| - 1].e;
    && k1.log == k.log + [Got(e)] && e <= |k.events| && e < |k1.events|
    && k1.events == Put(k.events, e, k1.events[e]) && Clear(k1.events[e], recyclable)
    && (e < |k.events| ==> e in k.eventPool) && e !in k1.eventPool
    && k1.queue == k.queue && k1.procs == k.procs && k1.now == k.now && k1.ctl == k.ctl
  }

  lemma {:induction false} NewHandle(u: User, ms: seq<Move>, m: Move, c: Cmd)
    requires CallOf(u, Reach(u, ms), m) == Some(c) && (c.NewEvent? || c.NewTransient? || c.NewRequest?)
    ensures Made(Reach(u, ms), Reach(u, ms + [m]), c.NewTransient?)
  {
    hide Reach, CallOf, Exec, Made;
    CallMade(u, ms, m, c);
    ReachInv(u, ms);
    MadeClear(Reach(u, ms), c);
  }

  lemma MadeClear(k: Kernel, c: Cmd)
    requires Inv(k) && (c.NewEvent? || c.NewTransient? || c.NewRequest?)
    ensures Made(k, Exec(k, c), c.NewTransient?)
  {
    hide AllFollow, Accepts, Shape;
    NextEventFree(k);
    hide Wf;
    var k1 := Exec(k, c);
    assert k1.log[|k1.log| - 1] == Got(NextEvent(k));
  }
}
