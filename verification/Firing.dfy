/** A triggered event is dispatched at the time it was scheduled for, as it was triggered, or is still
    to be: what a timeout was given, what was passed to sim_event_succeed, and the items that stores
    deliver arrive. And the event of a process that has ended fires. */
module Firings {
  import opened Entries
  import opened Kernel
  import opened Protocol
  import opened Invariants
  import opened ShapeProof
  import opened FollowProof
  import opened Runs
  import opened Wakeups

  // ---------- from the queue to the dispatch ----------

  /** Only the callbacks may differ. */
  predicate SameBut(ev: Event, ev1: Event) {
    ev1 == ev.(cbs := ev1.cbs)
  }

  /** The entry `x` is queued in both, and its event is as it was but for new callbacks. */
  ghost predicate Kept(k: Kernel, k1: Kernel, x: Entry) {
    && x in k.queue && x in k1.queue && x.event < |k.events| && x.event < |k1.events|
    && SameBut(k.events[x.event], k1.events[x.event])
  }

  /** `k1` is `k` after the dispatch of `x`: at its time, with its event's value and callbacks. */
  ghost predicate Fires(k: Kernel, k1: Kernel, x: Entry) {
    && x in k.queue && x.event < |k.events| && x.event < |k1.events|
    && var ev := k.events[x.event];
    && k1.queue == k.queue - {x} && k1.now == x.time
    && k1.log == k.log + [Dispatched(x.event, ev.value, x.time)]
    && k1.ctl == Dispatch(x.event, ev.cbs, Loop)
    && k1.events[x.event] == ev.(state := Processed, cbs := [])
  }


  lemma {:induction false} ExecKeeps(k: Kernel, c: Cmd, e: EventId)
    requires Inv(k) && Legal(k, c) && InControl(k.ctl) && Handle(k, e) && k.events[e].state.Triggered?
    ensures var k1 := Exec(k, c); e < |k1.events| && SameBut(k.events[e], k1.events[e])
  {
    hide AllFollow, Shape, Accepts, Wf, Exec;
    match c
    case Spawn => ProcessKeeps(k, c, e);
    case ProcEvent(_) => ProcessKeeps(k, c, e);
    case Interrupt(_, _) => ProcessKeeps(k, c, e);
    case Yield(x) => YieldKeeps(k, x, e);
    case Return => ReturnKeeps(k, e);
    case Succeed(_, _) => EventKeeps(k, c, e);
    case Fail(_, _) => EventKeeps(k, c, e);
    case On(_, _) => EventKeeps(k, c, e);
    case Recycle(_) => EventKeeps(k, c, e);
    case _ => AllocKeeps(k, c, e);
  }

  lemma EventKeeps(k: Kernel, c: Cmd, e: EventId)
    requires Wf(k) && Legal(k, c) && (c.Succeed? || c.Fail? || c.On? || c.Recycle?)
    requires e < |k.events| && k.events[e].state.Triggered?
    ensures var k1 := Exec(k, c); e < |k1.events| && SameBut(k.events[e], k1.events[e])
  {
  }

  lemma AllocKeeps(k: Kernel, c: Cmd, e: EventId)
    requires Inv(k) && Legal(k, c) && (c.NewEvent? || c.NewTransient? || c.NewRequest? || c.Timeout?)
    requires Handle(k, e) && k.events[e].state.Triggered?
    ensures var k1 := Exec(k, c); e < |k1.events| && SameBut(k.events[e], k1.events[e])
  {
    hide AllFollow, Shape, Accepts;
    PlaceKeeps(k, e);
  }

  lemma {:induction false} ProcessKeeps(k: Kernel, c: Cmd, e: EventId)
    requires Inv(k) && Legal(k, c) && InControl(k.ctl) && (c.Spawn? || c.ProcEvent? || c.Interrupt?)
    requires Handle(k, e) && k.events[e].state.Triggered?
    ensures var k1 := Exec(k, c); e < |k1.events| && SameBut(k.events[e], k1.events[e])
  {
    hide AllFollow, Shape, Accepts, Spawning, Interrupting;
    match c
    case Spawn => SpawnKeeps(k, e);
    case ProcEvent(_) => PlaceKeeps(k, e);
    case Interrupt(p, v) => InterruptKeeps(k, p, v, e);
  }

  /** Allocation takes no triggered event. */
  lemma PlaceKeeps(k: Kernel, e: EventId)
    requires Wf(k) && Shape(k) && e < |k.events| && k.events[e].state.Triggered?
    ensures NextEvent(k) != e
  {
    NextEventFree(k);
  }

  lemma ReturnKeeps(k: Kernel, e: EventId)
    requires Inv(k) && Legal(k, Return) && Handle(k, e) && k.events[e].state.Triggered?
    ensures var k1 := Exec(k, Return); e < |k1.events| && k1.events[e] == k.events[e]
  {
    hide AllFollow, Shape, Accepts;
    assert CtlOk(k.ctl, |k.events|, |k.procs|);
    if k.ctl.who.InProc? { assert ProcOk(k.procs[k.ctl.who.p], |k.events|); }
  }

  lemma SpawnKeeps(k: Kernel, e: EventId)
    requires Inv(k) && InControl(k.ctl) && Handle(k, e) && k.events[e].state.Triggered?
    ensures e < |Spawning(k).events| && Spawning(k).events[e] == k.events[e]
  {
    AllocProcWf(k);
    NextEventFree(k);
    if k.procPool == [] {
      CreateEffect(k);
    } else {
      ReuseShape(k);
      NoResumeLeft(k, NextProc(k));
      ScheduleResumeEffect(AllocProc(k), NextProc(k), NULL);
    }
  }

  lemma InterruptKeeps(k: Kernel, p: ProcId, c: Value, e: EventId)
    requires Inv(k) && p < |k.procs| && InControl(k.ctl) && Handle(k, e)
    ensures e < |Interrupting(k, p, c).events| && Interrupting(k, p, c).events[e] == k.events[e]
  {
    var pr := k.procs[p];
    if !(pr.state.Dead? || pr.interruptPending) {
      var pr1 := pr.(interruptPending := true, cause := c, yielded := None);
      SetProcShape(k, p, pr1);
      SetProcWf(k, p, pr1);
      NoResumeLeft(k, p);
      ScheduleResumeEffect(SetProc(k, p, pr1), p, c);
    }
  }

  lemma YieldKeeps(k: Kernel, x: EventId, e: EventId)
    requires Inv(k) && Legal(k, Yield(x)) && Handle(k, e) && k.events[e].state.Triggered?
    ensures var k1 := Exec(k, Yield(x)); e < |k1.events| && SameBut(k.events[e], k1.events[e])
  {
    assert CtlOk(k.ctl, |k.events|, |k.procs|);
    if k.events[x].state.Processed? { SuspendReadyEffect(k, k.ctl.who.p, x); }
  }

  /** A move keeps a queued entry of user code's, or dispatches it. */
  lemma {:induction false} EntryStep(u: User, k: Kernel, m: Move, x: Entry)
    requires Inv(k) && x in k.queue && Handle(k, x.event)
    ensures Kept(k, Apply(u, k, m), x) || (m.Run? && Fires(k, Apply(u, k, m), x))
  {
    var e := x.event;
    assert k.events[e].state.Triggered? && Queued(k.queue, e);
    hide AllFollow, Accepts;
    match m
    case Host(c) => if k.ctl.Idle? && Legal(k, c) { ExecKeeps(k, c, e); ExecLate(k, c); }
    case Run =>
      match k.ctl {
        case Idle => PopStep(k, x);
        case Dispatch(_, rest, Loop) =>
          LoopLate(u, k);
          if rest != [] { CallbackKeeps(k, e); }
        case Dispatch(_, _, _) =>
          if Legal(k, u(k.log)) { ExecKeeps(k, u(k.log), e); ExecLate(k, u(k.log)); }
      }
    case _ =>
  }

  lemma PopStep(k: Kernel, x: Entry)
    requires Inv(k) && x in k.queue
    ensures Kept(k, Pop(k), x) || Fires(k, Pop(k), x)
  {
    hide AllFollow, Accepts;
    var y := Least(k.queue);
    if y != x { assert y.event != x.event; }
  }

  lemma CallbackKeeps(k: Kernel, e: EventId)
    requires Inv(k) && k.ctl.Dispatch? && k.ctl.who.Loop? && k.ctl.rest != [] && Handle(k, e)
    ensures e < |RunCallback(k).events| && RunCallback(k).events[e] == k.events[e]
  {
    DropCallbackWf(k);
    DropShape(k);
    match k.ctl.rest[0]
    case WaiterCb(p) =>
      if !k.procs[p].state.Dead? && k.procs[p].yielded == Some(k.ctl.e) {
        ScheduleResumeEffect(DropCallback(k), p, k.events[k.ctl.e].value);
      }
    case _ =>
  }

  /** In every continuation of every history, a queued entry is still queued, its event as it was triggered,
      or was dispatched by one of the moves, at its time and with the event as it was triggered. */
  lemma {:induction false} FiresOnTime(u: User, ms: seq<Move>, more: seq<Move>, x: Entry)
    requires x in Reach(u, ms).queue && Handle(Reach(u, ms), x.event)
    ensures Kept(Reach(u, ms), Reach(u, ms + more), x) || FiredBy(u, ms, more, x)
  {
    hide Apply, Inv, Wf, Fires, Reach;
    if more == [] {
      assert ms + more == ms;
      ReachInv(u, ms);
      InRange(Reach(u, ms), x);
    } else {
      var n := |more| - 1;
      var init := more[..n];
      FiresOnTime(u, ms, init, x);
      ReachStep(u, ms, more);
      if FiredBy(u, ms, init, x) {
        var i :| 0 <= i < |init| && FiredAt(u, ms, init, i, x);
        assert init[..i] == more[..i] && init[..i + 1] == more[..i + 1];
        assert FiredAt(u, ms, more, i, x);
      } else {
        ReachInv(u, ms + init);
        EntryStep(u, Reach(u, ms + init), more[n], x);
        assert more[..n + 1] == more;
        assert Kept(Reach(u, ms), Reach(u, ms + more), x) || FiredAt(u, ms, more, n, x);
      }
    }
  }

  lemma InRange(k: Kernel, x: Entry)
    requires Inv(k) && x in k.queue
    ensures x.event < |k.events|
  {
  }

  /** Move `i` of `more` dispatched `x`, whose event was until then as it had been after `ms`. */
  ghost predicate FiredAt(u: User, ms: seq<Move>, more: seq<Move>, i: nat, x: Entry)
    requires i < |more|
  {
    && Kept(Reach(u, ms), Reach(u, ms + more[..i]), x)
    && Fires(Reach(u, ms + more[..i]), Reach(u, ms + more[..i + 1]), x)
  }

  ghost predicate FiredBy(u: User, ms: seq<Move>, more: seq<Move>, x: Entry) {
    exists i :: 0 <= i < |more| && FiredAt(u, ms, more, i, x)
  }

  /** A timeout of delay `d` made at time t with value `v` is dispatched at t + d with value `v`, or still to be. */
  lemma {:induction false} TimeoutOnTime(u: User, ms: seq<Move>, m: Move, more: seq<Move>, d: real, v: Value)
    requires CallOf(u, Reach(u, ms), m) == Some(Timeout(d, v))
    ensures var k := Reach(u, ms); var k1 := Reach(u, ms + [m]);
            var x := Entry(k.now + d, NORMAL, k.nextSeq, NextEvent(k));
            && x in k1.queue && Handle(k1, x.event) && k1.events[x.event].value == v && k1.events[x.event].ok
            && k1.log == k.log + [Got(x.event)]
            && (Kept(k1, Reach(u, ms + [m] + more), x) || FiredBy(u, ms + [m], more, x))
  {
    hide Reach, Apply, Exec, CallOf, Kept, FiredBy;
    CallMade(u, ms, m, Timeout(d, v));
    var k := Reach(u, ms);
    assert d >= 0.0;
    hide Legal;
    TimeoutQueued(k, d, v);
    FiresOnTime(u, ms + [m], more, Entry(k.now + d, NORMAL, k.nextSeq, NextEvent(k)));
  }

  lemma TimeoutQueued(k: Kernel, d: real, v: Value)
    requires Wf(k) && d >= 0.0
    ensures var k1 := Exec(k, Timeout(d, v)); var x := Entry(k.now + d, NORMAL, k.nextSeq, NextEvent(k));
            && x in k1.queue && Handle(k1, x.event) && k1.events[x.event].value == v && k1.events[x.event].ok
            && k1.log == k.log + [Got(x.event)]
  {
  }

  /** A pending event succeeded with `v` is dispatched at the same time with value `v`, or still to be;
      succeeding an event that is not pending changes nothing. */
  lemma {:induction false} SucceedOnTime(u: User, ms: seq<Move>, m: Move, more: seq<Move>, e: EventId, v: Value)
    requires CallOf(u, Reach(u, ms), m) == Some(Succeed(e, v))
    ensures var k := Reach(u, ms); var k1 := Reach(u, ms + [m]);
            var x := Entry(k.now, NORMAL, k.nextSeq, e);
            if k.events[e].state.Pending? then
              && k1.queue == k.queue + {x} && Handle(k1, e)
              && k1.events[e] == k.events[e].(state := Triggered, ok := true, value := v)
              && (Kept(k1, Reach(u, ms + [m] + more), x) || FiredBy(u, ms + [m], more, x))
            else k1 == Say(k, Did(Succeed(e, v)))
  {
    hide Reach, Apply, Exec, CallOf, Kept, FiredBy;
    CallMade(u, ms, m, Succeed(e, v));
    var k := Reach(u, ms);
    SucceedQueued(k, e, v);
    if k.events[e].state.Pending? { FiresOnTime(u, ms + [m], more, Entry(k.now, NORMAL, k.nextSeq, e)); }
  }

  lemma SucceedQueued(k: Kernel, e: EventId, v: Value)
    requires Wf(k) && Legal(k, Succeed(e, v))
    ensures var k1 := Exec(k, Succeed(e, v)); var x := Entry(k.now, NORMAL, k.nextSeq, e);
            if k.events[e].state.Pending? then k1.queue == k.queue + {x} && Handle(k1, e)
              && k1.events[e] == k.events[e].(state := Triggered, ok := true, value := v)
            else k1 == Say(k, Did(Succeed(e, v)))
  {
    assert Entry(k.now + 0.0, NORMAL, k.nextSeq, e) == Entry(k.now, NORMAL, k.nextSeq, e);
  }

  /** A pending event failed with the reason `why` is dispatched at the same time, not ok, with that reason and
      the value it had, or still to be; failing an event that is not pending changes nothing. */
  lemma {:induction false} FailOnTime(u: User, ms: seq<Move>, m: Move, more: seq<Move>, e: EventId, why: Value)
    requires CallOf(u, Reach(u, ms), m) == Some(Fail(e, why))
    ensures var k := Reach(u, ms); var k1 := Reach(u, ms + [m]);
            var x := Entry(k.now, NORMAL, k.nextSeq, e);
            if k.events[e].state.Pending? then
              && k1.queue == k.queue + {x} && Handle(k1, e)
              && k1.events[e] == k.events[e].(state := Triggered, ok := false, reason := why)
              && (Kept(k1, Reach(u, ms + [m] + more), x) || FiredBy(u, ms + [m], more, x))
            else k1 == Say(k, Did(Fail(e, why)))
  {
    hide Reach, Apply, Exec, CallOf, Kept, FiredBy;
    CallMade(u, ms, m, Fail(e, why));
    var k := Reach(u, ms);
    FailQueued(k, e, why);
    if k.events[e].state.Pending? { FiresOnTime(u, ms + [m], more, Entry(k.now, NORMAL, k.nextSeq, e)); }
  }

  lemma FailQueued(k: Kernel, e: EventId, why: Value)
    requires Wf(k) && Legal(k, Fail(e, why))
    ensures var k1 := Exec(k, Fail(e, why)); var x := Entry(k.now, NORMAL, k.nextSeq, e);
            if k.events[e].state.Pending? then
              && k1.queue == k.queue + {x} && Handle(k1, e)
              && k1.events[e] == k.events[e].(state := Triggered, ok := false, reason := why)
            else k1 == Say(k, Did(Fail(e, why)))
  {
    assert Entry(k.now + 0.0, NORMAL, k.nextSeq, e) == Entry(k.now, NORMAL, k.nextSeq, e);
  }

  // ---------- the event of a process that has ended ----------

  ghost predicate DoneOk(k: Kernel) {
    forall p :: 0 <= p < |k.procs| && k.procs[p].state.Dead? && k.procs[p].done.Some? ==>
      k.procs[p].done.value < |k.events| && !k.events[k.procs[p].done.value].state.Pending?
  }

  /** No process ends, none that has ended gets another done event, and no done event becomes pending. */
  ghost predicate NoneEnds(k: Kernel, k1: Kernel) {
    && |k.procs| <= |k1.procs| && |k.events| <= |k1.events|
    && (forall p :: 0 <= p < |k.procs| && k1.procs[p].state.Dead? ==>
      k.procs[p].state.Dead? && k1.procs[p].done == k.procs[p].done)
    && (forall p :: |k.procs| <= p < |k1.procs| ==> !k1.procs[p].state.Dead?)
    && (forall e :: 0 <= e < |k.events| && k.events[e].kind.DoneOf? && !k.events[e].state.Pending? ==>
      !k1.events[e].state.Pending?)
  }

  lemma NoneEndsKeeps(k: Kernel, k1: Kernel)
    requires LinksOk(k.procs, k.events) && DoneOk(k) && NoneEnds(k, k1)
    ensures DoneOk(k1)
  {
  }

  lemma AllocDone(k: Kernel, c: Cmd)
    requires Inv(k) && Legal(k, c) && (c.NewEvent? || c.NewTransient? || c.NewRequest? || c.Timeout?)
    ensures NoneEnds(k, Exec(k, c))
  {
    hide AllFollow, Accepts, Shape;
    NextEventFree(k);
  }

  lemma SpawnDone(k: Kernel)
    requires Inv(k) && InControl(k.ctl)
    ensures NoneEnds(k, Spawning(k))
  {
    hide AllFollow, Accepts, Shape, NoneEnds, Spawning;
    if k.procPool == [] { CreateDone(k); } else { ReuseDone(k); }
  }

  lemma CreateDone(k: Kernel)
    requires Inv(k) && k.procPool == []
    ensures NoneEnds(k, Spawning(k))
  {
    hide AllFollow, Accepts, Shape, Spawning;
    NextEventFree(k);
    CreateEffect(k);
  }

  lemma ReuseDone(k: Kernel)
    requires Inv(k) && InControl(k.ctl) && k.procPool != []
    ensures NoneEnds(k, Spawning(k))
  {
    hide AllFollow, Accepts, Shape, ScheduleResume;
    AllocProcWf(k);
    ReuseShape(k);
    LoopShape(k);
    NoResumeLeft(k, NextProc(k));
    ScheduleResumeEffect(AllocProc(k), NextProc(k), NULL);
  }

  lemma LoopShape(k: Kernel)
    requires Shape(k)
    ensures LoopOk(k.ctl, k.events)
  {
  }

  lemma InterruptDone(k: Kernel, p: ProcId, c: Value)
    requires Inv(k) && p < |k.procs| && InControl(k.ctl)
    ensures NoneEnds(k, Interrupting(k, p, c))
  {
    hide AllFollow, Accepts;
    var pr := k.procs[p];
    if !(pr.state.Dead? || pr.interruptPending) {
      var pr1 := pr.(interruptPending := true, cause := c, yielded := None);
      SetProcShape(k, p, pr1);
      SetProcWf(k, p, pr1);
      NoResumeLeft(k, p);
      ScheduleResumeEffect(SetProc(k, p, pr1), p, c);
    }
  }

  lemma YieldDone(k: Kernel, e: EventId)
    requires Inv(k) && Legal(k, Yield(e))
    ensures NoneEnds(k, Exec(k, Yield(e)))
  {
    hide AllFollow, Accepts;
    assert CtlOk(k.ctl, |k.events|, |k.procs|);
    if k.events[e].state.Processed? { SuspendReadyEffect(k, k.ctl.who.p, e); }
  }

  /** The process that ends succeeds its done event, if it has one that is still pending. */
  lemma ReturnDone(k: Kernel)
    requires Inv(k) && DoneOk(k) && Legal(k, Return)
    ensures DoneOk(Exec(k, Return))
  {
    hide AllFollow, Accepts;
    assert CtlOk(k.ctl, |k.events|, |k.procs|);
    if k.ctl.who.InProc? { assert ProcOk(k.procs[k.ctl.who.p], |k.events|); }
  }

  /** The done event of a process that has ended already is made and succeeded at once. */
  lemma ProcessEventDone(k: Kernel, p: ProcId)
    requires Inv(k) && DoneOk(k) && p < |k.procs|
    ensures DoneOk(ProcessEvent(k, p).0)
  {
    hide AllFollow, Accepts, Shape;
    NextEventFree(k);
    OwnerLinks(k);
  }

  lemma ExecDone(k: Kernel, c: Cmd)
    requires Inv(k) && DoneOk(k) && Legal(k, c) && InControl(k.ctl)
    ensures DoneOk(Exec(k, c))
  {
    hide AllFollow, Accepts, Shape, LinksOk, DoneOk;
    OwnerLinks(k);
    match c
    case Spawn => SpawnDone(k); NoneEndsKeeps(k, Exec(k, c));
    case ProcEvent(p) => ProcessEventDone(k, p); SayDone(ProcessEvent(k, p).0, Exec(k, c));
    case Interrupt(p, v) => InterruptDone(k, p, v); NoneEndsKeeps(k, Exec(k, c));
    case Yield(e) => YieldDone(k, e); NoneEndsKeeps(k, Exec(k, c));
    case Return => ReturnDone(k);
    case Succeed(_, _) => NoneEndsKeeps(k, Exec(k, c));
    case Fail(_, _) => NoneEndsKeeps(k, Exec(k, c));
    case On(_, _) => NoneEndsKeeps(k, Exec(k, c));
    case Recycle(_) => NoneEndsKeeps(k, Exec(k, c));
    case _ => AllocDone(k, c); NoneEndsKeeps(k, Exec(k, c));
  }

  lemma SayDone(k: Kernel, k1: Kernel)
    requires DoneOk(k) && k1.events == k.events && k1.procs == k.procs
    ensures DoneOk(k1)
  {
  }

  lemma CallbackDone(k: Kernel)
    requires Inv(k) && k.ctl.Dispatch? && k.ctl.who.Loop? && k.ctl.rest != []
    ensures NoneEnds(k, RunCallback(k))
  {
    hide AllFollow, Accepts, QueueOk, AllQueued, EventsOk, LinksOk, PoolOk, DeadOk, TraceOk;
    DropCallbackWf(k);
    DropShape(k);
    match k.ctl.rest[0]
    case WaiterCb(p) =>
      if !k.procs[p].state.Dead? && k.procs[p].yielded == Some(k.ctl.e) {
        ScheduleResumeEffect(DropCallback(k), p, k.events[k.ctl.e].value);
      }
    case _ =>
  }

  lemma PopDone(k: Kernel)
    requires Inv(k) && k.queue != {}
    ensures NoneEnds(k, Pop(k))
  {
  }

  lemma ApplyDone(u: User, k: Kernel, m: Move)
    requires Inv(k) && DoneOk(k)
    ensures DoneOk(Apply(u, k, m))
  {
    hide AllFollow, Accepts, Shape, LinksOk, DoneOk;
    OwnerLinks(k);
    match m
    case Host(c) => if k.ctl.Idle? && Legal(k, c) { ExecDone(k, c); }
    case Run =>
      match k.ctl {
        case Idle => if k.queue != {} { PopDone(k); NoneEndsKeeps(k, Pop(k)); }
        case Dispatch(_, rest, Loop) =>
          if rest == [] { SayDone(k, Finish(k)); } else { CallbackDone(k); NoneEndsKeeps(k, RunCallback(k)); }
        case Dispatch(_, _, _) => if Legal(k, u(k.log)) { ExecDone(k, u(k.log)); }
      }
    case _ => SayDone(k, Apply(u, k, m));
  }

  lemma {:induction false} ReachDone(u: User, ms: seq<Move>)
    ensures DoneOk(Reach(u, ms))
  {
    hide Apply, Inv;
    if ms != [] {
      var init := ms[..|ms| - 1];
      ReachDone(u, init);
      ReachInv(u, init);
      ApplyDone(u, Reach(u, init), ms[|ms| - 1]);
    }
  }

  /** In every history, the event of a process that has ended has been processed, or is queued and will be:
      nobody who waits for a process waits for ever, whether the event was asked for before or after. */
  lemma {:induction false} EndIsAnnounced(u: User, ms: seq<Move>, k: Kernel, p: ProcId, d: EventId)
    requires k == Reach(u, ms) && p < |k.procs| && RefOf(k.log, p).Gone? && k.procs[p].done == Some(d)
    ensures d < |k.events| && (k.events[d].state.Processed? || Queued(k.queue, d))
  {
    ReachInv(u, ms);
    ReachDone(u, ms);
    assert Follows(k.events, k.procs[p], p, k.ctl, RefOf(k.log, p));
  }
}
