/** Every kernel operation follows the per-process automaton. */
module FollowProof {
  import opened Entries
  import opened Kernel
  import opened Protocol
  import opened Invariants
  import opened ShapeProof

  // ---------- frames ----------

  ghost predicate SameWait(a: Event, b: Event, p: ProcId) {
    && (WaiterCb(p) in a.cbs <==> WaiterCb(p) in b.cbs)
    && (!a.state.Processed? ==> !b.state.Processed? && b.kind == a.kind)
  }

  /** What `Follows` reads of the events is the same in both. */
  ghost predicate SameFor(evs: seq<Event>, evs': seq<Event>, pr: Proc, p: ProcId, ctl: Control) {
    && |evs| <= |evs'|
    && (pr.resumeEv.Some? ==>
      && pr.resumeEv.value < |evs|
      && evs'[pr.resumeEv.value].state.Triggered? == evs[pr.resumeEv.value].state.Triggered?)
    && (pr.yielded.Some? ==>
      && pr.yielded.value < |evs|
      && SameWait(evs[pr.yielded.value], evs'[pr.yielded.value], p))
    && (WaiterNext(pr, p, ctl) ==> evs'[ctl.e].value == evs[ctl.e].value)
  }

  lemma FollowsFrame(evs: seq<Event>, evs': seq<Event>, pr: Proc, p: ProcId, ctl: Control, r: Ref)
    requires Follows(evs, pr, p, ctl, r) && SameFor(evs, evs', pr, p, ctl)
    ensures Follows(evs', pr, p, ctl, r)
  {
  }

  /** A slot update that no process notices. */
  ghost predicate Unnoticed(evs: seq<Event>, ctl: Control, e: EventId, ev: Event) {
    && e <= |evs|
    && (e < |evs| ==>
      && !evs[e].kind.ResumeOf?
      && (!evs[e].state.Processed? ==> !ev.state.Processed? && ev.kind == evs[e].kind)
      && (forall p :: WaiterCb(p) in evs[e].cbs <==> WaiterCb(p) in ev.cbs)
      && (ctl.Dispatch? && ctl.e == e ==> ev.value == evs[e].value))
  }

  lemma PutFollows(k: Kernel, e: EventId, ev: Event, k1: Kernel)
    requires Wf(k) && LinksOk(k.procs, k.events) && AllFollow(k) && Unnoticed(k.events, k.ctl, e, ev)
    requires k1.events == Put(k.events, e, ev) && k1.procs == k.procs && k1.ctl == k.ctl && k1.log == k.log
    ensures AllFollow(k1)
  {
    forall p | 0 <= p < |k1.procs| ensures Follows(k1.events, k1.procs[p], p, k1.ctl, RefOf(k1.log, p)) {
      assert ProcOk(k.procs[p], |k.events|);
      FollowsFrame(k.events, k1.events, k.procs[p], p, k.ctl, RefOf(k.log, p));
    }
  }

  /** An observation that moves no process. */
  predicate Neutral(o: Obs) {
    o.Got? || o.GotDone? || o.Called? || o.Entered? || o.Left? || (o.Did? && !o.c.Interrupt?)
  }

  lemma SayNeutral(k: Kernel, o: Obs)
    requires AllFollow(k) && Accepts(k.log) && Neutral(o)
    ensures AllFollow(Say(k, o)) && Accepts(Say(k, o).log)
  {
    forall p ensures RefOf(k.log + [o], p) == RefOf(k.log, p) { RefOfSay(k.log, o, p); }
    AcceptsSay(k.log, o);
  }

  // ---------- events ----------

  lemma PlaceFollows(k: Kernel, ev: Event, k1: Kernel)
    requires Inv(k) && ev.cbs == []
    requires k1.events == Put(k.events, NextEvent(k), ev) && k1.procs == k.procs && k1.ctl == k.ctl && k1.log == k.log
    ensures AllFollow(k1)
  {
    NextEventFree(k);
    var e := NextEvent(k);
    if e < |k.events| { assert EventOk(k.events[e], e, k.procs); }
    PutFollows(k, e, ev, k1);
  }

  lemma SucceededFollows(k: Kernel, e: EventId, v: Value)
    requires Inv(k) && e < |k.events|
    ensures AllFollow(Succeeded(k, e, v)) && Accepts(Succeeded(k, e, v).log)
  {
    if k.events[e].state.Pending? {
      assert EventOk(k.events[e], e, k.procs);
      assert LoopOk(k.ctl, k.events);
      PutFollows(k, e, k.events[e].(value := v, ok := true, state := Triggered), Succeeded(k, e, v));
    }
  }

  lemma FailedFollows(k: Kernel, e: EventId, why: Value)
    requires Inv(k) && e < |k.events|
    ensures AllFollow(Failed(k, e, why)) && Accepts(Failed(k, e, why).log)
  {
    if k.events[e].state.Pending? {
      assert EventOk(k.events[e], e, k.procs);
      assert LoopOk(k.ctl, k.events);
      PutFollows(k, e, k.events[e].(reason := why, ok := false, state := Triggered), Failed(k, e, why));
    }
  }

  lemma OnFollows(k: Kernel, e: EventId, tag: int)
    requires Inv(k) && Handle(k, e) && !k.events[e].state.Processed?
    ensures AllFollow(Subscribed(k, e, UserCb(tag)))
  {
    PutFollows(k, e, k.events[e].(cbs := k.events[e].cbs + [UserCb(tag)]), Subscribed(k, e, UserCb(tag)));
  }

  // ---------- resumes ----------

  /** What scheduling a resume of `p` does, when no switch to `p` is being delivered. */
  lemma ScheduleResumeEffect(k: Kernel, p: ProcId, v: Value)
    requires Wf(k) && Shape(k) && p < |k.procs| && !RestHas(k.ctl, ResumeCb(p))
    ensures var k1 := ScheduleResume(k, p, v); var r := k.procs[p].resumeEv.value;
            && k1.procs == k.procs[p := k.procs[p].(resumeValue := v)]
            && k1.ctl == k.ctl && k1.log == k.log && |k1.events| == |k.events|
            && r < |k.events| && k1.events[r].state.Triggered? && k1.events[r].kind == ResumeOf(p)
            && k1.events[r].cbs == [ResumeCb(p)]
            && forall e :: 0 <= e < |k.events| && e != r ==> k1.events[e] == k.events[e]
  {
    hide QueueOk, AllQueued, PoolOk, DeadOk, TraceOk;
    var r := k.procs[p].resumeEv.value;
    assert EventOk(k.events[r], r, k.procs);
  }

  /** Processes other than `p` do not notice that `p`'s resume event changes. */
  lemma OtherFollows(k: Kernel, k1: Kernel, p: ProcId, q: ProcId)
    requires Inv(k) && p < |k.procs| && q < |k.procs| && q != p
    requires |k1.events| == |k.events| && k1.ctl == k.ctl
    requires var r := k.procs[p].resumeEv.value;
             && k1.events[r].cbs == [ResumeCb(p)] && k1.events[r].kind == ResumeOf(p)
             && !k1.events[r].state.Processed?
             && forall e :: 0 <= e < |k.events| && e != r ==> k1.events[e] == k.events[e]
    ensures Follows(k1.events, k.procs[q], q, k1.ctl, RefOf(k.log, q))
  {
    hide QueueOk, AllQueued, PoolOk, DeadOk, TraceOk;
    var r := k.procs[p].resumeEv.value;
    assert ProcOk(k.procs[q], |k.events|);
    assert EventOk(k.events[r], r, k.procs);
    assert LoopOk(k.ctl, k.events);
    FollowsFrame(k.events, k1.events, k.procs[q], q, k.ctl, RefOf(k.log, q));
  }

  lemma InterruptFollows(k: Kernel, p: ProcId, c: Value)
    requires Inv(k) && p < |k.procs| && InControl(k.ctl)
    ensures AllFollow(Exec(k, Interrupt(p, c))) && Accepts(Exec(k, Interrupt(p, c)).log)
  {
    var o := Did(Interrupt(p, c));
    var k2 := Exec(k, Interrupt(p, c));
    AcceptsSay(k.log, o);
    forall q ensures RefOf(k.log + [o], q) == Next(RefOf(k.log, q), o, q) { RefOfSay(k.log, o, q); }
    var pr := k.procs[p];
    if pr.state.Dead? || pr.interruptPending {
      assert Follows(k.events, pr, p, k.ctl, RefOf(k.log, p));
    } else {
      InterruptedFollows(k, p, c);
    }
  }

  lemma InterruptedFollows(k: Kernel, p: ProcId, c: Value)
    requires Inv(k) && p < |k.procs| && InControl(k.ctl)
    requires !k.procs[p].state.Dead? && !k.procs[p].interruptPending
    ensures var k1 := Interrupting(k, p, c);
            && k1.log == k.log && |k1.procs| == |k.procs|
            && (forall q :: 0 <= q < |k1.procs| ==>
              Follows(k1.events, k1.procs[q], q, k1.ctl, Next(RefOf(k.log, q), Did(Interrupt(p, c)), q)))
  {
    hide QueueOk, AllQueued, PoolOk, DeadOk, TraceOk;
    var o := Did(Interrupt(p, c));
    var pr := k.procs[p];
    var pr1 := pr.(interruptPending := true, cause := c, yielded := None);
    var k0 := SetProc(k, p, pr1);
    var k1 := Interrupting(k, p, c);
    SetProcShape(k, p, pr1);
    assert ProcOk(pr, |k.events|);
    assert Wf(k0);
    NoResumeLeft(k, p);
    ScheduleResumeEffect(k0, p, c);
    assert Follows(k.events, pr, p, k.ctl, RefOf(k.log, p));
    forall q | 0 <= q < |k1.procs| ensures Follows(k1.events, k1.procs[q], q, k1.ctl, Next(RefOf(k.log, q), o, q)) {
      if q != p { OtherFollows(k, k1, p, q); }
    }
  }

  // ---------- yield, return, spawn ----------

  /** `p` is suspended: the wait is on, or the event was already processed and the resume is scheduled. */
  lemma YieldFollows(k: Kernel, e: EventId)
    requires Inv(k) && Legal(k, Yield(e))
    ensures AllFollow(Exec(k, Yield(e))) && Accepts(Exec(k, Yield(e)).log)
  {
    var p := k.ctl.who.p;
    var ev := k.events[e];
    var o := Yielded(p, e, ev.state.Processed?, ev.value);
    assert CtlOk(k.ctl, |k.events|, |k.procs|);
    assert Follows(k.events, k.procs[p], p, k.ctl, RefOf(k.log, p));
    AcceptsSay(k.log, o);
    forall q ensures RefOf(k.log + [o], q) == Next(RefOf(k.log, q), o, q) { RefOfSay(k.log, o, q); }
    if ev.state.Processed? { YieldReadyFollows(k, e); } else { YieldWaitsFollows(k, e); }
  }

  lemma YieldReadyFollows(k: Kernel, e: EventId)
    requires Inv(k) && Legal(k, Yield(e)) && k.events[e].state.Processed?
    ensures var p := k.ctl.who.p; var k1 := Exec(k, Yield(e));
            && |k1.procs| == |k.procs|
            && forall q :: 0 <= q < |k.procs| ==>
              Follows(k1.events, k1.procs[q], q, k1.ctl, Next(RefOf(k.log, q), Yielded(p, e, true, k.events[e].value), q))
  {
    hide QueueOk, AllQueued, PoolOk, DeadOk, TraceOk;
    var p := k.ctl.who.p;
    var k1 := Exec(k, Yield(e));
    SuspendReadyEffect(k, p, e);
    assert EventOk(k.events[e], e, k.procs);
    assert Follows(k.events, k.procs[p], p, k.ctl, RefOf(k.log, p));
    forall q | 0 <= q < |k.procs|
      ensures Follows(k1.events, k1.procs[q], q, k1.ctl, Next(RefOf(k.log, q), Yielded(p, e, true, k.events[e].value), q))
    {
      if q != p {
        OtherFollows(k, k1.(ctl := k.ctl), p, q);
        WhoFollows(k1.events, k.procs[q], q, k.ctl, Loop, RefOf(k.log, q));
      }
    }
  }

  lemma SuspendReadyEffect(k: Kernel, p: ProcId, e: EventId)
    requires Inv(k) && p < |k.procs| && InControl(k.ctl) && e < |k.events| && k.events[e].state.Processed?
    ensures var k1 := Suspend(k, p, e); var r := k.procs[p].resumeEv.value;
            && k1.procs == k.procs[p := k.procs[p].(yielded := Some(e), resumeValue := k.events[e].value)]
            && k1.ctl == k.ctl && k1.log == k.log && |k1.events| == |k.events|
            && r < |k.events| && k1.events[r].state.Triggered? && k1.events[r].kind == ResumeOf(p)
            && k1.events[r].cbs == [ResumeCb(p)]
            && forall i :: 0 <= i < |k.events| && i != r ==> k1.events[i] == k.events[i]
  {
    hide QueueOk, AllQueued, PoolOk, DeadOk, TraceOk;
    var pr1 := k.procs[p].(yielded := Some(e));
    var k0 := SetProc(k, p, pr1);
    SetProcShape(k, p, pr1);
    assert ProcOk(k.procs[p], |k.events|);
    assert Wf(k0);
    NoResumeLeft(k, p);
    ScheduleResumeEffect(k0, p, k.events[e].value);
  }

  /** Who has control matters only to the process that has or gets it. */
  lemma WhoFollows(evs: seq<Event>, pr: Proc, p: ProcId, ctl: Control, who: Runner, r: Ref)
    requires Follows(evs, pr, p, ctl, r) && ctl.Dispatch? && ctl.who != InProc(p) && who != InProc(p)
    ensures Follows(evs, pr, p, ctl.(who := who), r)
  {
  }

  lemma YieldWaitsFollows(k: Kernel, e: EventId)
    requires Inv(k) && Legal(k, Yield(e)) && !k.events[e].state.Processed?
    ensures var p := k.ctl.who.p; var k1 := Exec(k, Yield(e));
            && |k1.procs| == |k.procs|
            && forall q :: 0 <= q < |k.procs| ==>
              Follows(k1.events, k1.procs[q], q, k1.ctl, Next(RefOf(k.log, q), Yielded(p, e, false, k.events[e].value), q))
  {
    hide QueueOk, AllQueued, PoolOk, DeadOk, TraceOk;
    var p := k.ctl.who.p;
    var k1 := Exec(k, Yield(e));
    var pr := k.procs[p];
    assert Follows(k.events, pr, p, k.ctl, RefOf(k.log, p));
    forall q | 0 <= q < |k.procs|
      ensures Follows(k1.events, k1.procs[q], q, k1.ctl, Next(RefOf(k.log, q), Yielded(p, e, false, k.events[e].value), q))
    {
      if q != p {
        assert ProcOk(k.procs[q], |k.events|);
        FollowsFrame(k.events, k1.events, k.procs[q], q, k.ctl, RefOf(k.log, q));
        WhoFollows(k1.events, k.procs[q], q, k.ctl, Loop, RefOf(k.log, q));
      }
    }
  }

  lemma ReturnFollows(k: Kernel)
    requires Inv(k) && Legal(k, Return)
    ensures AllFollow(Exec(k, Return)) && Accepts(Exec(k, Return).log)
  {
    assert CtlOk(k.ctl, |k.events|, |k.procs|);
    if k.ctl.who.InProc? {
      ExitFollows(k, k.ctl.who.p);
    } else {
      SayNeutral(k, Left);
      forall q | 0 <= q < |k.procs|
        ensures Follows(k.events, k.procs[q], q, k.ctl.(who := Loop), RefOf(k.log + [Left], q)) {
        WhoFollows(k.events, k.procs[q], q, k.ctl, Loop, RefOf(k.log + [Left], q));
      }
    }
  }

  lemma ExitFollows(k: Kernel, p: ProcId)
    requires Inv(k) && Legal(k, Return) && k.ctl.who == InProc(p) && p < |k.procs|
    ensures AllFollow(Exec(k, Return)) && Accepts(Exec(k, Return).log)
  {
    var d := k.procs[p].done;
    assert Follows(k.events, k.procs[p], p, k.ctl, RefOf(k.log, p));
    AcceptsSay(k.log, Exited(p));
    assert ProcOk(k.procs[p], |k.events|);
    var k1 := if d.Some? && k.events[d.value].state.Pending? then Succeeded(k, d.value, NULL) else k;
    if d.Some? { SucceededFollows(k, d.value, NULL); }
    DieFollows(k1, p, Exec(k, Return));
  }

  lemma DieFollows(k1: Kernel, p: ProcId, k2: Kernel)
    requires AllFollow(k1) && p < |k1.procs| && k1.ctl.Dispatch? && k1.ctl.who == InProc(p)
    requires k2.events == k1.events && k2.procs == k1.procs[p := k1.procs[p].(state := Dead)]
    requires k2.ctl == k1.ctl.(who := Loop) && k2.log == k1.log + [Exited(p)]
    ensures AllFollow(k2)
  {
    forall q ensures RefOf(k2.log, q) == Next(RefOf(k1.log, q), Exited(p), q) { RefOfSay(k1.log, Exited(p), q); }
    assert Follows(k1.events, k1.procs[p], p, k1.ctl, RefOf(k1.log, p));
    forall q | 0 <= q < |k2.procs| ensures Follows(k2.events, k2.procs[q], q, k2.ctl, RefOf(k2.log, q)) {
      if q != p { WhoFollows(k1.events, k1.procs[q], q, k1.ctl, Loop, RefOf(k1.log, q)); }
    }
  }

  lemma SpawnFollows(k: Kernel)
    requires Inv(k) && InControl(k.ctl)
    ensures AllFollow(Exec(k, Spawn)) && Accepts(Exec(k, Spawn).log)
  {
    var p := NextProc(k);
    var o := Spawned(p);
    assert RefOf(k.log, p) == Absent || RefOf(k.log, p) == Gone by {
      if p < |k.procs| { assert Follows(k.events, k.procs[p], p, k.ctl, RefOf(k.log, p)); }
    }
    AcceptsSay(k.log, o);
    forall q ensures RefOf(k.log + [o], q) == Next(RefOf(k.log, q), o, q) { RefOfSay(k.log, o, q); }
    if k.procPool == [] { CreateFollows(k); } else { ReuseFollows(k); }
  }

  lemma ReuseFollows(k: Kernel)
    requires Inv(k) && InControl(k.ctl) && k.procPool != []
    ensures var p := NextProc(k); var k1 := Spawning(k);
            && |k1.procs| == |k.procs| && k1.log == k.log
            && forall q :: 0 <= q < |k.procs| ==>
              Follows(k1.events, k1.procs[q], q, k1.ctl, Next(RefOf(k.log, q), Spawned(p), q))
  {
    hide QueueOk, AllQueued, TraceOk;
    var p := NextProc(k);
    var k0 := AllocProc(k);
    var k1 := Spawning(k);
    AllocProcWf(k);
    ReuseShape(k);
    NoResumeLeft(k, p);
    ScheduleResumeEffect(k0, p, NULL);
    assert Follows(k.events, k.procs[p], p, k.ctl, RefOf(k.log, p));
    forall q | 0 <= q < |k.procs|
      ensures Follows(k1.events, k1.procs[q], q, k1.ctl, Next(RefOf(k.log, q), Spawned(p), q)) {
      if q != p {
        OtherFollows(k, k1, p, q);
      } else {
        assert k1.ctl.Dispatch? ==> k1.ctl.who != InProc(p);
      }
    }
  }

  lemma CreateFollows(k: Kernel)
    requires Inv(k) && InControl(k.ctl) && k.procPool == []
    ensures var p := NextProc(k); var k1 := Spawning(k);
            && |k1.procs| == |k.procs| + 1 && k1.log == k.log
            && forall q :: 0 <= q < |k1.procs| ==>
              Follows(k1.events, k1.procs[q], q, k1.ctl, Next(RefOf(k.log, q), Spawned(p), q))
  {
    var p, r := |k.procs|, NextEvent(k);
    AllocProcWf(k);
    var k1 := Spawning(k);
    var ev := Fresh(ResumeOf(p)).(state := Triggered, cbs := [ResumeCb(p)]);
    assert [] + [ResumeCb(p)] == [ResumeCb(p)];
    assert k1.procs == k.procs + [NewProc(Some(r))];
    assert k1.events == Put(k.events, r, ev);
    NextEventFree(k);
    if r < |k.events| { assert EventOk(k.events[r], r, k.procs); }
    PutFollows(k, r, ev, k.(events := k1.events));
    assert CtlOk(k.ctl, |k.events|, |k.procs|);
  }

  // ---------- the loop ----------

  lemma PopFollows(k: Kernel)
    requires Inv(k) && k.ctl.Idle? && k.queue != {}
    ensures AllFollow(Pop(k)) && Accepts(Pop(k).log)
  {
    var x := Least(k.queue);
    var e := x.event;
    var k1 := Pop(k);
    var o := Dispatched(e, k.events[e].value, x.time);
    AcceptsSay(k.log, o);
    forall q ensures RefOf(k1.log, q) == Next(RefOf(k.log, q), o, q) { RefOfSay(k.log, o, q); }
    assert EventOk(k.events[e], e, k.procs);
    forall p | 0 <= p < |k1.procs| ensures Follows(k1.events, k1.procs[p], p, k1.ctl, RefOf(k1.log, p)) {
      assert ProcOk(k.procs[p], |k.events|);
      assert Follows(k.events, k.procs[p], p, k.ctl, RefOf(k.log, p));
      PoppedFollows(k.events, k.procs, p, e, x.time, RefOf(k.log, p));
    }
  }

  /** The dispatch of `e`, seen by one process: if it is the process's own resume event the switch is
      still on its way; if the process waits for `e` its callback is in the snapshot; a process that
      was already woken by an earlier event at the same address has no callback there. */
  lemma PoppedFollows(evs: seq<Event>, procs: seq<Proc>, p: ProcId, e: EventId, at: real, r: Ref)
    requires p < |procs| && e < |evs| && evs[e].state.Triggered? && EventOk(evs[e], e, procs)
    requires LinksOk(procs, evs) && ProcOk(procs[p], |evs|)
    requires Follows(evs, procs[p], p, Idle, r)
    ensures Follows(evs[e := evs[e].(state := Processed, cbs := [])], procs[p], p, Dispatch(e, evs[e].cbs, Loop),
                    Next(r, Dispatched(e, evs[e].value, at), p))
  {
    var pr := procs[p];
    var evs' := evs[e := evs[e].(state := Processed, cbs := [])];
    var ctl := Dispatch(e, evs[e].cbs, Loop);
    assert InFlight(evs', pr, p, ctl) == InFlight(evs, pr, p, Idle) by {
      if e == pr.resumeEv.value {
        assert ResumeCb(p) in ctl.rest;
      } else {
        assert ResumeCb(p) !in ctl.rest;
      }
    }
  }

  /** The callback loop drops a callback that concerns nobody who waits for it. */
  lemma SkipFollows(evs: seq<Event>, pr: Proc, p: ProcId, ctl: Control, r: Ref)
    requires Follows(evs, pr, p, ctl, r) && ctl.Dispatch? && ctl.rest != []
    requires ctl.rest[0] == ResumeCb(p) ==> false
    requires ctl.rest[0] == WaiterCb(p) ==> pr.yielded != Some(ctl.e)
    ensures Follows(evs, pr, p, ctl.(rest := ctl.rest[1..]), r)
  {
    assert forall cb :: cb in ctl.rest <==> cb == ctl.rest[0] || cb in ctl.rest[1..];
  }

  lemma RunCallbackFollows(k: Kernel)
    requires Inv(k) && k.ctl.Dispatch? && k.ctl.who.Loop? && k.ctl.rest != []
    ensures AllFollow(RunCallback(k)) && Accepts(RunCallback(k).log)
  {
    DropCallbackWf(k);
    match k.ctl.rest[0]
    case ResumeCb(p) => SwitchInFollows(k, p);
    case WaiterCb(p) =>
      if k.procs[p].state.Dead? || k.procs[p].yielded != Some(k.ctl.e) {
        StaleFollows(k, p);
      } else {
        WakeFollows(k, p);
      }
    case UserCb(tag) =>
      var k1 := DropCallback(k);
      forall q | 0 <= q < |k.procs| ensures Follows(k1.events, k1.procs[q], q, k1.ctl, RefOf(k1.log, q)) {
        SkipFollows(k.events, k.procs[q], q, k.ctl, RefOf(k.log, q));
      }
      SayNeutral(k1, Called(tag, k.ctl.e));
      var k2 := Say(k1, Called(tag, k.ctl.e));
      forall q | 0 <= q < |k.procs| ensures Follows(k2.events, k2.procs[q], q, k1.ctl.(who := InUser), RefOf(k2.log, q)) {
        WhoFollows(k2.events, k2.procs[q], q, k1.ctl, InUser, RefOf(k2.log, q));
      }
  }

  /** A waiter callback of a process that has moved on: skipped, and nobody is affected. */
  lemma StaleFollows(k: Kernel, p: ProcId)
    requires Inv(k) && k.ctl.Dispatch? && k.ctl.who.Loop? && k.ctl.rest != []
    requires k.ctl.rest[0] == WaiterCb(p) && p < |k.procs|
    requires k.procs[p].state.Dead? || k.procs[p].yielded != Some(k.ctl.e)
    ensures AllFollow(RunCallback(k)) && Accepts(RunCallback(k).log)
  {
    hide QueueOk, AllQueued, PoolOk, DeadOk, TraceOk;
    DropCallbackWf(k);
    var k1 := RunCallback(k);
    assert k1 == DropCallback(k);
    assert Follows(k.events, k.procs[p], p, k.ctl, RefOf(k.log, p));
    forall q | 0 <= q < |k.procs| ensures Follows(k1.events, k1.procs[q], q, k1.ctl, RefOf(k1.log, q)) {
      SkipFollows(k.events, k.procs[q], q, k.ctl, RefOf(k.log, q));
    }
  }

  /** The waiter callback of a process that waits for the event: its resume is scheduled. */
  lemma {:induction false} WakeFollows(k: Kernel, p: ProcId)
    requires Inv(k) && k.ctl.Dispatch? && k.ctl.who.Loop? && k.ctl.rest != []
    requires k.ctl.rest[0] == WaiterCb(p) && p < |k.procs|
    requires !k.procs[p].state.Dead? && k.procs[p].yielded == Some(k.ctl.e)
    ensures AllFollow(RunCallback(k)) && Accepts(RunCallback(k).log)
  {
    hide QueueOk, AllQueued, PoolOk, DeadOk, TraceOk;
    DropCallbackWf(k);
    DropShape(k);
    var k0 := DropCallback(k);
    var k1 := RunCallback(k);
    ScheduleResumeEffect(k0, p, k.events[k.ctl.e].value);
    assert Follows(k.events, k.procs[p], p, k.ctl, RefOf(k.log, p));
    assert WaiterCb(p) in k.ctl.rest;
    forall q | 0 <= q < |k.procs| ensures Follows(k1.events, k1.procs[q], q, k1.ctl, RefOf(k1.log, q)) {
      if q != p {
        OtherFollows(k, k1.(ctl := k.ctl), p, q);
        SkipFollows(k1.events, k.procs[q], q, k.ctl, RefOf(k.log, q));
      }
    }
  }

  lemma SwitchInFollows(k: Kernel, p: ProcId)
    requires Inv(k) && k.ctl.Dispatch? && k.ctl.who.Loop? && k.ctl.rest != []
    requires k.ctl.rest[0] == ResumeCb(p) && p < |k.procs|
    ensures AllFollow(RunCallback(k)) && Accepts(RunCallback(k).log)
  {
    hide QueueOk, AllQueued, PoolOk, DeadOk, TraceOk;
    DropCallbackWf(k);
    DropShape(k);
    var k1 := RunCallback(k);
    var pr := k.procs[p];
    var r := RefOf(k.log, p);
    assert Follows(k.events, pr, p, k.ctl, r);
    assert k.ctl.rest == [ResumeCb(p)] && k.events[k.ctl.e].state.Processed? && pr.resumeEv == Some(k.ctl.e) by {
      assert EventOk(k.events[k.ctl.e], k.ctl.e, k.procs);
    }
    assert InFlight(k.events, pr, p, k.ctl);
    assert WaiterCb(p) !in k.ctl.rest;
    var o := if pr.state.New? then Started(p) else Woke(p, YieldValue(pr), pr.interruptPending);
    if !pr.state.Dead? {
      AcceptsSay(k.log, o);
      forall q ensures RefOf(k.log + [o], q) == Next(RefOf(k.log, q), o, q) { RefOfSay(k.log, o, q); }
    }
    forall q | 0 <= q < |k.procs| ensures Follows(k1.events, k1.procs[q], q, k1.ctl, RefOf(k1.log, q)) {
      assert Follows(k.events, k.procs[q], q, k.ctl, RefOf(k.log, q));
      if q != p {
        SkipFollows(k.events, k.procs[q], q, k.ctl, RefOf(k.log, q));
      } else {
        SwitchedFollows(k.events, pr, p, k.ctl, r);
      }
    }
  }

  /** The switch seen by the process itself. */
  lemma SwitchedFollows(evs: seq<Event>, pr: Proc, p: ProcId, ctl: Control, r: Ref)
    requires Follows(evs, pr, p, ctl, r) && ctl.Dispatch? && ctl.who.Loop? && ctl.rest == [ResumeCb(p)]
    requires pr.resumeEv.Some? && pr.resumeEv.value < |evs| && evs[pr.resumeEv.value].state.Processed?
    ensures match pr.state
            case Dead => Follows(evs, pr, p, ctl.(rest := []), r)
            case New =>
              Follows(evs, pr.(state := Running), p, ctl.(rest := [], who := InProc(p)), Next(r, Started(p), p))
            case Running =>
              Follows(evs, AfterYield(pr), p, ctl.(rest := [], who := InProc(p)),
                      Next(r, Woke(p, YieldValue(pr), pr.interruptPending), p))
  {
  }

  lemma FinishFollows(k: Kernel)
    requires Inv(k) && k.ctl.Dispatch? && k.ctl.who.Loop? && k.ctl.rest == []
    ensures AllFollow(Finish(k)) && Accepts(Finish(k).log)
  {
    var k1 := Finish(k);
    forall q | 0 <= q < |k.procs| ensures Follows(k1.events, k1.procs[q], q, k1.ctl, RefOf(k1.log, q)) {
      assert Follows(k.events, k.procs[q], q, k.ctl, RefOf(k.log, q));
    }
  }
}
