/** Every kernel operation keeps `Shape`. */
module ShapeProof {
  import opened Entries
  import opened Kernel
  import opened Invariants

  function Put<T>(s: seq<T>, i: nat, v: T): seq<T>
    requires i <= |s|
  {
    if i < |s| then s[i := v] else s + [v]
  }

  // ---------- pieces ----------

  /** Slot `e` changes, the queue does not. */
  lemma PutQueue(q: set<Entry>, n: nat, now: real, evs: seq<Event>, e: EventId, ev: Event)
    requires QueueOk(q, n, now, evs) && AllQueued(q, evs) && e <= |evs|
    requires e < |evs| && evs[e].state.Triggered? ==> ev.kind == evs[e].kind
    requires ev.state.Triggered? <==> e < |evs| && evs[e].state.Triggered?
    ensures QueueOk(q, n, now, Put(evs, e, ev)) && AllQueued(q, Put(evs, e, ev))
  {
    var evs' := Put(evs, e, ev);
    forall i | 0 <= i < |evs'| && evs'[i].state.Triggered? ensures Queued(q, i) {
      assert evs[i].state.Triggered?;
    }
  }

  /** Slot `e`, which was not in the queue, is triggered and scheduled. */
  lemma PutScheduled(q: set<Entry>, n: nat, now: real, evs: seq<Event>, e: EventId, ev: Event, delay: real)
    requires QueueOk(q, n, now, evs) && AllQueued(q, evs) && e <= |evs|
    requires e < |evs| ==> !evs[e].state.Triggered?
    requires ev.state.Triggered? && delay >= 0.0 && (ev.kind.ResumeOf? ==> delay == 0.0)
    ensures QueueOk(q + {Entry(now + delay, NORMAL, n, e)}, n + 1, now, Put(evs, e, ev))
    ensures AllQueued(q + {Entry(now + delay, NORMAL, n, e)}, Put(evs, e, ev))
  {
    var x := Entry(now + delay, NORMAL, n, e);
    var q' := q + {x};
    var evs' := Put(evs, e, ev);
    forall i | 0 <= i < |evs'| && evs'[i].state.Triggered? ensures Queued(q', i) {
      if i == e {
        assert x in q';
      } else {
        var y :| y in q && y.event == i;
        assert y in q';
      }
    }
  }

  lemma TraceScheduled(tr: seq<Entry>, q: set<Entry>, now: real, n: nat, x: Entry)
    requires TraceOk(tr, q, now, n)
    requires x.time >= now && x.priority == NORMAL && x.seqNo == n
    ensures TraceOk(tr, q + {x}, now, n + 1)
  {
  }

  lemma PutEvents(evs: seq<Event>, procs: seq<Proc>, e: EventId, ev: Event)
    requires EventsOk(evs, procs) && e <= |evs| && EventOk(ev, e, procs)
    ensures EventsOk(Put(evs, e, ev), procs)
  {
  }

  lemma PutLinks(evs: seq<Event>, procs: seq<Proc>, e: EventId, ev: Event)
    requires LinksOk(procs, evs) && e <= |evs|
    requires e < |evs| && (evs[e].kind.ResumeOf? || evs[e].kind.DoneOf?) ==> ev.kind == evs[e].kind
    ensures LinksOk(procs, Put(evs, e, ev))
  {
  }

  lemma PutPool(pool: seq<EventId>, evs: seq<Event>, ctl: Control, e: EventId, ev: Event)
    requires PoolOk(pool, evs, ctl) && e <= |evs| && e !in pool
    ensures PoolOk(pool, Put(evs, e, ev), ctl)
  {
  }

  lemma PutLoop(evs: seq<Event>, ctl: Control, e: EventId, ev: Event)
    requires LoopOk(ctl, evs) && e <= |evs|
    requires ctl.Dispatch? && ctl.e == e ==>
               ev.kind == evs[e].kind && ((evs[e].kind.ResumeOf? && ctl.rest == []) || ev.state == evs[e].state)
    ensures LoopOk(ctl, Put(evs, e, ev))
  {
  }

  lemma EventsFrame(evs: seq<Event>, procs: seq<Proc>, procs': seq<Proc>)
    requires EventsOk(evs, procs) && |procs| <= |procs'|
    requires forall p :: 0 <= p < |procs| ==> procs'[p].resumeEv == procs[p].resumeEv
    ensures EventsOk(evs, procs')
  {
    forall e | 0 <= e < |evs| ensures EventOk(evs[e], e, procs') {
      assert EventOk(evs[e], e, procs);
    }
  }

  // ---------- allocation ----------

  /** The state after an allocation that leaves `ev` in the slot. */
  function Place(k: Kernel, ev: Event): Kernel
    requires Wf(k)
  {
    k.(eventPool := if k.eventPool != [] then k.eventPool[1..] else k.eventPool,
       events := Put(k.events, NextEvent(k), ev))
  }

  /** A fresh slot is not queued, not in the rest of the free list, not being dispatched, and nobody's
      resume or done event. */
  lemma NextEventFree(k: Kernel)
    requires Wf(k) && Shape(k)
    ensures var e := NextEvent(k);
            && e <= |k.events|
            && (e < |k.events| ==> k.events[e].state.Processed? && !k.events[e].kind.ResumeOf? && !k.events[e].kind.DoneOf?)
            && !(k.ctl.Dispatch? && k.ctl.e == e)
            && PoolOk(if k.eventPool != [] then k.eventPool[1..] else k.eventPool, k.events, k.ctl)
            && e !in (if k.eventPool != [] then k.eventPool[1..] else k.eventPool)
  {
    if k.eventPool == [] {
      assert LoopOk(k.ctl, k.events);
    }
  }

  lemma PlacePieces(k: Kernel, ev: Event)
    requires Wf(k) && Shape(k) && !ev.kind.ResumeOf? && EventOk(ev, NextEvent(k), k.procs)
    ensures var k1 := Place(k, ev);
            && EventsOk(k1.events, k.procs) && LinksOk(k.procs, k1.events)
            && PoolOk(k1.eventPool, k1.events, k.ctl) && LoopOk(k.ctl, k1.events)
  {
    hide QueueOk, AllQueued, TraceOk, DeadOk, EventsOk, LinksOk, PoolOk, LoopOk, EventOk, Wf;
    NextEventFree(k);
    var e := NextEvent(k);
    PutEvents(k.events, k.procs, e, ev);
    PutLinks(k.events, k.procs, e, ev);
    PutPool(Place(k, ev).eventPool, k.events, k.ctl, e, ev);
    PutLoop(k.events, k.ctl, e, ev);
  }

  lemma PlaceShape(k: Kernel, ev: Event)
    requires Wf(k) && Shape(k) && ev.state.Pending? && !ev.kind.ResumeOf?
    requires EventOk(ev, NextEvent(k), k.procs)
    ensures Shape(Place(k, ev))
  {
    hide QueueOk, AllQueued, TraceOk, DeadOk, EventsOk, LinksOk, PoolOk, LoopOk, EventOk, Wf;
    NextEventFree(k);
    PutQueue(k.queue, k.nextSeq, k.now, k.events, NextEvent(k), ev);
    PlacePieces(k, ev);
  }

  /** The same for an event that is born triggered and scheduled. */
  lemma {:induction false} PlaceScheduledShape(k: Kernel, ev: Event, delay: real)
    requires Wf(k) && Shape(k) && ev.state.Triggered? && !ev.kind.ResumeOf? && delay >= 0.0
    requires EventOk(ev, NextEvent(k), k.procs)
    ensures Shape(Schedule(Place(k, ev), NextEvent(k), delay))
  {
    hide QueueOk, AllQueued, TraceOk, DeadOk, EventsOk, LinksOk, PoolOk, LoopOk, EventOk, Wf;
    NextEventFree(k);
    var e := NextEvent(k);
    PutScheduled(k.queue, k.nextSeq, k.now, k.events, e, ev, delay);
    TraceScheduled(k.trace, k.queue, k.now, k.nextSeq, Entry(k.now + delay, NORMAL, k.nextSeq, e));
    PlacePieces(k, ev);
  }

  lemma {:induction false} TimeoutShape(k: Kernel, delay: real, v: Value)
    requires Wf(k) && Shape(k) && delay >= 0.0
    ensures Shape(NewTimeout(k, delay, v))
  {
    var ev := Fresh(Transient).(value := v, state := Triggered, recyclable := true);
    TimeoutIsPlace(k, delay, v);
    PlaceScheduledShape(k, ev, delay);
  }

  lemma TimeoutIsPlace(k: Kernel, delay: real, v: Value)
    requires Wf(k)
    ensures var ev := Fresh(Transient).(value := v, state := Triggered, recyclable := true);
            NewTimeout(k, delay, v) == Schedule(Place(k, ev), NextEvent(k), delay)
  {
  }

  // ---------- trigger, subscribe ----------

  lemma TriggerShape(k: Kernel, e: EventId, ev: Event)
    requires Wf(k) && Shape(k) && e < |k.events| && k.events[e].state.Pending?
    requires ev == k.events[e].(value := ev.value, ok := ev.ok, reason := ev.reason, state := Triggered)
    ensures Shape(Schedule(SetEvent(k, e, ev), e, 0.0))
  {
    assert EventOk(k.events[e], e, k.procs);
    PutScheduled(k.queue, k.nextSeq, k.now, k.events, e, ev, 0.0);
    TraceScheduled(k.trace, k.queue, k.now, k.nextSeq, Entry(k.now + 0.0, NORMAL, k.nextSeq, e));
    PutEvents(k.events, k.procs, e, ev);
    PutLinks(k.events, k.procs, e, ev);
    PutPool(k.eventPool, k.events, k.ctl, e, ev);
    PutLoop(k.events, k.ctl, e, ev);
  }

  lemma SucceededShape(k: Kernel, e: EventId, v: Value)
    requires Wf(k) && Shape(k) && e < |k.events|
    ensures Shape(Succeeded(k, e, v))
  {
    if k.events[e].state.Pending? {
      TriggerShape(k, e, k.events[e].(value := v, ok := true, state := Triggered));
    }
  }

  lemma FailedShape(k: Kernel, e: EventId, why: Value)
    requires Wf(k) && Shape(k) && e < |k.events|
    ensures Shape(Failed(k, e, why))
  {
    if k.events[e].state.Pending? {
      TriggerShape(k, e, k.events[e].(reason := why, ok := false, state := Triggered));
    }
  }

  lemma SubscribedShape(k: Kernel, e: EventId, cb: Callback)
    requires Wf(k) && Shape(k) && Handle(k, e) && !k.events[e].state.Processed? && !cb.ResumeCb?
    ensures Shape(Subscribed(k, e, cb))
  {
    var ev := k.events[e].(cbs := k.events[e].cbs + [cb]);
    assert EventOk(k.events[e], e, k.procs);
    PutQueue(k.queue, k.nextSeq, k.now, k.events, e, ev);
    PutEvents(k.events, k.procs, e, ev);
    PutLinks(k.events, k.procs, e, ev);
    PutPool(k.eventPool, k.events, k.ctl, e, ev);
    PutLoop(k.events, k.ctl, e, ev);
  }

  // ---------- processes ----------

  /** A process struct may change as long as its links and whether it is dead stay. */
  lemma SetProcShape(k: Kernel, p: ProcId, pr: Proc)
    requires Wf(k) && Shape(k) && p < |k.procs|
    requires pr.resumeEv == k.procs[p].resumeEv && pr.done == k.procs[p].done
    requires pr.state.Dead? == k.procs[p].state.Dead?
    ensures Shape(SetProc(k, p, pr))
  {
    EventsFrame(k.events, k.procs, SetProc(k, p, pr).procs);
  }

  /** The resume event of `p`, not in the queue and not about to be delivered, goes back in. */
  lemma RetriggerShape(k: Kernel, p: ProcId)
    requires Wf(k) && Shape(k) && p < |k.procs|
    requires !InFlight(k.events, k.procs[p], p, k.ctl)
    ensures var r := k.procs[p].resumeEv.value;
            var ev := k.events[r].(state := Triggered, ok := true, value := NULL, reason := NULL, cbs := [ResumeCb(p)]);
            && k.events[r].cbs == []
            && Shape(Schedule(SetEvent(k, r, ev), r, 0.0))
  {
    var r := k.procs[p].resumeEv.value;
    var ev := k.events[r].(state := Triggered, ok := true, value := NULL, reason := NULL, cbs := [ResumeCb(p)]);
    assert EventOk(k.events[r], r, k.procs);
    PutScheduled(k.queue, k.nextSeq, k.now, k.events, r, ev, 0.0);
    TraceScheduled(k.trace, k.queue, k.now, k.nextSeq, Entry(k.now + 0.0, NORMAL, k.nextSeq, r));
    PutEvents(k.events, k.procs, r, ev);
    PutLinks(k.events, k.procs, r, ev);
    PutPool(k.eventPool, k.events, k.ctl, r, ev);
    PutLoop(k.events, k.ctl, r, ev);
  }

  lemma {:induction false} ScheduleResumeShape(k: Kernel, p: ProcId, v: Value)
    requires Wf(k) && Shape(k) && p < |k.procs| && !RestHas(k.ctl, ResumeCb(p))
    ensures Shape(ScheduleResume(k, p, v))
  {
    hide QueueOk, AllQueued, EventsOk, PoolOk, DeadOk, TraceOk, LoopOk;
    var pr := k.procs[p].(resumeValue := v);
    SetProcShape(k, p, pr);
    var k1 := SetProc(k, p, pr);
    var r := pr.resumeEv.value;
    if !k.events[r].state.Triggered? {
      assert ProcOk(k.procs[p], |k.events|);
      assert Wf(k1);
      RetriggerShape(k1, p);
      var ev := k.events[r].(state := Triggered, ok := true, value := NULL, reason := NULL, cbs := [ResumeCb(p)]);
      assert [] + [ResumeCb(p)] == [ResumeCb(p)];
      assert ScheduleResume(k, p, v).events == k1.events[r := ev];
      assert ScheduleResume(k, p, v) == Schedule(SetEvent(k1, r, ev), r, 0.0);
    }
  }

  /** A process struct taken from the dead list: `p` is live again, with its old resume event. */
  lemma ReuseShape(k: Kernel)
    requires Wf(k) && Shape(k) && k.procPool != []
    ensures Shape(AllocProc(k))
  {
    var p := k.procPool[0];
    var k1 := AllocProc(k);
    EventsFrame(k.events, k.procs, k1.procs);
    forall q | 0 <= q < |k1.procs| ensures k1.procs[q].state.Dead? <==> q in k1.procPool {
      assert k.procPool == [p] + k1.procPool;
      assert k.procs[q].state.Dead? <==> q in k.procPool;
    }
  }

  /** A new process struct with a new resume event, scheduled. */
  lemma {:induction false} CreateShape(k: Kernel)
    requires Wf(k) && Shape(k) && k.procPool == []
    ensures Shape(Spawning(k))
  {
    var p, r := |k.procs|, NextEvent(k);
    var k1 := Spawning(k);
    var ev := Fresh(ResumeOf(p)).(state := Triggered, cbs := [ResumeCb(p)]);
    CreateEffect(k);
    NextEventFree(k);
    EventsFrame(k.events, k.procs, k1.procs);
    CreateLinks(k);
    assert DeadOk(k1.procPool, k1.procs);
    hide QueueOk, AllQueued, EventsOk, LinksOk, PoolOk, LoopOk, DeadOk, TraceOk;
    PutScheduled(k.queue, k.nextSeq, k.now, k.events, r, ev, 0.0);
    TraceScheduled(k.trace, k.queue, k.now, k.nextSeq, Entry(k.now + 0.0, NORMAL, k.nextSeq, r));
    PutEvents(k.events, k1.procs, r, ev);
    PutPool(k1.eventPool, k.events, k.ctl, r, ev);
    PutLoop(k.events, k.ctl, r, ev);
  }

  lemma CreateEffect(k: Kernel)
    requires Wf(k) && k.procPool == []
    ensures var p, r := |k.procs|, NextEvent(k);
            var ev := Fresh(ResumeOf(p)).(state := Triggered, cbs := [ResumeCb(p)]);
            && r <= |k.events|
            && Spawning(k) == Schedule(Place(k, ev), r, 0.0).(procs := k.procs + [NewProc(Some(r))])
  {
    AllocProcWf(k);
    assert [] + [ResumeCb(|k.procs|)] == [ResumeCb(|k.procs|)];
    assert Spawning(k).procs == k.procs + [NewProc(Some(NextEvent(k)))];
    assert Spawning(k).events == Place(k, Fresh(ResumeOf(|k.procs|)).(state := Triggered, cbs := [ResumeCb(|k.procs|)])).events;
  }

  lemma CreateLinks(k: Kernel)
    requires Wf(k) && Shape(k) && k.procPool == []
    ensures LinksOk(Spawning(k).procs, Spawning(k).events)
  {
    hide QueueOk, AllQueued, EventsOk, PoolOk, LoopOk, DeadOk, TraceOk;
    var p, r := |k.procs|, NextEvent(k);
    CreateEffect(k);
    NextEventFree(k);
    PutLinks(k.events, k.procs, r, Fresh(ResumeOf(p)).(state := Triggered, cbs := [ResumeCb(p)]));
  }

  lemma {:induction false} SpawningShape(k: Kernel)
    requires Wf(k) && Shape(k) && InControl(k.ctl)
    ensures Shape(Spawning(k))
  {
    if k.procPool == [] {
      CreateShape(k);
    } else {
      ReuseShape(k);
      AllocProcWf(k);
      NoResumeLeft(k, NextProc(k));
      ScheduleResumeShape(AllocProc(k), NextProc(k), NULL);
    }
  }

  /** While user code has control no resume callback is still to be called. */
  lemma NoResumeLeft(k: Kernel, p: ProcId)
    requires LoopOk(k.ctl, k.events) && InControl(k.ctl)
    ensures !RestHas(k.ctl, ResumeCb(p))
  {
  }

  lemma {:induction false} ProcessEventShape(k: Kernel, p: ProcId)
    requires Wf(k) && Shape(k) && p < |k.procs|
    ensures Shape(ProcessEvent(k, p).0)
  {
    if k.procs[p].done.None? {
      var d := NextEvent(k);
      var k1 := SetProc(Alloc(k, DoneOf(p)), p, k.procs[p].(done := Some(d)));
      DoneShape(k, p);
      if k.procs[p].state.Dead? { SucceededShape(k1, d, NULL); }
    }
  }

  lemma {:induction false} DoneShape(k: Kernel, p: ProcId)
    requires Wf(k) && Shape(k) && p < |k.procs|
    ensures var d := NextEvent(k); var k1 := SetProc(Alloc(k, DoneOf(p)), p, k.procs[p].(done := Some(d)));
            Wf(k1) && Shape(k1) && d < |k1.events|
  {
    var d := NextEvent(k);
    AllocWf(k, DoneOf(p));
    PlaceShape(k, Fresh(DoneOf(p)));
    assert Alloc(k, DoneOf(p)) == Place(k, Fresh(DoneOf(p)));
    DoneLinked(Alloc(k, DoneOf(p)), p, d);
  }

  lemma DoneLinked(k: Kernel, p: ProcId, d: EventId)
    requires Wf(k) && Shape(k) && p < |k.procs| && d < |k.events| && k.events[d].kind == DoneOf(p)
    ensures var k1 := SetProc(k, p, k.procs[p].(done := Some(d))); Wf(k1) && Shape(k1)
  {
    var pr := k.procs[p].(done := Some(d));
    SetProcWf(k, p, pr);
    hide QueueOk, AllQueued, TraceOk, PoolOk, LoopOk, EventsOk, Wf;
    EventsFrame(k.events, k.procs, SetProc(k, p, pr).procs);
  }

  lemma {:induction false} InterruptingShape(k: Kernel, p: ProcId, c: Value)
    requires Wf(k) && Shape(k) && p < |k.procs| && InControl(k.ctl)
    ensures Shape(Interrupting(k, p, c))
  {
    var pr := k.procs[p];
    if !(pr.state.Dead? || pr.interruptPending) {
      var pr1 := pr.(interruptPending := true, cause := c, yielded := None);
      SetProcShape(k, p, pr1);
      assert ProcOk(pr, |k.events|);
      assert Wf(SetProc(k, p, pr1));
      NoResumeLeft(k, p);
      ScheduleResumeShape(SetProc(k, p, pr1), p, c);
    }
  }

  lemma {:induction false} SuspendShape(k: Kernel, p: ProcId, e: EventId)
    requires Wf(k) && Shape(k) && p < |k.procs| && Handle(k, e) && InControl(k.ctl)
    ensures Shape(Suspend(k, p, e))
  {
    var pr1 := k.procs[p].(yielded := Some(e));
    SetProcShape(k, p, pr1);
    var k1 := SetProc(k, p, pr1);
    assert ProcOk(k.procs[p], |k.events|);
    assert Wf(k1);
    if k.events[e].state.Processed? {
      NoResumeLeft(k, p);
      ScheduleResumeShape(k1, p, k.events[e].value);
    } else {
      SubscribedShape(k1, e, WaiterCb(p));
    }
  }

  lemma {:induction false} ExitingShape(k: Kernel, p: ProcId)
    requires Wf(k) && Shape(k) && p < |k.procs| && !k.procs[p].state.Dead?
    ensures Shape(Exiting(k, p))
  {
    var d := k.procs[p].done;
    if d.Some? { SucceededShape(k, d.value, NULL); }
    var k1 := if d.Some? && k.events[d.value].state.Pending? then Succeeded(k, d.value, NULL) else k;
    DieShape(k1, p);
  }

  lemma DieShape(k1: Kernel, p: ProcId)
    requires Shape(k1) && p < |k1.procs| && !k1.procs[p].state.Dead?
    ensures Shape(SetProc(k1, p, k1.procs[p].(state := Dead)).(procPool := [p] + k1.procPool))
  {
    var k2 := SetProc(k1, p, k1.procs[p].(state := Dead)).(procPool := [p] + k1.procPool);
    EventsFrame(k1.events, k1.procs, k2.procs);
    assert p !in k1.procPool;
    forall q | 0 <= q < |k2.procs| ensures k2.procs[q].state.Dead? <==> q in k2.procPool {
      assert k1.procs[q].state.Dead? <==> q in k1.procPool;
    }
  }

  // ---------- the loop ----------

  lemma {:induction false} PopShape(k: Kernel)
    requires Wf(k) && Shape(k) && k.ctl.Idle? && k.queue != {}
    ensures Shape(Pop(k))
  {
    var x := Least(k.queue);
    var k1 := Pop(k);
    PopQueueShape(k, x);
    var ev := k.events[x.event].(state := Processed, cbs := []);
    assert EventOk(k.events[x.event], x.event, k.procs);
    PutEvents(k.events, k.procs, x.event, ev);
    PutLinks(k.events, k.procs, x.event, ev);
    assert x.event !in k.eventPool;
    PopTraceShape(k, x);
  }

  lemma PopQueueShape(k: Kernel, x: Entry)
    requires QueueOk(k.queue, k.nextSeq, k.now, k.events) && AllQueued(k.queue, k.events)
    requires x in k.queue && forall y :: y in k.queue ==> Le(x, y)
    ensures QueueOk(k.queue - {x}, k.nextSeq, x.time, PopEntry(k, x).events)
    ensures AllQueued(k.queue - {x}, PopEntry(k, x).events)
  {
    var evs' := PopEntry(k, x).events;
    forall i | 0 <= i < |evs'| && evs'[i].state.Triggered? ensures Queued(k.queue - {x}, i) {
      var y :| y in k.queue && y.event == i;
      assert y in k.queue - {x};
    }
  }

  lemma PopTraceShape(k: Kernel, x: Entry)
    requires QueueOk(k.queue, k.nextSeq, k.now, k.events) && TraceOk(k.trace, k.queue, k.now, k.nextSeq)
    requires x in k.queue && forall y :: y in k.queue ==> Le(x, y)
    ensures TraceOk(k.trace + [x], k.queue - {x}, x.time, k.nextSeq)
  {
    forall y | y in k.queue - {x} ensures EntryLt(x, y) {
      assert x.seqNo != y.seqNo;
    }
  }

  lemma SwitchInShape(k: Kernel, p: ProcId)
    requires Wf(k) && Shape(k) && k.ctl.Dispatch? && k.ctl.who.Loop? && k.ctl.rest == []
    requires p < |k.procs| && k.events[k.ctl.e].kind == ResumeOf(p)
    ensures Shape(SwitchIn(k, p))
  {
    var pr := k.procs[p];
    var pr1 := match pr.state case Dead => pr case New => pr.(state := Running) case Running => AfterYield(pr);
    SetProcShape(k, p, pr1);
  }

  lemma DropShape(k: Kernel)
    requires Wf(k) && Shape(k) && k.ctl.Dispatch? && k.ctl.who.Loop? && k.ctl.rest != []
    ensures Shape(DropCallback(k))
    ensures k.ctl.rest[0].ResumeCb? ==>
              DropCallback(k).ctl.rest == [] && k.events[k.ctl.e].kind == ResumeOf(k.ctl.rest[0].p)
    ensures !k.ctl.rest[0].ResumeCb? ==> !k.events[k.ctl.e].kind.ResumeOf?
  {
  }

  lemma {:induction false} RunCallbackShape(k: Kernel)
    requires Wf(k) && Shape(k) && k.ctl.Dispatch? && k.ctl.who.Loop? && k.ctl.rest != []
    ensures Shape(RunCallback(k))
  {
    DropShape(k);
    DropCallbackWf(k);
    var k1 := DropCallback(k);
    match k.ctl.rest[0]
    case ResumeCb(p) => SwitchInShape(k1, p);
    case WaiterCb(p) =>
      if k1.procs[p].yielded == Some(k.ctl.e) { ScheduleResumeShape(k1, p, k.events[k.ctl.e].value); }
    case UserCb(tag) =>
  }

  lemma FinishShape(k: Kernel)
    requires Wf(k) && Shape(k) && k.ctl.Dispatch? && k.ctl.who.Loop? && k.ctl.rest == []
    ensures Shape(Finish(k))
  {
    assert EventOk(k.events[k.ctl.e], k.ctl.e, k.procs);
  }

  /** The transcript plays no part in the shape. */
  lemma SayShape(k: Kernel, o: Obs)
    requires Shape(k)
    ensures Shape(Say(k, o))
  {
  }

  lemma {:induction false} AllocShape(k: Kernel, c: Cmd)
    requires Wf(k) && Shape(k) && (c.NewEvent? || c.NewTransient? || c.NewRequest?)
    ensures Shape(Exec(k, c))
  {
    var ev := match c case NewEvent => Fresh(Plain) case NewTransient => Fresh(Transient).(recyclable := true)
              case _ => Fresh(Request);
    PlaceShape(k, ev);
    assert Exec(k, c) == Say(Place(k, ev), Got(NextEvent(k)));
  }

  lemma {:induction false} YieldShape(k: Kernel, e: EventId)
    requires Wf(k) && Shape(k) && Legal(k, Yield(e))
    ensures Shape(Exec(k, Yield(e)))
  {
    SuspendShape(k, k.ctl.who.p, e);
    LeaveLoop(Suspend(k, k.ctl.who.p, e));
  }

  lemma {:induction false} ReturnShape(k: Kernel)
    requires Wf(k) && Shape(k) && Legal(k, Return)
    requires k.ctl.who.InProc? ==> !k.procs[k.ctl.who.p].state.Dead?
    ensures Shape(Exec(k, Return))
  {
    if k.ctl.who.InProc? {
      ExitingShape(k, k.ctl.who.p);
      LeaveLoop(Exiting(k, k.ctl.who.p));
    } else {
      LeaveLoop(k);
    }
  }

  lemma {:induction false} ExecShape(k: Kernel, c: Cmd)
    requires Wf(k) && Shape(k) && Legal(k, c) && InControl(k.ctl)
    requires c.Return? && k.ctl.who.InProc? ==> !k.procs[k.ctl.who.p].state.Dead?
    ensures Shape(Exec(k, c))
  {
    hide Shape;
    match c
    case Timeout(d, v) => TimeoutShape(k, d, v); SayShape(NewTimeout(k, d, v), Got(NextEvent(k)));
    case Succeed(x, v) => SucceededShape(k, x, v); SayShape(Succeeded(k, x, v), Did(c));
    case Fail(x, why) => FailedShape(k, x, why); SayShape(Failed(k, x, why), Did(c));
    case On(x, tag) =>
      SayShape(k, Entered(tag, x));
      if !k.events[x].state.Processed? {
        SubscribedShape(k, x, UserCb(tag));
        SayShape(Subscribed(k, x, UserCb(tag)), Did(c));
      }
    case Spawn => SpawningShape(k); SayShape(Spawning(k), Spawned(NextProc(k)));
    case ProcEvent(p) => ProcessEventShape(k, p); SayShape(ProcessEvent(k, p).0, GotDone(p, ProcessEvent(k, p).1));
    case Interrupt(p, v) => InterruptingShape(k, p, v); SayShape(Interrupting(k, p, v), Did(c));
    case Recycle(x) => RecycleShape(k, x);
    case Yield(x) => YieldShape(k, x);
    case Return => ReturnShape(k);
    case _ => AllocShape(k, c);
  }

  lemma RecycleShape(k: Kernel, e: EventId)
    requires Wf(k) && Shape(k) && Legal(k, Recycle(e))
    ensures Shape(Exec(k, Recycle(e)))
  {
  }

  /** Control goes back to the callback loop. */
  lemma LeaveLoop(k: Kernel)
    requires Shape(k) && k.ctl.Dispatch? && InControl(k.ctl)
    ensures Shape(k.(ctl := k.ctl.(who := Loop)))
  {
  }
}
