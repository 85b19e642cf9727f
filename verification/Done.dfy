/** The event of a process, which sim_process_event hands out: it is pending as long as the process lives,
    and is triggered by the end of the process, at that time. */
module Dones {
  import opened Entries
  import opened Kernel
  import opened Protocol
  import opened Invariants
  import opened ShapeProof
  import opened FollowProof
  import opened Runs
  import opened Wakeups
  import opened Firings

  /** Told from the transcript alone: the event that was handed out for the process, first asked for since the
      process was created, and whether user code has tried to trigger it itself. */
  datatype Ask = NotAsked | Asked(d: EventId, touched: bool)

  function NextAsk(a: Ask, o: Obs, p: ProcId): Ask {
    match o
    case Spawned(q) => if q == p then NotAsked else a
    case GotDone(q, d) => if q == p && a.NotAsked? then Asked(d, false) else a
    case Did(Succeed(x, _)) => if a.Asked? && x == a.d then Asked(x, true) else a
    case Did(Fail(x, _)) => if a.Asked? && x == a.d then Asked(x, true) else a
    case _ => a
  }

  function AskOf(log: seq<Obs>, p: ProcId): Ask {
    if log == [] then NotAsked else NextAsk(AskOf(log[..|log| - 1], p), log[|log| - 1], p)
  }

  lemma AskOfSay(log: seq<Obs>, o: Obs, p: ProcId)
    ensures AskOf(log + [o], p) == NextAsk(AskOf(log, p), o, p)
  {
    assert (log + [o])[..|log|] == log;
  }

  function HandleOf(a: Ask): Option<EventId> {
    if a.Asked? then Some(a.d) else None
  }

  predicate Untriggered(evs: seq<Event>, d: EventId) {
    d < |evs| && evs[d].state.Pending? && evs[d].value == NULL && evs[d].ok && evs[d].reason == NULL
  }

  /** The process's event is the one the transcript tells of, and it is pending if the process lives and nobody
      touched it. */
  predicate Tied(evs: seq<Event>, pr: Proc, a: Ask) {
    && pr.done == HandleOf(a)
    && (!pr.state.Dead? && a.Asked? && !a.touched ==> Untriggered(evs, a.d))
  }

  ghost predicate AllTied(k: Kernel) {
    && (forall p :: 0 <= p < |k.procs| ==> Tied(k.events, k.procs[p], AskOf(k.log, p)))
    && (forall p :: |k.procs| <= p ==> AskOf(k.log, p) == NotAsked)
  }

  // ---------- what does not concern these events ----------

  /** No done event that is pending changes but for callbacks, and no process gets another, or starts or ends. */
  ghost predicate SameDones(k: Kernel, k1: Kernel) {
    && |k.procs| == |k1.procs| && |k.events| <= |k1.events|
    && (forall p :: 0 <= p < |k.procs| ==>
      k1.procs[p].done == k.procs[p].done && (k1.procs[p].state.Dead? ==> k.procs[p].state.Dead?)
      && (k.procs[p].state.Dead? ==> k1.procs[p].state.Dead?))
    && (forall e :: 0 <= e < |k.events| && k.events[e].kind.DoneOf? && k.events[e].state.Pending? ==>
      SameBut(k.events[e], k1.events[e]))
  }

  predicate Unrelated(o: Obs) {
    match o
    case Spawned(_) => false
    case GotDone(_, _) => false
    case Did(c) => !c.Succeed? && !c.Fail?
    case _ => true
  }

  lemma SameTied(k: Kernel, k1: Kernel)
    requires AllTied(k) && LinksOk(k.procs, k.events) && SameDones(k, k1)
    requires k1.log == k.log || (k1.log != [] && k1.log[..|k1.log| - 1] == k.log && Unrelated(k1.log[|k1.log| - 1]))
    ensures AllTied(k1)
  {
    forall p: nat ensures AskOf(k1.log, p) == AskOf(k.log, p) {
    }
  }

  lemma EffectOfResume(k: Kernel, k0: Kernel, p: ProcId, v: Value)
    requires Wf(k0) && Shape(k0) && p < |k0.procs| && !RestHas(k0.ctl, ResumeCb(p)) && SameDones(k, k0)
    ensures SameDones(k, ScheduleResume(k0, p, v)) && ScheduleResume(k0, p, v).log == k0.log
  {
    ScheduleResumeEffect(k0, p, v);
    var r := k0.procs[p].resumeEv.value;
    assert EventOk(k0.events[r], r, k0.procs);
  }

  lemma AllocTied(k: Kernel, c: Cmd)
    requires Inv(k) && AllTied(k) && Legal(k, c) && (c.NewEvent? || c.NewTransient? || c.NewRequest? || c.Timeout?)
    ensures AllTied(Exec(k, c))
  {
    hide AllFollow, Accepts, Shape, AllTied, AskOf;
    AllocSame(k, c);
    OwnerLinks(k);
    hide Exec, SameDones, Wf;
    SameTied(k, Exec(k, c));
  }

  lemma AllocSame(k: Kernel, c: Cmd)
    requires Inv(k) && Legal(k, c) && (c.NewEvent? || c.NewTransient? || c.NewRequest? || c.Timeout?)
    ensures var k1 := Exec(k, c); SameDones(k, k1) && k1.log == k.log + [Got(NextEvent(k))]
  {
    hide AllFollow, Accepts, Shape;
    SlotNotDone(k);
    hide Wf;
  }

  lemma InterruptTied(k: Kernel, p: ProcId, c: Value)
    requires Inv(k) && AllTied(k) && p < |k.procs| && InControl(k.ctl)
    ensures AllTied(Exec(k, Interrupt(p, c)))
  {
    hide AllFollow, Accepts, Shape, AllTied, AskOf, ScheduleResume;
    OwnerLinks(k);
    var pr := k.procs[p];
    if !(pr.state.Dead? || pr.interruptPending) {
      var pr1 := pr.(interruptPending := true, cause := c, yielded := None);
      SetProcShape(k, p, pr1);
      SetProcWf(k, p, pr1);
      LoopShape(k);
      NoResumeLeft(k, p);
      EffectOfResume(k, SetProc(k, p, pr1), p, c);
    }
    SameTied(k, Exec(k, Interrupt(p, c)));
  }

  lemma YieldTied(k: Kernel, e: EventId)
    requires Inv(k) && AllTied(k) && Legal(k, Yield(e))
    ensures AllTied(Exec(k, Yield(e)))
  {
    hide AllFollow, Accepts, Shape, AllTied, AskOf, ScheduleResume;
    OwnerLinks(k);
    assert CtlOk(k.ctl, |k.events|, |k.procs|);
    var p := k.ctl.who.p;
    if k.events[e].state.Processed? {
      var pr1 := k.procs[p].(yielded := Some(e));
      SetProcShape(k, p, pr1);
      SetProcWf(k, p, pr1);
      LoopShape(k);
      NoResumeLeft(k, p);
      EffectOfResume(k, SetProc(k, p, pr1), p, k.events[e].value);
    }
    SameTied(k, Exec(k, Yield(e)));
  }

  // ---------- what does ----------

  lemma SpawnTied(k: Kernel)
    requires Inv(k) && AllTied(k) && InControl(k.ctl)
    ensures AllTied(Exec(k, Spawn))
  {
    hide AllFollow, Accepts, Shape, AskOf;
    var k1 := Exec(k, Spawn);
    var n := NextProc(k);
    SpawnEffect(k);
    OwnerLinks(k);
    forall p: nat ensures AskOf(k1.log, p) == if p == n then NotAsked else AskOf(k.log, p) {
      AskOfSay(k.log, Spawned(n), p);
    }
    hide Wf, Exec;
  }

  /** The new process has no done event; the others, and the pending done events, stay as they are. */
  lemma SpawnEffect(k: Kernel)
    requires Inv(k) && InControl(k.ctl)
    ensures var k1 := Exec(k, Spawn); var n := NextProc(k);
            && n < |k1.procs| == (if n < |k.procs| then |k.procs| else n + 1) && |k.events| <= |k1.events|
            && k1.procs[n].done.None? && k1.log == k.log + [Spawned(n)]
            && (forall p :: 0 <= p < |k.procs| && p != n ==> k1.procs[p] == k.procs[p])
            && (forall e :: 0 <= e < |k.events| && k.events[e].kind.DoneOf? ==> k1.events[e] == k.events[e])
  {
    hide AllFollow, Accepts, Shape;
    AllocProcWf(k);
    if k.procPool == [] {
      CreateEffect(k);
      NextEventFree(k);
    } else {
      ReuseShape(k);
      LoopShape(k);
      NoResumeLeft(k, NextProc(k));
      ReuseEffect(k);
    }
  }

  lemma ReuseEffect(k: Kernel)
    requires Wf(k) && Shape(k) && k.procPool != []
    requires var k0 := AllocProc(k); Wf(k0) && Shape(k0) && !RestHas(k0.ctl, ResumeCb(NextProc(k))) && NextProc(k) < |k0.procs|
    ensures var k0, n := AllocProc(k), NextProc(k); var k1 := ScheduleResume(k0, n, NULL);
            && k1.procs == k0.procs[n := k0.procs[n].(resumeValue := NULL)] && k1.log == k.log && |k1.events| == |k.events|
            && forall e :: 0 <= e < |k.events| && k.events[e].kind.DoneOf? ==> k1.events[e] == k.events[e]
  {
    var k0, n := AllocProc(k), NextProc(k);
    ScheduleResumeEffect(k0, n, NULL);
    hide QueueOk, AllQueued, PoolOk, DeadOk, TraceOk, EventsOk, LoopOk;
    var r := k0.procs[n].resumeEv.value;
    assert k0.events[r].kind == ResumeOf(n);
  }

  lemma TriggerTied(k: Kernel, c: Cmd)
    requires Inv(k) && AllTied(k) && Legal(k, c) && (c.Succeed? || c.Fail?)
    ensures AllTied(Exec(k, c))
  {
    hide AllFollow, Accepts, Shape, AskOf;
    OwnerLinks(k);
    forall p: nat ensures AskOf(Exec(k, c).log, p) == NextAsk(AskOf(k.log, p), Did(c), p) {
      AskOfSay(k.log, Did(c), p);
    }
  }

  lemma ProcessEventTied(k: Kernel, p: ProcId)
    requires Inv(k) && AllTied(k) && p < |k.procs|
    ensures AllTied(Exec(k, ProcEvent(p)))
  {
    hide AllFollow, Accepts, Shape, AskOf;
    var k1 := Exec(k, ProcEvent(p));
    ProcessEventEffect(k, p);
    OwnerLinks(k);
    var d := k1.procs[p].done.value;
    forall q: nat ensures AskOf(k1.log, q) == NextAsk(AskOf(k.log, q), GotDone(p, d), q) {
      AskOfSay(k.log, GotDone(p, d), q);
    }
    hide Wf, Exec;
  }

  /** The handle is the one the process has, or a new one; a new one of a live process is pending. */
  lemma ProcessEventEffect(k: Kernel, p: ProcId)
    requires Inv(k) && p < |k.procs|
    ensures var k1 := Exec(k, ProcEvent(p));
            && |k1.procs| == |k.procs| && |k.events| <= |k1.events|
            && k1.procs[p].done.Some? && k1.log == k.log + [GotDone(p, k1.procs[p].done.value)]
            && var d := k1.procs[p].done.value;
            && k1.procs == k.procs[p := k.procs[p].(done := Some(d))]
            && (forall e :: 0 <= e < |k.events| && k.events[e].kind.DoneOf? ==> k1.events[e] == k.events[e])
            && (k.procs[p].done.Some? ==> d == k.procs[p].done.value)
            && (k.procs[p].done.None? && !k.procs[p].state.Dead? ==> Untriggered(k1.events, d))
  {
    hide Inv;
    if k.procs[p].done.Some? {
      assert k.procs[p := k.procs[p].(done := k.procs[p].done)] == k.procs;
    } else {
      SlotNotDone(k);
      hide Wf;
    }
  }

  lemma SlotNotDone(k: Kernel)
    requires Inv(k)
    ensures forall kind: Kind :: NextEvent(k) < |Alloc(k, kind).events| && Alloc(k, kind).events[NextEvent(k)] == Fresh(kind)
    ensures NextEvent(k) < |k.events| ==> !k.events[NextEvent(k)].kind.DoneOf?
  {
    NextEventFree(k);
    forall kind ensures NextEvent(k) < |Alloc(k, kind).events| && Alloc(k, kind).events[NextEvent(k)] == Fresh(kind) {
      AllocWf(k, kind);
    }
  }

  lemma ReturnTied(k: Kernel)
    requires Inv(k) && AllTied(k) && Legal(k, Return)
    ensures AllTied(Exec(k, Return))
  {
    hide AllFollow, Accepts, Shape, AskOf;
    WfCtl(k);
    OwnerLinks(k);
    if k.ctl.who.InProc? {
      ExitTied(k, k.ctl.who.p);
    } else {
      SameTied(k, Exec(k, Return));
    }
  }

  lemma ExitTied(k: Kernel, p: ProcId)
    requires Wf(k) && LinksOk(k.procs, k.events) && AllTied(k) && p < |k.procs|
    requires Legal(k, Return) && k.ctl.who == InProc(p)
    ensures AllTied(Exec(k, Return))
  {
    hide AskOf;
    assert ProcOk(k.procs[p], |k.events|);
    var k1 := Exec(k, Return);
    forall q: nat ensures AskOf(k1.log, q) == AskOf(k.log, q) {
      AskOfSay(k.log, Exited(p), q);
    }
    hide Wf;
    forall q | 0 <= q < |k1.procs| ensures Tied(k1.events, k1.procs[q], AskOf(k1.log, q)) {
      assert Tied(k.events, k.procs[q], AskOf(k.log, q));
    }
  }

  // ---------- every history ----------

  lemma ExecTied(k: Kernel, c: Cmd)
    requires Inv(k) && AllTied(k) && Legal(k, c) && InControl(k.ctl)
    ensures AllTied(Exec(k, c))
  {
    hide AllFollow, Accepts, Shape, AllTied, Exec, Wf;
    match c
    case Spawn => SpawnTied(k);
    case ProcEvent(p) => ProcessEventTied(k, p);
    case Interrupt(p, v) => InterruptTied(k, p, v);
    case Yield(e) => YieldTied(k, e);
    case Return => ReturnTied(k);
    case Succeed(_, _) => TriggerTied(k, c);
    case Fail(_, _) => TriggerTied(k, c);
    case On(_, _) => QuietTied(k, c);
    case Recycle(_) => QuietTied(k, c);
    case _ => AllocTied(k, c);
  }

  lemma QuietTied(k: Kernel, c: Cmd)
    requires Inv(k) && AllTied(k) && Legal(k, c) && (c.On? || c.Recycle?)
    ensures AllTied(Exec(k, c))
  {
    hide AllFollow, Accepts, Shape, AllTied, AskOf;
    OwnerLinks(k);
    SameTied(k, Exec(k, c));
  }

  lemma CallbackTied(k: Kernel)
    requires Inv(k) && AllTied(k) && k.ctl.Dispatch? && k.ctl.who.Loop? && k.ctl.rest != []
    ensures AllTied(RunCallback(k))
  {
    hide AllFollow, Accepts, Shape, AllTied, AskOf, RunCallback;
    OwnerLinks(k);
    CallbackSame(k);
    hide SameDones;
    SameTied(k, RunCallback(k));
  }

  lemma CallbackSame(k: Kernel)
    requires Inv(k) && k.ctl.Dispatch? && k.ctl.who.Loop? && k.ctl.rest != []
    ensures var k1 := RunCallback(k);
            && SameDones(k, k1)
            && (k1.log == k.log || (k1.log != [] && k1.log[..|k1.log| - 1] == k.log && Unrelated(k1.log[|k1.log| - 1])))
  {
    hide AllFollow, Accepts, QueueOk, AllQueued, EventsOk, LinksOk, PoolOk, DeadOk, TraceOk, ScheduleResume;
    DropCallbackWf(k);
    DropShape(k);
    match k.ctl.rest[0]
    case WaiterCb(p) =>
      if !k.procs[p].state.Dead? && k.procs[p].yielded == Some(k.ctl.e) {
        EffectOfResume(k, DropCallback(k), p, k.events[k.ctl.e].value);
      }
    case _ => hide Wf;
  }

  lemma PopTied(k: Kernel)
    requires Inv(k) && AllTied(k) && k.queue != {}
    ensures AllTied(Pop(k))
  {
    hide AllFollow, Accepts, AllTied, AskOf;
    assert k.events[Least(k.queue).event].state.Triggered?;
    SameTied(k, Pop(k));
  }

  lemma ApplyTied(u: User, k: Kernel, m: Move)
    requires Inv(k) && AllTied(k)
    ensures AllTied(Apply(u, k, m))
  {
    hide AllFollow, Accepts, Shape, AllTied, Exec, RunCallback, Pop, Wf;
    OwnerLinks(k);
    WfCtl(k);
    match m
    case Host(c) => if k.ctl.Idle? && Legal(k, c) { ExecTied(k, c); }
    case Run =>
      match k.ctl {
        case Idle => if k.queue != {} { PopTied(k); }
        case Dispatch(_, rest, Loop) => if rest == [] { SameTied(k, Finish(k)); } else { CallbackTied(k); }
        case Dispatch(_, _, _) => if Legal(k, u(k.log)) { ExecTied(k, u(k.log)); }
      }
    case _ => SameTied(k, Apply(u, k, m));
  }

  lemma {:induction false} ReachTied(u: User, ms: seq<Move>)
    ensures AllTied(Reach(u, ms))
  {
    hide Apply, Inv;
    if ms != [] {
      var init := ms[..|ms| - 1];
      ReachTied(u, init);
      ReachInv(u, init);
      ApplyTied(u, Reach(u, init), ms[|ms| - 1]);
    }
  }

  /** In every history, the event handed out for a live process is the process's own, and is pending, untouched
      and not queued, unless user code triggered it itself: nobody who waits for it is woken early. */
  lemma {:induction false} DoneIsPending(u: User, ms: seq<Move>, k: Kernel, p: ProcId)
    requires k == Reach(u, ms) && RefOf(k.log, p).Live?
    ensures p < |k.procs| && k.procs[p].done == HandleOf(AskOf(k.log, p))
    ensures var a := AskOf(k.log, p); a.Asked? && !a.touched ==> Untriggered(k.events, a.d) && !Queued(k.queue, a.d)
  {
    hide Reach, RefOf, AskOf;
    ReachInv(u, ms);
    ReachTied(u, ms);
    assert Follows(k.events, k.procs[p], p, k.ctl, RefOf(k.log, p));
  }

  /** Asked for again, it is the same event, and nothing else happens. */
  lemma {:induction false} AskedAgain(u: User, ms: seq<Move>, m: Move, p: ProcId)
    requires CallOf(u, Reach(u, ms), m) == Some(ProcEvent(p))
    ensures var k, k1 := Reach(u, ms), Reach(u, ms + [m]); var a, a1 := AskOf(k.log, p), AskOf(k1.log, p);
            && a1.Asked? && k1.log == k.log + [GotDone(p, a1.d)]
            && (a.Asked? ==> a1 == a && k1 == Say(k, GotDone(p, a.d)))
  {
    hide Reach, CallOf, Exec;
    var k := Reach(u, ms);
    CallMade(u, ms, m, ProcEvent(p));
    ReachInv(u, ms);
    ReachTied(u, ms);
    SameHandle(k, p);
  }

  lemma SameHandle(k: Kernel, p: ProcId)
    requires Inv(k) && AllTied(k) && p < |k.procs|
    ensures var k1 := Exec(k, ProcEvent(p)); var a, a1 := AskOf(k.log, p), AskOf(k1.log, p);
            && a1.Asked? && k1.log == k.log + [GotDone(p, a1.d)]
            && (a.Asked? ==> a1 == a && k1 == Say(k, GotDone(p, a.d)))
  {
    hide AllFollow, Accepts, Shape, AskOf;
    assert Tied(k.events, k.procs[p], AskOf(k.log, p));
    ProcessEventEffect(k, p);
    AskOfSay(k.log, GotDone(p, Exec(k, ProcEvent(p)).procs[p].done.value), p);
  }

  /** The done event `d` of `p` is queued at the current time, with no value, ok; and in every continuation it is
      still, or was dispatched at that time. */
  ghost predicate Announced(u: User, ms: seq<Move>, more: seq<Move>, n: nat, t: real, d: EventId) {
    var k := Reach(u, ms);
    var x := Entry(t, NORMAL, n, d);
    && x in k.queue && d < |k.events| && k.events[d].state.Triggered? && k.events[d].value == NULL && k.events[d].ok
    && (Kept(k, Reach(u, ms + more), x) || FiredBy(u, ms, more, x))
  }

  /** When the process ends and its event is pending, that move queues it: for that time, with no value. */
  lemma {:induction false} EndTriggers(u: User, ms: seq<Move>, m: Move, more: seq<Move>, p: ProcId)
    requires var k := Reach(u, ms); CallOf(u, k, m) == Some(Return) && k.ctl.Dispatch? && k.ctl.who == InProc(p)
    requires var a := AskOf(Reach(u, ms).log, p); a.Asked? && !a.touched
    ensures var k := Reach(u, ms); Announced(u, ms + [m], more, k.nextSeq, k.now, AskOf(k.log, p).d)
  {
    hide Reach, CallOf, Exec, AskOf, Kept, FiredBy;
    var k := Reach(u, ms);
    CallMade(u, ms, m, Return);
    ReachInv(u, ms);
    ReachTied(u, ms);
    ActiveLives(k);
    var d := AskOf(k.log, p).d;
    ExitQueues(k, p, d);
    FiresOnTime(u, ms + [m], more, Entry(k.now, NORMAL, k.nextSeq, d));
  }

  lemma ActiveLives(k: Kernel)
    requires Inv(k) && k.ctl.Dispatch? && k.ctl.who.InProc?
    ensures k.ctl.who.p < |k.procs| && !k.procs[k.ctl.who.p].state.Dead?
  {
    var p := k.ctl.who.p;
    assert CtlOk(k.ctl, |k.events|, |k.procs|);
    assert Follows(k.events, k.procs[p], p, k.ctl, RefOf(k.log, p));
  }

  lemma ExitQueues(k: Kernel, p: ProcId, d: EventId)
    requires Inv(k) && Legal(k, Return) && k.ctl.Dispatch? && k.ctl.who == InProc(p) && p < |k.procs|
    requires k.procs[p].done == Some(d) && Untriggered(k.events, d)
    ensures var k1 := Exec(k, Return);
            && Entry(k.now, NORMAL, k.nextSeq, d) in k1.queue && Handle(k1, d)
            && k1.events[d].state.Triggered? && k1.events[d].value == NULL && k1.events[d].ok
  {
    hide AllFollow, Accepts, Shape;
    OwnerLinks(k);
    assert Entry(k.now + 0.0, NORMAL, k.nextSeq, d) == Entry(k.now, NORMAL, k.nextSeq, d);
  }

  /** First asked for after the end, it is queued by that call, for the time of the call. */
  lemma {:induction false} LateAskTriggers(u: User, ms: seq<Move>, m: Move, more: seq<Move>, p: ProcId)
    requires var k := Reach(u, ms);
             CallOf(u, k, m) == Some(ProcEvent(p)) && RefOf(k.log, p).Gone? && AskOf(k.log, p).NotAsked?
    ensures var k, k1 := Reach(u, ms), Reach(u, ms + [m]);
            AskOf(k1.log, p).Asked? && Announced(u, ms + [m], more, k.nextSeq, k.now, AskOf(k1.log, p).d)
  {
    hide Reach, CallOf, Exec, AskOf, RefOf, Kept, FiredBy;
    var k, k1 := Reach(u, ms), Reach(u, ms + [m]);
    CallMade(u, ms, m, ProcEvent(p));
    ReachInv(u, ms);
    ReachTied(u, ms);
    assert Follows(k.events, k.procs[p], p, k.ctl, RefOf(k.log, p));
    LateQueues(k, p);
    SameHandle(k, p);
    FiresOnTime(u, ms + [m], more, Entry(k.now, NORMAL, k.nextSeq, AskOf(k1.log, p).d));
  }

  lemma LateQueues(k: Kernel, p: ProcId)
    requires Inv(k) && p < |k.procs| && k.procs[p].state.Dead? && k.procs[p].done.None?
    ensures var k1 := Exec(k, ProcEvent(p));
            && k1.log != [] && k1.log[|k1.log| - 1].GotDone?
            && var d := k1.log[|k1.log| - 1].e;
            && Entry(k.now, NORMAL, k.nextSeq, d) in k1.queue && Handle(k1, d)
            && k1.events[d].state.Triggered? && k1.events[d].value == NULL && k1.events[d].ok
  {
    hide AllFollow, Accepts, Shape;
    AllocWf(k, DoneOf(p));
    var d := NextEvent(k);
    assert Entry(k.now + 0.0, NORMAL, k.nextSeq, d) == Entry(k.now, NORMAL, k.nextSeq, d);
  }
}
