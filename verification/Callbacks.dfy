/** User callbacks: each subscription is called once, in the order of registration, when its event is
    processed. */
module Callbacks {
  import opened Bags
  import opened Entries
  import opened Kernel
  import opened Protocol
  import opened Invariants
  import opened ShapeProof
  import opened FollowProof
  import opened Runs
  import opened Wakeups

  /** Told from the transcript alone. subs: the callbacks waiting on an event, in order of registration.
      todo: those of its current dispatch that have still to be called. */
  datatype Queue = Queue(subs: seq<int>, todo: seq<int>)

  function NextQueue(q: Queue, o: Obs, e: EventId): Queue {
    match o
    case Did(On(x, tag)) => if x == e then q.(subs := q.subs + [tag]) else q
    case Dispatched(x, _, _) => if x == e then Queue([], q.subs) else q
    case Called(_, x) => if x == e && q.todo != [] then q.(todo := q.todo[1..]) else q
    case _ => q
  }

  function QueueOf(log: seq<Obs>, e: EventId): Queue {
    if log == [] then Queue([], [])
    else NextQueue(QueueOf(log[..|log| - 1], e), log[|log| - 1], e)
  }

  /** A callback is called only when it is first in line, and an event is dispatched only when the
      callbacks of the dispatch before have all been called. */
  predicate InTurn(log: seq<Obs>, o: Obs) {
    match o
    case Called(tag, e) => QueueOf(log, e).todo != [] && QueueOf(log, e).todo[0] == tag
    case Dispatched(e, _, _) => QueueOf(log, e).todo == []
    case _ => true
  }

  predicate AllInTurn(log: seq<Obs>) {
    forall i :: 0 <= i < |log| ==> InTurn(log[..i], log[i])
  }

  function TagOf(cb: Callback): seq<int> {
    if cb.UserCb? then [cb.tag] else []
  }

  /** The user callbacks among the callbacks of an event. */
  function Tags(cbs: seq<Callback>): seq<int> {
    Collect(cbs, TagOf)
  }

  ghost predicate QueuesOk(k: Kernel) {
    && (forall e: nat :: QueueOf(k.log, e).subs == if e < |k.events| then Tags(k.events[e].cbs) else [])
    && (forall e: nat :: QueueOf(k.log, e).todo == if k.ctl.Dispatch? && k.ctl.e == e then Tags(k.ctl.rest) else [])
    && AllInTurn(k.log)
  }

  // ---------- operations that do not concern user callbacks ----------

  /** No event's user callbacks change, and new events have none. */
  ghost predicate SameTags(k: Kernel, k1: Kernel) {
    && |k.events| <= |k1.events|
    && (forall e :: 0 <= e < |k.events| ==> Tags(k1.events[e].cbs) == Tags(k.events[e].cbs))
    && (forall e :: |k.events| <= e < |k1.events| ==> Tags(k1.events[e].cbs) == [])
    && k1.ctl.Dispatch? == k.ctl.Dispatch?
    && (k.ctl.Dispatch? ==> k1.ctl.e == k.ctl.e && Tags(k1.ctl.rest) == Tags(k.ctl.rest))
  }

  lemma TagsFew(cb: Callback)
    ensures Tags([]) == [] && Tags([cb]) == TagOf(cb)
    ensures forall cbs :: Tags(cbs + [cb]) == Tags(cbs) + TagOf(cb)
  {
    CollectFew(cb, cb, TagOf);
    forall cbs ensures Tags(cbs + [cb]) == Tags(cbs) + TagOf(cb) {
      CollectAppend(cbs, [cb], TagOf);
    }
  }

  /** Such an operation, and what it adds to the transcript. */
  lemma QuietSay(k: Kernel, k0: Kernel, k1: Kernel, o: Obs)
    requires QueuesOk(k) && SameTags(k, k0) && k0.log == k.log
    requires k1 == k0.(log := k.log + [o], ctl := k1.ctl) && SameRest(k0.ctl, k1.ctl)
    requires !o.Dispatched? && !o.Called? && !(o.Did? && o.c.On?)
    ensures QueuesOk(k1)
  {
    forall e: nat ensures QueueOf(k1.log, e) == QueueOf(k.log, e) {
      assert k1.log[..|k.log|] == k.log;
    }
    InTurnSay(k.log, o);
  }

  predicate SameRest(c: Control, c1: Control) {
    c1.Dispatch? == c.Dispatch? && (c.Dispatch? ==> c1.e == c.e && c1.rest == c.rest)
  }

  lemma InTurnSay(log: seq<Obs>, o: Obs)
    requires AllInTurn(log) && InTurn(log, o)
    ensures AllInTurn(log + [o])
  {
    var l := log + [o];
    forall i | 0 <= i < |l| ensures InTurn(l[..i], l[i]) {
      assert l[..i] == log[..i];
      if i == |log| { assert log[..i] == log; }
    }
  }

  /** A slot that is being taken into use held no callbacks, and gets no user callback. */
  lemma PlaceTags(k: Kernel, ev: Event, k1: Kernel)
    requires Inv(k) && k1.events == Put(k.events, NextEvent(k), ev) && k1.ctl == k.ctl && Tags(ev.cbs) == []
    ensures SameTags(k, k1)
  {
    hide AllFollow, Accepts, Shape, Wf;
    NextEventFree(k);
    PooledEmpty(k);
    TagsFew(UserCb(0));
    hide Tags;
  }

  lemma PooledEmpty(k: Kernel)
    requires Wf(k) && Shape(k)
    ensures k.eventPool != [] ==> k.eventPool[0] < |k.events| && k.events[k.eventPool[0]].cbs == []
  {
    if k.eventPool != [] { assert EventOk(k.events[k.eventPool[0]], k.eventPool[0], k.procs); }
  }

  lemma AllocTags(k: Kernel, kind: Kind)
    requires Inv(k)
    ensures SameTags(k, Alloc(k, kind))
  {
    hide Shape, AllFollow, Accepts, SameTags;
    TagsFew(UserCb(0));
    PlaceTags(k, Fresh(kind), Alloc(k, kind));
  }

  lemma ScheduleResumeTags(k: Kernel, p: ProcId, v: Value)
    requires Wf(k) && Shape(k) && p < |k.procs| && !RestHas(k.ctl, ResumeCb(p))
    ensures var k1 := ScheduleResume(k, p, v); SameTags(k, k1) && k1.log == k.log && k1.ctl == k.ctl
  {
    TagsFew(ResumeCb(p));
    var r := k.procs[p].resumeEv.value;
    assert EventOk(k.events[r], r, k.procs);
  }

  lemma SpawnTags(k: Kernel)
    requires Inv(k) && InControl(k.ctl)
    ensures SameTags(k, Spawning(k)) && Spawning(k).log == k.log && Spawning(k).ctl == k.ctl
  {
    if k.procPool == [] { CreateTags(k); } else { ReuseTags(k); }
  }

  lemma CreateTags(k: Kernel)
    requires Inv(k) && k.procPool == []
    ensures SameTags(k, Spawning(k)) && Spawning(k).log == k.log && Spawning(k).ctl == k.ctl
  {
    hide Shape, AllFollow, Accepts, SameTags, Spawning;
    CreateEffect(k);
    TagsFew(ResumeCb(|k.procs|));
    PlaceTags(k, Fresh(ResumeOf(|k.procs|)).(state := Triggered, cbs := [ResumeCb(|k.procs|)]), Spawning(k));
  }

  lemma ReuseTags(k: Kernel)
    requires Inv(k) && InControl(k.ctl) && k.procPool != []
    ensures SameTags(k, Spawning(k)) && Spawning(k).log == k.log && Spawning(k).ctl == k.ctl
  {
    hide AllFollow, Accepts, Shape;
    AllocProcWf(k);
    ReuseShape(k);
    NoResumeLeft(k, NextProc(k)) by { assert LoopOk(k.ctl, k.events) by { ShapeLoop(k); } }
    ScheduleResumeTags(AllocProc(k), NextProc(k), NULL);
  }

  lemma ShapeLoop(k: Kernel)
    requires Shape(k)
    ensures LoopOk(k.ctl, k.events)
  {
  }

  lemma ProcessEventTags(k: Kernel, p: ProcId)
    requires Inv(k) && p < |k.procs|
    ensures SameTags(k, ProcessEvent(k, p).0) && ProcessEvent(k, p).0.log == k.log && ProcessEvent(k, p).0.ctl == k.ctl
  {
    hide AllFollow, Accepts, Shape;
    AllocTags(k, DoneOf(p));
    AllocWf(k, DoneOf(p));
    hide Wf, Tags;
  }

  lemma InterruptTags(k: Kernel, p: ProcId, c: Value)
    requires Inv(k) && p < |k.procs| && InControl(k.ctl)
    ensures SameTags(k, Interrupting(k, p, c)) && Interrupting(k, p, c).log == k.log && Interrupting(k, p, c).ctl == k.ctl
  {
    var pr := k.procs[p];
    if !(pr.state.Dead? || pr.interruptPending) {
      var pr1 := pr.(interruptPending := true, cause := c, yielded := None);
      SetProcShape(k, p, pr1);
      SetProcWf(k, p, pr1);
      NoResumeLeft(k, p);
      ScheduleResumeTags(SetProc(k, p, pr1), p, c);
    }
  }

  lemma SuspendTags(k: Kernel, p: ProcId, e: EventId)
    requires Inv(k) && p < |k.procs| && Handle(k, e) && InControl(k.ctl)
    ensures SameTags(k, Suspend(k, p, e)) && Suspend(k, p, e).log == k.log && Suspend(k, p, e).ctl == k.ctl
  {
    TagsFew(WaiterCb(p));
    var pr1 := k.procs[p].(yielded := Some(e));
    if k.events[e].state.Processed? {
      SetProcShape(k, p, pr1);
      SetProcWf(k, p, pr1);
      NoResumeLeft(k, p);
      ScheduleResumeTags(SetProc(k, p, pr1), p, k.events[e].value);
    }
  }

  // ---------- every move keeps the queues ----------

  lemma SucceedTags(k: Kernel, e: EventId, v: Value)
    requires e < |k.events|
    ensures SameTags(k, Succeeded(k, e, v)) && Succeeded(k, e, v).log == k.log && Succeeded(k, e, v).ctl == k.ctl
  {
    TriggerTags(k, e, k.events[e].(value := v, ok := true, state := Triggered));
  }

  lemma FailTags(k: Kernel, e: EventId, v: Value)
    requires e < |k.events|
    ensures SameTags(k, Failed(k, e, v)) && Failed(k, e, v).log == k.log && Failed(k, e, v).ctl == k.ctl
  {
    TriggerTags(k, e, k.events[e].(reason := v, ok := false, state := Triggered));
  }

  lemma NoTags(k: Kernel, k1: Kernel)
    requires k1.events == k.events && SameRest(k.ctl, k1.ctl)
    ensures SameTags(k, k1)
  {
  }

  lemma TriggerTags(k: Kernel, e: EventId, ev: Event)
    requires e < |k.events| && ev.cbs == k.events[e].cbs
    ensures SameTags(k, Schedule(SetEvent(k, e, ev), e, 0.0))
  {
  }

  lemma {:induction false} OnQueues(k: Kernel, e: EventId, tag: int)
    requires Inv(k) && QueuesOk(k) && Legal(k, On(e, tag))
    ensures QueuesOk(Exec(k, On(e, tag)))
  {
    hide Shape, AllFollow, Wf, AllInTurn, Tags;
    var k1 := Exec(k, On(e, tag));
    if k.events[e].state.Processed? {
      NoTags(k, k);
      QuietSay(k, k, k1, Entered(tag, e));
    } else {
      var cbs := k.events[e].cbs;
      assert Tags(cbs + [UserCb(tag)]) == Tags(cbs) + [tag] by { TagsFew(UserCb(tag)); }
      assert k1.events == k.events[e := k.events[e].(cbs := cbs + [UserCb(tag)])];
      forall x: nat ensures QueueOf(k1.log, x) == NextQueue(QueueOf(k.log, x), Did(On(e, tag)), x) {
        assert k1.log[..|k.log|] == k.log;
      }
      InTurnSay(k.log, Did(On(e, tag)));
    }
  }

  lemma {:induction false} AllocQueues(k: Kernel, c: Cmd)
    requires Inv(k) && QueuesOk(k) && Legal(k, c) && (c.NewEvent? || c.NewTransient? || c.NewRequest? || c.Timeout?)
    ensures QueuesOk(Exec(k, c))
  {
    hide QueuesOk, Shape, AllFollow;
    var kind := match c case NewEvent => Plain case NewRequest => Request case _ => Transient;
    AllocTags(k, kind);
    var k1 := Exec(k, c);
    var k0 := k1.(log := k.log);
    assert Alloc(k, kind).events[NextEvent(k)] == Fresh(kind) by { AllocWf(k, kind); }
    assert SameTags(k, k0);
    QuietSay(k, k0, k1, Got(NextEvent(k)));
  }

  lemma {:induction false} ReturnQueues(k: Kernel)
    requires Inv(k) && QueuesOk(k) && Legal(k, Return)
    ensures QueuesOk(Exec(k, Return))
  {
    hide QueuesOk, Shape, AllFollow, Accepts;
    assert CtlOk(k.ctl, |k.events|, |k.procs|);
    var k1 := Exec(k, Return);
    if k.ctl.who.InProc? {
      var p := k.ctl.who.p;
      assert ProcOk(k.procs[p], |k.events|);
      QuietSay(k, Exiting(k, p), k1, Exited(p));
    } else {
      QuietSay(k, k, k1, Left);
    }
  }

  lemma {:induction false} ExecQueues(k: Kernel, c: Cmd)
    requires Inv(k) && QueuesOk(k) && Legal(k, c) && InControl(k.ctl)
    ensures QueuesOk(Exec(k, c))
  {
    hide QueuesOk, Shape, AllFollow, SameTags, Accepts, Wf, Suspend, Interrupting, Spawning, ProcessEvent, Succeeded, Failed;
    var k1 := Exec(k, c);
    assert CtlOk(k.ctl, |k.events|, |k.procs|) by { WfCtl(k); }
    match c
    case Succeed(e, v) => SucceedTags(k, e, v); QuietSay(k, Succeeded(k, e, v), k1, Did(c));
    case Fail(e, v) => FailTags(k, e, v); QuietSay(k, Failed(k, e, v), k1, Did(c));
    case On(e, tag) => OnQueues(k, e, tag);
    case Spawn => SpawnTags(k); QuietSay(k, Spawning(k), k1, Spawned(NextProc(k)));
    case ProcEvent(p) => ProcessEventTags(k, p); QuietSay(k, ProcessEvent(k, p).0, k1, GotDone(p, ProcessEvent(k, p).1));
    case Interrupt(p, v) => InterruptTags(k, p, v); QuietSay(k, Interrupting(k, p, v), k1, Did(c));
    case Recycle(e) => NoTags(k, k.(eventPool := [e] + k.eventPool)); QuietSay(k, k.(eventPool := [e] + k.eventPool), k1, Did(c));
    case Yield(e) =>
      SuspendTags(k, k.ctl.who.p, e);
      QuietSay(k, Suspend(k, k.ctl.who.p, e), k1, Yielded(k.ctl.who.p, e, k.events[e].state.Processed?, k.events[e].value));
    case Return => ReturnQueues(k);
    case _ => AllocQueues(k, c);
  }

  lemma PopQueues(k: Kernel)
    requires Inv(k) && QueuesOk(k) && k.ctl.Idle? && k.queue != {}
    ensures QueuesOk(Pop(k))
  {
    var x := Least(k.queue);
    var k1 := Pop(k);
    var o := Dispatched(x.event, k.events[x.event].value, x.time);
    TagsFew(UserCb(0));
    forall e: nat ensures QueueOf(k1.log, e) == NextQueue(QueueOf(k.log, e), o, e) {
      assert k1.log[..|k.log|] == k.log;
    }
    InTurnSay(k.log, o);
  }

  lemma {:induction false} CallbackQueues(k: Kernel)
    requires Inv(k) && QueuesOk(k) && k.ctl.Dispatch? && k.ctl.who.Loop? && k.ctl.rest != []
    ensures QueuesOk(RunCallback(k))
  {
    DropCallbackWf(k);
    match k.ctl.rest[0]
    case ResumeCb(p) => SwitchQueues(k, p);
    case WaiterCb(p) => WaiterQueues(k, p);
    case UserCb(tag) => CallQueues(k, tag);
  }

  /** Neither of the two internal callbacks is a user callback. */
  lemma DropTags(k: Kernel)
    requires k.ctl.Dispatch? && k.ctl.rest != [] && !k.ctl.rest[0].UserCb?
    ensures SameTags(k, DropCallback(k))
  {
    CollectFirst(k.ctl.rest, TagOf);
  }

  lemma {:induction false} SwitchQueues(k: Kernel, p: ProcId)
    requires Inv(k) && QueuesOk(k) && k.ctl.Dispatch? && k.ctl.who.Loop? && k.ctl.rest != []
    requires k.ctl.rest[0] == ResumeCb(p)
    ensures QueuesOk(RunCallback(k))
  {
    hide Shape, AllFollow, Accepts, QueuesOk;
    DropCallbackWf(k);
    DropTags(k);
    var k1 := RunCallback(k);
    if k.procs[p].state.Dead? {
      SameQueues(k, k1);
    } else {
      QuietSay(k, k1.(log := k.log), k1, k1.log[|k.log|]);
    }
  }

  lemma SameQueues(k: Kernel, k1: Kernel)
    requires QueuesOk(k) && SameTags(k, k1) && k1.log == k.log
    ensures QueuesOk(k1)
  {
    hide QueueOf, AllInTurn, Tags;
  }

  lemma {:induction false} WaiterQueues(k: Kernel, p: ProcId)
    requires Inv(k) && QueuesOk(k) && k.ctl.Dispatch? && k.ctl.who.Loop? && k.ctl.rest != []
    requires k.ctl.rest[0] == WaiterCb(p)
    ensures QueuesOk(RunCallback(k))
  {
    hide Shape, AllFollow, Accepts, QueuesOk, Tags;
    DropCallbackWf(k);
    DropShape(k);
    DropTags(k);
    var k0, k1 := DropCallback(k), RunCallback(k);
    if k.procs[p].state.Dead? || k.procs[p].yielded != Some(k.ctl.e) {
      SameQueues(k, k1);
    } else {
      assert CtlOk(k.ctl, |k.events|, |k.procs|);
      NoResumeBeside(k);
      ScheduleResumeTags(k0, p, k.events[k.ctl.e].value);
      SameQueues(k, k1);
    }
  }

  lemma NoResumeBeside(k: Kernel)
    requires Shape(k) && k.ctl.Dispatch? && k.ctl.rest != [] && !k.ctl.rest[0].ResumeCb?
    ensures forall p :: !RestHas(DropCallback(k).ctl, ResumeCb(p))
  {
    assert LoopOk(k.ctl, k.events);
  }

  lemma CallQueues(k: Kernel, tag: int)
    requires Inv(k) && QueuesOk(k) && k.ctl.Dispatch? && k.ctl.who.Loop? && k.ctl.rest != []
    requires k.ctl.rest[0] == UserCb(tag)
    ensures QueuesOk(RunCallback(k))
  {
    hide Shape, AllFollow, Accepts, Wf;
    DropCallbackWf(k);
    CollectFirst(k.ctl.rest, TagOf);
    var k1 := RunCallback(k);
    var o := Called(tag, k.ctl.e);
    assert Tags(k.ctl.rest) == [tag] + Tags(k.ctl.rest[1..]);
    forall e: nat ensures QueueOf(k1.log, e) == NextQueue(QueueOf(k.log, e), o, e) {
      assert k1.log[..|k.log|] == k.log;
    }
    InTurnSay(k.log, o);
  }

  lemma {:induction false} ApplyQueues(u: User, k: Kernel, m: Move)
    requires Inv(k) && QueuesOk(k)
    ensures QueuesOk(Apply(u, k, m))
  {
    hide Shape, AllFollow, Accepts, QueuesOk, Wf, Exec, RunCallback, Pop;
    match m
    case Host(c) => if k.ctl.Idle? && Legal(k, c) { ExecQueues(k, c); }
    case Run =>
      match k.ctl {
        case Idle => if k.queue != {} { PopQueues(k); }
        case Dispatch(_, rest, Loop) => if rest == [] { FinishQueues(k); } else { CallbackQueues(k); }
        case Dispatch(_, _, _) => if Legal(k, u(k.log)) { ExecQueues(k, u(k.log)); }
      }
    case _ =>
      var k1 := Apply(u, k, m);
      NoTags(k, k1);
      SameQueues(k, k1);
  }

  lemma FinishQueues(k: Kernel)
    requires Wf(k) && QueuesOk(k) && k.ctl.Dispatch? && k.ctl.rest == []
    ensures k.ctl.e < |k.events| && QueuesOk(Finish(k))
  {
    WfCtl(k);
    TagsFew(UserCb(0));
    hide AllInTurn, QueueOf, Wf;
  }

  /** In every history user callbacks are called in turn, and between steps none is overdue: every callback
      registered on an event that has been processed has been called, once, in the order of registration. */
  lemma {:induction false} CalledInOrder(u: User, ms: seq<Move>)
    ensures var k := Reach(u, ms);
            && AllInTurn(k.log)
            && (k.ctl.Idle? ==> forall e: nat :: QueueOf(k.log, e).todo == [])
            && (forall e: nat :: e < |k.events| && k.events[e].state.Processed? ==> QueueOf(k.log, e).subs == [])
  {
    ReachQueues(u, ms);
    ReachInv(u, ms);
    var k := Reach(u, ms);
    TagsFew(UserCb(0));
    forall e: nat | e < |k.events| && k.events[e].state.Processed? ensures QueueOf(k.log, e).subs == [] {
      assert EventOk(k.events[e], e, k.procs);
    }
  }

  lemma {:induction false} ReachQueues(u: User, ms: seq<Move>)
    ensures QueuesOk(Reach(u, ms))
  {
    if ms != [] {
      ReachQueues(u, ms[..|ms| - 1]);
      ReachInv(u, ms[..|ms| - 1]);
      ApplyQueues(u, Reach(u, ms[..|ms| - 1]), ms[|ms| - 1]);
    }
  }
}
