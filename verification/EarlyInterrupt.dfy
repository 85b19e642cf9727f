/** Histories in which interrupts go astray: taken before the start, dropped after it, and taken by the
    process itself. */
module EarlyInterrupts {
  import opened Entries
  import opened Kernel
  import opened Protocol
  import opened Runs
  import opened Wakeups

  /** Only a return from sim_yield clears a pending interrupt, and the start of a
      process is not one: a process interrupted before its start runs on uninterrupted, and then waits for
      the first event it yields with the interrupt still pending and no switch due. Here process 0 is
      created and interrupted by the host, starts, creates an event and yields it. */
  function YieldFirst(log: seq<Obs>): Cmd {
    if log != [] && log[|log| - 1].Got? then Yield(log[|log| - 1].e) else NewEvent
  }

  const EARLY: seq<Move> := [Host(Spawn), Host(Interrupt(0, 7))] + Steps(5)

  lemma EarlyInterruptWaits()
    ensures Stuck(Reach(YieldFirst, EARLY), 7)
  {
    var u: User := YieldFirst;
    var calls := [Host(Spawn), Host(Interrupt(0, 7))];
    EarlyCalls();
    assert calls[..1] == [Host(Spawn)] && calls[..1][..0] == [];
    assert Reach(u, calls[..1]) == EarlyIdle(NewProc(Some(0)), [Spawned(0)]);
    assert Reach(u, calls) == EarlyIdle(EARLY_PROC, EARLY_LOG);
    RunsAreTicks(u, calls, 5);
    EarlyRuns(u);
  }

  /** The host interrupts it again, now that it has been started and waits: the call is dropped. */
  lemma SecondInterruptDropped()
    ensures Stuck(Reach(YieldFirst, EARLY + [Host(Interrupt(0, 8))]), 7)
  {
    EarlyInterruptWaits();
    LastMove(YieldFirst, EARLY + [Host(Interrupt(0, 8))]);
    assert (EARLY + [Host(Interrupt(0, 8))])[..|EARLY|] == EARLY;
    DropSecond(YieldFirst, Reach(YieldFirst, EARLY));
  }

  lemma DropSecond(u: User, k: Kernel)
    requires Wf(k) && Stuck(k, 7)
    ensures Stuck(Apply(u, k, Host(Interrupt(0, 8))), 7)
  {
    var k1 := Apply(u, k, Host(Interrupt(0, 8)));
    assert k1 == Say(k, Did(Interrupt(0, 8)));
    assert forall x :: ResumeEntry(k1, 0, x) <==> ResumeEntry(k, 0, x);
  }

  // ---------- a process that interrupts itself ----------

  /** The process interrupts itself, makes an event and yields it. */
  function InterruptSelf(log: seq<Obs>): Cmd {
    if log == [] then Return
    else
      match log[|log| - 1]
      case Started(p) => Interrupt(p, 7)
      case Got(e) => Yield(e)
      case _ => NewEvent
  }

  const SELF: seq<Move> := [Host(Spawn)] + Steps(6)

  /** It waits for that event, and its resume is queued as well. */
  lemma SelfInterruptGivesBoth()
    ensures var k := Reach(InterruptSelf, SELF);
            k.ctl.Idle? && |k.procs| == 1 && k.procs[0].state.Running? && Waits(k, 0) && ResumeQueued(k, 0)
  {
    var u: User := InterruptSelf;
    EarlyCalls();
    LastMove(u, [Host(Spawn)]);
    assert [Host(Spawn)][..0] == [];
    RunsAreTicks(u, [Host(Spawn)], 6);
    SelfRuns(u);
  }

  /** The six machine steps: pop, switch, interrupt, create an event, yield it, finish. */
  lemma {:induction false} SelfRuns(u: User)
    requires u == InterruptSelf
    ensures var k1 := EarlyIdle(NewProc(Some(0)), [Spawned(0)]); Wf(k1) && Both(Ticks(u, k1, 6))
  {
    hide Wf, Tick, Both;
    var pr := NewProc(Some(0));
    var k1 := EarlyIdle(pr, [Spawned(0)]);
    var log2 := [Spawned(0)] + [Dispatched(0, NULL, 0.0)];
    var k2 := EarlyRun(pr, [], Dispatch(0, [ResumeCb(0)], Loop), log2);
    var k3 := EarlyRun(pr.(state := Running), [], Dispatch(0, [], InProc(0)), log2 + [Started(0)]);
    EarlyPop(u, pr, [Spawned(0)], k1, k2);
    TickWf(u, k1);
    EarlySwitch(u, k2, k3);
    TickWf(u, k2);
    SelfTakes(u, k3);
    TickWf(u, k3);
    var k4 := Tick(u, k3);
    SelfYields(u, k4);
    assert Ticks(u, k1, 6) == Ticks(u, k2, 5) == Ticks(u, k3, 4) == Ticks(u, k4, 3);
  }

  /** Started, suspended, waiting, and its resume queued. */
  ghost predicate Both(k: Kernel) {
    k.ctl.Idle? && |k.procs| == 1 && k.procs[0].state.Running? && Waits(k, 0) && ResumeQueued(k, 0)
  }

  const SELF_ENTRY := Entry(0.0, NORMAL, 1, 0)

  /** Interrupted by itself, in control, its resume queued. */
  ghost predicate Interrupted(k: Kernel) {
    && k.ctl == Dispatch(0, [], InProc(0)) && k.now == 0.0 && k.queue == {SELF_ENTRY} && k.eventPool == []
    && |k.events| == 1 && k.events[0].kind.ResumeOf? && !k.events[0].recyclable
    && |k.procs| == 1 && k.procs[0].state.Running? && k.procs[0].resumeEv == Some(0)
    && k.log != [] && k.log[|k.log| - 1].Did?
  }

  lemma SelfTakes(u: User, k3: Kernel)
    requires u == InterruptSelf && Wf(k3) && k3.log != [] && k3.log[|k3.log| - 1] == Started(0)
    requires k3 == EarlyRun(NewProc(Some(0)).(state := Running), [], Dispatch(0, [], InProc(0)), k3.log)
    ensures Interrupted(Tick(u, k3))
  {
    assert Tick(u, k3) == Exec(k3, Interrupt(0, 7));
    assert {} + {SELF_ENTRY} == {SELF_ENTRY};
  }

  lemma {:induction false} SelfYields(u: User, k4: Kernel)
    requires u == InterruptSelf && Wf(k4) && Interrupted(k4)
    ensures Both(Ticks(u, k4, 3))
  {
    TickWf(u, k4);
    var k5 := Tick(u, k4);
    assert k5 == Exec(k4, NewEvent);
    TickWf(u, k5);
    var k6 := Tick(u, k5);
    assert k6 == Exec(k5, Yield(1));
    assert k6.events == k5.events[1 := Fresh(Plain).(cbs := [] + [WaiterCb(0)])];
    TickWf(u, k6);
    var k7 := Tick(u, k6);
    assert ResumeEntry(k7, 0, SELF_ENTRY);
    ThreeTicks(u, k4);
  }

  lemma {:induction false} ThreeTicks(u: User, k: Kernel)
    requires Wf(k)
    ensures Wf(Tick(u, k)) && Wf(Tick(u, Tick(u, k))) && Ticks(u, k, 3) == Tick(u, Tick(u, Tick(u, k)))
  {
    hide Wf, Tick;
    TickWf(u, k);
    TickWf(u, Tick(u, k));
    TickWf(u, Tick(u, Tick(u, k)));
    assert Ticks(u, k, 3) == Ticks(u, Tick(u, k), 2) == Ticks(u, Tick(u, Tick(u, k)), 1);
  }

  // ---------- the states in between ----------

  const EARLY_ENTRY := Entry(0.0, NORMAL, 0, 0)

  /** The state before the pop, with the one process in the state `pr`. */
  function EarlyIdle(pr: Proc, log: seq<Obs>): Kernel {
    INIT.(nextSeq := 1, queue := {EARLY_ENTRY}, procs := [pr], log := log,
          events := [Fresh(ResumeOf(0)).(state := Triggered, cbs := [ResumeCb(0)])])
  }

  const EARLY_PROC := NewProc(Some(0)).(interruptPending := true, cause := 7, resumeValue := 7)

  /** After the pop: resume event 0 has been dispatched, with event 1 if it has been made. */
  function EarlyRun(pr: Proc, more: seq<Event>, ctl: Control, log: seq<Obs>): Kernel {
    INIT.(nextSeq := 1, procs := [pr], events := [Fresh(ResumeOf(0)).(state := Processed)] + more,
          ctl := ctl, log := log, trace := [EARLY_ENTRY])
  }

  const EARLY_LOG: seq<Obs> := [Spawned(0), Did(Interrupt(0, 7))]

  /** The host's two calls. */
  lemma EarlyCalls()
    ensures Wf(Exec(INIT, Spawn))
    ensures Exec(INIT, Spawn) == EarlyIdle(NewProc(Some(0)), [Spawned(0)])
    ensures Exec(EarlyIdle(NewProc(Some(0)), [Spawned(0)]), Interrupt(0, 7)) == EarlyIdle(EARLY_PROC, EARLY_LOG)
  {
    ExecWf(INIT, Spawn);
    assert [] + [ResumeCb(0)] == [ResumeCb(0)];
    assert {} + {EARLY_ENTRY} == {EARLY_ENTRY};
    assert [Spawned(0)] + [Did(Interrupt(0, 7))] == EARLY_LOG;
  }

  /** The five machine steps: pop, switch, create an event, yield it, finish. */
  lemma {:induction false} EarlyRuns(u: User)
    requires u == YieldFirst
    ensures Wf(EarlyIdle(EARLY_PROC, EARLY_LOG)) && Stuck(Ticks(u, EarlyIdle(EARLY_PROC, EARLY_LOG), 5), 7)
  {
    hide Wf, Tick, Stuck;
    var k2 := EarlyIdle(EARLY_PROC, EARLY_LOG);
    var log3 := EARLY_LOG + [Dispatched(0, NULL, 0.0)];
    var k3 := EarlyRun(EARLY_PROC, [], Dispatch(0, [ResumeCb(0)], Loop), log3);
    var pr := EARLY_PROC.(state := Running);
    var k4 := EarlyRun(pr, [], Dispatch(0, [], InProc(0)), log3 + [Started(0)]);
    var k5 := EarlyRun(pr, [Fresh(Plain)], Dispatch(0, [], InProc(0)), log3 + [Started(0)] + [Got(1)]);
    EarlyPop(u, EARLY_PROC, EARLY_LOG, k2, k3);
    TickWf(u, k2);
    EarlySwitch(u, k3, k4);
    TickWf(u, k3);
    EarlyNew(u, k4, k5);
    TickWf(u, k4);
    EarlyYield(u, k5);
    TickWf(u, k5);
    assert Ticks(u, k5, 2) == Ticks(u, Tick(u, k5), 1) == Ticks(u, Tick(u, Tick(u, k5)), 0);
    assert Ticks(u, k2, 5) == Ticks(u, k3, 4) == Ticks(u, k4, 3) == Ticks(u, k5, 2);
  }

  /** Started, suspended, the interrupt with cause `c` pending, and nothing on its way. */
  ghost predicate Stuck(k: Kernel, c: Value) {
    && k.ctl.Idle? && |k.procs| == 1
    && k.procs[0].state.Running? && k.procs[0].interruptPending && k.procs[0].cause == c
    && Waits(k, 0) && !ResumeQueued(k, 0) && k.queue == {}
  }

  lemma EarlySwitch(u: User, k3: Kernel, k4: Kernel)
    requires Wf(k3) && k3.ctl == Dispatch(0, [ResumeCb(0)], Loop) && |k3.procs| == 1 && k3.procs[0].state.New?
    requires k4 == k3.(procs := [k3.procs[0].(state := Running)], ctl := Dispatch(0, [], InProc(0)),
                       log := k3.log + [Started(0)])
    ensures Tick(u, k3) == k4
  {
    assert [ResumeCb(0)][1..] == [];
    assert k3.procs[0 := k3.procs[0].(state := Running)] == k4.procs;
  }

  lemma EarlyPop(u: User, pr: Proc, log: seq<Obs>, k2: Kernel, k3: Kernel)
    requires k2 == EarlyIdle(pr, log) && (pr == EARLY_PROC || pr == NewProc(Some(0)))
    requires k3 == EarlyRun(pr, [], Dispatch(0, [ResumeCb(0)], Loop), log + [Dispatched(0, NULL, 0.0)])
    ensures Wf(k2) && Tick(u, k2) == k3
  {
    assert Least(k2.queue) == EARLY_ENTRY;
    assert k2.queue - {EARLY_ENTRY} == {};
    assert [Fresh(ResumeOf(0)).(state := Processed)] + [] == [Fresh(ResumeOf(0)).(state := Processed)];
  }

  lemma EarlyNew(u: User, k4: Kernel, k5: Kernel)
    requires u == YieldFirst && Wf(k4) && k4.log != [] && k4.log[|k4.log| - 1] == Started(0)
    requires k4.ctl == Dispatch(0, [], InProc(0)) && |k4.events| == 1 && k4.eventPool == []
    requires k5 == k4.(events := k4.events + [Fresh(Plain)], log := k4.log + [Got(1)])
    ensures Tick(u, k4) == k5
  {
  }

  lemma EarlyYield(u: User, k5: Kernel)
    requires u == YieldFirst && Wf(k5) && k5.log != [] && k5.log[|k5.log| - 1] == Got(1)
    requires k5.ctl == Dispatch(0, [], InProc(0)) && |k5.events| == 2 && k5.queue == {} && |k5.procs| == 1
    requires k5.events[0].kind.ResumeOf? && !k5.events[0].recyclable && k5.events[1] == Fresh(Plain)
    requires k5.procs[0].state.Running? && k5.procs[0].interruptPending && k5.procs[0].cause == 7
    ensures Wf(Tick(u, k5)) && Stuck(Tick(u, Tick(u, k5)), 7)
  {
    TickWf(u, k5);
    assert Tick(u, k5) == Exec(k5, Yield(1));
    assert Exec(k5, Yield(1)).events == k5.events[1 := Fresh(Plain).(cbs := [] + [WaiterCb(0)])];
  }
}
