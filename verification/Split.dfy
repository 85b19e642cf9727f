/** sim_run_until: what it cuts off, and why cutting a run in two changes nothing. The second half of a
    split run takes one more sequence number for its sentinel, so the two runs agree up to a renaming of
    the numbers given out after the cut. */
module Split {
  import opened Entries
  import opened Kernel
  import opened Protocol
  import opened Invariants
  import opened Runs
  import opened Wakeups

  /** The test of the loop: is the entry before the sentinel (until, URGENT, stop)? */
  predicate Before(x: Entry, until: real, stop: nat) {
    if x.time < until then true
    else if x.time > until then false
    else if x.priority < URGENT then true
    else if x.priority > URGENT then false
    else x.seqNo < stop
  }

  /** How far a run goes: until the queue is empty (sim_run), up to the sentinel (sim_run_until), or up to a
      number of dispatches in all (sim_step, one more). */
  datatype Limit = Never | At(until: real, stop: nat) | Count(n: nat)

  ghost predicate Done(k: Kernel, lim: Limit)
    requires Wf(k)
  {
    k.ctl.Idle? &&
    (|| k.queue == {}
     || (lim.At? && !Before(Least(k.queue), lim.until, lim.stop))
     || (lim.Count? && |k.trace| >= lim.n))
  }

  /** The loop, for at most `fuel` machine steps; None if it has not ended by then. */
  ghost function RunLoop(u: User, k: Kernel, lim: Limit, fuel: nat): (r: Option<Kernel>)
    requires Wf(k)
    ensures r.Some? ==> Wf(r.value) && r.value.ctl.Idle?
    decreases fuel
  {
    if Done(k, lim) then Some(k)
    else if fuel == 0 then None
    else
      TickWf(u, k);
      RunLoop(u, Tick(u, k), lim, fuel - 1)
  }

  function Advance(k: Kernel, until: real): Kernel {
    if k.now < until then k.(now := until) else k
  }

  ghost function RunUntil(u: User, k: Kernel, until: real, fuel: nat): (r: Option<Kernel>)
    requires Wf(k)
    ensures r.Some? ==> Wf(r.value) && r.value.ctl.Idle?
  {
    match RunLoop(u, k.(nextSeq := k.nextSeq + 1), At(until, k.nextSeq), fuel)
    case None => None
    case Some(k1) => Some(Advance(k1, until))
  }

  // ---------- what is dispatched ----------

  /** Everything is scheduled with NORMAL priority, so the test is on time alone. */
  lemma {:induction false} BeforeIsEarlier(x: Entry, until: real, stop: nat)
    requires x.priority == NORMAL
    ensures Before(x, until, stop) <==> x.time < until
  {
  }

  /** The test is the one the heap would make of a sentinel entry (until, URGENT, stop). */
  lemma {:induction false} SentinelOrder(x: Entry, until: real, stop: nat, e: EventId)
    ensures Before(x, until, stop) <==> EntryLt(x, Entry(until, URGENT, stop, e))
  {
  }

  lemma HeadIsEarlier(k: Kernel, until: real, stop: nat)
    requires Inv(k) && k.queue != {}
    ensures Before(Least(k.queue), until, stop) <==> Least(k.queue).time < until
  {
    BeforeIsEarlier(Least(k.queue), until, stop);
  }

  /** `k1` is `k` after some more dispatches, all earlier than `until`, and what is no longer queued is among
      them. */
  ghost predicate Extends(k: Kernel, k1: Kernel, until: real) {
    && |k.trace| <= |k1.trace| && k1.trace[..|k.trace|] == k.trace
    && (forall i :: |k.trace| <= i < |k1.trace| ==> k1.trace[i].time < until)
    && (forall x :: x in k.queue ==> x in k1.queue || x in k1.trace[|k.trace|..])
  }

  lemma {:induction false} LoopCuts(u: User, k: Kernel, until: real, stop: nat, fuel: nat)
    requires Inv(k) && RunLoop(u, k, At(until, stop), fuel).Some?
    requires k.ctl.Dispatch? ==> k.now < until
    ensures var k1 := RunLoop(u, k, At(until, stop), fuel).value;
            && Inv(k1) && Extends(k, k1, until)
            && (forall x :: x in k1.queue ==> until <= x.time)
            && (k1.now == k.now || k1.now < until) && k.now <= k1.now
    decreases fuel
  {
    hide Shape, AllFollow, Accepts, Wf, Tick, Extends;
    if Done(k, At(until, stop)) {
      DoneCuts(k, until, stop);
    } else {
      TickInv(u, k);
      TickCuts(u, k, until, stop);
      LoopCuts(u, Tick(u, k), until, stop, fuel - 1);
      ExtendsMore(k, Tick(u, k), RunLoop(u, k, At(until, stop), fuel).value, until);
    }
  }

  lemma DoneCuts(k: Kernel, until: real, stop: nat)
    requires Inv(k) && Done(k, At(until, stop))
    ensures Extends(k, k, until) && forall x :: x in k.queue ==> until <= x.time
  {
    if k.queue != {} { HeadIsEarlier(k, until, stop); }
  }

  lemma ExtendsMore(k: Kernel, k1: Kernel, k2: Kernel, until: real)
    requires Extends(k, k1, until) && Extends(k1, k2, until)
    ensures Extends(k, k2, until)
  {
    var n, n1 := |k.trace|, |k1.trace|;
    assert k2.trace[..n] == k2.trace[..n1][..n];
    forall i | n <= i < |k2.trace| ensures k2.trace[i].time < until {
      if i < n1 { assert k2.trace[i] == k2.trace[..n1][i]; }
    }
    assert k2.trace[n..] == k1.trace[n..] + k2.trace[n1..];
  }

  lemma {:induction false} TickCuts(u: User, k: Kernel, until: real, stop: nat)
    requires Inv(k) && !Done(k, At(until, stop))
    requires k.ctl.Dispatch? ==> k.now < until
    ensures var k1 := Tick(u, k);
            && Extends(k, k1, until) && k.now <= k1.now
            && (k1.ctl.Dispatch? ==> k1.now < until) && (k1.now == k.now || k1.now < until)
  {
    match k.ctl
    case Idle =>
      BeforeIsEarlier(Least(k.queue), until, stop);
      assert Pop(k).trace[|k.trace|..] == [Least(k.queue)];
    case Dispatch(_, _, Loop) => LoopLate(u, k);
    case Dispatch(_, _, _) =>
      if Legal(k, u(k.log)) {
        ExecLate(k, u(k.log));
        ExecTrace(k, u(k.log));
        assert CtlOk(k.ctl, |k.events|, |k.procs|);
      }
  }

  /** sim_run_until dispatches exactly the entries earlier than `until`: of those queued at the start, the
      earlier ones have been dispatched and the others are queued still; nothing else it dispatched, and nothing
      it left queued, is on the wrong side; and the clock ends at `until` (or stays where it was if that is
      later). */
  lemma RunUntilCuts(u: User, k: Kernel, until: real, fuel: nat)
    requires Inv(k) && k.ctl.Idle? && RunUntil(u, k, until, fuel).Some?
    ensures var k1 := RunUntil(u, k, until, fuel).value;
            && Inv(k1) && Extends(k, k1, until)
            && (forall x :: x in k1.queue ==> until <= x.time)
            && (forall x :: x in k.queue ==>
              && (x in k1.queue <==> until <= x.time)
              && (x in k1.trace[|k.trace|..] <==> x.time < until))
            && k1.now == if k.now < until then until else k.now
  {
    hide Shape, AllFollow, Accepts;
    var k0 := k.(nextSeq := k.nextSeq + 1);
    UntilInv(u, k, UntilStart);
    LoopCuts(u, k0, until, k.nextSeq, fuel);
    var k1 := RunLoop(u, k0, At(until, k.nextSeq), fuel).value;
    UntilInv(u, k1, UntilEnd(until));
    assert forall i :: |k.trace| <= i < |k1.trace| ==> k1.trace[|k.trace|..][i - |k.trace|] == k1.trace[i];
  }

  // ---------- the loops make histories ----------

  /** Where a loop ends is where a history of steps leads. */
  lemma {:induction false} LoopIsTicks(u: User, k: Kernel, lim: Limit, fuel: nat)
    requires Wf(k) && RunLoop(u, k, lim, fuel).Some?
    ensures exists n: nat :: RunLoop(u, k, lim, fuel).value == Ticks(u, k, n)
    decreases fuel
  {
    hide Wf, Tick, Done;
    if Done(k, lim) {
      assert Ticks(u, k, 0) == k;
    } else {
      TickWf(u, k);
      LoopIsTicks(u, Tick(u, k), lim, fuel - 1);
      var n: nat :| RunLoop(u, k, lim, fuel).value == Ticks(u, Tick(u, k), n);
      assert Ticks(u, k, n + 1) == Ticks(u, Tick(u, k), n);
    }
  }

  /** So from a reachable state sim_run and sim_step lead to a reachable state, */
  lemma {:induction false} LoopIsHistory(u: User, ms: seq<Move>, lim: Limit, fuel: nat)
    requires RunLoop(u, Reach(u, ms), lim, fuel).Some?
    ensures exists n: nat :: RunLoop(u, Reach(u, ms), lim, fuel).value == Reach(u, ms + Steps(n))
  {
    hide RunLoop, Reach, Wf;
    LoopIsTicks(u, Reach(u, ms), lim, fuel);
    var n: nat :| RunLoop(u, Reach(u, ms), lim, fuel).value == Ticks(u, Reach(u, ms), n);
    RunsAreTicks(u, ms, n);
  }

  /** The moves of a sim_run_until of `n` machine steps. */
  function UntilMoves(until: real, n: nat): seq<Move> {
    [UntilStart] + Steps(n) + [UntilEnd(until)]
  }

  /** and so does sim_run_until: what holds after every history holds after it. */
  lemma {:induction false} RunUntilIsHistory(u: User, ms: seq<Move>, until: real, fuel: nat)
    requires Reach(u, ms).ctl.Idle? && RunUntil(u, Reach(u, ms), until, fuel).Some?
    ensures exists n: nat :: RunUntil(u, Reach(u, ms), until, fuel).value == Reach(u, ms + UntilMoves(until, n))
  {
    hide RunLoop, Reach, Wf, Shape, AllFollow, Accepts;
    var k := Reach(u, ms);
    var k0 := k.(nextSeq := k.nextSeq + 1);
    var lim := At(until, k.nextSeq);
    ReachInv(u, ms);
    LastMove(u, ms + [UntilStart]);
    assert (ms + [UntilStart])[..|ms|] == ms;
    assert Reach(u, ms + [UntilStart]) == k0;
    LoopIsHistory(u, ms + [UntilStart], lim, fuel);
    var n: nat :| RunLoop(u, k0, lim, fuel).value == Reach(u, ms + [UntilStart] + Steps(n));
    UntilInv(u, k, UntilStart);
    LoopCuts(u, k0, until, k.nextSeq, fuel);
    var all := ms + UntilMoves(until, n);
    LastMove(u, all);
    assert all[..|all| - 1] == ms + [UntilStart] + Steps(n);
  }

  // ---------- renaming sequence numbers ----------

  /** Numbers from `m` on move up by one. */
  function ShiftE(x: Entry, m: nat): Entry {
    x.(seqNo := if x.seqNo < m then x.seqNo else x.seqNo + 1)
  }

  function ShiftQ(q: set<Entry>, m: nat): set<Entry> {
    set x | x in q :: ShiftE(x, m)
  }

  function ShiftT(tr: seq<Entry>, m: nat): seq<Entry> {
    seq(|tr|, i requires 0 <= i < |tr| => ShiftE(tr[i], m))
  }

  function Shift(k: Kernel, m: nat): Kernel {
    k.(nextSeq := k.nextSeq + 1, queue := ShiftQ(k.queue, m), trace := ShiftT(k.trace, m))
  }

  /** The renaming keeps the order of keys. */
  lemma {:induction false} ShiftKeepsOrder(x: Entry, y: Entry, m: nat)
    ensures EntryLt(ShiftE(x, m), ShiftE(y, m)) <==> EntryLt(x, y)
  {
  }

  lemma ShiftAdd(q: set<Entry>, x: Entry, m: nat)
    ensures ShiftQ(q + {x}, m) == ShiftQ(q, m) + {ShiftE(x, m)}
  {
  }

  lemma ShiftRemove(q: set<Entry>, x: Entry, m: nat)
    requires x in q
    ensures ShiftQ(q - {x}, m) == ShiftQ(q, m) - {ShiftE(x, m)}
  {
    assert forall y :: y in q && ShiftE(y, m) == ShiftE(x, m) ==> y == x;
  }

  lemma ShiftWf(k: Kernel, m: nat)
    requires Wf(k)
    ensures Wf(Shift(k, m))
  {
  }

  /** The heap hands out the renamed entry. */
  lemma ShiftLeast(q: set<Entry>, m: nat)
    requires q != {} && forall x, y :: x in q && y in q && x.seqNo == y.seqNo ==> x == y
    ensures ShiftQ(q, m) != {} && Least(ShiftQ(q, m)) == ShiftE(Least(q), m)
  {
    var x := Least(q);
    assert ShiftE(x, m) in ShiftQ(q, m);
    var z := Least(ShiftQ(q, m));
    var y :| y in q && z == ShiftE(y, m);
    assert Le(z, ShiftE(x, m));
    ShiftKeepsOrder(x, y, m);
    assert Le(y, x) && Le(x, y);
  }

  // ---------- every operation commutes with the renaming ----------

  lemma ScheduleShift(k: Kernel, e: EventId, delay: real, m: nat)
    requires m <= k.nextSeq
    ensures Schedule(Shift(k, m), e, delay) == Shift(Schedule(k, e, delay), m)
  {
    ShiftAdd(k.queue, Entry(k.now + delay, NORMAL, k.nextSeq, e), m);
  }

  lemma RetriggerShift(k: Kernel, p: ProcId, r: EventId, m: nat)
    requires m <= k.nextSeq && r < |k.events|
    ensures Retrigger(Shift(k, m), p, r) == Shift(Retrigger(k, p, r), m)
  {
    ScheduleShift(SetEvent(k, r, k.events[r].(state := Triggered, cbs := k.events[r].cbs + [ResumeCb(p)])), r, 0.0, m);
  }

  lemma ScheduleResumeShift(k: Kernel, p: ProcId, v: Value, m: nat)
    requires m <= k.nextSeq && Wf(k) && p < |k.procs|
    ensures Wf(Shift(k, m)) && ScheduleResume(Shift(k, m), p, v) == Shift(ScheduleResume(k, p, v), m)
  {
    ShiftWf(k, m);
    assert ProcOk(k.procs[p], |k.events|);
    var pr := k.procs[p].(resumeValue := v);
    if pr.resumeEv.None? {
      FirstResumeShift(k, p, v, m);
    } else if !k.events[pr.resumeEv.value].state.Triggered? {
      var r := pr.resumeEv.value;
      var ev := k.events[r].(state := Pending, ok := true, value := NULL, reason := NULL);
      RetriggerShift(SetEvent(SetProc(k, p, pr), r, ev), p, r, m);
      hide Wf, Retrigger;
    }
  }

  lemma FirstResumeShift(k: Kernel, p: ProcId, v: Value, m: nat)
    requires m <= k.nextSeq && Wf(k) && p < |k.procs| && k.procs[p].resumeEv.None?
    ensures Wf(Shift(k, m)) && ScheduleResume(Shift(k, m), p, v) == Shift(ScheduleResume(k, p, v), m)
  {
    ShiftWf(k, m);
    AllocWf(k, ResumeOf(p));
    hide Wf, Retrigger;
    var pr := k.procs[p].(resumeValue := v, resumeEv := Some(NextEvent(k)));
    RetriggerShift(SetProc(Alloc(k, ResumeOf(p)), p, pr), p, NextEvent(k), m);
  }

  lemma SucceededShift(k: Kernel, e: EventId, v: Value, m: nat)
    requires m <= k.nextSeq && e < |k.events|
    ensures Succeeded(Shift(k, m), e, v) == Shift(Succeeded(k, e, v), m)
  {
    ScheduleShift(SetEvent(k, e, k.events[e].(value := v, ok := true, state := Triggered)), e, 0.0, m);
  }

  lemma TimeoutShift(k: Kernel, delay: real, v: Value, m: nat)
    requires m <= k.nextSeq && Wf(k)
    ensures Wf(Shift(k, m)) && NewTimeout(Shift(k, m), delay, v) == Shift(NewTimeout(k, delay, v), m)
  {
    ShiftWf(k, m);
    var k1 := Alloc(k, Transient);
    var e := NextEvent(k);
    ScheduleShift(SetEvent(k1, e, k1.events[e].(value := v, state := Triggered, recyclable := true)), e, delay, m);
  }

  lemma SpawnShift(k: Kernel, m: nat)
    requires m <= k.nextSeq && Wf(k)
    ensures Wf(Shift(k, m)) && Spawning(Shift(k, m)) == Shift(Spawning(k), m)
  {
    ShiftWf(k, m);
    AllocProcWf(k);
    assert AllocProc(Shift(k, m)) == Shift(AllocProc(k), m);
    ScheduleResumeShift(AllocProc(k), NextProc(k), NULL, m);
  }

  lemma ProcessEventShift(k: Kernel, p: ProcId, m: nat)
    requires m <= k.nextSeq && Wf(k) && p < |k.procs|
    ensures Wf(Shift(k, m))
    ensures ProcessEvent(Shift(k, m), p) == (Shift(ProcessEvent(k, p).0, m), ProcessEvent(k, p).1)
  {
    ShiftWf(k, m);
    if k.procs[p].done.None? {
      AllocWf(k, DoneOf(p));
      SucceededShift(SetProc(Alloc(k, DoneOf(p)), p, k.procs[p].(done := Some(NextEvent(k)))), NextEvent(k), NULL, m);
    }
  }

  lemma InterruptShift(k: Kernel, p: ProcId, c: Value, m: nat)
    requires m <= k.nextSeq && Wf(k) && p < |k.procs|
    ensures Wf(Shift(k, m)) && Interrupting(Shift(k, m), p, c) == Shift(Interrupting(k, p, c), m)
  {
    hide Wf, ScheduleResume;
    ShiftWf(k, m);
    var pr := k.procs[p].(interruptPending := true, cause := c, yielded := None);
    SetProcWf(k, p, pr);
    ScheduleResumeShift(SetProc(k, p, pr), p, c, m);
  }

  lemma {:induction false} SuspendShift(k: Kernel, p: ProcId, e: EventId, m: nat)
    requires m <= k.nextSeq && Wf(k) && p < |k.procs| && e < |k.events|
    ensures Wf(Shift(k, m)) && Suspend(Shift(k, m), p, e) == Shift(Suspend(k, p, e), m)
  {
    hide Wf, ScheduleResume;
    ShiftWf(k, m);
    var pr := k.procs[p].(yielded := Some(e));
    SetProcWf(k, p, pr);
    ScheduleResumeShift(SetProc(k, p, pr), p, k.events[e].value, m);
  }

  lemma {:induction false} ExecShift(k: Kernel, c: Cmd, m: nat)
    requires m <= k.nextSeq && Wf(k) && Legal(k, c)
    ensures Wf(Shift(k, m)) && Legal(Shift(k, m), c) && Exec(Shift(k, m), c) == Shift(Exec(k, c), m)
  {
    hide Wf, Exec;
    ShiftWf(k, m);
    match c
    case Spawn => ProcessShift(k, c, m);
    case ProcEvent(_) => ProcessShift(k, c, m);
    case Interrupt(_, _) => ProcessShift(k, c, m);
    case Yield(_) => SwitchOutShift(k, c, m);
    case Return => SwitchOutShift(k, c, m);
    case _ => EventShift(k, c, m);
  }

  lemma {:induction false} ProcessShift(k: Kernel, c: Cmd, m: nat)
    requires m <= k.nextSeq && Wf(k) && Legal(k, c) && (c.Spawn? || c.ProcEvent? || c.Interrupt?)
    ensures Wf(Shift(k, m)) && Legal(Shift(k, m), c) && Exec(Shift(k, m), c) == Shift(Exec(k, c), m)
  {
    hide Wf, Interrupting, Spawning, ProcessEvent;
    ShiftWf(k, m);
    match c
    case Spawn => SpawnShift(k, m);
    case ProcEvent(p) => ProcessEventShift(k, p, m);
    case Interrupt(p, v) => InterruptShift(k, p, v, m);
  }

  lemma {:induction false} EventShift(k: Kernel, c: Cmd, m: nat)
    requires m <= k.nextSeq && Wf(k) && Legal(k, c)
    requires !(c.Spawn? || c.ProcEvent? || c.Interrupt? || c.Yield? || c.Return?)
    ensures Wf(Shift(k, m)) && Legal(Shift(k, m), c) && Exec(Shift(k, m), c) == Shift(Exec(k, c), m)
  {
    hide Wf, Exec;
    ShiftWf(k, m);
    if c.Timeout? || c.Succeed? || c.Fail? { TriggerShift(k, c, m); } else { QuietShift(k, c, m); }
  }

  lemma {:induction false} TriggerShift(k: Kernel, c: Cmd, m: nat)
    requires m <= k.nextSeq && Wf(k) && Legal(k, c) && (c.Timeout? || c.Succeed? || c.Fail?)
    ensures Wf(Shift(k, m)) && Exec(Shift(k, m), c) == Shift(Exec(k, c), m)
  {
    ShiftWf(k, m);
    hide Succeeded, NewTimeout, Wf;
    match c
    case Timeout(d, v) => TimeoutShift(k, d, v, m);
    case Succeed(x, v) => SucceededShift(k, x, v, m);
    case Fail(x, why) =>
      ScheduleShift(SetEvent(k, x, k.events[x].(reason := why, ok := false, state := Triggered)), x, 0.0, m);
  }

  lemma {:induction false} QuietShift(k: Kernel, c: Cmd, m: nat)
    requires m <= k.nextSeq && Wf(k) && Legal(k, c)
    requires c.NewEvent? || c.NewTransient? || c.NewRequest? || c.On? || c.Recycle?
    ensures Wf(Shift(k, m)) && Exec(Shift(k, m), c) == Shift(Exec(k, c), m)
  {
    ShiftWf(k, m);
    AllocWf(k, Plain);
    hide ShiftQ, ShiftT;
  }

  lemma {:induction false} SwitchOutShift(k: Kernel, c: Cmd, m: nat)
    requires m <= k.nextSeq && Wf(k) && Legal(k, c) && (c.Yield? || c.Return?)
    ensures Wf(Shift(k, m)) && Legal(Shift(k, m), c) && Exec(Shift(k, m), c) == Shift(Exec(k, c), m)
  {
    ShiftWf(k, m);
    assert CtlOk(k.ctl, |k.events|, |k.procs|);
    hide Wf, Suspend, Exiting;
    match c
    case Yield(x) => SuspendShift(k, k.ctl.who.p, x, m);
    case Return => if k.ctl.who.InProc? { ExitShift(k, k.ctl.who.p, m); }
  }

  lemma ExitShift(k: Kernel, p: ProcId, m: nat)
    requires m <= k.nextSeq && Wf(k) && p < |k.procs|
    ensures Wf(Shift(k, m)) && Exiting(Shift(k, m), p) == Shift(Exiting(k, p), m)
  {
    ShiftWf(k, m);
    assert ProcOk(k.procs[p], |k.events|);
    if k.procs[p].done.Some? { SucceededShift(k, k.procs[p].done.value, NULL, m); }
  }

  lemma {:induction false} RunCallbackShift(k: Kernel, m: nat)
    requires m <= k.nextSeq && Wf(k) && k.ctl.Dispatch? && k.ctl.rest != []
    ensures Wf(Shift(k, m)) && RunCallback(Shift(k, m)) == Shift(RunCallback(k), m)
  {
    ShiftWf(k, m);
    DropCallbackWf(k);
    var k1 := DropCallback(k);
    assert DropCallback(Shift(k, m)) == Shift(k1, m);
    match k.ctl.rest[0]
    case WaiterCb(p) => ScheduleResumeShift(k1, p, k.events[k.ctl.e].value, m);
    case _ =>
  }

  lemma PopShift(k: Kernel, t: real, m: nat)
    requires Inv(k) && k.queue != {}
    ensures var k' := Shift(k, m).(now := t); Wf(k') && k'.queue != {} && Pop(k') == Shift(Pop(k), m)
  {
    ShiftWf(k, m);
    ShiftLeast(k.queue, m);
    var x := Least(k.queue);
    ShiftRemove(k.queue, x, m);
    assert ShiftT(k.trace + [x], m) == ShiftT(k.trace, m) + [ShiftE(x, m)];
  }

  lemma {:induction false} TickShift(u: User, k: Kernel, m: nat)
    requires m <= k.nextSeq && Inv(k) && k.ctl.Dispatch?
    ensures Wf(Shift(k, m)) && Tick(u, Shift(k, m)) == Shift(Tick(u, k), m)
  {
    ShiftWf(k, m);
    match k.ctl
    case Dispatch(_, rest, Loop) => if rest != [] { RunCallbackShift(k, m); }
    case Dispatch(_, _, _) => if Legal(k, u(k.log)) { ExecShift(k, u(k.log), m); }
  }

  /** A pop sets the clock, so it does not matter how far it had been moved before. */
  lemma {:induction false} AnyTickShift(u: User, k: Kernel, t: real, m: nat, until: real, stop: nat)
    requires m <= k.nextSeq && Inv(k) && (t == k.now || k.ctl.Idle?) && !Done(k, At(until, stop))
    ensures Wf(Shift(k, m).(now := t)) && Tick(u, Shift(k, m).(now := t)) == Shift(Tick(u, k), m)
  {
    if k.ctl.Idle? {
      PopShift(k, t, m);
    } else {
      TickShift(u, k, m);
      assert Shift(k, m).(now := t) == Shift(k, m);
    }
  }

  // ---------- the two runs ----------

  lemma DoneShift(k: Kernel, t: real, m: nat, until: real, stop: nat, stop': nat)
    requires Inv(k)
    ensures Wf(Shift(k, m).(now := t))
    ensures Done(k, At(until, stop)) <==> Done(Shift(k, m).(now := t), At(until, stop'))
  {
    ShiftWf(k, m);
    if k.queue != {} {
      ShiftLeast(k.queue, m);
      BeforeIsEarlier(Least(k.queue), until, stop);
      BeforeIsEarlier(ShiftE(Least(k.queue), m), until, stop');
    } else {
      assert ShiftQ(k.queue, m) == {};
    }
  }

  function ShiftO(r: Option<Kernel>, m: nat): Option<Kernel> {
    match r case None => None case Some(k) => Some(Shift(k, m))
  }

  /** The machine after the cut, renumbered and with the clock moved on to `t`, runs as before. */
  lemma {:induction false} LoopShift(u: User, k: Kernel, t: real, m: nat, until: real, stop: nat, stop': nat, fuel: nat)
    requires Inv(k) && m <= k.nextSeq && (t == k.now || k.ctl.Idle?)
    ensures var k' := Shift(k, m).(now := t);
            && Wf(k')
            && RunLoop(u, k', At(until, stop'), fuel) ==
               if Done(k, At(until, stop)) then Some(k') else ShiftO(RunLoop(u, k, At(until, stop), fuel), m)
    decreases fuel
  {
    hide Shape, AllFollow, Accepts, Wf, Tick;
    var k' := Shift(k, m).(now := t);
    DoneShift(k, t, m, until, stop, stop');
    if !Done(k, At(until, stop)) && fuel > 0 {
      var k1 := Tick(u, k);
      TickInv(u, k);
      AnyTickShift(u, k, t, m, until, stop);
      NextSeqGrows(u, k);
      LoopShift(u, k1, k1.now, m, until, stop, stop', fuel - 1);
    }
  }

  lemma NextSeqGrows(u: User, k: Kernel)
    requires Inv(k)
    ensures Tick(u, k).nextSeq >= k.nextSeq
  {
    match k.ctl
    case Idle =>
    case Dispatch(_, _, Loop) => LoopLate(u, k);
    case Dispatch(_, _, _) => if Legal(k, u(k.log)) { ExecLate(k, u(k.log)); }
  }

  /** More fuel does not change a result. */
  lemma {:induction false} LoopMore(u: User, k: Kernel, until: real, stop: nat, fuel: nat, more: nat)
    requires Inv(k) && fuel <= more && RunLoop(u, k, At(until, stop), fuel).Some?
    ensures RunLoop(u, k, At(until, stop), more) == RunLoop(u, k, At(until, stop), fuel)
    decreases fuel
  {
    hide Shape, AllFollow, Accepts, Wf, Tick;
    if !Done(k, At(until, stop)) {
      TickInv(u, k);
      LoopMore(u, Tick(u, k), until, stop, fuel - 1, more - 1);
    }
  }

  /** The loop up to `b` passes through the state where the loop up to `a` ends. */
  lemma {:induction false} LoopPasses(u: User, k: Kernel, a: real, b: real, stop: nat, fuel: nat)
    requires Inv(k) && a <= b && RunLoop(u, k, At(b, stop), fuel).Some?
    ensures RunLoop(u, k, At(a, stop), fuel).Some?
    ensures RunLoop(u, RunLoop(u, k, At(a, stop), fuel).value, At(b, stop), fuel) == RunLoop(u, k, At(b, stop), fuel)
    decreases fuel
  {
    hide Shape, AllFollow, Accepts, Wf, Tick;
    if k.ctl.Idle? && k.queue != {} {
      HeadIsEarlier(k, a, stop);
      HeadIsEarlier(k, b, stop);
    }
    if !Done(k, At(a, stop)) {
      assert !Done(k, At(b, stop));
      var k1 := Tick(u, k);
      TickInv(u, k);
      LoopPasses(u, k1, a, b, stop, fuel - 1);
      var x := RunLoop(u, k1, At(a, stop), fuel - 1).value;
      LoopKeeps(u, k1, a, stop, fuel - 1);
      LoopMore(u, x, b, stop, fuel - 1, fuel);
    }
  }

  lemma {:induction false} LoopKeeps(u: User, k: Kernel, until: real, stop: nat, fuel: nat)
    requires Inv(k) && RunLoop(u, k, At(until, stop), fuel).Some?
    ensures Inv(RunLoop(u, k, At(until, stop), fuel).value)
    ensures Done(RunLoop(u, k, At(until, stop), fuel).value, At(until, stop))
    decreases fuel
  {
    hide Shape, AllFollow, Accepts, Wf, Tick;
    if !Done(k, At(until, stop)) {
      TickInv(u, k);
      LoopKeeps(u, Tick(u, k), until, stop, fuel - 1);
    }
  }

  /** Two loops one after the other are one loop. */
  lemma {:induction false} LoopJoins(u: User, k: Kernel, a: real, b: real, stop: nat, f: nat, g: nat)
    requires Inv(k) && a <= b && RunLoop(u, k, At(a, stop), f).Some?
    requires RunLoop(u, RunLoop(u, k, At(a, stop), f).value, At(b, stop), g).Some?
    ensures RunLoop(u, k, At(b, stop), f + g) == RunLoop(u, RunLoop(u, k, At(a, stop), f).value, At(b, stop), g)
    decreases f
  {
    hide Shape, AllFollow, Accepts, Wf, Tick;
    if k.ctl.Idle? && k.queue != {} {
      HeadIsEarlier(k, a, stop);
      HeadIsEarlier(k, b, stop);
    }
    if Done(k, At(a, stop)) {
      LoopMore(u, k, b, stop, g, f + g);
    } else {
      TickInv(u, k);
      LoopJoins(u, Tick(u, k), a, b, stop, f - 1, g);
    }
  }

  /** The second half of a split run, from the state `x` the first loop ended in, against the same loop
      going straight on. */
  lemma SecondHalf(u: User, x: Kernel, a: real, b: real, stop: nat, fuel: nat)
    requires Inv(x) && x.ctl.Idle? && a <= b
    ensures Wf(Advance(x, a))
    ensures RunUntil(u, Advance(x, a), b, fuel) ==
            match RunLoop(u, x, At(b, stop), fuel)
            case None => None
            case Some(r) => Some(Advance(Shift(r, x.nextSeq), b))
  {
    hide Shape, AllFollow, Accepts, Wf, Tick, Done;
    var y := Advance(x, a);
    NoneShifted(x);
    assert y.(nextSeq := y.nextSeq + 1) == Shift(x, x.nextSeq).(now := y.now);
    LoopShift(u, x, y.now, x.nextSeq, b, stop, x.nextSeq, fuel);
  }

  /** All numbers given out so far are below the next one. */
  lemma NoneShifted(x: Kernel)
    requires Inv(x)
    ensures ShiftQ(x.queue, x.nextSeq) == x.queue && ShiftT(x.trace, x.nextSeq) == x.trace
    ensures forall a :: Wf(Advance(x, a))
  {
    assert forall e :: e in x.queue ==> ShiftE(e, x.nextSeq) == e;
  }

  /** Splitting a run changes nothing. If sim_run_until(b) ends, so do sim_run_until(a) and then
      sim_run_until(b) for a <= b, in the same state: same clock, same events and processes, same
      transcript, same entries dispatched at the same times in the same order, same entries queued, but
      for the numbers given out after the cut, which are one higher. */
  lemma SplitRun(u: User, k: Kernel, a: real, b: real, fuel: nat)
    requires Inv(k) && k.ctl.Idle? && a <= b && RunUntil(u, k, b, fuel).Some?
    ensures RunUntil(u, k, a, fuel).Some?
    ensures var x, r := RunUntil(u, k, a, fuel).value, RunUntil(u, k, b, fuel).value;
            RunUntil(u, x, b, fuel) == Some(Shift(r, x.nextSeq))
  {
    hide Shape, AllFollow, Accepts, Wf, Tick;
    var k0 := k.(nextSeq := k.nextSeq + 1);
    UntilInv(u, k, UntilStart);
    LoopPasses(u, k0, a, b, k.nextSeq, fuel);
    LoopKeeps(u, k0, a, k.nextSeq, fuel);
    SecondHalf(u, RunLoop(u, k0, At(a, k.nextSeq), fuel).value, a, b, k.nextSeq, fuel);
  }

  /** And the other way round: if both halves end, so does the whole, in the same state. */
  lemma JoinRun(u: User, k: Kernel, a: real, b: real, f: nat, g: nat)
    requires Inv(k) && k.ctl.Idle? && a <= b && RunUntil(u, k, a, f).Some?
    requires RunUntil(u, RunUntil(u, k, a, f).value, b, g).Some?
    ensures RunUntil(u, k, b, f + g).Some?
    ensures var x, r := RunUntil(u, k, a, f).value, RunUntil(u, k, b, f + g).value;
            RunUntil(u, x, b, g) == Some(Shift(r, x.nextSeq))
  {
    hide Shape, AllFollow, Accepts, Wf, Tick;
    var k0 := k.(nextSeq := k.nextSeq + 1);
    UntilInv(u, k, UntilStart);
    var x := RunLoop(u, k0, At(a, k.nextSeq), f).value;
    LoopKeeps(u, k0, a, k.nextSeq, f);
    SecondHalf(u, x, a, b, k.nextSeq, g);
    LoopJoins(u, k0, a, b, k.nextSeq, f, g);
  }

  /** What the renaming leaves alone: everything user code and the caller can see. */
  lemma {:induction false} ShiftIsInvisible(k: Kernel, m: nat)
    ensures var k1 := Shift(k, m);
            && k1.now == k.now && k1.events == k.events && k1.procs == k.procs && k1.log == k.log
            && k1.eventPool == k.eventPool && k1.procPool == k.procPool && |k1.trace| == |k.trace|
            && (forall i :: 0 <= i < |k.trace| ==>
              k1.trace[i].event == k.trace[i].event && k1.trace[i].time == k.trace[i].time)
            && (forall i, j :: 0 <= i < |k.trace| && 0 <= j < |k.trace| ==>
              (EntryLt(k1.trace[i], k1.trace[j]) <==> EntryLt(k.trace[i], k.trace[j])))
  {
  }
}
