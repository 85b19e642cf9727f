/** When sim_process_interrupt_cause tells the cause of an interrupt: while it is pending, and never after. */
module Causes {
  import opened Kernel
  import opened Protocol
  import opened Invariants
  import opened ShapeProof
  import opened FollowProof
  import opened Runs
  import opened Wakeups

  /** No interrupt pending, no cause. */
  ghost predicate NoStaleCause(k: Kernel) {
    forall p :: 0 <= p < |k.procs| && !k.procs[p].interruptPending ==> k.procs[p].cause == NULL
  }

  lemma ScheduleResumeCause(k: Kernel, p: ProcId, v: Value)
    requires Wf(k) && p < |k.procs| && NoStaleCause(k)
    ensures NoStaleCause(ScheduleResume(k, p, v))
  {
  }

  lemma SpawnCause(k: Kernel)
    requires Wf(k) && NoStaleCause(k)
    ensures NoStaleCause(Spawning(k))
  {
    AllocProcWf(k);
    ScheduleResumeCause(AllocProc(k), NextProc(k), NULL);
  }

  lemma InterruptCause(k: Kernel, p: ProcId, c: Value)
    requires Wf(k) && p < |k.procs| && NoStaleCause(k)
    ensures NoStaleCause(Interrupting(k, p, c))
  {
    var pr := k.procs[p];
    if !(pr.state.Dead? || pr.interruptPending) {
      var pr1 := pr.(interruptPending := true, cause := c, yielded := None);
      SetProcWf(k, p, pr1);
      ScheduleResumeCause(SetProc(k, p, pr1), p, c);
    }
  }

  lemma YieldCause(k: Kernel, e: EventId)
    requires Wf(k) && Legal(k, Yield(e)) && NoStaleCause(k)
    ensures NoStaleCause(Exec(k, Yield(e)))
  {
    assert CtlOk(k.ctl, |k.events|, |k.procs|);
    var p := k.ctl.who.p;
    var pr1 := k.procs[p].(yielded := Some(e));
    SetProcWf(k, p, pr1);
    if k.events[e].state.Processed? { ScheduleResumeCause(SetProc(k, p, pr1), p, k.events[e].value); }
  }

  lemma ExecCause(k: Kernel, c: Cmd)
    requires Wf(k) && Legal(k, c) && NoStaleCause(k)
    ensures NoStaleCause(Exec(k, c))
  {
    assert CtlOk(k.ctl, |k.events|, |k.procs|);
    match c
    case Spawn => SpawnCause(k);
    case Interrupt(p, v) => InterruptCause(k, p, v);
    case Yield(e) => YieldCause(k, e);
    case _ =>
  }

  lemma CallbackCause(k: Kernel)
    requires Wf(k) && k.ctl.Dispatch? && k.ctl.rest != [] && NoStaleCause(k)
    ensures NoStaleCause(RunCallback(k))
  {
    DropCallbackWf(k);
    match k.ctl.rest[0]
    case WaiterCb(p) => ScheduleResumeCause(DropCallback(k), p, k.events[k.ctl.e].value);
    case _ =>
  }

  lemma ApplyCause(u: User, k: Kernel, m: Move)
    requires Wf(k) && NoStaleCause(k)
    ensures NoStaleCause(Apply(u, k, m))
  {
    match m
    case Host(c) => if Legal(k, c) { ExecCause(k, c); }
    case Run =>
      match k.ctl {
        case Idle =>
        case Dispatch(_, rest, Loop) => if rest != [] { CallbackCause(k); }
        case Dispatch(_, _, _) => if Legal(k, u(k.log)) { ExecCause(k, u(k.log)); }
      }
    case _ =>
  }

  lemma {:induction false} ReachCause(u: User, ms: seq<Move>)
    ensures NoStaleCause(Reach(u, ms))
  {
    hide Apply, Wf;
    if ms != [] {
      ReachCause(u, ms[..|ms| - 1]);
      ApplyCause(u, Reach(u, ms[..|ms| - 1]), ms[|ms| - 1]);
    }
  }

  /** In every history the cause a live process has stored is that of the interrupt it has pending, and there is
      none if it has none pending: so it can be read from the interrupt until the delivery, and the transcript
      tells what is read. */
  lemma {:induction false} CauseIsPending(u: User, ms: seq<Move>, k: Kernel, p: ProcId)
    requires k == Reach(u, ms) && RefOf(k.log, p).Live?
    ensures p < |k.procs|
    ensures k.procs[p].cause == match RefOf(k.log, p).intr case None => NULL case Some(c) => c
  {
    hide Reach, RefOf;
    ReachInv(u, ms);
    ReachCause(u, ms);
    assert Follows(k.events, k.procs[p], p, k.ctl, RefOf(k.log, p));
  }

  /** So when sim_yield has just returned, flagged as an interrupt or not, there is none to be read, and there is
      none until the next interrupt. */
  lemma {:induction false} ClearedOnReturn(u: User, ms: seq<Move>, k: Kernel, p: ProcId, i: nat)
    requires k == Reach(u, ms) && i < |k.log| && k.log[i].Woke? && k.log[i].p == p && RefOf(k.log, p).Live?
    requires forall n :: i < n < |k.log| ==> !Interrupts(k.log[n], p)
    ensures p < |k.procs| && k.procs[p].cause == NULL
  {
    hide Reach;
    CauseIsPending(u, ms, k, p);
    QuietAfterWake(k.log, i, |k.log|, p);
    assert k.log[..|k.log|] == k.log;
  }

  // ---------- sim_process_was_interrupted ----------

  /** Told from the transcript: the last return of `p` from sim_yield, since `p` was created, was an interrupt. */
  function WokeFlagged(log: seq<Obs>, p: ProcId): bool {
    if log == [] then false else NextFlag(WokeFlagged(log[..|log| - 1], p), log[|log| - 1], p)
  }

  function NextFlag(f: bool, o: Obs, p: ProcId): bool {
    match o
    case Spawned(q) => f && q != p
    case Woke(q, _, interrupted) => if q == p then interrupted else f
    case _ => f
  }

  lemma FlagSay(log: seq<Obs>, o: Obs, p: ProcId)
    ensures WokeFlagged(log + [o], p) == NextFlag(WokeFlagged(log, p), o, p)
  {
    assert (log + [o])[..|log|] == log;
  }

  ghost predicate Flagged(k: Kernel) {
    && (forall p :: 0 <= p < |k.procs| ==> k.procs[p].wasInterrupted == WokeFlagged(k.log, p))
    && (forall p :: |k.procs| <= p ==> !WokeFlagged(k.log, p))
  }

  /** Nobody's flag changes. */
  ghost predicate SameFlags(k: Kernel, k1: Kernel) {
    |k1.procs| == |k.procs| && forall p :: 0 <= p < |k.procs| ==> k1.procs[p].wasInterrupted == k.procs[p].wasInterrupted
  }

  lemma FlagsKept(k: Kernel, k1: Kernel)
    requires Flagged(k) && SameFlags(k, k1)
    requires k1.log == k.log || (k1.log != [] && k1.log[..|k1.log| - 1] == k.log
             && !k1.log[|k1.log| - 1].Spawned? && !k1.log[|k1.log| - 1].Woke?)
    ensures Flagged(k1)
  {
    forall p: nat ensures WokeFlagged(k1.log, p) == WokeFlagged(k.log, p) {
    }
  }

  lemma ResumeFlags(k: Kernel, p: ProcId, v: Value)
    requires Wf(k) && p < |k.procs|
    ensures SameFlags(k, ScheduleResume(k, p, v)) && ScheduleResume(k, p, v).log == k.log
  {
  }

  lemma ExecFlags(k: Kernel, c: Cmd)
    requires Wf(k) && Flagged(k) && Legal(k, c)
    ensures Flagged(Exec(k, c))
  {
    if c.Spawn? {
      SpawnFlags(k);
    } else {
      hide Flagged;
      CallFlags(k, c);
      ExecLog(k, c);
      var l := Exec(k, c).log;
      assert l[..|l| - 1] == k.log;
      FlagsKept(k, Exec(k, c));
    }
  }

  lemma CallFlags(k: Kernel, c: Cmd)
    requires Wf(k) && Legal(k, c) && !c.Spawn?
    ensures SameFlags(k, Exec(k, c))
    ensures Exec(k, c).log != [] && !Exec(k, c).log[|Exec(k, c).log| - 1].Spawned? && !Exec(k, c).log[|Exec(k, c).log| - 1].Woke?
  {
    hide Exec, SameFlags;
    match c
    case Interrupt(p, v) => InterruptFlags(k, p, v);
    case Yield(e) => YieldFlags(k, e);
    case _ => PlainFlags(k, c);
  }

  lemma InterruptFlags(k: Kernel, p: ProcId, v: Value)
    requires Wf(k) && p < |k.procs|
    ensures var k1 := Exec(k, Interrupt(p, v)); SameFlags(k, k1) && k1.log == k.log + [Did(Interrupt(p, v))]
  {
    hide ScheduleResume;
    var pr := k.procs[p].(interruptPending := true, cause := v, yielded := None);
    SetProcWf(k, p, pr);
    ResumeFlags(SetProc(k, p, pr), p, v);
  }

  lemma YieldFlags(k: Kernel, e: EventId)
    requires Wf(k) && Legal(k, Yield(e))
    ensures var k1 := Exec(k, Yield(e)); SameFlags(k, k1) && |k1.log| == |k.log| + 1 && k1.log[|k.log|].Yielded?
  {
    WfCtl(k);
    hide ScheduleResume;
    var p := k.ctl.who.p;
    var pr := k.procs[p].(yielded := Some(e));
    SetProcWf(k, p, pr);
    ResumeFlags(SetProc(k, p, pr), p, k.events[e].value);
  }

  lemma PlainFlags(k: Kernel, c: Cmd)
    requires Wf(k) && Legal(k, c) && !c.Spawn? && !c.Interrupt? && !c.Yield?
    ensures var k1 := Exec(k, c); SameFlags(k, k1) && |k1.log| == |k.log| + 1 && !k1.log[|k.log|].Spawned? && !k1.log[|k.log|].Woke?
  {
    WfCtl(k);
    if c.Return? && k.ctl.who.InProc? { assert ProcOk(k.procs[k.ctl.who.p], |k.events|); }
    hide Wf;
  }

  lemma SpawnFlags(k: Kernel)
    requires Wf(k) && Flagged(k)
    ensures Flagged(Exec(k, Spawn))
  {
    AllocProcWf(k);
    var n := NextProc(k);
    ResumeFlags(AllocProc(k), n, NULL);
    forall p: nat ensures WokeFlagged(Exec(k, Spawn).log, p) == (WokeFlagged(k.log, p) && p != n) {
      FlagSay(k.log, Spawned(n), p);
    }
    hide WokeFlagged, Wf, ScheduleResume;
  }

  lemma CallbackFlags(k: Kernel)
    requires Wf(k) && Flagged(k) && k.ctl.Dispatch? && k.ctl.rest != []
    ensures Flagged(RunCallback(k))
  {
    DropCallbackWf(k);
    match k.ctl.rest[0]
    case WaiterCb(p) =>
      hide Flagged, ScheduleResume;
      ResumeFlags(DropCallback(k), p, k.events[k.ctl.e].value);
      FlagsKept(k, RunCallback(k));
    case ResumeCb(p) => FlagsKept(k, DropCallback(k)); SwitchFlags(DropCallback(k), p);
    case UserCb(_) => FlagsKept(k, RunCallback(k));
  }

  lemma SwitchFlags(k: Kernel, p: ProcId)
    requires Flagged(k) && k.ctl.Dispatch? && p < |k.procs|
    ensures Flagged(SwitchIn(k, p))
  {
    var pr := k.procs[p];
    var o := if pr.state.New? then Started(p) else Woke(p, YieldValue(pr), pr.interruptPending);
    var log1 := k.log + [o];
    forall q: nat ensures WokeFlagged(log1, q) == NextFlag(WokeFlagged(k.log, q), o, q) { FlagSay(k.log, o, q); }
    hide WokeFlagged;
    assert pr.state.Dead? || SwitchIn(k, p).log == log1;
  }

  lemma ApplyFlags(u: User, k: Kernel, m: Move)
    requires Wf(k) && Flagged(k)
    ensures Flagged(Apply(u, k, m))
  {
    hide Flagged, Exec, RunCallback, Pop;
    WfCtl(k);
    match m
    case Host(c) => if Legal(k, c) { ExecFlags(k, c); }
    case Run =>
      match k.ctl {
        case Idle => if k.queue != {} { PopFlags(k); }
        case Dispatch(_, rest, Loop) => if rest != [] { CallbackFlags(k); } else { FlagsKept(k, Finish(k)); }
        case Dispatch(_, _, _) => if Legal(k, u(k.log)) { ExecFlags(k, u(k.log)); }
      }
    case _ => FlagsKept(k, Apply(u, k, m));
  }

  lemma PopFlags(k: Kernel)
    requires Wf(k) && Flagged(k) && k.queue != {}
    ensures Flagged(Pop(k))
  {
    hide Flagged;
    FlagsKept(k, Pop(k));
  }

  /** In every history the flag of a process tells whether its last return from sim_yield was an interrupt, and
      is down if it has not returned from one since it was created: on a reused struct as on a new one. */
  lemma {:induction false} FlagTellsLastReturn(u: User, ms: seq<Move>)
    ensures Flagged(Reach(u, ms))
  {
    hide Apply, Wf;
    if ms != [] {
      FlagTellsLastReturn(u, ms[..|ms| - 1]);
      ApplyFlags(u, Reach(u, ms[..|ms| - 1]), ms[|ms| - 1]);
    }
  }
}
