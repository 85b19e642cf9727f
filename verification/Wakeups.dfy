/** The wake-up and interrupt guarantees, and the order of dispatch, in every history. */
module Wakeups {
  import opened Entries
  import opened Kernel
  import opened Protocol
  import opened Invariants
  import opened ShapeProof
  import opened FollowProof
  import opened Runs

  // ---------- no wake-up lost, spurious or doubled ----------

  /** `x` is the one queue entry of the resume event of `p`, and it is for now. */
  ghost predicate ResumeEntry(k: Kernel, p: ProcId, x: Entry) {
    && p < |k.procs| && x in k.queue && k.procs[p].resumeEv == Some(x.event) && x.time == k.now
    && forall y :: y in k.queue && y.event == x.event ==> y == x
  }

  ghost predicate ResumeQueued(k: Kernel, p: ProcId) {
    exists x :: ResumeEntry(k, p, x)
  }

  /** The event `p` yielded is unprocessed and holds a waiter callback for `p`. */
  predicate Waits(k: Kernel, p: ProcId) {
    && p < |k.procs| && k.procs[p].yielded.Some?
    && var e := k.procs[p].yielded.value;
    && e < |k.events| && !k.events[e].state.Processed? && WaiterCb(p) in k.events[e].cbs
  }

  lemma TriggeredIsQueued(k: Kernel, p: ProcId)
    requires Inv(k) && p < |k.procs|
    ensures k.events[k.procs[p].resumeEv.value].state.Triggered? <==> ResumeQueued(k, p)
  {
    var r := k.procs[p].resumeEv.value;
    if k.events[r].state.Triggered? {
      assert Queued(k.queue, r);
      var x :| x in k.queue && x.event == r;
      assert ResumeEntry(k, p, x);
    }
  }

  /** Between steps, a started and suspended process has a resume in the queue exactly when the
      transcript says a switch to it is due, and its event is unprocessed and will call it exactly when the
      transcript says it waits. */
  lemma {:induction false} SuspendedProcess(u: User, ms: seq<Move>, p: ProcId)
    requires Reach(u, ms).ctl.Idle? && p < |Reach(u, ms).procs| && Reach(u, ms).procs[p].state.Running?
    ensures var k := Reach(u, ms); var r := RefOf(k.log, p);
            && (ResumeQueued(k, p) <==> r.Live? && r.due)
            && (Waits(k, p) <==> r.Live? && r.phase.Waiting?)
  {
    var k := Reach(u, ms);
    ReachInv(u, ms);
    TriggeredIsQueued(k, p);
    assert Follows(k.events, k.procs[p], p, k.ctl, RefOf(k.log, p));
  }

  /** It is never in neither condition, and in both only with an interrupt pending; with none pending and its
      event processed, it will be resumed with the value the event had. */
  lemma {:induction false} SuspendedOneWay(u: User, ms: seq<Move>, k: Kernel, p: ProcId)
    requires k == Reach(u, ms) && k.ctl.Idle? && p < |k.procs| && k.procs[p].state.Running?
    ensures Waits(k, p) || ResumeQueued(k, p)
    ensures !k.procs[p].interruptPending ==> !(Waits(k, p) && ResumeQueued(k, p))
    ensures var r := RefOf(k.log, p);
            && r.Live? && (r.phase.Waiting? || r.phase.Fired? || r.phase.Cancelled?)
            && (r.phase.Fired? && r.intr.None? ==> k.procs[p].resumeValue == r.phase.v)
  {
    ReachInv(u, ms);
    SuspendedProcess(u, ms, p);
    assert Follows(k.events, k.procs[p], p, k.ctl, RefOf(k.log, p));
  }

  /** When it is in both: exactly if, when it called sim_yield, the event was unprocessed and its own resume
      was already in the queue; and that takes an interrupt since it got control, by itself or by a callback
      that it called. */
  lemma {:induction false} YieldGivesBoth(k: Kernel, e: EventId)
    requires Inv(k) && Legal(k, Yield(e))
    ensures var p := k.ctl.who.p; var k1 := Exec(k, Yield(e));
            && p < |k.procs|
            && (Waits(k1, p) && ResumeQueued(k1, p) <==> !k.events[e].state.Processed? && ResumeQueued(k, p))
            && (ResumeQueued(k, p) ==> k.procs[p].interruptPending)
  {
    hide Inv, Exec, ResumeQueued, Waits;
    if k.events[e].state.Processed? { YieldReady(k, e); } else { YieldWaits(k, e); }
    SelfInterrupted(k);
    RunnerInRange(k);
  }

  lemma RunnerInRange(k: Kernel)
    requires Inv(k) && k.ctl.Dispatch? && k.ctl.who.InProc?
    ensures k.ctl.who.p < |k.procs|
  {
    assert CtlOk(k.ctl, |k.events|, |k.procs|);
  }

  lemma SelfInterrupted(k: Kernel)
    requires Inv(k) && k.ctl.Dispatch? && k.ctl.who.InProc?
    ensures ResumeQueued(k, k.ctl.who.p) ==> k.procs[k.ctl.who.p].interruptPending
  {
    var p := k.ctl.who.p;
    assert CtlOk(k.ctl, |k.events|, |k.procs|);
    TriggeredIsQueued(k, p);
    assert Follows(k.events, k.procs[p], p, k.ctl, RefOf(k.log, p));
  }

  lemma YieldReady(k: Kernel, e: EventId)
    requires Inv(k) && Legal(k, Yield(e)) && k.events[e].state.Processed?
    ensures !Waits(Exec(k, Yield(e)), k.ctl.who.p)
  {
    hide AllFollow, Accepts;
    assert CtlOk(k.ctl, |k.events|, |k.procs|);
    SuspendReadyEffect(k, k.ctl.who.p, e);
  }

  lemma YieldWaits(k: Kernel, e: EventId)
    requires Inv(k) && Legal(k, Yield(e)) && !k.events[e].state.Processed?
    ensures var p := k.ctl.who.p; var k1 := Exec(k, Yield(e));
            Waits(k1, p) && (ResumeQueued(k1, p) <==> ResumeQueued(k, p))
  {
    hide AllFollow, Accepts, Shape;
    var p := k.ctl.who.p;
    var k1 := Exec(k, Yield(e));
    assert CtlOk(k.ctl, |k.events|, |k.procs|);
    assert k1.queue == k.queue && k1.now == k.now && k1.procs[p].resumeEv == k.procs[p].resumeEv;
    assert forall x :: ResumeEntry(k1, p, x) <==> ResumeEntry(k, p, x);
    assert WaiterCb(p) == k1.events[e].cbs[|k.events[e].cbs|];
  }

  /** The transcript of every history is one the automaton allows: every return from sim_yield was due
      and carried the right value, every start was due, only the process in control acted. */
  lemma {:induction false} TranscriptAllowed(u: User, ms: seq<Move>)
    ensures Accepts(Reach(u, ms).log)
  {
    ReachInv(u, ms);
  }

  /** A process created but not started has its first switch queued, whether its struct and resume event
      are new or taken over, pending, from a dead process. */
  lemma {:induction false} NewProcessWillStart(u: User, ms: seq<Move>, p: ProcId)
    requires Reach(u, ms).ctl.Idle? && p < |Reach(u, ms).procs| && Reach(u, ms).procs[p].state.New?
    ensures ResumeQueued(Reach(u, ms), p)
  {
    var k := Reach(u, ms);
    ReachInv(u, ms);
    TriggeredIsQueued(k, p);
    assert Follows(k.events, k.procs[p], p, k.ctl, RefOf(k.log, p));
  }

  // ---------- interrupts ----------

  /** An interrupt of `p` with cause `c` is to be delivered, and a switch to `p` is due. */
  predicate ToDeliver(log: seq<Obs>, p: ProcId, c: Value) {
    var r := RefOf(log, p);
    r.Live? && r.intr == Some(c) && r.due
  }

  /** The log grows by at most one observation a move. */
  lemma {:induction false} LogGrows(u: User, k: Kernel, m: Move)
    requires Inv(k)
    ensures var k1 := Apply(u, k, m);
            k1.log == k.log || (|k1.log| == |k.log| + 1 && k1.log == k.log + [k1.log[|k.log|]])
  {
    match m
    case Host(c) => if Legal(k, c) { ExecLog(k, c); }
    case Run =>
      if k.ctl.Dispatch? && !k.ctl.who.Loop? && Legal(k, u(k.log)) {
        ExecLog(k, u(k.log));
      } else if k.ctl.Dispatch? && k.ctl.who.Loop? && k.ctl.rest != [] {
        DropCallbackWf(k);
      }
    case _ =>
  }

  lemma ExecLog(k: Kernel, c: Cmd)
    requires Wf(k) && Legal(k, c)
    ensures |Exec(k, c).log| == |k.log| + 1 && Exec(k, c).log == k.log + [Exec(k, c).log[|k.log|]]
  {
    assert CtlOk(k.ctl, |k.events|, |k.procs|);
    hide Wf, ScheduleResume;
    match c
    case Spawn => AllocProcWf(k); ResumeLog(AllocProc(k), NextProc(k), NULL);
    case Interrupt(p, v) =>
      var pr := k.procs[p].(interruptPending := true, cause := v, yielded := None);
      SetProcWf(k, p, pr);
      ResumeLog(SetProc(k, p, pr), p, v);
    case Yield(e) =>
      var p := k.ctl.who.p;
      var pr := k.procs[p].(yielded := Some(e));
      SetProcWf(k, p, pr);
      ResumeLog(SetProc(k, p, pr), p, k.events[e].value);
    case _ =>
  }

  lemma ResumeLog(k: Kernel, p: ProcId, v: Value)
    requires Wf(k) && p < |k.procs|
    ensures ScheduleResume(k, p, v).log == k.log
  {
  }

  /** One move while an interrupt is to be delivered: the clock stands still, and either delivery is
      still to come with the same cause, or control has just been handed to `p`: sim_yield returned
      the cause, flagged as an interrupt; or `p` had control all along and ended without yielding; or,
      only for a process that had not been started when it was interrupted, `p` has been started. */
  lemma {:induction false} DeliveryStep(u: User, k: Kernel, m: Move, p: ProcId, c: Value)
    requires Inv(k) && ToDeliver(k.log, p, c)
    ensures var k1 := Apply(u, k, m);
            && k1.now == k.now
            && (|| (ToDeliver(k1.log, p, c) && (RefOf(k1.log, p).phase.Unstarted? <==> RefOf(k.log, p).phase.Unstarted?))
                || (k1.log == k.log + [Woke(p, c, true)] && !RefOf(k.log, p).phase.Unstarted?)
                || (k1.log == k.log + [Exited(p)] && !RefOf(k.log, p).phase.Unstarted?)
                || (k1.log == k.log + [Started(p)] && RefOf(k.log, p).phase.Unstarted?))
  {
    var k1 := Apply(u, k, m);
    ClockStands(u, k, m, p);
    LogGrows(u, k, m);
    ApplyInv(u, k, m);
    if k1.log != k.log {
      var o := k1.log[|k.log|];
      RefOfSay(k.log, o, p);
      assert k1.log[..|k.log|] == k.log;
      assert AllowedBy(k.log, o);
    }
  }

  /** While a switch to some process is due, the clock does not move. */
  lemma {:induction false} ClockStands(u: User, k: Kernel, m: Move, p: ProcId)
    requires Inv(k) && RefOf(k.log, p).Live? && RefOf(k.log, p).due
    ensures Apply(u, k, m).now == k.now
  {
    assert p < |k.procs|;
    assert Follows(k.events, k.procs[p], p, k.ctl, RefOf(k.log, p));
    if k.ctl.Idle? {
      TriggeredIsQueued(k, p);
      var x :| ResumeEntry(k, p, x);
    }
    match m
    case Host(c) => if Legal(k, c) { ExecLate(k, c); }
    case Run =>
      if k.ctl.Dispatch? && !k.ctl.who.Loop? && Legal(k, u(k.log)) {
        ExecLate(k, u(k.log));
      } else if k.ctl.Dispatch? && k.ctl.who.Loop? && k.ctl.rest != [] {
        DropCallbackWf(k);
      }
    case _ =>
  }

  /** Calls leave the clock alone, remove nothing from the queue, and add only entries with a new number. */
  ghost predicate Late(k: Kernel, k1: Kernel) {
    && k1.now == k.now && k1.nextSeq >= k.nextSeq && k.queue <= k1.queue
    && forall y :: y in k1.queue && y !in k.queue ==> y.seqNo >= k.nextSeq
  }

  lemma ScheduleResumeLate(k: Kernel, p: ProcId, v: Value)
    requires Wf(k) && p < |k.procs|
    ensures Late(k, ScheduleResume(k, p, v))
  {
  }

  lemma ExecLate(k: Kernel, c: Cmd)
    requires Wf(k) && Legal(k, c)
    ensures Late(k, Exec(k, c))
  {
    assert CtlOk(k.ctl, |k.events|, |k.procs|);
    match c
    case Spawn => AllocProcWf(k); ScheduleResumeLate(AllocProc(k), NextProc(k), NULL);
    case Interrupt(p, v) => InterruptingWf(k, p, v); InterruptingLate(k, p, v);
    case Yield(e) => SuspendLate(k, k.ctl.who.p, e);
    case _ =>
  }

  lemma InterruptingLate(k: Kernel, p: ProcId, v: Value)
    requires Wf(k) && p < |k.procs|
    ensures Late(k, Interrupting(k, p, v))
  {
    var pr := k.procs[p];
    assert ProcOk(pr, |k.events|);
    if !(pr.state.Dead? || pr.interruptPending) {
      var k1 := SetProc(k, p, pr.(interruptPending := true, cause := v, yielded := None));
      assert Wf(k1);
      ScheduleResumeLate(k1, p, v);
    }
  }

  lemma SuspendLate(k: Kernel, p: ProcId, e: EventId)
    requires Wf(k) && p < |k.procs| && e < |k.events|
    ensures Late(k, Suspend(k, p, e))
  {
    assert ProcOk(k.procs[p], |k.events|);
    var k1 := SetProc(k, p, k.procs[p].(yielded := Some(e)));
    assert Wf(k1);
    if k.events[e].state.Processed? { ScheduleResumeLate(k1, p, k.events[e].value); }
  }

  /** An interrupt that was taken while `p` had been started is what the next return of `p` from sim_yield
      delivers, whatever happens in between: after any continuation of the history, either delivery is
      still due and the clock has not moved, or there is a first move that handed control to `p`, made at
      the same time, and it returned the cause from sim_yield (or `p`, which had control, ended first).
      For a process interrupted before its start that move is the start, which delivers nothing. */
  lemma {:induction false} InterruptDelivered(u: User, ms: seq<Move>, more: seq<Move>, p: ProcId, c: Value)
    requires ToDeliver(Reach(u, ms).log, p, c)
    ensures var k := Reach(u, ms);
            || (ToDeliver(Reach(u, ms + more).log, p, c) && Reach(u, ms + more).now == k.now
                && (RefOf(Reach(u, ms + more).log, p).phase.Unstarted? <==> RefOf(k.log, p).phase.Unstarted?))
            || exists n :: 0 <= n < |more| && Delivers(u, ms + more[..n], more[n], p, c, k.now, RefOf(k.log, p).phase.Unstarted?)
  {
    hide Inv, Apply, Delivers;
    if more == [] {
      assert ms + more == ms;
    } else {
      var n := |more| - 1;
      var init := more[..n];
      InterruptDelivered(u, ms, init, p, c);
      var k := Reach(u, ms);
      if exists i :: 0 <= i < |init| && Delivers(u, ms + init[..i], init[i], p, c, k.now, RefOf(k.log, p).phase.Unstarted?) {
        var i :| 0 <= i < |init| && Delivers(u, ms + init[..i], init[i], p, c, k.now, RefOf(k.log, p).phase.Unstarted?);
        assert init[..i] == more[..i] && init[i] == more[i];
      } else {
        ReachInv(u, ms + init);
        DeliveryMove(u, ms + init, more[n], p, c);
        ReachStep(u, ms, more);
        assert more[..n] == init;
      }
    }
  }

  lemma {:induction false} DeliveryMove(u: User, ms: seq<Move>, m: Move, p: ProcId, c: Value)
    requires ToDeliver(Reach(u, ms).log, p, c) && Inv(Reach(u, ms))
    ensures var k := Reach(u, ms); var k1 := Apply(u, k, m);
            || (ToDeliver(k1.log, p, c) && k1.now == k.now
                && (RefOf(k1.log, p).phase.Unstarted? <==> RefOf(k.log, p).phase.Unstarted?))
            || Delivers(u, ms, m, p, c, k.now, RefOf(k.log, p).phase.Unstarted?)
  {
    DeliveryStep(u, Reach(u, ms), m, p, c);
  }

  /** After the history `ms` the interrupt was still to be delivered and the time was `t`; then move `m`
      handed control to `p`. */
  ghost predicate Delivers(u: User, ms: seq<Move>, m: Move, p: ProcId, c: Value, t: real, unstarted: bool) {
    var k := Reach(u, ms);
    var k1 := Apply(u, k, m);
    && ToDeliver(k.log, p, c) && k.now == t && k1.now == t
    && (if unstarted then k1.log == k.log + [Started(p)]
        else k1.log == k.log + [Woke(p, c, true)] || k1.log == k.log + [Exited(p)])
  }

  /** Each interrupted return answers an interrupt of its own: between two of them, `p` was interrupted. */
  lemma {:induction false} InterruptedOnce(log: seq<Obs>, i: nat, j: nat, p: ProcId, c: Value, d: Value)
    requires Accepts(log) && i < j < |log| && log[i] == Woke(p, c, true) && log[j] == Woke(p, d, true)
    ensures exists n :: i < n < j && Interrupts(log[n], p)
  {
    assert AllowedBy(log[..j], log[j]);
    if forall n :: i < n < j ==> !Interrupts(log[n], p) {
      QuietAfterWake(log, i, j, p);
      assert false;
    }
  }

  predicate Interrupts(o: Obs, p: ProcId) {
    o.Did? && o.c.Interrupt? && o.c.p == p
  }

  lemma {:induction false} QuietAfterWake(log: seq<Obs>, i: nat, j: nat, p: ProcId)
    requires i < j <= |log| && log[i].Woke? && log[i].p == p
    requires forall n :: i < n < j ==> !Interrupts(log[n], p)
    ensures RefOf(log[..j], p).Live? ==> RefOf(log[..j], p).intr.None?
  {
    var prev := log[..j - 1];
    assert log[..j] == prev + [log[j - 1]];
    RefOfSay(prev, log[j - 1], p);
    if i < j - 1 {
      QuietAfterWake(log, i, j - 1, p);
    }
  }

  // ---------- the wait for a due switch is bounded ----------

  /** The queued entries that come out before `x`. */
  ghost function Ahead(k: Kernel, x: Entry): set<Entry> {
    set y | y in k.queue && EntryLt(y, x)
  }

  lemma AheadLate(k: Kernel, k1: Kernel, x: Entry)
    requires Shape(k) && Shape(k1) && Late(k, k1) && x in k.queue && x.time == k.now
    ensures x in k1.queue && Ahead(k1, x) == Ahead(k, x)
  {
  }

  /** Nothing that happens puts an entry before a queued resume; every event dispatched in between was
      already ahead of it. */
  lemma {:induction false} AheadStep(u: User, k: Kernel, m: Move, p: ProcId, x: Entry)
    requires Inv(k) && ResumeEntry(k, p, x)
    ensures var k1 := Apply(u, k, m);
            if x in k1.queue then
              && x.time == k1.now
              && |Ahead(k1, x)| + |k1.trace| <= |Ahead(k, x)| + |k.trace|
            else k1.ctl == Dispatch(x.event, [ResumeCb(p)], Loop) && k1.trace == k.trace + [x]
  {
    var k1 := Apply(u, k, m);
    if m.Run? && k.ctl.Idle? {
      AheadPop(k, p, x);
    } else {
      ApplyInv(u, k, m);
      AheadCalls(u, k, m, p, x);
      hide Shape, AllFollow, Accepts, Wf;
      AheadLate(k, k1, x);
    }
  }

  /** Any other move leaves the clock and the trace alone. */
  lemma {:induction false} AheadCalls(u: User, k: Kernel, m: Move, p: ProcId, x: Entry)
    requires Inv(k) && ResumeEntry(k, p, x) && !(m.Run? && k.ctl.Idle?)
    ensures Late(k, Apply(u, k, m)) && Apply(u, k, m).trace == k.trace
  {
    hide AllFollow, Accepts;
    match m
    case Host(c) => if k.ctl.Idle? && Legal(k, c) { ExecLate(k, c); ExecTrace(k, c); }
    case Run =>
      if k.ctl.who.Loop? {
        LoopLate(u, k);
      } else if Legal(k, u(k.log)) {
        ExecLate(k, u(k.log));
        ExecTrace(k, u(k.log));
      }
    case _ =>
  }

  lemma LoopLate(u: User, k: Kernel)
    requires Inv(k) && k.ctl.Dispatch? && k.ctl.who.Loop?
    ensures Late(k, Tick(u, k)) && Tick(u, k).trace == k.trace
  {
    if k.ctl.rest != [] {
      DropCallbackWf(k);
      match k.ctl.rest[0]
      case WaiterCb(p) => ScheduleResumeLate(DropCallback(k), p, k.events[k.ctl.e].value);
      case _ =>
    }
  }

  lemma ExecTrace(k: Kernel, c: Cmd)
    requires Wf(k) && Legal(k, c)
    ensures Exec(k, c).trace == k.trace
  {
    match c
    case Spawn => AllocProcWf(k);
    case _ =>
  }

  lemma AheadPop(k: Kernel, p: ProcId, x: Entry)
    requires Inv(k) && k.ctl.Idle? && ResumeEntry(k, p, x)
    ensures var k1 := Pop(k);
            if x in k1.queue then |Ahead(k1, x)| + |k1.trace| <= |Ahead(k, x)| + |k.trace|
            else k1.ctl == Dispatch(x.event, [ResumeCb(p)], Loop) && k1.trace == k.trace + [x]
  {
    var y := Least(k.queue);
    var k1 := Pop(k);
    if y == x {
      assert EventOk(k.events[x.event], x.event, k.procs);
    } else {
      assert x.seqNo != y.seqNo;
      assert y in Ahead(k, x);
      assert Ahead(k1, x) == Ahead(k, x) - {y};
    }
  }

  /** However the history continues, as long as the switch to `p` has not been dispatched, no more events
      have been than were ahead of it. */
  lemma {:induction false} SwitchIsNear(u: User, ms: seq<Move>, more: seq<Move>, p: ProcId, x: Entry)
    requires ResumeEntry(Reach(u, ms), p, x)
    requires forall n :: 0 <= n <= |more| ==> x in Reach(u, ms + more[..n]).queue
    ensures var k, k1 := Reach(u, ms), Reach(u, ms + more);
            && k1.now == k.now
            && |k1.trace| - |k.trace| <= |Ahead(k, x)| - |Ahead(k1, x)|
  {
    if more == [] {
      assert ms + more == ms;
    } else {
      var n := |more| - 1;
      var init := more[..n];
      assert forall i :: 0 <= i <= |init| ==> init[..i] == more[..i];
      SwitchIsNear(u, ms, init, p, x);
      ReachInv(u, ms + init);
      ReachStep(u, ms, more);
      var k0 := Reach(u, ms + init);
      assert more[..|more|] == more;
      EntryStays(u, ms, init, p, x);
      assert ResumeEntry(k0, p, x);
      AheadStep(u, k0, more[n], p, x);
    }
  }

  /** A queued resume entry stays the entry of the same process. */
  lemma {:induction false} EntryStays(u: User, ms: seq<Move>, more: seq<Move>, p: ProcId, x: Entry)
    requires ResumeEntry(Reach(u, ms), p, x)
    requires forall n :: 0 <= n <= |more| ==> x in Reach(u, ms + more[..n]).queue
    ensures ResumeEntry(Reach(u, ms + more), p, x)
  {
    if more == [] {
      assert ms + more == ms;
    } else {
      var n := |more| - 1;
      var init := more[..n];
      assert forall i :: 0 <= i <= |init| ==> init[..i] == more[..i];
      EntryStays(u, ms, init, p, x);
      ReachInv(u, ms + init);
      ReachStep(u, ms, more);
      assert more[..|more|] == more;
      var k0, k1 := Reach(u, ms + init), Reach(u, ms + more);
      AheadStep(u, k0, more[n], p, x);
      ApplyInv(u, k0, more[n]);
      OwnerStays(u, k0, more[n], p);
    }
  }

  lemma {:induction false} OwnerStays(u: User, k: Kernel, m: Move, p: ProcId)
    requires Inv(k) && p < |k.procs|
    ensures p < |Apply(u, k, m).procs| && Apply(u, k, m).procs[p].resumeEv == k.procs[p].resumeEv
  {
    hide Shape, AllFollow, Accepts, Exec;
    OwnerLinks(k);
    match m
    case Host(c) => if Legal(k, c) { OwnerExec(k, c, p); }
    case Run =>
      if k.ctl.Dispatch? && !k.ctl.who.Loop? && Legal(k, u(k.log)) {
        OwnerExec(k, u(k.log), p);
      } else if k.ctl.Dispatch? && k.ctl.who.Loop? && k.ctl.rest != [] {
        DropCallbackWf(k);
      }
    case _ =>
  }

  lemma OwnerResume(k: Kernel, p: ProcId, v: Value)
    requires Wf(k) && p < |k.procs| && k.procs[p].resumeEv.Some?
    ensures ScheduleResume(k, p, v).procs == k.procs[p := k.procs[p].(resumeValue := v)]
  {
  }

  lemma OwnerSpawn(k: Kernel, p: ProcId)
    requires Inv(k) && p < |k.procs|
    ensures p < |Exec(k, Spawn).procs| && Exec(k, Spawn).procs[p].resumeEv == k.procs[p].resumeEv
  {
    AllocProcWf(k);
    var k0 := AllocProc(k);
    if k.procPool != [] {
      OwnerResume(k0, NextProc(k), NULL);
    }
  }

  lemma OwnerSuspends(k: Kernel, c: Cmd, p: ProcId)
    requires Wf(k) && LinksOk(k.procs, k.events) && p < |k.procs| && Legal(k, c) && (c.Interrupt? || c.Yield?)
    ensures p < |Exec(k, c).procs| && Exec(k, c).procs[p].resumeEv == k.procs[p].resumeEv
  {
    assert CtlOk(k.ctl, |k.events|, |k.procs|);
    var q := if c.Interrupt? then c.p else k.ctl.who.p;
    var pr := if c.Interrupt? then k.procs[q].(interruptPending := true, cause := c.c, yielded := None)
              else k.procs[q].(yielded := Some(c.e));
    SetProcWf(k, q, pr);
    OwnerResume(SetProc(k, q, pr), q, if c.Interrupt? then c.c else k.events[c.e].value);
  }

  lemma {:induction false} OwnerExec(k: Kernel, c: Cmd, p: ProcId)
    requires Inv(k) && p < |k.procs| && Legal(k, c)
    ensures p < |Exec(k, c).procs| && Exec(k, c).procs[p].resumeEv == k.procs[p].resumeEv
  {
    hide Shape, AllFollow, Accepts;
    assert CtlOk(k.ctl, |k.events|, |k.procs|);
    OwnerLinks(k);
    match c
    case Spawn => OwnerSpawn(k, p);
    case Interrupt(_, _) => OwnerSuspends(k, c, p);
    case Yield(_) => OwnerSuspends(k, c, p);
    case _ =>
  }

  lemma OwnerLinks(k: Kernel)
    requires Shape(k)
    ensures LinksOk(k.procs, k.events)
  {
  }

  // ---------- the order of dispatch ----------

  /** In every history dispatched keys are strictly increasing, so time never runs backwards and events
      of the same time come out in the order they were scheduled; and nothing queued is overdue. */
  lemma {:induction false} DispatchOrder(u: User, ms: seq<Move>, i: nat, j: nat)
    requires i < j < |Reach(u, ms).trace|
    ensures var k := Reach(u, ms);
            && EntryLt(k.trace[i], k.trace[j])
            && k.trace[i].time <= k.trace[j].time <= k.now
            && (k.trace[i].time == k.trace[j].time ==> k.trace[i].seqNo < k.trace[j].seqNo)
            && (forall x :: x in k.queue ==> k.now <= x.time && EntryLt(k.trace[j], x))
  {
    ReachInv(u, ms);
  }

  /** The clock never goes back. */
  lemma {:induction false} ClockForward(u: User, k: Kernel, m: Move)
    requires Inv(k)
    ensures k.now <= Apply(u, k, m).now
  {
    match m
    case Host(c) => if Legal(k, c) { ExecLate(k, c); }
    case Run =>
      if k.ctl.Idle? {
      } else if !k.ctl.who.Loop? {
        if Legal(k, u(k.log)) { ExecLate(k, u(k.log)); }
      } else {
        LoopLate(u, k);
      }
    case _ =>
  }

  // ---------- the free list ----------

  /** In every history an event is triggered exactly when it has an entry in the queue, and then it has one. */
  lemma {:induction false} TriggeredAreQueued(u: User, ms: seq<Move>, k: Kernel)
    requires k == Reach(u, ms)
    ensures forall e :: 0 <= e < |k.events| ==> (k.events[e].state.Triggered? <==> Queued(k.queue, e))
    ensures forall x, y :: x in k.queue && y in k.queue && x.event == y.event ==> x == y
  {
    ReachInv(u, ms);
    forall e | 0 <= e < |k.events| ensures k.events[e].state.Triggered? <==> Queued(k.queue, e) {
    }
  }

  /** In every history the free list has no duplicates and holds only processed events without callbacks,
      none of which is queued, being dispatched, a process's resume or done event, or an event some process
      waits for. */
  lemma {:induction false} PoolApart(u: User, ms: seq<Move>, k: Kernel)
    requires k == Reach(u, ms)
    ensures Distinct(k.eventPool)
    ensures forall i :: 0 <= i < |k.eventPool| ==> PooledOk(k, k.eventPool[i])
  {
    ReachInv(u, ms);
    forall i | 0 <= i < |k.eventPool| ensures PooledOk(k, k.eventPool[i]) {
      var e := k.eventPool[i];
      assert EventOk(k.events[e], e, k.procs);
      forall p | 0 <= p < |k.procs| ensures !Uses(k, p, e) {
        assert Follows(k.events, k.procs[p], p, k.ctl, RefOf(k.log, p));
      }
    }
  }

  ghost predicate Uses(k: Kernel, p: ProcId, e: EventId)
    requires p < |k.procs|
  {
    k.procs[p].resumeEv == Some(e) || k.procs[p].done == Some(e) || (k.procs[p].yielded == Some(e) && Waits(k, p))
  }

  ghost predicate PooledOk(k: Kernel, e: EventId) {
    && e < |k.events| && k.events[e].state.Processed? && k.events[e].cbs == []
    && !Queued(k.queue, e) && !(k.ctl.Dispatch? && k.ctl.e == e)
    && forall p :: 0 <= p < |k.procs| ==> !Uses(k, p, e)
  }

  /** The list of dead process structs holds exactly the dead ones, once each. */
  lemma {:induction false} ProcessesAccounted(u: User, ms: seq<Move>, p: ProcId)
    requires p < |Reach(u, ms).procs|
    ensures var k := Reach(u, ms);
            && Distinct(k.procPool)
            && (p in k.procPool <==> k.procs[p].state.Dead?)
            && (p in k.procPool <==> RefOf(k.log, p).Gone?)
  {
    var k := Reach(u, ms);
    ReachInv(u, ms);
    assert Follows(k.events, k.procs[p], p, k.ctl, RefOf(k.log, p));
  }
}
