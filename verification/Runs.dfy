/** What holds over whole histories, whatever user code does. */
module Runs {
  import opened Entries
  import opened Kernel
  import opened Protocol
  import opened Invariants
  import opened ShapeProof
  import opened FollowProof

  // ---------- the invariant holds in every reachable state ----------

  lemma InitInv()
    ensures Inv(INIT)
  {
  }

  lemma {:induction false} ExecInv(k: Kernel, c: Cmd)
    requires Inv(k) && Legal(k, c) && InControl(k.ctl)
    ensures Inv(Exec(k, c))
  {
    ExecWf(k, c);
    assert k.ctl.Dispatch? && k.ctl.who.InProc? ==> !k.procs[k.ctl.who.p].state.Dead? by {
      if k.ctl.Dispatch? && k.ctl.who.InProc? {
        assert CtlOk(k.ctl, |k.events|, |k.procs|);
        assert Follows(k.events, k.procs[k.ctl.who.p], k.ctl.who.p, k.ctl, RefOf(k.log, k.ctl.who.p));
      }
    }
    ExecShape(k, c);
    ExecFollows(k, c);
  }

  lemma ExecFollows(k: Kernel, c: Cmd)
    requires Inv(k) && Legal(k, c) && InControl(k.ctl)
    ensures AllFollow(Exec(k, c)) && Accepts(Exec(k, c).log)
  {
    hide AllFollow, Shape;
    var e := NextEvent(k);
    match c
    case Succeed(x, v) => SucceededFollows(k, x, v); SayNeutral(Succeeded(k, x, v), Did(c));
    case Fail(x, why) => FailedFollows(k, x, why); SayNeutral(Failed(k, x, why), Did(c));
    case On(x, tag) =>
      if k.events[x].state.Processed? {
        SayNeutral(k, Entered(tag, x));
      } else {
        OnFollows(k, x, tag);
        SayNeutral(Subscribed(k, x, UserCb(tag)), Did(c));
      }
    case Spawn => SpawnFollows(k);
    case ProcEvent(p) =>
      ProcessEventFollows(k, p);
      SayNeutral(ProcessEvent(k, p).0, GotDone(p, ProcessEvent(k, p).1));
    case Interrupt(p, v) => InterruptFollows(k, p, v);
    case Recycle(x) => RecycleFollows(k, x);
    case Yield(x) => YieldFollows(k, x);
    case Return => ReturnFollows(k);
    case _ => AllocFollows(k, c);
  }

  lemma AllocFollows(k: Kernel, c: Cmd)
    requires Inv(k) && Legal(k, c) && (c.NewEvent? || c.NewTransient? || c.NewRequest? || c.Timeout?)
    ensures AllFollow(Exec(k, c)) && Accepts(Exec(k, c).log)
  {
    var ev := match c case NewEvent => Fresh(Plain) case NewTransient => Fresh(Transient).(recyclable := true)
              case Timeout(_, v) => Fresh(Transient).(value := v, state := Triggered, recyclable := true)
              case _ => Fresh(Request);
    var k1 := Exec(k, c).(log := k.log);
    assert k1.events == Put(k.events, NextEvent(k), ev);
    PlaceFollows(k, ev, k1);
    SayNeutral(k1, Got(NextEvent(k)));
    assert Exec(k, c) == Say(k1, Got(NextEvent(k)));
  }

  lemma RecycleFollows(k: Kernel, e: EventId)
    requires Inv(k) && Legal(k, Recycle(e))
    ensures AllFollow(Exec(k, Recycle(e))) && Accepts(Exec(k, Recycle(e)).log)
  {
    SayNeutral(k, Did(Recycle(e)));
  }

  lemma {:induction false} ProcessEventFollows(k: Kernel, p: ProcId)
    requires Inv(k) && p < |k.procs|
    ensures AllFollow(ProcessEvent(k, p).0) && Accepts(ProcessEvent(k, p).0.log)
  {
    if k.procs[p].done.None? {
      var d := NextEvent(k);
      AllocWf(k, DoneOf(p));
      var ka := Alloc(k, DoneOf(p));
      PlaceFollows(k, Fresh(DoneOf(p)), ka);
      var k1 := SetProc(ka, p, k.procs[p].(done := Some(d)));
      DoneFollows(ka, p, d);
      if k.procs[p].state.Dead? {
        PutFollows(k1, d, k1.events[d].(value := NULL, ok := true, state := Triggered), Succeeded(k1, d, NULL)) by {
          ProcessEventLinks(k, p);
          NextEventFree(k);
          assert ProcOk(ka.procs[p], |ka.events|);
        }
      }
    }
  }

  lemma DoneFollows(ka: Kernel, p: ProcId, d: EventId)
    requires AllFollow(ka) && p < |ka.procs|
    ensures AllFollow(SetProc(ka, p, ka.procs[p].(done := Some(d))))
  {
    var k1 := SetProc(ka, p, ka.procs[p].(done := Some(d)));
    forall q | 0 <= q < |k1.procs| ensures Follows(k1.events, k1.procs[q], q, k1.ctl, RefOf(k1.log, q)) {
      assert Follows(ka.events, ka.procs[q], q, ka.ctl, RefOf(ka.log, q));
    }
  }

  lemma ProcessEventLinks(k: Kernel, p: ProcId)
    requires Inv(k) && p < |k.procs| && k.procs[p].done.None?
    ensures NextEvent(k) < |Alloc(k, DoneOf(p)).events|
    ensures var k1 := SetProc(Alloc(k, DoneOf(p)), p, k.procs[p].(done := Some(NextEvent(k))));
            Wf(k1) && LinksOk(k1.procs, k1.events)
  {
    AllocWf(k, DoneOf(p));
    PlaceShape(k, Fresh(DoneOf(p)));
    assert Alloc(k, DoneOf(p)) == Place(k, Fresh(DoneOf(p)));
    assert ProcOk(Alloc(k, DoneOf(p)).procs[p], |Alloc(k, DoneOf(p)).events|);
  }

  lemma {:induction false} TickInv(u: User, k: Kernel)
    requires Inv(k)
    ensures Inv(Tick(u, k))
  {
    hide Shape, AllFollow;
    TickWf(u, k);
    match k.ctl
    case Idle => if k.queue != {} { PopShape(k); PopFollows(k); }
    case Dispatch(_, rest, Loop) =>
      if rest == [] {
        FinishShape(k);
        FinishFollows(k);
      } else {
        RunCallbackShape(k);
        RunCallbackFollows(k);
      }
    case Dispatch(_, _, _) => if Legal(k, u(k.log)) { ExecInv(k, u(k.log)); }
  }

  lemma {:induction false} ApplyInv(u: User, k: Kernel, m: Move)
    requires Inv(k)
    ensures Inv(Apply(u, k, m))
  {
    match m
    case Run => TickInv(u, k);
    case Host(c) => if k.ctl.Idle? && Legal(k, c) { ExecInv(k, c); }
    case UntilStart => UntilInv(u, k, m);
    case UntilEnd(t) => UntilInv(u, k, m);
  }

  lemma UntilInv(u: User, k: Kernel, m: Move)
    requires Inv(k) && (m.UntilStart? || m.UntilEnd?)
    ensures Inv(Apply(u, k, m))
  {
    var k1 := Apply(u, k, m);
    ApplyWf(u, k, m);
    assert QueueOk(k1.queue, k1.nextSeq, k1.now, k1.events);
    assert TraceOk(k1.trace, k1.queue, k1.now, k1.nextSeq);
  }

  /** The invariant holds after every history of moves, for every user code. */
  lemma {:induction false} ReachInv(u: User, ms: seq<Move>)
    ensures Inv(Reach(u, ms))
  {
    if ms == [] {
      InitInv();
    } else {
      ReachInv(u, ms[..|ms| - 1]);
      ApplyInv(u, Reach(u, ms[..|ms| - 1]), ms[|ms| - 1]);
    }
  }

  // ---------- histories, move by move ----------

  lemma LastMove(u: User, all: seq<Move>)
    requires all != []
    ensures Reach(u, all) == Apply(u, Reach(u, all[..|all| - 1]), all[|all| - 1])
  {
    hide Apply, Wf;
  }

  lemma {:induction false} ReachStep(u: User, ms: seq<Move>, more: seq<Move>)
    requires more != []
    ensures var n := |more| - 1;
            Reach(u, ms + more) == Apply(u, Reach(u, ms + more[..n]), more[n])
  {
    hide Apply, Wf, Reach;
    var all := ms + more;
    LastMove(u, all);
    assert all[..|all| - 1] == ms + more[..|more| - 1];
  }

  lemma CallMade(u: User, ms: seq<Move>, m: Move, c: Cmd)
    requires CallOf(u, Reach(u, ms), m) == Some(c)
    ensures Legal(Reach(u, ms), c) && Reach(u, ms + [m]) == Exec(Reach(u, ms), c)
  {
    hide Exec, Legal;
    LastMove(u, ms + [m]);
    assert (ms + [m])[..|ms|] == ms;
  }

  /** `n` steps of the machine. */
  ghost function Ticks(u: User, k: Kernel, n: nat): (k1: Kernel)
    requires Wf(k)
    ensures Wf(k1)
    decreases n
  {
    if n == 0 then k
    else
      TickWf(u, k);
      Ticks(u, Tick(u, k), n - 1)
  }

  lemma {:induction false} TicksLast(u: User, k: Kernel, n: nat)
    requires Wf(k)
    ensures Ticks(u, k, n + 1) == Tick(u, Ticks(u, k, n))
    decreases n
  {
    hide Wf, Tick;
    TickWf(u, k);
    if n > 0 { TicksLast(u, Tick(u, k), n - 1); }
  }

  function Steps(n: nat): seq<Move> {
    seq(n, _ => Run)
  }

  lemma {:induction false} RunsAreTicks(u: User, ms: seq<Move>, n: nat)
    ensures Reach(u, ms + Steps(n)) == Ticks(u, Reach(u, ms), n)
  {
    hide Wf, Tick;
    if n == 0 {
      assert ms + Steps(0) == ms;
    } else {
      var all := ms + Steps(n);
      assert all[..|all| - 1] == ms + Steps(n - 1);
      RunsAreTicks(u, ms, n - 1);
      TicksLast(u, Reach(u, ms), n - 1);
    }
  }
}
