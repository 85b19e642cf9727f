/** What a call of sim_process_interrupt achieves, and exactly when it achieves nothing. */
module InterruptCalls {
  import opened Kernel
  import opened Protocol
  import opened Invariants
  import opened Runs
  import opened Wakeups

  /** The cause that will be delivered, if `c` is passed to an interrupt now: the first one wins. */
  function FirstCause(r: Ref, c: Value): Value {
    if r.Live? && r.intr.Some? then r.intr.value else c
  }

  /** An interrupt of a live process leaves the first cause pending; a switch is due afterwards exactly if
      none was pending or one was due already; with one pending it changes nothing at all. */
  lemma {:induction false} InterruptStatus(log: seq<Obs>, p: ProcId, c: Value)
    ensures var r, r1 := RefOf(log, p), RefOf(log + [Did(Interrupt(p, c))], p);
            if !r.Live? || r.intr.Some? then r1 == r
            else
              && r1.Live? && r1.intr == Some(c) && r1.due
              && (r1.phase.Unstarted? <==> r.phase.Unstarted?) && !r1.phase.Waiting? && !r1.phase.Fired?
    ensures var r := RefOf(log, p);
            ToDeliver(log + [Did(Interrupt(p, c))], p, FirstCause(r, c)) <==> r.Live? && (r.intr.None? || r.due)
  {
    RefOfSay(log, Did(Interrupt(p, c)), p);
  }

  /** After `more`, the switch that delivers `c` to `p` is still due, at time `t`; or it came, at time `t`, and
      was the next one: sim_yield returned `c`, flagged as an interrupt (or `p`, which had control, ended
      first; or `p` was started, if it had not been when it was interrupted). */
  ghost predicate Answered(u: User, ms: seq<Move>, more: seq<Move>, p: ProcId, c: Value, t: real, unstarted: bool) {
    || (ToDeliver(Reach(u, ms + more).log, p, c) && Reach(u, ms + more).now == t)
    || exists n :: 0 <= n < |more| && Delivers(u, ms + more[..n], more[n], p, c, t, unstarted)
  }

  ghost predicate AlwaysAnswered(u: User, ms: seq<Move>, p: ProcId, c: Value, t: real, unstarted: bool) {
    forall more :: Answered(u, ms, more, p, c, t, unstarted)
  }

  /** The call itself: it is answered, in every continuation, by the next switch to the process, at the time
      of the call and with the first pending cause, if and only if the process is alive and no interrupt was
      pending, or the pending one is due. */
  lemma {:induction false} InterruptCall(u: User, ms: seq<Move>, m: Move, p: ProcId, c: Value)
    requires CallOf(u, Reach(u, ms), m) == Some(Interrupt(p, c))
    ensures var k := Reach(u, ms); var r := RefOf(k.log, p);
            AlwaysAnswered(u, ms + [m], p, FirstCause(r, c), k.now, r.Live? && r.phase.Unstarted?)
            <==> r.Live? && (r.intr.None? || r.due)
  {
    hide Reach, Answered, Exec, CallOf, Delivers, RefOf;
    var k, k1 := Reach(u, ms), Reach(u, ms + [m]);
    var r := RefOf(k.log, p);
    CallMade(u, ms, m, Interrupt(p, c));
    InterruptShows(k, p, c);
    InterruptStatus(k.log, p, c);
    if r.Live? && (r.intr.None? || r.due) {
      forall more ensures Answered(u, ms + [m], more, p, FirstCause(r, c), k.now, r.phase.Unstarted?) {
        InterruptAnswered(u, ms + [m], more, p, FirstCause(r, c));
      }
    } else {
      NotAnswered(u, ms + [m], p, FirstCause(r, c), k.now, r.Live? && r.phase.Unstarted?);
    }
  }

  lemma InterruptShows(k: Kernel, p: ProcId, c: Value)
    requires Wf(k) && Legal(k, Interrupt(p, c))
    ensures var k1 := Exec(k, Interrupt(p, c)); k1.log == k.log + [Did(Interrupt(p, c))] && k1.now == k.now
  {
    ExecLate(k, Interrupt(p, c));
  }

  lemma {:induction false} InterruptAnswered(u: User, ms: seq<Move>, more: seq<Move>, p: ProcId, c: Value)
    requires ToDeliver(Reach(u, ms).log, p, c)
    ensures Answered(u, ms, more, p, c, Reach(u, ms).now, RefOf(Reach(u, ms).log, p).phase.Unstarted?)
  {
    hide Reach, Delivers, ToDeliver;
    InterruptDelivered(u, ms, more, p, c);
  }

  lemma {:induction false} NotAnswered(u: User, ms: seq<Move>, p: ProcId, c: Value, t: real, unstarted: bool)
    requires !ToDeliver(Reach(u, ms).log, p, c)
    ensures !Answered(u, ms, [], p, c, t, unstarted)
  {
    hide Reach, Delivers, ToDeliver;
    assert ms + [] == ms;
  }

  // ---------- pending and not due ----------

  /** `p` has been started, an interrupt is pending, and no switch is due. */
  predicate Overlooked(log: seq<Obs>, p: ProcId, c: Value) {
    var r := RefOf(log, p);
    r.Live? && !r.phase.Unstarted? && r.intr == Some(c) && !r.due
  }

  /** A call on a process that is not alive, or that has an interrupt pending, does nothing at all but show in the
      transcript. */
  lemma {:induction false} InterruptIgnored(u: User, ms: seq<Move>, m: Move, p: ProcId, d: Value)
    requires CallOf(u, Reach(u, ms), m) == Some(Interrupt(p, d))
    requires var r := RefOf(Reach(u, ms).log, p); !r.Live? || r.intr.Some?
    ensures var k := Reach(u, ms); Reach(u, ms + [m]) == Say(k, Did(Interrupt(p, d)))
  {
    hide Reach, CallOf, RefOf;
    var k := Reach(u, ms);
    ReachInv(u, ms);
    CallMade(u, ms, m, Interrupt(p, d));
    assert Follows(k.events, k.procs[p], p, k.ctl, RefOf(k.log, p));
  }

  /** In that state in particular. */
  lemma {:induction false} DroppedCall(u: User, ms: seq<Move>, m: Move, p: ProcId, c: Value, d: Value)
    requires CallOf(u, Reach(u, ms), m) == Some(Interrupt(p, d)) && Overlooked(Reach(u, ms).log, p, c)
    ensures var k := Reach(u, ms); Reach(u, ms + [m]) == Say(k, Did(Interrupt(p, d)))
    ensures Overlooked(Reach(u, ms + [m]).log, p, c)
  {
    hide Reach, CallOf, RefOf;
    InterruptIgnored(u, ms, m, p, d);
    InterruptStatus(Reach(u, ms).log, p, d);
  }

  /** What ends it: the event that `p` waits for is dispatched; or `p`, if it has control, yields an event that
      has been processed already, or ends. */
  predicate Noticed(log: seq<Obs>, o: Obs, p: ProcId) {
    match o
    case Dispatched(e, _, _) => RefOf(log, p).Live? && RefOf(log, p).phase == Waiting(e)
    case Yielded(q, _, ready, _) => q == p && ready
    case Exited(q) => q == p
    case _ => false
  }

  lemma {:induction false} OverlookedStep(log: seq<Obs>, o: Obs, p: ProcId, c: Value)
    requires Overlooked(log, p, c) && AllowedBy(log, o)
    ensures if Noticed(log, o, p) then !Overlooked(log + [o], p, c) else Overlooked(log + [o], p, c)
  {
    RefOfSay(log, o, p);
  }

  /** Nothing else does: however the history continues, and however often `p` is interrupted again, the
      interrupt stays pending and no switch to `p` is due until one of these. */
  lemma {:induction false} OverlookedUntilNoticed(u: User, ms: seq<Move>, more: seq<Move>, p: ProcId, c: Value)
    requires Overlooked(Reach(u, ms).log, p, c)
    ensures Overlooked(Reach(u, ms + more).log, p, c)
            || exists n :: 0 <= n < |more| && NoticedAt(u, ms + more[..n], more[n], p, c)
  {
    hide Reach, Overlooked, NoticedAt, Inv;
    if more == [] {
      assert ms + more == ms;
    } else {
      var n := |more| - 1;
      var init := more[..n];
      OverlookedUntilNoticed(u, ms, init, p, c);
      if exists i :: 0 <= i < |init| && NoticedAt(u, ms + init[..i], init[i], p, c) {
        var i :| 0 <= i < |init| && NoticedAt(u, ms + init[..i], init[i], p, c);
        assert init[..i] == more[..i] && init[i] == more[i];
      } else {
        ReachStep(u, ms, more);
        OverlookedMove(u, ms + init, more[n], p, c);
      }
    }
  }

  /** After `ms` the interrupt was overlooked, and then move `m` ended that. */
  ghost predicate NoticedAt(u: User, ms: seq<Move>, m: Move, p: ProcId, c: Value) {
    var l, l1 := Reach(u, ms).log, Apply(u, Reach(u, ms), m).log;
    Overlooked(l, p, c) && exists o :: l1 == l + [o] && Noticed(l, o, p)
  }

  lemma {:induction false} OverlookedMove(u: User, ms: seq<Move>, m: Move, p: ProcId, c: Value)
    requires Overlooked(Reach(u, ms).log, p, c)
    ensures Overlooked(Apply(u, Reach(u, ms), m).log, p, c) || NoticedAt(u, ms, m, p, c)
  {
    hide Reach, Apply, Overlooked, Noticed, Shape, AllFollow, Wf;
    var k := Reach(u, ms);
    ReachInv(u, ms);
    LogGrows(u, k, m);
    ApplyInv(u, k, m);
    var l1 := Apply(u, k, m).log;
    if l1 != k.log {
      var o := l1[|k.log|];
      assert l1[..|k.log|] == k.log;
      assert AllowedBy(k.log, o);
      OverlookedStep(k.log, o, p, c);
    }
  }

  /** Observation `i` was the interrupt of `p` with cause `c`, before `p` was started, and it has been pending
      ever since. */
  ghost predicate TakenEarly(log: seq<Obs>, p: ProcId, c: Value, i: nat) {
    && i < |log| && log[i] == Did(Interrupt(p, c))
    && RefOf(log[..i], p).Live? && RefOf(log[..i], p).phase.Unstarted? && RefOf(log[..i], p).intr.None?
    && forall j :: i < j <= |log| ==> RefOf(log[..j], p).Live? && RefOf(log[..j], p).intr == Some(c)
  }

  /** A process that is started with an interrupt pending is overlooked from then on: the start is the switch
      that was due, and it delivers nothing. */
  lemma {:induction false} StartOverlooks(log: seq<Obs>, p: ProcId, c: Value)
    requires RefOf(log, p).Live? && RefOf(log, p).intr == Some(c)
    ensures Overlooked(log + [Started(p)], p, c)
  {
    RefOfSay(log, Started(p), p);
  }

  /** It comes about in one way only: by an interrupt before the start. */
  lemma {:induction false} OverlookedIsEarly(log: seq<Obs>, p: ProcId, c: Value)
    requires Accepts(log) && Overlooked(log, p, c)
    ensures exists i: nat :: TakenEarly(log, p, c, i)
  {
    var prev, o := log[..|log| - 1], log[|log| - 1];
    assert AllowedBy(prev, o);
    if Overlooked(prev, p, c) {
      AcceptsPrefix(log);
      OverlookedIsEarly(prev, p, c);
    } else {
      UnstartedIsEarly(prev, p, c);
    }
    var i: nat :| TakenEarly(prev, p, c, i);
    StillTaken(log, p, c, i);
  }

  lemma {:induction false} UnstartedIsEarly(log: seq<Obs>, p: ProcId, c: Value)
    requires RefOf(log, p).Live? && RefOf(log, p).phase.Unstarted? && RefOf(log, p).intr == Some(c)
    ensures exists i: nat :: TakenEarly(log, p, c, i)
  {
    var prev, o := log[..|log| - 1], log[|log| - 1];
    if RefOf(prev, p).Live? && RefOf(prev, p).phase.Unstarted? && RefOf(prev, p).intr == Some(c) {
      UnstartedIsEarly(prev, p, c);
      var i: nat :| TakenEarly(prev, p, c, i);
      StillTaken(log, p, c, i);
    } else {
      assert log[..|log|] == log;
      assert TakenEarly(log, p, c, |log| - 1);
    }
  }

  lemma {:induction false} StillTaken(log: seq<Obs>, p: ProcId, c: Value, i: nat)
    requires log != [] && TakenEarly(log[..|log| - 1], p, c, i)
    requires RefOf(log, p).Live? && RefOf(log, p).intr == Some(c)
    ensures TakenEarly(log, p, c, i)
  {
    var prev := log[..|log| - 1];
    assert log[..|log|] == log;
    assert forall j :: 0 <= j <= |prev| ==> prev[..j] == log[..j];
  }

  lemma AcceptsPrefix(log: seq<Obs>)
    requires log != [] && Accepts(log)
    ensures Accepts(log[..|log| - 1])
  {
    var prev := log[..|log| - 1];
    assert forall j :: 0 <= j < |prev| ==> prev[..j] == log[..j] && prev[j] == log[j];
  }
}
