/** What an eviction means for the evicted process: the resource and the kernel together. */
module Evictions {
  import opened Kernel
  import opened Protocol
  import opened Invariants
  import opened Runs
  import opened Wakeups
  import opened InterruptCalls
  import opened R = PreemptiveResources
  import opened PreemptiveCalls

  /** The calls on the kernel that the outputs stand for, in order. */
  function AllCalls(o: seq<Out>, addr: Value): seq<Cmd> {
    if o == [] then [] else Calls(o[0], addr) + AllCalls(o[1..], addr)
  }

  /** The moves make exactly these calls. */
  ghost predicate Made(u: User, ms: seq<Move>, moves: seq<Move>, cs: seq<Cmd>) {
    |moves| == |cs| && forall i :: 0 <= i < |cs| ==> CallOf(u, Reach(u, ms + moves[..i]), moves[i]) == Some(cs[i])
  }

  /** A request on a full resource, after any calls, that may preempt and has a better priority than some holder,
      evicts the most recently granted of the holders with the largest priority value. The process told is the
      one passed to the call that made the evicted request, if one was: by the next switch to it, at the time of
      the eviction, if and only if it is alive and had no interrupt pending, or one that was due, in which case
      it is told the cause of that one. If it had one pending that is not due it is not told: it stays as it was. */
  lemma {:induction false} EvictedOwnerIsTold(capacity: int, ops: seq<Op>,
                                              req: EventId, owner: Option<ProcId>, priority: int, addr: Value,
                                              u: User, ms: seq<Move>, moves: seq<Move>, p: ProcId)
    requires capacity >= 1
    requires var s := R.Run(capacity, ops).0; |s.holders| == capacity && exists h :: h in s.holders && h.priority > priority
    requires Made(u, ms, moves, AllCalls(AfterRequest(R.Run(capacity, ops).0, req, owner, priority, true).1, addr))
    requires ops[CallFor(capacity, ops, Victim(capacity, ops, req, owner, priority))].owner == Some(p)
    ensures var s, v := R.Run(capacity, ops).0, Victim(capacity, ops, req, owner, priority);
            forall h :: h in s.holders ==> h.priority < v.priority || (h.priority == v.priority && h.since <= v.since)
    ensures var k := Reach(u, ms); var r := RefOf(k.log, p);
            AlwaysAnswered(u, ms + moves, p, FirstCause(r, req), k.now, r.Live? && r.phase.Unstarted?)
            <==> r.Live? && (r.intr.None? || r.due)
    ensures forall c :: Overlooked(Reach(u, ms).log, p, c) ==> Overlooked(Reach(u, ms + moves).log, p, c)
  {
    hide Reach, Exec, AlwaysAnswered, Overlooked, CallOf, Ok, RefOf, R.Run;
    var s := R.Run(capacity, ops).0;
    Accounted(capacity, ops);
    FullPreempts(s, priority);
    EvictsWeakestNewest(s, req, owner, priority, true);
    var v := Victim(capacity, ops, req, owner, priority);
    assert Holds(ops, CallFor(capacity, ops, v), v);
    var g := Grant(NewHolder(s, req, owner, priority));
    TwoCalls(g, Evict(v, req), addr);
    assert AfterRequest(s, req, owner, priority, true).1 == [g, Evict(v, req)];
    OwnerTold(u, ms, moves, p, req, addr);
  }

  /** The holder that the request evicts. */
  function Victim(capacity: int, ops: seq<Op>, req: EventId, owner: Option<ProcId>, priority: int): (v: Holder)
    requires capacity >= 1
    requires var s := R.Run(capacity, ops).0; |s.holders| == capacity && exists h :: h in s.holders && h.priority > priority
    ensures v in R.Run(capacity, ops).0.holders
  {
    var s := R.Run(capacity, ops).0;
    Accounted(capacity, ops);
    FullPreempts(s, priority);
    EvictsWeakestNewest(s, req, owner, priority, true);
    AfterRequest(s, req, owner, priority, true).1[1].h
  }

  lemma FullPreempts(s: State, priority: int)
    requires Ok(s) && |s.holders| == s.capacity && exists h :: h in s.holders && h.priority > priority
    ensures s.inUse == s.capacity && Preempts(s, priority, true)
  {
  }

  /** The kernel's part. */
  lemma {:induction false} OwnerTold(u: User, ms: seq<Move>, moves: seq<Move>, p: ProcId, req: EventId, addr: Value)
    requires Made(u, ms, moves, [Succeed(req, addr), Interrupt(p, req)])
    ensures var k := Reach(u, ms); var r := RefOf(k.log, p);
            AlwaysAnswered(u, ms + moves, p, FirstCause(r, req), k.now, r.Live? && r.phase.Unstarted?)
            <==> r.Live? && (r.intr.None? || r.due)
    ensures forall c :: Overlooked(Reach(u, ms).log, p, c) ==> Overlooked(Reach(u, ms + moves).log, p, c)
  {
    hide Reach, Exec, AlwaysAnswered, Overlooked, CallOf, RefOf;
    assert CallOf(u, Reach(u, ms + moves[..0]), moves[0]) == Some(Succeed(req, addr));
    assert CallOf(u, Reach(u, ms + moves[..1]), moves[1]) == Some(Interrupt(p, req));
    assert ms + moves[..0] == ms && ms + moves[..1] == ms + [moves[0]] && ms + moves == ms + [moves[0]] + [moves[1]];
    GrantUnseen(u, ms, moves[0], req, addr, p);
    InterruptCall(u, ms + [moves[0]], moves[1], p, req);
    StillOverlooked(u, ms + [moves[0]], moves[1], p, req);
  }

  lemma TwoCalls(a: Out, b: Out, addr: Value)
    ensures AllCalls([a, b], addr) == Calls(a, addr) + Calls(b, addr)
  {
    assert [a, b][1..] == [b];
    assert AllCalls([b], addr) == Calls(b, addr) + [];
  }

  /** The grant to the new request means nothing to the evicted owner. */
  lemma {:induction false} GrantUnseen(u: User, ms: seq<Move>, m: Move, req: EventId, addr: Value, p: ProcId)
    requires CallOf(u, Reach(u, ms), m) == Some(Succeed(req, addr))
    ensures var k, k1 := Reach(u, ms), Reach(u, ms + [m]);
            k1.now == k.now && RefOf(k1.log, p) == RefOf(k.log, p)
            && forall c :: Overlooked(k.log, p, c) ==> Overlooked(k1.log, p, c)
  {
    hide Reach, CallOf, Exec, RefOf;
    var k := Reach(u, ms);
    CallMade(u, ms, m, Succeed(req, addr));
    SucceedShows(k, req, addr);
    RefOfSay(k.log, Did(Succeed(req, addr)), p);
  }

  lemma SucceedShows(k: Kernel, e: EventId, v: Value)
    requires Wf(k) && Legal(k, Succeed(e, v))
    ensures var k1 := Exec(k, Succeed(e, v)); k1.log == k.log + [Did(Succeed(e, v))] && k1.now == k.now
  {
  }

  lemma {:induction false} StillOverlooked(u: User, ms: seq<Move>, m: Move, p: ProcId, d: Value)
    requires CallOf(u, Reach(u, ms), m) == Some(Interrupt(p, d))
    ensures forall c :: Overlooked(Reach(u, ms).log, p, c) ==> Overlooked(Reach(u, ms + [m]).log, p, c)
  {
    hide Reach, CallOf, Overlooked;
    forall c | Overlooked(Reach(u, ms).log, p, c) ensures Overlooked(Reach(u, ms + [m]).log, p, c) {
      DroppedCall(u, ms, m, p, c, d);
    }
  }

  // ---------- the calls a release makes ----------

  /** A release of a held request succeeds the event of the waiter it lets in, if there is one, and then puts the
      request in the kernel's free list, if it has been processed; it interrupts nobody. */
  lemma {:induction false} ReleaseCalls(s: State, req: EventId, processed: bool, addr: Value)
    requires Ok(s) && exists h :: h in s.holders && h.req == req
    ensures AllCalls(AfterRelease(s, req, processed).1, addr) ==
            (if s.waiters == [] then [] else [Succeed(s.waiters[0].body.req, addr)]) + (if processed then [Recycle(req)] else [])
  {
    var i := Find(s.holders, req);
    assert i < |s.holders|;
    ReleaseOfHeld(s, req, processed, i);
    var f := Freed(s.holders[i]);
    var pooled: seq<Out> := if processed then [Pool(req)] else [];
    CallsAppend([f], pooled, addr);
    OneCall(f, addr);
    OneCall(Pool(req), addr);
    if s.waiters != [] {
      var w := s.waiters[0];
      var g := Grant(Holder(w.body.req, w.body.owner, w.priority, s.grants));
      TwoCalls(f, g, addr);
      CallsAppend([f, g], pooled, addr);
    }
    hide AllCalls, AfterRelease;
  }

  lemma OneCall(o: Out, addr: Value)
    ensures AllCalls([o], addr) == Calls(o, addr)
  {
    assert Calls(o, addr) + [] == Calls(o, addr);
  }

  lemma {:induction false} CallsAppend(a: seq<Out>, b: seq<Out>, addr: Value)
    ensures AllCalls(a + b, addr) == AllCalls(a, addr) + AllCalls(b, addr)
  {
    if a == [] {
      assert a + b == b;
    } else {
      assert (a + b)[1..] == a[1..] + b;
      CallsAppend(a[1..], b, addr);
    }
  }
}
