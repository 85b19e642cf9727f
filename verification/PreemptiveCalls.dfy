/** The preemptive resource in terms of the calls made on it: which call each holder and waiter stands for, who
    is let in, and who is evicted. */
module PreemptiveCalls {
  import K = Kernel
  import opened RankedLists
  import opened PreemptiveResources

  /** The numbers of the calls that had to wait, in order. */
  function Waits(capacity: int, ops: seq<Op>): seq<nat> {
    if ops == [] then []
    else
      var before := ops[..|ops| - 1];
      Waits(capacity, before) + NowWaits(Run(capacity, before).0, ops[|ops| - 1], |before|)
  }

  function NowWaits(s: State, op: Op, n: nat): seq<nat> {
    if op.Request? && Do(s, op).0.nextSeq > s.nextSeq then [n] else []
  }

  /** The numbers of the calls that were granted, in the order of the grants. */
  function Grants(capacity: int, ops: seq<Op>): seq<nat> {
    if ops == [] then []
    else
      var before := ops[..|ops| - 1];
      Grants(capacity, before) + NowGranted(Run(capacity, before).0, ops[|ops| - 1], |before|, Waits(capacity, before))
  }

  function NowGranted(s: State, op: Op, n: nat, w: seq<nat>): seq<nat> {
    if Do(s, op).0.grants == s.grants then []
    else if op.Request? then [n]
    else if s.waiters != [] && s.waiters[0].seqNo < |w| then [w[s.waiters[0].seqNo]]
    else []
  }

  /** Call `i` is the request that the waiter `x`, or the holder `h`, stands for. */
  predicate StandsFor(ops: seq<Op>, i: nat, x: Ranked<Claim>) {
    i < |ops| && ops[i] == Op.Request(x.body.req, x.body.owner, x.priority, x.body.preempt)
  }

  predicate Holds(ops: seq<Op>, i: nat, h: Holder) {
    i < |ops| && ops[i].Request? && ops[i].req == h.req && ops[i].owner == h.owner && ops[i].priority == h.priority
  }

  ghost predicate WaitersTied(ops: seq<Op>, s: State, w: seq<nat>) {
    && |w| == s.nextSeq
    && (forall i, j :: 0 <= i < j < |w| ==> w[i] < w[j])
    && (forall i :: 0 <= i < |w| ==> w[i] < |ops|)
    && (forall t :: 0 <= t < |s.waiters| ==> s.waiters[t].seqNo < |w| && StandsFor(ops, w[s.waiters[t].seqNo], s.waiters[t]))
  }

  ghost predicate HoldersTied(ops: seq<Op>, s: State, g: seq<nat>) {
    && |g| == s.grants
    && (forall t :: 0 <= t < |s.holders| ==> s.holders[t].since < |g| && Holds(ops, g[s.holders[t].since], s.holders[t]))
  }

  lemma RunOk(capacity: int, ops: seq<Op>)
    requires capacity >= 1
    ensures Ok(Run(capacity, ops).0) && Run(capacity, ops).0.capacity == capacity
  {
    hide Run, Ok, Live, Gone, Requests, Granted, Pooled;
    Accounted(capacity, ops);
  }

  /** In every history each waiter has the event, the process, the priority and the right to preempt of its call,
      and each holder the event, the process and the priority of the call that was granted to it. */
  lemma {:induction false} AllTied(capacity: int, ops: seq<Op>)
    requires capacity >= 1
    ensures WaitersTied(ops, Run(capacity, ops).0, Waits(capacity, ops))
    ensures HoldersTied(ops, Run(capacity, ops).0, Grants(capacity, ops))
  {
    hide Run, Waits, Grants, WaitersTied, HoldersTied, Ok, Do, NowWaits, NowGranted;
    if ops == [] {
      NoneTied(capacity);
    } else {
      var before, op := ops[..|ops| - 1], ops[|ops| - 1];
      assert before + [op] == ops;
      OneMore(capacity, before, op);
      AllTied(capacity, before);
      RunOk(capacity, before);
      OneTied(before, op, Run(capacity, before).0, Waits(capacity, before), Grants(capacity, before));
    }
  }

  lemma NoneTied(capacity: int)
    ensures WaitersTied([], Run(capacity, []).0, Waits(capacity, []))
    ensures HoldersTied([], Run(capacity, []).0, Grants(capacity, []))
  {
  }

  lemma OneTied(before: seq<Op>, op: Op, s: State, w: seq<nat>, g: seq<nat>)
    requires WaitersTied(before, s, w) && HoldersTied(before, s, g) && Ok(s)
    ensures WaitersTied(before + [op], Do(s, op).0, w + NowWaits(s, op, |before|))
    ensures HoldersTied(before + [op], Do(s, op).0, g + NowGranted(s, op, |before|, w))
  {
    hide WaitersTied, HoldersTied, Ok, Do, NowWaits, NowGranted;
    if op.Request? { RequestTied(before, op, s, w, g); } else { ReleaseTied(before, op, s, w, g); }
  }

  lemma RequestTied(before: seq<Op>, op: Op, s: State, w: seq<nat>, g: seq<nat>)
    requires WaitersTied(before, s, w) && HoldersTied(before, s, g) && Ok(s) && op.Request?
    ensures WaitersTied(before + [op], Do(s, op).0, w + NowWaits(s, op, |before|))
    ensures HoldersTied(before + [op], Do(s, op).0, g + NowGranted(s, op, |before|, w))
  {
    var s' := Do(s, op).0;
    if s'.nextSeq > s.nextSeq {
      WaiterJoins(before, op, s, w);
    } else {
      assert w + [] == w;
    }
    if s'.grants == s.grants {
      assert g + [] == g;
    } else {
      HolderJoins(before, op, s, g);
    }
  }

  lemma WaiterJoins(before: seq<Op>, op: Op, s: State, w: seq<nat>)
    requires WaitersTied(before, s, w) && op.Request? && Do(s, op).0.nextSeq > s.nextSeq
    ensures WaitersTied(before + [op], Do(s, op).0, w + [|before|])
  {
    var x := Ranked(op.priority, s.nextSeq, Claim(op.req, op.owner, op.preempt));
    var q := Insert(s.waiters, x);
    forall t | 0 <= t < |q| ensures q[t] == x || q[t] in s.waiters {
      InsertAt(s.waiters, x, t);
    }
    hide Insert;
  }

  lemma HolderJoins(before: seq<Op>, op: Op, s: State, g: seq<nat>)
    requires HoldersTied(before, s, g) && op.Request? && Do(s, op).0.grants != s.grants
    ensures HoldersTied(before + [op], Do(s, op).0, g + [|before|])
  {
    var s' := Do(s, op).0;
    forall t | 0 <= t < |s'.holders| ensures s'.holders[t] == NewHolder(s, op.req, op.owner, op.priority) || s'.holders[t] in s.holders {
    }
    hide Weakest;
  }

  lemma ReleaseTied(before: seq<Op>, op: Op, s: State, w: seq<nat>, g: seq<nat>)
    requires WaitersTied(before, s, w) && HoldersTied(before, s, g) && Ok(s) && op.Release?
    ensures WaitersTied(before + [op], Do(s, op).0, w + NowWaits(s, op, |before|))
    ensures HoldersTied(before + [op], Do(s, op).0, g + NowGranted(s, op, |before|, w))
  {
    var s' := Do(s, op).0;
    assert w + [] == w;
    if s'.grants == s.grants {
      assert g + [] == g;
    } else {
      var x := s.waiters[0];
      forall t | 0 <= t < |s'.holders|
        ensures s'.holders[t] == NewHolder(s, x.body.req, x.body.owner, x.priority) || s'.holders[t] in s.holders {
      }
    }
    hide Find;
  }

  /** The numbers of the calls that wait, first in line first. */
  function Line(capacity: int, ops: seq<Op>): seq<nat>
    requires capacity >= 1
  {
    AllTied(capacity, ops);
    var s, w := Run(capacity, ops).0, Waits(capacity, ops);
    seq(|s.waiters|, t requires 0 <= t < |s.waiters| => w[s.waiters[t].seqNo])
  }

  /** Call `i` goes before call `j`: by the priorities they were made with, and among equals by their order. */
  predicate Precedes(ops: seq<Op>, i: nat, j: nat)
    requires i < |ops| && j < |ops| && ops[i].Request? && ops[j].Request?
  {
    ops[i].priority < ops[j].priority || (ops[i].priority == ops[j].priority && i < j)
  }

  /** The release of a held request, with calls waiting, grants exactly the one, of those waiting, with the least
      priority, the first made among equals, for the process it was made for. */
  lemma {:induction false} ReleaseServesFirst(capacity: int, ops: seq<Op>, req: K.EventId, processed: bool)
    requires capacity >= 1 && Line(capacity, ops) != []
    requires exists h :: h in Run(capacity, ops).0.holders && h.req == req
    ensures var line := Line(capacity, ops);
            && (forall t :: 0 <= t < |line| ==> line[t] < |ops| && ops[line[t]].Request?)
            && (forall t :: 1 <= t < |line| ==> Precedes(ops, line[0], line[t]))
            && Line(capacity, ops + [Release(req, processed)]) == line[1..]
            && Grants(capacity, ops + [Release(req, processed)]) == Grants(capacity, ops) + [line[0]]
  {
    hide Run, Waits, Grants, Do, Ok, Precedes;
    RunOk(capacity, ops);
    AllTied(capacity, ops);
    LineSorted(capacity, ops);
    FirstGetsIn(Run(capacity, ops).0, req, processed);
    OneMore(capacity, ops, Release(req, processed));
  }

  lemma OneMore(capacity: int, ops: seq<Op>, op: Op)
    ensures var more, s := ops + [op], Run(capacity, ops).0;
            && Run(capacity, more).0 == Do(s, op).0
            && Waits(capacity, more) == Waits(capacity, ops) + NowWaits(s, op, |ops|)
            && Grants(capacity, more) == Grants(capacity, ops) + NowGranted(s, op, |ops|, Waits(capacity, ops))
  {
    hide Do, NowWaits, NowGranted;
    assert (ops + [op])[..|ops|] == ops;
  }

  lemma LineSorted(capacity: int, ops: seq<Op>)
    requires capacity >= 1
    ensures var line := Line(capacity, ops);
            && (forall t :: 0 <= t < |line| ==> line[t] < |ops| && ops[line[t]].Request?)
            && (forall t :: 1 <= t < |line| ==> Precedes(ops, line[0], line[t]))
  {
    RunOk(capacity, ops);
    AllTied(capacity, ops);
    var s := Run(capacity, ops).0;
    hide Run, Waits;
    var line := Line(capacity, ops);
    forall t | 1 <= t < |line| ensures Precedes(ops, line[0], line[t]) {
      assert Before(s.waiters[0], s.waiters[t]);
    }
  }

  lemma FirstGetsIn(s: State, req: K.EventId, processed: bool)
    requires Ok(s) && s.waiters != [] && exists h :: h in s.holders && h.req == req
    ensures var s' := Do(s, Release(req, processed)).0;
            s'.waiters == s.waiters[1..] && s'.grants == s.grants + 1 && s'.nextSeq == s.nextSeq
  {
    var i := Find(s.holders, req);
    assert i < |s.holders|;
    ReleaseOfHeld(s, req, processed, i);
  }

  /** The call whose request a holder has. */
  function CallFor(capacity: int, ops: seq<Op>, h: Holder): (i: nat)
    requires capacity >= 1 && h in Run(capacity, ops).0.holders
    ensures Holds(ops, i, h)
  {
    AllTied(capacity, ops);
    Grants(capacity, ops)[h.since]
  }
}
