/** A resource of N slots whose waiters are served by priority, then arrival. */
module PriorityResources {
  import opened Bags
  import opened K = Kernel
  import opened RankedLists

  /** What a call hands to the kernel: a request is granted, or pooled. The priority of a grant is that of the
      request; the source has no use for it, and nothing branches on it. */
  datatype Out = Grant(e: EventId, priority: int) | Pool(e: EventId)

  datatype State = State(capacity: int, inUse: int, queue: seq<Ranked<EventId>>, nextSeq: nat)

  /** sim_priority_resource_request, with the event just allocated for it. */
  function AfterRequest(s: State, e: EventId, priority: int): (State, seq<Out>) {
    if s.inUse < s.capacity then (s.(inUse := s.inUse + 1), [Grant(e, priority)])
    else (s.(queue := Insert(s.queue, Ranked(priority, s.nextSeq, e)), nextSeq := s.nextSeq + 1), [])
  }

  /** sim_priority_resource_release; `processed` says whether the released request's event has been. */
  function AfterRelease(s: State, e: EventId, processed: bool): (State, seq<Out>) {
    var pooled := if processed then [Pool(e)] else [];
    if s.inUse == 0 then (s, [])
    else if s.queue != [] then (s.(queue := s.queue[1..]), [Grant(s.queue[0].body, s.queue[0].priority)] + pooled)
    else (s.(inUse := s.inUse - 1), pooled)
  }

  class PriorityResource {
    const capacity: int
    var inUse: int
    var queueLen: int
    var head: seq<Ranked<EventId>>
    var nextSeq: nat
    var out: seq<Out>

    ghost predicate Valid()
      reads this
    {
      queueLen == |head|
    }

    ghost function Abs(): State
      reads this
    {
      State(capacity, inUse, head, nextSeq)
    }

    constructor (capacity: int)
      ensures Valid() && Abs() == State(capacity, 0, [], 0) && out == []
    {
      this.capacity := capacity;
      inUse, queueLen, head, nextSeq, out := 0, 0, [], 0, [];
    }

    method Request(e: EventId, priority: int)
      requires Valid()
      modifies this
      ensures Valid()
      ensures var (s, o) := AfterRequest(old(Abs()), e, priority); Abs() == s && out == old(out) + o
    {
      if inUse < capacity {
        inUse := inUse + 1;
        out := out + [Grant(e, priority)];
      } else {
        var n := Ranked(priority, nextSeq, e);
        nextSeq := nextSeq + 1;
        head := InsertSorted(head, n);
        queueLen := queueLen + 1;
      }
    }

    method Release(e: EventId, processed: bool)
      requires Valid()
      modifies this
      ensures Valid()
      ensures var (s, o) := AfterRelease(old(Abs()), e, processed); Abs() == s && out == old(out) + o
    {
      if inUse == 0 { return; }
      if head != [] {
        var n := head[0];
        head := head[1..];
        queueLen := queueLen - 1;
        out := out + [Grant(n.body, n.priority)];
      } else {
        inUse := inUse - 1;
      }
      if processed {
        out := out + [Pool(e)];
      }
    }
  }

  // ---------- histories ----------

  datatype Op = Request(e: EventId, priority: int) | Release(e: EventId, processed: bool)

  function Do(s: State, op: Op): (State, seq<Out>) {
    match op
    case Request(e, priority) => AfterRequest(s, e, priority)
    case Release(e, processed) => AfterRelease(s, e, processed)
  }

  function Run(capacity: int, ops: seq<Op>): (State, seq<Out>) {
    if ops == [] then (State(capacity, 0, [], 0), [])
    else
      var (s, o) := Run(capacity, ops[..|ops| - 1]);
      var (s', o') := Do(s, ops[|ops| - 1]);
      (s', o + o')
  }

  /** The requests made with their priorities, and those granted, with multiplicity. */
  function Requested(op: Op): multiset<(EventId, int)> {
    if op.Request? then multiset{(op.e, op.priority)} else multiset{}
  }

  function GrantedBy(o: Out): multiset<(EventId, int)> {
    if o.Grant? then multiset{(o.e, o.priority)} else multiset{}
  }

  function Claimant(x: Ranked<EventId>): multiset<(EventId, int)> {
    multiset{(x.body, x.priority)}
  }

  function PooledBy(o: Out): seq<EventId> {
    if o.Pool? then [o.e] else []
  }

  function Requests(ops: seq<Op>): multiset<(EventId, int)> {
    Tally(ops, Requested)
  }

  function Granted(o: seq<Out>): multiset<(EventId, int)> {
    Tally(o, GrantedBy)
  }

  function Queued(q: seq<Ranked<EventId>>): multiset<(EventId, int)> {
    Tally(q, Claimant)
  }

  function Pooled(o: seq<Out>): seq<EventId> {
    Collect(o, PooledBy)
  }

  /** The releases that had something to release, by their requests: calls made while a slot was in use. */
  function Effective(capacity: int, ops: seq<Op>): seq<Op> {
    if ops == [] then []
    else
      var before, op := ops[..|ops| - 1], ops[|ops| - 1];
      Effective(capacity, before) + if op.Release? && Run(capacity, before).0.inUse != 0 then [op] else []
  }

  /** Those whose request had been processed. */
  function Reusable(op: Op): seq<EventId> {
    if op.Release? && op.processed then [op.e] else []
  }

  /** Never more slots in use than there are; nobody waits while one is free; the queue is sorted. */
  ghost predicate Ok(s: State) {
    && 0 <= s.inUse <= s.capacity
    && Sorted(s.queue) && Below(s.queue, s.nextSeq)
    && (s.queue != [] ==> s.inUse == s.capacity)
  }

  ghost predicate FirstInLine(q: seq<Ranked<EventId>>, e: EventId) {
    q != [] && e == q[0].body && forall j :: 1 <= j < |q| ==> Before(q[0], q[j])
  }

  /** One call, from a good state: still good; the request is granted or queued, with its priority, a release
      grants the waiter that comes first, slots are counted, and a released request is pooled if it can be. */
  lemma DoKeeps(s: State, op: Op)
    requires Ok(s) && s.capacity >= 1
    ensures var (s', o) := Do(s, op); var eff := if op.Release? && s.inUse != 0 then [op] else [];
            && Ok(s') && s'.capacity == s.capacity
            && Queued(s.queue) + Requested(op) == Queued(s'.queue) + Granted(o)
            && s'.inUse + |eff| == s.inUse + |Granted(o)|
            && Pooled(o) == Collect(eff, Reusable)
            && (op.Release? ==> forall i :: 0 <= i < |o| && o[i].Grant? ==> FirstInLine(s.queue, o[i].e))
  {
    match op
    case Request(e, priority) => RequestKeeps(s, e, priority);
    case Release(e, processed) => ReleaseKeeps(s, e, processed);
  }

  lemma RequestKeeps(s: State, e: EventId, priority: int)
    requires Ok(s) && s.capacity >= 1
    ensures var (s', o) := AfterRequest(s, e, priority);
            && Ok(s') && s'.capacity == s.capacity
            && Queued(s.queue) + multiset{(e, priority)} == Queued(s'.queue) + Granted(o)
            && s'.inUse == s.inUse + |Granted(o)| && Pooled(o) == []
  {
    var x := Ranked(priority, s.nextSeq, e);
    hide Granted, Queued, Pooled, Insert, Sorted;
    InsertKeeps(s.queue, x);
    QueuedInsert(s.queue, x);
    OutsFew(e, priority, e);
  }

  lemma QueuedInsert(q: seq<Ranked<EventId>>, x: Ranked<EventId>)
    ensures Queued(Insert(q, x)) == Queued(q) + multiset{(x.body, x.priority)}
  {
    TallyInsert(q, Place(q, x), x, Claimant);
  }

  lemma ReleaseKeeps(s: State, e: EventId, processed: bool)
    requires Ok(s) && s.capacity >= 1
    ensures var (s', o) := AfterRelease(s, e, processed);
            var eff := if s.inUse != 0 then [Release(e, processed)] else [];
            && Ok(s') && s'.capacity == s.capacity
            && Queued(s.queue) == Queued(s'.queue) + Granted(o)
            && s'.inUse + |eff| == s.inUse + |Granted(o)|
            && Pooled(o) == Collect(eff, Reusable)
            && forall i :: 0 <= i < |o| && o[i].Grant? ==> FirstInLine(s.queue, o[i].e)
  {
    hide Granted, Queued, Pooled, Collect;
    CollectFew(Release(e, processed), Release(e, processed), Reusable);
    OutsFew(e, 0, e);
    var pooled: seq<Out> := if processed then [Pool(e)] else [];
    if s.queue != [] {
      var first := s.queue[0];
      var grant := Grant(first.body, first.priority);
      TailKeeps(s.queue, s.nextSeq);
      QueuedFirst(s.queue);
      OutsFew(first.body, first.priority, e);
      assert [grant] + pooled == if processed then [grant, Pool(e)] else [grant];
    }
  }

  lemma QueuedFirst(q: seq<Ranked<EventId>>)
    requires q != []
    ensures Queued(q) == multiset{(q[0].body, q[0].priority)} + Queued(q[1..])
  {
    TallyFirst(q, Claimant);
  }

  lemma OutsFew(e: EventId, priority: int, f: EventId)
    ensures Granted([]) == multiset{} && Granted([Pool(f)]) == multiset{}
    ensures Granted([Grant(e, priority)]) == Granted([Grant(e, priority), Pool(f)]) == multiset{(e, priority)}
    ensures Pooled([]) == Pooled([Grant(e, priority)]) == [] && Pooled([Pool(f)]) == Pooled([Grant(e, priority), Pool(f)]) == [f]
  {
    TallyFew(Grant(e, priority), Pool(f), GrantedBy);
    TallyFew(Pool(f), Pool(f), GrantedBy);
    CollectFew(Grant(e, priority), Pool(f), PooledBy);
    CollectFew(Pool(f), Pool(f), PooledBy);
  }

  /** After any calls on a resource of at least one slot: the invariant holds; every request, with the priority it
      was made with, has been granted or is queued, none twice; the slots in use are the grants less the
      effective releases; and exactly the requests of those that had been processed are pooled, in order. */
  lemma {:induction false} Accounted(capacity: int, ops: seq<Op>)
    requires capacity >= 1
    ensures var (s, o) := Run(capacity, ops);
            && Ok(s) && s.capacity == capacity
            && Requests(ops) == Queued(s.queue) + Granted(o)
            && s.inUse == |Granted(o)| - |Effective(capacity, ops)|
            && Pooled(o) == Collect(Effective(capacity, ops), Reusable)
  {
    if ops != [] {
      var before, op := ops[..|ops| - 1], ops[|ops| - 1];
      Accounted(capacity, before);
      var (s, o) := Run(capacity, before);
      DoKeeps(s, op);
      var (s', o') := Do(s, op);
      TallyAppend(o, o', GrantedBy);
      CollectAppend(o, o', PooledBy);
      CollectAppend(Effective(capacity, before), if op.Release? && s.inUse != 0 then [op] else [], Reusable);
      hide Ok, Do, Granted, Queued, Requested, Pooled, Collect;
      Adds(Requests(before), Requested(op), Queued(s.queue), Granted(o), Queued(s'.queue), Granted(o'));
    }
  }

  // ---------- who is served, in terms of the calls ----------

  /** The calls that had to wait, by their number, in order. */
  function Waits(capacity: int, ops: seq<Op>): seq<nat> {
    if ops == [] then []
    else
      var before := ops[..|ops| - 1];
      Waits(capacity, before) +
      if ops[|ops| - 1].Request? && Run(capacity, before).0.inUse >= capacity then [|before|] else []
  }

  /** `x` stands for call `i`: it has the event and the priority of that call. */
  predicate StandsFor(ops: seq<Op>, i: nat, x: Ranked<EventId>) {
    i < |ops| && ops[i] == Op.Request(x.body, x.priority)
  }

  ghost predicate Tied(ops: seq<Op>, s: State, w: seq<nat>) {
    && |w| == s.nextSeq
    && (forall i, j :: 0 <= i < j < |w| ==> w[i] < w[j])
    && (forall i :: 0 <= i < |w| ==> w[i] < |ops|)
    && (forall t :: 0 <= t < |s.queue| ==> s.queue[t].seqNo < |w| && StandsFor(ops, w[s.queue[t].seqNo], s.queue[t]))
  }

  lemma {:induction false} WaitersTied(capacity: int, ops: seq<Op>)
    requires capacity >= 1
    ensures Tied(ops, Run(capacity, ops).0, Waits(capacity, ops))
  {
    if ops != [] {
      var before, op := ops[..|ops| - 1], ops[|ops| - 1];
      WaitersTied(capacity, before);
      Accounted(capacity, before);
      var s := Run(capacity, before).0;
      TiedStep(before, op, s, Waits(capacity, before));
      assert before + [op] == ops;
    }
  }

  lemma TiedStep(before: seq<Op>, op: Op, s: State, w: seq<nat>)
    requires Tied(before, s, w) && Ok(s)
    ensures Tied(before + [op], Do(s, op).0, w + if op.Request? && s.inUse >= s.capacity then [|before|] else [])
  {
    var s' := Do(s, op).0;
    if op.Request? && s.inUse >= s.capacity {
      var x := Ranked(op.priority, s.nextSeq, op.e);
      forall t | 0 <= t < |s'.queue| ensures s'.queue[t] == x || s'.queue[t] in s.queue {
        InsertAt(s.queue, x, t);
      }
    }
  }

  /** The numbers of the calls that wait, first in line first. */
  function Line(capacity: int, ops: seq<Op>): seq<nat>
    requires capacity >= 1
  {
    WaitersTied(capacity, ops);
    var s, w := Run(capacity, ops).0, Waits(capacity, ops);
    seq(|s.queue|, t requires 0 <= t < |s.queue| => w[s.queue[t].seqNo])
  }

  /** Call `i` goes before call `j`: by the priorities they were made with, and among equals by their order. */
  predicate Precedes(ops: seq<Op>, i: nat, j: nat)
    requires i < |ops| && j < |ops| && ops[i].Request? && ops[j].Request?
  {
    ops[i].priority < ops[j].priority || (ops[i].priority == ops[j].priority && i < j)
  }

  /** An effective release with calls waiting grants exactly the one, of those waiting, with the least priority,
      the first made among equals, and leaves the others. */
  lemma {:induction false} ReleaseServesFirst(capacity: int, ops: seq<Op>, e: EventId, processed: bool)
    requires capacity >= 1 && Line(capacity, ops) != []
    ensures var line := Line(capacity, ops);
            && (forall t :: 0 <= t < |line| ==> line[t] < |ops| && ops[line[t]].Request?)
            && (forall t :: 1 <= t < |line| ==> Precedes(ops, line[0], line[t]))
            && Line(capacity, ops + [Release(e, processed)]) == line[1..]
            && AfterRelease(Run(capacity, ops).0, e, processed).1 ==
               [Grant(ops[line[0]].e, ops[line[0]].priority)] + if processed then [Pool(e)] else []
  {
    var s := Run(capacity, ops).0;
    Accounted(capacity, ops);
    WaitersTied(capacity, ops);
    var more := ops + [Release(e, processed)];
    assert more[..|ops|] == ops;
    var line := Line(capacity, ops);
    forall t | 1 <= t < |line| ensures Precedes(ops, line[0], line[t]) {
      assert Before(s.queue[0], s.queue[t]);
    }
    assert Run(capacity, more).0.queue == s.queue[1..] && Waits(capacity, more) == Waits(capacity, ops);
  }
}
