/** A resource whose holders can be evicted by requests of strictly better priority. Smaller values are
    better. */
module PreemptiveResources {
  import opened Bags
  import opened K = Kernel
  import opened RankedLists

  /** `since` numbers the grants; the source has no such field, and nothing branches on it. */
  datatype Holder = Holder(req: EventId, owner: Option<ProcId>, priority: int, since: nat)

  datatype Claim = Claim(req: EventId, owner: Option<ProcId>, preempt: bool)

  /** Grant: the request becomes a holder. Freed: a release took the request off the holders; nothing of it
      reaches the kernel. */
  datatype Out = Grant(h: Holder) | Evict(h: Holder, winner: EventId) | Freed(h: Holder) | Pool(req: EventId)

  datatype State = State(
    capacity: int, inUse: int, holders: seq<Holder>, waiters: seq<Ranked<Claim>>, nextSeq: nat, grants: nat)

  /** find_weakest: the first holder in the list, newest first, with the largest priority value. */
  function Weakest(hs: seq<Holder>): (i: nat)
    requires hs != []
    ensures i < |hs|
    ensures forall j :: 0 <= j < |hs| ==> hs[j].priority <= hs[i].priority
    ensures forall j :: 0 <= j < i ==> hs[j].priority < hs[i].priority
  {
    if |hs| == 1 then 0
    else
      var i := 1 + Weakest(hs[1..]);
      if hs[0].priority >= hs[i].priority then 0 else i
  }

  /** The holder that a grant made now adds. */
  function NewHolder(s: State, req: EventId, owner: Option<ProcId>, priority: int): Holder {
    Holder(req, owner, priority, s.grants)
  }

  function AddHolder(s: State, req: EventId, owner: Option<ProcId>, priority: int): State {
    s.(holders := [NewHolder(s, req, owner, priority)] + s.holders, inUse := s.inUse + 1, grants := s.grants + 1)
  }

  function Without<T>(s: seq<T>, i: nat): seq<T>
    requires i < |s|
  {
    s[..i] + s[i + 1..]
  }

  predicate Preempts(s: State, priority: int, preempt: bool) {
    preempt && s.holders != [] && s.holders[Weakest(s.holders)].priority > priority
  }

  /** sim_preemptive_resource_request, with the event just allocated for it. */
  function AfterRequest(s: State, req: EventId, owner: Option<ProcId>, priority: int, preempt: bool)
    : (State, seq<Out>)
  {
    if s.inUse < s.capacity then (AddHolder(s, req, owner, priority), [Grant(NewHolder(s, req, owner, priority))])
    else if Preempts(s, priority, preempt) then
      var i := Weakest(s.holders);
      (AddHolder(s.(holders := Without(s.holders, i), inUse := s.inUse - 1), req, owner, priority),
       [Grant(NewHolder(s, req, owner, priority)), Evict(s.holders[i], req)])
    else
      (s.(waiters := Insert(s.waiters, Ranked(priority, s.nextSeq, Claim(req, owner, preempt))),
          nextSeq := s.nextSeq + 1), [])
  }

  /** The place of `req` among the holders, or the length. */
  function Find(hs: seq<Holder>, req: EventId): (i: nat)
    ensures i <= |hs|
    ensures i < |hs| ==> hs[i].req == req
    ensures forall j :: 0 <= j < i ==> hs[j].req != req
  {
    if hs == [] || hs[0].req == req then 0 else 1 + Find(hs[1..], req)
  }

  /** The holder list after a release, and whether a slot was freed. */
  function Vacate(s: State, req: EventId): (State, seq<Out>) {
    var i := Find(s.holders, req);
    if i == |s.holders| then (s, [])
    else (s.(holders := Without(s.holders, i), inUse := s.inUse - 1), [Freed(s.holders[i])])
  }

  /** A waiter is let in, if a slot is free. */
  function LetIn(s: State): (State, seq<Out>) {
    if s.inUse < s.capacity && s.waiters != [] then
      var w := s.waiters[0];
      (AddHolder(s.(waiters := s.waiters[1..]), w.body.req, w.body.owner, w.priority),
       [Grant(NewHolder(s, w.body.req, w.body.owner, w.priority))])
    else (s, [])
  }

  /** sim_preemptive_resource_release; `processed` says whether the request's event has been. */
  function AfterRelease(s: State, req: EventId, processed: bool): (State, seq<Out>) {
    var (s1, o1) := Vacate(s, req);
    var (s2, o2) := LetIn(s1);
    (s2, o1 + o2 + if processed then [Pool(req)] else [])
  }

  /** The calls an output makes on the kernel: the grant succeeds the request's event; the owner of an
      evicted request, if it is known, is interrupted with the new request as the cause. */
  function Calls(o: Out, addr: Value): seq<Cmd> {
    match o
    case Grant(h) => [Succeed(h.req, addr)]
    case Evict(h, winner) => if h.owner.Some? then [Interrupt(h.owner.value, winner)] else []
    case Freed(_) => []
    case Pool(req) => [Recycle(req)]
  }

  class PreemptiveResource {
    const capacity: int
    var inUse: int
    var queueLen: int
    var holders: seq<Holder>
    var waiters: seq<Ranked<Claim>>
    var nextSeq: nat
    var out: seq<Out>
    var granted: nat   // how many grants so far; see `since`

    ghost predicate Valid()
      reads this
    {
      queueLen == |waiters|
    }

    ghost function Abs(): State
      reads this
    {
      State(capacity, inUse, holders, waiters, nextSeq, granted)
    }

    constructor (capacity: int)
      ensures Valid() && Abs() == State(capacity, 0, [], [], 0, 0) && out == []
    {
      this.capacity := capacity;
      inUse, queueLen, holders, waiters, nextSeq, out := 0, 0, [], [], 0, [];
      granted := 0;
    }

    method InsertWaiter(w: Ranked<Claim>)
      modifies this`waiters, this`queueLen
      ensures waiters == Insert(old(waiters), w) && queueLen == old(queueLen) + 1
    {
      waiters := InsertSorted(waiters, w);
      queueLen := queueLen + 1;
    }

    /** The scan over the holders; `found` is false when there are none. */
    method FindWeakest() returns (found: bool, weakest: nat)
      ensures found == (holders != [])
      ensures found ==> weakest == Weakest(holders)
    {
      found, weakest := false, 0;
      var i := 0;
      while i < |holders|
        invariant 0 <= i <= |holders| && found == (i > 0)
        invariant found ==> weakest < i
        invariant found ==> forall j :: 0 <= j < i ==> holders[j].priority <= holders[weakest].priority
        invariant found ==> forall j :: 0 <= j < weakest ==> holders[j].priority < holders[weakest].priority
      {
        if !found || holders[i].priority > holders[weakest].priority {
          found, weakest := true, i;
        }
        i := i + 1;
      }
      if found { WeakestIsOne(holders, weakest); }
    }

    method Add(req: EventId, owner: Option<ProcId>, priority: int)
      modifies this`holders, this`inUse, this`granted, this`out
      ensures Abs() == AddHolder(old(Abs()), req, owner, priority)
      ensures out == old(out) + [Grant(NewHolder(old(Abs()), req, owner, priority))]
    {
      var h := Holder(req, owner, priority, granted);
      holders := [h] + holders;
      inUse := inUse + 1;
      granted := granted + 1;
      out := out + [Grant(h)];
    }

    method Request(req: EventId, owner: Option<ProcId>, priority: int, preempt: bool)
      requires Valid()
      modifies this
      ensures Valid()
      ensures var (s, o) := AfterRequest(old(Abs()), req, owner, priority, preempt); Abs() == s && out == old(out) + o
    {
      if inUse < capacity {
        Add(req, owner, priority);
        return;
      }
      if preempt {
        var found, i := FindWeakest();
        if found && holders[i].priority > priority {
          TakeOver(i, req, owner, priority);
          return;
        }
      }
      var w := Ranked(priority, nextSeq, Claim(req, owner, preempt));
      nextSeq := nextSeq + 1;
      InsertWaiter(w);
    }

    /** The holder at place `i` is evicted in favour of the new request. */
    method TakeOver(i: nat, req: EventId, owner: Option<ProcId>, priority: int)
      requires i < |holders|
      modifies this`holders, this`inUse, this`granted, this`out
      ensures Abs() == AddHolder(old(Abs()).(holders := Without(old(holders), i), inUse := old(inUse) - 1), req, owner, priority)
      ensures out == old(out) + [Grant(NewHolder(old(Abs()), req, owner, priority)), Evict(old(holders)[i], req)]
    {
      var victim := holders[i];
      holders := holders[..i] + holders[i + 1..];
      inUse := inUse - 1;
      Add(req, owner, priority);
      out := out + [Evict(victim, req)];
    }

    method Release(req: EventId, processed: bool)
      requires Valid()
      modifies this
      ensures Valid()
      ensures var (s, o) := AfterRelease(old(Abs()), req, processed); Abs() == s && out == old(out) + o
    {
      GiveUp(req);
      LetWaiterIn();
      if processed {
        out := out + [Pool(req)];
      }
    }

    /** The scan for the holder with the request `req`. */
    method FindHolder(req: EventId) returns (i: nat)
      ensures i == Find(holders, req)
    {
      i := 0;
      while i < |holders| && holders[i].req != req
        invariant 0 <= i <= |holders|
        invariant Find(holders, req) == i + Find(holders[i..], req)
      {
        i := i + 1;
      }
    }

    /** The holder with the request `req` leaves, if there is one. */
    method GiveUp(req: EventId)
      requires Valid()
      modifies this`holders, this`inUse, this`out
      ensures Valid()
      ensures var (s, o) := Vacate(old(Abs()), req); Abs() == s && out == old(out) + o
    {
      var i := FindHolder(req);
      if i < |holders| {
        out := out + [Freed(holders[i])];
        holders := holders[..i] + holders[i + 1..];
        inUse := inUse - 1;
      }
    }

    /** The first waiter takes the slot, if one is free. */
    method LetWaiterIn()
      requires Valid()
      modifies this
      ensures Valid()
      ensures var (s, o) := LetIn(old(Abs())); Abs() == s && out == old(out) + o
    {
      if inUse < capacity && waiters != [] {
        var w := waiters[0];
        waiters := waiters[1..];
        queueLen := queueLen - 1;
        Add(w.body.req, w.body.owner, w.priority);
      }
    }
  }

  lemma WeakestIsOne(hs: seq<Holder>, i: nat)
    requires i < |hs|
    requires forall j :: 0 <= j < |hs| ==> hs[j].priority <= hs[i].priority
    requires forall j :: 0 <= j < i ==> hs[j].priority < hs[i].priority
    ensures i == Weakest(hs)
  {
    var w := Weakest(hs);
    assert hs[w].priority == hs[i].priority;
  }

  // ---------- what holds after every call ----------

  /** Slots are counted; the waiters are sorted; nobody waits while a slot is free. */
  ghost predicate Counted(s: State) {
    && s.inUse == |s.holders| <= s.capacity
    && Sorted(s.waiters) && Below(s.waiters, s.nextSeq)
    && (s.waiters != [] ==> s.inUse == s.capacity)
  }

  /** The holders are listed newest first. */
  ghost predicate NewestFirst(s: State) {
    && (forall i, j :: 0 <= i < j < |s.holders| ==> s.holders[i].since > s.holders[j].since)
    && (forall i :: 0 <= i < |s.holders| ==> s.holders[i].since < s.grants)
  }

  /** No waiting request that may preempt strictly outranks a holder. */
  ghost predicate NoInversion(s: State) {
    forall i, j :: 0 <= i < |s.waiters| && 0 <= j < |s.holders| && s.waiters[i].body.preempt ==>
      s.holders[j].priority <= s.waiters[i].priority
  }

  ghost predicate Ok(s: State) {
    Counted(s) && NewestFirst(s) && NoInversion(s)
  }

  lemma {:induction false} RequestKeeps(s: State, req: EventId, owner: Option<ProcId>, priority: int, preempt: bool)
    requires Ok(s) && s.capacity >= 1
    ensures Ok(AfterRequest(s, req, owner, priority, preempt).0)
  {
    if s.inUse < s.capacity {
    } else if Preempts(s, priority, preempt) {
      EvictKeeps(s, req, owner, priority);
    } else {
      QueueKeeps(s, Ranked(priority, s.nextSeq, Claim(req, owner, preempt)));
    }
  }

  lemma EvictKeeps(s: State, req: EventId, owner: Option<ProcId>, priority: int)
    requires Ok(s) && s.inUse == s.capacity && Preempts(s, priority, true)
    ensures Ok(AfterRequest(s, req, owner, priority, true).0)
  {
    var i := Weakest(s.holders);
    hide Weakest;
    var s' := AfterRequest(s, req, owner, priority, true).0;
    forall a, b | 0 <= a < |s'.waiters| && 0 <= b < |s'.holders| && s'.waiters[a].body.preempt
      ensures s'.holders[b].priority <= s'.waiters[a].priority {
      assert s.holders[i].priority <= s.waiters[a].priority;
      if b > 0 { assert s'.holders[b] == Without(s.holders, i)[b - 1]; }
    }
  }

  lemma QueueKeeps(s: State, w: Ranked<Claim>)
    requires Ok(s) && s.inUse == s.capacity && w.seqNo == s.nextSeq
    requires w.body.preempt ==> s.holders != [] && s.holders[Weakest(s.holders)].priority <= w.priority
    ensures Ok(s.(waiters := Insert(s.waiters, w), nextSeq := s.nextSeq + 1))
  {
    InsertKeeps(s.waiters, w);
    var q := Insert(s.waiters, w);
    forall a, b | 0 <= a < |q| && 0 <= b < |s.holders| && q[a].body.preempt
      ensures s.holders[b].priority <= q[a].priority {
      InsertAt(s.waiters, w, a);
    }
  }

  lemma VacateKeeps(s: State, req: EventId)
    requires Ok(s)
    ensures var s1 := Vacate(s, req).0;
            && s1.inUse == |s1.holders| <= s1.capacity && NewestFirst(s1) && NoInversion(s1)
            && s1.waiters == s.waiters && s1.nextSeq == s.nextSeq && s1.capacity == s.capacity
            && (s1.waiters != [] ==> s1.inUse >= s1.capacity - 1)
  {
    var i := Find(s.holders, req);
    if i < |s.holders| {
      var hs := Without(s.holders, i);
      assert forall j :: 0 <= j < |hs| ==> hs[j] == if j < i then s.holders[j] else s.holders[j + 1];
    }
  }

  lemma LetInKeeps(s: State)
    requires s.inUse == |s.holders| <= s.capacity && NewestFirst(s) && NoInversion(s)
    requires Sorted(s.waiters) && Below(s.waiters, s.nextSeq)
    requires s.waiters != [] ==> s.inUse >= s.capacity - 1
    ensures Ok(LetIn(s).0)
  {
    if s.inUse < s.capacity && s.waiters != [] {
      TailKeeps(s.waiters, s.nextSeq);
      var s' := LetIn(s).0;
      forall a, b | 0 <= a < |s'.waiters| && 0 <= b < |s'.holders| && s'.waiters[a].body.preempt
        ensures s'.holders[b].priority <= s'.waiters[a].priority {
        assert s'.waiters[a] == s.waiters[a + 1] && Before(s.waiters[0], s.waiters[a + 1]);
      }
    }
  }

  lemma {:induction false} ReleaseKeeps(s: State, req: EventId, processed: bool)
    requires Ok(s)
    ensures Ok(AfterRelease(s, req, processed).0)
  {
    VacateKeeps(s, req);
    LetInKeeps(Vacate(s, req).0);
  }

  /** Each eviction takes the most recently granted of the holders with the largest priority value. */
  lemma {:induction false} EvictsWeakestNewest(s: State, req: EventId, owner: Option<ProcId>, priority: int, preempt: bool)
    requires Ok(s) && s.inUse == s.capacity && Preempts(s, priority, preempt)
    ensures var (s', o) := AfterRequest(s, req, owner, priority, preempt); var h := Holder(req, owner, priority, s.grants);
            && |o| == 2 && o[0] == Grant(h) && o[1].Evict? && o[1].winner == req
            && var v := o[1].h;
            && v in s.holders && v.priority > priority
            && (forall j :: 0 <= j < |s.holders| ==>
              s.holders[j].priority < v.priority || (s.holders[j].priority == v.priority && s.holders[j].since <= v.since))
            && multiset(s'.holders) == multiset(s.holders) - multiset{v} + multiset{h}
  {
    var i := Weakest(s.holders);
    var v := s.holders[i];
    Replaced(s.holders, i, Holder(req, owner, priority, s.grants));
    forall j | 0 <= j < |s.holders|
      ensures s.holders[j].priority < v.priority || (s.holders[j].priority == v.priority && s.holders[j].since <= v.since) {
      if j > i { assert s.holders[i].since > s.holders[j].since; }
    }
  }

  /** Which of the three a request does, in terms of the holders: it is granted at once if a slot is free; it
      evicts one of them if it may preempt and one has a larger priority value; and otherwise it waits. */
  lemma {:induction false} RequestDecides(s: State, req: EventId, owner: Option<ProcId>, priority: int, preempt: bool)
    requires Ok(s) && s.capacity >= 1
    ensures var (s', o) := AfterRequest(s, req, owner, priority, preempt); var h := Holder(req, owner, priority, s.grants);
            if |s.holders| < s.capacity then s'.holders == [h] + s.holders && s'.waiters == s.waiters && o == [Grant(h)]
            else if preempt && exists v :: v in s.holders && v.priority > priority then
              && |o| == 2 && o[0] == Grant(h) && o[1].Evict? && o[1].winner == req && o[1].h in s.holders
              && s'.waiters == s.waiters && h in s'.holders
            else
              && s'.holders == s.holders && o == []
              && multiset(s'.waiters) == multiset(s.waiters) + multiset{Ranked(priority, s.nextSeq, Claim(req, owner, preempt))}
  {
    if |s.holders| >= s.capacity && !Preempts(s, priority, preempt) {
      InsertKeeps(s.waiters, Ranked(priority, s.nextSeq, Claim(req, owner, preempt)));
    }
  }

  /** A release of a held request takes exactly that one off, and lets the first waiter in if there is one; and
      then it pools the request, if that had been processed. */
  lemma {:induction false} ReleaseOfHeld(s: State, req: EventId, processed: bool, i: nat)
    requires Ok(s) && i < |s.holders| && s.holders[i].req == req && forall j :: 0 <= j < i ==> s.holders[j].req != req
    ensures var (s', o) := AfterRelease(s, req, processed); var rest := s.holders[..i] + s.holders[i + 1..];
            var pooled: seq<Out> := if processed then [Pool(req)] else [];
            if s.waiters == [] then
              s' == s.(holders := rest, inUse := s.inUse - 1) && o == [Freed(s.holders[i])] + pooled
            else
              var w := s.waiters[0]; var h := Holder(w.body.req, w.body.owner, w.priority, s.grants);
              && s' == s.(holders := [h] + rest, waiters := s.waiters[1..], grants := s.grants + 1)
              && o == [Freed(s.holders[i]), Grant(h)] + pooled
  {
    FindIs(s.holders, req, i);
    hide Find;
    var none: seq<Out> := [];
    assert [Freed(s.holders[i])] + none == [Freed(s.holders[i])];
  }

  lemma {:induction false} FindIs(hs: seq<Holder>, req: EventId, i: nat)
    requires i < |hs| && hs[i].req == req && forall j :: 0 <= j < i ==> hs[j].req != req
    ensures Find(hs, req) == i
  {
  }

  lemma Replaced(hs: seq<Holder>, i: nat, h: Holder)
    requires i < |hs|
    ensures multiset([h] + Without(hs, i)) == multiset(hs) - multiset{hs[i]} + multiset{h}
  {
    assert hs == hs[..i] + [hs[i]] + hs[i + 1..];
  }

  /** Releasing a request that is not held (it was evicted, or still waits) frees no slot and grants none. */
  lemma ReleaseOfOther(s: State, req: EventId, processed: bool)
    requires Ok(s) && forall i :: 0 <= i < |s.holders| ==> s.holders[i].req != req
    ensures AfterRelease(s, req, processed) == (s, if processed then [Pool(req)] else [])
  {
    assert Find(s.holders, req) == |s.holders|;
    var o: seq<Out> := [];
    assert forall pooled: seq<Out> :: o + o + pooled == pooled;
  }

  // ---------- histories ----------

  datatype Op =
    | Request(req: EventId, owner: Option<ProcId>, priority: int, preempt: bool)
    | Release(req: EventId, processed: bool)

  function Do(s: State, op: Op): (State, seq<Out>) {
    match op
    case Request(req, owner, priority, preempt) => AfterRequest(s, req, owner, priority, preempt)
    case Release(req, processed) => AfterRelease(s, req, processed)
  }

  function Run(capacity: int, ops: seq<Op>): (State, seq<Out>) {
    if ops == [] then (State(capacity, 0, [], [], 0, 0), [])
    else
      var (s, o) := Run(capacity, ops[..|ops| - 1]);
      var (s', o') := Do(s, ops[|ops| - 1]);
      (s', o + o')
  }

  /** A request as it was made: its event, the process it is for, its priority. */
  datatype Mark = Mark(req: EventId, owner: Option<ProcId>, priority: int)

  function MarkOf(h: Holder): Mark {
    Mark(h.req, h.owner, h.priority)
  }

  /** Requests, with multiplicity: made, holding, waiting, evicted, released, and gone one way or the other. */
  function Requested(op: Op): multiset<Mark> {
    if op.Request? then multiset{Mark(op.req, op.owner, op.priority)} else multiset{}
  }

  function HeldBy(h: Holder): multiset<Mark> {
    multiset{MarkOf(h)}
  }

  function WaitedBy(w: Ranked<Claim>): multiset<Mark> {
    multiset{Mark(w.body.req, w.body.owner, w.priority)}
  }

  function EvictedBy(o: Out): multiset<Mark> {
    if o.Evict? then multiset{MarkOf(o.h)} else multiset{}
  }

  function ReleasedBy(o: Out): multiset<Mark> {
    if o.Freed? then multiset{MarkOf(o.h)} else multiset{}
  }

  function GrantedBy(o: Out): multiset<Mark> {
    if o.Grant? then multiset{MarkOf(o.h)} else multiset{}
  }

  function PooledBy(o: Out): seq<EventId> {
    if o.Pool? then [o.req] else []
  }

  /** The requests given back by the calls, those that had been processed. */
  function Reusable(op: Op): seq<EventId> {
    if op.Release? && op.processed then [op.req] else []
  }

  function Requests(ops: seq<Op>): multiset<Mark> {
    Tally(ops, Requested)
  }

  function Holding(hs: seq<Holder>): multiset<Mark> {
    Tally(hs, HeldBy)
  }

  function Waiting(q: seq<Ranked<Claim>>): multiset<Mark> {
    Tally(q, WaitedBy)
  }

  function Evicted(o: seq<Out>): multiset<Mark> {
    Tally(o, EvictedBy)
  }

  function Released(o: seq<Out>): multiset<Mark> {
    Tally(o, ReleasedBy)
  }

  function Gone(o: seq<Out>): multiset<Mark> {
    Evicted(o) + Released(o)
  }

  function Granted(o: seq<Out>): multiset<Mark> {
    Tally(o, GrantedBy)
  }

  function Pooled(o: seq<Out>): seq<EventId> {
    Collect(o, PooledBy)
  }

  function Live(s: State): multiset<Mark> {
    Holding(s.holders) + Waiting(s.waiters)
  }

  /** From `s` to `s'` with the new call `op`, handing out `o`: each request is still in exactly one place, those
      that hold or held are those granted, and released requests are pooled if they can be. */
  ghost predicate Accounts(s: State, op: Op, s': State, o: seq<Out>) {
    && Live(s) + Requested(op) == Live(s') + Gone(o)
    && Holding(s.holders) + Granted(o) == Holding(s'.holders) + Gone(o)
    && Pooled(o) == Reusable(op)
  }

  lemma OutsAppend(a: seq<Out>, b: seq<Out>)
    ensures Gone(a + b) == Gone(a) + Gone(b)
    ensures Granted(a + b) == Granted(a) + Granted(b)
    ensures Pooled(a + b) == Pooled(a) + Pooled(b)
  {
    TallyAppend(a, b, EvictedBy);
    TallyAppend(a, b, ReleasedBy);
    TallyAppend(a, b, GrantedBy);
    CollectAppend(a, b, PooledBy);
  }

  lemma OneOut(a: Out)
    ensures Gone([]) == multiset{} && Gone([a]) == EvictedBy(a) + ReleasedBy(a)
    ensures Granted([]) == multiset{} && Granted([a]) == GrantedBy(a)
    ensures Pooled([]) == [] && Pooled([a]) == PooledBy(a)
  {
    TallyFew(a, a, EvictedBy);
    TallyFew(a, a, ReleasedBy);
    TallyFew(a, a, GrantedBy);
    CollectFew(a, a, PooledBy);
    hide Tally, Collect, EvictedBy, ReleasedBy, GrantedBy, PooledBy;
  }

  lemma HoldingWithout(hs: seq<Holder>, i: nat)
    requires i < |hs|
    ensures Holding(hs) == Holding(Without(hs, i)) + multiset{MarkOf(hs[i])}
  {
    TallyRemove(hs, i, HeldBy);
  }

  lemma AddHolding(s: State, req: EventId, owner: Option<ProcId>, priority: int)
    ensures Holding(AddHolder(s, req, owner, priority).holders) == multiset{Mark(req, owner, priority)} + Holding(s.holders)
  {
    var hs := AddHolder(s, req, owner, priority).holders;
    TallyFirst(hs, HeldBy);
    assert hs[1..] == s.holders;
  }

  lemma WaitingInsert(q: seq<Ranked<Claim>>, x: Ranked<Claim>)
    ensures Waiting(Insert(q, x)) == Waiting(q) + multiset{Mark(x.body.req, x.body.owner, x.priority)}
  {
    TallyInsert(q, Place(q, x), x, WaitedBy);
  }

  lemma WaitingFirst(q: seq<Ranked<Claim>>)
    requires q != []
    ensures Waiting(q) == multiset{Mark(q[0].body.req, q[0].body.owner, q[0].priority)} + Waiting(q[1..])
  {
    TallyFirst(q, WaitedBy);
  }

  lemma EvictAccounts(s: State, req: EventId, owner: Option<ProcId>, priority: int)
    requires s.inUse >= s.capacity && Preempts(s, priority, true)
    ensures var (s', o) := AfterRequest(s, req, owner, priority, true); Accounts(s, Op.Request(req, owner, priority, true), s', o)
  {
    hide Holding, Waiting, Gone, Granted, Pooled;
    var i := Weakest(s.holders);
    var h := s.holders[i];
    var g, v := Grant(NewHolder(s, req, owner, priority)), Evict(h, req);
    HoldingWithout(s.holders, i);
    AddHolding(s.(holders := Without(s.holders, i), inUse := s.inUse - 1), req, owner, priority);
    OneOut(g);
    OneOut(v);
    OutsAppend([g], [v]);
    assert [g] + [v] == [g, v];
    Swap(Holding(s.holders), Holding(Without(s.holders, i)), Waiting(s.waiters), MarkOf(h), Mark(req, owner, priority));
  }

  lemma Swap(all: multiset<Mark>, rest: multiset<Mark>, other: multiset<Mark>, x: Mark, y: Mark)
    requires all == rest + multiset{x}
    ensures (all + other) + multiset{y} == ((multiset{y} + rest) + other) + multiset{x}
    ensures all + multiset{y} == (multiset{y} + rest) + multiset{x}
  {
  }

  lemma RequestAccounts(s: State, req: EventId, owner: Option<ProcId>, priority: int, preempt: bool)
    ensures var (s', o) := AfterRequest(s, req, owner, priority, preempt);
            Accounts(s, Op.Request(req, owner, priority, preempt), s', o)
  {
    hide Holding, Waiting, Gone, Granted, Pooled;
    OneOut(Grant(NewHolder(s, req, owner, priority)));
    if s.inUse < s.capacity {
      AddHolding(s, req, owner, priority);
    } else if Preempts(s, priority, preempt) {
      EvictAccounts(s, req, owner, priority);
    } else {
      var w := Ranked(priority, s.nextSeq, Claim(req, owner, preempt));
      WaitingInsert(s.waiters, w);
      hide Insert;
    }
  }

  lemma VacateAccounts(s: State, req: EventId)
    ensures var (s', o) := Vacate(s, req); Live(s) == Live(s') + Gone(o) && Holding(s.holders) == Holding(s'.holders) + Gone(o)
    ensures Granted(Vacate(s, req).1) == multiset{} && Pooled(Vacate(s, req).1) == []
  {
    hide Holding, Waiting, Gone, Granted, Pooled;
    var i := Find(s.holders, req);
    OneOut(Freed(Holder(req, None, 0, 0)));
    if i < |s.holders| {
      HoldingWithout(s.holders, i);
      OneOut(Freed(s.holders[i]));
    }
  }

  lemma LetInAccounts(s: State)
    ensures var (s', o) := LetIn(s); Live(s) == Live(s') && Holding(s.holders) + Granted(o) == Holding(s'.holders)
    ensures Gone(LetIn(s).1) == multiset{} && Pooled(LetIn(s).1) == []
  {
    hide Holding, Waiting, Gone, Granted, Pooled;
    OneOut(Grant(NewHolder(s, 0, None, 0)));
    if s.inUse < s.capacity && s.waiters != [] {
      var w := s.waiters[0];
      AddHolding(s.(waiters := s.waiters[1..]), w.body.req, w.body.owner, w.priority);
      WaitingFirst(s.waiters);
      OneOut(Grant(NewHolder(s, w.body.req, w.body.owner, w.priority)));
    }
  }

  lemma ReleaseAccounts(s: State, req: EventId, processed: bool)
    ensures var (s', o) := AfterRelease(s, req, processed); Accounts(s, Op.Release(req, processed), s', o)
  {
    var (s1, o1) := Vacate(s, req);
    var (s2, o2) := LetIn(s1);
    var o3: seq<Out> := if processed then [Pool(req)] else [];
    VacateAccounts(s, req);
    LetInAccounts(s1);
    OutsAppend(o1, o2);
    OutsAppend(o1 + o2, o3);
    OneOut(Pool(req));
    hide Live, Gone, Granted, Pooled, Holding, Vacate, LetIn;
  }

  lemma DoKeeps(s: State, op: Op)
    requires Ok(s) && s.capacity >= 1
    ensures var (s', o) := Do(s, op); Ok(s') && s'.capacity == s.capacity && Accounts(s, op, s', o)
  {
    hide Ok, Accounts;
    match op
    case Request(req, owner, priority, preempt) =>
      RequestKeeps(s, req, owner, priority, preempt);
      RequestAccounts(s, req, owner, priority, preempt);
    case Release(req, processed) =>
      ReleaseKeeps(s, req, processed);
      ReleaseAccounts(s, req, processed);
  }

  /** After any calls on a resource of at least one slot: the invariant holds; each request made, with the process
      and priority it was made with, is, once, holding, waiting, or gone, by eviction or by its release; those
      that hold or have gone are those granted; and exactly the released ones that had been processed have been
      pooled, in order. */
  lemma {:induction false} Accounted(capacity: int, ops: seq<Op>)
    requires capacity >= 1
    ensures var (s, o) := Run(capacity, ops);
            && Ok(s) && s.capacity == capacity && Requests(ops) == Live(s) + Gone(o)
            && Granted(o) == Holding(s.holders) + Gone(o)
            && Pooled(o) == Collect(ops, Reusable)
  {
    if ops == [] {
      OneOut(Pool(0));
    } else {
      var before, op := ops[..|ops| - 1], ops[|ops| - 1];
      Accounted(capacity, before);
      var (s, o) := Run(capacity, before);
      DoKeeps(s, op);
      var (s', o') := Do(s, op);
      OutsAppend(o, o');
      hide Ok, Do, Live, Gone, Requested, Granted, Pooled, Holding, Reusable;
      Adds(Requests(before), Requested(op), Live(s), Gone(o), Live(s'), Gone(o'));
      Adds(Granted(o), Granted(o'), Holding(s.holders), Gone(o), Holding(s'.holders), Gone(o'));
    }
  }

  /** So a request made once is exactly one of holding, waiting, evicted and released, and that once. */
  lemma {:induction false} OneStatus(capacity: int, ops: seq<Op>, r: Mark)
    requires capacity >= 1 && Requests(ops)[r] == 1
    ensures var (s, o) := Run(capacity, ops);
            Holding(s.holders)[r] + Waiting(s.waiters)[r] + Evicted(o)[r] + Released(o)[r] == 1
  {
    Accounted(capacity, ops);
  }

  lemma {:induction false} AllMayPreempt(capacity: int, ops: seq<Op>)
    requires forall i :: 0 <= i < |ops| && ops[i].Request? ==> ops[i].preempt
    ensures forall w :: w in Run(capacity, ops).0.waiters ==> w.body.preempt
  {
    if ops != [] {
      var before, op := ops[..|ops| - 1], ops[|ops| - 1];
      AllMayPreempt(capacity, before);
      var s := Run(capacity, before).0;
      if op.Request? {
        var w := Ranked(op.priority, s.nextSeq, Claim(op.req, op.owner, op.preempt));
        assert forall x :: x in Insert(s.waiters, w) ==> x == w || x in s.waiters;
      }
    }
  }

  /** When every request may preempt, every holder ranks at least as well as every waiter. */
  lemma BestHold(capacity: int, ops: seq<Op>)
    requires capacity >= 1
    requires forall i :: 0 <= i < |ops| && ops[i].Request? ==> ops[i].preempt
    ensures var s := Run(capacity, ops).0;
            forall i, j :: 0 <= i < |s.waiters| && 0 <= j < |s.holders| ==> s.holders[j].priority <= s.waiters[i].priority
  {
    Accounted(capacity, ops);
    AllMayPreempt(capacity, ops);
  }
}
