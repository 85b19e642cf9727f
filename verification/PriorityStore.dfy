/** A store that hands out the item with the smallest priority first. */
module PriorityStores {
  import opened Bags
  import opened K = Kernel
  import opened RankedLists

  datatype Putter = Putter(e: EventId, item: Value, priority: int)

  datatype Out = Deliver(e: EventId, item: Ranked<Value>) | Complete(e: EventId)

  datatype State = State(
    capacity: int, nextSeq: nat, items: seq<Ranked<Value>>, getters: seq<EventId>, putters: seq<Putter>)

  /** sim_priority_store_put, with the event just allocated for it. */
  function AfterPut(s: State, e: EventId, priority: int, item: Value): (State, seq<Out>) {
    if s.capacity > 0 && |s.items| >= s.capacity then
      (s.(putters := s.putters + [Putter(e, item, priority)]), [])
    else
      var all := Insert(s.items, Ranked(priority, s.nextSeq, item));
      var s1 := s.(items := all, nextSeq := s.nextSeq + 1);
      if s.getters == [] then (s1, [Complete(e)])
      else (s1.(items := all[1..], getters := s.getters[1..]), [Complete(e), Deliver(s.getters[0], all[0])])
  }

  /** sim_priority_store_get. */
  function AfterGet(s: State, e: EventId): (State, seq<Out>) {
    if s.items == [] then (s.(getters := s.getters + [e]), [])
    else if s.putters == [] then (s.(items := s.items[1..]), [Deliver(e, s.items[0])])
    else
      var w := s.putters[0];
      var all := Insert(s.items[1..], Ranked(w.priority, s.nextSeq, w.item));
      (s.(items := all, nextSeq := s.nextSeq + 1, putters := s.putters[1..]),
       [Deliver(e, s.items[0]), Complete(w.e)])
  }

  class PriorityStore {
    const capacity: int
    var count: int
    var nextSeq: nat
    var items: seq<Ranked<Value>>
    var getters: seq<EventId>
    var putters: seq<Putter>
    var out: seq<Out>

    ghost predicate Valid()
      reads this
    {
      count == |items|
    }

    ghost function Abs(): State
      reads this
    {
      State(capacity, nextSeq, items, getters, putters)
    }

    constructor (capacity: int)
      ensures Valid() && Abs() == State(capacity, 0, [], [], []) && out == []
    {
      this.capacity := capacity;
      count, nextSeq, items, getters, putters, out := 0, 0, [], [], [], [];
    }

    method ItemInsertSorted(n: Ranked<Value>)
      modifies this`items, this`count
      ensures items == Insert(old(items), n) && count == old(count) + 1
    {
      items := InsertSorted(items, n);
      count := count + 1;
    }

    method Put(e: EventId, priority: int, item: Value)
      requires Valid()
      modifies this
      ensures Valid()
      ensures var (s, o) := AfterPut(old(Abs()), e, priority, item); Abs() == s && out == old(out) + o
    {
      if capacity > 0 && count >= capacity {
        putters := putters + [Putter(e, item, priority)];
        return;
      }
      var n := Ranked(priority, nextSeq, item);
      nextSeq := nextSeq + 1;
      ItemInsertSorted(n);
      out := out + [Complete(e)];
      if getters != [] {
        var top := items[0];
        items := items[1..];
        count := count - 1;
        var g := getters[0];
        getters := getters[1..];
        out := out + [Deliver(g, top)];
      }
    }

    method Get(e: EventId)
      requires Valid()
      modifies this
      ensures Valid()
      ensures var (s, o) := AfterGet(old(Abs()), e); Abs() == s && out == old(out) + o
    {
      if items != [] {
        var top := items[0];
        items := items[1..];
        count := count - 1;
        out := out + [Deliver(e, top)];
        if putters != [] {
          var w := putters[0];
          putters := putters[1..];
          var n := Ranked(w.priority, nextSeq, w.item);
          nextSeq := nextSeq + 1;
          ItemInsertSorted(n);
          out := out + [Complete(w.e)];
        }
        return;
      }
      getters := getters + [e];
    }
  }

  // ---------- what holds after every call ----------

  /** Sorted; getters wait only at an empty buffer, putters only at a full one. */
  ghost predicate Ok(s: State) {
    && Sorted(s.items) && Below(s.items, s.nextSeq)
    && (s.capacity > 0 ==> |s.items| <= s.capacity)
    && (s.getters != [] ==> s.items == [])
    && (s.putters != [] ==> s.capacity > 0 && |s.items| == s.capacity)
  }

  /** The delivered item is the least of those buffered at that moment. */
  ghost predicate LeastOf(x: Ranked<Value>, items: seq<Ranked<Value>>) {
    x in items && forall i :: 0 <= i < |items| ==> items[i] == x || Before(x, items[i])
  }

  lemma {:induction false} PutKeeps(s: State, e: EventId, priority: int, item: Value)
    requires Ok(s)
    ensures var (s', o) := AfterPut(s, e, priority, item);
            && Ok(s') && (o != [] ==> o[0] == Complete(e))
            && forall i :: 0 <= i < |o| && o[i].Deliver? ==> s.items == [] && o[i].item == Ranked(priority, s.nextSeq, item)
  {
    var x := Ranked(priority, s.nextSeq, item);
    InsertKeeps(s.items, x);
    if s.getters != [] { assert Insert(s.items, x) == [x]; }
    hide Insert;
  }

  lemma {:induction false} GetKeeps(s: State, e: EventId)
    requires Ok(s)
    ensures var (s', o) := AfterGet(s, e);
            && Ok(s') && (o != [] ==> o[0].Deliver? && o[0].e == e)
            && forall i :: 0 <= i < |o| && o[i].Deliver? ==> LeastOf(o[i].item, s.items)
  {
    if s.items != [] {
      TailKeeps(s.items, s.nextSeq);
      if s.putters != [] { InsertKeeps(s.items[1..], Ranked(s.putters[0].priority, s.nextSeq, s.putters[0].item)); }
    }
  }

  // ---------- histories ----------

  datatype Op = PutOp(e: EventId, priority: int, item: Value) | GetOp(e: EventId)

  function Do(s: State, op: Op): (State, seq<Out>) {
    match op
    case PutOp(e, priority, item) => AfterPut(s, e, priority, item)
    case GetOp(e) => AfterGet(s, e)
  }

  function Run(capacity: int, ops: seq<Op>): (State, seq<Out>) {
    if ops == [] then (State(capacity, 0, [], [], []), [])
    else
      var (s, o) := Run(capacity, ops[..|ops| - 1]);
      var (s', o') := Do(s, ops[|ops| - 1]);
      (s', o + o')
  }

  /** The put calls in order, the get calls, and what came of them. */
  function PutId(op: Op): seq<EventId> {
    if op.PutOp? then [op.e] else []
  }

  function GetId(op: Op): seq<EventId> {
    if op.GetOp? then [op.e] else []
  }

  function CompletionOf(o: Out): seq<EventId> {
    if o.Complete? then [o.e] else []
  }

  function ServiceOf(o: Out): seq<EventId> {
    if o.Deliver? then [o.e] else []
  }

  function WaitingOf(w: Putter): seq<EventId> {
    [w.e]
  }

  function Puts(ops: seq<Op>): seq<EventId> {
    Collect(ops, PutId)
  }

  function Gets(ops: seq<Op>): seq<EventId> {
    Collect(ops, GetId)
  }

  function Completions(o: seq<Out>): seq<EventId> {
    Collect(o, CompletionOf)
  }

  function Served(o: seq<Out>): seq<EventId> {
    Collect(o, ServiceOf)
  }

  function Waiting(ps: seq<Putter>): seq<EventId> {
    Collect(ps, WaitingOf)
  }

  /** Items as (priority, item), with multiplicity: put, held by waiting puts, delivered, buffered. */
  function Incoming(op: Op): multiset<(int, Value)> {
    if op.PutOp? then multiset{(op.priority, op.item)} else multiset{}
  }

  function HeldBy(w: Putter): multiset<(int, Value)> {
    multiset{(w.priority, w.item)}
  }

  function DeliveredBy(o: Out): multiset<(int, Value)> {
    if o.Deliver? then multiset{(o.item.priority, o.item.body)} else multiset{}
  }

  function Body(x: Ranked<Value>): multiset<(int, Value)> {
    multiset{(x.priority, x.body)}
  }

  function PutItems(ops: seq<Op>): multiset<(int, Value)> {
    Tally(ops, Incoming)
  }

  function Held(ps: seq<Putter>): multiset<(int, Value)> {
    Tally(ps, HeldBy)
  }

  function Delivered(o: seq<Out>): multiset<(int, Value)> {
    Tally(o, DeliveredBy)
  }

  function Bodies(q: seq<Ranked<Value>>): multiset<(int, Value)> {
    Tally(q, Body)
  }

  lemma OutsAppend(a: seq<Out>, b: seq<Out>)
    ensures Completions(a + b) == Completions(a) + Completions(b)
    ensures Served(a + b) == Served(a) + Served(b)
    ensures Delivered(a + b) == Delivered(a) + Delivered(b)
  {
    CollectAppend(a, b, CompletionOf);
    CollectAppend(a, b, ServiceOf);
    TallyAppend(a, b, DeliveredBy);
  }

  lemma Outs(a: Out, b: Out)
    ensures Completions([]) == [] && Completions([a]) == CompletionOf(a) && Completions([a, b]) == CompletionOf(a) + CompletionOf(b)
    ensures Served([]) == [] && Served([a]) == ServiceOf(a) && Served([a, b]) == ServiceOf(a) + ServiceOf(b)
    ensures Delivered([]) == multiset{} && Delivered([a]) == DeliveredBy(a) && Delivered([a, b]) == DeliveredBy(a) + DeliveredBy(b)
  {
    CollectFew(a, b, CompletionOf);
    CollectFew(a, b, ServiceOf);
    TallyFew(a, b, DeliveredBy);
  }

  /** A putter joins at the end, or leaves from the front; an item is inserted, or the first one leaves. */
  lemma Joins(ps: seq<Putter>, w: Putter)
    ensures Held(ps + [w]) == Held(ps) + HeldBy(w) && Waiting(ps + [w]) == Waiting(ps) + [w.e]
    ensures Held([]) == multiset{} && Waiting([]) == []
  {
    TallyAppend(ps, [w], HeldBy);
    CollectAppend(ps, [w], WaitingOf);
    TallyFew(w, w, HeldBy);
    CollectFew(w, w, WaitingOf);
  }

  lemma Leaves(ps: seq<Putter>)
    requires ps != []
    ensures Held(ps) == HeldBy(ps[0]) + Held(ps[1..]) && Waiting(ps) == [ps[0].e] + Waiting(ps[1..])
  {
    TallyFirst(ps, HeldBy);
    CollectFirst(ps, WaitingOf);
  }

  /** From `s` to `s'` with the new call `op`, handing out `o`: puts complete and gets are served in the
      order they were called, and no item is lost. */
  ghost predicate Serves(s: State, op: Op, s': State, o: seq<Out>) {
    && Waiting(s.putters) + PutId(op) == Completions(o) + Waiting(s'.putters)
    && s.getters + GetId(op) == Served(o) + s'.getters
    && (Bodies(s.items) + Held(s.putters)) + Incoming(op) == (Bodies(s'.items) + Held(s'.putters)) + Delivered(o)
  }

  lemma PutServes(s: State, e: EventId, priority: int, item: Value)
    requires Ok(s)
    ensures var (s', o) := AfterPut(s, e, priority, item); Serves(s, PutOp(e, priority, item), s', o)
  {
    var x := Ranked(priority, s.nextSeq, item);
    hide Completions, Served, Waiting, Held, Delivered, Bodies;
    Joins(s.putters, Putter(e, item, priority));
    if s.capacity > 0 && |s.items| >= s.capacity {
      Outs(Complete(e), Complete(e));
    } else if s.getters == [] {
      Outs(Complete(e), Complete(e));
      BodiesInsert(s.items, x);
      hide Insert;
    } else {
      PutPasses(s, e, priority, item);
    }
  }

  lemma BodiesInsert(q: seq<Ranked<Value>>, x: Ranked<Value>)
    ensures Bodies(Insert(q, x)) == Bodies(q) + Body(x)
  {
    TallyInsert(q, Place(q, x), x, Body);
  }

  lemma BodiesFirst(q: seq<Ranked<Value>>)
    requires q != []
    ensures Bodies(q) == Body(q[0]) + Bodies(q[1..])
  {
    TallyFirst(q, Body);
  }

  lemma PutPasses(s: State, e: EventId, priority: int, item: Value)
    requires Ok(s) && (s.capacity <= 0 || |s.items| < s.capacity) && s.getters != []
    ensures var (s', o) := AfterPut(s, e, priority, item); Serves(s, PutOp(e, priority, item), s', o)
  {
    var x := Ranked(priority, s.nextSeq, item);
    hide Completions, Served, Waiting, Held, Delivered, Bodies;
    Joins(s.putters, Putter(e, item, priority));
    Outs(Complete(e), Deliver(s.getters[0], x));
    assert Insert(s.items, x) == [x];
    assert s.getters == [s.getters[0]] + s.getters[1..];
  }

  lemma GetServes(s: State, e: EventId)
    requires Ok(s)
    ensures var (s', o) := AfterGet(s, e); Serves(s, GetOp(e), s', o)
  {
    hide Completions, Served, Waiting, Held, Delivered, Bodies, Insert;
    if s.items == [] {
      Outs(Complete(e), Complete(e));
    } else if s.putters == [] {
      BodiesFirst(s.items);
      Outs(Deliver(e, s.items[0]), Complete(e));
    } else {
      GetLetsIn(s, e);
    }
  }

  lemma GetLetsIn(s: State, e: EventId)
    requires Ok(s) && s.items != [] && s.putters != []
    ensures var (s', o) := AfterGet(s, e); Serves(s, GetOp(e), s', o)
  {
    hide Ok, Completions, Served, Waiting, Held, Delivered, Bodies, Insert;
    var w := s.putters[0];
    var x := Ranked(w.priority, s.nextSeq, w.item);
    BodiesFirst(s.items);
    BodiesInsert(s.items[1..], x);
    Outs(Deliver(e, s.items[0]), Complete(w.e));
    Leaves(s.putters);
    assert s.getters == [] by { assert Ok(s); NobodyWaits(s); }
    Moved(Bodies(s.items), Bodies(s.items[1..]), Body(s.items[0]), Held(s.putters), Held(s.putters[1..]), HeldBy(w));
  }

  lemma NobodyWaits(s: State)
    requires Ok(s) && s.items != []
    ensures s.getters == []
  {
  }

  lemma Moved<T>(all: multiset<T>, rest: multiset<T>, x: multiset<T>, held: multiset<T>, left: multiset<T>, w: multiset<T>)
    requires all == x + rest && held == w + left
    ensures (all + held) + multiset{} == ((rest + w) + left) + x
  {
  }

  lemma DoServes(s: State, op: Op)
    requires Ok(s)
    ensures var (s', o) := Do(s, op); Ok(s') && s'.capacity == s.capacity && Serves(s, op, s', o)
  {
    hide Ok, Serves, Insert;
    match op
    case PutOp(e, priority, item) => PutKeeps(s, e, priority, item); PutServes(s, e, priority, item);
    case GetOp(e) => GetKeeps(s, e); GetServes(s, e);
  }

  /** After any calls: the invariant holds; puts have completed in call order, and gets have been served in
      call order, the rest still waiting in that order; the items put, with their priorities, are those
      buffered, those held by waiting puts, and those delivered. */
  lemma {:induction false} OrderedAndConserving(capacity: int, ops: seq<Op>)
    ensures var (s, o) := Run(capacity, ops);
            && Ok(s) && s.capacity == capacity
            && Puts(ops) == Completions(o) + Waiting(s.putters)
            && Gets(ops) == Served(o) + s.getters
            && PutItems(ops) == (Bodies(s.items) + Held(s.putters)) + Delivered(o)
  {
    if ops != [] {
      var before, op := ops[..|ops| - 1], ops[|ops| - 1];
      OrderedAndConserving(capacity, before);
      var (s, o) := Run(capacity, before);
      DoServes(s, op);
      var (s', o') := Do(s, op);
      OutsAppend(o, o');
      hide Ok, Do, Completions, Served, Waiting, Bodies, Held, Delivered, PutId, GetId, Incoming;
      InOrder(Completions(o), Waiting(s.putters), PutId(op), Completions(o'), Waiting(s'.putters));
      InOrder(Served(o), s.getters, GetId(op), Served(o'), s'.getters);
      Adds(PutItems(before), Incoming(op), Bodies(s.items) + Held(s.putters), Delivered(o),
           Bodies(s'.items) + Held(s'.putters), Delivered(o'));
    }
  }

  // ---------- in terms of the calls ----------

  function CallOf(op: Op): seq<Putter> {
    if op.PutOp? then [Putter(op.e, op.item, op.priority)] else []
  }

  /** The put calls, with what was passed to them. */
  function Calls(ops: seq<Op>): seq<Putter> {
    Collect(ops, CallOf)
  }

  /** The number of an item, and of a delivered one. */
  function NumberOf(x: Ranked<Value>): multiset<nat> {
    multiset{x.seqNo}
  }

  function NumberOut(o: Out): multiset<nat> {
    if o.Deliver? then multiset{o.item.seqNo} else multiset{}
  }

  function Numbers(n: nat): multiset<nat> {
    if n == 0 then multiset{} else Numbers(n - 1) + multiset{n - 1}
  }

  /** The item `x` is that of put call number `x.seqNo`, one of the first `n`, with its priority. */
  predicate Own(calls: seq<Putter>, n: nat, x: Ranked<Value>)
    requires n <= |calls|
  {
    x.seqNo < n && x.priority == calls[x.seqNo].priority && x.body == calls[x.seqNo].item
  }

  ghost predicate AllOwn(calls: seq<Putter>, n: nat, items: seq<Ranked<Value>>, o: seq<Out>) {
    && n <= |calls|
    && (forall i :: 0 <= i < |items| ==> Own(calls, n, items[i]))
    && (forall i :: 0 <= i < |o| && o[i].Deliver? ==> Own(calls, n, o[i].item))
  }

  /** The first `n` put calls have completed and the others wait. */
  ghost predicate Prefix(calls: seq<Putter>, n: nat, putters: seq<Putter>, done: seq<EventId>) {
    n <= |calls| && putters == calls[n..] && done == Waiting(calls[..n])
  }

  /** Each of the first `n` numbers occurs once, in the buffer or among the deliveries. */
  ghost predicate OnceEach(n: nat, items: seq<Ranked<Value>>, o: seq<Out>) {
    Numbers(n) == Tally(items, NumberOf) + Tally(o, NumberOut)
  }

  /** The first put calls have completed, the others wait; each of the completed ones' items is in the buffer or
      has been delivered, once; numbers are those of the calls. */
  ghost predicate Tied(calls: seq<Putter>, s: State, o: seq<Out>) {
    && Prefix(calls, s.nextSeq, s.putters, Completions(o))
    && AllOwn(calls, s.nextSeq, s.items, o)
    && OnceEach(s.nextSeq, s.items, o)
  }

  /** After any calls, everything is told by the calls: buffered and delivered items have the number, priority and
      item of their put call, so that the least of the buffer, which is what a get takes, is the one with the
      least priority passed to a put, and of these the one put first. */
  lemma {:induction false} ItemsOfCalls(capacity: int, ops: seq<Op>)
    ensures var (s, o) := Run(capacity, ops); Tied(Calls(ops), s, o)
  {
    if ops == [] {
      assert Numbers(0) == multiset{};
    } else {
      var before, op := ops[..|ops| - 1], ops[|ops| - 1];
      ItemsOfCalls(capacity, before);
      OrderedAndConserving(capacity, before);
      var (s, o) := Run(capacity, before);
      DoTied(Calls(before), s, o, op);
      assert Calls(ops) == Calls(before) + CallOf(op);
      hide Tied, Calls, Do, Ok;
    }
  }

  lemma DoTied(calls: seq<Putter>, s: State, o: seq<Out>, op: Op)
    requires Tied(calls, s, o) && Ok(s)
    ensures var (s', o') := Do(s, op); Tied(calls + CallOf(op), s', o + o')
  {
    hide Tied;
    match op
    case PutOp(e, priority, item) => PutTied(calls, s, o, e, priority, item);
    case GetOp(e) =>
      assert calls + [] == calls;
      GetTied(calls, s, o, e);
  }

  /** The item of the next call to complete, `w`, enters the buffer. */
  lemma Enters(calls: seq<Putter>, s: State, o: seq<Out>, w: Putter)
    requires Tied(calls, s, o) && s.nextSeq < |calls| && calls[s.nextSeq] == w
    ensures var x := Ranked(w.priority, s.nextSeq, w.item);
            Tied(calls, s.(items := Insert(s.items, x), nextSeq := s.nextSeq + 1, putters := s.putters[1..]), o + [Complete(w.e)])
  {
    var x := Ranked(w.priority, s.nextSeq, w.item);
    EntersPrefix(calls, s.nextSeq, s.putters, o, w);
    EntersOwn(calls, s.nextSeq, s.items, o, x, w.e);
    EntersOnce(s.nextSeq, s.items, o, x, w.e);
    hide Prefix, AllOwn, OnceEach, Insert, Completions;
  }

  lemma EntersPrefix(calls: seq<Putter>, n: nat, putters: seq<Putter>, o: seq<Out>, w: Putter)
    requires Prefix(calls, n, putters, Completions(o)) && n < |calls| && calls[n] == w
    ensures putters != [] && Prefix(calls, n + 1, putters[1..], Completions(o + [Complete(w.e)]))
  {
    OutsAppend(o, [Complete(w.e)]);
    Outs(Complete(w.e), Complete(w.e));
    Joins(calls[..n], w);
    assert calls[..n + 1] == calls[..n] + [w];
    hide Completions, Waiting;
  }

  lemma EntersOwn(calls: seq<Putter>, n: nat, items: seq<Ranked<Value>>, o: seq<Out>, x: Ranked<Value>, e: EventId)
    requires n < |calls| && Own(calls, n + 1, x) && AllOwn(calls, n, items, o)
    ensures AllOwn(calls, n + 1, Insert(items, x), o + [Complete(e)])
  {
    InsertOwn(calls, n, items, x);
    hide Insert, Own;
    var o' := o + [Complete(e)];
    forall i | 0 <= i < |o'| && o'[i].Deliver? ensures Own(calls, n + 1, o'[i].item) {
      assert o'[i] == o[i];
      OwnMore(calls, n, o[i].item);
    }
  }

  lemma OwnMore(calls: seq<Putter>, n: nat, x: Ranked<Value>)
    requires n < |calls| && Own(calls, n, x)
    ensures Own(calls, n + 1, x)
  {
  }

  lemma InsertOwn(calls: seq<Putter>, n: nat, items: seq<Ranked<Value>>, x: Ranked<Value>)
    requires n < |calls| && Own(calls, n + 1, x) && forall i :: 0 <= i < |items| ==> Own(calls, n, items[i])
    ensures forall i :: 0 <= i < |Insert(items, x)| ==> Own(calls, n + 1, Insert(items, x)[i])
  {
    forall i | 0 <= i < |Insert(items, x)| ensures Own(calls, n + 1, Insert(items, x)[i]) {
      InsertAt(items, x, 0);
      InsertAt(items, x, i);
    }
  }

  lemma EntersOnce(n: nat, items: seq<Ranked<Value>>, o: seq<Out>, x: Ranked<Value>, e: EventId)
    requires OnceEach(n, items, o) && x.seqNo == n
    ensures OnceEach(n + 1, Insert(items, x), o + [Complete(e)])
  {
    TallyInsert(items, Place(items, x), x, NumberOf);
    TallyAppend(o, [Complete(e)], NumberOut);
    TallyFew(Complete(e), Complete(e), NumberOut);
    hide Tally;
  }

  /** The first item of the buffer is delivered. */
  lemma ItemLeaves(calls: seq<Putter>, s: State, o: seq<Out>, e: EventId)
    requires Tied(calls, s, o) && s.items != []
    ensures Tied(calls, s.(items := s.items[1..]), o + [Deliver(e, s.items[0])])
  {
    var d := Deliver(e, s.items[0]);
    LeavesOnce(s.nextSeq, s.items, o, e);
    LeavesOwn(calls, s.nextSeq, s.items, o, e);
    OutsAppend(o, [d]);
    Outs(d, d);
    hide Prefix, AllOwn, OnceEach, Completions;
    assert Completions(o) + [] == Completions(o);
  }

  lemma LeavesOnce(n: nat, items: seq<Ranked<Value>>, o: seq<Out>, e: EventId)
    requires OnceEach(n, items, o) && items != []
    ensures OnceEach(n, items[1..], o + [Deliver(e, items[0])])
  {
    var d := Deliver(e, items[0]);
    TallyFirst(items, NumberOf);
    TallyAppend(o, [d], NumberOut);
    TallyFew(d, d, NumberOut);
    hide Tally;
  }

  lemma LeavesOwn(calls: seq<Putter>, n: nat, items: seq<Ranked<Value>>, o: seq<Out>, e: EventId)
    requires AllOwn(calls, n, items, o) && items != []
    ensures AllOwn(calls, n, items[1..], o + [Deliver(e, items[0])])
  {
    hide Own;
    var o' := o + [Deliver(e, items[0])];
    forall i | 0 <= i < |o'| && o'[i].Deliver? ensures Own(calls, n, o'[i].item) {
      assert i < |o| ==> o'[i] == o[i];
    }
  }

  lemma MoreCalls(calls: seq<Putter>, s: State, o: seq<Out>, w: Putter)
    requires Tied(calls, s, o)
    ensures Tied(calls + [w], s.(putters := s.putters + [w]), o)
  {
    hide OnceEach, Completions, Waiting;
    assert (calls + [w])[..s.nextSeq] == calls[..s.nextSeq];
    assert (calls + [w])[s.nextSeq..] == calls[s.nextSeq..] + [w];
    assert AllOwn(calls + [w], s.nextSeq, s.items, o);
    hide AllOwn;
  }

  /** The getters do not matter. */
  lemma AnyGetters(calls: seq<Putter>, s: State, o: seq<Out>, getters: seq<EventId>)
    requires Tied(calls, s, o)
    ensures Tied(calls, s.(getters := getters), o)
  {
  }

  lemma PutTied(calls: seq<Putter>, s: State, o: seq<Out>, e: EventId, priority: int, item: Value)
    requires Tied(calls, s, o) && Ok(s)
    ensures var (s', o') := AfterPut(s, e, priority, item); Tied(calls + [Putter(e, item, priority)], s', o + o')
  {
    hide Tied, Insert;
    var w := Putter(e, item, priority);
    MoreCalls(calls, s, o, w);
    if s.capacity > 0 && |s.items| >= s.capacity {
      assert o + [] == o;
    } else {
      NoneWaits(calls, s, o);
      assert s.putters + [w] == [w];
      PassThrough(calls, s, o, w);
    }
  }

  lemma NoneWaits(calls: seq<Putter>, s: State, o: seq<Out>)
    requires Tied(calls, s, o) && Ok(s) && !(s.capacity > 0 && |s.items| >= s.capacity)
    ensures s.putters == [] && |calls| == s.nextSeq
  {
    assert |calls[s.nextSeq..]| == 0;
  }

  /** A put that is not blocked: its item enters, and the first of the buffer goes to a waiting getter. */
  lemma PassThrough(calls: seq<Putter>, s: State, o: seq<Out>, w: Putter)
    requires Tied(calls + [w], s.(putters := [w]), o) && s.nextSeq == |calls| && s.putters == []
    requires s.capacity <= 0 || |s.items| < s.capacity
    ensures var (s', o') := AfterPut(s, w.e, w.priority, w.item); Tied(calls + [w], s', o + o')
  {
    hide Tied, Insert;
    var calls1 := calls + [w];
    var all := Insert(s.items, Ranked(w.priority, s.nextSeq, w.item));
    Enters(calls1, s.(putters := [w]), o, w);
    var s1 := s.(items := all, nextSeq := s.nextSeq + 1, putters := [w][1..]);
    assert [w][1..] == [];
    if s.getters != [] {
      InsertAt(s.items, Ranked(w.priority, s.nextSeq, w.item), 0);
      var d := Deliver(s.getters[0], all[0]);
      ItemLeaves(calls1, s1, o + [Complete(w.e)], s.getters[0]);
      AnyGetters(calls1, s1.(items := all[1..]), o + [Complete(w.e)] + [d], s.getters[1..]);
      assert o + [Complete(w.e)] + [d] == o + [Complete(w.e), d];
    }
  }

  lemma GetTied(calls: seq<Putter>, s: State, o: seq<Out>, e: EventId)
    requires Tied(calls, s, o)
    ensures var (s', o') := AfterGet(s, e); Tied(calls, s', o + o')
  {
    hide Tied, Insert;
    if s.items == [] {
      AnyGetters(calls, s, o, s.getters + [e]);
      assert o + [] == o;
    } else {
      ItemLeaves(calls, s, o, e);
      if s.putters != [] {
        var w, d := s.putters[0], Deliver(e, s.items[0]);
        NextCall(calls, s, o);
        Enters(calls, s.(items := s.items[1..]), o + [d], w);
        assert o + [d] + [Complete(w.e)] == o + [d, Complete(w.e)];
      }
    }
  }

  lemma NextCall(calls: seq<Putter>, s: State, o: seq<Out>)
    requires Tied(calls, s, o) && s.putters != []
    ensures s.nextSeq < |calls| && calls[s.nextSeq] == s.putters[0]
  {
    assert calls[s.nextSeq..][0] == calls[s.nextSeq];
  }
}
