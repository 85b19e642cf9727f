/** A store: a buffer of items, bounded or not, with a queue of getters and a queue of putters. */
module Stores {
  import opened Bags
  import opened K = Kernel

  datatype Waiting = Waiting(e: EventId, item: Value)

  /** What a call hands to the kernel: an item for a getter's event, or the completion of a put. */
  datatype Out = Deliver(e: EventId, item: Value) | Complete(e: EventId)

  datatype State = State(capacity: int, items: seq<Value>, getters: seq<EventId>, putters: seq<Waiting>)

  function Init(capacity: int): State {
    State(capacity, [], [], [])
  }

  /** sim_store_put, with the event `e` just allocated for it. */
  function AfterPut(s: State, e: EventId, item: Value): (State, seq<Out>) {
    if s.getters != [] then
      (s.(getters := s.getters[1..]), [Deliver(s.getters[0], item), Complete(e)])
    else if s.capacity <= 0 || |s.items| < s.capacity then
      (s.(items := s.items + [item]), [Complete(e)])
    else
      (s.(putters := s.putters + [Waiting(e, item)]), [])
  }

  /** sim_store_get. */
  function AfterGet(s: State, e: EventId): (State, seq<Out>) {
    if s.items == [] then (s.(getters := s.getters + [e]), [])
    else if s.putters == [] then (s.(items := s.items[1..]), [Deliver(e, s.items[0])])
    else
      var w := s.putters[0];
      (s.(items := s.items[1..] + [w.item], putters := s.putters[1..]), [Deliver(e, s.items[0]), Complete(w.e)])
  }

  /** The store object: lists and count updated in place; `out` is what it has handed to the kernel. */
  class Store {
    const capacity: int
    var count: int
    var items: seq<Value>
    var getters: seq<EventId>
    var putters: seq<Waiting>
    var out: seq<Out>

    ghost predicate Valid()
      reads this
    {
      count == |items|
    }

    ghost function Abs(): State
      reads this
    {
      State(capacity, items, getters, putters)
    }

    constructor (capacity: int)
      ensures Valid() && Abs() == Init(capacity) && out == []
    {
      this.capacity := capacity;
      count, items, getters, putters, out := 0, [], [], [], [];
    }

    method ItemPush(item: Value)
      modifies this`items, this`count
      ensures items == old(items) + [item] && count == old(count) + 1
    {
      items := items + [item];
      count := count + 1;
    }

    method ItemPop() returns (item: Value)
      requires items != []
      modifies this`items, this`count
      ensures old(items) == [item] + items && count == old(count) - 1
    {
      item := items[0];
      items := items[1..];
      count := count - 1;
    }

    method Put(e: EventId, item: Value)
      requires Valid()
      modifies this
      ensures Valid()
      ensures var (s, o) := AfterPut(old(Abs()), e, item); Abs() == s && out == old(out) + o
    {
      if getters != [] {
        var w := getters[0];
        getters := getters[1..];
        out := out + [Deliver(w, item)];
        out := out + [Complete(e)];
        return;
      }
      if capacity <= 0 || count < capacity {
        ItemPush(item);
        out := out + [Complete(e)];
      } else {
        putters := putters + [Waiting(e, item)];
      }
    }

    method Get(e: EventId)
      requires Valid()
      modifies this
      ensures Valid()
      ensures var (s, o) := AfterGet(old(Abs()), e); Abs() == s && out == old(out) + o
    {
      if count > 0 {
        var item := ItemPop();
        out := out + [Deliver(e, item)];
        if putters != [] {
          var w := putters[0];
          putters := putters[1..];
          ItemPush(w.item);
          out := out + [Complete(w.e)];
        }
      } else {
        getters := getters + [e];
      }
    }
  }

  // ---------- histories ----------

  datatype Op = PutOp(e: EventId, item: Value) | GetOp(e: EventId)

  function Do(s: State, op: Op): (State, seq<Out>) {
    match op
    case PutOp(e, item) => AfterPut(s, e, item)
    case GetOp(e) => AfterGet(s, e)
  }

  function Run(capacity: int, ops: seq<Op>): (State, seq<Out>) {
    if ops == [] then (Init(capacity), [])
    else
      var (s, o) := Run(capacity, ops[..|ops| - 1]);
      var (s', o') := Do(s, ops[|ops| - 1]);
      (s', o + o')
  }

  function PutOf(op: Op): seq<Waiting> {
    if op.PutOp? then [Waiting(op.e, op.item)] else []
  }

  function GetOf(op: Op): seq<EventId> {
    if op.GetOp? then [op.e] else []
  }

  function DeliveryOf(o: Out): seq<Waiting> {
    if o.Deliver? then [Waiting(o.e, o.item)] else []
  }

  function CompletionOf(o: Out): seq<EventId> {
    if o.Complete? then [o.e] else []
  }

  /** The put calls of a history, in order, and the get calls. */
  function Puts(ops: seq<Op>): seq<Waiting> {
    Collect(ops, PutOf)
  }

  function Gets(ops: seq<Op>): seq<EventId> {
    Collect(ops, GetOf)
  }

  /** Which event got which item, in order, and which puts completed. */
  function Deliveries(o: seq<Out>): seq<Waiting> {
    Collect(o, DeliveryOf)
  }

  function Completions(o: seq<Out>): seq<EventId> {
    Collect(o, CompletionOf)
  }

  lemma OutsAppend(o: seq<Out>, o': seq<Out>)
    ensures Deliveries(o + o') == Deliveries(o) + Deliveries(o')
    ensures Completions(o + o') == Completions(o) + Completions(o')
  {
    CollectAppend(o, o', DeliveryOf);
    CollectAppend(o, o', CompletionOf);
  }

  function Min(a: int, b: int): int {
    if a < b then a else b
  }

  /** Gets matched so far: as many as there are both puts and gets. */
  function Matched(puts: seq<Waiting>, gets: seq<EventId>): nat {
    Min(|puts|, |gets|)
  }

  /** Puts that have completed: all of them, or with a bound, the matched ones and a bufferful. */
  function Completed(capacity: int, puts: seq<Waiting>, gets: seq<EventId>): nat {
    if capacity <= 0 then |puts| else Min(|puts|, Matched(puts, gets) + capacity)
  }

  function Items(ws: seq<Waiting>): seq<Value> {
    seq(|ws|, i requires 0 <= i < |ws| => ws[i].item)
  }

  function Events(ws: seq<Waiting>): seq<EventId> {
    seq(|ws|, i requires 0 <= i < |ws| => ws[i].e)
  }

  /** The reference: an unbounded FIFO. The k-th get is served the k-th put's item whenever both exist. */
  function Pairs(gets: seq<EventId>, puts: seq<Waiting>, n: nat): seq<Waiting>
    requires n <= |gets| && n <= |puts|
  {
    seq(n, i requires 0 <= i < n => Waiting(gets[i], puts[i].item))
  }

  /** The buffer, the getters and the putters are the unmatched stretches of the calls. */
  function StateOf(capacity: int, puts: seq<Waiting>, gets: seq<EventId>): State {
    var m, d := Matched(puts, gets), Completed(capacity, puts, gets);
    State(capacity, Items(puts[m..d]), gets[m..], puts[d..])
  }

  /** What has been handed to the kernel, in both respects. */
  ghost predicate Handed(capacity: int, puts: seq<Waiting>, gets: seq<EventId>, o: seq<Out>) {
    && Deliveries(o) == Pairs(gets, puts, Matched(puts, gets))
    && Completions(o) == Events(puts[..Completed(capacity, puts, gets)])
  }

  /** Everything about a store follows from its calls alone: the k-th get receives the k-th put's item,
      in order, whenever both exist; puts complete in call order, and exactly the first `Completed` of
      them have; what is left is queued. */
  lemma {:induction false} RefinesFifo(capacity: int, ops: seq<Op>)
    ensures Run(capacity, ops).0 == StateOf(capacity, Puts(ops), Gets(ops))
    ensures Handed(capacity, Puts(ops), Gets(ops), Run(capacity, ops).1)
  {
    if ops == [] {
      assert Pairs([], [], 0) == [] && Events([]) == [] && Items([]) == [];
    } else {
      hide StateOf, Handed, AfterPut, AfterGet;
      var before, op := ops[..|ops| - 1], ops[|ops| - 1];
      RefinesFifo(capacity, before);
      if op.PutOp? {
        assert Gets(ops) == Gets(before) && Puts(ops) == Puts(before) + [Waiting(op.e, op.item)];
        PutStep(capacity, Puts(before), Gets(before), Run(capacity, before).1, op.e, op.item);
      } else {
        assert Puts(ops) == Puts(before) && Gets(ops) == Gets(before) + [op.e];
        GetStep(capacity, Puts(before), Gets(before), Run(capacity, before).1, op.e);
      }
    }
  }

  lemma TwoOuts(a: Out, b: Out)
    ensures Deliveries([a]) == DeliveryOf(a) && Deliveries([a, b]) == DeliveryOf(a) + DeliveryOf(b)
    ensures Completions([a]) == CompletionOf(a) && Completions([a, b]) == CompletionOf(a) + CompletionOf(b)
  {
    CollectFew(a, b, DeliveryOf);
    CollectFew(a, b, CompletionOf);
  }

  lemma Projections(ws: seq<Waiting>, w: Waiting)
    ensures Items(ws + [w]) == Items(ws) + [w.item] && Events(ws + [w]) == Events(ws) + [w.e]
    ensures |Items(ws)| == |ws|
    ensures ws != [] ==> Items(ws)[0] == ws[0].item && Items(ws)[1..] == Items(ws[1..])
  {
  }

  lemma MorePairs(gets: seq<EventId>, puts: seq<Waiting>, n: nat, e: EventId, w: Waiting)
    requires n <= |gets| && n <= |puts|
    ensures Pairs(gets + [e], puts, n) == Pairs(gets, puts, n) == Pairs(gets, puts + [w], n)
    ensures n == |gets| && n < |puts| ==> Pairs(gets + [e], puts, n + 1) == Pairs(gets, puts, n) + [Waiting(e, puts[n].item)]
    ensures n == |puts| && n < |gets| ==> Pairs(gets, puts + [w], n + 1) == Pairs(gets, puts, n) + [Waiting(gets[n], w.item)]
  {
  }

  lemma PutStep(capacity: int, puts: seq<Waiting>, gets: seq<EventId>, o: seq<Out>, e: EventId, item: Value)
    requires Handed(capacity, puts, gets, o)
    ensures var (s', o') := AfterPut(StateOf(capacity, puts, gets), e, item);
            && s' == StateOf(capacity, puts + [Waiting(e, item)], gets)
            && Handed(capacity, puts + [Waiting(e, item)], gets, o + o')
  {
    Projections(puts[Matched(puts, gets)..Completed(capacity, puts, gets)], Waiting(e, item));
    hide Deliveries, Completions, Items, Events, Pairs;
    if |gets| > |puts| {
      PutServes(capacity, puts, gets, o, e, item);
    } else if capacity <= 0 || |puts| - |gets| < capacity {
      PutFits(capacity, puts, gets, o, e, item);
    } else {
      PutBlocks(capacity, puts, gets, o, e, item);
    }
  }

  lemma PutServes(capacity: int, puts: seq<Waiting>, gets: seq<EventId>, o: seq<Out>, e: EventId, item: Value)
    requires Handed(capacity, puts, gets, o) && |gets| > |puts|
    ensures var s := StateOf(capacity, puts, gets);
            && s.getters != []
            && s.(getters := s.getters[1..]) == StateOf(capacity, puts + [Waiting(e, item)], gets)
            && Handed(capacity, puts + [Waiting(e, item)], gets, o + [Deliver(s.getters[0], item), Complete(e)])
  {
    var n := |puts|;
    var puts' := puts + [Waiting(e, item)];
    var o' := [Deliver(gets[n], item), Complete(e)];
    OutsAppend(o, o');
    assert Deliveries(o') == [Waiting(gets[n], item)] && Completions(o') == [e] by {
      TwoOuts(Deliver(gets[n], item), Complete(e));
    }
    hide Deliveries, Completions;
    MorePairs(gets, puts, n, e, Waiting(e, item));
    Projections(puts, Waiting(e, item));
    hide Items, Events, Pairs;
    assert Matched(puts, gets) == n && Matched(puts', gets) == n + 1;
    assert puts[n..n] == puts'[n + 1..n + 1] == [] && puts[..n] == puts && puts'[..n + 1] == puts';
  }

  lemma PutFits(capacity: int, puts: seq<Waiting>, gets: seq<EventId>, o: seq<Out>, e: EventId, item: Value)
    requires Handed(capacity, puts, gets, o) && |gets| <= |puts|
    requires capacity <= 0 || |puts| - |gets| < capacity
    ensures var s := StateOf(capacity, puts, gets);
            && s.(items := s.items + [item]) == StateOf(capacity, puts + [Waiting(e, item)], gets)
            && Handed(capacity, puts + [Waiting(e, item)], gets, o + [Complete(e)])
  {
    var puts' := puts + [Waiting(e, item)];
    var m, d := |gets|, |puts|;
    OutsAppend(o, [Complete(e)]);
    assert Deliveries([Complete(e)]) == [] && Completions([Complete(e)]) == [e] by { TwoOuts(Complete(e), Complete(e)); }
    hide Deliveries, Completions;
    MorePairs(gets, puts, m, e, Waiting(e, item));
    Projections(puts[m..], Waiting(e, item));
    Projections(puts, Waiting(e, item));
    hide Items, Events, Pairs;
    assert Matched(puts, gets) == Matched(puts', gets) == m;
    assert Completed(capacity, puts, gets) == d && Completed(capacity, puts', gets) == d + 1;
    assert puts[m..d] == puts[m..] && puts'[m..d + 1] == puts[m..] + [Waiting(e, item)];
    assert puts[..d] == puts && puts'[..d + 1] == puts' && puts[d..] == puts'[d + 1..] == [];
  }

  lemma PutBlocks(capacity: int, puts: seq<Waiting>, gets: seq<EventId>, o: seq<Out>, e: EventId, item: Value)
    requires Handed(capacity, puts, gets, o) && |gets| <= |puts|
    requires 0 < capacity <= |puts| - |gets|
    ensures var s := StateOf(capacity, puts, gets);
            && s.(putters := s.putters + [Waiting(e, item)]) == StateOf(capacity, puts + [Waiting(e, item)], gets)
            && Handed(capacity, puts + [Waiting(e, item)], gets, o + [])
  {
    var puts' := puts + [Waiting(e, item)];
    var m, d := |gets|, |gets| + capacity;
    MorePairs(gets, puts, m, e, Waiting(e, item));
    hide Deliveries, Completions, Items, Events, Pairs;
    assert puts'[m..d] == puts[m..d] && puts'[..d] == puts[..d] && puts'[d..] == puts[d..] + [Waiting(e, item)];
    assert o + [] == o;
  }

  lemma GetStep(capacity: int, puts: seq<Waiting>, gets: seq<EventId>, o: seq<Out>, e: EventId)
    requires Handed(capacity, puts, gets, o)
    ensures var (s', o') := AfterGet(StateOf(capacity, puts, gets), e);
            && s' == StateOf(capacity, puts, gets + [e])
            && Handed(capacity, puts, gets + [e], o + o')
  {
    var m, d := Matched(puts, gets), Completed(capacity, puts, gets);
    Projections(puts[m..d], Waiting(e, NULL));
    MorePairs(gets, puts, m, e, Waiting(e, NULL));
    hide Deliveries, Completions, Items, Events, Pairs;
    if |puts| <= |gets| {
      assert o + [] == o;
    } else if d == |puts| {
      GetTakes(capacity, puts, gets, o, e);
    } else {
      GetMakesRoom(capacity, puts, gets, o, e);
    }
  }

  lemma GetTakes(capacity: int, puts: seq<Waiting>, gets: seq<EventId>, o: seq<Out>, e: EventId)
    requires Handed(capacity, puts, gets, o)
    requires |gets| < |puts| == Completed(capacity, puts, gets)
    ensures var s := StateOf(capacity, puts, gets);
            && s.items != [] && s.putters == []
            && s.(items := s.items[1..]) == StateOf(capacity, puts, gets + [e])
            && Handed(capacity, puts, gets + [e], o + [Deliver(e, s.items[0])])
  {
    var m := |gets|;
    var out := Deliver(e, puts[m].item);
    OutsAppend(o, [out]);
    TwoOuts(out, out);
    MorePairs(gets, puts, m, e, puts[m]);
    Projections(puts[m..], puts[m]);
    hide Deliveries, Completions, Items, Events, Pairs;
    var gets' := gets + [e];
    assert puts[m..|puts|] == puts[m..] && puts[m..][1..] == puts[m + 1..|puts|];
    assert Matched(puts, gets) == m && Matched(puts, gets') == m + 1;
    assert Completed(capacity, puts, gets') == |puts|;
    assert gets[m..] == gets'[m + 1..];
  }

  lemma GetMakesRoom(capacity: int, puts: seq<Waiting>, gets: seq<EventId>, o: seq<Out>, e: EventId)
    requires Handed(capacity, puts, gets, o)
    requires |gets| < |puts| && Completed(capacity, puts, gets) < |puts|
    ensures var s := StateOf(capacity, puts, gets);
            && s.items != [] && s.putters != []
            && var w := s.putters[0];
            && s.(items := s.items[1..] + [w.item], putters := s.putters[1..]) == StateOf(capacity, puts, gets + [e])
            && Handed(capacity, puts, gets + [e], o + [Deliver(e, s.items[0]), Complete(w.e)])
  {
    var m, d := |gets|, |gets| + capacity;
    Projections(puts[m..d], puts[d]);
    RoomMade(capacity, puts, gets, e);
    hide Deliveries, Completions, Items, Events, Pairs;
    assert Items(puts[m..d])[0] == puts[m].item && puts[d..][0] == puts[d];
    RoomHanded(capacity, puts, gets, o, e);
  }

  lemma RoomMade(capacity: int, puts: seq<Waiting>, gets: seq<EventId>, e: EventId)
    requires |gets| < |puts| && 0 < capacity < |puts| - |gets|
    ensures var m, d := |gets|, |gets| + capacity;
            StateOf(capacity, puts, gets + [e]) ==
            State(capacity, Items(puts[m..d])[1..] + [puts[d].item], [], puts[d + 1..])
  {
    var m, d := |gets|, |gets| + capacity;
    Projections(puts[m..d], puts[d]);
    Projections(puts[m + 1..d], puts[d]);
    hide Items;
    assert puts[m..d][1..] == puts[m + 1..d] && puts[m + 1..d + 1] == puts[m + 1..d] + [puts[d]];
  }

  lemma RoomHanded(capacity: int, puts: seq<Waiting>, gets: seq<EventId>, o: seq<Out>, e: EventId)
    requires Handed(capacity, puts, gets, o)
    requires |gets| < |puts| && 0 < capacity < |puts| - |gets|
    ensures Handed(capacity, puts, gets + [e], o + [Deliver(e, puts[|gets|].item), Complete(puts[|gets| + capacity].e)])
  {
    var m, d := |gets|, |gets| + capacity;
    var out := Deliver(e, puts[m].item);
    var o' := [out, Complete(puts[d].e)];
    OutsAppend(o, o');
    assert Deliveries(o') == [Waiting(e, puts[m].item)] && Completions(o') == [puts[d].e] by {
      TwoOuts(out, Complete(puts[d].e));
    }
    hide Deliveries, Completions;
    MorePairs(gets, puts, m, e, puts[m]);
    Projections(puts[..d], puts[d]);
    hide Events, Pairs;
    assert puts[..d + 1] == puts[..d] + [puts[d]];
    assert Matched(puts, gets + [e]) == m + 1 && Completed(capacity, puts, gets + [e]) == d + 1;
  }

  // ---------- what each call hands out ----------

  /** From the calls before it alone. A put serves the get of its own number, if that has been called, and then
      completes; otherwise it completes if fewer than a bufferful of puts before it are unmatched. A get is served
      the item of the put of its own number, if that has been called; and then, in a bounded store, the put that
      this makes room for completes. */
  function Answer(capacity: int, puts: seq<Waiting>, gets: seq<EventId>, op: Op): seq<Out> {
    match op
    case PutOp(e, item) =>
      if |puts| < |gets| then [Deliver(gets[|puts|], item), Complete(e)]
      else if capacity <= 0 || |puts| - |gets| < capacity then [Complete(e)]
      else []
    case GetOp(e) =>
      if |gets| >= |puts| then []
      else [Deliver(e, puts[|gets|].item)] +
           if 0 < capacity < |puts| - |gets| then [Complete(puts[|gets| + capacity].e)] else []
  }

  function Answers(capacity: int, ops: seq<Op>): seq<Out> {
    if ops == [] then []
    else
      var before := ops[..|ops| - 1];
      Answers(capacity, before) + Answer(capacity, Puts(before), Gets(before), ops[|ops| - 1])
  }

  /** Everything a store hands to the kernel, and the order of it, is that. */
  lemma {:induction false} AnswersInOrder(capacity: int, ops: seq<Op>)
    ensures Run(capacity, ops).1 == Answers(capacity, ops)
  {
    if ops != [] {
      var before, op := ops[..|ops| - 1], ops[|ops| - 1];
      AnswersInOrder(capacity, before);
      FifoState(capacity, before);
      OneAnswer(capacity, Puts(before), Gets(before), op);
      hide StateOf, Do, Answer, Puts, Gets;
    }
  }

  lemma FifoState(capacity: int, ops: seq<Op>)
    ensures Run(capacity, ops).0 == StateOf(capacity, Puts(ops), Gets(ops))
  {
    hide Run, StateOf, Puts, Gets, Handed;
    RefinesFifo(capacity, ops);
  }

  lemma OneAnswer(capacity: int, puts: seq<Waiting>, gets: seq<EventId>, op: Op)
    ensures Do(StateOf(capacity, puts, gets), op).1 == Answer(capacity, puts, gets, op)
  {
    var m, d := Matched(puts, gets), Completed(capacity, puts, gets);
    assert |Items(puts[m..d])| == d - m;
    if |gets| < |puts| { assert Items(puts[m..d])[0] == puts[m].item; }
    assert d < |puts| ==> puts[d..][0] == puts[d];
  }
}
