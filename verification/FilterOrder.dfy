/** The order in which the puts of a filter store complete. */
module FilterOrders {
  import opened Bags
  import K = Kernel
  import opened FilterStores

  function PutId(op: Op): seq<K.EventId> {
    if op.PutOp? then [op.e] else []
  }

  function CompletionOf(o: Out): seq<K.EventId> {
    if o.Complete? then [o.e] else []
  }

  function WaitingOf(w: Putter): seq<K.EventId> {
    [w.e]
  }

  /** The put calls of a history in order, those that completed, and those that wait. */
  function Puts(ops: seq<Op>): seq<K.EventId> {
    Collect(ops, PutId)
  }

  function Completions(o: seq<Out>): seq<K.EventId> {
    Collect(o, CompletionOf)
  }

  function Waiting(ps: seq<Putter>): seq<K.EventId> {
    Collect(ps, WaitingOf)
  }

  /** The puts in the order in which they complete: those that have, then those that wait. */
  function Order(s: State, o: seq<Out>): seq<K.EventId> {
    Completions(o) + Waiting(s.putters)
  }

  predicate Blocked(s: State) {
    s.capacity > 0 && |s.items| >= s.capacity
  }

  /** A put made now completes at once, ahead of one that waits. */
  predicate Overtakes(s: State) {
    s.putters != [] && !Blocked(s)
  }

  lemma CompletionsFew(g: Getter, item: K.Value, e: K.EventId)
    ensures Completions([]) == [] && Completions([Complete(e)]) == [e]
    ensures Completions([Deliver(g, item)]) == [] && Completions([Deliver(g, item), Complete(e)]) == [e]
  {
    CollectFew(Deliver(g, item), Complete(e), CompletionOf);
    CollectFew(Complete(e), Complete(e), CompletionOf);
  }

  lemma PutOrder(s: State, e: K.EventId, item: K.Value)
    ensures var (s', o) := AfterPut(s, e, item);
            if Blocked(s) then Completions(o) == [] && Waiting(s'.putters) == Waiting(s.putters) + [e]
            else Completions(o) == [e] && s'.putters == s.putters
  {
    var i := FirstGetter(s.getters, item);
    CompletionsFew(if i < |s.getters| then s.getters[i] else Getter(e, K.None), item, e);
    CollectAppend(s.putters, [Putter(e, item)], WaitingOf);
    CollectFew(Putter(e, item), Putter(e, item), WaitingOf);
  }

  lemma GetOrder(s: State, g: Getter)
    ensures var (s', o) := AfterGet(s, g); Completions(o) + Waiting(s'.putters) == Waiting(s.putters)
  {
    var k := FirstItem(s.items, g);
    CompletionsFew(g, 0, 0);
    if k < |s.items| {
      var s1 := s.(items := Without(s.items, k));
      var (s2, o) := LetPutIn(s1);
      LetInOrder(s1);
      CollectAppend([Deliver(g, s.items[k])], o, CompletionOf);
      CompletionsFew(g, s.items[k], 0);
    }
  }

  lemma LetInOrder(s: State)
    ensures var (s', o) := LetPutIn(s); Completions(o) + Waiting(s'.putters) == Waiting(s.putters)
  {
    CompletionsFew(Getter(0, K.None), 0, 0);
    if s.putters != [] {
      var w := s.putters[0];
      var s1 := s.(items := s.items + [w.item], putters := s.putters[1..]);
      var (s2, o) := HandOver(s1);
      HandOverCompletesNone(s1);
      CollectAppend([Complete(w.e)], o, CompletionOf);
      CompletionsFew(Getter(0, K.None), 0, w.e);
      CollectFirst(s.putters, WaitingOf);
    }
  }

  lemma HandOverCompletesNone(s: State)
    ensures var (s', o) := HandOver(s); Completions(o) == [] && s'.putters == s.putters
  {
    var i := FirstServable(s.getters, s.items);
    CompletionsFew(Getter(0, K.None), 0, 0);
    if i < |s.getters| { CompletionsFew(s.getters[i], s.items[FirstItem(s.items, s.getters[i])], 0); }
  }

  /** Each put has an event of its own, as long as it waits. */
  ghost predicate OwnEvents(capacity: int, ops: seq<Op>) {
    forall n :: 0 <= n < |ops| && ops[n].PutOp? ==> ops[n].e !in Waiting(Run(capacity, ops[..n]).0.putters)
  }

  ghost predicate NoneOvertakes(capacity: int, ops: seq<Op>) {
    forall n :: 0 <= n < |ops| && ops[n].PutOp? ==> !Overtakes(Run(capacity, ops[..n]).0)
  }

  lemma {:induction false} OneMore(capacity: int, before: seq<Op>, op: Op)
    ensures var ops := before + [op]; var s := Run(capacity, before).0;
            && (NoneOvertakes(capacity, ops) <==> NoneOvertakes(capacity, before) && (op.PutOp? ==> !Overtakes(s)))
            && (OwnEvents(capacity, ops) ==> OwnEvents(capacity, before) && (op.PutOp? ==> op.e !in Waiting(s.putters)))
  {
    hide Run, Overtakes, Waiting;
    var ops := before + [op];
    assert ops[..|before|] == before && ops[|before|] == op;
    assert forall n :: 0 <= n < |before| ==> before[..n] == ops[..n] && before[n] == ops[n];
  }

  /** Puts complete in the order of the calls if and only if no put is made while another waits and a slot is
      free. */
  lemma {:induction false} PutsInOrder(capacity: int, ops: seq<Op>)
    requires OwnEvents(capacity, ops)
    ensures var (s, o) := Run(capacity, ops); Order(s, o) == Puts(ops) <==> NoneOvertakes(capacity, ops)
  {
    if ops != [] {
      var before, op := ops[..|ops| - 1], ops[|ops| - 1];
      assert ops == before + [op];
      OneMore(capacity, before, op);
      PutsInOrder(capacity, before);
      var (s, o) := Run(capacity, before);
      OrderStep(s, o, op);
      assert Puts(ops) == Puts(before) + PutId(op);
      hide NoneOvertakes, OwnEvents, Overtakes, Do, Puts, Waiting, Completions;
      if op.PutOp? {
        SameEnd(Completions(o), Waiting(s.putters), Puts(before), op.e);
      } else {
        assert Puts(before) + [] == Puts(before);
      }
    }
  }

  lemma OrderStep(s: State, o: seq<Out>, op: Op)
    ensures var (s', o') := Do(s, op);
            Order(s', o + o') ==
            if op.GetOp? then Order(s, o)
            else if Overtakes(s) then (Completions(o) + [op.e]) + Waiting(s.putters)
            else Order(s, o) + [op.e]
    ensures Overtakes(s) ==> Waiting(s.putters) != []
  {
    var (s', o') := Do(s, op);
    CollectAppend(o, o', CompletionOf);
    hide AfterPut, AfterGet;
    if s.putters != [] { CollectFirst(s.putters, WaitingOf); }
    if op.PutOp? {
      PutOrder(s, op.e, op.item);
      assert s.putters == [] ==> Waiting(s.putters) == [];
    } else {
      GetOrder(s, op.g);
    }
  }

  /** A put that overtakes does not come last, so the lists differ at the end. */
  lemma SameEnd(done: seq<K.EventId>, waiting: seq<K.EventId>, puts: seq<K.EventId>, e: K.EventId)
    requires e !in waiting
    ensures (done + waiting) + [e] == puts + [e] <==> done + waiting == puts
    ensures waiting != [] ==> (done + [e]) + waiting != puts + [e]
  {
    if (done + waiting) + [e] == puts + [e] {
      assert ((done + waiting) + [e])[..|done + waiting|] == done + waiting;
      assert (puts + [e])[..|puts|] == puts;
    }
    if waiting != [] {
      var all := (done + [e]) + waiting;
      assert all[|all| - 1] == waiting[|waiting| - 1];
      assert (puts + [e])[|puts + [e]| - 1] == e;
    }
  }

  /** In particular they do as long as puts wait only at a full buffer. */
  lemma {:induction false} FullKeepsOrder(capacity: int, ops: seq<Op>)
    requires OwnEvents(capacity, ops)
    requires forall n :: 0 <= n < |ops| ==> FullIfPutsWait(Run(capacity, ops[..n]).0)
    ensures var (s, o) := Run(capacity, ops); Order(s, o) == Puts(ops)
  {
    PutsInOrder(capacity, ops);
  }

  /** A store of one slot that such a history leads to: the put made next completes, and the third one, made
      before it, waits on. */
  lemma OvertakingExample()
    ensures var even := Getter(0, K.Some((v: K.Value) => v % 2 == 0));
            var any := Getter(4, K.None);
            var s := Run(1, [GetOp(even), PutOp(1, 1), PutOp(2, 2), PutOp(3, 3), GetOp(any)]).0;
            Overtakes(s) && AfterPut(s, 5, 5) == (State(1, [5], [], [Putter(3, 3)]), [Complete(5)])
  {
    hide Run;
    FreeSlotExample();
    assert FirstGetter([], 5) == 0;
    assert [] + [5] == [5];
  }
}
