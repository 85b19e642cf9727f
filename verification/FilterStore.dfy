/** A store whose getters say which items they accept. */
module FilterStores {
  import opened Bags
  import opened K = Kernel

  /** A waiting get; no filter accepts everything. */
  datatype Getter = Getter(e: EventId, filter: Option<Value -> bool>)

  datatype Putter = Putter(e: EventId, item: Value)

  datatype Out = Deliver(g: Getter, item: Value) | Complete(e: EventId)

  datatype State = State(capacity: int, items: seq<Value>, getters: seq<Getter>, putters: seq<Putter>)

  predicate Accepts(g: Getter, item: Value) {
    g.filter.Some? ==> g.filter.value(item)
  }

  /** The place of the first item `g` accepts, or the length. */
  function FirstItem(items: seq<Value>, g: Getter): (i: nat)
    ensures i <= |items|
    ensures i < |items| ==> Accepts(g, items[i])
    ensures forall j :: 0 <= j < i ==> !Accepts(g, items[j])
  {
    if items == [] || Accepts(g, items[0]) then 0 else 1 + FirstItem(items[1..], g)
  }

  /** The place of the first getter that accepts `item`, or the length. */
  function FirstGetter(getters: seq<Getter>, item: Value): (i: nat)
    ensures i <= |getters|
    ensures i < |getters| ==> Accepts(getters[i], item)
    ensures forall j :: 0 <= j < i ==> !Accepts(getters[j], item)
  {
    if getters == [] || Accepts(getters[0], item) then 0 else 1 + FirstGetter(getters[1..], item)
  }

  /** The place of the first getter that accepts any buffered item, or the length. */
  function FirstServable(getters: seq<Getter>, items: seq<Value>): (i: nat)
    ensures i <= |getters|
    ensures i < |getters| ==> FirstItem(items, getters[i]) < |items|
    ensures forall j :: 0 <= j < i ==> FirstItem(items, getters[j]) == |items|
  {
    if getters == [] || FirstItem(items, getters[0]) < |items| then 0 else 1 + FirstServable(getters[1..], items)
  }

  function Without<T>(s: seq<T>, i: nat): seq<T>
    requires i < |s|
  {
    s[..i] + s[i + 1..]
  }

  /** try_dispatch_to_waiters. */
  function HandOver(s: State): (State, seq<Out>) {
    var i := FirstServable(s.getters, s.items);
    if i == |s.getters| then (s, [])
    else
      var g := s.getters[i];
      var k := FirstItem(s.items, g);
      (s.(items := Without(s.items, k), getters := Without(s.getters, i)), [Deliver(g, s.items[k])])
  }

  /** sim_filter_store_put, with the event just allocated for it. */
  function AfterPut(s: State, e: EventId, item: Value): (State, seq<Out>) {
    var i := FirstGetter(s.getters, item);
    if s.capacity > 0 && |s.items| >= s.capacity then
      (s.(putters := s.putters + [Putter(e, item)]), [])
    else if i < |s.getters| then
      (s.(getters := Without(s.getters, i)), [Deliver(s.getters[i], item), Complete(e)])
    else
      (s.(items := s.items + [item]), [Complete(e)])
  }

  /** sim_filter_store_get. */
  function AfterGet(s: State, g: Getter): (State, seq<Out>) {
    var k := FirstItem(s.items, g);
    if k == |s.items| then (s.(getters := s.getters + [g]), [])
    else
      var (s1, o) := LetPutIn(s.(items := Without(s.items, k)));
      (s1, [Deliver(g, s.items[k])] + o)
  }

  /** A put that waits is let in, and the dispatch is run once. */
  function LetPutIn(s: State): (State, seq<Out>) {
    if s.putters == [] then (s, [])
    else
      var w := s.putters[0];
      var (s1, o) := HandOver(s.(items := s.items + [w.item], putters := s.putters[1..]));
      (s1, [Complete(w.e)] + o)
  }

  /** The store object; `out` is what it has handed to the kernel so far. */
  class FilterStore {
    const capacity: int
    var count: int
    var items: seq<Value>
    var getters: seq<Getter>
    var putters: seq<Putter>
    var out: seq<Out>

    ghost predicate Valid()
      reads this
    {
      count == |items|
    }

    ghost function Abs(): State
      reads this
    {
      State(capacity, items, getters, putters)
    }

    constructor (capacity: int)
      ensures Valid() && Abs() == State(capacity, [], [], []) && out == []
    {
      this.capacity := capacity;
      count, items, getters, putters, out := 0, [], [], [], [];
    }

    method BufferItem(item: Value)
      modifies this`items, this`count
      ensures items == old(items) + [item] && count == old(count) + 1
    {
      items := items + [item];
      count := count + 1;
    }

    /** Scans the buffer for `g`, as both the get call and the dispatch do. */
    method Scan(g: Getter) returns (k: nat)
      ensures k == FirstItem(items, g)
    {
      k := 0;
      while k < |items| && !Accepts(g, items[k])
        invariant k <= |items|
        invariant FirstItem(items, g) == k + FirstItem(items[k..], g)
      {
        k := k + 1;
      }
    }

    method TryDispatchToWaiters()
      requires Valid()
      modifies this
      ensures Valid()
      ensures var (s, o) := HandOver(old(Abs())); Abs() == s && out == old(out) + o
    {
      var i := 0;
      while i < |getters|
        invariant 0 <= i <= |getters| && Valid()
        invariant Abs() == old(Abs()) && out == old(out)
        invariant FirstServable(getters, items) == i + FirstServable(getters[i..], items)
      {
        var g := getters[i];
        var k := Scan(g);
        if k < |items| {
          var item := items[k];
          items := items[..k] + items[k + 1..];
          count := count - 1;
          getters := getters[..i] + getters[i + 1..];
          out := out + [Deliver(g, item)];
          return;
        }
        i := i + 1;
      }
    }

    method Put(e: EventId, item: Value)
      requires Valid()
      modifies this
      ensures Valid()
      ensures var (s, o) := AfterPut(old(Abs()), e, item); Abs() == s && out == old(out) + o
    {
      if capacity > 0 && count >= capacity {
        putters := putters + [Putter(e, item)];
        return;
      }
      var i := 0;
      while i < |getters|
        invariant 0 <= i <= |getters| && Valid()
        invariant Abs() == old(Abs()) && out == old(out)
        invariant FirstGetter(getters, item) == i + FirstGetter(getters[i..], item)
      {
        var g := getters[i];
        if Accepts(g, item) {
          getters := getters[..i] + getters[i + 1..];
          out := out + [Deliver(g, item)];
          out := out + [Complete(e)];
          return;
        }
        i := i + 1;
      }
      BufferItem(item);
      out := out + [Complete(e)];
    }

    method Get(e: EventId, filter: Option<Value -> bool>)
      requires Valid()
      modifies this
      ensures Valid()
      ensures var (s, o) := AfterGet(old(Abs()), Getter(e, filter)); Abs() == s && out == old(out) + o
    {
      hide FirstItem, LetPutIn;
      var g := Getter(e, filter);
      var k := Scan(g);
      if k < |items| {
        TakeItem(k, g);
        DrainPut();
        return;
      }
      getters := getters + [g];
    }

    /** The item at place `k` of the buffer is unlinked and delivered. */
    method TakeItem(k: nat, g: Getter)
      requires Valid() && k < |items|
      modifies this`items, this`count, this`out
      ensures Valid()
      ensures items == Without(old(items), k) && out == old(out) + [Deliver(g, old(items)[k])]
    {
      var item := items[k];
      items := items[..k] + items[k + 1..];
      count := count - 1;
      out := out + [Deliver(g, item)];
    }

    /** A slot has been freed: a waiting put takes it, and its item may go on to a waiting getter. */
    method DrainPut()
      requires Valid()
      modifies this
      ensures Valid()
      ensures var (s, o) := LetPutIn(old(Abs())); Abs() == s && out == old(out) + o
    {
      hide HandOver;
      if putters != [] {
        var w := putters[0];
        putters := putters[1..];
        BufferItem(w.item);
        out := out + [Complete(w.e)];
        TryDispatchToWaiters();
      }
    }
  }

  // ---------- no getter waits for an item that is there ----------

  ghost predicate NoMatch(s: State) {
    forall i, j :: 0 <= i < |s.getters| && 0 <= j < |s.items| ==> !Accepts(s.getters[i], s.items[j])
  }

  predicate Bounded(s: State) {
    s.capacity > 0 ==> |s.items| <= s.capacity
  }

  lemma {:induction false} PutKeeps(s: State, e: EventId, item: Value)
    requires NoMatch(s) && Bounded(s)
    ensures NoMatch(AfterPut(s, e, item).0) && Bounded(AfterPut(s, e, item).0)
  {
    var s' := AfterPut(s, e, item).0;
    forall i, j | 0 <= i < |s'.getters| && 0 <= j < |s'.items| ensures !Accepts(s'.getters[i], s'.items[j]) {
      assert s'.getters[i] in s.getters;
    }
  }

  lemma FirstAtEnd(items: seq<Value>, item: Value, g: Getter)
    requires forall j :: 0 <= j < |items| ==> !Accepts(g, items[j])
    ensures FirstItem(items + [item], g) == if Accepts(g, item) then |items| else |items| + 1
  {
    var all := items + [item];
    assert all[|items|] == item && forall j :: 0 <= j < |items| ==> all[j] == items[j];
  }

  /** With one new item at the end of a buffer nobody wanted, the one dispatch pass can only match that
      item; it hands it to the first getter that accepts it, and restores the invariant. */
  lemma HandOverOne(s: State, item: Value)
    requires NoMatch(s)
    ensures var s1 := s.(items := s.items + [item]);
            var (s2, o) := HandOver(s1);
            var i := FirstGetter(s.getters, item);
            && NoMatch(s2)
            && (if i < |s.getters| then s2 == s.(getters := Without(s.getters, i)) && o == [Deliver(s.getters[i], item)]
                else s2 == s1 && o == [])
  {
    var items := s.items + [item];
    forall j | 0 <= j < |s.getters|
      ensures FirstItem(items, s.getters[j]) == if Accepts(s.getters[j], item) then |s.items| else |items| {
      FirstAtEnd(s.items, item, s.getters[j]);
    }
    var i := FirstGetter(s.getters, item);
    assert FirstServable(s.getters, items) == i;
    if i < |s.getters| {
      assert Without(items, |s.items|) == s.items;
    }
  }

  lemma {:induction false} GetKeeps(s: State, g: Getter)
    requires NoMatch(s) && Bounded(s)
    ensures NoMatch(AfterGet(s, g).0) && Bounded(AfterGet(s, g).0)
  {
    var k := FirstItem(s.items, g);
    if k < |s.items| {
      var s1 := s.(items := Without(s.items, k), putters := if s.putters == [] then [] else s.putters[1..]);
      assert NoMatch(s1);
      if s.putters != [] { HandOverOne(s1, s.putters[0].item); }
    }
  }

  /** A get takes the earliest item it accepts; if a put was waiting, that put completes and its item goes
      to the earliest getter that accepts it, or else to the end of the buffer. */
  lemma GetFirstFit(s: State, g: Getter, k: nat)
    requires NoMatch(s) && k < |s.items| && Accepts(g, s.items[k])
    requires forall j :: 0 <= j < k ==> !Accepts(g, s.items[j])
    ensures var (s', o) := AfterGet(s, g);
            && o != [] && o[0] == Deliver(g, s.items[k])
            && (s.putters == [] ==> s' == s.(items := Without(s.items, k)) && |o| == 1)
            && (s.putters != [] ==>
              var w := s.putters[0]; var i := FirstGetter(s.getters, w.item);
              && s'.putters == s.putters[1..] && o[1..] == [Complete(w.e)] + o[2..]
              && (if i < |s.getters| then
                && s'.items == Without(s.items, k) && s'.getters == Without(s.getters, i)
                && o[2..] == [Deliver(s.getters[i], w.item)]
              else s'.items == Without(s.items, k) + [w.item] && s'.getters == s.getters && o[2..] == []))
  {
    assert FirstItem(s.items, g) == k;
    if s.putters != [] {
      var s1 := s.(items := Without(s.items, k), putters := s.putters[1..]);
      HandOverOne(s1, s.putters[0].item);
    }
  }

  /** A put that is not blocked goes to the earliest getter that accepts its item, past the buffer. */
  lemma {:induction false} PutFirstFit(s: State, e: EventId, item: Value, i: nat)
    requires s.capacity <= 0 || |s.items| < s.capacity
    requires i < |s.getters| && Accepts(s.getters[i], item)
    requires forall j :: 0 <= j < i ==> !Accepts(s.getters[j], item)
    ensures AfterPut(s, e, item) ==
            (s.(getters := Without(s.getters, i)), [Deliver(s.getters[i], item), Complete(e)])
  {
    assert FirstGetter(s.getters, item) == i;
  }

  /** And one that no waiting getter accepts goes to the end of the buffer, and changes nothing else. */
  lemma {:induction false} PutBuffers(s: State, e: EventId, item: Value)
    requires s.capacity <= 0 || |s.items| < s.capacity
    requires forall j :: 0 <= j < |s.getters| ==> !Accepts(s.getters[j], item)
    ensures AfterPut(s, e, item) == (State(s.capacity, s.items + [item], s.getters, s.putters), [Complete(e)])
  {
  }

  // ---------- a slot can be free while a put waits ----------

  /** What one would expect of a bounded store, and what does not always hold. */
  predicate FullIfPutsWait(s: State) {
    s.putters != [] ==> s.capacity > 0 && |s.items| == s.capacity
  }

  /** Exactly when it breaks: a get takes an item, the put it lets in is passed straight on to a waiting
      getter, and another put is still waiting. */
  lemma GetKeepsFullUnless(s: State, g: Getter)
    requires NoMatch(s) && Bounded(s) && FullIfPutsWait(s)
    ensures FullIfPutsWait(AfterGet(s, g).0) <==>
            !(|s.putters| >= 2 && FirstItem(s.items, g) < |s.items| &&
              FirstGetter(s.getters, s.putters[0].item) < |s.getters|)
  {
    var k := FirstItem(s.items, g);
    if k < |s.items| && s.putters != [] {
      GetFirstFit(s, g, k);
    }
  }

  lemma {:induction false} PutKeepsFull(s: State, e: EventId, item: Value)
    requires NoMatch(s) && Bounded(s) && FullIfPutsWait(s)
    ensures FullIfPutsWait(AfterPut(s, e, item).0)
  {
  }

  /** A history of five calls after which a store of one slot is empty and a put waits. */
  lemma FreeSlotExample()
    ensures var even := Getter(0, Some((v: Value) => v % 2 == 0));
            var any := Getter(4, None);
            var ops := [GetOp(even), PutOp(1, 1), PutOp(2, 2), PutOp(3, 3), GetOp(any)];
            Run(1, ops).0 == State(1, [], [], [Putter(3, 3)])
  {
    var even := Getter(0, Some((v: Value) => v % 2 == 0));
    var any := Getter(4, None);
    var ops := [GetOp(even), PutOp(1, 1), PutOp(2, 2), PutOp(3, 3), GetOp(any)];
    assert ops[..4] == [GetOp(even), PutOp(1, 1), PutOp(2, 2), PutOp(3, 3)];
    assert ops[..4][..3] == [GetOp(even), PutOp(1, 1), PutOp(2, 2)];
    assert ops[..4][..3][..2] == [GetOp(even), PutOp(1, 1)];
    assert ops[..4][..3][..2][..1] == [GetOp(even)];
    assert ops[..4][..3][..2][..1][..0] == [];
    assert Run(1, []).0 == State(1, [], [], []);
    assert Run(1, [GetOp(even)]).0 == State(1, [], [even], []);
    assert Run(1, [GetOp(even), PutOp(1, 1)]).0 == State(1, [1], [even], []);
    assert Run(1, ops[..4][..3]).0 == State(1, [1], [even], [Putter(2, 2)]);
    var s4 := State(1, [1], [even], [Putter(2, 2), Putter(3, 3)]);
    assert Run(1, ops[..4]).0 == s4;
    GetFirstFit(s4, any, 0);
    assert FirstGetter(s4.getters, 2) == 0;
  }

  // ---------- histories ----------

  datatype Op = PutOp(e: EventId, item: Value) | GetOp(g: Getter)

  function Do(s: State, op: Op): (State, seq<Out>) {
    match op
    case PutOp(e, item) => AfterPut(s, e, item)
    case GetOp(g) => AfterGet(s, g)
  }

  function Run(capacity: int, ops: seq<Op>): (State, seq<Out>) {
    if ops == [] then (State(capacity, [], [], []), [])
    else
      var (s, o) := Run(capacity, ops[..|ops| - 1]);
      var (s', o') := Do(s, ops[|ops| - 1]);
      (s', o + o')
  }

  /** The items of the put calls, of the puts still waiting, and of the deliveries, with multiplicity. */
  function Incoming(op: Op): multiset<Value> {
    if op.PutOp? then multiset{op.item} else multiset{}
  }

  function HeldBy(w: Putter): multiset<Value> {
    multiset{w.item}
  }

  function DeliveredBy(o: Out): multiset<Value> {
    if o.Deliver? then multiset{o.item} else multiset{}
  }

  function PutItems(ops: seq<Op>): multiset<Value> {
    Tally(ops, Incoming)
  }

  function Held(ps: seq<Putter>): multiset<Value> {
    Tally(ps, HeldBy)
  }

  function Delivered(o: seq<Out>): multiset<Value> {
    Tally(o, DeliveredBy)
  }

  lemma HeldAppend(ps: seq<Putter>, p: Putter)
    ensures Held(ps + [p]) == Held(ps) + multiset{p.item}
  {
    TallyAppend(ps, [p], HeldBy);
    TallyFew(p, p, HeldBy);
  }

  lemma HeldFirst(ps: seq<Putter>)
    requires ps != []
    ensures Held(ps) == multiset{ps[0].item} + Held(ps[1..])
  {
    TallyFirst(ps, HeldBy);
  }

  lemma DeliveredAppend(a: seq<Out>, b: seq<Out>)
    ensures Delivered(a + b) == Delivered(a) + Delivered(b)
  {
    TallyAppend(a, b, DeliveredBy);
  }

  /** Everything the store holds. */
  function Stock(s: State): multiset<Value> {
    multiset(s.items) + Held(s.putters)
  }

  lemma WithoutItem(items: seq<Value>, k: nat)
    requires k < |items|
    ensures multiset(items) == multiset(Without(items, k)) + multiset{items[k]}
  {
    assert items == items[..k] + [items[k]] + items[k + 1..];
  }

  lemma Outs(g: Getter, item: Value, e: EventId)
    ensures Delivered([]) == multiset{} && Delivered([Complete(e)]) == multiset{}
    ensures Delivered([Deliver(g, item)]) == multiset{item}
    ensures Delivered([Deliver(g, item), Complete(e)]) == multiset{item}
  {
    TallyFew(Deliver(g, item), Complete(e), DeliveredBy);
    TallyFew(Complete(e), Complete(e), DeliveredBy);
  }

  lemma HandOverConserves(s: State)
    ensures Stock(s) == Stock(HandOver(s).0) + Delivered(HandOver(s).1)
  {
    hide Held, Delivered;
    var i := FirstServable(s.getters, s.items);
    Outs(Getter(0, None), 0, 0);
    if i < |s.getters| {
      var k := FirstItem(s.items, s.getters[i]);
      Outs(s.getters[i], s.items[k], 0);
      WithoutItem(s.items, k);
    }
  }

  lemma PutConserves(s: State, e: EventId, item: Value)
    ensures var (s', o) := AfterPut(s, e, item); Stock(s) + multiset{item} == Stock(s') + Delivered(o)
  {
    hide Held, Delivered;
    var i := FirstGetter(s.getters, item);
    HeldAppend(s.putters, Putter(e, item));
    Outs(if i < |s.getters| then s.getters[i] else Getter(e, None), item, e);
  }

  lemma LetPutInConserves(s: State)
    ensures Stock(s) == Stock(LetPutIn(s).0) + Delivered(LetPutIn(s).1)
  {
    hide Held, Delivered, HandOver;
    Outs(Getter(0, None), 0, 0);
    if s.putters != [] {
      var w := s.putters[0];
      var s1 := s.(items := s.items + [w.item], putters := s.putters[1..]);
      HandOverConserves(s1);
      DeliveredAppend([Complete(w.e)], HandOver(s1).1);
      Outs(Getter(0, None), 0, w.e);
      HeldFirst(s.putters);
      assert multiset(s1.items) == multiset(s.items) + multiset{w.item};
      assert Stock(s) == Stock(s1);
      assert multiset{} + Delivered(HandOver(s1).1) == Delivered(HandOver(s1).1);
    }
  }

  lemma GetConserves(s: State, g: Getter)
    ensures var (s', o) := AfterGet(s, g); Stock(s) == Stock(s') + Delivered(o)
  {
    hide Held, Delivered, LetPutIn;
    var k := FirstItem(s.items, g);
    Outs(g, 0, 0);
    if k < |s.items| {
      var s1 := s.(items := Without(s.items, k));
      WithoutItem(s.items, k);
      LetPutInConserves(s1);
      DeliveredAppend([Deliver(g, s.items[k])], LetPutIn(s1).1);
      Outs(g, s.items[k], 0);
      assert Stock(s) == Stock(s1) + multiset{s.items[k]};
    }
  }

  /** Every delivered item is one its getter accepts. */
  ghost predicate Suits(o: seq<Out>) {
    forall i :: 0 <= i < |o| && o[i].Deliver? ==> Accepts(o[i].g, o[i].item)
  }

  lemma PutSuits(s: State, e: EventId, item: Value)
    ensures Suits(AfterPut(s, e, item).1)
  {
  }

  lemma GetSuits(s: State, g: Getter)
    ensures Suits(AfterGet(s, g).1)
  {
    var k := FirstItem(s.items, g);
    if k < |s.items| && s.putters != [] {
      var w := s.putters[0];
      var s1 := s.(items := Without(s.items, k) + [w.item], putters := s.putters[1..]);
      assert Suits(HandOver(s1).1);
    }
  }

  lemma DoKeeps(s: State, op: Op)
    requires NoMatch(s) && Bounded(s)
    ensures var (s', o') := Do(s, op);
            && s'.capacity == s.capacity && NoMatch(s') && Bounded(s') && Suits(o')
            && Stock(s) + Incoming(op) == Stock(s') + Delivered(o')
  {
    hide NoMatch, Stock, Delivered, Suits;
    if op.PutOp? {
      PutKeeps(s, op.e, op.item);
      PutConserves(s, op.e, op.item);
      PutSuits(s, op.e, op.item);
    } else {
      GetKeeps(s, op.g);
      GetConserves(s, op.g);
      GetSuits(s, op.g);
    }
  }

  /** After any calls, with any filters: nothing in the buffer is accepted by a waiting getter, a positive
      capacity is kept, every delivered item suits its getter, and the items put are those in the buffer,
      those held by waiting puts, and those delivered. */
  lemma {:induction false} Conserving(capacity: int, ops: seq<Op>)
    ensures var (s, o) := Run(capacity, ops);
            && s.capacity == capacity && NoMatch(s) && Bounded(s) && Suits(o)
            && PutItems(ops) == Stock(s) + Delivered(o)
  {
    if ops != [] {
      var before, op := ops[..|ops| - 1], ops[|ops| - 1];
      Conserving(capacity, before);
      var (s, o) := Run(capacity, before);
      DoKeeps(s, op);
      hide NoMatch, Bounded, Stock, Suits, Do, Incoming;
      var (s', o') := Do(s, op);
      DeliveredAppend(o, o');
      MoreSuit(o, o');
      Adds(PutItems(before), Incoming(op), Stock(s), Delivered(o), Stock(s'), Delivered(o'));
    }
  }

  lemma MoreSuit(o: seq<Out>, o': seq<Out>)
    requires Suits(o) && Suits(o')
    ensures Suits(o + o')
  {
  }
}
