/** The filter store against a ledger that forgets nothing: all puts in the order in which they completed, all
    gets in the order in which they were called, and which of them have been dealt with. The buffer and the
    queue of getters are what the ledger leaves. */
module FilterLedgers {
  import opened Bags
  import K = Kernel
  import opened FilterStores
  import opened FilterOrders

  /** done: the completed puts, in that order. taken: the numbers of those whose item was delivered. gets: the
      get calls, in order. served: the numbers of those that got an item. waiting: the puts not completed. */
  datatype Ledger = Ledger(
    capacity: int, done: seq<Putter>, taken: set<nat>, gets: seq<Getter>, served: set<nat>, waiting: seq<Putter>)

  /** What is left of a list from place `k` on. */
  function Left<T>(all: seq<T>, gone: set<nat>, k: nat): seq<T>
    requires k <= |all|
    decreases |all| - k
  {
    if k == |all| then []
    else (if k in gone then [] else [all[k]]) + Left(all, gone, k + 1)
  }

  function Vals(ps: seq<Putter>): seq<K.Value> {
    seq(|ps|, i requires 0 <= i < |ps| => ps[i].item)
  }

  /** The first of the items left that `g` accepts, or the number of all. */
  function EarliestItem(items: seq<K.Value>, taken: set<nat>, g: Getter, k: nat): (i: nat)
    requires k <= |items|
    ensures k <= i <= |items|
    ensures i < |items| ==> i !in taken && Accepts(g, items[i])
    ensures forall j :: k <= j < i ==> j in taken || !Accepts(g, items[j])
    decreases |items| - k
  {
    if k == |items| || (k !in taken && Accepts(g, items[k])) then k else EarliestItem(items, taken, g, k + 1)
  }

  /** The first of the getters left that accepts `item`, or the number of all. */
  function EarliestGetter(gets: seq<Getter>, served: set<nat>, item: K.Value, k: nat): (i: nat)
    requires k <= |gets|
    ensures k <= i <= |gets|
    ensures i < |gets| ==> i !in served && Accepts(gets[i], item)
    ensures forall j :: k <= j < i ==> j in served || !Accepts(gets[j], item)
    decreases |gets| - k
  {
    if k == |gets| || (k !in served && Accepts(gets[k], item)) then k else EarliestGetter(gets, served, item, k + 1)
  }

  predicate Full(l: Ledger) {
    l.capacity > 0 && |Left(l.done, l.taken, 0)| >= l.capacity
  }

  /** The put `w` completes: its item goes to the earliest getter that accepts it, if there is one. */
  function Completes(l: Ledger, w: Putter): (Ledger, seq<Out>) {
    var j := EarliestGetter(l.gets, l.served, w.item, 0);
    if j == |l.gets| then (l.(done := l.done + [w]), [])
    else (l.(done := l.done + [w], taken := l.taken + {|l.done|}, served := l.served + {j}), [Deliver(l.gets[j], w.item)])
  }

  function NotePut(l: Ledger, w: Putter): (Ledger, seq<Out>) {
    if Full(l) then (l.(waiting := l.waiting + [w]), [])
    else
      var (l1, o) := Completes(l, w);
      (l1, o + [Complete(w.e)])
  }

  /** The get takes, of the items left that it accepts, the one whose put completed first. */
  function NoteGet(l: Ledger, g: Getter): (Ledger, seq<Out>) {
    var i := EarliestItem(Vals(l.done), l.taken, g, 0);
    if i == |l.done| then (l.(gets := l.gets + [g]), [])
    else
      var l1 := l.(taken := l.taken + {i}, gets := l.gets + [g], served := l.served + {|l.gets|});
      var d := Deliver(g, l.done[i].item);
      if l.waiting == [] then (l1, [d])
      else
        var (l2, o) := Completes(l1.(waiting := l.waiting[1..]), l.waiting[0]);
        (l2, [d, Complete(l.waiting[0].e)] + o)
  }

  function Note(l: Ledger, op: Op): (Ledger, seq<Out>) {
    match op
    case PutOp(e, item) => NotePut(l, Putter(e, item))
    case GetOp(g) => NoteGet(l, g)
  }

  function Book(capacity: int, ops: seq<Op>): (Ledger, seq<Out>) {
    if ops == [] then (Ledger(capacity, [], {}, [], {}, []), [])
    else
      var (l, o) := Book(capacity, ops[..|ops| - 1]);
      var (l', o') := Note(l, ops[|ops| - 1]);
      (l', o + o')
  }

  /** What the ledger leaves. */
  function StateOf(l: Ledger): State {
    State(l.capacity, Vals(Left(l.done, l.taken, 0)), Left(l.gets, l.served, 0), l.waiting)
  }

  ghost predicate Fine(l: Ledger) {
    (forall i :: i in l.taken ==> i < |l.done|) && (forall i :: i in l.served ==> i < |l.gets|)
  }

  // ---------- lists and what is left of them ----------

  lemma {:induction false} LeftAppend<T>(all: seq<T>, x: T, gone: set<nat>, k: nat)
    requires k <= |all|
    ensures Left(all + [x], gone, k) == Left(all, gone, k) + if |all| in gone then [] else [x]
    decreases |all| - k
  {
    if k == |all| {
      assert Left(all + [x], gone, k + 1) == [];
    } else {
      LeftAppend(all, x, gone, k + 1);
    }
  }

  /** Places before `k` do not matter. */
  lemma {:induction false} LeftBehind<T>(all: seq<T>, gone: set<nat>, i: nat, k: nat)
    requires i < k <= |all|
    ensures Left(all, gone + {i}, k) == Left(all, gone, k)
    decreases |all| - k
  {
    if k < |all| { LeftBehind(all, gone, i, k + 1); }
  }

  /** Nor do places beyond the end. */
  lemma {:induction false} LeftBeyond<T>(all: seq<T>, gone: set<nat>, i: nat, k: nat)
    requires |all| <= i && k <= |all|
    ensures Left(all, gone + {i}, k) == Left(all, gone, k)
    decreases |all| - k
  {
    if k < |all| { LeftBeyond(all, gone, i, k + 1); }
  }

  lemma {:induction false} LeftVals(ps: seq<Putter>, gone: set<nat>, k: nat)
    requires k <= |ps|
    ensures Vals(Left(ps, gone, k)) == Left(Vals(ps), gone, k)
    decreases |ps| - k
  {
    if k < |ps| { LeftVals(ps, gone, k + 1); }
  }

  lemma LeftHere<T>(all: seq<T>, gone: set<nat>, k: nat)
    requires k < |all|
    ensures Left(all, gone, k) == if k in gone then Left(all, gone, k + 1) else [all[k]] + Left(all, gone, k + 1)
  {
  }

  lemma Cons<T>(x: T, rest: seq<T>)
    ensures Without([x] + rest, 0) == rest
    ensures forall f :: 0 <= f < |rest| ==> Without([x] + rest, f + 1) == [x] + Without(rest, f) && ([x] + rest)[f + 1] == rest[f]
  {
  }

  lemma FirstItemCons(x: K.Value, rest: seq<K.Value>, g: Getter)
    ensures FirstItem([x] + rest, g) == if Accepts(g, x) then 0 else 1 + FirstItem(rest, g)
  {
    assert ([x] + rest)[1..] == rest;
  }

  lemma EarliestItemHere(items: seq<K.Value>, taken: set<nat>, g: Getter, k: nat)
    requires k < |items|
    ensures EarliestItem(items, taken, g, k) ==
            var x := items[k];
            if k !in taken && Accepts(g, x) then k else EarliestItem(items, taken, g, k + 1)
  {
  }

  lemma ItemFoundAtEnd(items: seq<K.Value>, taken: set<nat>, g: Getter)
    ensures EarliestItem(items, taken, g, |items|) == |items| && Left(items, taken, |items|) == [] && FirstItem([], g) == 0
  {
  }

  /** The scan of the buffer finds the earliest item, and unlinking it leaves what the ledger leaves. */
  lemma {:induction false} ItemFound(items: seq<K.Value>, taken: set<nat>, g: Getter, k: nat)
    requires k <= |items|
    ensures var i, left := EarliestItem(items, taken, g, k), Left(items, taken, k);
            var f := FirstItem(left, g);
            if i == |items| then f == |left|
            else f < |left| && left[f] == items[i] && Left(items, taken + {i}, k) == Without(left, f)
    decreases |items| - k
  {
    hide Left, EarliestItem, FirstItem, Without, Accepts;
    if k == |items| {
      ItemFoundAtEnd(items, taken, g);
    } else {
      var i, rest := EarliestItem(items, taken, g, k), Left(items, taken, k + 1);
      EarliestItemHere(items, taken, g, k);
      LeftHere(items, taken, k);
      LeftHere(items, taken + {i}, k);
      FirstItemCons(items[k], rest, g);
      Cons(items[k], rest);
      if i == k {
        LeftBehind(items, taken, k, k + 1);
      } else {
        ItemFound(items, taken, g, k + 1);
      }
    }
  }

  lemma FirstGetterCons(x: Getter, rest: seq<Getter>, item: K.Value)
    ensures FirstGetter([x] + rest, item) == if Accepts(x, item) then 0 else 1 + FirstGetter(rest, item)
  {
    assert ([x] + rest)[1..] == rest;
  }

  lemma EarliestGetterHere(gets: seq<Getter>, served: set<nat>, item: K.Value, k: nat)
    requires k < |gets|
    ensures EarliestGetter(gets, served, item, k) ==
            var x := gets[k];
            if k !in served && Accepts(x, item) then k else EarliestGetter(gets, served, item, k + 1)
  {
  }

  lemma GetterFoundAtEnd(gets: seq<Getter>, served: set<nat>, item: K.Value)
    ensures EarliestGetter(gets, served, item, |gets|) == |gets| && Left(gets, served, |gets|) == [] && FirstGetter([], item) == 0
  {
  }

  /** And the scan of the getters finds the earliest getter. */
  lemma {:induction false} GetterFound(gets: seq<Getter>, served: set<nat>, item: K.Value, k: nat)
    requires k <= |gets|
    ensures var i, left := EarliestGetter(gets, served, item, k), Left(gets, served, k);
            var f := FirstGetter(left, item);
            if i == |gets| then f == |left|
            else f < |left| && left[f] == gets[i] && Left(gets, served + {i}, k) == Without(left, f)
    decreases |gets| - k
  {
    hide Left, EarliestGetter, FirstGetter, Without, Accepts;
    if k == |gets| {
      GetterFoundAtEnd(gets, served, item);
    } else {
      var i, rest := EarliestGetter(gets, served, item, k), Left(gets, served, k + 1);
      EarliestGetterHere(gets, served, item, k);
      LeftHere(gets, served, k);
      LeftHere(gets, served + {i}, k);
      FirstGetterCons(gets[k], rest, item);
      Cons(gets[k], rest);
      if i == k {
        LeftBehind(gets, served, k, k + 1);
      } else {
        GetterFound(gets, served, item, k + 1);
      }
    }
  }

  // ---------- the store keeps the ledger ----------

  lemma CompletesTied(l: Ledger, w: Putter)
    requires Fine(l)
    ensures var s := StateOf(l); var (l', o) := Completes(l, w); var f := FirstGetter(s.getters, w.item);
            && Fine(l') && l'.capacity == l.capacity && l'.waiting == l.waiting && l'.done == l.done + [w]
            && (if f < |s.getters| then
              StateOf(l') == s.(getters := Without(s.getters, f)) && o == [Deliver(s.getters[f], w.item)]
            else StateOf(l') == s.(items := s.items + [w.item]) && o == [])
  {
    GetterFound(l.gets, l.served, w.item, 0);
    LeftAppend(l.done, w, l.taken, 0);
    LeftAppend(l.done, w, l.taken + {|l.done|}, 0);
    LeftBeyond(l.done, l.taken, |l.done|, 0);
    hide Left, FirstGetter, EarliestGetter;
    var left := Left(l.done, l.taken, 0);
    assert Vals(left + [w]) == Vals(left) + [w.item];
    assert left + [] == left;
  }

  lemma PutTied(l: Ledger, w: Putter)
    requires Fine(l)
    ensures var (l', o) := NotePut(l, w); Fine(l') && AfterPut(StateOf(l), w.e, w.item) == (StateOf(l'), o)
  {
    CompletesTied(l, w);
    assert |Vals(Left(l.done, l.taken, 0))| == |Left(l.done, l.taken, 0)|;
    hide Left, FirstGetter, Fine, Completes;
    var s := StateOf(l);
    var f := FirstGetter(s.getters, w.item);
    if f < |s.getters| { assert [Deliver(s.getters[f], w.item)] + [Complete(w.e)] == [Deliver(s.getters[f], w.item), Complete(w.e)]; }
    assert [] + [Complete(w.e)] == [Complete(w.e)];
    assert s.(putters := s.putters + [w]) == StateOf(l.(waiting := l.waiting + [w]));
    assert Putter(w.e, w.item) == w;
    WaitFine(l, w);
  }

  lemma WaitFine(l: Ledger, w: Putter)
    requires Fine(l)
    ensures Fine(l.(waiting := l.waiting + [w]))
  {
  }

  lemma GetTied(l: Ledger, g: Getter)
    requires Fine(l) && NoMatch(StateOf(l))
    ensures var (l', o) := NoteGet(l, g); Fine(l') && AfterGet(StateOf(l), g) == (StateOf(l'), o)
  {
    var s := StateOf(l);
    var i := EarliestItem(Vals(l.done), l.taken, g, 0);
    TakesTied(l, g);
    hide StateOf, Fine, EarliestItem, FirstItem, Completes, LetPutIn;
    if i < |l.done| {
      FewerMatch(s, FirstItem(s.items, g));
      LetInTied(Taken(l, g, i));
      var d := Deliver(g, l.done[i].item);
      if l.waiting == [] {
        assert [d] + [] == [d];
      } else {
        var (l2, o) := Completes(Taken(l, g, i).(waiting := l.waiting[1..]), l.waiting[0]);
        assert [d] + ([Complete(l.waiting[0].e)] + o) == [d, Complete(l.waiting[0].e)] + o;
      }
    }
  }

  lemma FewerMatch(s: State, f: nat)
    requires NoMatch(s) && f < |s.items|
    ensures NoMatch(s.(items := Without(s.items, f)))
  {
    forall x | x in Without(s.items, f) ensures x in s.items {
    }
  }

  lemma LetInTied(l: Ledger)
    requires Fine(l) && NoMatch(StateOf(l))
    ensures LetPutIn(StateOf(l)) ==
            if l.waiting == [] then (StateOf(l), [])
            else
              var (l2, o) := Completes(l.(waiting := l.waiting[1..]), l.waiting[0]);
              (StateOf(l2), [Complete(l.waiting[0].e)] + o)
    ensures l.waiting != [] ==> Fine(Completes(l.(waiting := l.waiting[1..]), l.waiting[0]).0)
  {
    if l.waiting != [] {
      var l1 := l.(waiting := l.waiting[1..]);
      assert Fine(l1);
      CompletesTied(l1, l.waiting[0]);
      assert StateOf(l1) == StateOf(l).(putters := l.waiting[1..]);
      assert NoMatch(StateOf(l1));
      HandOverOne(StateOf(l1), l.waiting[0].item);
      hide Left, Vals, FirstGetter, Completes, HandOver, NoMatch, Fine;
    }
  }

  function Taken(l: Ledger, g: Getter, i: nat): Ledger {
    l.(taken := l.taken + {i}, gets := l.gets + [g], served := l.served + {|l.gets|})
  }

  lemma TakesTied(l: Ledger, g: Getter)
    requires Fine(l)
    ensures var s := StateOf(l); var i := EarliestItem(Vals(l.done), l.taken, g, 0); var f := FirstItem(s.items, g);
            if i == |l.done| then
              f == |s.items| && Fine(l.(gets := l.gets + [g])) && StateOf(l.(gets := l.gets + [g])) == s.(getters := s.getters + [g])
            else
              && f < |s.items| && s.items[f] == l.done[i].item && Fine(Taken(l, g, i))
              && StateOf(Taken(l, g, i)) == s.(items := Without(s.items, f))
  {
    var i := EarliestItem(Vals(l.done), l.taken, g, 0);
    ItemFound(Vals(l.done), l.taken, g, 0);
    LeftVals(l.done, l.taken, 0);
    LeftVals(l.done, l.taken + {i}, 0);
    LeftAppend(l.gets, g, l.served, 0);
    LeftAppend(l.gets, g, l.served + {|l.gets|}, 0);
    LeftBeyond(l.gets, l.served, |l.gets|, 0);
    hide Left, FirstItem, EarliestItem;
    var left := Left(l.gets, l.served, 0);
    assert left + [] == left;
  }

  /** After any calls, with any filters, the store is what the ledger leaves, and has handed out exactly what the
      ledger has: so the buffer holds, in the order in which their puts completed, the items not delivered; a get
      takes the one of them that completed first; and an item goes to the getter that called first. */
  lemma {:induction false} RefinesLedger(capacity: int, ops: seq<Op>)
    ensures var (l, o) := Book(capacity, ops); Fine(l) && Run(capacity, ops) == (StateOf(l), o)
  {
    if ops == [] {
      assert StateOf(Ledger(capacity, [], {}, [], {}, [])) == State(capacity, [], [], []);
    } else {
      var before, op := ops[..|ops| - 1], ops[|ops| - 1];
      RefinesLedger(capacity, before);
      RunMatches(capacity, before);
      NoteTied(Book(capacity, before).0, op);
      hide Fine, StateOf, NoMatch, Do, Note;
    }
  }

  lemma NoteTied(l: Ledger, op: Op)
    requires Fine(l) && NoMatch(StateOf(l))
    ensures var (l', o) := Note(l, op); Fine(l') && Do(StateOf(l), op) == (StateOf(l'), o)
  {
    hide Fine, StateOf, NoMatch;
    match op
    case PutOp(e, item) => PutTied(l, Putter(e, item));
    case GetOp(g) => GetTied(l, g);
  }

  lemma RunMatches(capacity: int, ops: seq<Op>)
    ensures NoMatch(Run(capacity, ops).0)
  {
    hide Run, NoMatch, Bounded, Suits, PutItems, Stock, Delivered;
    Conserving(capacity, ops);
  }

  /** What the ledger says is completed are the completions handed out, in their order. */
  lemma {:induction false} DoneInOrder(capacity: int, ops: seq<Op>)
    ensures var (l, o) := Book(capacity, ops); Completions(o) == Waiting(l.done)
  {
    if ops == [] {
      CompletionsFew(Getter(0, K.None), 0, 0);
    } else {
      var before, op := ops[..|ops| - 1], ops[|ops| - 1];
      DoneInOrder(capacity, before);
      var (l, o) := Book(capacity, before);
      var (l', o') := Note(l, op);
      CollectAppend(o, o', CompletionOf);
      NoteCompletes(l, op);
      hide Note, Completions, Waiting;
    }
  }

  lemma NoteCompletes(l: Ledger, op: Op)
    ensures var (l', o) := Note(l, op); Waiting(l'.done) == Waiting(l.done) + Completions(o)
  {
    var none: seq<Out> := [];
    CompletionsFew(Getter(0, K.None), 0, 0);
    if op.PutOp? {
      PutCompletes(l, Putter(op.e, op.item));
    } else if l.waiting == [] || EarliestItem(Vals(l.done), l.taken, op.g, 0) == |l.done| {
      GetAlone(l, op.g);
    } else {
      GetCompletes(l, op.g);
    }
  }

  lemma CompletesOne(l: Ledger, w: Putter)
    ensures var (l', o) := Completes(l, w); Waiting(l'.done) == Waiting(l.done) + [w.e] && Completions(o) == []
  {
    var j := EarliestGetter(l.gets, l.served, w.item, 0);
    CompletionsFew(if j < |l.gets| then l.gets[j] else Getter(0, K.None), w.item, w.e);
    CollectAppend(l.done, [w], WaitingOf);
    CollectFew(w, w, WaitingOf);
    hide Collect;
  }

  lemma PutCompletes(l: Ledger, w: Putter)
    ensures var (l', o) := NotePut(l, w); Waiting(l'.done) == Waiting(l.done) + Completions(o)
  {
    CompletionsFew(Getter(0, K.None), 0, w.e);
    CompletesOne(l, w);
    CollectAppend(Completes(l, w).1, [Complete(w.e)], CompletionOf);
    hide Collect, Completes, Full;
    assert Waiting(l.done) + [] == Waiting(l.done);
  }

  lemma GetAlone(l: Ledger, g: Getter)
    requires l.waiting == [] || EarliestItem(Vals(l.done), l.taken, g, 0) == |l.done|
    ensures var (l', o) := NoteGet(l, g); Waiting(l'.done) == Waiting(l.done) + Completions(o)
  {
    var i := EarliestItem(Vals(l.done), l.taken, g, 0);
    CompletionsFew(g, if i < |l.done| then l.done[i].item else 0, 0);
    hide Collect, EarliestItem;
    assert Waiting(l.done) + [] == Waiting(l.done);
  }

  lemma GetCompletes(l: Ledger, g: Getter)
    requires l.waiting != [] && EarliestItem(Vals(l.done), l.taken, g, 0) < |l.done|
    ensures var (l', o) := NoteGet(l, g); Waiting(l'.done) == Waiting(l.done) + Completions(o)
  {
    var i := EarliestItem(Vals(l.done), l.taken, g, 0);
    var w := l.waiting[0];
    var l1 := Taken(l, g, i).(waiting := l.waiting[1..]);
    CompletesOne(l1, w);
    CompletionsFew(g, l.done[i].item, w.e);
    CollectAppend([Deliver(g, l.done[i].item), Complete(w.e)], Completes(l1, w).1, CompletionOf);
    hide Collect, Completes, EarliestItem;
    assert [w.e] + [] == [w.e];
  }
}
