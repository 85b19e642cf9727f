/** A container: a level between 0 and a capacity, with FIFO queues of puts and gets that wait. */
module Containers {
  import opened Bags
  import opened K = Kernel

  datatype Req = Req(e: EventId, amount: real)

  /** The event of a put or a get that has gone through is succeeded. */
  datatype Out = PutDone(r: Req) | GetDone(r: Req)

  datatype State = State(capacity: real, level: real, putters: seq<Req>, getters: seq<Req>)

  /** try_wake_gets. */
  function WakeGets(s: State): (State, seq<Out>)
    decreases |s.getters|
  {
    if s.getters != [] && s.getters[0].amount <= s.level then
      var r := s.getters[0];
      var (s', o) := WakeGets(s.(level := s.level - r.amount, getters := s.getters[1..]));
      (s', [GetDone(r)] + o)
    else (s, [])
  }

  /** try_wake_puts. */
  function WakePuts(s: State): (State, seq<Out>)
    decreases |s.putters|
  {
    if s.putters != [] && s.level + s.putters[0].amount <= s.capacity then
      var r := s.putters[0];
      var (s', o) := WakePuts(s.(level := s.level + r.amount, putters := s.putters[1..]));
      (s', [PutDone(r)] + o)
    else (s, [])
  }

  /** sim_container_put, with the event just allocated for it. */
  function AfterPut(s: State, r: Req): (State, seq<Out>) {
    if s.putters == [] && s.level + r.amount <= s.capacity then
      var (s', o) := WakeGets(s.(level := s.level + r.amount));
      (s', [PutDone(r)] + o)
    else (s.(putters := s.putters + [r]), [])
  }

  /** sim_container_get. */
  function AfterGet(s: State, r: Req): (State, seq<Out>) {
    if s.getters == [] && r.amount <= s.level then
      var (s', o) := WakePuts(s.(level := s.level - r.amount));
      (s', [GetDone(r)] + o)
    else (s.(getters := s.getters + [r]), [])
  }

  /** The container object; `out` is what it has handed to the kernel so far. */
  class Container {
    const capacity: real
    var level: real
    var putters: seq<Req>
    var getters: seq<Req>
    var out: seq<Out>

    ghost function Abs(): State
      reads this
    {
      State(capacity, level, putters, getters)
    }

    constructor (capacity: real, init: real)
      ensures Abs() == State(capacity, init, [], []) && out == []
    {
      this.capacity := capacity;
      level, putters, getters, out := init, [], [], [];
    }

    method TryWakeGets()
      modifies this
      ensures var (s, o) := WakeGets(old(Abs())); Abs() == s && out == old(out) + o
    {
      while getters != [] && getters[0].amount <= level
        invariant putters == old(putters)
        invariant WakeGets(old(Abs())).0 == WakeGets(Abs()).0
        invariant old(out) + WakeGets(old(Abs())).1 == out + WakeGets(Abs()).1
        decreases |getters|
      {
        var n := getters[0];
        level := level - n.amount;
        getters := getters[1..];
        out := out + [GetDone(n)];
      }
    }

    method TryWakePuts()
      modifies this
      ensures var (s, o) := WakePuts(old(Abs())); Abs() == s && out == old(out) + o
    {
      while putters != [] && level + putters[0].amount <= capacity
        invariant getters == old(getters)
        invariant WakePuts(old(Abs())).0 == WakePuts(Abs()).0
        invariant old(out) + WakePuts(old(Abs())).1 == out + WakePuts(Abs()).1
        decreases |putters|
      {
        var n := putters[0];
        level := level + n.amount;
        putters := putters[1..];
        out := out + [PutDone(n)];
      }
    }

    method Put(e: EventId, amount: real)
      modifies this
      ensures var (s, o) := AfterPut(old(Abs()), Req(e, amount)); Abs() == s && out == old(out) + o
    {
      if putters == [] && level + amount <= capacity {
        level := level + amount;
        out := out + [PutDone(Req(e, amount))];
        TryWakeGets();
      } else {
        putters := putters + [Req(e, amount)];
      }
    }

    method Get(e: EventId, amount: real)
      modifies this
      ensures var (s, o) := AfterGet(old(Abs()), Req(e, amount)); Abs() == s && out == old(out) + o
    {
      if getters == [] && amount <= level {
        level := level - amount;
        out := out + [GetDone(Req(e, amount))];
        TryWakePuts();
      } else {
        getters := getters + [Req(e, amount)];
      }
    }
  }

  // ---------- nobody who could be served is left waiting ----------

  ghost predicate Amounts(rs: seq<Req>) {
    forall i :: 0 <= i < |rs| ==> rs[i].amount >= 0.0
  }

  ghost predicate Bounded(s: State) {
    0.0 <= s.level <= s.capacity && Amounts(s.putters) && Amounts(s.getters)
  }

  predicate GetsStuck(s: State) {
    s.getters != [] ==> s.getters[0].amount > s.level
  }

  predicate PutsStuck(s: State) {
    s.putters != [] ==> s.level + s.putters[0].amount > s.capacity
  }

  ghost predicate Quiet(s: State) {
    Bounded(s) && GetsStuck(s) && PutsStuck(s)
  }

  function Sum(rs: seq<Req>): real {
    if rs == [] then 0.0 else rs[0].amount + Sum(rs[1..])
  }

  lemma {:induction false} SumAppend(a: seq<Req>, b: seq<Req>)
    ensures Sum(a + b) == Sum(a) + Sum(b)
  {
    if a == [] {
      assert a + b == b;
    } else {
      assert (a + b)[1..] == a[1..] + b;
      SumAppend(a[1..], b);
    }
  }

  /** The puts, and the gets, that went through, in order. */
  function PutDoneOf(o: Out): seq<Req> {
    if o.PutDone? then [o.r] else []
  }

  function GetDoneOf(o: Out): seq<Req> {
    if o.GetDone? then [o.r] else []
  }

  function PutsDone(o: seq<Out>): seq<Req> {
    Collect(o, PutDoneOf)
  }

  function GetsDone(o: seq<Out>): seq<Req> {
    Collect(o, GetDoneOf)
  }

  lemma DoneAppend(a: seq<Out>, b: seq<Out>)
    ensures PutsDone(a + b) == PutsDone(a) + PutsDone(b)
    ensures GetsDone(a + b) == GetsDone(a) + GetsDone(b)
  {
    CollectAppend(a, b, PutDoneOf);
    CollectAppend(a, b, GetDoneOf);
  }

  lemma DoneOne(o: Out)
    ensures PutsDone([]) == [] && GetsDone([]) == []
    ensures PutsDone([o]) == PutDoneOf(o) && GetsDone([o]) == GetDoneOf(o)
  {
    CollectFew(o, o, PutDoneOf);
    CollectFew(o, o, GetDoneOf);
  }

  /** From `s`, with `puts` and `gets` newly made, to `s'` handing out `o`: each queue is served from its
      front, in order, and the level changes by what went through. */
  ghost predicate Serves(s: State, puts: seq<Req>, gets: seq<Req>, s': State, o: seq<Out>) {
    && s'.capacity == s.capacity
    && s.putters + puts == PutsDone(o) + s'.putters
    && s.getters + gets == GetsDone(o) + s'.getters
    && s'.level == s.level + Sum(PutsDone(o)) - Sum(GetsDone(o))
  }

  /** One call that goes through at once, and one waiter that is served. */
  lemma OneServes(s: State, r: Req)
    ensures s.putters == [] ==> Serves(s, [r], [], s.(level := s.level + r.amount), [PutDone(r)])
    ensures s.getters == [] ==> Serves(s, [], [r], s.(level := s.level - r.amount), [GetDone(r)])
    ensures s.getters != [] ==> var h := s.getters[0];
              Serves(s, [], [], s.(level := s.level - h.amount, getters := s.getters[1..]), [GetDone(h)])
    ensures s.putters != [] ==> var h := s.putters[0];
              Serves(s, [], [], s.(level := s.level + h.amount, putters := s.putters[1..]), [PutDone(h)])
  {
    forall x: Req ensures Sum([x]) == x.amount && PutsDone([PutDone(x)]) == [x] && GetsDone([PutDone(x)]) == []
                          && GetsDone([GetDone(x)]) == [x] && PutsDone([GetDone(x)]) == [] {
      DoneOne(PutDone(x));
      DoneOne(GetDone(x));
    }
    hide PutsDone, GetsDone;
  }

  lemma ServesMore(s0: State, puts: seq<Req>, gets: seq<Req>, s: State, o: seq<Out>,
                   puts': seq<Req>, gets': seq<Req>, s': State, o': seq<Out>)
    requires Serves(s0, puts, gets, s, o) && Serves(s, puts', gets', s', o')
    ensures Serves(s0, puts + puts', gets + gets', s', o + o')
  {
    DoneAppend(o, o');
    SumAppend(PutsDone(o), PutsDone(o'));
    SumAppend(GetsDone(o), GetsDone(o'));
    hide PutsDone, GetsDone, Sum;
    assert s0.putters + (puts + puts') == (s0.putters + puts) + puts';
    assert s0.getters + (gets + gets') == (s0.getters + gets) + gets';
    assert (PutsDone(o) + s.putters) + puts' == PutsDone(o) + (s.putters + puts');
    assert (GetsDone(o) + s.getters) + gets' == GetsDone(o) + (s.getters + gets');
  }

  lemma NoneServes(s: State)
    ensures Serves(s, [], [], s, [])
  {
    DoneOne(PutDone(Req(0, 0.0)));
  }

  lemma {:induction false} WakeGetsServes(s: State)
    requires Bounded(s)
    ensures var (s', o) := WakeGets(s);
            && Bounded(s') && GetsStuck(s') && s'.putters == s.putters && s'.level <= s.level
            && Serves(s, [], [], s', o)
    decreases |s.getters|
  {
    hide Serves;
    NoneServes(s);
    var none: seq<Req> := [];
    assert none + none == none;
    if s.getters != [] && s.getters[0].amount <= s.level {
      var r := s.getters[0];
      var s1 := s.(level := s.level - r.amount, getters := s.getters[1..]);
      WakeGetsServes(s1);
      OneServes(s, r);
      var (s', o) := WakeGets(s1);
      ServesMore(s, [], [], s1, [GetDone(r)], [], [], s', o);
    }
  }

  lemma {:induction false} WakePutsServes(s: State)
    requires Bounded(s)
    ensures var (s', o) := WakePuts(s);
            && Bounded(s') && PutsStuck(s') && s'.getters == s.getters && s'.level >= s.level
            && Serves(s, [], [], s', o)
    decreases |s.putters|
  {
    hide Serves;
    NoneServes(s);
    var none: seq<Req> := [];
    assert none + none == none;
    if s.putters != [] && s.level + s.putters[0].amount <= s.capacity {
      var r := s.putters[0];
      var s1 := s.(level := s.level + r.amount, putters := s.putters[1..]);
      WakePutsServes(s1);
      OneServes(s, r);
      var (s', o) := WakePuts(s1);
      ServesMore(s, [], [], s1, [PutDone(r)], [], [], s', o);
    }
  }

  /** A put leaves nobody waiting who could be served, though it wakes getters only. */
  lemma PutQuiet(s: State, r: Req)
    requires Quiet(s) && r.amount >= 0.0
    ensures var (s', o) := AfterPut(s, r); Quiet(s') && Serves(s, [r], [], s', o)
  {
    if s.putters == [] && s.level + r.amount <= s.capacity {
      var s1 := s.(level := s.level + r.amount);
      WakeGetsServes(s1);
      OneServes(s, r);
      var (s', o) := WakeGets(s1);
      ServesMore(s, [r], [], s1, [PutDone(r)], [], [], s', o);
      hide Serves;
      assert [r] + [] == [r];
    } else {
      DoneOne(PutDone(r));
    }
  }

  /** And a get, though it wakes putters only. */
  lemma GetQuiet(s: State, r: Req)
    requires Quiet(s) && r.amount >= 0.0
    ensures var (s', o) := AfterGet(s, r); Quiet(s') && Serves(s, [], [r], s', o)
  {
    if s.getters == [] && r.amount <= s.level {
      var s1 := s.(level := s.level - r.amount);
      WakePutsServes(s1);
      OneServes(s, r);
      var (s', o) := WakePuts(s1);
      ServesMore(s, [], [r], s1, [GetDone(r)], [], [], s', o);
      hide Serves;
      assert [r] + [] == [r];
    } else {
      DoneOne(GetDone(r));
    }
  }

  /** A call that goes through hands out its own completion first, then those of the waiters it lets through. */
  lemma {:induction false} OwnFirst(s: State, r: Req)
    ensures var o := AfterPut(s, r).1; o == [] || (o[0] == PutDone(r) && forall i :: 1 <= i < |o| ==> o[i].GetDone?)
    ensures var o := AfterGet(s, r).1; o == [] || (o[0] == GetDone(r) && forall i :: 1 <= i < |o| ==> o[i].PutDone?)
    ensures AfterPut(s, r).1 == [] <==> s.putters != [] || s.level + r.amount > s.capacity
    ensures AfterGet(s, r).1 == [] <==> s.getters != [] || r.amount > s.level
  {
    WakesOne(s.(level := s.level + r.amount));
    WakesOne(s.(level := s.level - r.amount));
    hide WakeGets, WakePuts;
  }

  lemma {:induction false} WakesOne(s: State)
    ensures forall i :: 0 <= i < |WakeGets(s).1| ==> WakeGets(s).1[i].GetDone?
    ensures forall i :: 0 <= i < |WakePuts(s).1| ==> WakePuts(s).1[i].PutDone?
    decreases |s.getters| + |s.putters|
  {
    if s.getters != [] { WakesOne(s.(level := s.level - s.getters[0].amount, getters := s.getters[1..])); }
    if s.putters != [] { WakesOne(s.(level := s.level + s.putters[0].amount, putters := s.putters[1..])); }
  }

  // ---------- histories ----------

  datatype Op = PutOp(r: Req) | GetOp(r: Req)

  function Run(capacity: real, init: real, ops: seq<Op>): (State, seq<Out>) {
    if ops == [] then (State(capacity, init, [], []), [])
    else
      var (s, o) := Run(capacity, init, ops[..|ops| - 1]);
      var op := ops[|ops| - 1];
      var (s', o') := if op.PutOp? then AfterPut(s, op.r) else AfterGet(s, op.r);
      (s', o + o')
  }

  function PutOf(op: Op): seq<Req> {
    if op.PutOp? then [op.r] else []
  }

  function GetOf(op: Op): seq<Req> {
    if op.GetOp? then [op.r] else []
  }

  /** The put calls of a history, and the get calls, in order. */
  function Puts(ops: seq<Op>): seq<Req> {
    Collect(ops, PutOf)
  }

  function Gets(ops: seq<Op>): seq<Req> {
    Collect(ops, GetOf)
  }

  /** After any calls with amounts of at least 0: the level is within bounds, the first getter wants more
      than there is and the first putter does not fit; in each queue the calls that went through are
      exactly the first ones made, in order, the others are still queued; and the level is what was there
      at the start, plus what was put, less what was got. */
  lemma {:induction false} FairAndConserving(capacity: real, init: real, ops: seq<Op>)
    requires 0.0 <= init <= capacity
    requires forall i :: 0 <= i < |ops| ==> ops[i].r.amount >= 0.0
    ensures var (s, o) := Run(capacity, init, ops);
            && Quiet(s)
            && Puts(ops) == PutsDone(o) + s.putters
            && Gets(ops) == GetsDone(o) + s.getters
            && s.level == init + Sum(PutsDone(o)) - Sum(GetsDone(o))
  {
    RunServes(capacity, init, ops);
    var (s, o) := Run(capacity, init, ops);
    assert [] + Puts(ops) == Puts(ops) && [] + Gets(ops) == Gets(ops);
  }

  lemma {:induction false} RunServes(capacity: real, init: real, ops: seq<Op>)
    requires 0.0 <= init <= capacity
    requires forall i :: 0 <= i < |ops| ==> ops[i].r.amount >= 0.0
    ensures var (s, o) := Run(capacity, init, ops);
            Quiet(s) && Serves(State(capacity, init, [], []), Puts(ops), Gets(ops), s, o)
  {
    if ops != [] {
      var before, op := ops[..|ops| - 1], ops[|ops| - 1];
      RunServes(capacity, init, before);
      var (s, o) := Run(capacity, init, before);
      var (s', o') := if op.PutOp? then AfterPut(s, op.r) else AfterGet(s, op.r);
      if op.PutOp? { PutQuiet(s, op.r); } else { GetQuiet(s, op.r); }
      hide Serves, Quiet, AfterPut, AfterGet;
      ServesMore(State(capacity, init, [], []), Puts(before), Gets(before), s, o, PutOf(op), GetOf(op), s', o');
    } else {
      DoneOne(PutDone(Req(0, 0.0)));
    }
  }
}
