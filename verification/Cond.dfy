/** AllOf and AnyOf: an output event that follows a list of input events, through a counter shared by the
    callbacks subscribed to the inputs and freed by the last of them. */
module Conditions {
  import opened K = Kernel

  /** `subs` are the subscriptions still to be called, each with the event it is on, in the order they were
      made. `calls` counts the sim_event_succeed calls on the output. `misused` records a use of the shared
      counter after it was freed; the program has no such field. */
  datatype State = State(
    total: nat, fired: nat, any: bool, triggered: bool, freed: bool, subs: seq<EventId>, calls: nat, misused: bool)

  predicate Met(any: bool, fired: nat, total: nat) {
    if any then fired >= 1 else fired >= total
  }

  /** How many of the inputs, with multiplicity, are in `done`. */
  function Count(evs: seq<EventId>, done: set<EventId>): (n: nat)
    ensures n <= |evs|
  {
    if evs == [] then 0 else Count(evs[..|evs| - 1], done) + if evs[|evs| - 1] in done then 1 else 0
  }

  function NotIn(evs: seq<EventId>, done: set<EventId>): seq<EventId> {
    if evs == [] then []
    else NotIn(evs[..|evs| - 1], done) + if evs[|evs| - 1] in done then [] else [evs[|evs| - 1]]
  }

  /** make_cond, when the inputs in `done` have been processed already. */
  function Make(evs: seq<EventId>, any: bool, done: set<EventId>): State {
    var fired := Count(evs, done);
    if Met(any, fired, |evs|) then State(|evs|, fired, any, true, fired >= |evs|, [], 1, false)
    else State(|evs|, fired, any, false, false, NotIn(evs, done), 0, false)
  }

  /** cond_cb. */
  function CondCb(s: State): State {
    var fired := s.fired + 1;
    var now := !s.triggered && Met(s.any, fired, s.total);
    s.(fired := fired, triggered := s.triggered || now, calls := s.calls + if now then 1 else 0,
       freed := s.freed || fired >= s.total, misused := s.misused || s.freed)
  }

  /** The dispatch of input `e`: each subscription on it is called once, in order. */
  function Fire(s: State, e: EventId, todo: seq<EventId>): State
    decreases |todo|
  {
    if todo == [] then s
    else Fire(if todo[0] == e then CondCb(s) else s, e, todo[1..])
  }

  function AfterFire(s: State, e: EventId): State {
    Fire(s, e, s.subs).(subs := NotIn(s.subs, {e}))
  }

  class Condition {
    var total: nat
    var fired: nat
    var any: bool
    var triggered: bool
    var freed: bool
    var subs: seq<EventId>
    var calls: nat
    ghost var misused: bool

    ghost function Abs(): State
      reads this
    {
      State(total, fired, any, triggered, freed, subs, calls, misused)
    }

    constructor (evs: seq<EventId>, any: bool, done: set<EventId>)
      ensures Abs() == Make(evs, any, done)
    {
      total, fired, this.any := |evs|, 0, any;
      triggered, freed, subs, calls, misused := false, false, [], 0, false;
      new;
      var i := 0;
      while i < |evs|
        invariant 0 <= i <= |evs| && fired == Count(evs[..i], done)
        invariant Abs() == State(|evs|, fired, any, false, false, [], 0, false)
      {
        assert evs[..i + 1][..i] == evs[..i];
        if evs[i] in done { fired := fired + 1; }
        i := i + 1;
      }
      assert evs[..|evs|] == evs;
      if (if any then fired >= 1 else fired >= total) {
        triggered, calls := true, 1;
        if fired >= total { freed := true; }
        return;
      }
      i := 0;
      while i < |evs|
        invariant 0 <= i <= |evs| && subs == NotIn(evs[..i], done)
        invariant Abs() == State(|evs|, fired, any, false, false, subs, 0, false)
        invariant fired == Count(evs, done)
      {
        assert evs[..i + 1][..i] == evs[..i];
        if evs[i] !in done { subs := subs + [evs[i]]; }
        i := i + 1;
      }
      assert evs[..|evs|] == evs;
    }

    method Called()
      modifies this
      ensures Abs() == CondCb(old(Abs()))
    {
      misused := misused || freed;
      fired := fired + 1;
      if !triggered {
        var now := if any then fired >= 1 else fired >= total;
        if now {
          triggered := true;
          calls := calls + 1;
        }
      }
      if fired >= total { freed := true; }
    }

    /** The dispatch of input `e`, as far as these subscriptions go. */
    method InputProcessed(e: EventId)
      modifies this
      ensures Abs() == AfterFire(old(Abs()), e)
    {
      var i, rest := 0, [];
      while i < |subs|
        invariant 0 <= i <= |subs| && subs == old(subs) && rest == NotIn(subs[..i], {e})
        invariant Fire(old(Abs()), e, subs) == Fire(Abs(), e, subs[i..])
      {
        assert subs[..i + 1][..i] == subs[..i];
        if subs[i] == e { Called(); } else { rest := rest + [subs[i]]; }
        i := i + 1;
      }
      assert subs[..|subs|] == subs;
      subs := rest;
    }
  }

  // ---------- whatever the inputs do ----------

  /** The inputs in `fires` are processed one after the other. */
  function Run(evs: seq<EventId>, any: bool, done: set<EventId>, fires: seq<EventId>): State {
    if fires == [] then Make(evs, any, done)
    else AfterFire(Run(evs, any, done, fires[..|fires| - 1]), fires[|fires| - 1])
  }

  function Set(fires: seq<EventId>): set<EventId> {
    set e | e in fires
  }

  /** No event is processed twice. */
  predicate Once(done: set<EventId>, fires: seq<EventId>) {
    && (forall i :: 0 <= i < |fires| ==> fires[i] !in done)
    && (forall i, j :: 0 <= i < j < |fires| ==> fires[i] != fires[j])
  }

  /** What the inputs processed so far, `all`, determine; `done` are those that were when it was made. */
  ghost predicate Exact(s: State, evs: seq<EventId>, any: bool, done: set<EventId>, all: set<EventId>) {
    && s.total == |evs| && s.any == any && !s.misused
    && s.calls == (if s.triggered then 1 else 0)
    && (s.triggered <==> Met(any, Count(evs, all), |evs|))
    && (if Met(any, Count(evs, done), |evs|) then
          s.subs == [] && s.triggered && (s.freed <==> Count(evs, done) >= |evs|)
        else
          && s.fired == Count(evs, all) && s.subs == NotIn(evs, all)
          && (s.freed <==> |evs| > 0 && Count(evs, all) >= |evs|))
  }

  lemma {:induction false} Complement(evs: seq<EventId>, done: set<EventId>)
    ensures |NotIn(evs, done)| == |evs| - Count(evs, done)
  {
    if evs != [] { Complement(evs[..|evs| - 1], done); }
  }

  lemma {:induction false} CountMore(evs: seq<EventId>, done: set<EventId>, e: EventId)
    requires e !in done
    ensures NotIn(NotIn(evs, done), {e}) == NotIn(evs, done + {e})
    ensures Count(evs, done + {e}) == Count(evs, done) + Count(NotIn(evs, done), {e})
  {
    if evs != [] {
      var init, x := evs[..|evs| - 1], evs[|evs| - 1];
      CountMore(init, done, e);
      var rest := NotIn(init, done);
      if x !in done {
        assert (rest + [x])[..|rest + [x]| - 1] == rest;
      } else {
        assert rest + [] == rest;
      }
    }
  }

  /** `n` calls of the callback, none of which finds the counter freed. */
  function Calls(s: State, n: nat): State
    decreases n
  {
    if n == 0 then s else Calls(CondCb(s), n - 1)
  }

  lemma {:induction false} FireIsCalls(s: State, e: EventId, todo: seq<EventId>)
    ensures Fire(s, e, todo) == Calls(s, Count(todo, {e}))
    decreases |todo|
  {
    if todo != [] {
      CountFront(todo, {e});
      FireIsCalls(if todo[0] == e then CondCb(s) else s, e, todo[1..]);
    }
  }

  lemma {:induction false} CountFront(evs: seq<EventId>, done: set<EventId>)
    requires evs != []
    ensures Count(evs, done) == (if evs[0] in done then 1 else 0) + Count(evs[1..], done)
  {
    var init := evs[..|evs| - 1];
    if init == [] {
      assert evs[1..] == [];
    } else {
      CountFront(init, done);
      assert evs[1..][..|evs| - 2] == init[1..];
    }
  }

  lemma {:induction false} CallsExact(s: State, n: nat)
    requires !s.misused && !s.freed && s.fired + n <= s.total && s.total > 0
    requires s.fired < s.total
    requires s.triggered <==> Met(s.any, s.fired, s.total)
    requires s.calls == if s.triggered then 1 else 0
    ensures var s' := Calls(s, n);
            && !s'.misused && s'.fired == s.fired + n && s'.total == s.total && s'.any == s.any
            && (s'.triggered <==> Met(s.any, s.fired + n, s.total))
            && s'.calls == (if s'.triggered then 1 else 0)
            && (s'.freed <==> s.fired + n >= s.total)
    decreases n
  {
    if n > 0 {
      if n > 1 || s.fired + 1 < s.total {
        CallsExact(CondCb(s), n - 1);
      }
    }
  }

  /** For any inputs (an event may occur several times), any of them processed already and the others
      processed later in any order: AllOf's output has been triggered exactly when all inputs have been
      processed and AnyOf's exactly when at least one has, by a single succeed call; the shared counter
      is never used after it is freed, and every subscription is called once. It is freed when the last
      input has been processed, unless the condition was met already when it was made: then it is freed at
      once if no input is still to come, and otherwise never. An AnyOf of no inputs never frees it either. */
  lemma {:induction false} Follows(evs: seq<EventId>, any: bool, done: set<EventId>, fires: seq<EventId>)
    requires Once(done, fires)
    ensures Exact(Run(evs, any, done, fires), evs, any, done, done + Set(fires))
  {
    if fires == [] {
      assert done + Set([]) == done;
      Complement(evs, done);
    } else {
      var before, e := fires[..|fires| - 1], fires[|fires| - 1];
      Follows(evs, any, done, before);
      FireExact(Run(evs, any, done, before), evs, any, done, done + Set(before), e);
      assert done + Set(before) + {e} == done + Set(fires);
    }
  }

  lemma FireExact(s: State, evs: seq<EventId>, any: bool, done: set<EventId>, all: set<EventId>, e: EventId)
    requires Exact(s, evs, any, done, all) && e !in all
    ensures Exact(AfterFire(s, e), evs, any, done, all + {e})
  {
    CountMore(evs, all, e);
    Complement(evs, all);
    FireIsCalls(s, e, s.subs);
    if !Met(any, Count(evs, done), |evs|) {
      var n := Count(s.subs, {e});
      if n > 0 { CallsExact(s, n); }
    }
  }

  /** The counts in the terms of the documentation: all inputs, at least one input. */
  lemma {:induction false} CountMeaning(evs: seq<EventId>, all: set<EventId>)
    ensures Count(evs, all) >= |evs| <==> forall i :: 0 <= i < |evs| ==> evs[i] in all
    ensures Count(evs, all) >= 1 <==> exists i :: 0 <= i < |evs| && evs[i] in all
  {
    if evs != [] {
      var init := evs[..|evs| - 1];
      CountMeaning(init, all);
      assert forall i :: 0 <= i < |init| ==> evs[i] == init[i];
      if evs[|evs| - 1] !in all && Count(init, all) >= 1 {
        var i :| 0 <= i < |init| && init[i] in all;
        assert evs[i] in all;
      }
    }
  }
}
