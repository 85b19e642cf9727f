/** What a process is entitled to, told from the transcript alone: no callbacks, no resume events,
    no free lists, no queue. The kernel is proved to follow this automaton for every process. */
module Protocol {
  import opened Kernel

  /** Where a live process stands.
      Unstarted: not yet started. Active: it has control. Waiting(e): suspended, `e` not processed yet.
      Fired(v): suspended, and the event it waits for has been processed with value v.
      Cancelled: suspended, and an interrupt has called the wait off. */
  datatype Phase = Unstarted | Active | Waiting(e: EventId) | Fired(v: Value) | Cancelled

  /** intr: the cause of an interrupt not delivered yet. due: the process is to be switched to. */
  datatype Ref = Absent | Live(phase: Phase, intr: Option<Value>, due: bool) | Gone

  /** One observation, seen by process `p`. */
  function Next(r: Ref, o: Obs, p: ProcId): Ref {
    match o
    case Spawned(q) => if q == p then Live(Unstarted, None, true) else r
    case Started(q) => if q == p && r.Live? then Live(Active, r.intr, false) else r
    case Yielded(q, e, ready, v) =>
      if q == p && r.Live? then Live(if ready then Fired(v) else Waiting(e), r.intr, r.due || ready) else r
    case Dispatched(e, v, _) =>
      if r.Live? && r.phase == Waiting(e) then Live(Fired(v), r.intr, true) else r
    case Woke(q, _, _) => if q == p && r.Live? then Live(Active, None, false) else r
    case Exited(q) => if q == p then Gone else r
    case Did(Interrupt(q, c)) =>
      if q == p && r.Live? && r.intr.None? then
        Live(if r.phase.Waiting? || r.phase.Fired? then Cancelled else r.phase, Some(c), true)
      else r
    case _ => r
  }

  /** Where process `p` stands after a transcript. */
  function RefOf(log: seq<Obs>, p: ProcId): Ref {
    if log == [] then Absent
    else Next(RefOf(log[..|log| - 1], p), log[|log| - 1], p)
  }

  /** An observation the automaton allows: a process is started once, when due; sim_yield returns only
      when due, with the pending cause if there is one and otherwise with the value the awaited event
      had when it was processed; only the process in control yields or exits. */
  predicate Allowed(r: Ref, o: Obs) {
    match o
    case Spawned(_) => !r.Live?
    case Started(_) => r.Live? && r.phase.Unstarted? && r.due
    case Yielded(_, _, _, _) => r.Live? && r.phase.Active?
    case Woke(_, v, interrupted) =>
      && r.Live? && r.due && !r.phase.Unstarted? && !r.phase.Active?
      && interrupted == r.intr.Some?
      && (if r.intr.Some? then v == r.intr.value else r.phase == Fired(v))
    case Exited(_) => r.Live? && r.phase.Active?
    case _ => true
  }

  /** The process an observation is about, if any. */
  function Subject(o: Obs): Option<ProcId> {
    match o
    case Spawned(p) => Some(p)
    case Started(p) => Some(p)
    case Yielded(p, _, _, _) => Some(p)
    case Woke(p, _, _) => Some(p)
    case Exited(p) => Some(p)
    case _ => None
  }

  predicate AllowedBy(log: seq<Obs>, o: Obs) {
    Subject(o).Some? ==> Allowed(RefOf(log, Subject(o).value), o)
  }

  /** Every observation of the transcript was allowed when it was made. */
  predicate Accepts(log: seq<Obs>) {
    forall i :: 0 <= i < |log| ==> AllowedBy(log[..i], log[i])
  }

  lemma RefOfSay(log: seq<Obs>, o: Obs, p: ProcId)
    ensures RefOf(log + [o], p) == Next(RefOf(log, p), o, p)
  {
    assert (log + [o])[..|log|] == log;
  }

  lemma AcceptsSay(log: seq<Obs>, o: Obs)
    requires Accepts(log) && AllowedBy(log, o)
    ensures Accepts(log + [o])
  {
    var l := log + [o];
    forall i | 0 <= i < |l| ensures AllowedBy(l[..i], l[i]) {
      assert l[..i] == log[..i];
      if i == |log| { assert log[..i] == log; }
    }
  }
}
