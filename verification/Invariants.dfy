/** What every reachable kernel state satisfies. */
module Invariants {
  import opened Entries
  import opened Kernel
  import opened Protocol

  // ---------- the shape of the kernel ----------

  /** Every queued entry belongs to a triggered event, lies in the present or the future, and a resume
      entry lies in the present; numbers and events occur once. */
  ghost predicate QueueOk(q: set<Entry>, nextSeq: nat, now: real, evs: seq<Event>) {
    && (forall x :: x in q ==>
      && x.event < |evs| && evs[x.event].state.Triggered?
      && x.priority == NORMAL && x.seqNo < nextSeq && now <= x.time
      && (evs[x.event].kind.ResumeOf? ==> x.time == now))
    && (forall x, y :: x in q && y in q && (x.seqNo == y.seqNo || x.event == y.event) ==> x == y)
  }

  ghost predicate Queued(q: set<Entry>, e: EventId) {
    exists x :: x in q && x.event == e
  }

  /** Every triggered event is in the queue. */
  ghost predicate AllQueued(q: set<Entry>, evs: seq<Event>) {
    forall e :: 0 <= e < |evs| && evs[e].state.Triggered? ==> Queued(q, e)
  }

  /** A resume event is its process's own, is never left pending, and holds exactly the one callback
      that switches to that process while it is in the queue; no other event holds such a callback. */
  ghost predicate EventOk(ev: Event, e: EventId, procs: seq<Proc>) {
    && (ev.state.Processed? ==> ev.cbs == [])
    && (ev.recyclable == ev.kind.Transient?)
    && (if ev.kind.ResumeOf? then
      && ev.kind.p < |procs| && procs[ev.kind.p].resumeEv == Some(e)
      && !ev.state.Pending?
      && (ev.state.Triggered? ==> ev.cbs == [ResumeCb(ev.kind.p)])
    else forall i :: 0 <= i < |ev.cbs| ==> !ev.cbs[i].ResumeCb?)
  }

  ghost predicate EventsOk(evs: seq<Event>, procs: seq<Proc>) {
    forall e :: 0 <= e < |evs| ==> EventOk(evs[e], e, procs)
  }

  ghost predicate LinksOk(procs: seq<Proc>, evs: seq<Event>) {
    forall p :: 0 <= p < |procs| ==>
      && procs[p].resumeEv.Some? && procs[p].resumeEv.value < |evs|
      && evs[procs[p].resumeEv.value].kind == ResumeOf(p)
      && (procs[p].done.Some? ==> procs[p].done.value < |evs| && evs[procs[p].done.value].kind == DoneOf(p))
  }

  predicate Distinct(s: seq<nat>) {
    forall i, j :: 0 <= i < j < |s| ==> s[i] != s[j]
  }

  /** The free list: no duplicates, only processed events (so no callbacks) of the kinds that are ever
      recycled, and not the event being dispatched. */
  ghost predicate PoolOk(pool: seq<EventId>, evs: seq<Event>, ctl: Control) {
    && Distinct(pool)
    && (forall i :: 0 <= i < |pool| ==>
      && pool[i] < |evs| && evs[pool[i]].state.Processed?
      && (evs[pool[i]].kind.Transient? || evs[pool[i]].kind.Request?)
      && !(ctl.Dispatch? && ctl.e == pool[i]))
  }

  /** The list of dead process structs. */
  ghost predicate DeadOk(pool: seq<ProcId>, procs: seq<Proc>) {
    && Distinct(pool)
    && (forall i :: 0 <= i < |pool| ==> pool[i] < |procs|)
    && (forall p :: 0 <= p < |procs| ==> (procs[p].state.Dead? <==> p in pool))
  }

  /** Where the dispatch loop can be. */
  ghost predicate LoopOk(ctl: Control, evs: seq<Event>) {
    ctl.Dispatch? ==>
      && ctl.e < |evs|
      && (if evs[ctl.e].kind.ResumeOf? then
        var p := evs[ctl.e].kind.p;
        && (ctl.who == Loop || ctl.who == InProc(p))
        && (ctl.rest != [] ==>
          ctl.rest == [ResumeCb(p)] && ctl.who == Loop && evs[ctl.e].state.Processed?)
      else
        && evs[ctl.e].state.Processed? && !ctl.who.InProc?
        && forall i :: 0 <= i < |ctl.rest| ==> !ctl.rest[i].ResumeCb?)
  }

  /** Dispatched keys so far are strictly increasing, precede everything queued, and lie in the past. */
  ghost predicate TraceOk(tr: seq<Entry>, q: set<Entry>, now: real, nextSeq: nat) {
    && (forall i, j :: 0 <= i < j < |tr| ==> EntryLt(tr[i], tr[j]))
    && (forall i :: 0 <= i < |tr| ==> tr[i].seqNo < nextSeq && tr[i].time <= now && tr[i].priority == NORMAL)
    && (forall i, x :: 0 <= i < |tr| && x in q ==> EntryLt(tr[i], x))
  }

  ghost predicate Shape(k: Kernel) {
    && QueueOk(k.queue, k.nextSeq, k.now, k.events)
    && AllQueued(k.queue, k.events)
    && EventsOk(k.events, k.procs)
    && LinksOk(k.procs, k.events)
    && PoolOk(k.eventPool, k.events, k.ctl)
    && DeadOk(k.procPool, k.procs)
    && LoopOk(k.ctl, k.events)
    && TraceOk(k.trace, k.queue, k.now, k.nextSeq)
  }

  /** User code (or the host) has control: no callback of a resume event is still to be called. */
  predicate InControl(ctl: Control) {
    ctl.Idle? || !ctl.who.Loop?
  }

  // ---------- the kernel follows the automaton ----------

  predicate RestHas(ctl: Control, cb: Callback) {
    ctl.Dispatch? && cb in ctl.rest
  }

  /** A switch to `p` is on its way: its resume event is queued, or is just being dispatched. */
  predicate InFlight(evs: seq<Event>, pr: Proc, p: ProcId, ctl: Control) {
    pr.resumeEv.Some? && pr.resumeEv.value < |evs| &&
    (evs[pr.resumeEv.value].state.Triggered? || RestHas(ctl, ResumeCb(p)))
  }

  predicate HasControl(ctl: Control, p: ProcId) {
    ctl.Dispatch? && ctl.who == InProc(p)
  }

  /** The event `p` waits for is being dispatched, with `p`'s waiter callback still to be called. */
  predicate WaiterNext(pr: Proc, p: ProcId, ctl: Control) {
    RestHas(ctl, WaiterCb(p)) && pr.yielded == Some(ctl.e)
  }

  ghost predicate PhaseOk(evs: seq<Event>, pr: Proc, p: ProcId, ctl: Control, r: Ref)
    requires r.Live?
  {
    match r.phase
    case Unstarted => pr.state.New? && pr.yielded.None? && r.due
    case Active => pr.state.Running? && pr.yielded.None? && (r.due ==> r.intr.Some?)
    case Waiting(e) =>
      && pr.state.Running? && pr.yielded == Some(e) && (r.due ==> r.intr.Some?)
      && e < |evs| && !evs[e].state.Processed? && !evs[e].kind.ResumeOf? && WaiterCb(p) in evs[e].cbs
    case Fired(v) =>
      && pr.state.Running? && pr.yielded.Some? && pr.yielded.value < |evs|
      && WaiterCb(p) !in evs[pr.yielded.value].cbs
      && (if WaiterNext(pr, p, ctl) then evs[ctl.e].value == v
          else InFlight(evs, pr, p, ctl) && pr.resumeValue == v)
    case Cancelled => pr.state.Running? && pr.yielded.None? && r.due && r.intr.Some?
  }

  ghost predicate Follows(evs: seq<Event>, pr: Proc, p: ProcId, ctl: Control, r: Ref) {
    match r
    case Absent => false
    case Gone => pr.state.Dead? && pr.yielded.None? && !HasControl(ctl, p)
    case Live(phase, intr, due) =>
      && pr.interruptPending == intr.Some? && (intr.Some? ==> pr.cause == intr.value)
      && due == (InFlight(evs, pr, p, ctl) || (phase.Fired? && WaiterNext(pr, p, ctl)))
      && (phase.Active? <==> HasControl(ctl, p))
      && PhaseOk(evs, pr, p, ctl, r)
  }

  ghost predicate AllFollow(k: Kernel) {
    && (forall p :: 0 <= p < |k.procs| ==> Follows(k.events, k.procs[p], p, k.ctl, RefOf(k.log, p)))
    && (forall p :: |k.procs| <= p ==> RefOf(k.log, p) == Absent)
  }

  ghost predicate Inv(k: Kernel) {
    Wf(k) && Shape(k) && AllFollow(k) && Accepts(k.log)
  }
}
