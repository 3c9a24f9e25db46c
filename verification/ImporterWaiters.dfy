/** What a Detach gets that waited for an attach to publish its handle
    (internal/app/importer.go:858-943). */
module ImporterWaiters {
  import opened Base
  import opened ImporterCore
  import opened ImporterProtocol
  import opened ImporterInvariant
  import opened ImporterHistory
  import opened ImporterRuns
  import opened ImporterTouch
  import opened ImporterAwaited

  /** The Detach follows attempt `x`, or returned its result. */
  predicate Follows(dpc: DetachPc, x: AttemptId) {
    dpc == Following(x) || (dpc.DetachOut? && dpc.attempt == x)
  }

  /** Detach `t` still waits for reservation `op`, or has given up, or the
      reservation is settled and its compensating attempt, if any, is followed. */
  predicate Served(s: State, t: Tid, op: Tid) {
    && DetachAt(s, t) && op in s.core.reservationTable
    && ServedAt(s.core.reservationTable[op], s.threads[t].dpc, op)
  }

  /** Where the thread may be while reservation `r` stays as it is. */
  predicate ServedAt(r: Reservation, dpc: DetachPc, op: Tid) {
    || dpc == AwaitPublication(op) || dpc.GaveUp?
    || (!r.fate.Pending? && (r.attempt.Some? ==> Follows(dpc, r.attempt.value)))
  }

  lemma ServedTouched(s: State, step: DetachStep, t: Tid, op: Tid)
    requires DetachEnabled(s, step) && t in DetachTouches(s, step) && Served(s, t, op)
    requires ReservationOk(s, op) && s.nextTid !in s.threads
    ensures DetachAt(DetachApply(s, step), t)
    ensures ServedAt(s.core.reservationTable[op], DetachApply(s, step).threads[t].dpc, op)
  {
    match step
    case DetachPublication(u) => WokenIsServed(s, u, op);
    case OwnerLeave(u) => LeaverIsServed(s, u, t, op);
    case _ =>
  }

  lemma WokenIsServed(s: State, t: Tid, op: Tid)
    requires CanDetachPublication(s, t) && Served(s, t, op) && ReservationOk(s, op)
    ensures DetachAt(DoDetachPublication(s, t), t)
    ensures ServedAt(s.core.reservationTable[op], DoDetachPublication(s, t).threads[t].dpc, op)
  {
  }

  lemma LeaverIsServed(s: State, u: Tid, t: Tid, op: Tid)
    requires CanOwnerLeave(s, u) && Served(s, t, op)
    ensures DetachAt(DoOwnerLeave(s, u), t)
    ensures ServedAt(s.core.reservationTable[op], DoOwnerLeave(s, u).threads[t].dpc, op)
  {
  }

  lemma ServedElsewhere(s: State, step: Step, t: Tid, op: Tid)
    requires Reachable(s) && Enabled(s, step) && Served(s, t, op) && !step.ByDetach?
    ensures DetachAt(Apply(s, step), t)
    ensures Apply(s, step).threads[t].dpc == s.threads[t].dpc || s.threads[t].dpc.Owner?
  {
    FreshFacts(s);
    if t in Touches(s, step) { MovedOwner(s, step, t); } else { StepTouch(s, step, t); }
  }

  /** Only the launch of its attach moves a Detach from outside. */
  lemma MovedOwner(s: State, step: Step, t: Tid)
    requires Reachable(s) && Enabled(s, step) && DetachAt(s, t) && !step.ByDetach? && t in Touches(s, step)
    requires s.nextTid !in s.threads
    ensures DetachAt(Apply(s, step), t)
    ensures Apply(s, step).threads[t].dpc == s.threads[t].dpc || s.threads[t].dpc.Owner?
  {
    match step
    case ByAttach(a) => if !a.AttachStart? { ThreadFacts(s, a.t); }
    case ByWatcher(a) =>
    case ByWorld(_) =>
  }

  lemma ServedStep(s: State, step: Step, t: Tid, op: Tid)
    requires Reachable(s) && Enabled(s, step) && Served(s, t, op)
    ensures Served(Apply(s, step), t, op)
  {
    StepIsGrowth(s, step);
    assert ReservationKept(s.core, Apply(s, step).core, op);
    if step.ByDetach? {
      FreshFacts(s);
      if t in Touches(s, step) {
        ReservationFacts(s, op);
        ServedTouched(s, step.stepDetach, t, op);
      } else {
        StepTouch(s, step, t);
      }
    } else {
      ServedElsewhere(s, step, t, op);
    }
  }

  lemma {:induction false} ServedRun(s: State, steps: seq<Step>, after: State, t: Tid, op: Tid)
    requires Reachable(s) && Run(s, steps, after) && Served(s, t, op)
    ensures Served(after, t, op) && Reachable(after)
    decreases |steps|
  {
    if steps == [] {
      RunStays(s, after);
    } else {
      RunFirst(s, steps, after);
      ReachableStep(s, steps[0]);
      ServedStep(s, steps[0], t, op);
      ServedRun(Apply(s, steps[0]), steps[1..], after, t, op);
    }
  }

  /** A Detach that waited for a publication and comes back gets the result of the
      one compensating attempt stored for the waiters, and never starts its own. */
  lemma WaiterGetsCompensation(s: State, steps: seq<Step>, after: State, t: Tid, op: Tid, x: AttemptId)
    requires Reachable(s) && Run(s, steps, after) && DetachAt(s, t) && s.threads[t].dpc == AwaitPublication(op)
    requires op in after.core.reservationTable && after.core.reservationTable[op].attempt == Some(x)
    ensures
      && DetachAt(after, t)
      && var dpc := after.threads[t].dpc;
         || dpc == AwaitPublication(op) || dpc.GaveUp? || dpc == Following(x)
         || (dpc.DetachOut? && x in after.core.attemptTable && after.core.attemptTable[x].result == Some(dpc.outcome))
  {
    ThreadFacts(s, t);
    ServedRun(s, steps, after, t, op);
    ThreadFacts(after, t);
  }

  /** The mark of a Detach that found the current handle, and the cancellation
      that goes with it when a reservation is there too. */
  predicate Marked(c: Core, c': Core, p: Port, g: Gen) {
    && g in c'.handleTable && c'.handleTable[g].detaching
    && (p in c.reservations && c.reservations[p] in c.reservationTable ==> c'.handleTable[g].cancelled)
  }

  lemma TargetMarks(c: Core, t: Tid, p: Port, g: Gen)
    requires !c.closed && IsCurrent(c, p, g) && g in c.handleTable
    requires c.handleTable[g].attempt.Some? ==> c.handleTable[g].detaching
    ensures Marked(c, AcquireDetachTarget(c, p, t).0, p, g)
  {
  }

  lemma LookMarks(s: State, t: Tid, p: Port, g: Gen)
    requires CanDetachLook(s, t) && s.threads[t].port == p && !s.core.closed && IsCurrent(s.core, p, g)
    requires g in s.core.handleTable && LinkOk(s, g)
    ensures Marked(s.core, DoDetachLook(s, t).core, p, g)
  {
    TargetMarks(s.core, t, p, g);
    assert DoDetachLook(s, t).core == AcquireDetachTarget(s.core, p, t).0;
  }

  lemma {:induction false} MarkRun(s: State, steps: seq<Step>, after: State, g: Gen)
    requires Reachable(s) && Run(s, steps, after) && g in s.core.handleTable
    ensures
      && g in after.core.handleTable
      && (s.core.handleTable[g].detaching ==> after.core.handleTable[g].detaching)
      && (s.core.handleTable[g].cancelled ==> after.core.handleTable[g].cancelled)
    decreases |steps|
  {
    if steps == [] {
      RunStays(s, after);
    } else {
      RunFirst(s, steps, after);
      ReachableStep(s, steps[0]);
      StepIsGrowth(s, steps[0]);
      assert HandleKept(s.core, Apply(s, steps[0]).core, g);
      MarkRun(Apply(s, steps[0]), steps[1..], after, g);
    }
  }

  lemma PortFacts(s: State, p: Port, g: Gen)
    requires Reachable(s) && IsCurrent(s.core, p, g)
    ensures g in s.core.handleTable && LinkOk(s, g)
    ensures p in s.core.reservations ==> s.core.reservations[p] in s.core.reservationTable
  {
    ReachableInv(s);
    assert CurrentOk(s, p);
    if p in s.core.reservations {
      assert ReservedOk(s, p);
      assert ThreadOk(s, s.core.reservations[p]);
    }
  }

  /** A Detach before Close marks the current handle of its port for good, also
      when it goes on to wait for an attach that is replacing that handle; then
      it cancels the handle as well, so that its watcher ends. */
  lemma DetachStopsCurrentHandle(s: State, t: Tid, steps: seq<Step>, after: State, p: Port, g: Gen)
    requires Reachable(s) && CanDetachLook(s, t) && s.threads[t].port == p && !s.core.closed && IsCurrent(s.core, p, g)
    requires Run(DoDetachLook(s, t), steps, after)
    ensures g in after.core.handleTable && after.core.handleTable[g].detaching
    ensures p in s.core.reservations ==> after.core.handleTable[g].cancelled
  {
    PortFacts(s, p, g);
    LookMarks(s, t, p, g);
    ReachableStep(s, ByDetach(DetachLook(t)));
    MarkRun(DoDetachLook(s, t), steps, after, g);
  }
}
