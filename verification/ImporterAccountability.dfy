/**
 * Accountability in the importer: every accepted socket is published or
 * released, detach attempts are single-owner futures, and Close's drain
 * channel reports exactly the end of all enrolled work.
 */
module ImporterAccountability {
  import opened Base
  import opened LifecycleGroup
  import opened ImporterCore
  import opened ImporterProtocol
  import opened ImporterInvariant
  import opened ImporterRuns
  import opened ImporterTouch
  import opened ImporterOrder
  import opened ImporterEnrolment
  import opened ImporterHistory
  import opened ImporterTheorems

  // --- Every successful handoff is answered for ----------------------------

  /** Untracked detaches never share a port with a handle or a reservation. */
  lemma UntrackedIsDisjoint(s: State, p: Port)
    requires Reachable(s) && p in s.core.untracked
    ensures p !in s.core.handles && p !in s.core.reservations
  {
    ReachableInv(s);
    assert UntrackedOk(s, p);
  }

  /**
   * "Reservation lost" is unreachable: registering a handed-off port either
   * publishes the next generation as the port's handle or loses to Close.
   */
  lemma ReservationIsNeverLost(s: State, t: Tid)
    requires Reachable(s) && CanAttachRegister(s, t)
    ensures
      var p := s.threads[t].apc.port;
      var (c, r) := RegisterHandle(s.core, p, t, s.threads[t].auto, s.nextTid);
      && p !in c.reservations
      && (r.RegisterClosed? <==> s.core.closed)
      && (r.Registered? <==> !s.core.closed)
      && (r.Registered? ==> r.gen !in s.core.handleTable && IsCurrent(c, p, r.gen) && c.handleTable[r.gen].op == t)
  {
    ReachableInv(s);
    assert ThreadOk(s, t);
  }

  /** An attach publishes at most one handle, and it is for its own port. */
  lemma OneHandlePerAttach(s: State, g: Gen, h: Gen)
    requires Reachable(s) && g in s.core.handleTable && h in s.core.handleTable
    requires s.core.handleTable[g].op == s.core.handleTable[h].op
    ensures g == h
  {
    ReachableInv(s);
    assert HandleOk(s, g) && HandleOk(s, h);
  }

  /** After its handoff succeeded on `p`, an attach is on its way to publish
      or to release, or it has published. */
  predicate Answering(th: Thread, p: Port) {
    && th.AttachT?
    && match th.apc
       case Handing(q, phase) => q == p && phase.HandedOff?
       case Lost(q, _) => q == p
       case Publishing(q, _, _, _) => q == p
       case Out(Some((q, _)), _) => q == p
       case _ => false
  }

  /** The run contains the attach's own kernel.DetachPort after losing. */
  ghost predicate ReleasedIn(steps: seq<Step>, t: Tid) {
    exists i, o :: 0 <= i < |steps| && steps[i] == ByAttach(AttachLostRelease(t, o))
  }

  predicate AnswersFor(s: State, t: Tid, p: Port) { t in s.threads && Answering(s.threads[t], p) }

  lemma OwnAnswers(s: State, step: AttachStep, t: Tid, p: Port)
    requires AttachEnabled(s, step) && !step.AttachStart? && step.t == t && !step.AttachLostRelease?
    requires AnswersFor(s, t, p) && s.nextTid !in s.threads
    ensures AnswersFor(AttachApply(s, step), t, p)
  {
  }

  lemma StepAnswers(s: State, step: Step, t: Tid, p: Port)
    requires Reachable(s) && Enabled(s, step) && AnswersFor(s, t, p)
    requires forall o :: step != ByAttach(AttachLostRelease(t, o))
    ensures AnswersFor(Apply(s, step), t, p)
  {
    ReachableInv(s);
    if t in Touches(s, step) {
      AttachIsTouched(s, step, t);
      OwnAnswers(s, step.stepAttach, t, p);
    } else {
      StepTouch(s, step, t);
    }
  }

  lemma ReleasedLater(steps: seq<Step>, t: Tid)
    requires steps != [] && ReleasedIn(steps[1..], t)
    ensures ReleasedIn(steps, t)
  {
    var i, o :| 0 <= i < |steps[1..]| && steps[1..][i] == ByAttach(AttachLostRelease(t, o));
    assert steps[i + 1] == ByAttach(AttachLostRelease(t, o));
  }

  lemma {:induction false} RunAnswers(s: State, steps: seq<Step>, after: State, t: Tid, p: Port)
    requires Reachable(s) && Run(s, steps, after) && AnswersFor(s, t, p)
    ensures ReleasedIn(steps, t) || AnswersFor(after, t, p)
    decreases |steps|
  {
    if steps == [] {
      RunStays(s, after);
    } else {
      RunFirst(s, steps, after);
      if o :| steps[0] == ByAttach(AttachLostRelease(t, o)) {
        assert ReleasedIn(steps, t);
      } else {
        StepAnswers(s, steps[0], t, p);
        ReachableStep(s, steps[0]);
        RunAnswers(Apply(s, steps[0]), steps[1..], after, t, p);
        if ReleasedIn(steps[1..], t) { ReleasedLater(steps, t); }
      }
    }
  }

  /**
   * From a successful handoff of port `p` to the return of that Attach, the
   * run contains the attach's own release of the port, or the attach has
   * published a handle for exactly that port.
   */
  lemma HandoffIsAnswered(s: State, steps: seq<Step>, after: State, t: Tid, p: Port)
    requires Reachable(s) && Run(s, steps, after)
    requires AttachAt(s, t) && s.threads[t].apc == Handing(p, HandedOff)
    requires AttachAt(after, t) && after.threads[t].apc.Out?
    ensures
      || ReleasedIn(steps, t)
      || exists g ::
           && g in after.core.handleTable
           && after.core.handleTable[g].op == t && after.core.handleTable[g].port == p
  {
    LaterInv(s, steps, after);
    RunAnswers(s, steps, after, t, p);
    if !ReleasedIn(steps, t) {
      assert ThreadOk(after, t);
      var g := after.threads[t].apc.published.value.1;
      assert HasHandle(after, t, p, g);
    }
  }

  /** Every live socket of this importer has someone to answer for it: an
      attach in flight, the current handle of its port, or a leak that the
      failed release after Close has reported. */
  lemma NoSocketIsForgotten(s: State, p: Port)
    requires Reachable(s) && p in s.live && s.base <= s.live[p]
    ensures
      || (AttachAt(s, s.live[p]) && (s.threads[s.live[p]].apc.Handing? || s.threads[s.live[p]].apc.Lost?))
      || (p in s.core.handles && s.core.handles[p] in s.core.handleTable
          && s.core.handleTable[s.core.handles[p]].op == s.live[p])
      || (s.core.closed && s.live[p] in s.leaked)
  {
    ReachableInv(s);
    assert LiveOk(s, p);
    assert ThreadOk(s, s.live[p]);
  }

  // --- Detach attempts are single-owner futures ----------------------------

  /** At most one unfinished attempt per handle, one owner, and the handle
      points waiters to it. */
  lemma AttemptHasOneOwner(s: State, g: Gen, x: AttemptId, y: AttemptId)
    requires Reachable(s) && x in s.core.attemptTable && y in s.core.attemptTable
    requires s.core.attemptTable[x].target == OnHandle(g) && s.core.attemptTable[x].result.None?
    requires s.core.attemptTable[y].target == OnHandle(g) && s.core.attemptTable[y].result.None?
    ensures x == y && g in s.core.handleTable && s.core.handleTable[g].attempt == Some(x)
    ensures SoleOwner(s, g, s.core.attemptTable[x].owner)
  {
    ReachableInv(s);
    assert AttemptOk(s, x) && AttemptOk(s, y);
    OwnerIsSole(s, g, x);
  }

  /** Whoever returns from an attempt, owner or follower, now or later,
      returns the one result the attempt was closed with. */
  lemma EveryoneSeesOneResult(s: State, steps: seq<Step>, after: State, t: Tid, u: Tid, x: AttemptId)
    requires Reachable(s) && Run(s, steps, after) && DetachAt(s, t) && DetachAt(after, u)
    requires s.threads[t].dpc.DetachOut? && s.threads[t].dpc.attempt == x
    requires after.threads[u].dpc.DetachOut? && after.threads[u].dpc.attempt == x
    ensures after.threads[u].dpc.outcome == s.threads[t].dpc.outcome
  {
    LaterInv(s, steps, after);
    assert ThreadOk(s, t) && ThreadOk(after, u);
    assert AttemptKept(s.core, after.core, x);
  }

  /** Attempt `x` on handle `g` found or left the port released. */
  predicate Settled(c: Core, x: AttemptId, g: Gen) {
    && x in c.attemptTable && c.attemptTable[x].target == OnHandle(g)
    && c.attemptTable[x].result.Some? && c.attemptTable[x].result.value != Failed
  }

  /** The handle is not registered and its socket is not live. */
  predicate Forgotten(s: State, g: Gen) {
    Dead(s, g) && !IsCurrent(s.core, s.core.handleTable[g].port, g)
  }

  lemma SettledIsForever(s: State, steps: seq<Step>, after: State, x: AttemptId, g: Gen, u: Tid)
    requires Reachable(s) && Run(s, steps, after) && Settled(s.core, x, g)
    ensures Forgotten(after, g)
    ensures AcquireDetachTarget(after.core, after.core.handleTable[g].port, u).1 != FollowAttempt(x)
  {
    LaterInv(s, steps, after);
    assert AttemptKept(s.core, after.core, x);
    assert AttemptOk(after, x);
    NeverFollowed(after, x, g, u);
  }

  /**
   * A Detach that reports success, or that the port was not bound, tells the
   * truth for good: in every later state the socket of the generation it claimed
   * is gone, its handle is no longer registered, and no Detach of the port
   * follows that finished attempt.
   */
  lemma SuccessIsForever(s: State, steps: seq<Step>, after: State, t: Tid, g: Gen, u: Tid)
    requires Reachable(s) && Run(s, steps, after) && DetachAt(s, t) && s.threads[t].dpc.DetachOut?
    requires s.threads[t].dpc.outcome != Failed && s.threads[t].dpc.attempt in s.core.attemptTable
    requires s.core.attemptTable[s.threads[t].dpc.attempt].target == OnHandle(g)
    ensures Forgotten(after, g)
    ensures
      AcquireDetachTarget(after.core, after.core.handleTable[g].port, u).1 != FollowAttempt(s.threads[t].dpc.attempt)
  {
    ReachableInv(s);
    assert ThreadOk(s, t);
    SettledIsForever(s, steps, after, s.threads[t].dpc.attempt, g, u);
  }

  lemma NeverFollowed(s: State, x: AttemptId, g: Gen, u: Tid)
    requires Structure(s) && Settled(s.core, x, g) && Forgotten(s, g)
    ensures AcquireDetachTarget(s.core, s.core.handleTable[g].port, u).1 != FollowAttempt(x)
  {
    var p := s.core.handleTable[g].port;
    if p in s.core.handles {
      assert CurrentOk(s, p) && LinkOk(s, s.core.handles[p]);
    }
    assert p in s.core.untracked ==> UntrackedOk(s, p);
  }

  /** The port such a Detach leaves behind is free for all: with the importer
      open and no reservation, untracked attempt or other handle on it, the next
      attach is granted it and the next Detach asks the kernel itself. */
  lemma SettledPortIsGranted(s: State, x: AttemptId, g: Gen, p: Port, t: Tid)
    requires Reachable(s) && Settled(s.core, x, g) && !s.core.closed
    requires g in s.core.handleTable && s.core.handleTable[g].port == p
    requires p !in s.core.reservations && p !in s.core.untracked && (p in s.core.handles ==> s.core.handles[p] == g)
    ensures ReserveAttachPort(s.core, p, t).1
    ensures AcquireDetachTarget(s.core, p, t).1 == OwnUntracked(s.core.nextAttempt)
  {
    ReachableInv(s);
    assert AttemptOk(s, x);
  }

  /** No attempt follows a successful one on the same handle. */
  lemma NoAttemptAfterSuccess(s: State, steps: seq<Step>, after: State, x: AttemptId, y: AttemptId, g: Gen)
    requires Reachable(s) && Run(s, steps, after)
    requires x in s.core.attemptTable
    requires s.core.attemptTable[x].target == OnHandle(g) && s.core.attemptTable[x].result == Some(Outcome.Released)
    requires y in after.core.attemptTable && after.core.attemptTable[y].target == OnHandle(g)
    ensures y in s.core.attemptTable && (s.core.attemptTable[y].result.None? ==> y == x)
  {
    LaterInv(s, steps, after);
    assert AttemptOk(s, x);
    assert DetachDone(s.core, s.core.handleTable[g]);
    assert y !in s.core.attemptTable ==> AttemptAdmitted(s.core, after.core, y);
    assert AttemptKept(s.core, after.core, y) && AttemptOk(s, y);
  }

  /** A failed attempt leaves the handle claimable while it is registered:
      the next Detach of the port owns a fresh attempt on the same handle. */
  lemma FailureAllowsFreshOwner(s: State, t: Tid, u: Tid)
    requires Reachable(s) && CanOwnerFinish(s, t) && s.threads[t].dpc.phase.outcome == Failed
    requires !s.core.closed
    requires
      var p := s.threads[t].port;
      IsCurrent(s.core, p, s.threads[t].dpc.gen) && p !in s.core.reservations
    ensures
      var c := DoOwnerFinish(s, t).core;
      AcquireDetachTarget(c, s.threads[t].port, u).1 == OwnHandle(s.threads[t].dpc.gen, c.nextAttempt)
  {
    ReachableInv(s);
    assert ThreadOk(s, t);
    FreshOwner(s, t, u);
  }

  lemma FreshOwner(s: State, t: Tid, u: Tid)
    requires CanOwnerFinish(s, t) && DetachOk(s, t) && s.threads[t].dpc.phase.outcome == Failed
    requires !s.core.closed && s.threads[t].port !in s.core.reservations
    requires IsCurrent(s.core, s.threads[t].port, s.threads[t].dpc.gen)
    ensures
      var c := DoOwnerFinish(s, t).core;
      AcquireDetachTarget(c, s.threads[t].port, u).1 == OwnHandle(s.threads[t].dpc.gen, c.nextAttempt)
  {
  }

  // --- Close drains everything ---------------------------------------------

  /** Close has begun and no enrolled thread or helper is left. */
  ghost predicate Idle(s: State) {
    s.core.closed && s.helpers == 0 && forall t :: t in s.threads ==> !Enrolled(s.threads[t])
  }

  lemma IdleIsZero(s: State)
    requires Accounting(s) && s.core.closed
    ensures Idle(s) <==> s.core.wg.count == 0
  {
    if s.core.wg.count == 0 {
      forall t | t in s.threads
        ensures !Enrolled(s.threads[t])
      {
        assert t !in Members(s);
      }
    }
    if Idle(s) { assert Members(s) == {}; }
  }

  /** The channel Close waits on is closed exactly when all enrolled work has
      finished. */
  lemma DrainChannelMeansDone(s: State)
    requires Reachable(s) && s.drain.Some?
    ensures s.drain.value in s.core.wg.closed <==> Idle(s)
  {
    ReachableInv(s);
    IdleIsZero(s);
  }

  /** The step calls into the kernel adapter. */
  predicate KernelCall(step: Step) {
    match step
    case ByAttach(a) => a.AttachKernel? || a.AttachLostRelease?
    case ByDetach(a) => a.PortKernel? || a.OwnerKernel?
    case _ => false
  }

  lemma IdleAttach(s: State, step: AttachStep)
    requires Idle(s) && AttachEnabled(s, step)
    ensures AttachApply(s, step) == s && !KernelCall(ByAttach(step))
  {
  }

  /** All an idle importer still does is answer late Detach calls. */
  ghost predicate Quiet(s: State, s': State) {
    && Idle(s') && s'.core.handles == s.core.handles && s'.core.attemptTable == s.core.attemptTable
    && s'.core.wg.count == s.core.wg.count
    && forall p :: p in s'.live ==> p in s.live && s'.live[p] == s.live[p]
  }

  lemma IdleDetach(s: State, step: DetachStep)
    requires Idle(s) && DetachEnabled(s, step)
    ensures Quiet(s, DetachApply(s, step)) && !KernelCall(ByDetach(step))
  {
  }

  lemma IdleWatcher(s: State, step: WatcherStep)
    requires Idle(s)
    ensures !WatcherEnabled(s, step)
  {
  }

  lemma IdleWorld(s: State, step: WorldStep)
    requires Idle(s) && WorldEnabled(s, step)
    ensures Quiet(s, WorldApply(s, step))
  {
  }

  lemma IdleStep(s: State, step: Step)
    requires Idle(s) && Enabled(s, step)
    ensures Quiet(s, Apply(s, step)) && !KernelCall(step)
  {
    match step
    case ByAttach(a) => IdleAttach(s, a);
    case ByDetach(a) => IdleDetach(s, a);
    case ByWatcher(a) => IdleWatcher(s, a); assert false;
    case ByWorld(a) => IdleWorld(s, a);
  }

  lemma {:induction false} IdleRun(s: State, steps: seq<Step>, after: State)
    requires Idle(s) && Run(s, steps, after)
    ensures Quiet(s, after) && forall i :: 0 <= i < |steps| ==> !KernelCall(steps[i])
    decreases |steps|
  {
    if steps == [] {
      RunStays(s, after);
    } else {
      RunFirst(s, steps, after);
      IdleStep(s, steps[0]);
      IdleRun(Apply(s, steps[0]), steps[1..], after);
      assert forall i :: 0 < i < |steps| ==> steps[i] == steps[1..][i - 1];
    }
  }

  /**
   * Drain finality: after Close, once the counter is zero it is zero in every
   * later state of every run, no step of the run is a kernel call, and the
   * importer never again changes a handle or starts a detach attempt.
   */
  lemma DrainIsFinal(s: State, steps: seq<Step>, after: State)
    requires Reachable(s) && s.core.closed && s.core.wg.count == 0 && Run(s, steps, after)
    ensures after.core.wg.count == 0 && Quiet(s, after)
    ensures forall i :: 0 <= i < |steps| ==> !KernelCall(steps[i])
  {
    ReachableInv(s);
    IdleIsZero(s);
    IdleRun(s, steps, after);
  }

  /** Two attaches that hold a slot at the same time are for different
      (endpoint, busid) pairs. */
  lemma InFlightAttachesDiffer(s: State, t: Tid, u: Tid)
    requires Reachable(s) && AttachAt(s, t) && AttachAt(s, u) && t != u
    requires HoldsSlot(s.threads[t]) && HoldsSlot(s.threads[u])
    ensures s.threads[t].key != s.threads[u].key
  {
    ReachableInv(s);
  }

  /** No run closes a channel twice or drives the counter below zero. */
  lemma NothingPanics(s: State)
    requires Reachable(s)
    ensures !s.core.panicked
  {
    ReachableInv(s);
  }
}
