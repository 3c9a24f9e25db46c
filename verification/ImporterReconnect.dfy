/**
 * What becomes of the old handle and of the replacement when a reconnect
 * watcher is done with them (internal/app/reconnect.go:495-605).
 */
module ImporterReconnect {
  import opened Base
  import opened ImporterCore
  import opened ImporterProtocol
  import opened ImporterInvariant
  import opened ImporterHistory
  import opened ImporterRuns
  import opened ImporterTouch
  import opened ImporterOrder
  import opened ImporterAwaited
  import opened ImporterShield

  /** Handle `g` of port `p` is no longer registered. */
  predicate Gone(c: Core, p: Port, g: Gen) {
    g in c.handleTable && c.handleTable[g].port == p && !IsCurrent(c, p, g)
  }

  /** A Detach has it, or it is gone. */
  predicate TornDown(c: Core, p: Port, g: Gen) {
    g in c.handleTable && c.handleTable[g].port == p && (c.handleTable[g].detaching || !IsCurrent(c, p, g))
  }

  lemma GoneStep(s: State, step: Step, p: Port, g: Gen)
    requires Reachable(s) && Enabled(s, step)
    ensures Gone(s.core, p, g) ==> Gone(Apply(s, step).core, p, g)
    ensures TornDown(s.core, p, g) ==> TornDown(Apply(s, step).core, p, g)
  {
    if TornDown(s.core, p, g) {
      StepIsGrowth(s, step);
      assert HandleKept(s.core, Apply(s, step).core, g);
      if !IsCurrent(s.core, p, g) { NeverCurrentAgain(s, step, p, g); }
    }
  }

  // --- The old handle ------------------------------------------------------

  /** Watcher `t` will retire handle `g` of port `p`, or the handle is gone. */
  predicate Retired(s: State, t: Tid, p: Port, g: Gen) {
    && g in s.core.handleTable && s.core.handleTable[g].port == p
    && (Retires(s, t, g) || !IsCurrent(s.core, p, g))
  }

  lemma RetiredStep(s: State, step: Step, t: Tid, p: Port, g: Gen)
    requires Reachable(s) && Enabled(s, step) && Retired(s, t, p, g)
    ensures Retired(Apply(s, step), t, p, g)
  {
    if Gone(s.core, p, g) {
      GoneStep(s, step, p, g);
    } else {
      StillThere(s, step, g);
      StepIsGrowth(s, step);
      assert HandleKept(s.core, Apply(s, step).core, g);
      if t in Touches(s, step) {
        OnlyRetires(s, step, t, g);
        RetireDeletes(s, t, p, g);
      } else {
        FreshFacts(s);
        StepTouch(s, step, t);
      }
    }
  }

  lemma {:induction false} RetiredRun(s: State, steps: seq<Step>, after: State, t: Tid, p: Port, g: Gen)
    requires Reachable(s) && Run(s, steps, after) && Retired(s, t, p, g)
    ensures Retired(after, t, p, g)
    decreases |steps|
  {
    if steps == [] {
      RunStays(s, after);
    } else {
      RunFirst(s, steps, after);
      ReachableStep(s, steps[0]);
      RetiredStep(s, steps[0], t, p, g);
      RetiredRun(Apply(s, steps[0]), steps[1..], after, t, p, g);
    }
  }

  /** The step has watcher `t` give its handle up: its attempts ran out, or it
      retires the handle after a successful attempt. */
  predicate GivesUp(step: Step, t: Tid) {
    step == ByWatcher(WatcherExhausted(t)) || step == ByWatcher(WatcherRetire(t))
  }

  lemma RemovalDeletes(s: State, t: Tid, p: Port, g: Gen)
    requires WatcherAt(s, t) && s.threads[t].gen == g && g in s.core.handleTable && s.core.handleTable[g].port == p
    ensures Gone(RemoveOwnHandle(s, t).core, p, g)
  {
  }

  lemma GiveUpDeletes(s: State, step: Step, t: Tid, p: Port, g: Gen)
    requires Enabled(s, step) && GivesUp(step, t) && WatcherAt(s, t) && s.threads[t].gen == g
    requires g in s.core.handleTable && s.core.handleTable[g].port == p
    ensures Gone(Apply(s, step).core, p, g)
  {
    RemovalDeletes(s, t, p, g);
    assert Apply(s, step).core == RemoveOwnHandle(s, t).core;
  }

  /** A handle its watcher gave up is not registered in any later state. */
  lemma GivenUpIsForgotten(s: State, step: Step, steps: seq<Step>, after: State, t: Tid, p: Port, g: Gen)
    requires Reachable(s) && Enabled(s, step) && GivesUp(step, t) && WatcherAt(s, t) && s.threads[t].gen == g
    requires g in s.core.handleTable && s.core.handleTable[g].port == p
    requires Run(Apply(s, step), steps, after)
    ensures Gone(after.core, p, g)
  {
    GiveUpDeletes(s, step, t, p, g);
    ReachableStep(s, step);
    GoneRun(Apply(s, step), steps, after, p, g);
  }

  lemma {:induction false} GoneRun(s: State, steps: seq<Step>, after: State, p: Port, g: Gen)
    requires Reachable(s) && Run(s, steps, after)
    ensures Gone(s.core, p, g) ==> Gone(after.core, p, g)
    decreases |steps|
  {
    if steps == [] {
      RunStays(s, after);
    } else {
      RunFirst(s, steps, after);
      ReachableStep(s, steps[0]);
      GoneStep(s, steps[0], p, g);
      GoneRun(Apply(s, steps[0]), steps[1..], after, p, g);
    }
  }

  /** The watcher is done: it has closed its channel or is about to. */
  predicate IsDone(s: State, t: Tid) {
    WatcherAt(s, t) && (s.threads[t].wpc.Exiting? || s.threads[t].wpc.WatcherLeaving? || s.threads[t].wpc.WatcherGone?)
  }

  predicate AtSuccess(s: State, t: Tid, g: Gen, p': Port, g': Gen) {
    CanWatcherSucceeded(s, t) && s.threads[t].gen == g && s.threads[t].wpc == Succeeded(p', g')
  }

  /** Reconnect success without a Detach: when the watcher is done the handle it
      replaced is not registered, whichever port the replacement took. */
  lemma ReplacedIsForgotten(
    s: State, steps: seq<Step>, after: State, t: Tid, p: Port, g: Gen, p': Port, g': Gen)
    requires Reachable(s) && AtSuccess(s, t, g, p', g') && s.core.handleTable[g].port == p
    requires !s.core.handleTable[g].detaching
    requires Run(DoWatcherSucceeded(s, t), steps, after) && IsDone(after, t)
    ensures Gone(after.core, p, g)
  {
    ReachableStep(s, ByWatcher(WatcherSucceeded(t)));
    RetiredRun(DoWatcherSucceeded(s, t), steps, after, t, p, g);
  }

  // --- The replacement -----------------------------------------------------

  /** Watcher `t` will roll generation `g` back, or it is torn down. */
  predicate RolledBack(s: State, t: Tid, p: Port, g: Gen) {
    && g in s.core.handleTable && s.core.handleTable[g].port == p
    && ((WatcherAt(s, t) && s.threads[t].wpc.Rollback? && s.threads[t].wpc.port == p && s.threads[t].wpc.gen == g)
        || TornDown(s.core, p, g))
  }

  lemma OnlyRollsBack(s: State, step: Step, t: Tid)
    requires Reachable(s) && Enabled(s, step) && WatcherAt(s, t) && s.threads[t].wpc.Rollback? && t in Touches(s, step)
    ensures step == ByWatcher(WatcherRollbackCheck(t)) || step == ByWatcher(WatcherRollbackClaim(t))
  {
    match step
    case ByAttach(a) => ThreadFacts(s, a.t);
    case ByDetach(a) => ThreadFacts(s, a.t);
    case ByWatcher(a) =>
    case ByWorld(_) =>
  }

  lemma CheckRollsBack(s: State, t: Tid, p: Port, g: Gen)
    requires CanWatcherRollbackCheck(s, t) && RolledBack(s, t, p, g) && !TornDown(s.core, p, g)
    ensures RolledBack(DoWatcherRollbackCheck(s, t), t, p, g)
  {
  }

  lemma ClaimRollsBack(s: State, t: Tid, p: Port, g: Gen)
    requires CanWatcherRollbackClaim(s, t) && RolledBack(s, t, p, g) && LinkOk(s, g)
    ensures TornDown(DoWatcherRollbackClaim(s, t).core, p, g)
  {
  }

  lemma RolledBackStep(s: State, step: Step, t: Tid, p: Port, g: Gen)
    requires Reachable(s) && Enabled(s, step) && RolledBack(s, t, p, g)
    ensures RolledBack(Apply(s, step), t, p, g)
  {
    if TornDown(s.core, p, g) {
      GoneStep(s, step, p, g);
    } else if t in Touches(s, step) {
      OnlyRollsBack(s, step, t);
      ReachableInv(s);
      if step == ByWatcher(WatcherRollbackCheck(t)) { CheckRollsBack(s, t, p, g); } else { ClaimRollsBack(s, t, p, g); }
    } else {
      StepIsGrowth(s, step);
      assert HandleKept(s.core, Apply(s, step).core, g);
      FreshFacts(s);
      StepTouch(s, step, t);
    }
  }

  lemma {:induction false} RolledBackRun(s: State, steps: seq<Step>, after: State, t: Tid, p: Port, g: Gen)
    requires Reachable(s) && Run(s, steps, after) && RolledBack(s, t, p, g)
    ensures RolledBack(after, t, p, g)
    decreases |steps|
  {
    if steps == [] {
      RunStays(s, after);
    } else {
      RunFirst(s, steps, after);
      ReachableStep(s, steps[0]);
      RolledBackStep(s, steps[0], t, p, g);
      RolledBackRun(Apply(s, steps[0]), steps[1..], after, t, p, g);
    }
  }

  /** A Detach that marked the old handle before the watcher looks reaches the
      replacement: when the watcher is done, a Detach has that one too, or it is
      not registered any more. */
  lemma DetachReachesReplacement(
    s: State, steps: seq<Step>, after: State, t: Tid, g: Gen, p': Port, g': Gen)
    requires Reachable(s) && AtSuccess(s, t, g, p', g') && s.core.handleTable[g].detaching
    requires Run(DoWatcherSucceeded(s, t), steps, after) && IsDone(after, t)
    ensures TornDown(after.core, p', g')
  {
    ThreadFacts(s, t);
    ReachableStep(s, ByWatcher(WatcherSucceeded(t)));
    RolledBackRun(DoWatcherSucceeded(s, t), steps, after, t, p', g');
  }

  lemma DoneMoves(s: State, step: WatcherStep, t: Tid)
    requires WatcherEnabled(s, step) && IsDone(s, t) && t in WatcherTouches(step) && s.nextTid !in s.threads
    ensures IsDone(WatcherApply(s, step), t)
  {
  }

  lemma DoneStep(s: State, step: Step, t: Tid)
    requires Reachable(s) && Enabled(s, step) && IsDone(s, t)
    ensures IsDone(Apply(s, step), t)
  {
    FreshFacts(s);
    if t in Touches(s, step) {
      match step
      case ByAttach(a) => if !a.AttachStart? { ThreadFacts(s, a.t); }
      case ByDetach(a) => if !a.DetachStart? { ThreadFacts(s, a.t); }
      case ByWatcher(a) => DoneMoves(s, a, t);
      case ByWorld(_) =>
    } else {
      StepTouch(s, step, t);
    }
  }

  lemma {:induction false} DoneRun(s: State, steps: seq<Step>, after: State, t: Tid)
    requires Reachable(s) && Run(s, steps, after) && IsDone(s, t)
    ensures IsDone(after, t) && Reachable(after)
    decreases |steps|
  {
    if steps == [] {
      RunStays(s, after);
    } else {
      RunFirst(s, steps, after);
      ReachableStep(s, steps[0]);
      DoneStep(s, steps[0], t);
      DoneRun(Apply(s, steps[0]), steps[1..], after, t);
    }
  }

  /** A rollback that finds a Detach on the replacement leaves it alone, also when
      that Detach has failed: in no later state does the watcher roll it back. */
  lemma OwnedReplacementIsLeftAlone(s: State, steps: seq<Step>, after: State, t: Tid, u: Tid)
    requires Reachable(s) && CanWatcherRollbackCheck(s, t) && s.core.handleTable[s.threads[t].wpc.gen].detaching
    requires Run(DoWatcherRollbackCheck(s, t), steps, after)
    ensures IsDone(after, t)
    ensures DetachAt(after, u) && after.threads[u].rollback == Some(t) ==>
      after.threads[u].dpc.DetachOut? && after.threads[u].dpc.returned
  {
    ReachableStep(s, ByWatcher(WatcherRollbackCheck(t)));
    DoneRun(DoWatcherRollbackCheck(s, t), steps, after, t);
    if DetachAt(after, u) { ThreadFacts(after, u); }
  }

  // --- Superseding ---------------------------------------------------------

  lemma RegisterSupersedes(s: State, t: Tid, p: Port, g: Gen)
    requires CanAttachRegister(s, t) && s.threads[t].apc.port == p && !s.core.closed
    requires ReservationHeld(s, t, p) && IsCurrent(s.core, p, g) && FreshOk(s)
    requires g in s.core.handleTable && s.core.handleTable[g].port == p
    ensures
      var c := DoAttachRegister(s, t).core;
      Gone(c, p, g) && c.handleTable[g].cancelled
  {
  }

  /** An attach that publishes on a port with a handle supersedes that handle: in
      every later state it is cancelled, so its watcher ends, and not registered. */
  lemma SupersededIsCancelled(s: State, t: Tid, steps: seq<Step>, after: State, p: Port, g: Gen)
    requires Reachable(s) && CanAttachRegister(s, t) && s.threads[t].apc.port == p && !s.core.closed
    requires IsCurrent(s.core, p, g) && Run(DoAttachRegister(s, t), steps, after)
    ensures Gone(after.core, p, g) && after.core.handleTable[g].cancelled
  {
    ThreadFacts(s, t);
    CurrentFacts(s, p, g);
    FreshFacts(s);
    RegisterSupersedes(s, t, p, g);
    ReachableStep(s, ByAttach(AttachRegister(t)));
    GoneRun(DoAttachRegister(s, t), steps, after, p, g);
    CancelledRun(DoAttachRegister(s, t), steps, after, g);
  }

  lemma {:induction false} CancelledRun(s: State, steps: seq<Step>, after: State, g: Gen)
    requires Reachable(s) && Run(s, steps, after) && g in s.core.handleTable && s.core.handleTable[g].cancelled
    ensures g in after.core.handleTable && after.core.handleTable[g].cancelled
    decreases |steps|
  {
    if steps == [] {
      RunStays(s, after);
    } else {
      RunFirst(s, steps, after);
      ReachableStep(s, steps[0]);
      StepIsGrowth(s, steps[0]);
      assert HandleKept(s.core, Apply(s, steps[0]).core, g);
      CancelledRun(Apply(s, steps[0]), steps[1..], after, g);
    }
  }

  // --- No reconnect is abandoned -------------------------------------------

  /** The importer or the handle is being shut down, or the handle is gone. */
  predicate Excused(c: Core, p: Port, g: Gen) {
    && g in c.handleTable && c.handleTable[g].port == p
    && (c.closed || c.handleTable[g].detaching || c.handleTable[g].cancelled || !IsCurrent(c, p, g))
  }

  predicate AtWork(wpc: WatcherPc) { wpc.Reconnecting? || wpc.Attempting? || wpc.Succeeded? || wpc.Retiring? }

  /** Watcher `t` of handle `g` is at work on the reconnect, or is excused. */
  predicate Pursues(s: State, t: Tid, p: Port, g: Gen) {
    && WatcherAt(s, t) && s.threads[t].gen == g && g in s.core.handleTable && s.core.handleTable[g].port == p
    && (AtWork(s.threads[t].wpc) || Excused(s.core, p, g))
  }

  lemma ExcusedStep(s: State, step: Step, p: Port, g: Gen)
    requires Reachable(s) && Enabled(s, step) && Excused(s.core, p, g)
    ensures Excused(Apply(s, step).core, p, g)
  {
    StepIsGrowth(s, step);
    assert HandleKept(s.core, Apply(s, step).core, g);
    if !IsCurrent(s.core, p, g) { NeverCurrentAgain(s, step, p, g); }
  }

  lemma OwnPursuit(s: State, step: WatcherStep, t: Tid, p: Port, g: Gen)
    requires WatcherEnabled(s, step) && t in WatcherTouches(step) && s.nextTid !in s.threads
    requires Pursues(s, t, p, g) && AtWork(s.threads[t].wpc)
    ensures Pursues(WatcherApply(s, step), t, p, g)
  {
    match step
    case WatcherAttempt(_) => AttemptPursues(s, t, p, g);
    case WatcherExhausted(_) => RemovalDeletes(s, t, p, g);
    case WatcherRetire(_) => RemovalDeletes(s, t, p, g);
    case _ =>
  }

  lemma AttemptPursues(s: State, t: Tid, p: Port, g: Gen)
    requires CanWatcherAttempt(s, t) && s.nextTid !in s.threads && Pursues(s, t, p, g)
    ensures Pursues(DoWatcherAttempt(s, t), t, p, g)
  {
  }

  /** A returning attempt hands back to its watcher. */
  lemma ChildReturns(s: State, step: Step, t: Tid)
    requires Reachable(s) && Enabled(s, step) && !step.ByWatcher? && t in Touches(s, step)
    requires WatcherAt(s, t) && AtWork(s.threads[t].wpc)
    ensures
      var s' := Apply(s, step);
      WatcherAt(s', t) && s'.threads[t].gen == s.threads[t].gen && AtWork(s'.threads[t].wpc)
  {
    match step
    case ByAttach(a) => if !a.AttachStart? { ThreadFacts(s, a.t); }
    case ByDetach(a) => if !a.DetachStart? { ThreadFacts(s, a.t); }
    case ByWorld(_) =>
  }

  lemma SameWatcher(s: State, step: Step, t: Tid)
    requires Reachable(s) && Enabled(s, step) && WatcherAt(s, t)
    ensures WatcherAt(Apply(s, step), t) && Apply(s, step).threads[t].gen == s.threads[t].gen
  {
    ReachableSound(s);
    NoWatcherVanishes(s, step, t);
  }

  lemma PursuesStep(s: State, step: Step, t: Tid, p: Port, g: Gen)
    requires Reachable(s) && Enabled(s, step) && Pursues(s, t, p, g)
    ensures Pursues(Apply(s, step), t, p, g)
  {
    FreshFacts(s);
    StepIsGrowth(s, step);
    assert HandleKept(s.core, Apply(s, step).core, g);
    SameWatcher(s, step, t);
    if Excused(s.core, p, g) {
      ExcusedStep(s, step, p, g);
    } else if t !in Touches(s, step) {
      StepTouch(s, step, t);
    } else if step.ByWatcher? {
      OwnPursuit(s, step.stepWatcher, t, p, g);
    } else {
      ChildReturns(s, step, t);
    }
  }

  lemma {:induction false} PursuesRun(s: State, steps: seq<Step>, after: State, t: Tid, p: Port, g: Gen)
    requires Reachable(s) && Run(s, steps, after) && Pursues(s, t, p, g)
    ensures Pursues(after, t, p, g)
    decreases |steps|
  {
    if steps == [] {
      RunStays(s, after);
    } else {
      RunFirst(s, steps, after);
      ReachableStep(s, steps[0]);
      PursuesStep(s, steps[0], t, p, g);
      PursuesRun(Apply(s, steps[0]), steps[1..], after, t, p, g);
    }
  }

  /** Once a watcher has believed a detach signal it goes on until its handle is
      replaced, given up after the last attempt, claimed or cancelled, or the
      importer is closed. */
  lemma ReconnectIsNotAbandoned(s: State, steps: seq<Step>, after: State, t: Tid, p: Port, g: Gen)
    requires Reachable(s) && WatcherAt(s, t) && s.threads[t].wpc.Reconnecting? && s.threads[t].gen == g
    requires g in s.core.handleTable && s.core.handleTable[g].port == p
    requires Run(s, steps, after) && IsDone(after, t)
    ensures Excused(after.core, p, g)
  {
    PursuesRun(s, steps, after, t, p, g);
  }

  // --- A rollback is waited for --------------------------------------------

  /** Watcher `t` waits for the attempt it joined, or the attempt is finished. */
  predicate Joins(s: State, t: Tid, x: AttemptId) {
    && WatcherAt(s, t) && x in s.core.attemptTable
    && (s.threads[t].wpc == Joining(x) || s.core.attemptTable[x].result.Some?)
  }

  lemma OnlyJoins(s: State, step: Step, t: Tid)
    requires Reachable(s) && Enabled(s, step) && WatcherAt(s, t) && s.threads[t].wpc.Joining? && t in Touches(s, step)
    ensures step == ByWatcher(WatcherJoined(t))
  {
    match step
    case ByAttach(a) => ThreadFacts(s, a.t);
    case ByDetach(a) => ThreadFacts(s, a.t);
    case ByWatcher(a) =>
    case ByWorld(_) =>
  }

  lemma JoinsStep(s: State, step: Step, t: Tid, x: AttemptId)
    requires Reachable(s) && Enabled(s, step) && Joins(s, t, x)
    ensures Joins(Apply(s, step), t, x)
  {
    FreshFacts(s);
    StepIsGrowth(s, step);
    assert AttemptKept(s.core, Apply(s, step).core, x);
    SameWatcher(s, step, t);
    if s.core.attemptTable[x].result.None? {
      if t in Touches(s, step) { OnlyJoins(s, step, t); }
      StepTouch(s, step, t);
    }
  }

  lemma {:induction false} JoinsRun(s: State, steps: seq<Step>, after: State, t: Tid, x: AttemptId)
    requires Reachable(s) && Run(s, steps, after) && Joins(s, t, x)
    ensures Joins(after, t, x)
    decreases |steps|
  {
    if steps == [] {
      RunStays(s, after);
    } else {
      RunFirst(s, steps, after);
      ReachableStep(s, steps[0]);
      JoinsStep(s, steps[0], t, x);
      JoinsRun(Apply(s, steps[0]), steps[1..], after, t, x);
    }
  }

  /** A watcher is done only after the Detach it joined has finished. */
  lemma JoinedAttemptIsAwaited(s: State, steps: seq<Step>, after: State, t: Tid, x: AttemptId)
    requires Reachable(s) && WatcherAt(s, t) && s.threads[t].wpc == Joining(x)
    requires Run(s, steps, after) && IsDone(after, t)
    ensures x in after.core.attemptTable && after.core.attemptTable[x].result.Some?
  {
    ThreadFacts(s, t);
    JoinsRun(s, steps, after, t, x);
  }
}
