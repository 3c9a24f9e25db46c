/**
 * Two situations in which a claim that was not clear is harmless all the same:
 * the handle's watcher is about to retire it, or is itself the parent of the
 * attach that will supersede it.
 */
module ImporterShield {
  import opened ImporterCore
  import opened ImporterProtocol
  import opened ImporterInvariant
  import opened ImporterHistory
  import opened ImporterRuns
  import opened ImporterTouch
  import opened ImporterGains
  import opened ImporterOrder
  import opened ImporterAwaited

  // --- The claim never aims ------------------------------------------------

  /** Owner `t` of generation `g` has not passed its identity check with its
      watcher gone, or is done. */
  predicate Unaimed(s: State, t: Tid, p: Port, g: Gen) {
    && DetachAt(s, t) && s.threads[t].port == p && (s.threads[t].dpc.Owner? || s.threads[t].dpc.DetachOut?)
    && (s.threads[t].dpc.Owner? ==> s.threads[t].dpc.gen == g && s.threads[t].dpc.phase != Checked(false))
  }

  lemma UnaimedDetach(s: State, step: DetachStep, t: Tid, p: Port, g: Gen)
    requires DetachEnabled(s, step) && Unaimed(s, t, p, g) && t in DetachTouches(s, step)
    requires step == OwnerCheck(t, false) ==> !IsCurrent(s.core, p, g)
    ensures Unaimed(DetachApply(s, step), t, p, g)
  {
  }

  lemma UnaimedAttach(s: State, step: AttachStep, t: Tid, p: Port, g: Gen)
    requires AttachEnabled(s, step) && Unaimed(s, t, p, g) && t in AttachTouches(s, step) && s.nextTid !in s.threads
    ensures Unaimed(AttachApply(s, step), t, p, g)
  {
    match step
    case AttachLaunch(u) => UnaimedLaunch(s, u, t, p, g);
    case AttachLeave(u) => UnaimedLeave(s, u, t, p, g);
    case _ =>
  }

  lemma UnaimedLaunch(s: State, u: Tid, t: Tid, p: Port, g: Gen)
    requires CanAttachLaunch(s, u) && Unaimed(s, t, p, g) && s.nextTid !in s.threads
    ensures Unaimed(DoAttachLaunch(s, u), t, p, g)
  {
  }

  lemma UnaimedLeave(s: State, u: Tid, t: Tid, p: Port, g: Gen)
    requires CanAttachLeave(s, u) && Unaimed(s, t, p, g)
    ensures Unaimed(DoAttachLeave(s, u), t, p, g)
  {
  }

  lemma UnaimedStep(s: State, step: Step, t: Tid, p: Port, g: Gen)
    requires Reachable(s) && Enabled(s, step) && Unaimed(s, t, p, g)
    requires step == ByDetach(OwnerCheck(t, false)) ==> !IsCurrent(s.core, p, g)
    ensures Unaimed(Apply(s, step), t, p, g)
  {
    FreshFacts(s);
    if t !in Touches(s, step) {
      StepTouch(s, step, t);
    } else {
      match step
      case ByAttach(a) => UnaimedAttach(s, a, t, p, g);
      case ByDetach(a) => UnaimedDetach(s, a, t, p, g);
      case _ =>
    }
  }

  // --- Three ways to be out of danger --------------------------------------

  /** The watcher of `g` is about to delete the handle. */
  predicate Retires(s: State, v: Tid, g: Gen) {
    WatcherAt(s, v) && s.threads[v].gen == g && s.threads[v].wpc.Retiring?
  }

  /** The watcher of `g` waits for an attach whose socket on `p` was accepted
      and is gone again. */
  predicate Supersedes(s: State, v: Tid, p: Port, g: Gen) {
    && WatcherAt(s, v) && s.threads[v].gen == g && s.threads[v].wpc.Attempting?
    && AttachAt(s, s.threads[v].wpc.child) && s.threads[s.threads[v].wpc.child].apc == Handing(p, HandedOff)
    && p !in s.live
  }

  /** Nothing is live on the port, and nothing ever will be. */
  predicate Sealed(s: State, p: Port) { s.core.closed && p !in s.live && p !in s.core.reservations }

  ghost predicate OutOfDanger(s: State, t: Tid, v: Tid, p: Port, g: Gen) {
    && g in s.core.handleTable
    && (|| (Sealed(s, p) && OwnsOn(s, t, p))
        || (Unaimed(s, t, p, g)
            && (!IsCurrent(s.core, p, g) || Retires(s, v, g) || Supersedes(s, v, p, g))))
  }

  /** `t` has claimed a handle of `p`, or is done. */
  predicate OwnsOn(s: State, t: Tid, p: Port) {
    DetachAt(s, t) && s.threads[t].port == p && (s.threads[t].dpc.Owner? || s.threads[t].dpc.DetachOut?)
  }

  lemma OwnsOnStep(s: State, step: Step, t: Tid, p: Port)
    requires Reachable(s) && Enabled(s, step) && OwnsOn(s, t, p)
    ensures OwnsOn(Apply(s, step), t, p)
  {
    FreshFacts(s);
    StepStaysOwner(s, step, t);
  }

  lemma SealedStep(s: State, step: Step, p: Port)
    requires Reachable(s) && Enabled(s, step) && Sealed(s, p)
    ensures Sealed(Apply(s, step), p)
  {
    StepGains(s, step, p);
    if p in Apply(s, step).live { ThreadFacts(s, step.stepAttach.t); }
  }

  lemma NeverCurrentAgain(s: State, step: Step, p: Port, g: Gen)
    requires Reachable(s) && Enabled(s, step) && g in s.core.handleTable && !IsCurrent(s.core, p, g)
    ensures !IsCurrent(Apply(s, step).core, p, g)
  {
    StepGains(s, step, p);
    FreshFacts(s);
  }

  /** While the watcher runs, the owner cannot pass its check in time. */
  lemma OwnerMustWait(s: State, t: Tid, v: Tid, p: Port, g: Gen)
    requires Reachable(s) && Unaimed(s, t, p, g) && WatcherAt(s, v) && s.threads[v].gen == g
    requires s.threads[v].wpc.Retiring? || s.threads[v].wpc.Attempting?
    ensures !CanOwnerCheck(s, t, false)
  {
    ThreadFacts(s, v);
  }

  lemma RetireDeletes(s: State, v: Tid, p: Port, g: Gen)
    requires Retires(s, v, g) && g in s.core.handleTable && s.core.handleTable[g].port == p
    ensures !IsCurrent(DoWatcherRetire(s, v).core, p, g)
  {
  }

  /** A retiring watcher takes no step but to retire. */
  lemma OnlyRetires(s: State, step: Step, v: Tid, g: Gen)
    requires Reachable(s) && Enabled(s, step) && Retires(s, v, g) && v in Touches(s, step)
    ensures step == ByWatcher(WatcherRetire(v))
  {
    match step
    case ByAttach(a) => ThreadFacts(s, a.t);
    case ByDetach(a) => ThreadFacts(s, a.t);
    case ByWatcher(a) =>
    case ByWorld(_) =>
  }

  lemma RetiresStep(s: State, step: Step, t: Tid, v: Tid, p: Port, g: Gen)
    requires Reachable(s) && Enabled(s, step) && Unaimed(s, t, p, g) && Retires(s, v, g) && IsCurrent(s.core, p, g)
    ensures Unaimed(Apply(s, step), t, p, g)
    ensures Retires(Apply(s, step), v, g) || !IsCurrent(Apply(s, step).core, p, g)
  {
    OwnerMustWait(s, t, v, p, g);
    UnaimedStep(s, step, t, p, g);
    if v in Touches(s, step) {
      OnlyRetires(s, step, v, g);
      CurrentFacts(s, p, g);
      RetireDeletes(s, v, p, g);
    } else {
      FreshFacts(s);
      StepTouch(s, step, v);
    }
  }

  /** A reconnecting watcher moves only when its attempt returns. */
  lemma OnlyChildMoves(s: State, step: Step, v: Tid, p: Port, g: Gen)
    requires Reachable(s) && Enabled(s, step) && Supersedes(s, v, p, g)
    ensures v !in Touches(s, step)
    ensures s.threads[v].wpc.child in Touches(s, step) ==>
      step == ByAttach(AttachRegister(s.threads[v].wpc.child))
  {
    match step
    case ByAttach(a) => if !a.AttachStart? { ThreadFacts(s, a.t); }
    case ByDetach(a) => if !a.DetachStart? { ThreadFacts(s, a.t); }
    case ByWatcher(a) =>
    case ByWorld(_) =>
  }

  /** Publishing supersedes the handle; losing to Close leaves nothing behind. */
  lemma RegisterEnds(s: State, r: Tid, p: Port, g: Gen)
    requires CanAttachRegister(s, r) && s.threads[r].apc.port == p && ReservationHeld(s, r, p) && p !in s.live
    requires g in s.core.handleTable && g <= s.core.nextGen
    ensures Sealed(DoAttachRegister(s, r), p) || !IsCurrent(DoAttachRegister(s, r).core, p, g)
  {
  }

  lemma OneHolder(s: State, step: Step, p: Port, r: Tid)
    requires Reachable(s) && Enabled(s, step) && p !in s.live
    requires AttachAt(s, r) && s.threads[r].apc == Handing(p, HandedOff)
    ensures p !in Apply(s, step).live
  {
    StepGains(s, step, p);
    ThreadFacts(s, r);
    if p in Apply(s, step).live { ThreadFacts(s, step.stepAttach.t); }
  }

  lemma SupersedesStep(s: State, step: Step, t: Tid, v: Tid, p: Port, g: Gen)
    requires Reachable(s) && Enabled(s, step) && Unaimed(s, t, p, g) && Supersedes(s, v, p, g)
    requires g in s.core.handleTable
    ensures
      var s' := Apply(s, step);
      Sealed(s', p) || (Unaimed(s', t, p, g) && (!IsCurrent(s'.core, p, g) || Supersedes(s', v, p, g)))
  {
    var r := s.threads[v].wpc.child;
    OnlyChildMoves(s, step, v, p, g);
    OwnerMustWait(s, t, v, p, g);
    UnaimedStep(s, step, t, p, g);
    if r in Touches(s, step) {
      ThreadFacts(s, r);
      FreshFacts(s);
      RegisterEnds(s, r, p, g);
    } else {
      FreshFacts(s);
      StepTouch(s, step, r);
      StepTouch(s, step, v);
      OneHolder(s, step, p, r);
    }
  }

  lemma StillThere(s: State, step: Step, g: Gen)
    requires Reachable(s) && Enabled(s, step) && g in s.core.handleTable
    ensures g in Apply(s, step).core.handleTable
  {
    StepIsGrowth(s, step);
    assert HandleKept(s.core, Apply(s, step).core, g);
  }

  lemma OutOfDangerStep(s: State, step: Step, t: Tid, v: Tid, p: Port, g: Gen)
    requires Reachable(s) && Enabled(s, step) && OutOfDanger(s, t, v, p, g)
    ensures OutOfDanger(Apply(s, step), t, v, p, g)
  {
    StillThere(s, step, g);
    OwnsOnStep(s, step, t, p);
    if Sealed(s, p) {
      SealedStep(s, step, p);
    } else if !IsCurrent(s.core, p, g) {
      UnaimedStep(s, step, t, p, g);
      NeverCurrentAgain(s, step, p, g);
    } else if Retires(s, v, g) {
      RetiresStep(s, step, t, v, p, g);
    } else {
      SupersedesStep(s, step, t, v, p, g);
    }
  }

  lemma {:induction false} OutOfDangerRun(s: State, steps: seq<Step>, after: State, t: Tid, v: Tid, p: Port, g: Gen)
    requires Reachable(s) && Run(s, steps, after) && OutOfDanger(s, t, v, p, g)
    ensures OutOfDanger(after, t, v, p, g)
    decreases |steps|
  {
    if steps == [] {
      RunStays(s, after);
    } else {
      RunFirst(s, steps, after);
      ReachableStep(s, steps[0]);
      OutOfDangerStep(s, steps[0], t, v, p, g);
      OutOfDangerRun(Apply(s, steps[0]), steps[1..], after, t, v, p, g);
    }
  }
}
