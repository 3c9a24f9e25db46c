/**
 * Watchers wait only on younger generations: what a watcher retries, rolls back
 * or joins was published after the watcher was started. The child it waits for
 * has not returned yet.
 */
module ImporterOrder {
  import opened Base
  import opened ImporterCore
  import opened ImporterProtocol
  import opened ImporterInvariant
  import opened ImporterHistory
  import opened ImporterTouch

  /** Generation `g` was published by an attach that began after thread `w`. */
  predicate Younger(c: Core, w: Tid, g: Gen) { g in c.handleTable && c.handleTable[g].op > w }

  /** The attach or detach has returned to its caller. */
  predicate Returned(th: Thread) {
    match th
    case AttachT(_, _, _, apc) => apc.Out? && apc.out.AttachReturned?
    case DetachT(_, _, _, dpc) => dpc.GaveUp? || (dpc.DetachOut? && dpc.returned)
    case WatcherT(_, _, wpc) => wpc.WatcherGone?
  }

  predicate WatcherOrder(s: State, w: Tid) {
    && WatcherAt(s, w)
    && var c, th := s.core, s.threads[w];
       && th.gen in c.handleTable && c.handleTable[th.gen].op < w
       && match th.wpc
          case Attempting(child) =>
            child > w && AttachAt(s, child) && !Returned(s.threads[child]) && s.threads[child].parent == Some(w)
          case Succeeded(_, g) => Younger(c, w, g)
          case Rollback(_, g, _) => Younger(c, w, g)
          case RollingBack(child) =>
            && DetachAt(s, child) && !Returned(s.threads[child])
            && (s.threads[child].dpc.Owner? ==> Younger(c, w, s.threads[child].dpc.gen))
          case Joining(x) =>
            && x in c.attemptTable && c.attemptTable[x].target.OnHandle?
            && Younger(c, w, c.attemptTable[x].target.gen)
          case _ => true
  }

  /** The watcher stays with its generation and in order. */
  predicate GoesOn(s: State, m: State, w: Tid) {
    WatcherAt(s, w) && WatcherOrder(m, w) && m.threads[w].gen == s.threads[w].gen
  }

  ghost predicate Ordered(s: State) {
    forall w :: WatcherAt(s, w) ==> WatcherOrder(s, w)
  }

  /** A detach that is past its lookup stays with its generation. */
  predicate StaysOwner(a: Thread, b: Thread) {
    a.DetachT? && !a.dpc.Looking? ==>
      && b.DetachT? && b.port == a.port && b.clear == a.clear && b.rollback == a.rollback
      && (b.dpc.Looking? ==> a.dpc.AwaitPublication?)
      && (a.dpc.Owner? || a.dpc.DetachOut? ==> b.dpc.Owner? || b.dpc.DetachOut?)
      && (b.dpc.Owner? ==> a.dpc.Owner? && b.dpc.gen == a.dpc.gen && b.dpc.attempt == a.dpc.attempt)
  }

  lemma DetachStaysOwner(s: State, step: DetachStep, d: Tid)
    requires DetachEnabled(s, step) && DetachAt(s, d) && s.nextTid !in s.threads
    ensures d in DetachApply(s, step).threads && StaysOwner(s.threads[d], DetachApply(s, step).threads[d])
  {
    if d !in DetachTouches(s, step) {
      DetachTouch(s, step, d);
    } else if step.OwnerLeave? {
      ReturnStaysOwner(s, step.t, d);
    } else {
      MoveStaysOwner(s, step);
    }
  }

  lemma MoveStaysOwner(s: State, step: DetachStep)
    requires DetachEnabled(s, step) && !step.DetachStart? && !step.OwnerLeave?
    ensures step.t in DetachApply(s, step).threads
    ensures StaysOwner(s.threads[step.t], DetachApply(s, step).threads[step.t])
    ensures
      var dpc := s.threads[step.t].dpc;
      dpc.Owner? || dpc.OnUntracked? ==> !Returned(DetachApply(s, step).threads[step.t])
  {
  }

  lemma ReturnStaysOwner(s: State, t: Tid, d: Tid)
    requires CanOwnerLeave(s, t) && DetachAt(s, d)
    ensures d in DoOwnerLeave(s, t).threads && StaysOwner(s.threads[d], DoOwnerLeave(s, t).threads[d])
  {
  }

  lemma AttachStaysOwner(s: State, step: AttachStep, d: Tid)
    requires AttachEnabled(s, step) && DetachAt(s, d) && s.nextTid !in s.threads
    ensures d in AttachApply(s, step).threads && StaysOwner(s.threads[d], AttachApply(s, step).threads[d])
  {
    if d !in AttachTouches(s, step) {
      AttachTouch(s, step, d);
    } else if step.AttachLaunch? {
      LaunchStaysOwner(s, step.t, d);
    } else if step.AttachLeave? {
      LeaveStaysOwner(s, step.t, d);
    }
  }

  lemma LaunchStaysOwner(s: State, t: Tid, d: Tid)
    requires CanAttachLaunch(s, t) && DetachAt(s, d) && s.nextTid !in s.threads
    ensures d in DoAttachLaunch(s, t).threads && StaysOwner(s.threads[d], DoAttachLaunch(s, t).threads[d])
  {
  }

  lemma LeaveStaysOwner(s: State, t: Tid, d: Tid)
    requires CanAttachLeave(s, t) && DetachAt(s, d)
    ensures d in DoAttachLeave(s, t).threads && StaysOwner(s.threads[d], DoAttachLeave(s, t).threads[d])
  {
  }

  lemma WatcherStaysOwner(s: State, step: WatcherStep, d: Tid)
    requires WatcherEnabled(s, step) && DetachAt(s, d) && s.nextTid !in s.threads
    ensures d in WatcherApply(s, step).threads && WatcherApply(s, step).threads[d] == s.threads[d]
  {
    WatcherTouch(s, step, d);
  }

  lemma StepStaysOwner(s: State, step: Step, d: Tid)
    requires FreshOk(s) && Enabled(s, step) && DetachAt(s, d)
    ensures d in Apply(s, step).threads && StaysOwner(s.threads[d], Apply(s, step).threads[d])
  {
    assert s.nextTid !in s.threads;
    match step
    case ByAttach(a) => AttachStaysOwner(s, a, d);
    case ByDetach(a) => DetachStaysOwner(s, a, d);
    case ByWatcher(a) => WatcherStaysOwner(s, a, d);
    case ByWorld(_) =>
  }

  /** A watcher no step touched keeps its order. */
  lemma UntouchedOrder(s: State, s': State, w: Tid)
    requires CoreGrows(s.core, s'.core) && WatcherAt(s, w) && WatcherOrder(s, w) && Untouched(s, s', w)
    requires
      var wpc := s.threads[w].wpc;
      && (wpc.RollingBack? ==> StillRolling(s, s', wpc.child))
      && (wpc.Attempting? ==> StillAttempting(s', wpc.child, w))
    ensures GoesOn(s, s', w)
  {
    YoungerKept(s.core, s'.core, w);
    assert HandleKept(s.core, s'.core, s.threads[w].gen);
    if s.threads[w].wpc.Joining? { assert AttemptKept(s.core, s'.core, s.threads[w].wpc.attempt); }
  }

  lemma YoungerKept(c: Core, c': Core, w: Tid)
    requires CoreGrows(c, c')
    ensures forall g :: Younger(c, w, g) ==> Younger(c', w, g)
  {
    forall g | Younger(c, w, g)
      ensures Younger(c', w, g)
    {
      assert HandleKept(c, c', g);
    }
  }

  lemma ClaimedOrder(s: State, w: Tid)
    requires CanWatcherRollbackClaim(s, w) && WatcherOrder(s, w) && s.nextTid !in s.threads
    requires
      var Rollback(p, g, _) := s.threads[w].wpc;
      IsCurrent(s.core, p, g) && g in s.core.handleTable && s.core.handleTable[g].attempt.None?
    ensures GoesOn(s, DoWatcherRollbackClaim(s, w), w)
  {
  }

  lemma JoinedOrder(s: State, w: Tid)
    requires CanWatcherRollbackClaim(s, w) && WatcherOrder(s, w)
    requires
      var Rollback(p, g, _) := s.threads[w].wpc;
      && g in s.core.handleTable && LinkOk(s, g)
      && (IsCurrent(s.core, p, g) ==> s.core.handleTable[g].attempt.Some?)
    ensures GoesOn(s, DoWatcherRollbackClaim(s, w), w)
  {
  }

  lemma ClaimOrder(s: State, w: Tid)
    requires CanWatcherRollbackClaim(s, w) && WatcherOrder(s, w) && FreshOk(s) && Links(s)
    ensures GoesOn(s, DoWatcherRollbackClaim(s, w), w)
  {
    var Rollback(p, g, _) := s.threads[w].wpc;
    assert LinkOk(s, g);
    if IsCurrent(s.core, p, g) && s.core.handleTable[g].attempt.None? {
      ClaimedOrder(s, w);
    } else {
      JoinedOrder(s, w);
    }
  }

  lemma AttemptOrder(s: State, w: Tid)
    requires CanWatcherAttempt(s, w) && WatcherOrder(s, w) && FreshOk(s)
    ensures GoesOn(s, DoWatcherAttempt(s, w), w)
  {
  }

  /** The other steps wait for nothing, or for what the watcher already had. */
  lemma PlainOrder(s: State, step: WatcherStep, w: Tid)
    requires WatcherEnabled(s, step) && w in WatcherTouches(step) && WatcherAt(s, w) && WatcherOrder(s, w)
    requires !step.WatcherRollbackClaim? && !step.WatcherAttempt?
    ensures GoesOn(s, WatcherApply(s, step), w)
  {
  }

  lemma WatcherMoves(s: State, step: WatcherStep, w: Tid)
    requires WatcherEnabled(s, step) && w in WatcherTouches(step) && WatcherAt(s, w) && WatcherOrder(s, w)
    requires FreshOk(s) && Links(s)
    ensures GoesOn(s, WatcherApply(s, step), w)
  {
    match step
    case WatcherRollbackClaim(_) => ClaimOrder(s, w);
    case WatcherAttempt(_) => AttemptOrder(s, w);
    case _ => PlainOrder(s, step, w);
  }

  lemma LeaveOrder(s: State, c: Tid, w: Tid)
    requires CanAttachLeave(s, c) && AttachOk(s, c) && s.threads[c].parent == Some(w)
    requires WatcherAt(s, w) && WatcherOrder(s, w)
    ensures GoesOn(s, DoAttachLeave(s, c), w)
  {
  }

  lemma ReturnOrder(s: State, d: Tid, w: Tid)
    requires CanOwnerLeave(s, d) && s.threads[d].rollback == Some(w) && WatcherAt(s, w) && WatcherOrder(s, w)
    ensures GoesOn(s, DoOwnerLeave(s, d), w)
  {
  }

  lemma LaunchOrder(s: State, t: Tid, w: Tid)
    requires CanAttachLaunch(s, t) && AttachOk(s, t) && FreshOk(s)
    requires !WatcherAt(s, w) && WatcherAt(DoAttachLaunch(s, t), w)
    ensures WatcherOrder(DoAttachLaunch(s, t), w)
  {
  }

  /** Only finishAttach starts watchers. */
  lemma OnlyLaunchStarts(s: State, step: Step, w: Tid)
    requires FreshOk(s) && Enabled(s, step) && !WatcherAt(s, w) && WatcherAt(Apply(s, step), w)
    ensures step.ByAttach? && step.stepAttach.AttachLaunch?
  {
    match step
    case ByAttach(a) => OnlyLaunch(s, a, w);
    case ByDetach(a) => NoDetachStarts(s, a, w);
    case ByWatcher(a) => NoWatcherStarts(s, a, w);
    case ByWorld(_) =>
  }

  lemma OnlyLaunch(s: State, step: AttachStep, w: Tid)
    requires AttachEnabled(s, step) && FreshOk(s) && !WatcherAt(s, w) && WatcherAt(AttachApply(s, step), w)
    ensures step.AttachLaunch?
  {
  }

  lemma NoDetachStarts(s: State, step: DetachStep, w: Tid)
    requires DetachEnabled(s, step) && !WatcherAt(s, w) && FreshOk(s)
    ensures !WatcherAt(DetachApply(s, step), w)
  {
  }

  lemma NoWatcherStarts(s: State, step: WatcherStep, w: Tid)
    requires WatcherEnabled(s, step) && !WatcherAt(s, w) && FreshOk(s)
    ensures !WatcherAt(WatcherApply(s, step), w)
  {
  }

  lemma TouchedOrder(s: State, step: Step, w: Tid)
    requires Structure(s) && Enabled(s, step) && WatcherAt(s, w) && WatcherOrder(s, w) && w in Touches(s, step)
    ensures GoesOn(s, Apply(s, step), w)
  {
    match step
    case ByAttach(a) => TouchedByAttach(s, a, w);
    case ByDetach(a) => TouchedByDetach(s, a, w);
    case ByWatcher(a) => WatcherMoves(s, a, w);
    case ByWorld(_) =>
  }

  lemma TouchedByAttach(s: State, step: AttachStep, w: Tid)
    requires Threads(s) && AttachEnabled(s, step)
    requires WatcherAt(s, w) && WatcherOrder(s, w) && w in AttachTouches(s, step)
    ensures GoesOn(s, AttachApply(s, step), w)
  {
    assert ThreadOk(s, step.t);
    if step.AttachLeave? { LeaveOrder(s, step.t, w); } else { assert false; }
  }

  lemma TouchedByDetach(s: State, step: DetachStep, w: Tid)
    requires DetachEnabled(s, step) && WatcherAt(s, w) && WatcherOrder(s, w) && w in DetachTouches(s, step)
    ensures GoesOn(s, DetachApply(s, step), w)
  {
    if step.OwnerLeave? { ReturnOrder(s, step.t, w); } else { assert false; }
  }

  // --- Whom a step touches -------------------------------------------------

  /** An attach is moved only by its own steps. */
  lemma AttachIsTouched(s: State, step: Step, t: Tid)
    requires Threads(s) && Enabled(s, step) && AttachAt(s, t) && t in Touches(s, step)
    ensures step.ByAttach? && !step.stepAttach.AttachStart? && step.stepAttach.t == t
  {
    match step
    case ByAttach(a) => AttachIsOwn(s, a, t);
    case ByDetach(a) => DetachIsOther(s, a, t);
    case ByWatcher(a) =>
    case ByWorld(_) =>
  }

  lemma AttachIsOwn(s: State, step: AttachStep, t: Tid)
    requires Threads(s) && AttachEnabled(s, step) && AttachAt(s, t) && t in AttachTouches(s, step)
    ensures step.t == t
  {
    assert ThreadOk(s, step.t);
  }

  lemma DetachIsOther(s: State, step: DetachStep, t: Tid)
    requires Threads(s) && DetachEnabled(s, step) && AttachAt(s, t)
    ensures t !in DetachTouches(s, step)
  {
    if !step.DetachStart? { assert ThreadOk(s, step.t); }
  }

  /** So is a rollback that has not returned. */
  lemma RollbackIsTouched(s: State, step: Step, d: Tid)
    requires Threads(s) && Enabled(s, step) && DetachAt(s, d) && s.threads[d].rollback.Some? && d in Touches(s, step)
    ensures step.ByDetach? && !step.stepDetach.DetachStart? && step.stepDetach.t == d
  {
    match step
    case ByAttach(a) => RollbackIsOther(s, a, d);
    case ByDetach(a) => if !a.DetachStart? { assert ThreadOk(s, a.t); }
    case ByWatcher(_) =>
    case ByWorld(_) =>
  }

  lemma RollbackIsOther(s: State, step: AttachStep, d: Tid)
    requires Threads(s) && AttachEnabled(s, step) && DetachAt(s, d) && s.threads[d].rollback.Some?
    ensures d !in AttachTouches(s, step)
  {
    assert ThreadOk(s, d);
    if !step.AttachStart? { assert ThreadOk(s, step.t); }
  }

  /** The rollback a watcher waits for returns only by a step that moves the
      watcher. */
  lemma WaitedStays(s: State, step: Step, w: Tid, d: Tid)
    requires FreshOk(s) && Threads(s) && Enabled(s, step) && WatcherOrder(s, w)
    requires s.threads[w].wpc == RollingBack(d) && w !in Touches(s, step)
    ensures StillRolling(s, Apply(s, step), d)
  {
    assert ThreadOk(s, w);
    assert ThreadOk(s, d);
    if d in Touches(s, step) {
      RollbackIsTouched(s, step, d);
      MoveStaysOwner(s, step.stepDetach);
    } else {
      StepTouch(s, step, d);
    }
  }

  predicate StillRolling(s: State, m: State, d: Tid) {
    && DetachAt(s, d) && !s.threads[d].dpc.Looking?
    && d in m.threads && StaysOwner(s.threads[d], m.threads[d]) && !Returned(m.threads[d])
  }

  predicate StillAttempting(m: State, c: Tid, w: Tid) {
    AttachAt(m, c) && !Returned(m.threads[c]) && m.threads[c].parent == Some(w)
  }

  lemma OwnAttachMoves(s: State, step: AttachStep, w: Tid)
    requires AttachEnabled(s, step) && !step.AttachStart? && !step.AttachLeave? && s.nextTid !in s.threads
    requires StillAttempting(s, step.t, w)
    ensures StillAttempting(AttachApply(s, step), step.t, w)
  {
    match step
    case AttachRegister(t) => assert StillAttempting(DoAttachRegister(s, t), t, w);
    case AttachLaunch(t) => assert StillAttempting(DoAttachLaunch(s, t), t, w);
    case _ =>
  }

  /** So does its reconnect attempt. */
  lemma AttemptStays(s: State, step: Step, w: Tid, c: Tid)
    requires FreshOk(s) && Threads(s) && Enabled(s, step) && WatcherOrder(s, w)
    requires s.threads[w].wpc == Attempting(c) && w !in Touches(s, step)
    ensures StillAttempting(Apply(s, step), c, w)
  {
    if c in Touches(s, step) {
      AttachIsTouched(s, step, c);
      OwnAttachMoves(s, step.stepAttach, w);
    } else {
      StepTouch(s, step, c);
    }
  }

  lemma NoWatcherVanishes(s: State, step: Step, w: Tid)
    requires Structure(s) && Ordered(s) && Enabled(s, step) && WatcherAt(s, w)
    ensures GoesOn(s, Apply(s, step), w)
  {
    if w in Touches(s, step) {
      TouchedOrder(s, step, w);
    } else {
      StepTouch(s, step, w);
      CoreStepGrows(s, step);
      if s.threads[w].wpc.RollingBack? { WaitedStays(s, step, w, s.threads[w].wpc.child); }
      if s.threads[w].wpc.Attempting? { AttemptStays(s, step, w, s.threads[w].wpc.child); }
      UntouchedOrder(s, Apply(s, step), w);
    }
  }

  lemma OrderStep(s: State, step: Step)
    requires Structure(s) && Ordered(s) && Enabled(s, step)
    ensures Ordered(Apply(s, step))
  {
    forall w | WatcherAt(Apply(s, step), w)
      ensures WatcherOrder(Apply(s, step), w)
    {
      if WatcherAt(s, w) {
        NoWatcherVanishes(s, step, w);
      } else {
        OnlyLaunchStarts(s, step, w);
        assert ThreadOk(s, step.stepAttach.t);
        LaunchOrder(s, step.stepAttach.t, w);
      }
    }
  }
}
