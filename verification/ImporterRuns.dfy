/**
 * Every run of the importer protocol keeps the invariant and the enrolment
 * accounting, whatever the interleaving.
 */
module ImporterRuns {
  import opened LifecycleGroup
  import opened ImporterCore
  import opened ImporterProtocol
  import opened ImporterInvariant
  import opened ImporterSteps
  import opened ImporterDataSteps
  import opened ImporterClaimSteps
  import opened ImporterAttemptSteps
  import opened ImporterPublishStep
  import opened ImporterEnrolment

  ghost predicate Inv(s: State) { Structure(s) && Accounting(s) }

  /** `s` is the state after some run from a new importer. */
  ghost predicate Reachable(s: State) {
    exists i: State, steps: seq<Step> :: Init(i) && Run(i, steps, s)
  }

  lemma AttachStructure(s: State, step: AttachStep)
    requires Structure(s) && AttachEnabled(s, step)
    ensures Structure(AttachApply(s, step))
  {
    match step
    case AttachStart(key, auto) => KeepAttachStart(s, key, auto);
    case AttachSelect(t, p) => KeepAttachSelect(s, t, p);
    case AttachKernel(t, accepted) => KeepAttachKernel(s, t, accepted);
    case AttachAbort(t) => KeepAttachAbort(s, t);
    case AttachRegister(t) => KeepAttachRegister(s, t);
    case AttachComplete(t) => KeepAttachComplete(s, t);
    case AttachLostRelease(t, o) => KeepAttachLostRelease(s, t, o);
    case AttachLaunch(t) => KeepAttachLaunch(s, t);
    case AttachLeave(t) =>
      if s.threads[t].parent.Some? { KeepChildAttachLeave(s, t); } else { KeepPlainAttach(s, step); }
    case _ => KeepPlainAttach(s, step);
  }

  lemma DetachStructure(s: State, step: DetachStep)
    requires Structure(s) && DetachEnabled(s, step)
    ensures Structure(DetachApply(s, step))
  {
    match step
    case DetachStart(p) => KeepDetachStart(s, p);
    case DetachLook(t) => KeepDetachLook(s, t);
    case PortKernel(t, o) => KeepPortKernel(s, t, o);
    case PortFinish(t) => KeepPortFinish(s, t);
    case OwnerCancel(t) => KeepOwnerCancel(s, t);
    case OwnerCheck(t, timedOut) => KeepOwnerCheck(s, t, timedOut);
    case OwnerKernel(t, o) => KeepOwnerKernel(s, t, o);
    case OwnerRemove(t) => KeepOwnerRemove(s, t);
    case OwnerFinish(t) => KeepOwnerFinish(s, t);
    case OwnerLeave(t) =>
      if s.threads[t].rollback.Some? { KeepChildOwnerLeave(s, t); } else { KeepPlainDetach(s, step); }
    case _ => KeepPlainDetach(s, step);
  }

  lemma WatcherStructure(s: State, step: WatcherStep)
    requires Structure(s) && WatcherEnabled(s, step)
    ensures Structure(WatcherApply(s, step))
  {
    match step
    case WatcherAttempt(t) => KeepWatcherAttempt(s, t);
    case WatcherExhausted(t) => KeepWatcherExhausted(s, t);
    case WatcherRetire(t) => KeepWatcherRetire(s, t);
    case WatcherRollbackClaim(t) => KeepWatcherRollbackClaim(s, t);
    case WatcherClose(t) => KeepWatcherClose(s, t);
    case HelperStart(_) => HelperStructure(s, DoHelperStart(s));
    case HelperLeave => HelperStructure(s, DoHelperLeave(s));
    case _ => KeepPlainWatcher(s, step);
  }

  lemma HelperStructure(s: State, s': State)
    requires Structure(s)
    requires s' == s.(helpers := s'.helpers, core := s.core.(wg := s'.core.wg, panicked := s'.core.panicked))
    ensures Structure(s')
  {
    QuietKeeps(s, s');
  }

  lemma WorldStructure(s: State, step: WorldStep)
    requires Structure(s) && WorldEnabled(s, step)
    ensures Structure(WorldApply(s, step))
  {
    match step
    case CloseBegin => QuietKeeps(s, DoCloseBegin(s));
    case CloseSweep(g) => CancelKeeps(s, g);
    case CloseCapture => QuietKeeps(s, DoCloseCapture(s));
    case KernelDrop(p) => KeepKernelDrop(s, p);
  }

  lemma StructureStep(s: State, step: Step)
    requires Structure(s) && Enabled(s, step)
    ensures Structure(Apply(s, step))
  {
    match step
    case ByAttach(a) => AttachStructure(s, a);
    case ByDetach(a) => DetachStructure(s, a);
    case ByWatcher(a) => WatcherStructure(s, a);
    case ByWorld(a) => WorldStructure(s, a);
  }

  lemma AccountingStep(s: State, step: Step)
    requires FreshOk(s) && Threads(s) && Accounting(s) && Enabled(s, step)
    ensures Accounting(Apply(s, step))
  {
    match step
    case ByAttach(a) =>
      if !a.AttachStart? { assert ThreadOk(s, a.t); }
      AttachAccounts(s, a);
    case ByDetach(a) =>
      if !a.DetachStart? { assert ThreadOk(s, a.t); }
      DetachAccounts(s, a);
    case ByWatcher(a) =>
      if !a.HelperLeave? { assert ThreadOk(s, a.t); }
      WatcherAccounts(s, a);
    case ByWorld(a) => WorldAccounts(s, a);
  }

  lemma InvStep(s: State, step: Step)
    requires Inv(s) && Enabled(s, step)
    ensures Inv(Apply(s, step))
  {
    StructureStep(s, step);
    AccountingStep(s, step);
  }

  lemma InvInit(s: State)
    requires Init(s)
    ensures Inv(s)
  {
    assert Members(s) == {};
  }

  lemma {:induction false} InvRun(s: State, steps: seq<Step>, after: State)
    requires Inv(s) && Run(s, steps, after)
    ensures Inv(after)
    decreases |steps|
  {
    if steps == [] {
      RunStays(s, after);
    } else {
      RunFirst(s, steps, after);
      InvStep(s, steps[0]);
      InvRun(Apply(s, steps[0]), steps[1..], after);
    }
  }

  /** The invariant holds of every reachable state. */
  lemma ReachableInv(s: State)
    requires Reachable(s)
    ensures Inv(s)
  {
    var i, steps :| Init(i) && Run(i, steps, s);
    InvInit(i);
    InvRun(i, steps, s);
  }

  lemma ReachableStep(s: State, step: Step)
    requires Reachable(s) && Enabled(s, step)
    ensures Reachable(Apply(s, step))
  {
    var i, steps :| Init(i) && Run(i, steps, s);
    RunThen(i, steps, s, step);
  }

  /** Identities that are about to be used are unused. */
  lemma FreshFacts(s: State)
    requires Reachable(s)
    ensures FreshOk(s) && s.nextTid !in s.threads
  {
    ReachableInv(s);
  }
}
