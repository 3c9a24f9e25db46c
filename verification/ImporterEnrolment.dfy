/**
 * Who is enrolled in Importer.wg. The counter always equals the number of
 * enrolled threads and helper goroutines, so it never goes negative, and
 * after Close it cannot rise from zero.
 */
module ImporterEnrolment {
  import opened Base
  import opened LifecycleGroup
  import opened ImporterCore
  import opened ImporterProtocol
  import opened ImporterInvariant

  predicate Enrolled(th: Thread) {
    match th
    case AttachT(_, _, _, apc) => !(apc.Out? && apc.out.AttachReturned?)
    case DetachT(_, _, _, dpc) => dpc.OnUntracked? || dpc.Owner? || (dpc.DetachOut? && !dpc.returned)
    case WatcherT(_, _, wpc) => !wpc.WatcherGone?
  }

  function Members(s: State): set<Tid> {
    set t | t in s.threads && Enrolled(s.threads[t])
  }

  /** The thread still holds its (endpoint, busid) slot. */
  predicate HoldsSlot(th: Thread) {
    th.AttachT? && (th.apc.Out? ==> th.apc.out.Releasing?)
  }

  ghost predicate SlotsOk(s: State) {
    && (forall t :: t in s.threads && HoldsSlot(s.threads[t]) ==> s.threads[t].key in s.core.inFlight)
    && (forall t, u ::
          t in s.threads && u in s.threads && t != u && HoldsSlot(s.threads[t]) && HoldsSlot(s.threads[u]) ==>
            s.threads[t].key != s.threads[u].key)
  }

  predicate CountOk(s: State) {
    !s.core.panicked && s.core.wg.count == |Members(s)| + s.helpers
  }

  predicate DrainOk(s: State) {
    s.drain.Some? ==> s.core.closed && s.core.wg.drained == s.drain
  }

  ghost predicate Accounting(s: State) { CountOk(s) && DrainOk(s) && SlotsOk(s) }

  /** How one step may change enrolment: nobody, one joins, or one leaves. */
  datatype Change = Nobody | Joins(t: Tid) | Leaves(t: Tid) | HelperJoins | HelperLeaves

  /** `who` says which thread's enrolment or slot changed and how the group did. */
  predicate Changed(s: State, s': State, who: Change) {
    && !s'.core.panicked
    && (match who
        case Nobody => s'.core.wg == s.core.wg && s'.helpers == s.helpers
        case Joins(_) => s'.core.wg == Enrol(s.core.wg) && s'.helpers == s.helpers
        case Leaves(_) => s.core.wg.count > 0 && s'.core.wg == Leave(s.core.wg) && s'.helpers == s.helpers
        case HelperJoins => s'.core.wg == Enrol(s.core.wg) && s'.helpers == s.helpers + 1
        case HelperLeaves =>
          s.core.wg.count > 0 && s'.core.wg == Leave(s.core.wg) && s.helpers == s'.helpers + 1)
    && (forall t :: t in s.threads ==>
          && t in s'.threads
          && (who != Joins(t) && who != Leaves(t) ==> Enrolled(s'.threads[t]) == Enrolled(s.threads[t]))
          && (HoldsSlot(s'.threads[t]) ==> HoldsSlot(s.threads[t]) && s'.threads[t].key == s.threads[t].key))
    && (forall t :: t in s'.threads && t !in s.threads && Enrolled(s'.threads[t]) ==> who == Joins(t))
    && (who.Joins? ==>
          && who.t in s'.threads && Enrolled(s'.threads[who.t])
          && (who.t in s.threads ==> !Enrolled(s.threads[who.t])))
    && (who.Leaves? ==>
          who.t in s.threads && Enrolled(s.threads[who.t]) && !Enrolled(s'.threads[who.t]))
  }

  lemma MembersJoin(s: State, s': State, t: Tid)
    requires Changed(s, s', Joins(t))
    ensures |Members(s')| == |Members(s)| + 1
  {
    assert t !in Members(s);
    assert Members(s') == Members(s) + {t};
  }

  lemma MembersLeave(s: State, s': State, t: Tid)
    requires Changed(s, s', Leaves(t))
    ensures |Members(s)| == |Members(s')| + 1
  {
    assert t in Members(s);
    assert Members(s') == Members(s) - {t};
  }

  lemma ChangedCounts(s: State, s': State, who: Change)
    requires CountOk(s) && Changed(s, s', who)
    ensures CountOk(s')
  {
    match who
    case Joins(t) => MembersJoin(s, s', t);
    case Leaves(t) => MembersLeave(s, s', t);
    case Nobody => assert Members(s') == Members(s);
    case HelperJoins => assert Members(s') == Members(s);
    case HelperLeaves => assert Members(s') == Members(s);
  }

  lemma MemberCounts(s: State, t: Tid)
    requires CountOk(s) && t in s.threads && Enrolled(s.threads[t])
    ensures s.core.wg.count > 0
  {
    assert t in Members(s);
  }

  /** No slot is taken. */
  predicate SlotsFreed(s: State, s': State) {
    && s'.core.inFlight == s.core.inFlight
    && forall t :: t in s'.threads && t !in s.threads ==> !HoldsSlot(s'.threads[t])
  }

  lemma SlotsKeep(s: State, s': State, who: Change)
    requires SlotsOk(s) && Changed(s, s', who) && SlotsFreed(s, s')
    ensures SlotsOk(s')
  {
  }

  /** After Close a step enrols only while someone is enrolled already. */
  predicate NoLateJoin(s: State, who: Change) {
    s.core.closed && (who.Joins? || who.HelperJoins?) ==> s.core.wg.count > 0
  }

  lemma DrainKeeps(s: State, s': State, who: Change)
    requires DrainOk(s) && Changed(s, s', who) && NoLateJoin(s, who)
    requires s'.drain == s.drain && (s.core.closed ==> s'.core.closed)
    ensures DrainOk(s')
  {
  }

  /** What every step but taking or freeing a slot shows about the group. */
  predicate Settles(s: State, s': State, who: Change) {
    && Changed(s, s', who) && NoLateJoin(s, who) && SlotsFreed(s, s')
    && s'.drain == s.drain && (s.core.closed ==> s'.core.closed)
  }

  lemma Settle(s: State, s': State, who: Change)
    requires Accounting(s) && Settles(s, s', who)
    ensures Accounting(s')
  {
    ChangedCounts(s, s', who);
    SlotsKeep(s, s', who);
    DrainKeeps(s, s', who);
  }

  /** The group and the slots are not involved. */
  predicate SameGroup(s: State, s': State) {
    && s'.core.wg == s.core.wg && s'.core.panicked == s.core.panicked && s'.core.closed == s.core.closed
    && s'.core.inFlight == s.core.inFlight && s'.helpers == s.helpers && s'.drain == s.drain
  }

  predicate SameMember(a: Thread, b: Thread) {
    Enrolled(b) == Enrolled(a) && (HoldsSlot(b) ==> HoldsSlot(a) && b.key == a.key)
  }

  lemma QuietAccounts(s: State, s': State, t: Tid)
    requires Accounting(s) && SameGroup(s, s')
    requires t in s.threads && t in s'.threads && s'.threads == s.threads[t := s'.threads[t]]
    requires SameMember(s.threads[t], s'.threads[t])
    ensures Accounting(s')
  {
    assert Settles(s, s', Nobody);
    Settle(s, s', Nobody);
  }

  // --- Steps of Attach -----------------------------------------------------

  predicate QuietAttach(step: AttachStep) {
    step.AttachGiveUp? || step.AttachSelect? || step.AttachKernel? || step.AttachAbort? || step.AttachLostRelease?
  }

  lemma QuietAttachSteps(s: State, step: AttachStep)
    requires AttachEnabled(s, step) && QuietAttach(step)
    ensures
      var s' := AttachApply(s, step);
      && SameGroup(s, s') && step.t in s.threads && step.t in s'.threads
      && s'.threads == s.threads[step.t := s'.threads[step.t]]
      && SameMember(s.threads[step.t], s'.threads[step.t])
  {
  }

  lemma RegisterAccounts(s: State, t: Tid)
    requires FreshOk(s) && Accounting(s) && CanAttachRegister(s, t) && AttachOk(s, t)
    ensures Accounting(DoAttachRegister(s, t))
  {
    var s' := DoAttachRegister(s, t);
    assert s.nextTid !in s.threads;
    if !s.core.closed && s.core.reservationTable[t].teardown {
      assert Settles(s, s', Joins(s.nextTid));
      Settle(s, s', Joins(s.nextTid));
    } else {
      QuietAccounts(s, s', t);
    }
  }

  lemma LaunchCompensationAccounts(s: State, t: Tid)
    requires Accounting(s) && CanAttachLaunch(s, t) && AttachOk(s, t) && s.threads[t].apc.compensator.Some?
    ensures Accounting(DoAttachLaunch(s, t))
  {
    var s' := DoAttachLaunch(s, t);
    assert Settles(s, s', Nobody);
    Settle(s, s', Nobody);
  }

  lemma LaunchWatcherAccounts(s: State, t: Tid)
    requires FreshOk(s) && Accounting(s) && CanAttachLaunch(s, t) && s.threads[t].apc.compensator.None?
    requires s.threads[t].auto
    ensures Accounting(DoAttachLaunch(s, t))
  {
    var s' := DoAttachLaunch(s, t);
    MemberCounts(s, t);
    assert s.nextTid !in s.threads && s.nextTid in s'.threads && Enrolled(s'.threads[s.nextTid]);
    assert Settles(s, s', Joins(s.nextTid));
    Settle(s, s', Joins(s.nextTid));
  }

  lemma LeaveAccounts(s: State, t: Tid)
    requires Accounting(s) && CanAttachLeave(s, t) && AttachOk(s, t)
    ensures Accounting(DoAttachLeave(s, t))
  {
    var s' := DoAttachLeave(s, t);
    MemberCounts(s, t);
    assert Settles(s, s', Leaves(t));
    Settle(s, s', Leaves(t));
  }

  lemma StartAccounts(s: State, key: Key, auto: bool)
    requires FreshOk(s) && Accounting(s)
    ensures Accounting(DoAttachStart(s, key, auto))
  {
    var s' := DoAttachStart(s, key, auto);
    if s' != s {
      assert s.nextTid !in s.threads;
      assert Changed(s, s', Joins(s.nextTid));
      ChangedCounts(s, s', Joins(s.nextTid));
    }
  }

  lemma ReleaseAccounts(s: State, t: Tid)
    requires Accounting(s) && CanAttachRelease(s, t)
    ensures Accounting(DoAttachRelease(s, t))
  {
    var s' := DoAttachRelease(s, t);
    assert Changed(s, s', Nobody);
    ChangedCounts(s, s', Nobody);
  }

  lemma AttachAccounts(s: State, step: AttachStep)
    requires FreshOk(s) && Accounting(s) && AttachEnabled(s, step)
    requires !step.AttachStart? ==> AttachOk(s, step.t)
    ensures Accounting(AttachApply(s, step))
  {
    match step
    case AttachStart(key, auto) => StartAccounts(s, key, auto);
    case AttachRegister(t) => RegisterAccounts(s, t);
    case AttachLaunch(t) =>
      if s.threads[t].apc.compensator.Some? { LaunchCompensationAccounts(s, t); }
      else if s.threads[t].auto { LaunchWatcherAccounts(s, t); }
      else { QuietAccounts(s, DoAttachLaunch(s, t), t); }
    case AttachComplete(t) => QuietAccounts(s, DoAttachComplete(s, t), t);
    case AttachRelease(t) => ReleaseAccounts(s, t);
    case AttachLeave(t) => LeaveAccounts(s, t);
    case _ => QuietAttachSteps(s, step); QuietAccounts(s, AttachApply(s, step), step.t);
  }

  // --- Steps of Detach -----------------------------------------------------

  predicate QuietDetach(step: DetachStep) {
    !step.DetachStart? && !step.DetachLook? && !step.OwnerLeave?
  }

  lemma QuietDetachSteps(s: State, step: DetachStep)
    requires DetachEnabled(s, step) && QuietDetach(step) && !step.PortFinish? && !step.OwnerFinish?
    ensures
      var s' := DetachApply(s, step);
      && SameGroup(s, s') && step.t in s.threads && step.t in s'.threads
      && s'.threads == s.threads[step.t := s'.threads[step.t]]
      && SameMember(s.threads[step.t], s'.threads[step.t])
  {
  }

  /** Closing an attempt's done channel never panics. */
  lemma PortFinishAccounts(s: State, t: Tid)
    requires Accounting(s) && CanPortFinish(s, t) && DetachOk(s, t)
    ensures Accounting(DoPortFinish(s, t))
  {
    QuietAccounts(s, DoPortFinish(s, t), t);
  }

  lemma OwnerFinishAccounts(s: State, t: Tid)
    requires Accounting(s) && CanOwnerFinish(s, t) && DetachOk(s, t)
    ensures Accounting(DoOwnerFinish(s, t))
  {
    QuietAccounts(s, DoOwnerFinish(s, t), t);
  }

  lemma LookAccounts(s: State, t: Tid)
    requires Accounting(s) && CanDetachLook(s, t)
    ensures Accounting(DoDetachLook(s, t))
  {
    var s' := DoDetachLook(s, t);
    var target := AcquireDetachTarget(s.core, s.threads[t].port, t).1;
    if target.OwnHandle? || target.OwnUntracked? {
      assert Settles(s, s', Joins(t));
      Settle(s, s', Joins(t));
    } else {
      QuietAccounts(s, s', t);
    }
  }

  lemma DetachStartAccounts(s: State, p: Port)
    requires FreshOk(s) && Accounting(s)
    ensures Accounting(DoDetachStart(s, p))
  {
    var s' := DoDetachStart(s, p);
    assert s.nextTid !in s.threads;
    assert Settles(s, s', Nobody);
    Settle(s, s', Nobody);
  }

  lemma OwnerLeaveAccounts(s: State, t: Tid)
    requires Accounting(s) && CanOwnerLeave(s, t) && DetachOk(s, t)
    ensures Accounting(DoOwnerLeave(s, t))
  {
    var s' := DoOwnerLeave(s, t);
    MemberCounts(s, t);
    assert Settles(s, s', Leaves(t));
    Settle(s, s', Leaves(t));
  }

  lemma DetachAccounts(s: State, step: DetachStep)
    requires FreshOk(s) && Accounting(s) && DetachEnabled(s, step)
    requires !step.DetachStart? ==> DetachOk(s, step.t)
    ensures Accounting(DetachApply(s, step))
  {
    match step
    case DetachStart(p) => DetachStartAccounts(s, p);
    case DetachLook(t) => LookAccounts(s, t);
    case OwnerLeave(t) => OwnerLeaveAccounts(s, t);
    case PortFinish(t) => PortFinishAccounts(s, t);
    case OwnerFinish(t) => OwnerFinishAccounts(s, t);
    case _ => QuietDetachSteps(s, step); QuietAccounts(s, DetachApply(s, step), step.t);
  }

  // --- Steps of watchers ---------------------------------------------------

  predicate QuietWatcher(step: WatcherStep) {
    step.WatcherDetect? || step.WatcherExhausted? || step.WatcherCancelled? || step.WatcherSucceeded?
    || step.WatcherRetire? || step.WatcherRollbackCheck? || step.WatcherJoined?
  }

  lemma QuietWatcherSteps(s: State, step: WatcherStep)
    requires WatcherEnabled(s, step) && QuietWatcher(step)
    ensures
      var s' := WatcherApply(s, step);
      && SameGroup(s, s') && step.t in s.threads && step.t in s'.threads
      && s'.threads == s.threads[step.t := s'.threads[step.t]]
      && SameMember(s.threads[step.t], s'.threads[step.t])
  {
  }

  /** Closing watcherDone never panics. */
  lemma WatcherCloseAccounts(s: State, t: Tid)
    requires Accounting(s) && CanWatcherClose(s, t) && WatcherOk(s, t)
    ensures Accounting(DoWatcherClose(s, t))
  {
    QuietAccounts(s, DoWatcherClose(s, t), t);
  }

  lemma WatcherLeaveAccounts(s: State, t: Tid)
    requires Accounting(s) && CanWatcherLeave(s, t)
    ensures Accounting(DoWatcherLeave(s, t))
  {
    var s' := DoWatcherLeave(s, t);
    MemberCounts(s, t);
    assert Settles(s, s', Leaves(t));
    Settle(s, s', Leaves(t));
  }

  lemma RollbackAccounts(s: State, t: Tid)
    requires FreshOk(s) && Accounting(s) && CanWatcherRollbackClaim(s, t) && WatcherOk(s, t)
    ensures Accounting(DoWatcherRollbackClaim(s, t))
  {
    var s' := DoWatcherRollbackClaim(s, t);
    var Rollback(p, g, _) := s.threads[t].wpc;
    if IsCurrent(s.core, p, g) && s.core.handleTable[g].attempt.None? {
      MemberCounts(s, t);
      assert s.nextTid !in s.threads;
      assert Settles(s, s', Joins(s.nextTid));
      Settle(s, s', Joins(s.nextTid));
    } else {
      QuietAccounts(s, s', t);
    }
  }

  lemma AttemptAccounts(s: State, t: Tid)
    requires FreshOk(s) && Accounting(s) && CanWatcherAttempt(s, t)
    ensures Accounting(DoWatcherAttempt(s, t))
  {
    var s' := DoWatcherAttempt(s, t);
    var (_, r) := AcquireAttachSlot(s.core, s.threads[t].key);
    match r
    case SlotGranted =>
      assert s.nextTid !in s.threads;
      assert Changed(s, s', Joins(s.nextTid));
      ChangedCounts(s, s', Joins(s.nextTid));
    case SlotBusy =>
    case SlotClosed => QuietAccounts(s, s', t);
  }

  lemma HelperStartAccounts(s: State, t: Tid)
    requires Accounting(s) && CanHelperStart(s, t)
    ensures Accounting(DoHelperStart(s))
  {
    MemberCounts(s, t);
    assert Settles(s, DoHelperStart(s), HelperJoins);
    Settle(s, DoHelperStart(s), HelperJoins);
  }

  lemma HelperLeaveAccounts(s: State)
    requires Accounting(s) && CanHelperLeave(s)
    ensures Accounting(DoHelperLeave(s))
  {
    assert Settles(s, DoHelperLeave(s), HelperLeaves);
    Settle(s, DoHelperLeave(s), HelperLeaves);
  }

  lemma WatcherAccounts(s: State, step: WatcherStep)
    requires FreshOk(s) && Accounting(s) && WatcherEnabled(s, step)
    requires !step.HelperLeave? ==> WatcherOk(s, step.t)
    ensures Accounting(WatcherApply(s, step))
  {
    match step
    case WatcherAttempt(t) => AttemptAccounts(s, t);
    case WatcherRollbackClaim(t) => RollbackAccounts(s, t);
    case WatcherClose(t) => WatcherCloseAccounts(s, t);
    case WatcherLeave(t) => WatcherLeaveAccounts(s, t);
    case HelperStart(t) => HelperStartAccounts(s, t);
    case HelperLeave => HelperLeaveAccounts(s);
    case _ => QuietWatcherSteps(s, step); QuietAccounts(s, WatcherApply(s, step), step.t);
  }

  lemma WorldAccounts(s: State, step: WorldStep)
    requires Accounting(s) && WorldEnabled(s, step)
    ensures Accounting(WorldApply(s, step))
  {
    var s' := WorldApply(s, step);
    assert Members(s') == Members(s);
  }
}
