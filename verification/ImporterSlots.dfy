/** Which attaches are let in, and how many ports they ask for
    (internal/app/importer.go:1122-1157, 1294-1430). */
module ImporterSlots {
  import opened LifecycleGroup
  import opened ImporterCore
  import opened ImporterProtocol
  import opened ImporterInvariant
  import opened ImporterEnrolment
  import opened ImporterRuns
  import opened ImporterTouch
  import opened ImporterOrder

  /** Attach `t` holds the slot of `key`. */
  predicate Holds(s: State, t: Tid, key: Key) {
    AttachAt(s, t) && HoldsSlot(s.threads[t]) && s.threads[t].key == key
  }

  /** A slot in use has a holder. */
  ghost predicate Held(s: State, key: Key) { key in s.core.inFlight ==> exists t :: Holds(s, t, key) }

  lemma DoneSlots(c: Core)
    ensures WgDone(c).inFlight == c.inFlight
  {
    if c.wg.count > 0 {
      var g := Leave(c.wg);
      assert WgDone(c) == c.(wg := g);
    }
  }

  lemma FinishSlots(c: Core, x: AttemptId, o: Outcome)
    ensures FinishAttempt(c, x, o).inFlight == c.inFlight
  {
  }

  lemma LookCoreSlots(c: Core, p: Port, t: Tid)
    ensures AcquireDetachTarget(c, p, t).0.inFlight == c.inFlight
  {
  }

  lemma StartSlotsKept(c: Core, g: Gen, w: Tid)
    ensures StartWatcher(c, g, w).inFlight == c.inFlight
  {
    if g in c.handleTable {
      var c1 := c.(handleTable := c.handleTable[g := c.handleTable[g].(watcher := Running(w))]);
      assert StartWatcher(c, g, w) == WgAdd(c1);
    }
  }

  lemma RegisterSlots(s: State, t: Tid, key: Key)
    requires CanAttachRegister(s, t) && key !in s.core.inFlight
    ensures key !in DoAttachRegister(s, t).core.inFlight
  {
  }

  lemma LaunchSlots(s: State, t: Tid, key: Key)
    requires CanAttachLaunch(s, t) && key !in s.core.inFlight
    ensures key !in DoAttachLaunch(s, t).core.inFlight
  {
    if s.threads[t].apc.compensator.None? && s.threads[t].auto {
      StartSlotsKept(s.core, s.threads[t].apc.gen, s.nextTid);
      assert DoAttachLaunch(s, t).core == StartWatcher(s.core, s.threads[t].apc.gen, s.nextTid);
    } else {
      assert DoAttachLaunch(s, t).core == s.core;
    }
  }

  lemma LeaveSlots(s: State, t: Tid, key: Key)
    requires CanAttachLeave(s, t) && key !in s.core.inFlight
    ensures key !in DoAttachLeave(s, t).core.inFlight
  {
    DoneSlots(s.core);
    assert DoAttachLeave(s, t).core == WgDone(s.core);
  }

  lemma LookSlots(s: State, t: Tid, key: Key)
    requires CanDetachLook(s, t) && key !in s.core.inFlight
    ensures key !in DoDetachLook(s, t).core.inFlight
  {
    LookCoreSlots(s.core, s.threads[t].port, t);
    assert DoDetachLook(s, t).core == AcquireDetachTarget(s.core, s.threads[t].port, t).0;
  }

  lemma OwnerFinishSlots(s: State, t: Tid, key: Key)
    requires CanOwnerFinish(s, t) && key !in s.core.inFlight
    ensures key !in DoOwnerFinish(s, t).core.inFlight
  {
    var Owner(g, x, Finishing(o)) := s.threads[t].dpc;
    FinishSlots(s.core, x, o);
    assert DoOwnerFinish(s, t).core == FinishDetachAttempt(s.core, g, x, o);
  }

  lemma PortFinishSlots(s: State, t: Tid, key: Key)
    requires CanPortFinish(s, t) && key !in s.core.inFlight
    ensures key !in DoPortFinish(s, t).core.inFlight
  {
    var x, o := s.threads[t].dpc.attempt, s.threads[t].dpc.reported.value;
    FinishSlots(s.core, x, o);
    assert DoPortFinish(s, t).core == FinishUntrackedDetach(s.core, s.threads[t].port, x, o);
  }

  lemma OwnerLeaveSlots(s: State, t: Tid, key: Key)
    requires CanOwnerLeave(s, t) && key !in s.core.inFlight
    ensures key !in DoOwnerLeave(s, t).core.inFlight
  {
    DoneSlots(s.core);
    assert DoOwnerLeave(s, t).core == WgDone(s.core);
  }

  lemma RollbackSlots(s: State, t: Tid, key: Key)
    requires CanWatcherRollbackClaim(s, t) && key !in s.core.inFlight
    ensures key !in DoWatcherRollbackClaim(s, t).core.inFlight
  {
  }

  /** A step takes no slot but for the attach it starts. */
  lemma AttachSlots(s: State, a: AttachStep, key: Key)
    requires AttachEnabled(s, a) && key in AttachApply(s, a).core.inFlight && key !in s.core.inFlight
    ensures Holds(AttachApply(s, a), s.nextTid, key)
  {
    match a
    case AttachStart(k, auto) => StartSlots(s, k, auto, key);
    case AttachRegister(t) => RegisterSlots(s, t, key); assert false;
    case AttachLaunch(t) => LaunchSlots(s, t, key); assert false;
    case AttachLeave(t) => LeaveSlots(s, t, key); assert false;
    case AttachComplete(t) => CompleteSlots(s, t, key); assert false;
    case AttachRelease(t) => ReleaseSlots(s, t, key); assert false;
    case _ => QuietAttachSteps(s, a); assert false;
  }

  lemma CompleteSlots(s: State, t: Tid, key: Key)
    requires CanAttachComplete(s, t) && key !in s.core.inFlight
    ensures key !in DoAttachComplete(s, t).core.inFlight
  {
    assert DoAttachComplete(s, t).core == CompleteReservation(s.core, t);
  }

  lemma ReleaseSlots(s: State, t: Tid, key: Key)
    requires CanAttachRelease(s, t) && key !in s.core.inFlight
    ensures key !in DoAttachRelease(s, t).core.inFlight
  {
  }

  lemma StartSlots(s: State, k: Key, auto: bool, key: Key)
    requires key in DoAttachStart(s, k, auto).core.inFlight && key !in s.core.inFlight
    ensures Holds(DoAttachStart(s, k, auto), s.nextTid, key)
  {
  }

  lemma DetachSlots(s: State, a: DetachStep, key: Key)
    requires DetachEnabled(s, a) && key !in s.core.inFlight
    ensures key !in DetachApply(s, a).core.inFlight
  {
    match a
    case DetachStart(_) =>
    case DetachLook(t) => LookSlots(s, t, key);
    case OwnerFinish(t) => OwnerFinishSlots(s, t, key);
    case PortFinish(t) => PortFinishSlots(s, t, key);
    case OwnerLeave(t) => OwnerLeaveSlots(s, t, key);
    case _ => QuietDetachSteps(s, a);
  }

  lemma AttemptSlots(s: State, t: Tid, key: Key)
    requires CanWatcherAttempt(s, t) && key in DoWatcherAttempt(s, t).core.inFlight && key !in s.core.inFlight
    ensures Holds(DoWatcherAttempt(s, t), s.nextTid, key)
  {
  }

  lemma WatcherSlots(s: State, a: WatcherStep, key: Key)
    requires WatcherEnabled(s, a) && key in WatcherApply(s, a).core.inFlight && key !in s.core.inFlight
    ensures Holds(WatcherApply(s, a), s.nextTid, key)
  {
    if a.WatcherAttempt? {
      AttemptSlots(s, a.t, key);
    } else {
      OtherWatcherSlots(s, a, key);
      assert false;
    }
  }

  lemma OtherWatcherSlots(s: State, a: WatcherStep, key: Key)
    requires WatcherEnabled(s, a) && !a.WatcherAttempt? && key !in s.core.inFlight
    ensures key !in WatcherApply(s, a).core.inFlight
  {
    if a.WatcherRollbackClaim? { RollbackSlots(s, a.t, key); }
    else if a.WatcherLeave? { DoneSlots(s.core); }
    else if a.HelperLeave? { DoneSlots(s.core); }
    else if QuietWatcher(a) { QuietWatcherSteps(s, a); }
  }

  lemma WorldSlots(s: State, a: WorldStep)
    ensures WorldApply(s, a).core.inFlight == s.core.inFlight
  {
  }

  lemma NewSlot(s: State, step: Step, key: Key)
    requires Enabled(s, step) && key in Apply(s, step).core.inFlight && key !in s.core.inFlight
    ensures Holds(Apply(s, step), s.nextTid, key)
  {
    match step
    case ByAttach(a) => AttachSlots(s, a, key);
    case ByDetach(a) => DetachSlots(s, a, key); assert false;
    case ByWatcher(a) => WatcherSlots(s, a, key);
    case ByWorld(a) => WorldSlots(s, a); assert false;
  }

  /** The holder keeps its slot until it frees it. */
  lemma HolderMoves(s: State, a: AttachStep, t: Tid, key: Key)
    requires AttachEnabled(s, a) && !a.AttachStart? && a.t == t && Holds(s, t, key) && s.nextTid !in s.threads
    ensures Holds(AttachApply(s, a), t, key) || key !in AttachApply(s, a).core.inFlight
  {
    match a
    case AttachRegister(_) => HolderRegisters(s, t, key);
    case AttachLaunch(_) => HolderLaunches(s, t, key);
    case _ =>
  }

  lemma HolderRegisters(s: State, t: Tid, key: Key)
    requires CanAttachRegister(s, t) && Holds(s, t, key) && s.nextTid !in s.threads
    ensures Holds(DoAttachRegister(s, t), t, key)
  {
  }

  lemma HolderLaunches(s: State, t: Tid, key: Key)
    requires CanAttachLaunch(s, t) && Holds(s, t, key) && s.nextTid !in s.threads
    ensures Holds(DoAttachLaunch(s, t), t, key)
  {
  }

  lemma HolderStep(s: State, step: Step, t: Tid, key: Key)
    requires Reachable(s) && Enabled(s, step) && Holds(s, t, key)
    ensures Holds(Apply(s, step), t, key) || key !in Apply(s, step).core.inFlight
  {
    FreshFacts(s);
    if t in Touches(s, step) {
      ReachableInv(s);
      AttachIsTouched(s, step, t);
      HolderMoves(s, step.stepAttach, t, key);
    } else {
      StepTouch(s, step, t);
    }
  }

  lemma HeldStep(s: State, step: Step, key: Key)
    requires Reachable(s) && Enabled(s, step) && Held(s, key)
    ensures Held(Apply(s, step), key)
  {
    if key in s.core.inFlight {
      var t :| Holds(s, t, key);
      HolderStep(s, step, t, key);
    } else if key in Apply(s, step).core.inFlight {
      NewSlot(s, step, key);
    }
  }

  lemma {:induction false} HeldRun(s: State, steps: seq<Step>, after: State, key: Key)
    requires Reachable(s) && Run(s, steps, after) && Held(s, key)
    ensures Held(after, key)
    decreases |steps|
  {
    if steps == [] {
      RunStays(s, after);
    } else {
      RunFirst(s, steps, after);
      ReachableStep(s, steps[0]);
      HeldStep(s, steps[0], key);
      HeldRun(Apply(s, steps[0]), steps[1..], after, key);
    }
  }

  /** An attach is refused as closed exactly after Close, as busy exactly while an
      attach for the same endpoint and bus id holds its slot, and is otherwise let in. */
  lemma AttachIsRefusedIff(s: State, key: Key)
    requires Reachable(s)
    ensures
      var r := AcquireAttachSlot(s.core, key).1;
      && (r == SlotClosed <==> s.core.closed)
      && (r == SlotBusy <==> !s.core.closed && exists t :: Holds(s, t, key))
      && (r == SlotGranted <==> !s.core.closed && !exists t :: Holds(s, t, key))
  {
    var i, steps :| Init(i) && Run(i, steps, s);
    RunNowhere(i);
    assert Reachable(i);
    HeldRun(i, steps, s, key);
    HoldersAreIn(s, key);
  }

  lemma HoldersAreIn(s: State, key: Key)
    requires Reachable(s)
    ensures (exists t :: Holds(s, t, key)) ==> key in s.core.inFlight
  {
    ReachableInv(s);
  }

  // --- One port per attach -------------------------------------------------

  /** Attach `t` has asked for its port; a refused one has none and publishes none. */
  predicate Asked(s: State, t: Tid, refused: bool) {
    && AttachAt(s, t) && !s.threads[t].apc.Dialing?
    && (refused ==> s.threads[t].apc.Out? && s.threads[t].apc.published.None?)
  }

  lemma AskedMoves(s: State, a: AttachStep, t: Tid, refused: bool)
    requires AttachEnabled(s, a) && !a.AttachStart? && a.t == t && Asked(s, t, refused) && s.nextTid !in s.threads
    ensures Asked(AttachApply(s, a), t, refused)
  {
    match a
    case AttachRegister(_) => AskedRegisters(s, t);
    case AttachLaunch(_) => AskedLaunches(s, t);
    case _ =>
  }

  lemma AskedRegisters(s: State, t: Tid)
    requires CanAttachRegister(s, t) && s.nextTid !in s.threads
    ensures Asked(DoAttachRegister(s, t), t, false)
  {
  }

  lemma AskedLaunches(s: State, t: Tid)
    requires CanAttachLaunch(s, t) && s.nextTid !in s.threads
    ensures Asked(DoAttachLaunch(s, t), t, false)
  {
  }

  lemma AskedStep(s: State, step: Step, t: Tid, refused: bool)
    requires Reachable(s) && Enabled(s, step) && Asked(s, t, refused)
    ensures Asked(Apply(s, step), t, refused)
  {
    FreshFacts(s);
    if t in Touches(s, step) {
      ReachableInv(s);
      AttachIsTouched(s, step, t);
      AskedMoves(s, step.stepAttach, t, refused);
    } else {
      StepTouch(s, step, t);
    }
  }

  lemma {:induction false} AskedRun(s: State, steps: seq<Step>, after: State, t: Tid, refused: bool)
    requires Reachable(s) && Run(s, steps, after) && Asked(s, t, refused)
    ensures Asked(after, t, refused)
    decreases |steps|
  {
    if steps == [] {
      RunStays(s, after);
    } else {
      RunFirst(s, steps, after);
      ReachableStep(s, steps[0]);
      AskedStep(s, steps[0], t, refused);
      AskedRun(Apply(s, steps[0]), steps[1..], after, t, refused);
    }
  }

  /** An attach asks for one port only. Once it was granted or refused it never
      asks again; a refused one never calls the kernel and publishes nothing. */
  lemma OnePortPerAttach(s: State, t: Tid, p: Port, steps: seq<Step>, after: State, q: Port)
    requires Reachable(s) && CanAttachSelect(s, t, p) && Run(DoAttachSelect(s, t, p), steps, after)
    ensures !CanAttachSelect(after, t, q)
    ensures !ReserveAttachPort(s.core, p, t).1 ==>
      && !CanAttachKernel(after, t) && AttachAt(after, t)
      && after.threads[t].apc.Out? && after.threads[t].apc.published.None?
  {
    ReachableStep(s, ByAttach(AttachSelect(t, p)));
    AskedRun(DoAttachSelect(s, t, p), steps, after, t, !ReserveAttachPort(s.core, p, t).1);
  }

  /** An attach is between the grant of port `p` and its publication. */
  predicate HandsOver(s: State, u: Tid, p: Port) {
    AttachAt(s, u) && s.threads[u].apc.Handing? && s.threads[u].apc.port == p
  }

  /** A Detach releases port `p`, which had no handle. */
  predicate ReleasesUntracked(s: State, u: Tid, p: Port) {
    DetachAt(s, u) && s.threads[u].dpc.OnUntracked? && s.threads[u].port == p
  }

  lemma ReservedIffHandedOver(s: State, p: Port)
    requires Reachable(s)
    ensures p in s.core.reservations <==> exists u :: HandsOver(s, u, p)
  {
    ReachableInv(s);
    if p in s.core.reservations {
      assert ReservedOk(s, p);
      assert HandsOver(s, s.core.reservations[p], p);
    }
    if u :| HandsOver(s, u, p) { assert ThreadOk(s, u); }
  }

  lemma UntrackedIffReleased(s: State, p: Port)
    requires Reachable(s)
    ensures p in s.core.untracked <==> exists u :: ReleasesUntracked(s, u, p)
  {
    ReachableInv(s);
    if p in s.core.untracked {
      assert UntrackedOk(s, p);
      var x := s.core.untracked[p];
      assert AttemptOk(s, x);
      var u := s.core.attemptTable[x].owner;
      assert ThreadOk(s, u);
      assert ReleasesUntracked(s, u, p);
    }
    if u :| ReleasesUntracked(s, u, p) {
      assert ThreadOk(s, u);
      assert AttemptOk(s, s.threads[u].dpc.attempt);
    }
  }

  /** A port is granted exactly when the importer is open, no other attach is
      handing a socket over on it, no Detach is releasing it without a handle, and
      its current handle, if any, is not being detached. */
  lemma PortIsGrantedIff(s: State, p: Port, t: Tid)
    requires Reachable(s)
    ensures ReserveAttachPort(s.core, p, t).1 <==>
      && !s.core.closed && !(exists u :: HandsOver(s, u, p)) && !(exists u :: ReleasesUntracked(s, u, p))
      && forall g :: g in s.core.handleTable && IsCurrent(s.core, p, g) ==> !s.core.handleTable[g].detaching
  {
    ReservedIffHandedOver(s, p);
    UntrackedIffReleased(s, p);
    if p in s.core.handles { HandleIsKnown(s, p); }
  }

  lemma HandleIsKnown(s: State, p: Port)
    requires Reachable(s) && p in s.core.handles
    ensures s.core.handles[p] in s.core.handleTable
  {
    ReachableInv(s);
    assert CurrentOk(s, p);
  }
}
