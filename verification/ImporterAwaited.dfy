/**
 * Whatever can be waited for has somebody who will bring it about: an open
 * reservation its attach, a promised watcher the attach that published the
 * handle, and a running one its own thread.
 */
module ImporterAwaited {
  import opened Base
  import opened ImporterCore
  import opened ImporterProtocol
  import opened ImporterInvariant
  import opened ImporterHistory
  import opened ImporterRuns
  import opened ImporterTouch
  import opened ImporterOrder

  /** The attach has yet to close reservation.done. */
  predicate OpenPhase(apc: AttachPc) {
    match apc
    case Handing(_, _) => true
    case AbortedOpen(_) => true
    case Lost(_, open) => open
    case Publishing(_, _, _, open) => open
    case _ => false
  }

  predicate ReservationAwaited(s: State, r: Tid) {
    && r in s.core.reservationTable
    && (!s.core.reservationTable[r].done ==> AttachAt(s, r) && OpenPhase(s.threads[r].apc))
  }

  /** The attach will start the watcher of generation `g`. */
  predicate Promises(th: Thread, g: Gen) {
    th.AttachT? && th.auto && th.apc.Publishing? && th.apc.gen == g && th.apc.compensator.None?
  }

  /** Who will close watcherDone, or start the watcher that does. */
  predicate SlotAwaited(s: State, g: Gen) {
    && g in s.core.handleTable
    && var h := s.core.handleTable[g];
       match h.watcher
       case Promised => h.op in s.threads && Promises(s.threads[h.op], g)
       case Running(v) => WatcherAt(s, v) && s.threads[v].gen == g
       case _ => true
  }

  ghost predicate Awaited(s: State) {
    && (forall r :: r in s.core.reservationTable ==> ReservationAwaited(s, r))
    && (forall g :: g in s.core.handleTable ==> SlotAwaited(s, g))
  }

  predicate Expected(slot: WatcherSlot) { slot.Promised? || slot.Running? }

  /** The watcher of handle `g` is not newly expected, and no reservation `r`
      is made. */
  predicate Steady(c: Core, c': Core, g: Gen, r: Tid) {
    && (g in c'.handleTable && Expected(c'.handleTable[g].watcher) ==>
          g in c.handleTable && c.handleTable[g].watcher == c'.handleTable[g].watcher)
    && (r in c'.reservationTable ==> r in c.reservationTable)
  }

  lemma ClaimSteady(c: Core, g0: Gen, u: Tid, g: Gen, r: Tid)
    requires g0 in c.handleTable
    ensures Steady(c, ClaimHandle(c, g0, u).0, g, r)
  {
  }

  lemma TargetSteady(c: Core, p: Port, u: Tid, g: Gen, r: Tid)
    ensures Steady(c, AcquireDetachTarget(c, p, u).0, g, r)
  {
    if p in c.handles && c.handles[p] in c.handleTable { ClaimSteady(c, c.handles[p], u, g, r); }
  }

  lemma ExactSteady(c: Core, p: Port, g0: Gen, u: Tid, g: Gen, r: Tid)
    ensures Steady(c, AcquireExactHandle(c, p, g0, u).0, g, r)
  {
    if g0 in c.handleTable { ClaimSteady(c, g0, u, g, r); }
  }

  lemma FinishSteady(c: Core, g0: Gen, x: AttemptId, o: Outcome, g: Gen, r: Tid)
    ensures Steady(c, FinishDetachAttempt(c, g0, x, o), g, r)
  {
    ResultSteady(c, x, o, g, r);
    assert Steady(FinishAttempt(c, x, o), FinishDetachAttempt(c, g0, x, o), g, r);
  }

  lemma ResultSteady(c: Core, x: AttemptId, o: Outcome, g: Gen, r: Tid)
    ensures Steady(c, FinishAttempt(c, x, o), g, r)
  {
  }

  lemma StartSteady(c: Core, g0: Gen, w: Tid, g: Gen, r: Tid)
    requires g != g0
    ensures Steady(c, StartWatcher(c, g0, w), g, r)
  {
    if g0 in c.handleTable {
      var table := c.handleTable[g0 := c.handleTable[g0].(watcher := Running(w))];
      assert StartWatcher(c, g0, w).handleTable == table;
    }
  }

  /** Registering promises a watcher only for the handle it publishes. */
  lemma RegisterSteady(c: Core, p: Port, op: Tid, auto: bool, u: Tid, g: Gen, r: Tid)
    requires op in c.reservationTable && g != c.nextGen + 1
    ensures Steady(c, RegisterHandle(c, p, op, auto, u).0, g, r)
  {
  }

  lemma RegisterFresh(c: Core, p: Port, op: Tid, auto: bool, u: Tid)
    requires c.nextGen + 1 !in c.handleTable
    ensures
      var (c', r) := RegisterHandle(c, p, op, auto, u);
      var g := c.nextGen + 1;
      g in c'.handleTable ==>
        && r.Registered? && r.gen == g && c'.handleTable[g].op == op
        && (c'.handleTable[g].watcher.Promised? ==> auto && r.compensation.None?)
        && !c'.handleTable[g].watcher.Running?
  {
  }

  lemma LaunchSteady(s: State, t: Tid, g: Gen, r: Tid)
    requires CanAttachLaunch(s, t) && g != s.threads[t].apc.gen
    ensures Steady(s.core, DoAttachLaunch(s, t).core, g, r)
  {
    StartSteady(s.core, s.threads[t].apc.gen, s.nextTid, g, r);
  }

  lemma LookSteady(s: State, t: Tid, g: Gen, r: Tid)
    requires CanDetachLook(s, t)
    ensures Steady(s.core, DoDetachLook(s, t).core, g, r)
  {
    TargetSteady(s.core, s.threads[t].port, t, g, r);
  }

  lemma OwnerFinishSteady(s: State, t: Tid, g: Gen, r: Tid)
    requires CanOwnerFinish(s, t)
    ensures Steady(s.core, DoOwnerFinish(s, t).core, g, r)
  {
    var Owner(g0, x, Finishing(o)) := s.threads[t].dpc;
    FinishSteady(s.core, g0, x, o, g, r);
  }

  lemma RollbackSteady(s: State, t: Tid, g: Gen, r: Tid)
    requires CanWatcherRollbackClaim(s, t)
    ensures Steady(s.core, DoWatcherRollbackClaim(s, t).core, g, r)
  {
    var Rollback(p, g0, _) := s.threads[t].wpc;
    ExactSteady(s.core, p, g0, s.nextTid, g, r);
  }

  lemma CompleteSteady(s: State, t: Tid, g: Gen, r: Tid)
    requires CanAttachComplete(s, t)
    ensures Steady(s.core, DoAttachComplete(s, t).core, g, r)
  {
    var c := CompleteReservation(s.core, t);
    assert Steady(s.core, c, g, r) && DoAttachComplete(s, t).core == c;
  }

  lemma AttachSteady(s: State, step: AttachStep, g: Gen, r: Tid)
    requires AttachEnabled(s, step) && !step.AttachRegister? && !step.AttachSelect?
    requires step.AttachLaunch? ==> g != s.threads[step.t].apc.gen
    ensures Steady(s.core, AttachApply(s, step).core, g, r)
  {
    match step
    case AttachLaunch(t) => LaunchSteady(s, t, g, r);
    case AttachComplete(t) => CompleteSteady(s, t, g, r);
    case AttachAbort(t) => assert Steady(s.core, AbortAttachReservation(s.core, s.threads[t].apc.port, t), g, r);
    case AttachRelease(t) => assert SameTables(s.core, DoAttachRelease(s, t).core);
    case AttachLeave(t) => assert SameTables(s.core, DoAttachLeave(s, t).core);
    case _ => QuietAttachTables(s, step);
  }

  lemma DetachSteady(s: State, step: DetachStep, g: Gen, r: Tid)
    requires DetachEnabled(s, step)
    ensures Steady(s.core, DetachApply(s, step).core, g, r)
  {
    match step
    case DetachLook(t) => LookSteady(s, t, g, r);
    case OwnerFinish(t) => OwnerFinishSteady(s, t, g, r);
    case _ =>
  }

  lemma AttemptSteady(s: State, t: Tid, g: Gen, r: Tid)
    requires CanWatcherAttempt(s, t)
    ensures Steady(s.core, DoWatcherAttempt(s, t).core, g, r)
  {
  }

  lemma WatcherSteady(s: State, step: WatcherStep, g: Gen, r: Tid)
    requires WatcherEnabled(s, step)
    ensures Steady(s.core, WatcherApply(s, step).core, g, r)
  {
    match step
    case WatcherRollbackClaim(t) => RollbackSteady(s, t, g, r);
    case WatcherClose(t) => assert Steady(s.core, CloseWatcherDone(s.core, s.threads[t].gen), g, r);
    case WatcherAttempt(t) => AttemptSteady(s, t, g, r);
    case WatcherExhausted(t) => assert SameTables(s.core, DoWatcherExhausted(s, t).core);
    case WatcherRetire(t) => assert SameTables(s.core, DoWatcherRetire(s, t).core);
    case _ => QuietWatcherTables(s, step);
  }

  lemma SelectReserves(s: State, t: Tid, p: Port)
    requires CanAttachSelect(s, t, p)
    ensures
      var s' := DoAttachSelect(s, t, p);
      && s'.core.handleTable == s.core.handleTable
      && (t in s'.core.reservationTable && t !in s.core.reservationTable ==>
            AttachAt(s', t) && s'.threads[t].apc.Handing?)
  {
  }

  lemma RegisterPromises(s: State, t: Tid, g: Gen)
    requires CanAttachRegister(s, t) && t in s.core.reservationTable && s.nextTid !in s.threads
    requires g == s.core.nextGen + 1 && g !in s.core.handleTable
    requires g in DoAttachRegister(s, t).core.handleTable
    ensures SlotAwaited(DoAttachRegister(s, t), g)
  {
    RegisterFresh(s.core, s.threads[t].apc.port, t, s.threads[t].auto, s.nextTid);
  }

  lemma RegisterCore(s: State, t: Tid)
    requires CanAttachRegister(s, t)
    ensures
      DoAttachRegister(s, t).core ==
      RegisterHandle(s.core, s.threads[t].apc.port, t, s.threads[t].auto, s.nextTid).0
  {
  }

  lemma RegisterIsSteady(s: State, t: Tid, g: Gen, r: Tid)
    requires CanAttachRegister(s, t) && t in s.core.reservationTable && g != s.core.nextGen + 1
    ensures Steady(s.core, DoAttachRegister(s, t).core, g, r)
  {
    RegisterCore(s, t);
    RegisterSteady(s.core, s.threads[t].apc.port, t, s.threads[t].auto, s.nextTid, g, r);
  }

  lemma SelectIsSteady(s: State, t: Tid, p: Port, g: Gen, r: Tid)
    requires CanAttachSelect(s, t, p) && r != t
    ensures Steady(s.core, DoAttachSelect(s, t, p).core, g, r)
  {
  }

  lemma AttachIsSteady(s: State, step: AttachStep, g: Gen, r: Tid)
    requires AttachEnabled(s, step) && !(step.AttachSelect? && r == step.t)
    requires step.AttachRegister? ==> step.t in s.core.reservationTable && g != s.core.nextGen + 1
    requires step.AttachLaunch? ==> g != s.threads[step.t].apc.gen
    ensures Steady(s.core, AttachApply(s, step).core, g, r)
  {
    match step
    case AttachRegister(t) => RegisterIsSteady(s, t, g, r);
    case AttachSelect(t, p) => SelectIsSteady(s, t, p, g, r);
    case _ => AttachSteady(s, step, g, r);
  }

  lemma WorldSteady(s: State, step: WorldStep, g: Gen, r: Tid)
    requires WorldEnabled(s, step)
    ensures Steady(s.core, WorldApply(s, step).core, g, r)
  {
  }

  /** The step publishes generation `g` or starts its watcher. */
  predicate Serves(s: State, step: Step, g: Gen) {
    match step
    case ByAttach(AttachRegister(_)) => g == s.core.nextGen + 1
    case ByAttach(AttachLaunch(t)) => AttachAt(s, t) && s.threads[t].apc.Publishing? && g == s.threads[t].apc.gen
    case _ => false
  }

  lemma StepSteady(s: State, step: Step, g: Gen, r: Tid)
    requires Enabled(s, step) && Threads(s) && !Serves(s, step, g)
    requires !(step.ByAttach? && step.stepAttach.AttachSelect? && r == step.stepAttach.t)
    ensures Steady(s.core, Apply(s, step).core, g, r)
  {
    match step
    case ByAttach(a) =>
      if a.AttachRegister? { assert ThreadOk(s, a.t); }
      AttachIsSteady(s, a, g, r);
    case ByDetach(a) => DetachSteady(s, a, g, r);
    case ByWatcher(a) => WatcherSteady(s, a, g, r);
    case ByWorld(a) => WorldSteady(s, a, g, r);
  }

  lemma LaunchReserves(s: State, t: Tid)
    requires CanAttachLaunch(s, t)
    ensures DoAttachLaunch(s, t).core.reservationTable == s.core.reservationTable
  {
    var c := StartWatcher(s.core, s.threads[t].apc.gen, s.nextTid);
    assert c.reservationTable == s.core.reservationTable;
    assert DoAttachLaunch(s, t).core == c || DoAttachLaunch(s, t).core == s.core;
  }

  lemma StepReserves(s: State, step: Step, r: Tid)
    requires Enabled(s, step) && Threads(s)
    requires !(step.ByAttach? && step.stepAttach.AttachSelect? && r == step.stepAttach.t)
    ensures r in Apply(s, step).core.reservationTable ==> r in s.core.reservationTable
  {
    if step.ByAttach? && step.stepAttach.AttachLaunch? {
      LaunchReserves(s, step.stepAttach.t);
    } else {
      StepSteady(s, step, s.core.nextGen, r);
    }
  }

  /** Only its own attach makes a reservation. */
  lemma NewReservation(s: State, step: Step, r: Tid)
    requires Threads(s) && Enabled(s, step)
    requires r !in s.core.reservationTable && r in Apply(s, step).core.reservationTable
    ensures AttachAt(Apply(s, step), r) && Apply(s, step).threads[r].apc.Handing?
  {
    if step.ByAttach? && step.stepAttach.AttachSelect? && r == step.stepAttach.t {
      SelectReserves(s, r, step.stepAttach.port);
    } else {
      StepReserves(s, step, r);
      assert false;
    }
  }

  /** An attach leaves its open phases by closing reservation.done. */
  lemma OpenMoves(s: State, step: AttachStep)
    requires AttachEnabled(s, step) && !step.AttachStart? && AttachOk(s, step.t) && s.nextTid !in s.threads
    requires OpenPhase(s.threads[step.t].apc) && step.t in s.core.reservationTable
    ensures
      var s' := AttachApply(s, step);
      && AttachAt(s', step.t) && step.t in s'.core.reservationTable
      && (OpenPhase(s'.threads[step.t].apc) || s'.core.reservationTable[step.t].done)
  {
    match step
    case AttachRegister(t) => RegisterOpen(s, t);
    case AttachAbort(t) =>
    case AttachKernel(t, _) =>
    case AttachComplete(t) =>
    case _ =>
  }

  lemma RegisterOpen(s: State, t: Tid)
    requires CanAttachRegister(s, t) && AttachOk(s, t) && s.nextTid !in s.threads
    ensures
      var s' := DoAttachRegister(s, t);
      AttachAt(s', t) && t in s'.core.reservationTable && OpenPhase(s'.threads[t].apc)
  {
  }

  lemma ReservationStep(s: State, step: Step, r: Tid)
    requires Structure(s) && Awaited(s) && Enabled(s, step) && r in Apply(s, step).core.reservationTable
    ensures ReservationAwaited(Apply(s, step), r)
  {
    if r !in s.core.reservationTable {
      NewReservation(s, step, r);
    } else {
      CoreStepGrows(s, step);
      assert ReservationKept(s.core, Apply(s, step).core, r);
      assert ReservationAwaited(s, r);
      if !s.core.reservationTable[r].done {
        if r in Touches(s, step) {
          AttachIsTouched(s, step, r);
          assert ThreadOk(s, r);
          OpenMoves(s, step.stepAttach);
        } else {
          StepTouch(s, step, r);
        }
      }
    }
  }

  lemma LaunchServes(s: State, t: Tid, g: Gen)
    requires CanAttachLaunch(s, t) && AttachOk(s, t) && g == s.threads[t].apc.gen && s.nextTid !in s.threads
    requires t in s.core.reservationTable && ReservationOk(s, t)
    ensures g in DoAttachLaunch(s, t).core.handleTable && SlotAwaited(DoAttachLaunch(s, t), g)
  {
    if s.threads[t].apc.compensator.None? && s.threads[t].auto { LaunchStartsSlot(s, t, g); }
  }

  lemma LaunchStartsSlot(s: State, t: Tid, g: Gen)
    requires CanAttachLaunch(s, t) && g == s.threads[t].apc.gen && g in s.core.handleTable && s.nextTid !in s.threads
    requires s.threads[t].apc.compensator.None? && s.threads[t].auto
    ensures SlotAwaited(DoAttachLaunch(s, t), g)
  {
  }

  lemma NewSlot(s: State, step: Step, g: Gen)
    requires Structure(s) && Enabled(s, step) && Serves(s, step, g)
    requires g in Apply(s, step).core.handleTable
    ensures SlotAwaited(Apply(s, step), g)
  {
    var t := step.stepAttach.t;
    assert ThreadOk(s, t) && ReservationOk(s, t);
    if step.stepAttach.AttachRegister? {
      RegisterPromises(s, t, g);
    } else {
      LaunchServes(s, t, g);
    }
  }

  /** The attach that promised a watcher keeps the promise until it launches. */
  lemma PromiseMoves(s: State, step: AttachStep, g: Gen)
    requires AttachEnabled(s, step) && !step.AttachStart? && !step.AttachLaunch?
    requires AttachAt(s, step.t) && Promises(s.threads[step.t], g)
    ensures AttachAt(AttachApply(s, step), step.t) && Promises(AttachApply(s, step).threads[step.t], g)
  {
  }

  lemma OldPromise(s: State, step: Step, op: Tid, g: Gen)
    requires FreshOk(s) && Threads(s) && Enabled(s, step) && !Serves(s, step, g)
    requires op in s.threads && Promises(s.threads[op], g)
    ensures op in Apply(s, step).threads && Promises(Apply(s, step).threads[op], g)
  {
    if op in Touches(s, step) {
      AttachIsTouched(s, step, op);
      PromiseMoves(s, step.stepAttach, g);
    } else {
      StepTouch(s, step, op);
    }
  }

  lemma SlotStep(s: State, step: Step, g: Gen)
    requires Structure(s) && Ordered(s) && Awaited(s) && Enabled(s, step) && g in Apply(s, step).core.handleTable
    ensures SlotAwaited(Apply(s, step), g)
  {
    if Serves(s, step, g) {
      NewSlot(s, step, g);
    } else if Expected(Apply(s, step).core.handleTable[g].watcher) {
      StepSteady(s, step, g, s.nextTid);
      CoreStepGrows(s, step);
      assert HandleKept(s.core, Apply(s, step).core, g);
      assert SlotAwaited(s, g);
      match s.core.handleTable[g].watcher
      case Promised => OldPromise(s, step, s.core.handleTable[g].op, g);
      case Running(v) => NoWatcherVanishes(s, step, v);
    }
  }

  lemma AwaitedStep(s: State, step: Step)
    requires Structure(s) && Ordered(s) && Awaited(s) && Enabled(s, step)
    ensures Awaited(Apply(s, step))
  {
    forall r | r in Apply(s, step).core.reservationTable { ReservationStep(s, step, r); }
    forall g | g in Apply(s, step).core.handleTable { SlotStep(s, step, g); }
  }

  ghost predicate Sound(s: State) { Structure(s) && Ordered(s) && Awaited(s) }

  lemma SoundStep(s: State, step: Step)
    requires Sound(s) && Enabled(s, step)
    ensures Sound(Apply(s, step))
  {
    StructureStep(s, step);
    OrderStep(s, step);
    AwaitedStep(s, step);
  }

  lemma {:induction false} SoundRun(s: State, steps: seq<Step>, after: State)
    requires Sound(s) && Run(s, steps, after)
    ensures Sound(after)
    decreases |steps|
  {
    if steps == [] {
      RunStays(s, after);
    } else {
      RunFirst(s, steps, after);
      SoundStep(s, steps[0]);
      SoundRun(Apply(s, steps[0]), steps[1..], after);
    }
  }

  /** In every reachable state, what is waited for has somebody to do it. */
  lemma ReachableSound(s: State)
    requires Reachable(s)
    ensures Sound(s)
  {
    var i, steps :| Init(i) && Run(i, steps, s);
    InvInit(i);
    SoundRun(i, steps, s);
  }

  // --- Facts of reachable states, one at a time ----------------------------

  lemma ThreadFacts(s: State, t: Tid)
    requires Reachable(s) && t in s.threads
    ensures ThreadOk(s, t) && (WatcherAt(s, t) ==> WatcherOrder(s, t))
  {
    ReachableSound(s);
  }

  lemma HandleFacts(s: State, g: Gen)
    requires Reachable(s) && g in s.core.handleTable
    ensures HandleOk(s, g) && SlotAwaited(s, g)
  {
    ReachableSound(s);
  }

  lemma CurrentFacts(s: State, p: Port, g: Gen)
    requires Reachable(s) && IsCurrent(s.core, p, g)
    ensures g in s.core.handleTable && s.core.handleTable[g].port == p && p !in s.core.untracked
  {
    ReachableSound(s);
    assert CurrentOk(s, p);
    assert p in s.core.untracked ==> UntrackedOk(s, p);
  }

  lemma ReservationFacts(s: State, r: Tid)
    requires Reachable(s) && r in s.core.reservationTable
    ensures ReservationOk(s, r)
  {
    ReachableSound(s);
  }

  lemma StepIsGrowth(s: State, step: Step)
    requires Reachable(s) && Enabled(s, step)
    ensures CoreGrows(s.core, Apply(s, step).core)
  {
    ReachableInv(s);
    CoreStepGrows(s, step);
  }
}
