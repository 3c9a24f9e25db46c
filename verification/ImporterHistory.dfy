/**
 * What never changes back along a run: identities of handles, results of
 * attempts, the fate of a reservation, recorded intents, and the death of a
 * socket.
 */
module ImporterHistory {
  import opened Base
  import opened LifecycleGroup
  import opened ImporterCore
  import opened ImporterProtocol
  import opened ImporterInvariant
  import opened ImporterRuns

  /** The attempt stored on the handle has succeeded. */
  predicate DetachDone(c: Core, h: Handle) {
    && h.attempt.Some? && h.attempt.value in c.attemptTable
    && c.attemptTable[h.attempt.value].result == Some(Released)
  }

  predicate HandleKept(c: Core, c': Core, g: Gen) {
    && g in c.handleTable
    && g in c'.handleTable
    && var h, h' := c.handleTable[g], c'.handleTable[g];
       && h'.port == h.port && h'.op == h.op && (h.detaching ==> h'.detaching) && (h.cancelled ==> h'.cancelled)
       && (DetachDone(c, h) ==> h'.attempt == h.attempt)
  }

  predicate AttemptKept(c: Core, c': Core, x: AttemptId) {
    && x in c.attemptTable
    && x in c'.attemptTable
    && var a, a' := c.attemptTable[x], c'.attemptTable[x];
       a'.target == a.target && a'.owner == a.owner && (a.result.Some? ==> a'.result == a.result)
  }

  /** A new attempt is on a bare port, on a new handle, or on a handle that
      no attempt has succeeded on. */
  predicate AttemptAdmitted(c: Core, c': Core, x: AttemptId) {
    && x in c'.attemptTable
    && match c'.attemptTable[x].target
       case OnPort(_) => true
       case OnHandle(g) => g in c.handleTable ==> !DetachDone(c, c.handleTable[g])
  }

  predicate ReservationKept(c: Core, c': Core, r: Tid) {
    && r in c.reservationTable
    && r in c'.reservationTable
    && var v, v' := c.reservationTable[r], c'.reservationTable[r];
       && v'.port == v.port && (v.teardown ==> v'.teardown) && (v.done ==> v'.done)
       && (!v.fate.Pending? ==> v' == v.(done := v'.done))
  }

  ghost predicate HandlesGrow(c: Core, c': Core) {
    forall g :: g in c.handleTable ==> HandleKept(c, c', g)
  }

  ghost predicate AttemptsGrow(c: Core, c': Core) {
    && (forall x :: x in c.attemptTable ==> AttemptKept(c, c', x))
    && (forall x :: x in c'.attemptTable && x !in c.attemptTable ==> AttemptAdmitted(c, c', x))
  }

  ghost predicate ReservationsGrow(c: Core, c': Core) {
    forall r :: r in c.reservationTable ==> ReservationKept(c, c', r)
  }

  ghost predicate CoreGrows(c: Core, c': Core) {
    (c.closed ==> c'.closed) && HandlesGrow(c, c') && AttemptsGrow(c, c') && ReservationsGrow(c, c')
  }

  /** Nothing becomes live except the reserved port of an attach that has not
      published anything. */
  ghost predicate LiveGrows(s: State, s': State) {
    forall p :: p in s'.live ==>
      || (p in s.live && s'.live[p] == s.live[p])
      || (AttachAt(s, s'.live[p]) && PublishedBy(s.threads[s'.live[p]]).None?)
  }

  // --- One row at a time ---------------------------------------------------

  lemma HandleRow(c: Core, c': Core, g: Gen)
    requires g in c'.handleTable && c'.handleTable == c.handleTable[g := c'.handleTable[g]]
    requires g in c.handleTable ==> HandleKept(c, c', g)
    ensures HandlesGrow(c, c')
  {
  }

  lemma AttemptRow(c: Core, c': Core, x: AttemptId)
    requires x in c'.attemptTable && c'.attemptTable == c.attemptTable[x := c'.attemptTable[x]]
    requires if x in c.attemptTable then AttemptKept(c, c', x) else AttemptAdmitted(c, c', x)
    ensures AttemptsGrow(c, c')
  {
  }

  lemma ReservationRow(c: Core, c': Core, r: Tid)
    requires r in c'.reservationTable && c'.reservationTable == c.reservationTable[r := c'.reservationTable[r]]
    requires r in c.reservationTable ==> ReservationKept(c, c', r)
    ensures ReservationsGrow(c, c')
  {
  }

  predicate SameTables(c: Core, c': Core) {
    && (c.closed ==> c'.closed) && c'.handleTable == c.handleTable
    && c'.attemptTable == c.attemptTable && c'.reservationTable == c.reservationTable
  }

  lemma SameGrows(c: Core, c': Core)
    requires SameTables(c, c')
    ensures CoreGrows(c, c')
  {
  }

  // --- Critical sections ---------------------------------------------------

  lemma ReserveGrows(c: Core, p: Port, op: Tid)
    requires op !in c.reservationTable
    ensures CoreGrows(c, ReserveAttachPort(c, p, op).0)
  {
  }

  lemma AbortGrows(c: Core, p: Port, op: Tid)
    requires op in c.reservationTable ==> c.reservationTable[op].fate.Pending?
    ensures CoreGrows(c, AbortAttachReservation(c, p, op))
  {
  }

  lemma CompleteGrows(c: Core, op: Tid)
    ensures CoreGrows(c, CompleteReservation(c, op))
  {
    if op in c.reservationTable {
      ReservationRow(c, CompleteReservation(c, op), op);
    } else {
      SameGrows(c, c);
    }
  }

  lemma RegisterHandles(c: Core, p: Port, op: Tid, auto: bool, u: Tid)
    requires c.nextGen + 1 !in c.handleTable
    ensures HandlesGrow(c, RegisterHandle(c, p, op, auto, u).0)
  {
    var c' := RegisterHandle(c, p, op, auto, u).0;
    if p in c.handles && c.handles[p] in c.handleTable {
      var c1 := CancelHandle(c, c.handles[p]);
      HandleRow(c, c1, c.handles[p]);
      RegisterRow(c, p, op, auto, u);
    }
  }

  lemma RegisterRow(c: Core, p: Port, op: Tid, auto: bool, u: Tid)
    requires p in c.handles
    ensures
      var c', c1 := RegisterHandle(c, p, op, auto, u).0, CancelHandle(c, c.handles[p]);
      || c'.handleTable == c.handleTable
      || (c.nextGen + 1 in c'.handleTable
          && c'.handleTable == c1.handleTable[c.nextGen + 1 := c'.handleTable[c.nextGen + 1]])
  {
  }

  lemma RegisterAttempts(c: Core, p: Port, op: Tid, auto: bool, u: Tid)
    requires c.nextGen + 1 !in c.handleTable && c.nextAttempt !in c.attemptTable
    ensures AttemptsGrow(c, RegisterHandle(c, p, op, auto, u).0)
  {
  }

  lemma RegisterReservations(c: Core, p: Port, op: Tid, auto: bool, u: Tid)
    requires op in c.reservationTable ==> c.reservationTable[op].fate.Pending?
    ensures ReservationsGrow(c, RegisterHandle(c, p, op, auto, u).0)
  {
  }

  lemma RegisterGrows(c: Core, p: Port, op: Tid, auto: bool, u: Tid)
    requires op in c.reservationTable ==> c.reservationTable[op].fate.Pending?
    requires c.nextGen + 1 !in c.handleTable && c.nextAttempt !in c.attemptTable
    ensures CoreGrows(c, RegisterHandle(c, p, op, auto, u).0)
  {
    RegisterHandles(c, p, op, auto, u);
    RegisterAttempts(c, p, op, auto, u);
    RegisterReservations(c, p, op, auto, u);
  }

  lemma ClaimGrows(c: Core, g: Gen, owner: Tid)
    requires g in c.handleTable && c.nextAttempt !in c.attemptTable && c.handleTable[g].attempt.None?
    ensures CoreGrows(c, ClaimHandle(c, g, owner).0)
  {
    var c' := ClaimHandle(c, g, owner).0;
    HandleRow(c, c', g);
    AttemptRow(c, c', c.nextAttempt);
    assert c'.reservationTable == c.reservationTable;
  }

  lemma MarkGrows(c: Core, p: Port, caller: Tid)
    requires !c.closed && p in c.reservations && c.reservations[p] in c.reservationTable
    requires c.reservationTable[c.reservations[p]].fate.Pending?
    ensures CoreGrows(c, AcquireDetachTarget(c, p, caller).0)
  {
    var c' := AcquireDetachTarget(c, p, caller).0;
    if p in c.handles && c.handles[p] in c.handleTable { HandleRow(c, c', c.handles[p]); }
    ReservationRow(c, c', c.reservations[p]);
    assert c'.attemptTable == c.attemptTable;
  }

  lemma TrackGrows(c: Core, c': Core, p: Port)
    requires c.nextAttempt in c'.attemptTable && c.nextAttempt !in c.attemptTable
    requires c'.attemptTable == c.attemptTable[c.nextAttempt := c'.attemptTable[c.nextAttempt]]
    requires c'.attemptTable[c.nextAttempt].target == OnPort(p)
    requires c'.handleTable == c.handleTable && c'.reservationTable == c.reservationTable && c'.closed == c.closed
    ensures CoreGrows(c, c')
  {
    AttemptRow(c, c', c.nextAttempt);
  }

  lemma LookGrows(c: Core, p: Port, caller: Tid)
    requires c.nextAttempt !in c.attemptTable
    requires p in c.reservations && c.reservations[p] in c.reservationTable ==>
      c.reservationTable[c.reservations[p]].fate.Pending?
    ensures CoreGrows(c, AcquireDetachTarget(c, p, caller).0)
  {
    var (c', target) := AcquireDetachTarget(c, p, caller);
    match target
    case AwaitReservation(_) => MarkGrows(c, p, caller);
    case OwnHandle(g, _) => ClaimGrows(c, g, caller);
    case OwnUntracked(_) => TrackGrows(c, c', p);
    case TargetClosed => SameGrows(c, c');
    case FollowAttempt(_) => SameGrows(c, c');
  }

  lemma FinishAttempts(c: Core, c': Core, x: AttemptId, o: Outcome)
    requires x in c.attemptTable && c.attemptTable[x].result.None?
    requires c'.attemptTable == c.attemptTable[x := c.attemptTable[x].(result := Some(o))]
    ensures AttemptsGrow(c, c')
  {
    AttemptRow(c, c', x);
  }

  lemma FinishHandles(c: Core, g: Gen, x: AttemptId, o: Outcome)
    requires x in c.attemptTable && c.attemptTable[x].result.None?
    ensures HandlesGrow(c, FinishDetachAttempt(c, g, x, o))
  {
    var c' := FinishDetachAttempt(c, g, x, o);
    if g in c.handleTable && o != Released && c.handleTable[g].attempt == Some(x) {
      HandleRow(c, c', g);
    } else {
      assert c'.handleTable == c.handleTable;
    }
  }

  lemma FinishHandleGrows(c: Core, g: Gen, x: AttemptId, o: Outcome)
    requires x in c.attemptTable && c.attemptTable[x].result.None?
    ensures CoreGrows(c, FinishDetachAttempt(c, g, x, o))
  {
    var c' := FinishDetachAttempt(c, g, x, o);
    FinishAttempts(c, c', x, o);
    FinishHandles(c, g, x, o);
    assert c'.reservationTable == c.reservationTable;
  }

  lemma FinishPortGrows(c: Core, p: Port, x: AttemptId, o: Outcome)
    requires x in c.attemptTable && c.attemptTable[x].result.None?
    ensures CoreGrows(c, FinishUntrackedDetach(c, p, x, o))
  {
    FinishAttempts(c, FinishUntrackedDetach(c, p, x, o), x, o);
  }

  /** Only the named handle changes, and it keeps its claim. */
  lemma HandleOnlyGrows(c: Core, c': Core, g: Gen)
    requires SameTables(c.(handleTable := map[]), c'.(handleTable := map[]))
    requires if g in c.handleTable then g in c'.handleTable && c'.handleTable == c.handleTable[g := c'.handleTable[g]]
             && HandleKept(c, c', g)
             else c'.handleTable == c.handleTable
    ensures CoreGrows(c, c')
  {
    if g in c.handleTable { HandleRow(c, c', g); }
  }

  // --- Steps ---------------------------------------------------------------

  lemma QuietAttachTables(s: State, step: AttachStep)
    requires AttachEnabled(s, step)
    requires step.AttachStart? || step.AttachGiveUp? || step.AttachKernel? || step.AttachLostRelease?
    ensures SameTables(s.core, AttachApply(s, step).core)
  {
  }

  lemma LaunchGrows(s: State, t: Tid)
    requires CanAttachLaunch(s, t)
    ensures CoreGrows(s.core, DoAttachLaunch(s, t).core)
  {
    StartGrows(s.core, s.threads[t].apc.gen, s.nextTid);
    SameGrows(s.core, s.core);
    LaunchCore(s, t);
  }

  lemma LaunchCore(s: State, t: Tid)
    requires CanAttachLaunch(s, t)
    ensures
      var c := DoAttachLaunch(s, t).core;
      c == s.core || c == StartWatcher(s.core, s.threads[t].apc.gen, s.nextTid)
  {
  }

  lemma StartGrows(c: Core, g: Gen, w: Tid)
    ensures CoreGrows(c, StartWatcher(c, g, w))
  {
    if g in c.handleTable {
      SlotGrows(c, g, Running(w));
      JoinGrows(c, c.(handleTable := c.handleTable[g := c.handleTable[g].(watcher := Running(w))]));
    } else {
      SameGrows(c, c);
      JoinGrows(c, c);
    }
  }

  lemma SlotGrows(c: Core, g: Gen, slot: WatcherSlot)
    requires g in c.handleTable
    ensures CoreGrows(c, c.(handleTable := c.handleTable[g := c.handleTable[g].(watcher := slot)]))
  {
    HandleRow(c, c.(handleTable := c.handleTable[g := c.handleTable[g].(watcher := slot)]), g);
  }

  lemma JoinGrows(c: Core, d: Core)
    requires CoreGrows(c, d)
    ensures CoreGrows(c, WgAdd(d))
  {
  }

  lemma SelectGrows(s: State, t: Tid, p: Port)
    requires CanAttachSelect(s, t, p) && AttachOk(s, t)
    ensures CoreGrows(s.core, DoAttachSelect(s, t, p).core)
  {
    ReserveGrows(s.core, p, t);
  }

  lemma RegisterStepGrows(s: State, t: Tid)
    requires FreshOk(s) && CanAttachRegister(s, t) && AttachOk(s, t)
    ensures CoreGrows(s.core, DoAttachRegister(s, t).core)
  {
    RegisterGrows(s.core, s.threads[t].apc.port, t, s.threads[t].auto, s.nextTid);
  }

  lemma AttachGrows(s: State, step: AttachStep)
    requires FreshOk(s) && AttachEnabled(s, step)
    requires !step.AttachStart? ==> AttachOk(s, step.t)
    ensures CoreGrows(s.core, AttachApply(s, step).core)
  {
    match step
    case AttachSelect(t, p) => SelectGrows(s, t, p);
    case AttachAbort(t) => AbortGrows(s.core, s.threads[t].apc.port, t);
    case AttachRegister(t) => RegisterStepGrows(s, t);
    case AttachComplete(t) => CompleteGrows(s.core, t);
    case AttachLaunch(t) => LaunchGrows(s, t);
    case AttachRelease(t) => SameGrows(s.core, DoAttachRelease(s, t).core);
    case AttachLeave(t) => SameGrows(s.core, DoAttachLeave(s, t).core);
    case _ => QuietAttachTables(s, step); SameGrows(s.core, AttachApply(s, step).core);
  }

  predicate HolderPending(s: State, p: Port) {
    p in s.core.reservations && s.core.reservations[p] in s.core.reservationTable ==>
      s.core.reservationTable[s.core.reservations[p]].fate.Pending?
  }

  lemma QuietDetachTables(s: State, step: DetachStep)
    requires DetachEnabled(s, step)
    requires step.DetachStart? || step.DetachPublication? || step.DetachGiveUp? || step.DetachFollow?
             || step.PortKernel? || step.OwnerCheck? || step.OwnerKernel?
    ensures SameTables(s.core, DetachApply(s, step).core)
  {
  }

  lemma OwnerFinishGrows(s: State, t: Tid)
    requires CanOwnerFinish(s, t) && DetachOk(s, t)
    ensures CoreGrows(s.core, DoOwnerFinish(s, t).core)
  {
    var Owner(g, x, Finishing(o)) := s.threads[t].dpc;
    FinishHandleGrows(s.core, g, x, o);
  }

  lemma PortFinishGrows(s: State, t: Tid)
    requires CanPortFinish(s, t) && DetachOk(s, t)
    ensures CoreGrows(s.core, DoPortFinish(s, t).core)
  {
    FinishPortGrows(s.core, s.threads[t].port, s.threads[t].dpc.attempt, s.threads[t].dpc.reported.value);
  }

  lemma OwnerCancelGrows(s: State, t: Tid)
    requires CanOwnerCancel(s, t)
    ensures CoreGrows(s.core, DoOwnerCancel(s, t).core)
  {
    HandleOnlyGrows(s.core, DoOwnerCancel(s, t).core, s.threads[t].dpc.gen);
  }

  lemma LookStepGrows(s: State, t: Tid)
    requires FreshOk(s) && CanDetachLook(s, t) && HolderPending(s, s.threads[t].port)
    ensures CoreGrows(s.core, DoDetachLook(s, t).core)
  {
    LookGrows(s.core, s.threads[t].port, t);
  }

  lemma DetachGrows(s: State, step: DetachStep)
    requires FreshOk(s) && DetachEnabled(s, step)
    requires !step.DetachStart? ==> DetachOk(s, step.t)
    requires step.DetachLook? ==> HolderPending(s, s.threads[step.t].port)
    ensures CoreGrows(s.core, DetachApply(s, step).core)
  {
    match step
    case DetachLook(t) => LookStepGrows(s, t);
    case OwnerCancel(t) => OwnerCancelGrows(s, t);
    case OwnerFinish(t) => OwnerFinishGrows(s, t);
    case PortFinish(t) => PortFinishGrows(s, t);
    case _ => QuietDetachGrows(s, step);
  }

  lemma QuietDetachGrows(s: State, step: DetachStep)
    requires DetachEnabled(s, step)
    requires !step.DetachLook? && !step.OwnerCancel? && !step.OwnerFinish? && !step.PortFinish?
    ensures CoreGrows(s.core, DetachApply(s, step).core)
  {
    var c := DetachApply(s, step).core;
    match step
    case OwnerRemove(_) => SameGrows(s.core, c);
    case OwnerLeave(_) => SameGrows(s.core, c);
    case _ => QuietDetachTables(s, step); SameGrows(s.core, c);
  }

  lemma QuietWatcherTables(s: State, step: WatcherStep)
    requires WatcherEnabled(s, step) && !step.WatcherRollbackClaim? && !step.WatcherClose?
    requires !step.WatcherExhausted? && !step.WatcherRetire? && !step.WatcherAttempt?
    ensures SameTables(s.core, WatcherApply(s, step).core)
  {
  }

  lemma RollbackGrows(s: State, t: Tid)
    requires FreshOk(s) && CanWatcherRollbackClaim(s, t)
    ensures CoreGrows(s.core, DoWatcherRollbackClaim(s, t).core)
  {
    var Rollback(p, g, _) := s.threads[t].wpc;
    if IsCurrent(s.core, p, g) && g in s.core.handleTable && s.core.handleTable[g].attempt.None? {
      ClaimGrows(s.core, g, s.nextTid);
    } else {
      SameGrows(s.core, DoWatcherRollbackClaim(s, t).core);
    }
  }

  lemma WatcherCloseGrows(s: State, t: Tid)
    requires CanWatcherClose(s, t)
    ensures CoreGrows(s.core, DoWatcherClose(s, t).core)
  {
    HandleOnlyGrows(s.core, DoWatcherClose(s, t).core, s.threads[t].gen);
  }

  lemma WatcherGrows(s: State, step: WatcherStep)
    requires FreshOk(s) && WatcherEnabled(s, step)
    ensures CoreGrows(s.core, WatcherApply(s, step).core)
  {
    match step
    case WatcherRollbackClaim(t) => RollbackGrows(s, t);
    case WatcherClose(t) => WatcherCloseGrows(s, t);
    case WatcherExhausted(t) => SameGrows(s.core, DoWatcherExhausted(s, t).core);
    case WatcherRetire(t) => SameGrows(s.core, DoWatcherRetire(s, t).core);
    case WatcherAttempt(t) => SameGrows(s.core, DoWatcherAttempt(s, t).core);
    case _ => QuietWatcherTables(s, step); SameGrows(s.core, WatcherApply(s, step).core);
  }

  lemma WorldGrows(s: State, step: WorldStep)
    requires WorldEnabled(s, step)
    ensures CoreGrows(s.core, WorldApply(s, step).core)
  {
    match step
    case CloseSweep(g) => HandleOnlyGrows(s.core, WorldApply(s, step).core, g);
    case _ => SameGrows(s.core, WorldApply(s, step).core);
  }

  lemma CoreStepGrows(s: State, step: Step)
    requires Structure(s) && Enabled(s, step)
    ensures CoreGrows(s.core, Apply(s, step).core)
  {
    match step
    case ByAttach(a) =>
      if !a.AttachStart? { assert ThreadOk(s, a.t); }
      AttachGrows(s, a);
    case ByDetach(a) =>
      if !a.DetachStart? { assert ThreadOk(s, a.t); }
      if a.DetachLook? { HolderIsPending(s, s.threads[a.t].port); }
      DetachGrows(s, a);
    case ByWatcher(a) => WatcherGrows(s, a);
    case ByWorld(a) => WorldGrows(s, a);
  }

  lemma HolderIsPending(s: State, p: Port)
    requires Structure(s)
    ensures HolderPending(s, p)
  {
    if p in s.core.reservations {
      assert ReservedOk(s, p);
      assert ThreadOk(s, s.core.reservations[p]);
    }
  }

  lemma LiveStepGrows(s: State, step: Step)
    requires Enabled(s, step)
    ensures LiveGrows(s, Apply(s, step))
  {
    match step
    case ByAttach(a) => AttachLive(s, a);
    case ByDetach(a) => DetachLive(s, a);
    case ByWatcher(a) => WatcherLive(s, a);
    case ByWorld(a) =>
  }

  lemma AttachLive(s: State, step: AttachStep)
    requires AttachEnabled(s, step)
    ensures LiveGrows(s, AttachApply(s, step))
  {
  }

  lemma DetachLive(s: State, step: DetachStep)
    requires DetachEnabled(s, step)
    ensures LiveGrows(s, DetachApply(s, step))
  {
  }

  lemma WatcherLive(s: State, step: WatcherStep)
    requires WatcherEnabled(s, step)
    ensures WatcherApply(s, step).live == s.live
  {
  }

  // --- Runs ----------------------------------------------------------------

  /** What a run keeps. */
  ghost predicate Grows(s: State, s': State) {
    && CoreGrows(s.core, s'.core)
    && forall g :: g in s.core.handleTable && Dead(s, g) ==> g in s'.core.handleTable && Dead(s', g)
  }

  lemma StepGrows(s: State, step: Step)
    requires Structure(s) && Enabled(s, step)
    ensures Grows(s, Apply(s, step))
  {
    CoreStepGrows(s, step);
    LiveStepGrows(s, step);
    DeathKept(s, Apply(s, step));
  }

  lemma DeathKept(s: State, s': State)
    requires Objects(s) && HandlesGrow(s.core, s'.core) && LiveGrows(s, s')
    ensures forall g :: g in s.core.handleTable && Dead(s, g) ==> g in s'.core.handleTable && Dead(s', g)
  {
    forall g | g in s.core.handleTable && Dead(s, g)
      ensures g in s'.core.handleTable && Dead(s', g)
    {
      assert HandleOk(s, g) && HandleKept(s.core, s'.core, g);
    }
  }

  lemma CoreGrowsOn(c: Core, d: Core, e: Core)
    requires CoreGrows(c, d) && CoreGrows(d, e)
    ensures CoreGrows(c, e)
  {
    HandlesGrowOn(c, d, e);
    AttemptsGrowOn(c, d, e);
  }

  lemma HandlesGrowOn(c: Core, d: Core, e: Core)
    requires HandlesGrow(c, d) && HandlesGrow(d, e) && AttemptsGrow(c, d)
    ensures HandlesGrow(c, e)
  {
    forall g | g in c.handleTable
      ensures HandleKept(c, e, g)
    {
      assert HandleKept(c, d, g) && HandleKept(d, e, g);
    }
  }

  lemma AttemptsGrowOn(c: Core, d: Core, e: Core)
    requires HandlesGrow(c, d) && AttemptsGrow(c, d) && AttemptsGrow(d, e)
    ensures AttemptsGrow(c, e)
  {
    forall x | x in c.attemptTable
      ensures AttemptKept(c, e, x)
    {
      assert AttemptKept(c, d, x) && AttemptKept(d, e, x);
    }
    forall x | x in e.attemptTable && x !in c.attemptTable
      ensures AttemptAdmitted(c, e, x)
    {
      assert x in d.attemptTable ==> AttemptKept(d, e, x);
    }
  }

  lemma {:induction false} RunGrows(s: State, steps: seq<Step>, after: State)
    requires Inv(s) && Run(s, steps, after)
    ensures Grows(s, after)
    decreases |steps|
  {
    if steps == [] {
      RunStays(s, after);
      SameGrows(s.core, after.core);
    } else {
      RunFirst(s, steps, after);
      var next := Apply(s, steps[0]);
      StepGrows(s, steps[0]);
      InvStep(s, steps[0]);
      RunGrows(next, steps[1..], after);
      CoreGrowsOn(s.core, next.core, after.core);
    }
  }
}
