/**
 * Attach, Detach, the reconnect watcher and Close as a transition system over
 * internal/app/importer.go and internal/app/reconnect.go.
 *
 * One step is one critical section of Importer.mu, one kernel call, one channel
 * operation or one wait-group operation; timeouts and cancellations are
 * steps that may happen at any moment. No order between kernel calls is
 * assumed beyond what the code itself enforces.
 */
module ImporterProtocol {
  import opened Base
  import opened LifecycleGroup
  import opened ImporterCore

  /** AttachRemote has called the hook; it then fails or succeeds. */
  datatype HandoffPhase = Reserved | HandoffFailed | HandedOff

  /** The deferred release: drop the in-flight key, wg.Done, return. */
  datatype OutPhase = Releasing | Leaving | AttachReturned

  /** Where an Attach call is (attach, attachOverDialed, finishAttach). The
      `open` phases precede closing reservation.done. */
  datatype AttachPc =
    | Dialing
    | Handing(port: Port, handoff: HandoffPhase)
    | AbortedOpen(port: Port)
    | Lost(port: Port, open: bool)
    | Publishing(port: Port, gen: Gen, compensator: Option<Tid>, open: bool)
    | Out(published: Option<(Port, Gen)>, out: OutPhase)

  /** The owner-only body of one detach attempt (detachHandle). */
  datatype OwnerPhase =
    | Unstarted
    | Claimed
    | AwaitWatcher
    | Checked(timedOut: bool)
    | Removing(outcome: Outcome)
    | Finishing(outcome: Outcome)

  /** Where a Detach call, a compensating goroutine or a rollback is. */
  datatype DetachPc =
    | Looking
    | AwaitPublication(op: Tid)
    | Following(attempt: AttemptId)
    | OnUntracked(attempt: AttemptId, reported: Option<Outcome>)
    | Owner(gen: Gen, attempt: AttemptId, phase: OwnerPhase)
    | DetachOut(attempt: AttemptId, outcome: Outcome, returned: bool)
    | GaveUp

  /** Where a reconnect watcher is. */
  datatype WatcherPc =
    | Watching
    | Reconnecting
    | Attempting(child: Tid)
    | Succeeded(port: Port, gen: Gen)
    | Retiring
    | Rollback(port: Port, gen: Gen, unclaimed: bool)
    | RollingBack(child: Tid)
    | Joining(attempt: AttemptId)
    | Exiting
    | WatcherLeaving
    | WatcherGone

  /** `clear` records, for a claim on a handle, whether the claim was clear
      (see `Clear`) at the moment it was made. */
  datatype Thread =
    | AttachT(key: Key, auto: bool, parent: Option<Tid>, apc: AttachPc)
    | DetachT(port: Port, clear: bool, rollback: Option<Tid>, dpc: DetachPc)
    | WatcherT(gen: Gen, key: Key, wpc: WatcherPc)

  /**
   * `live` is the kernel's port table: the attach operation whose socket a port
   * holds. Values below `base` are sockets inherited from earlier processes.
   * `leaked` are operations whose best-effort release after losing to Close
   * failed; `helpers` counts the goroutines watchers enrol beside themselves.
   */
  datatype State = State(
    core: Core,
    threads: map<Tid, Thread>,
    nextTid: Tid,
    base: Tid,
    live: map<Port, Tid>,
    leaked: set<Tid>,
    helpers: nat,
    drain: Option<Chan>)

  ghost predicate Init(s: State) {
    && s.core == NEW_IMPORTER
    && s.threads == map[] && s.leaked == {} && s.helpers == 0 && s.drain == None
    && s.nextTid == s.base
    && forall p :: p in s.live ==> s.live[p] < s.base
  }

  datatype AttachStep =
    | AttachStart(key: Key, auto: bool)
    | AttachGiveUp(t: Tid)
    | AttachSelect(t: Tid, port: Port)
    | AttachKernel(t: Tid, accepted: bool)
    | AttachAbort(t: Tid)
    | AttachRegister(t: Tid)
    | AttachComplete(t: Tid)
    | AttachLostRelease(t: Tid, outcome: Outcome)
    | AttachLaunch(t: Tid)
    | AttachRelease(t: Tid)
    | AttachLeave(t: Tid)

  datatype DetachStep =
    | DetachStart(port: Port)
    | DetachLook(t: Tid)
    | DetachPublication(t: Tid)
    | DetachGiveUp(t: Tid)
    | DetachFollow(t: Tid)
    | PortKernel(t: Tid, outcome: Outcome)
    | PortFinish(t: Tid)
    | OwnerCancel(t: Tid)
    | OwnerCheck(t: Tid, timedOut: bool)
    | OwnerKernel(t: Tid, outcome: Outcome)
    | OwnerRemove(t: Tid)
    | OwnerFinish(t: Tid)
    | OwnerLeave(t: Tid)

  datatype WatcherStep =
    | WatcherDetect(t: Tid)
    | WatcherAttempt(t: Tid)
    | WatcherExhausted(t: Tid)
    | WatcherCancelled(t: Tid)
    | WatcherSucceeded(t: Tid)
    | WatcherRetire(t: Tid)
    | WatcherRollbackCheck(t: Tid)
    | WatcherRollbackClaim(t: Tid)
    | WatcherJoined(t: Tid)
    | WatcherClose(t: Tid)
    | WatcherLeave(t: Tid)
    | HelperStart(t: Tid)
    | HelperLeave

  datatype WorldStep =
    | CloseBegin
    | CloseSweep(gen: Gen)
    | CloseCapture
    | KernelDrop(port: Port)

  datatype Step =
    | ByAttach(stepAttach: AttachStep)
    | ByDetach(stepDetach: DetachStep)
    | ByWatcher(stepWatcher: WatcherStep)
    | ByWorld(stepWorld: WorldStep)

  predicate AttachAt(s: State, t: Tid) { t in s.threads && s.threads[t].AttachT? }
  predicate DetachAt(s: State, t: Tid) { t in s.threads && s.threads[t].DetachT? }
  predicate WatcherAt(s: State, t: Tid) { t in s.threads && s.threads[t].WatcherT? }

  function SetA(s: State, t: Tid, pc: AttachPc): State
    requires AttachAt(s, t)
  {
    s.(threads := s.threads[t := s.threads[t].(apc := pc)])
  }

  function SetD(s: State, t: Tid, pc: DetachPc): State
    requires DetachAt(s, t)
  {
    s.(threads := s.threads[t := s.threads[t].(dpc := pc)])
  }

  function SetW(s: State, t: Tid, pc: WatcherPc): State
    requires WatcherAt(s, t)
  {
    s.(threads := s.threads[t := s.threads[t].(wpc := pc)])
  }

  function Spawn(s: State, th: Thread): State {
    s.(threads := s.threads[s.nextTid := th], nextTid := s.nextTid + 1)
  }

  // --- Attach --------------------------------------------------------------

  function DoAttachStart(s: State, key: Key, auto: bool): State {
    var (c, r) := AcquireAttachSlot(s.core, key);
    if r.SlotGranted? then Spawn(s.(core := c), AttachT(key, auto, None, Dialing)) else s
  }

  predicate CanAttachGiveUp(s: State, t: Tid) { AttachAt(s, t) && s.threads[t].apc.Dialing? }

  function DoAttachGiveUp(s: State, t: Tid): State
    requires CanAttachGiveUp(s, t)
  {
    SetA(s, t, Out(None, Releasing))
  }

  /** AttachRemote picks a port the kernel reports free and calls the hook. */
  predicate CanAttachSelect(s: State, t: Tid, p: Port) {
    AttachAt(s, t) && s.threads[t].apc.Dialing? && p !in s.live
  }

  function DoAttachSelect(s: State, t: Tid, p: Port): State
    requires CanAttachSelect(s, t, p)
  {
    var (c, granted) := ReserveAttachPort(s.core, p, t);
    SetA(s.(core := c), t, if granted then Handing(p, Reserved) else Out(None, Releasing))
  }

  predicate CanAttachKernel(s: State, t: Tid) {
    AttachAt(s, t) && s.threads[t].apc.Handing? && s.threads[t].apc.handoff.Reserved?
  }

  function DoAttachKernel(s: State, t: Tid, accepted: bool): State
    requires CanAttachKernel(s, t)
  {
    var p := s.threads[t].apc.port;
    if accepted then SetA(s.(live := s.live[p := t]), t, Handing(p, HandedOff))
    else SetA(s, t, Handing(p, HandoffFailed))
  }

  predicate CanAttachAbort(s: State, t: Tid) {
    AttachAt(s, t) && s.threads[t].apc.Handing? && s.threads[t].apc.handoff.HandoffFailed?
  }

  function DoAttachAbort(s: State, t: Tid): State
    requires CanAttachAbort(s, t)
  {
    var p := s.threads[t].apc.port;
    SetA(s.(core := AbortAttachReservation(s.core, p, t)), t, AbortedOpen(p))
  }

  predicate CanAttachRegister(s: State, t: Tid) {
    AttachAt(s, t) && s.threads[t].apc.Handing? && s.threads[t].apc.handoff.HandedOff?
  }

  function DoAttachRegister(s: State, t: Tid): State
    requires CanAttachRegister(s, t)
  {
    var p := s.threads[t].apc.port;
    var (c, r) := RegisterHandle(s.core, p, t, s.threads[t].auto, s.nextTid);
    match r
    case ReservationLost => SetA(s.(core := c), t, Lost(p, false))
    case RegisterClosed => SetA(s.(core := c), t, Lost(p, true))
    case Registered(g, None) => SetA(s.(core := c), t, Publishing(p, g, None, true))
    case Registered(g, Some(x)) =>
      var s1 := SetA(s.(core := c), t, Publishing(p, g, Some(s.nextTid), true));
      var clear := Clear(s1, p, g);
      Spawn(s1, DetachT(p, clear, None, Owner(g, x, Unstarted)))
  }

  predicate CanAttachComplete(s: State, t: Tid) {
    && AttachAt(s, t)
    && match s.threads[t].apc
       case Publishing(_, _, _, open) => open
       case Lost(_, open) => open
       case AbortedOpen(_) => true
       case _ => false
  }

  /** Closing reservation.done after the lock was released. */
  function DoAttachComplete(s: State, t: Tid): State
    requires CanAttachComplete(s, t)
  {
    var s1 := s.(core := CompleteReservation(s.core, t));
    match s.threads[t].apc
    case Publishing(p, g, d, _) => SetA(s1, t, Publishing(p, g, d, false))
    case AbortedOpen(_) => SetA(s1, t, Out(None, Releasing))
    case Lost(p, _) => SetA(s1, t, Lost(p, false))
  }

  /** kernel.DetachPort(p) reporting `o`. */
  predicate KernelDetachReports(s: State, p: Port, o: Outcome) {
    match o
    case Released => p in s.live
    case NotBound => p !in s.live
    case Failed => true
  }

  function KernelDetach(s: State, p: Port, o: Outcome): State {
    if o == Released then s.(live := s.live - {p}) else s
  }

  predicate CanAttachLostRelease(s: State, t: Tid, o: Outcome) {
    && AttachAt(s, t) && s.threads[t].apc.Lost? && !s.threads[t].apc.open
    && KernelDetachReports(s, s.threads[t].apc.port, o)
  }

  function DoAttachLostRelease(s: State, t: Tid, o: Outcome): State
    requires CanAttachLostRelease(s, t, o)
  {
    var s1 := KernelDetach(s, s.threads[t].apc.port, o);
    var s2 := if o == Failed then s1.(leaked := s1.leaked + {t}) else s1;
    SetA(s2, t, Out(None, Releasing))
  }

  predicate CanAttachLaunch(s: State, t: Tid) {
    AttachAt(s, t) && s.threads[t].apc.Publishing? && !s.threads[t].apc.open
  }

  /** startCompensatingDetach, spawnReconnectWatcher, or neither. */
  function DoAttachLaunch(s: State, t: Tid): State
    requires CanAttachLaunch(s, t)
  {
    var Publishing(p, g, compensator, _) := s.threads[t].apc;
    match compensator
    case Some(d) =>
      var s1 := if DetachAt(s, d) && s.threads[d].dpc.Owner?
                then SetD(s, d, s.threads[d].dpc.(phase := Claimed)) else s;
      if AttachAt(s1, t) then SetA(s1, t, Out(Some((p, g)), Releasing)) else s1
    case None =>
      if s.threads[t].auto then
        var s1 := s.(core := StartWatcher(s.core, g, s.nextTid));
        var s2 := SetA(s1, t, Out(Some((p, g)), Releasing));
        Spawn(s2, WatcherT(g, s.threads[t].key, Watching))
      else SetA(s, t, Out(Some((p, g)), Releasing))
  }

  predicate CanAttachRelease(s: State, t: Tid) {
    AttachAt(s, t) && s.threads[t].apc.Out? && s.threads[t].apc.out.Releasing?
  }

  function DoAttachRelease(s: State, t: Tid): State
    requires CanAttachRelease(s, t)
  {
    SetA(s.(core := ReleaseAttachSlot(s.core, s.threads[t].key)), t, Out(s.threads[t].apc.published, Leaving))
  }

  predicate CanAttachLeave(s: State, t: Tid) {
    AttachAt(s, t) && s.threads[t].apc.Out? && s.threads[t].apc.out.Leaving?
  }

  /** The attach's wg.Done; a reconnect attempt returns to its watcher. */
  function DoAttachLeave(s: State, t: Tid): State
    requires CanAttachLeave(s, t)
  {
    var r := s.threads[t].apc.published;
    var s1 := SetA(s.(core := WgDone(s.core)), t, Out(r, AttachReturned));
    match s.threads[t].parent
    case None => s1
    case Some(w) =>
      if WatcherAt(s1, w) then
        SetW(s1, w, match r case None => Reconnecting case Some((p, g)) => Succeeded(p, g))
      else s1
  }

  // --- Detach --------------------------------------------------------------

  /** A handoff that can neither make its port live nor publish a handle. */
  predicate Harmless(s: State, handoff: HandoffPhase) {
    handoff.HandoffFailed? || (handoff.HandedOff? && s.core.closed)
  }

  /**
   * Nothing but generation `g` can be hit by a kernel detach of `p`: no other
   * socket is live there and any handoff under way on it is harmless.
   */
  predicate Clear(s: State, p: Port, g: Gen) {
    && (p in s.live ==> g in s.core.handleTable && s.live[p] == s.core.handleTable[g].op)
    && (p in s.core.reservations ==>
          && AttachAt(s, s.core.reservations[p])
          && s.threads[s.core.reservations[p]].apc.Handing?
          && s.threads[s.core.reservations[p]].apc.port == p
          && Harmless(s, s.threads[s.core.reservations[p]].apc.handoff))
  }

  function DoDetachStart(s: State, p: Port): State {
    Spawn(s, DetachT(p, true, None, Looking))
  }

  predicate CanDetachLook(s: State, t: Tid) { DetachAt(s, t) && s.threads[t].dpc.Looking? }

  function DoDetachLook(s: State, t: Tid): State
    requires CanDetachLook(s, t)
  {
    var p := s.threads[t].port;
    var (c, target) := AcquireDetachTarget(s.core, p, t);
    var s1 := s.(core := c);
    match target
    case TargetClosed => SetD(s1, t, GaveUp)
    case AwaitReservation(op) => SetD(s1, t, AwaitPublication(op))
    case FollowAttempt(x) => SetD(s1, t, Following(x))
    case OwnUntracked(x) => SetD(s1, t, OnUntracked(x, None))
    case OwnHandle(g, x) =>
      s1.(threads := s1.threads[t := DetachT(p, Clear(s1, p, g), None, Owner(g, x, Claimed))])
  }

  predicate CanDetachPublication(s: State, t: Tid) {
    && DetachAt(s, t) && s.threads[t].dpc.AwaitPublication?
    && s.threads[t].dpc.op in s.core.reservationTable
    && s.core.reservationTable[s.threads[t].dpc.op].done
  }

  function DoDetachPublication(s: State, t: Tid): State
    requires CanDetachPublication(s, t)
  {
    match s.core.reservationTable[s.threads[t].dpc.op].attempt
    case Some(x) => SetD(s, t, Following(x))
    case None => SetD(s, t, Looking)
  }

  predicate CanDetachGiveUp(s: State, t: Tid) {
    DetachAt(s, t) && (s.threads[t].dpc.AwaitPublication? || s.threads[t].dpc.Following?)
  }

  function DoDetachGiveUp(s: State, t: Tid): State
    requires CanDetachGiveUp(s, t)
  {
    SetD(s, t, GaveUp)
  }

  predicate CanDetachFollow(s: State, t: Tid) {
    && DetachAt(s, t) && s.threads[t].dpc.Following?
    && s.threads[t].dpc.attempt in s.core.attemptTable
    && s.core.attemptTable[s.threads[t].dpc.attempt].result.Some?
  }

  function DoDetachFollow(s: State, t: Tid): State
    requires CanDetachFollow(s, t)
  {
    var x := s.threads[t].dpc.attempt;
    SetD(s, t, DetachOut(x, s.core.attemptTable[x].result.value, true))
  }

  predicate CanPortKernel(s: State, t: Tid, o: Outcome) {
    && DetachAt(s, t) && s.threads[t].dpc.OnUntracked? && s.threads[t].dpc.reported.None?
    && KernelDetachReports(s, s.threads[t].port, o)
  }

  function DoPortKernel(s: State, t: Tid, o: Outcome): State
    requires CanPortKernel(s, t, o)
  {
    SetD(KernelDetach(s, s.threads[t].port, o), t, OnUntracked(s.threads[t].dpc.attempt, Some(o)))
  }

  predicate CanPortFinish(s: State, t: Tid) {
    DetachAt(s, t) && s.threads[t].dpc.OnUntracked? && s.threads[t].dpc.reported.Some?
  }

  function DoPortFinish(s: State, t: Tid): State
    requires CanPortFinish(s, t)
  {
    var x := s.threads[t].dpc.attempt;
    var o := s.threads[t].dpc.reported.value;
    SetD(s.(core := FinishUntrackedDetach(s.core, s.threads[t].port, x, o)), t, DetachOut(x, o, false))
  }

  predicate OwnerAt(s: State, t: Tid) { DetachAt(s, t) && s.threads[t].dpc.Owner? }

  function SetPhase(s: State, t: Tid, phase: OwnerPhase): State
    requires OwnerAt(s, t)
  {
    SetD(s, t, s.threads[t].dpc.(phase := phase))
  }

  predicate CanOwnerCancel(s: State, t: Tid) { OwnerAt(s, t) && s.threads[t].dpc.phase.Claimed? }

  function DoOwnerCancel(s: State, t: Tid): State
    requires CanOwnerCancel(s, t)
  {
    SetPhase(s.(core := CancelHandle(s.core, s.threads[t].dpc.gen)), t, AwaitWatcher)
  }

  /** The bounded wait ends, then exact identity is re-read under the lock. */
  predicate CanOwnerCheck(s: State, t: Tid, timedOut: bool) {
    && OwnerAt(s, t) && s.threads[t].dpc.phase.AwaitWatcher?
    && s.threads[t].dpc.gen in s.core.handleTable
    && (timedOut || s.core.handleTable[s.threads[t].dpc.gen].watcher.NoWatcher?
                 || s.core.handleTable[s.threads[t].dpc.gen].watcher.Exited?)
  }

  function DoOwnerCheck(s: State, t: Tid, timedOut: bool): State
    requires CanOwnerCheck(s, t, timedOut)
  {
    if IsCurrent(s.core, s.threads[t].port, s.threads[t].dpc.gen)
    then SetPhase(s, t, Checked(timedOut))
    else SetPhase(s, t, Finishing(Released))
  }

  predicate CanOwnerKernel(s: State, t: Tid, o: Outcome) {
    OwnerAt(s, t) && s.threads[t].dpc.phase.Checked? && KernelDetachReports(s, s.threads[t].port, o)
  }

  function DoOwnerKernel(s: State, t: Tid, o: Outcome): State
    requires CanOwnerKernel(s, t, o)
  {
    SetPhase(KernelDetach(s, s.threads[t].port, o), t,
             if o == Failed then Finishing(Failed) else Removing(o))
  }

  predicate CanOwnerRemove(s: State, t: Tid) { OwnerAt(s, t) && s.threads[t].dpc.phase.Removing? }

  function DoOwnerRemove(s: State, t: Tid): State
    requires CanOwnerRemove(s, t)
  {
    SetPhase(s.(core := DeleteExactHandle(s.core, s.threads[t].port, s.threads[t].dpc.gen)), t,
             Finishing(s.threads[t].dpc.phase.outcome))
  }

  predicate CanOwnerFinish(s: State, t: Tid) { OwnerAt(s, t) && s.threads[t].dpc.phase.Finishing? }

  function DoOwnerFinish(s: State, t: Tid): State
    requires CanOwnerFinish(s, t)
  {
    var Owner(g, x, Finishing(o)) := s.threads[t].dpc;
    SetD(s.(core := FinishDetachAttempt(s.core, g, x, o)), t, DetachOut(x, o, false))
  }

  predicate CanOwnerLeave(s: State, t: Tid) {
    DetachAt(s, t) && s.threads[t].dpc.DetachOut? && !s.threads[t].dpc.returned
  }

  /** The owner's wg.Done; a rollback returns to its watcher. */
  function DoOwnerLeave(s: State, t: Tid): State
    requires CanOwnerLeave(s, t)
  {
    var DetachOut(x, o, _) := s.threads[t].dpc;
    var s1 := SetD(s.(core := WgDone(s.core)), t, DetachOut(x, o, true));
    match s.threads[t].rollback
    case None => s1
    case Some(w) => if WatcherAt(s1, w) then SetW(s1, w, Exiting) else s1
  }

  // --- Reconnect watcher ---------------------------------------------------

  /** A uevent or poll is believed only after ListPorts shows the port free. */
  predicate CanWatcherDetect(s: State, t: Tid) {
    && WatcherAt(s, t) && s.threads[t].wpc.Watching?
    && s.threads[t].gen in s.core.handleTable
    && s.core.handleTable[s.threads[t].gen].port !in s.live
  }

  function DoWatcherDetect(s: State, t: Tid): State
    requires CanWatcherDetect(s, t)
  {
    SetW(s, t, Reconnecting)
  }

  predicate CanWatcherAttempt(s: State, t: Tid) { WatcherAt(s, t) && s.threads[t].wpc.Reconnecting? }

  function DoWatcherAttempt(s: State, t: Tid): State
    requires CanWatcherAttempt(s, t)
  {
    var key := s.threads[t].key;
    var (c, r) := AcquireAttachSlot(s.core, key);
    match r
    case SlotClosed => SetW(s, t, Exiting)
    case SlotBusy => s
    case SlotGranted =>
      var s1 := SetW(s.(core := c), t, Attempting(s.nextTid));
      Spawn(s1, AttachT(key, true, Some(t), Dialing))
  }

  /** Attempts ran out, or a successful attempt retires its predecessor. */
  predicate CanWatcherExhausted(s: State, t: Tid) { WatcherAt(s, t) && s.threads[t].wpc.Reconnecting? }

  function RemoveOwnHandle(s: State, t: Tid): State
    requires WatcherAt(s, t)
  {
    var g := s.threads[t].gen;
    if g in s.core.handleTable
    then s.(core := DeleteExactHandle(s.core, s.core.handleTable[g].port, g)) else s
  }

  function DoWatcherExhausted(s: State, t: Tid): State
    requires CanWatcherExhausted(s, t)
  {
    SetW(RemoveOwnHandle(s, t), t, Exiting)
  }

  /** Before a detach signal the event source may fail too; afterwards only the
      cancellation of its handle stops a watcher. */
  predicate CanWatcherCancelled(s: State, t: Tid) {
    && WatcherAt(s, t)
    && (s.threads[t].wpc.Watching?
        || (s.threads[t].wpc.Reconnecting?
            && s.threads[t].gen in s.core.handleTable && s.core.handleTable[s.threads[t].gen].cancelled))
  }

  function DoWatcherCancelled(s: State, t: Tid): State
    requires CanWatcherCancelled(s, t)
  {
    SetW(s, t, Exiting)
  }

  predicate CanWatcherSucceeded(s: State, t: Tid) {
    WatcherAt(s, t) && s.threads[t].wpc.Succeeded? && s.threads[t].gen in s.core.handleTable
  }

  function DoWatcherSucceeded(s: State, t: Tid): State
    requires CanWatcherSucceeded(s, t)
  {
    var Succeeded(p, g) := s.threads[t].wpc;
    SetW(s, t, if s.core.handleTable[s.threads[t].gen].detaching then Rollback(p, g, false) else Retiring)
  }

  predicate CanWatcherRetire(s: State, t: Tid) { WatcherAt(s, t) && s.threads[t].wpc.Retiring? }

  function DoWatcherRetire(s: State, t: Tid): State
    requires CanWatcherRetire(s, t)
  {
    SetW(RemoveOwnHandle(s, t), t, Exiting)
  }

  predicate CanWatcherRollbackCheck(s: State, t: Tid) {
    && WatcherAt(s, t) && s.threads[t].wpc.Rollback? && !s.threads[t].wpc.unclaimed
    && s.threads[t].wpc.gen in s.core.handleTable
  }

  function DoWatcherRollbackCheck(s: State, t: Tid): State
    requires CanWatcherRollbackCheck(s, t)
  {
    var Rollback(p, g, _) := s.threads[t].wpc;
    SetW(s, t, if s.core.handleTable[g].detaching then Exiting else Rollback(p, g, true))
  }

  predicate CanWatcherRollbackClaim(s: State, t: Tid) {
    WatcherAt(s, t) && s.threads[t].wpc.Rollback? && s.threads[t].wpc.unclaimed
  }

  /** detachExactHandle: reservations are not consulted. */
  function DoWatcherRollbackClaim(s: State, t: Tid): State
    requires CanWatcherRollbackClaim(s, t)
  {
    var Rollback(p, g, _) := s.threads[t].wpc;
    var (c, target) := AcquireExactHandle(s.core, p, g, s.nextTid);
    var s1 := s.(core := c);
    match target
    case Some(OwnHandle(g1, x)) =>
      var s2 := SetW(s1, t, RollingBack(s.nextTid));
      Spawn(s2, DetachT(p, Clear(s2, p, g), Some(t), Owner(g, x, Claimed)))
    case Some(FollowAttempt(x)) => SetW(s1, t, Joining(x))
    case _ => SetW(s1, t, Exiting)
  }

  predicate CanWatcherJoined(s: State, t: Tid) {
    && WatcherAt(s, t) && s.threads[t].wpc.Joining?
    && s.threads[t].wpc.attempt in s.core.attemptTable
    && s.core.attemptTable[s.threads[t].wpc.attempt].result.Some?
  }

  function DoWatcherJoined(s: State, t: Tid): State
    requires CanWatcherJoined(s, t)
  {
    SetW(s, t, Exiting)
  }

  predicate CanWatcherClose(s: State, t: Tid) { WatcherAt(s, t) && s.threads[t].wpc.Exiting? }

  function DoWatcherClose(s: State, t: Tid): State
    requires CanWatcherClose(s, t)
  {
    SetW(s.(core := CloseWatcherDone(s.core, s.threads[t].gen)), t, WatcherLeaving)
  }

  predicate CanWatcherLeave(s: State, t: Tid) { WatcherAt(s, t) && s.threads[t].wpc.WatcherLeaving? }

  function DoWatcherLeave(s: State, t: Tid): State
    requires CanWatcherLeave(s, t)
  {
    SetW(s.(core := WgDone(s.core)), t, WatcherGone)
  }

  /** The ctx helper and the callback worker, enrolled by a running watcher. */
  predicate CanHelperStart(s: State, t: Tid) {
    WatcherAt(s, t) && (s.threads[t].wpc.Watching? || s.threads[t].wpc.Reconnecting?)
  }

  function DoHelperStart(s: State): State {
    s.(core := WgAdd(s.core), helpers := s.helpers + 1)
  }

  predicate CanHelperLeave(s: State) { s.helpers > 0 }

  function DoHelperLeave(s: State): State
    requires CanHelperLeave(s)
  {
    s.(core := WgDone(s.core), helpers := s.helpers - 1)
  }

  // --- Close and the environment -------------------------------------------

  function DoCloseBegin(s: State): State { s.(core := CloseImporter(s.core)) }

  predicate CanCloseSweep(s: State) { s.core.closed }

  function DoCloseSweep(s: State, g: Gen): State { s.(core := CancelHandle(s.core, g)) }

  predicate CanCloseCapture(s: State) { s.core.closed && s.drain.None? }

  function DoCloseCapture(s: State): State {
    var (g, c) := Capture(s.core.wg);
    s.(core := s.core.(wg := g), drain := Some(c))
  }

  /** The peer disappears and the kernel frees the port by itself. */
  function DoKernelDrop(s: State, p: Port): State { s.(live := s.live - {p}) }

  // --- Steps and runs ------------------------------------------------------

  predicate AttachEnabled(s: State, step: AttachStep) {
    match step
    case AttachStart(_, _) => true
    case AttachGiveUp(t) => CanAttachGiveUp(s, t)
    case AttachSelect(t, p) => CanAttachSelect(s, t, p)
    case AttachKernel(t, _) => CanAttachKernel(s, t)
    case AttachAbort(t) => CanAttachAbort(s, t)
    case AttachRegister(t) => CanAttachRegister(s, t)
    case AttachComplete(t) => CanAttachComplete(s, t)
    case AttachLostRelease(t, o) => CanAttachLostRelease(s, t, o)
    case AttachLaunch(t) => CanAttachLaunch(s, t)
    case AttachRelease(t) => CanAttachRelease(s, t)
    case AttachLeave(t) => CanAttachLeave(s, t)
  }

  /** A step that is not enabled changes nothing; so for the other kinds. */
  function AttachApply(s: State, step: AttachStep): State {
    if !AttachEnabled(s, step) then s
    else
      match step
      case AttachStart(key, auto) => DoAttachStart(s, key, auto)
      case AttachGiveUp(t) => DoAttachGiveUp(s, t)
      case AttachSelect(t, p) => DoAttachSelect(s, t, p)
      case AttachKernel(t, ok) => DoAttachKernel(s, t, ok)
      case AttachAbort(t) => DoAttachAbort(s, t)
      case AttachRegister(t) => DoAttachRegister(s, t)
      case AttachComplete(t) => DoAttachComplete(s, t)
      case AttachLostRelease(t, o) => DoAttachLostRelease(s, t, o)
      case AttachLaunch(t) => DoAttachLaunch(s, t)
      case AttachRelease(t) => DoAttachRelease(s, t)
      case AttachLeave(t) => DoAttachLeave(s, t)
  }

  predicate DetachEnabled(s: State, step: DetachStep) {
    match step
    case DetachStart(_) => true
    case DetachLook(t) => CanDetachLook(s, t)
    case DetachPublication(t) => CanDetachPublication(s, t)
    case DetachGiveUp(t) => CanDetachGiveUp(s, t)
    case DetachFollow(t) => CanDetachFollow(s, t)
    case PortKernel(t, o) => CanPortKernel(s, t, o)
    case PortFinish(t) => CanPortFinish(s, t)
    case OwnerCancel(t) => CanOwnerCancel(s, t)
    case OwnerCheck(t, timedOut) => CanOwnerCheck(s, t, timedOut)
    case OwnerKernel(t, o) => CanOwnerKernel(s, t, o)
    case OwnerRemove(t) => CanOwnerRemove(s, t)
    case OwnerFinish(t) => CanOwnerFinish(s, t)
    case OwnerLeave(t) => CanOwnerLeave(s, t)
  }

  function DetachApply(s: State, step: DetachStep): State {
    if !DetachEnabled(s, step) then s
    else
      match step
      case DetachStart(p) => DoDetachStart(s, p)
      case DetachLook(t) => DoDetachLook(s, t)
      case DetachPublication(t) => DoDetachPublication(s, t)
      case DetachGiveUp(t) => DoDetachGiveUp(s, t)
      case DetachFollow(t) => DoDetachFollow(s, t)
      case PortKernel(t, o) => DoPortKernel(s, t, o)
      case PortFinish(t) => DoPortFinish(s, t)
      case OwnerCancel(t) => DoOwnerCancel(s, t)
      case OwnerCheck(t, timedOut) => DoOwnerCheck(s, t, timedOut)
      case OwnerKernel(t, o) => DoOwnerKernel(s, t, o)
      case OwnerRemove(t) => DoOwnerRemove(s, t)
      case OwnerFinish(t) => DoOwnerFinish(s, t)
      case OwnerLeave(t) => DoOwnerLeave(s, t)
  }

  predicate WatcherEnabled(s: State, step: WatcherStep) {
    match step
    case WatcherDetect(t) => CanWatcherDetect(s, t)
    case WatcherAttempt(t) => CanWatcherAttempt(s, t)
    case WatcherExhausted(t) => CanWatcherExhausted(s, t)
    case WatcherCancelled(t) => CanWatcherCancelled(s, t)
    case WatcherSucceeded(t) => CanWatcherSucceeded(s, t)
    case WatcherRetire(t) => CanWatcherRetire(s, t)
    case WatcherRollbackCheck(t) => CanWatcherRollbackCheck(s, t)
    case WatcherRollbackClaim(t) => CanWatcherRollbackClaim(s, t)
    case WatcherJoined(t) => CanWatcherJoined(s, t)
    case WatcherClose(t) => CanWatcherClose(s, t)
    case WatcherLeave(t) => CanWatcherLeave(s, t)
    case HelperStart(t) => CanHelperStart(s, t)
    case HelperLeave => CanHelperLeave(s)
  }

  function WatcherApply(s: State, step: WatcherStep): State {
    if !WatcherEnabled(s, step) then s
    else
      match step
      case WatcherDetect(t) => DoWatcherDetect(s, t)
      case WatcherAttempt(t) => DoWatcherAttempt(s, t)
      case WatcherExhausted(t) => DoWatcherExhausted(s, t)
      case WatcherCancelled(t) => DoWatcherCancelled(s, t)
      case WatcherSucceeded(t) => DoWatcherSucceeded(s, t)
      case WatcherRetire(t) => DoWatcherRetire(s, t)
      case WatcherRollbackCheck(t) => DoWatcherRollbackCheck(s, t)
      case WatcherRollbackClaim(t) => DoWatcherRollbackClaim(s, t)
      case WatcherJoined(t) => DoWatcherJoined(s, t)
      case WatcherClose(t) => DoWatcherClose(s, t)
      case WatcherLeave(t) => DoWatcherLeave(s, t)
      case HelperStart(_) => DoHelperStart(s)
      case HelperLeave => DoHelperLeave(s)
  }

  predicate WorldEnabled(s: State, step: WorldStep) {
    match step
    case CloseBegin => true
    case CloseSweep(_) => CanCloseSweep(s)
    case CloseCapture => CanCloseCapture(s)
    case KernelDrop(_) => true
  }

  function WorldApply(s: State, step: WorldStep): State {
    if !WorldEnabled(s, step) then s
    else
      match step
      case CloseBegin => DoCloseBegin(s)
      case CloseSweep(g) => DoCloseSweep(s, g)
      case CloseCapture => DoCloseCapture(s)
      case KernelDrop(p) => DoKernelDrop(s, p)
  }

  predicate Enabled(s: State, step: Step) {
    match step
    case ByAttach(a) => AttachEnabled(s, a)
    case ByDetach(a) => DetachEnabled(s, a)
    case ByWatcher(a) => WatcherEnabled(s, a)
    case ByWorld(a) => WorldEnabled(s, a)
  }

  function Apply(s: State, step: Step): State {
    match step
    case ByAttach(a) => AttachApply(s, a)
    case ByDetach(a) => DetachApply(s, a)
    case ByWatcher(a) => WatcherApply(s, a)
    case ByWorld(a) => WorldApply(s, a)
  }

  /** Step `k` is enabled and leads from state `k` to the next. */
  ghost predicate StepTaken(states: seq<State>, steps: seq<Step>, k: nat) {
    && k < |steps| && |states| == |steps| + 1
    && Enabled(states[k], steps[k]) && states[k + 1] == Apply(states[k], steps[k])
  }

  ghost predicate Trace(states: seq<State>, steps: seq<Step>) {
    |states| == |steps| + 1 && forall k: nat :: k < |steps| ==> StepTaken(states, steps, k)
  }

  /** `after` is where some run of `steps` from `s` ends. */
  ghost predicate Run(s: State, steps: seq<Step>, after: State) {
    exists states :: Trace(states, steps) && states[0] == s && states[|steps|] == after
  }

  lemma RunNowhere(s: State)
    ensures Run(s, [], s)
  {
    assert Trace([s], []);
  }

  lemma RunStays(s: State, after: State)
    requires Run(s, [], after)
    ensures after == s
  {
  }

  /** A run takes its first step and goes on from there. */
  lemma RunFirst(s: State, steps: seq<Step>, after: State)
    requires steps != [] && Run(s, steps, after)
    ensures Enabled(s, steps[0]) && Run(Apply(s, steps[0]), steps[1..], after)
  {
    var states :| Trace(states, steps) && states[0] == s && states[|steps|] == after;
    assert StepTaken(states, steps, 0);
    var rest, more := states[1..], steps[1..];
    forall k: nat | k < |more|
      ensures StepTaken(rest, more, k)
    {
      assert StepTaken(states, steps, k + 1);
    }
    assert Trace(rest, more);
  }

  /** A run may go on with any enabled step. */
  lemma RunThen(s: State, steps: seq<Step>, mid: State, step: Step)
    requires Run(s, steps, mid) && Enabled(mid, step)
    ensures Run(s, steps + [step], Apply(mid, step))
  {
    var states :| Trace(states, steps) && states[0] == s && states[|steps|] == mid;
    var longer, more := states + [Apply(mid, step)], steps + [step];
    forall k: nat | k < |more|
      ensures StepTaken(longer, more, k)
    {
      if k < |steps| { assert StepTaken(states, steps, k); }
    }
    assert Trace(longer, more);
  }
}
