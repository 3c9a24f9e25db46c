/**
 * What a step can add to a port: only an attach ever reserves it, makes a
 * socket live there or publishes a handle for it.
 */
module ImporterGains {
  import opened LifecycleGroup
  import opened ImporterCore
  import opened ImporterProtocol
  import opened ImporterCalm

  /** Neither a handle nor a reservation nor a socket appears or changes. */
  predicate Loses(s: State, s': State, p: Port) {
    && (p in s'.core.handles ==> p in s.core.handles && s'.core.handles[p] == s.core.handles[p])
    && (p in s'.core.reservations ==>
          p in s.core.reservations && s'.core.reservations[p] == s.core.reservations[p])
    && (p in s'.live ==> p in s.live && s'.live[p] == s.live[p])
    && (s.core.closed ==> s'.core.closed)
  }

  /** Handles come only by publication, sockets only by an accepted handoff,
      reservations only before Close. */
  predicate Gains(s: State, s': State, step: Step, p: Port) {
    && (p in s'.core.handles ==>
          || (p in s.core.handles && s'.core.handles[p] == s.core.handles[p])
          || s'.core.handles[p] == s.core.nextGen + 1)
    && (p in s'.live && p !in s.live ==>
          && step.ByAttach? && step.stepAttach.AttachKernel?
          && CanAttachKernel(s, step.stepAttach.t) && s.threads[step.stepAttach.t].apc.port == p)
    && (p in s'.core.reservations && p !in s.core.reservations ==> !s.core.closed)
    && (s.core.closed ==> s'.core.closed)
  }

  lemma RegisterGains(s: State, t: Tid, p: Port)
    requires CanAttachRegister(s, t)
    ensures Gains(s, DoAttachRegister(s, t), ByAttach(AttachRegister(t)), p)
  {
    RegisterGainsCore(s.core, s.threads[t].apc.port, t, s.threads[t].auto, s.nextTid, p);
  }

  lemma RegisterGainsCore(c: Core, q: Port, op: Tid, auto: bool, u: Tid, p: Port)
    ensures
      var c' := RegisterHandle(c, q, op, auto, u).0;
      && (p in c'.handles ==> (p in c.handles && c'.handles[p] == c.handles[p]) || c'.handles[p] == c.nextGen + 1)
      && (p in c'.reservations ==> p in c.reservations) && c'.closed == c.closed
  {
  }

  lemma LaunchLoses(s: State, t: Tid, p: Port)
    requires CanAttachLaunch(s, t)
    ensures Loses(s, DoAttachLaunch(s, t), p)
  {
    LaunchCalm(s, t, p);
  }

  /** The steps that can add something to a port. */
  predicate Opens(step: AttachStep) { step.AttachSelect? || step.AttachKernel? || step.AttachRegister? }

  lemma AttachLoses(s: State, step: AttachStep, p: Port)
    requires AttachEnabled(s, step) && !Opens(step)
    ensures Loses(s, AttachApply(s, step), p)
  {
    match step
    case AttachLaunch(t) => LaunchLoses(s, t, p);
    case AttachStart(key, auto) => assert MapsSame(s, DoAttachStart(s, key, auto));
    case AttachAbort(t) => AbortLoses(s, t, p);
    case AttachLostRelease(t, o) => ReleaseLoses(s, t, o, p);
    case _ => AttachMapsSame(s, step, p);
  }

  lemma AbortLoses(s: State, t: Tid, p: Port)
    requires CanAttachAbort(s, t)
    ensures Loses(s, DoAttachAbort(s, t), p)
  {
  }

  lemma ReleaseLoses(s: State, t: Tid, o: Outcome, p: Port)
    requires CanAttachLostRelease(s, t, o)
    ensures Loses(s, DoAttachLostRelease(s, t, o), p)
  {
  }

  lemma AttachGains(s: State, step: AttachStep, p: Port)
    requires AttachEnabled(s, step)
    ensures Gains(s, AttachApply(s, step), ByAttach(step), p)
  {
    match step
    case AttachRegister(t) => RegisterGains(s, t, p);
    case AttachSelect(t, q) => assert Gains(s, DoAttachSelect(s, t, q), ByAttach(step), p);
    case AttachKernel(t, ok) => assert Gains(s, DoAttachKernel(s, t, ok), ByAttach(step), p);
    case _ => AttachLoses(s, step, p);
  }

  lemma LookLoses(s: State, t: Tid, p: Port)
    requires CanDetachLook(s, t)
    ensures Loses(s, DoDetachLook(s, t), p)
  {
    TargetLoses(s.core, s.threads[t].port, t);
  }

  lemma TargetLoses(c: Core, p: Port, t: Tid)
    ensures
      var c' := AcquireDetachTarget(c, p, t).0;
      c'.handles == c.handles && c'.reservations == c.reservations && c'.closed == c.closed
  {
    if p in c.handles && c.handles[p] in c.handleTable { ClaimLoses(c, c.handles[p], t); }
  }

  lemma ClaimLoses(c: Core, g: Gen, u: Tid)
    requires g in c.handleTable
    ensures
      var c' := ClaimHandle(c, g, u).0;
      c'.handles == c.handles && c'.reservations == c.reservations && c'.closed == c.closed
  {
  }

  lemma OwnerFinishLoses(s: State, t: Tid, p: Port)
    requires CanOwnerFinish(s, t)
    ensures Loses(s, DoOwnerFinish(s, t), p)
  {
    var Owner(g, x, Finishing(o)) := s.threads[t].dpc;
    var c1 := FinishAttempt(s.core, x, o);
    assert c1.handles == s.core.handles && c1.reservations == s.core.reservations && c1.closed == s.core.closed;
  }

  lemma DetachLoses(s: State, step: DetachStep, p: Port)
    requires DetachEnabled(s, step)
    ensures Loses(s, DetachApply(s, step), p)
  {
    match step
    case DetachLook(t) => LookLoses(s, t, p);
    case OwnerFinish(t) => OwnerFinishLoses(s, t, p);
    case PortKernel(t, o) => assert Loses(s, DoPortKernel(s, t, o), p);
    case PortFinish(t) => assert Loses(s, DoPortFinish(s, t), p);
    case OwnerCancel(t) => assert Loses(s, DoOwnerCancel(s, t), p);
    case OwnerCheck(t, timedOut) => assert Loses(s, DoOwnerCheck(s, t, timedOut), p);
    case OwnerKernel(t, o) => assert Loses(s, DoOwnerKernel(s, t, o), p);
    case OwnerRemove(t) => assert Loses(s, DoOwnerRemove(s, t), p);
    case OwnerLeave(t) => assert Loses(s, DoOwnerLeave(s, t), p);
    case _ =>
  }

  lemma QuietWatcherLoses(s: State, step: WatcherStep)
    requires WatcherEnabled(s, step)
    requires step.WatcherDetect? || step.WatcherCancelled? || step.WatcherSucceeded? || step.WatcherRollbackCheck?
             || step.WatcherJoined?
    ensures MapsSame(s, WatcherApply(s, step))
  {
  }

  lemma WorldLoses(s: State, step: WorldStep, p: Port)
    requires WorldEnabled(s, step)
    ensures Loses(s, WorldApply(s, step), p)
  {
    match step
    case CloseSweep(g) => assert MapsSame(s, DoCloseSweep(s, g));
    case CloseCapture => assert MapsSame(s, DoCloseCapture(s));
    case CloseBegin => assert Loses(s, DoCloseBegin(s), p);
    case KernelDrop(q) => assert Loses(s, DoKernelDrop(s, q), p);
  }

  lemma WatcherLoses(s: State, step: WatcherStep, p: Port)
    requires WatcherEnabled(s, step)
    ensures Loses(s, WatcherApply(s, step), p)
  {
    match step
    case WatcherRollbackClaim(t) => ClaimCalm(s, t);
    case WatcherAttempt(t) => assert Loses(s, DoWatcherAttempt(s, t), p);
    case WatcherExhausted(t) => assert Loses(s, DoWatcherExhausted(s, t), p);
    case WatcherRetire(t) => assert Loses(s, DoWatcherRetire(s, t), p);
    case WatcherClose(t) => assert MapsSame(s, DoWatcherClose(s, t));
    case WatcherLeave(t) => assert MapsSame(s, DoWatcherLeave(s, t));
    case HelperStart(_) => assert MapsSame(s, DoHelperStart(s));
    case HelperLeave => assert MapsSame(s, DoHelperLeave(s));
    case _ => QuietWatcherLoses(s, step);
  }

  lemma StepGains(s: State, step: Step, p: Port)
    requires Enabled(s, step)
    ensures Gains(s, Apply(s, step), step, p)
  {
    match step
    case ByAttach(a) => AttachGains(s, a, p);
    case ByDetach(a) => DetachLoses(s, a, p);
    case ByWatcher(a) => WatcherLoses(s, a, p);
    case ByWorld(a) => WorldLoses(s, a, p);
  }
}
