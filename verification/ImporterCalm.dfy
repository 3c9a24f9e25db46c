/**
 * Steps that leave the maps of a given port alone.
 */
module ImporterCalm {
  import opened LifecycleGroup
  import opened ImporterCore
  import opened ImporterProtocol

  predicate SameAt<V(==)>(a: map<Port, V>, b: map<Port, V>, p: Port) {
    (p in a <==> p in b) && (p in a ==> a[p] == b[p])
  }

  predicate PortSame(s: State, s': State, p: Port) {
    && SameAt(s.core.handles, s'.core.handles, p) && SameAt(s.core.reservations, s'.core.reservations, p)
    && SameAt(s.live, s'.live, p) && s'.core.closed == s.core.closed
  }

  predicate CalmAttach(s: State, step: AttachStep, p: Port) {
    match step
    case AttachStart(_, _) => false
    case AttachSelect(_, _) => false
    case AttachKernel(_, accepted) => !accepted
    case AttachAbort(t) => AttachAt(s, t) && s.threads[t].apc.Handing? && s.threads[t].apc.port != p
    case AttachRegister(t) => AttachAt(s, t) && s.threads[t].apc.Handing? && s.threads[t].apc.port != p
    case AttachLostRelease(_, o) => o == Failed
    case _ => true
  }

  predicate CalmDetach(s: State, step: DetachStep, p: Port) {
    match step
    case PortKernel(_, o) => o == Failed
    case PortFinish(_) => true
    case OwnerCancel(_) => true
    case OwnerCheck(_, _) => true
    case OwnerKernel(_, o) => o == Failed
    case OwnerRemove(t) => OwnerAt(s, t) && !IsCurrent(s.core, p, s.threads[t].dpc.gen)
    case OwnerFinish(_) => true
    case OwnerLeave(_) => true
    case _ => false
  }

  predicate CalmWatcher(step: WatcherStep) {
    || step.WatcherCancelled? || step.WatcherSucceeded? || step.WatcherRollbackCheck? || step.WatcherRollbackClaim?
    || step.WatcherJoined? || step.WatcherClose?
  }

  /** The step leaves the maps of port `p` alone. */
  predicate Calm(s: State, step: Step, p: Port) {
    match step
    case ByAttach(a) => CalmAttach(s, a, p)
    case ByDetach(a) => CalmDetach(s, a, p)
    case ByWatcher(a) => CalmWatcher(a)
    case ByWorld(_) => false
  }

  lemma RegisterAside(c: Core, q: Port, op: Tid, auto: bool, u: Tid, p: Port)
    requires q != p
    ensures
      var c' := RegisterHandle(c, q, op, auto, u).0;
      SameAt(c.handles, c'.handles, p) && SameAt(c.reservations, c'.reservations, p) && c'.closed == c.closed
  {
  }

  lemma RegisterCalm(s: State, t: Tid, p: Port)
    requires CanAttachRegister(s, t) && s.threads[t].apc.port != p
    ensures PortSame(s, DoAttachRegister(s, t), p)
  {
    RegisterAside(s.core, s.threads[t].apc.port, t, s.threads[t].auto, s.nextTid, p);
  }

  lemma LaunchCalm(s: State, t: Tid, p: Port)
    requires CanAttachLaunch(s, t)
    ensures PortSame(s, DoAttachLaunch(s, t), p)
  {
    var c := StartWatcher(s.core, s.threads[t].apc.gen, s.nextTid);
    assert c.handles == s.core.handles && c.reservations == s.core.reservations && c.closed == s.core.closed;
    assert DoAttachLaunch(s, t).core == c || DoAttachLaunch(s, t).core == s.core;
  }

  /** None of the maps of any port changes. */
  predicate MapsSame(s: State, s': State) {
    && s'.core.handles == s.core.handles && s'.core.reservations == s.core.reservations
    && s'.live == s.live && s'.core.closed == s.core.closed
  }

  lemma AbortCalm(s: State, t: Tid, p: Port)
    requires CanAttachAbort(s, t) && s.threads[t].apc.port != p
    ensures PortSame(s, DoAttachAbort(s, t), p)
  {
  }

  lemma AttachMapsSame(s: State, step: AttachStep, p: Port)
    requires AttachEnabled(s, step) && CalmAttach(s, step, p) && !step.AttachRegister? && !step.AttachAbort?
    requires !step.AttachLaunch?
    ensures MapsSame(s, AttachApply(s, step))
  {
    match step
    case AttachGiveUp(t) => assert MapsSame(s, DoAttachGiveUp(s, t));
    case AttachKernel(t, _) => assert MapsSame(s, DoAttachKernel(s, t, false));
    case AttachComplete(t) => assert MapsSame(s, DoAttachComplete(s, t));
    case AttachLostRelease(t, _) => assert MapsSame(s, DoAttachLostRelease(s, t, Failed));
    case AttachRelease(t) => assert MapsSame(s, DoAttachRelease(s, t));
    case AttachLeave(t) => assert MapsSame(s, DoAttachLeave(s, t));
  }

  lemma AttachIsCalm(s: State, step: AttachStep, p: Port)
    requires AttachEnabled(s, step) && CalmAttach(s, step, p)
    ensures PortSame(s, AttachApply(s, step), p)
  {
    match step
    case AttachRegister(t) => RegisterCalm(s, t, p);
    case AttachLaunch(t) => LaunchCalm(s, t, p);
    case AttachAbort(t) => AbortCalm(s, t, p);
    case _ => AttachMapsSame(s, step, p);
  }

  lemma FinishMaps(c: Core, g: Gen, x: AttemptId, o: Outcome)
    ensures
      var c' := FinishDetachAttempt(c, g, x, o);
      c'.handles == c.handles && c'.reservations == c.reservations && c'.closed == c.closed
  {
    var c1 := FinishAttempt(c, x, o);
    ResultMaps(c, x, o);
    assert FinishDetachAttempt(c, g, x, o).handles == c1.handles;
  }

  lemma ResultMaps(c: Core, x: AttemptId, o: Outcome)
    ensures
      var c' := FinishAttempt(c, x, o);
      c'.handles == c.handles && c'.reservations == c.reservations && c'.closed == c.closed
  {
  }

  lemma OwnerFinishCalm(s: State, t: Tid)
    requires CanOwnerFinish(s, t)
    ensures MapsSame(s, DoOwnerFinish(s, t))
  {
    var Owner(g, x, Finishing(o)) := s.threads[t].dpc;
    FinishMaps(s.core, g, x, o);
  }

  lemma RemoveCalm(s: State, t: Tid, p: Port)
    requires CanOwnerRemove(s, t) && !IsCurrent(s.core, p, s.threads[t].dpc.gen)
    ensures PortSame(s, DoOwnerRemove(s, t), p)
  {
  }

  lemma DetachMapsSame(s: State, step: DetachStep, p: Port)
    requires DetachEnabled(s, step) && CalmDetach(s, step, p) && !step.OwnerRemove? && !step.OwnerFinish?
    ensures MapsSame(s, DetachApply(s, step))
  {
    match step
    case PortKernel(t, _) => assert MapsSame(s, DoPortKernel(s, t, Failed));
    case PortFinish(t) => assert MapsSame(s, DoPortFinish(s, t));
    case OwnerCancel(t) => assert MapsSame(s, DoOwnerCancel(s, t));
    case OwnerCheck(t, timedOut) => assert MapsSame(s, DoOwnerCheck(s, t, timedOut));
    case OwnerKernel(t, _) => assert MapsSame(s, DoOwnerKernel(s, t, Failed));
    case OwnerLeave(t) => assert MapsSame(s, DoOwnerLeave(s, t));
  }

  lemma DetachIsCalm(s: State, step: DetachStep, p: Port)
    requires DetachEnabled(s, step) && CalmDetach(s, step, p)
    ensures PortSame(s, DetachApply(s, step), p)
  {
    match step
    case OwnerRemove(t) => RemoveCalm(s, t, p);
    case OwnerFinish(t) => OwnerFinishCalm(s, t);
    case _ => DetachMapsSame(s, step, p);
  }

  lemma ClaimCalm(s: State, t: Tid)
    requires CanWatcherRollbackClaim(s, t)
    ensures MapsSame(s, DoWatcherRollbackClaim(s, t))
  {
  }

  lemma WatcherIsCalm(s: State, step: WatcherStep)
    requires WatcherEnabled(s, step) && CalmWatcher(step)
    ensures MapsSame(s, WatcherApply(s, step))
  {
    match step
    case WatcherRollbackClaim(t) => ClaimCalm(s, t);
    case _ =>
  }

  lemma CalmIsSame(s: State, step: Step, p: Port)
    requires Enabled(s, step) && Calm(s, step, p)
    ensures PortSame(s, Apply(s, step), p)
  {
    match step
    case ByAttach(a) => AttachIsCalm(s, a, p);
    case ByDetach(a) => DetachIsCalm(s, a, p);
    case ByWatcher(a) => WatcherIsCalm(s, a);
    case ByWorld(_) =>
  }
}
