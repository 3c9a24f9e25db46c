/**
 * What the exporter promises, over every interleaving of connection handlers,
 * Serve, any number of Shutdowns, their cleanup goroutines and the kernel.
 */
module ExporterTheorems {
  import opened Base
  import opened LifecycleGroup
  import opened ExporterRegistry
  import opened ExporterProtocol
  import opened ExporterInvariant
  import opened ExporterSteps
  import opened ExporterShutdownSteps
  import H = ExporterHandle

  // --- Exactly-once cleanup ------------------------------------------------

  /** Disconnect is issued at most once per session and only after its
      ExportOnConn succeeded, and no cleanup future is closed twice. */
  lemma DisconnectAtMostOnce(s: State, c: Sid)
    requires Reachable(s) && c in s.sess
    ensures s.sess[c].issued <= 1 && !s.sess[c].h.doubleClose
    ensures s.sess[c].issued == 1 ==> s.sess[c].h.phase.Succeeded? && s.sess[c].h.claimed
  {
    ReachableInv(s);
    assert SessOk(s.sess[c], s.reg.shutdown);
  }

  /** A Disconnect never tears down another session's export. */
  lemma DisconnectHitsOwnExport(s: State, c: Sid, a: Act)
    requires Reachable(s) && Enabled(s, OnSession(c, a)) && (a.OwnDisconnect? || a.SweptDisconnect?)
    ensures s.sess[c].issued == 0
    ensures s.sess[c].entry.bus in s.exported ==> s.exported[s.sess[c].entry.bus] == c
  {
    ReachableInv(s);
    assert SessOk(s.sess[c], s.reg.shutdown) && GuardOk(s, c);
  }

  /** What a session leaves behind once its handler is gone. */
  predicate Settled(x: Sess) {
    && x.h.claimed && (x.h.cleanup.None? <==> CleanerOwes(x))
    && (x.h.phase.Succeeded? ==> x.observed || x.issued == 1 || CleanerOwes(x))
    && (!x.h.phase.Succeeded? ==> x.issued == 0 && x.h.cleanup == Some(H.Clean))
  }

  lemma LeftIsSettled(x: Sess, shutdown: bool)
    requires SessOk(x, shutdown) && x.pc.Left? && EverRegistered(x)
    ensures Settled(x)
  {
    assert x.h.cleanup.Some? ==> x.h.cleanup.value.Clean? || x.h.cleanup.value.DisconnectError?;
  }

  /**
   * A handler that is gone left nothing behind: its future is closed or has
   * exactly one cleanup goroutine, and if the kernel ever took the socket,
   * either the peer's end was observed or there is exactly one Disconnect,
   * issued or claimed and about to be. Its `done` is closed.
   */
  lemma NoOrphanedExport(s: State, c: Sid)
    requires Reachable(s) && c in s.sess && s.sess[c].pc.Left? && EverRegistered(s.sess[c])
    ensures Settled(s.sess[c]) && s.sess[c].h.done
  {
    ReachableInv(s);
    LeftIsSettled(s.sess[c], s.reg.shutdown);
  }

  // --- Session accounting --------------------------------------------------

  /** Per-peer counters, caps and device exclusivity hold in every state. */
  lemma SessionsAreAccounted(s: State)
    requires Reachable(s)
    ensures Accounts(s.reg, s.cfg)
  {
    ReachableInv(s);
  }

  /** A success OP_REP_IMPORT is written, and a socket handed to the kernel,
      only for a registered session, and for one session per device. */
  lemma ReplyOnlyWhenRegistered(s: State, c: Sid, a: Act)
    requires Reachable(s) && Enabled(s, OnSession(c, a)) && (a.Reply? || a.KernelExport?)
    ensures c in s.reg.sessions && s.reg.sessions[c] == s.sess[c].entry
    ensures forall d :: d in s.reg.sessions && s.reg.sessions[d].bus == s.sess[c].entry.bus ==> d == c
  {
    ReachableInv(s);
    assert EntryOk(s, c);
  }

  // --- Shutdown misses no session ------------------------------------------

  /** After Shutdown every session ever registered was either unregistered
      before it or is in the retained set, and not both. */
  lemma ShutdownMissesNoSession(s: State, c: Sid)
    requires Reachable(s) && s.reg.shutdown && c in s.sess && EverRegistered(s.sess[c])
    ensures c in s.retired <==> c !in s.reg.retained
  {
    ReachableInv(s);
    assert KnownTo(s, c);
  }

  /** Somebody is at work on the cleanup: the handler is in the kernel or
      disconnects, or a started goroutine does. */
  predicate InHand(x: Sess) {
    || x.pc.InKernel? || x.pc.Disconnecting? || x.pc.Reported?
    || x.cleaner.Due? || x.cleaner.CleanerReported?
  }

  /** When the sweep is over every retained session has been cancelled, and
      each future is closed or somebody is at work on it. */
  lemma SweepReachesEverySession(s: State, j: nat)
    requires Reachable(s) && s.sweep == AtSignal(|s.reg.retained|) && j < |s.reg.retained|
    ensures
      && s.reg.retained[j] in s.sess
      && var x := s.sess[s.reg.retained[j]];
         x.h.cancelled && x.h.done && (x.h.cleanup.Some? || InHand(x))
  {
    ReachableInv(s);
    assert SweptOk(s, j);
    CancelledIsDecided(s.sess[s.reg.retained[j]], s.reg.shutdown);
  }

  lemma CancelledIsDecided(x: Sess, shutdown: bool)
    requires SessOk(x, shutdown) && x.h.cancelled
    ensures x.h.cleanup.Some? || Owed(x) || x.pc.InKernel?
  {
  }

  // --- What never changes back ---------------------------------------------

  /** Cleanup results and Disconnect counts along a run. */
  predicate RecordKept(x: Sess, y: Sess) {
    && (x.h.cleanup.Some? ==> y.h.cleanup == x.h.cleanup) && x.issued <= y.issued
    && (EverRegistered(x) ==> EverRegistered(y) && y.entry == x.entry)
  }

  ghost predicate Kept(s: State, s': State) {
    && s'.cfg == s.cfg
    && (s.reg.shutdown ==> s'.reg.shutdown && s'.reg.retained == s.reg.retained && s'.retired == s.retired)
    && (forall c :: c in s.sess ==> c in s'.sess && RecordKept(s.sess[c], s'.sess[c]))
    && (s.reg.shutdown ==> forall c :: c in s'.sess && EverRegistered(s'.sess[c]) ==>
          c in s.sess && EverRegistered(s.sess[c]))
  }

  lemma ActRecordKept(x: Sess, a: Act, shutdown: bool)
    requires SessOk(x, shutdown) && CanAct(x, a) && VisitOk(x, a, shutdown)
    ensures RecordKept(x, DoAct(x, a)) && EverRegistered(DoAct(x, a)) == EverRegistered(x)
  {
  }

  lemma KeptAct(s: State, c: Sid, a: Act)
    requires Sessions(s) && Retention(s) && Enabled(s, OnSession(c, a))
    ensures Kept(s, Apply(s, OnSession(c, a)))
  {
    VisitIsOk(s, c, a);
    ActRecordKept(s.sess[c], a, s.reg.shutdown);
    ActEdits(s, c, a);
  }

  lemma KeptSame(s: State, s': State)
    requires s'.cfg == s.cfg && s'.sess == s.sess && s'.retired == s.retired
    requires s'.reg.retained == s.reg.retained && s'.reg.shutdown == s.reg.shutdown
    ensures Kept(s, s')
  {
  }

  lemma ServeLimits(s: State, t: Tid, a: ServeAct)
    ensures DoServe(s, t, a).cfg == s.cfg
  {
  }

  lemma KeptServe(s: State, t: Tid, a: ServeAct)
    ensures Kept(s, DoServe(s, t, a))
  {
    ServeSweep(s, t, a);
    ServeLimits(s, t, a);
    KeptSame(s, DoServe(s, t, a));
  }

  lemma KeptRest(s: State, step: Step)
    requires Enabled(s, step)
    requires step.ServeStart? || step.KernelDrop? || step.CloseDoomed? || step.CaptureDrain?
    ensures Kept(s, Apply(s, step))
  {
    KeptSame(s, Apply(s, step));
  }

  lemma KeptCapture(s: State, order: seq<Sid>)
    ensures Kept(s, DoCapture(s, order))
  {
  }

  lemma KeptStep(s: State, step: Step)
    requires Inv(s) && Enabled(s, step)
    ensures Kept(s, Apply(s, step))
  {
    match step
    case OnSession(c, a) => KeptAct(s, c, a);
    case OnServe(t, a) => KeptServe(s, t, a);
    case Register(c) => KeptRegister(s, c);
    case Unregister(c) => KeptUnregister(s, c);
    case Accept(_) => KeptAccept(s);
    case ShutdownCapture(order) => KeptCapture(s, order);
    case _ => KeptRest(s, step);
  }

  lemma KeptRegister(s: State, c: Sid)
    requires Sessions(s) && Enabled(s, Register(c))
    ensures Kept(s, DoRegister(s, c))
  {
    assert SessOk(s.sess[c], s.reg.shutdown);
  }

  lemma KeptUnregister(s: State, c: Sid)
    requires Sessions(s) && Enabled(s, Unregister(c))
    ensures Kept(s, DoUnregister(s, c))
  {
    assert SessOk(s.sess[c], s.reg.shutdown);
  }

  lemma KeptAccept(s: State)
    requires Ids(s)
    ensures Kept(s, DoAccept(s))
  {
    assert s.nextId !in s.sess;
  }

  lemma KeptOn(s: State, m: State, e: State)
    requires Kept(s, m) && Kept(m, e)
    ensures Kept(s, e)
  {
    forall c | c in s.sess
      ensures c in e.sess && RecordKept(s.sess[c], e.sess[c])
    {
      assert RecordKept(s.sess[c], m.sess[c]) && RecordKept(m.sess[c], e.sess[c]);
    }
  }

  lemma {:induction false} KeptRun(s: State, steps: seq<Step>, after: State)
    requires Inv(s) && Run(s, steps, after)
    ensures Kept(s, after)
    decreases |steps|
  {
    if steps != [] {
      var next := Apply(s, steps[0]);
      KeptStep(s, steps[0]);
      InvStep(s, steps[0]);
      KeptRun(next, steps[1..], after);
      KeptOn(s, next, after);
    }
  }

  /**
   * However many Shutdowns run, concurrently or later, they all read the same
   * retained sessions and the same results: a closed future never changes,
   * nothing joins the retained set, and the number of Disconnects of a session
   * whose future is closed never grows.
   */
  lemma ShutdownResultsAreImmutable(s: State, steps: seq<Step>, after: State, c: Sid)
    requires Reachable(s) && Run(s, steps, after) && s.reg.shutdown
    requires c in s.reg.retained && c in s.sess && s.sess[c].h.cleanup.Some?
    ensures after.reg.shutdown && after.reg.retained == s.reg.retained
    ensures c in after.sess && after.sess[c].h.cleanup == s.sess[c].h.cleanup
    ensures after.sess[c].issued == s.sess[c].issued
  {
    ReachableInv(s);
    InvRun(s, steps, after);
    KeptRun(s, steps, after);
    NoLateDisconnect(s, steps, after, c);
  }

  /** A session whose future is closed is never disconnected again. */
  lemma {:induction false} NoLateDisconnect(s: State, steps: seq<Step>, after: State, c: Sid)
    requires Inv(s) && Run(s, steps, after) && c in s.sess && s.sess[c].h.cleanup.Some?
    ensures c in after.sess && after.sess[c].issued == s.sess[c].issued
    decreases |steps|
  {
    if steps != [] {
      var next := Apply(s, steps[0]);
      InvStep(s, steps[0]);
      KeptStep(s, steps[0]);
      IssueStep(s, steps[0], c);
      NoLateDisconnect(next, steps[1..], after, c);
    }
  }

  lemma IssueAct(x: Sess, a: Act, shutdown: bool)
    requires SessOk(x, shutdown) && CanAct(x, a) && x.h.cleanup.Some?
    ensures DoAct(x, a).issued == x.issued
  {
  }

  lemma IssueStep(s: State, step: Step, c: Sid)
    requires Sessions(s) && Ids(s) && Enabled(s, step) && c in s.sess && s.sess[c].h.cleanup.Some?
    ensures c in Apply(s, step).sess && Apply(s, step).sess[c].issued == s.sess[c].issued
  {
    match step
    case OnSession(d, a) =>
      ActEdits(s, d, a);
      if d == c { IssueAct(s.sess[c], a, s.reg.shutdown); }
    case OnServe(t, a) => ServeAside(s, t, a);
    case _ =>
  }

  // --- Serve and Shutdown race ---------------------------------------------

  /** At most one Serve holds the accept-loop reservation. */
  lemma OneAcceptLoop(s: State, t: Tid, u: Tid)
    requires Reachable(s) && t in s.serves && u in s.serves
    requires !s.serves[t].Stopped? && !s.serves[u].Stopped?
    ensures t == u && s.reg.serving
  {
    ReachableInv(s);
    assert ServeOk(s, t) && ServeOk(s, u);
  }

  /** The accept loop of `t` cannot run any more. */
  predicate LoopIsOver(pc: ServePc) { !pc.Reserved? && !pc.Made? && !pc.Accepting? }

  /**
   * acceptLoopExited is closed at most once, never while the accept loop may
   * still run, and exactly once when Serve has made its explicit signal and
   * also after the deferred one, whichever of the two came first.
   */
  lemma LoopExitIsSignalledOnce(s: State, t: Tid)
    requires Reachable(s) && t in s.serves
    ensures t in s.exits && s.exits[t] <= 1
    ensures s.exits[t] == 1 ==> LoopIsOver(s.serves[t])
    ensures s.serves[t].Waiting? || s.serves[t].Stopping? || s.serves[t].Stopped? ==> s.exits[t] == 1
    ensures s.serves[t].LoopOver? ==> DoServe(s, t, SignalExit).exits[t] == 1
    ensures s.serves[t].Deferring? ==> DoServe(s, t, DeferredSignal).exits[t] == 1
  {
    ReachableInv(s);
    assert ServeOk(s, t);
  }

  /** A listener still being served when Shutdown wins is captured by it, and
      closed once Shutdown has closed what it captured. */
  lemma ServedListenerIsClosed(s: State, t: Tid)
    requires Reachable(s) && s.reg.shutdown && t in s.serves && s.serves[t].Accepting?
    ensures t in s.open ==> s.doomed == Some(t)
    ensures s.doomed.None? ==> t !in s.open
  {
    ReachableInv(s);
    assert ServeOk(s, t);
  }

  /** A Serve that had no listener installed when Shutdown won. */
  predicate Late(s: State, t: Tid) {
    && t in s.serves && s.reg.shutdown
    && (|| s.serves[t].Reserved? || s.serves[t].Made? || s.serves[t].Rejecting?
        || (!s.serves[t].Accepting? && t !in s.open))
  }

  lemma LateServe(s: State, u: Tid, a: ServeAct, t: Tid)
    requires Serves(s) && Late(s, t) && u in s.serves && CanServe(s.serves[u], a)
    ensures Late(DoServe(s, u, a), t)
  {
    assert ServeOk(s, t);
  }

  lemma LateStep(s: State, step: Step, t: Tid)
    requires Serves(s) && Ids(s) && Late(s, t) && Enabled(s, step)
    ensures Late(Apply(s, step), t)
  {
    match step
    case OnServe(u, a) => LateServe(s, u, a, t);
    case OnSession(c, a) => ActEdits(s, c, a);
    case _ =>
  }

  lemma {:induction false} LateRun(s: State, steps: seq<Step>, after: State, t: Tid)
    requires Inv(s) && Run(s, steps, after) && Late(s, t)
    ensures Late(after, t)
    decreases |steps|
  {
    if steps != [] {
      LateStep(s, steps[0], t);
      InvStep(s, steps[0]);
      LateRun(Apply(s, steps[0]), steps[1..], after, t);
    }
  }

  /** A listener produced after Shutdown is never served: when its Serve is
      over, that Serve has closed it. */
  lemma LateListenerIsRejected(s: State, steps: seq<Step>, after: State, t: Tid)
    requires Reachable(s) && Run(s, steps, after) && s.reg.shutdown
    requires t in s.serves && (s.serves[t].Reserved? || s.serves[t].Made?)
    ensures t in after.serves && !after.serves[t].Accepting?
    ensures after.serves[t].Stopped? ==> t !in after.open
  {
    ReachableInv(s);
    LateRun(s, steps, after, t);
  }

  // --- Drain finality ------------------------------------------------------

  /** Shutdown has begun, the accept loop has exited, and no handler or
      handshake timer is left. */
  ghost predicate Drained(s: State) {
    && s.reg.shutdown && AcceptLoopDone(s)
    && forall c :: c in s.sess ==> s.sess[c].pc.Left? && !s.sess[c].timer.Running?
  }

  lemma DrainedIsZero(s: State)
    requires Counts(s) && s.reg.shutdown && AcceptLoopDone(s)
    ensures Drained(s) <==> s.wg.count == 0
  {
    if s.wg.count == 0 {
      forall c | c in s.sess
        ensures s.sess[c].pc.Left? && !s.sess[c].timer.Running?
      {
        assert c !in Handlers(s) && c !in Timers(s);
      }
    }
    if Drained(s) { assert Handlers(s) == {} && Timers(s) == {}; }
  }

  /** The channel Shutdown waits on is closed exactly when every handler and
      every handshake timer has finished. */
  lemma DrainChannelMeansDone(s: State)
    requires Reachable(s) && s.drain.Some?
    ensures s.drain.value in s.wg.closed <==> Drained(s)
  {
    ReachableInv(s);
    DrainedIsZero(s);
  }

  lemma DrainedAct(s: State, c: Sid, a: Act)
    requires Drained(s) && Enabled(s, OnSession(c, a))
    ensures Drained(Apply(s, OnSession(c, a))) && Apply(s, OnSession(c, a)).wg == s.wg
  {
    ActEdits(s, c, a);
    QuietGroup(s, c, a);
  }

  lemma DrainedServe(s: State, t: Tid, a: ServeAct)
    requires Drained(s) && t in s.serves && CanServe(s.serves[t], a)
    ensures Drained(DoServe(s, t, a)) && DoServe(s, t, a).wg == s.wg
  {
    ServeGroup(s, t, a);
  }

  lemma DrainedStep(s: State, step: Step)
    requires Serves(s) && Drained(s) && Enabled(s, step)
    ensures Drained(Apply(s, step)) && Apply(s, step).wg.count == s.wg.count
  {
    match step
    case OnSession(c, a) => DrainedAct(s, c, a);
    case OnServe(t, a) => DrainedServe(s, t, a);
    case Accept(t) => NobodyAccepts(s, t); assert false;
    case _ =>
  }

  lemma {:induction false} DrainedRun(s: State, steps: seq<Step>, after: State)
    requires Inv(s) && Drained(s) && Run(s, steps, after)
    ensures Drained(after) && after.wg.count == s.wg.count
    decreases |steps|
  {
    if steps != [] {
      DrainedStep(s, steps[0]);
      InvStep(s, steps[0]);
      DrainedRun(Apply(s, steps[0]), steps[1..], after);
    }
  }

  /** Drain finality: once Shutdown has run, the accept loop has exited and the
      counter is zero, it is zero in every later state of every run. */
  lemma DrainIsFinal(s: State, steps: seq<Step>, after: State)
    requires Reachable(s) && s.reg.shutdown && AcceptLoopDone(s) && s.wg.count == 0 && Run(s, steps, after)
    ensures after.wg.count == 0 && Drained(after) && !after.panicked
  {
    ReachableInv(s);
    InvRun(s, steps, after);
    DrainedIsZero(s);
    DrainedRun(s, steps, after);
  }
}
