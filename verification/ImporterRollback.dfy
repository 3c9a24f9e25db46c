/**
 * The reconnect rollback (detachExactHandle, internal/app/importer.go:1018-1047)
 * does not consult reservations. Here is exactly when that lets it release a
 * socket of another attach.
 */
module ImporterRollback {
  import opened Base
  import opened ImporterCore
  import opened ImporterProtocol
  import opened ImporterInvariant
  import opened ImporterRuns
  import opened ImporterTouch
  import opened ImporterCalm
  import opened ImporterOrder
  import opened ImporterAwaited
  import opened ImporterStop
  import opened ImporterStopWatcher
  import opened ImporterHazard
  import opened ImporterTheorems
  import Shield = ImporterShield
  import Scenario = ImporterScenario

  // --- The handle's own watcher reserves the port --------------------------

  /** The watcher of `g` waits for attach `c`, which is handing off on `p`. */
  predicate OwnAttempt(s: State, v: Tid, p: Port, g: Gen, c: Tid) {
    && WatcherOf(s, v, g) && s.threads[v].wpc == Attempting(c)
    && AttachAt(s, c) && s.threads[c].apc.Handing? && s.threads[c].apc.port == p
  }

  /** Its socket is live. */
  predicate OwnLive(s: State, v: Tid, p: Port, g: Gen, c: Tid) {
    OwnAttempt(s, v, p, g, c) && CanAttachRegister(s, c) && p in s.live && s.live[p] == c
  }

  /** The attach lost to Close; its socket is live. */
  predicate LostLive(s: State, v: Tid, p: Port, g: Gen, c: Tid) {
    && WatcherOf(s, v, g) && s.threads[v].wpc == Attempting(c)
    && AttachAt(s, c) && s.threads[c].apc == Lost(p, true) && p in s.live && s.live[p] == c
  }

  /** The owner waits, as it did. */
  predicate Waits(s: State, t: Tid, p: Port, g: Gen) { OwnerStands(s, t, p, g) && PhaseIs(s, t, AwaitWatcher) }

  lemma LosesToClose(s: State, t: Tid, v: Tid, p: Port, g: Gen, c: Tid)
    requires OwnLive(s, v, p, g, c) && ReservationHeld(s, c, p) && Waits(s, t, p, g)
    ensures
      var m := DoCloseBegin(s);
      && CanAttachRegister(m, c)
      && var n := DoAttachRegister(m, c);
         LostLive(n, v, p, g, c) && Waits(n, t, p, g)
  {
  }

  lemma LostStep(s: State, t: Tid, v: Tid, p: Port, g: Gen, c: Tid) returns (n: State)
    requires Poised(s, t, p, g) && OwnLive(s, v, p, g, c)
    ensures Reaches(s, n) && Poised(n, t, p, g) && LostLive(n, v, p, g, c)
  {
    ThreadFacts(s, c);
    LosesToClose(s, t, v, p, g, c);
    var m := Apply(s, ByWorld(CloseBegin));
    OneStep(s, ByWorld(CloseBegin));
    ReachableStep(s, ByWorld(CloseBegin));
    n := Apply(m, ByAttach(AttachRegister(c)));
    ReachesStep(s, m, ByAttach(AttachRegister(c)));
    ReachableStep(m, ByAttach(AttachRegister(c)));
  }

  /** Close makes the attempt give way and its release fails: the socket of the
      attempt stays on the port of the claimed handle. */
  lemma OwnLeakHits(s: State, t: Tid, v: Tid, p: Port, g: Gen, c: Tid)
    requires Poised(s, t, p, g) && OwnLive(s, v, p, g, c)
    ensures Hazard(s, t)
  {
    var n := LostStep(s, t, v, p, g, c);
    ThreadFacts(n, v);
    CurrentFacts(n, p, g);
    HandleFacts(n, g);
    ForeignHits(n, t, p, g);
    HazardLater(s, n, t);
  }

  lemma AcceptOwn(s: State, t: Tid, v: Tid, p: Port, g: Gen, c: Tid)
    requires Waits(s, t, p, g) && OwnAttempt(s, v, p, g, c) && CanAttachKernel(s, c)
    ensures Waits(DoAttachKernel(s, c, true), t, p, g) && OwnLive(DoAttachKernel(s, c, true), v, p, g, c)
  {
  }

  lemma OwnReservedHits(s: State, t: Tid, v: Tid, p: Port, g: Gen, c: Tid)
    requires Poised(s, t, p, g) && OwnAttempt(s, v, p, g, c) && CanAttachKernel(s, c)
    ensures Hazard(s, t)
  {
    AcceptOwn(s, t, v, p, g, c);
    ReachableStep(s, ByAttach(AttachKernel(c, true)));
    OwnLeakHits(DoAttachKernel(s, c, true), t, v, p, g, c);
    HazardStep(s, t, ByAttach(AttachKernel(c, true)));
  }

  // --- The exact condition -------------------------------------------------

  /** The handle's own watcher is about to retire it, or waits for the very
      attach that is about to supersede it. */
  predicate Shielded(s: State, p: Port, g: Gen) {
    && g in s.core.handleTable && s.core.handleTable[g].watcher.Running?
    && var v := s.core.handleTable[g].watcher.watcher;
       && WatcherAt(s, v)
       && (|| s.threads[v].wpc.Retiring?
           || (s.threads[v].wpc.Attempting? && AboutToPublish(s, p, s.threads[v].wpc.child)))
  }

  /** The watcher of `g`, if it runs, is not at an attempt on `p`. */
  predicate Elsewhere(s: State, p: Port, g: Gen) {
    g in s.core.handleTable && s.core.handleTable[g].watcher.Running? ==>
      var v := s.core.handleTable[g].watcher.watcher;
      WatcherAt(s, v) && s.threads[v].wpc.Attempting? ==>
        !OwnAttempt(s, v, p, g, s.threads[v].wpc.child)
  }

  /** Apart from `t`, the bystanders are handing off on `p`. */
  ghost predicate HandingOff(s: State, t: Tid, p: Port, keep: set<Tid>) {
    forall u :: u in keep ==> u == t || (u in s.threads && HoldsReservation(s.threads[u], p))
  }

  lemma ElsewhereIsStoppable(s: State, t: Tid, p: Port, g: Gen, keep: set<Tid>)
    requires Poised(s, t, p, g) && Elsewhere(s, p, g) && !Shielded(s, p, g) && HandingOff(s, t, p, keep)
    ensures Stoppable(s, p, g, keep)
  {
    CurrentFacts(s, p, g);
    HandleFacts(s, g);
    if s.core.handleTable[g].watcher.Running? { ThreadFacts(s, s.core.handleTable[g].watcher.watcher); }
  }

  lemma ElsewhereHits(s: State, t: Tid, p: Port, g: Gen)
    requires Poised(s, t, p, g) && Elsewhere(s, p, g) && !Shielded(s, p, g) && !Clear(s, p, g)
    ensures Hazard(s, t)
  {
    CurrentFacts(s, p, g);
    WaysToBeUnclear(s, p, g);
    if ForeignLive(s, p, g) {
      ElsewhereIsStoppable(s, t, p, g, {t});
      ForeignHits(s, t, p, g);
    } else {
      var r := s.core.reservations[p];
      ElsewhereIsStoppable(s, t, p, g, {t, r});
      if AboutToBeLive(s, p, r) { ReservedHits(s, t, p, g, r); } else { GapHits(s, t, p, g, r); }
    }
  }

  lemma OwnAttemptHits(s: State, t: Tid, v: Tid, p: Port, g: Gen, c: Tid)
    requires Poised(s, t, p, g) && OwnAttempt(s, v, p, g, c) && !Shielded(s, p, g) && !Clear(s, p, g)
    ensures Hazard(s, t)
  {
    ThreadFacts(s, v);
    ThreadFacts(s, c);
    CurrentFacts(s, p, g);
    if CanAttachKernel(s, c) {
      OwnReservedHits(s, t, v, p, g, c);
    } else {
      OwnLeakHits(s, t, v, p, g, c);
    }
  }

  // --- From the claim to the wait ------------------------------------------

  /** A rollback is about to claim generation `g`. */
  predicate Claims(s: State, w: Tid, p: Port, g: Gen) {
    && CanWatcherRollbackClaim(s, w) && s.threads[w].wpc == Rollback(p, g, true)
    && IsCurrent(s.core, p, g) && g in s.core.handleTable && s.core.handleTable[g].attempt.None?
  }

  /** Its owner in `m` has claimed, cancelled and waits; nothing about the port,
      its handle or any thread but `w` has changed. */
  ghost predicate Unmoved(s: State, m: State, w: Tid, p: Port, g: Gen) {
    && PortSame(s, m, p) && g in s.core.handleTable && g in m.core.handleTable
    && m.core.handleTable[g].op == s.core.handleTable[g].op
    && m.core.handleTable[g].watcher == s.core.handleTable[g].watcher
    && (forall u :: u in s.threads && u != w ==> Untouched(s, m, u))
  }

  predicate OwnerOf(s: State, t: Tid, p: Port, g: Gen, phase: OwnerPhase) {
    OwnerStands(s, t, p, g) && PhaseIs(s, t, phase)
  }

  /** The rollback claims, giving `m`. */
  predicate Claiming(s: State, w: Tid, p: Port, g: Gen, m: State) {
    Claims(s, w, p, g) && m == DoWatcherRollbackClaim(s, w)
  }

  lemma ClaimMoves(s: State, w: Tid, p: Port, g: Gen, m: State)
    requires Claiming(s, w, p, g, m) && s.nextTid !in s.threads
    ensures OwnerOf(m, s.nextTid, p, g, Claimed) && Unmoved(s, m, w, p, g)
    ensures Clear(s, p, g) ==> m.threads[s.nextTid].clear
  {
  }

  lemma CancelUnmoved(s: State, t: Tid, p: Port, g: Gen)
    requires OwnerOf(s, t, p, g, Claimed) && g in s.core.handleTable
    ensures OwnerOf(DoOwnerCancel(s, t), t, p, g, AwaitWatcher) && Unmoved(s, DoOwnerCancel(s, t), t, p, g)
  {
  }

  /** What was unsafe stays so while nothing moves. */
  lemma UnsafeStays(s: State, m: State, w: Tid, p: Port, g: Gen)
    requires Reachable(s) && Unmoved(s, m, w, p, g) && !Clear(s, p, g) && !Shielded(s, p, g) && !AttachAt(s, w)
    requires WatcherAt(s, w) ==> Younger(s.core, w, g)
    ensures !Clear(m, p, g) && !Shielded(m, p, g)
  {
    HolderFacts(s, p);
    HandleFacts(s, g);
    if s.core.handleTable[g].watcher.Running? { ThreadFacts(s, s.core.handleTable[g].watcher.watcher); }
  }

  lemma PoisedHits(s: State, t: Tid, p: Port, g: Gen)
    requires Poised(s, t, p, g) && !Shielded(s, p, g) && !Clear(s, p, g)
    ensures Hazard(s, t)
  {
    if Elsewhere(s, p, g) {
      ElsewhereHits(s, t, p, g);
    } else {
      var v := s.core.handleTable[g].watcher.watcher;
      OwnAttemptHits(s, t, v, p, g, s.threads[v].wpc.child);
    }
  }

  lemma CancelHits(s: State, t: Tid, p: Port, g: Gen)
    requires Reachable(s) && OwnerOf(s, t, p, g, Claimed) && !Clear(s, p, g) && !Shielded(s, p, g)
    ensures Hazard(s, t)
  {
    CurrentFacts(s, p, g);
    CancelUnmoved(s, t, p, g);
    ReachableStep(s, ByDetach(OwnerCancel(t)));
    UnsafeStays(s, DoOwnerCancel(s, t), t, p, g);
    PoisedHits(DoOwnerCancel(s, t), t, p, g);
    HazardStep(s, t, ByDetach(OwnerCancel(t)));
  }

  lemma ClaimReaches(s: State, w: Tid, p: Port, g: Gen, m: State)
    requires Reachable(s) && Claiming(s, w, p, g, m)
    ensures Reachable(m) && OwnerOf(m, s.nextTid, p, g, Claimed) && Unmoved(s, m, w, p, g)
    ensures WatcherAt(s, w) && Younger(s.core, w, g)
  {
    FreshFacts(s);
    ThreadFacts(s, w);
    ClaimMoves(s, w, p, g, m);
    ReachableStep(s, ByWatcher(WatcherRollbackClaim(w)));
  }

  // --- Otherwise no continuation hits --------------------------------------

  /** A clear claim stays a clear claim of the same generation, or is done. */
  predicate StaysMine(s: State, t: Tid, p: Port, g: Gen) {
    && DetachAt(s, t) && s.threads[t].port == p && s.threads[t].clear
    && (s.threads[t].dpc.Owner? || s.threads[t].dpc.DetachOut?)
    && (s.threads[t].dpc.Owner? ==> s.threads[t].dpc.gen == g)
  }

  lemma MineStep(s: State, step: Step, t: Tid, p: Port, g: Gen)
    requires Reachable(s) && Enabled(s, step) && StaysMine(s, t, p, g)
    ensures StaysMine(Apply(s, step), t, p, g)
  {
    FreshFacts(s);
    StepStaysOwner(s, step, t);
  }

  lemma {:induction false} MineRun(s: State, steps: seq<Step>, after: State, t: Tid, p: Port, g: Gen)
    requires Reachable(s) && Run(s, steps, after) && StaysMine(s, t, p, g)
    ensures Reachable(after) && StaysMine(after, t, p, g)
    decreases |steps|
  {
    if steps == [] {
      RunStays(s, after);
    } else {
      RunFirst(s, steps, after);
      ReachableStep(s, steps[0]);
      MineStep(s, steps[0], t, p, g);
      MineRun(Apply(s, steps[0]), steps[1..], after, t, p, g);
    }
  }

  lemma MineIsSafe(s: State, t: Tid, p: Port, g: Gen)
    requires Reachable(s) && StaysMine(s, t, p, g)
    ensures !Hazard(s, t)
  {
    if Hazard(s, t) {
      var after :| Reaches(s, after) && HitsForeign(after, t);
      var steps :| Run(s, steps, after);
      MineRun(s, steps, after, t, p, g);
      DetachHitsOnlyItsGeneration(after, t, p, g);
      assert false;
    }
  }

  lemma ShieldedIsOutOfDanger(s: State, w: Tid, p: Port, g: Gen, m: State, t: Tid)
    requires Reachable(s) && Shielded(s, p, g) && Unmoved(s, m, w, p, g) && OwnerOf(m, t, p, g, Claimed)
    requires WatcherAt(s, w) && Younger(s.core, w, g)
    ensures Shield.OutOfDanger(m, t, s.core.handleTable[g].watcher.watcher, p, g)
  {
    HandleFacts(s, g);
    ThreadFacts(s, s.core.handleTable[g].watcher.watcher);
  }

  lemma OutOfDangerIsSafe(s: State, t: Tid, v: Tid, p: Port, g: Gen)
    requires Reachable(s) && Shield.OutOfDanger(s, t, v, p, g)
    ensures !Hazard(s, t)
  {
    if Hazard(s, t) {
      var after :| Reaches(s, after) && HitsForeign(after, t);
      var steps :| Run(s, steps, after);
      Shield.OutOfDangerRun(s, steps, after, t, v, p, g);
      assert false;
    }
  }

  lemma HazardIff(s: State, w: Tid, p: Port, g: Gen, m: State)
    requires Reachable(s) && Claiming(s, w, p, g, m)
    ensures Hazard(m, s.nextTid) <==> !Clear(s, p, g) && !Shielded(s, p, g)
  {
    var t := s.nextTid;
    ClaimReaches(s, w, p, g, m);
    if Clear(s, p, g) {
      FreshFacts(s);
      ClaimMoves(s, w, p, g, m);
      MineIsSafe(m, t, p, g);
    } else if Shielded(s, p, g) {
      ShieldedIsOutOfDanger(s, w, p, g, m, t);
      OutOfDangerIsSafe(m, t, s.core.handleTable[g].watcher.watcher, p, g);
    } else {
      UnsafeStays(s, m, w, p, g);
      CancelHits(m, t, p, g);
    }
  }

  /**
   * When the rollback claims generation `g`, some continuation has it release
   * the socket of another attach, although its wait did not expire, if and
   * only if the claim is not clear and the handle's own watcher is not just
   * retiring or superseding the handle.
   */
  lemma RollbackHazardIff(s: State, w: Tid, p: Port, g: Gen)
    requires Reachable(s) && Claims(s, w, p, g)
    ensures Hazard(DoWatcherRollbackClaim(s, w), s.nextTid) <==> !Clear(s, p, g) && !Shielded(s, p, g)
  {
    HazardIff(s, w, p, g, DoWatcherRollbackClaim(s, w));
  }

  /** The hazard is real: a run from a new importer leads to such a claim. */
  lemma RollbackHazardIsReachable() returns (s: State, w: Tid, p: Port, g: Gen)
    ensures Reachable(s) && Claims(s, w, p, g) && !Clear(s, p, g) && !Shielded(s, p, g)
    ensures Hazard(DoWatcherRollbackClaim(s, w), s.nextTid)
  {
    var v, b;
    s, w, v, g, b := Scenario.ContestedIsReachable();
    p := Scenario.SECOND;
    RollbackHazardIff(s, w, p, g);
  }

  /** Not being clear is not enough: here the watcher is retiring the handle. */
  lemma ShieldedClaimIsReachable() returns (s: State, w: Tid, p: Port, g: Gen)
    ensures Reachable(s) && Claims(s, w, p, g) && !Clear(s, p, g) && Shielded(s, p, g)
    ensures !Hazard(DoWatcherRollbackClaim(s, w), s.nextTid)
  {
    var v, b;
    s, w, v, g, b := Scenario.RetiringIsReachable();
    p := Scenario.SECOND;
    RollbackHazardIff(s, w, p, g);
  }
}
