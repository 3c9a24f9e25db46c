/**
 * What the importer promises, over every interleaving of Attach, Detach,
 * reconnect watchers, Close and the kernel. `Reachable(s)` is any state after
 * any run; `Run(s, steps, after)` is any continuation.
 */
module ImporterTheorems {
  import opened Base
  import opened LifecycleGroup
  import opened ImporterCore
  import opened ImporterProtocol
  import opened ImporterInvariant
  import opened ImporterRuns
  import opened ImporterEnrolment
  import opened ImporterHistory
  import opened ImporterAttemptSteps
  import opened ImporterGains

  lemma LaterInv(s: State, steps: seq<Step>, after: State)
    requires Reachable(s) && Run(s, steps, after)
    ensures Inv(s) && Inv(after) && Grows(s, after)
  {
    ReachableInv(s);
    InvRun(s, steps, after);
    RunGrows(s, steps, after);
  }

  // --- No teardown intent is lost ------------------------------------------

  /** No thread but `u` owns an unfinished attempt on generation `g`. */
  ghost predicate SoleOwner(s: State, g: Gen, u: Tid) {
    forall t, y :: t in s.threads && OwnsHandle(s.threads[t], g, y) ==> t == u
  }

  ghost predicate Unwatched(s: State, g: Gen) {
    forall t :: WatcherAt(s, t) ==> s.threads[t].gen != g
  }

  /** What became of an attach whose reservation a Detach had marked. */
  ghost predicate IntentServed(s: State, r: Tid) {
    && r in s.core.reservationTable && AttachAt(s, r)
    && var v := s.core.reservationTable[r];
       match v.fate
       case Pending =>
         // still in flight: no waiter has been woken
         !v.done && HoldsReservation(s.threads[r], v.port)
       case Aborted =>
         // it published nothing and holds nothing
         PublishedBy(s.threads[r]).None? && (v.port in s.live ==> s.live[v.port] != r)
       case LostToClose =>
         // it published nothing, and it releases the port or reports the leak
         && s.core.closed && PublishedBy(s.threads[r]).None?
         && (v.port in s.live && s.live[v.port] == r ==> s.threads[r].apc.Lost? || r in s.leaked)
       case Published(g) =>
         // its handle was born claimed, never watched, and the claim is stored
         // for the waiters whether or not they have been woken yet
         && g in s.core.handleTable && s.core.handleTable[g].op == r && s.core.handleTable[g].port == v.port
         && s.core.handleTable[g].detaching && Unwatched(s, g)
         && v.attempt.Some? && v.attempt.value in s.core.attemptTable
         && var a := s.core.attemptTable[v.attempt.value];
            && a.target == OnHandle(g)
            && (a.result.None? ==>
                  && a.owner in s.threads && OwnsHandle(s.threads[a.owner], g, v.attempt.value)
                  && SoleOwner(s, g, a.owner))
  }

  lemma OwnerIsSole(s: State, g: Gen, x: AttemptId)
    requires Structure(s) && x in s.core.attemptTable && s.core.attemptTable[x].target == OnHandle(g)
    requires s.core.attemptTable[x].result.None?
    ensures SoleOwner(s, g, s.core.attemptTable[x].owner)
  {
    assert AttemptOk(s, x);
    forall t, y | t in s.threads && OwnsHandle(s.threads[t], g, y)
      ensures t == s.core.attemptTable[x].owner
    {
      assert ThreadOk(s, t);
    }
  }

  lemma NeverWatched(s: State, g: Gen)
    requires Threads(s) && g in s.core.handleTable && s.core.handleTable[g].watcher.NoWatcher?
    ensures Unwatched(s, g)
  {
    forall t | WatcherAt(s, t)
      ensures s.threads[t].gen != g
    {
      assert ThreadOk(s, t);
    }
  }

  lemma PublishedFate(s: State, r: Tid)
    requires Structure(s) && AttachAt(s, r) && PublishedBy(s.threads[r]).Some?
    ensures r in s.core.reservationTable && s.core.reservationTable[r].fate.Published?
  {
    assert ThreadOk(s, r);
    assert HandleOk(s, PublishedBy(s.threads[r]).value.1);
  }

  /** An attach that settled without publishing never publishes. */
  lemma Unpublished(s: State, r: Tid)
    requires Structure(s) && r in s.core.reservationTable && AttachAt(s, r)
    requires s.core.reservationTable[r].fate.Aborted? || s.core.reservationTable[r].fate.LostToClose?
    ensures PublishedBy(s.threads[r]).None?
  {
    if PublishedBy(s.threads[r]).Some? { PublishedFate(s, r); }
  }

  lemma ServedNow(s: State, r: Tid)
    requires Structure(s) && r in s.core.reservationTable && s.core.reservationTable[r].teardown
    ensures AttachAt(s, r) && IntentServed(s, r)
  {
    assert ReservationOk(s, r);
    var v := s.core.reservationTable[r];
    match v.fate
    case Pending =>
    case Published(g) =>
      NeverWatched(s, g);
      if s.core.attemptTable[v.attempt.value].result.None? {
        assert AttemptOk(s, v.attempt.value);
        OwnerIsSole(s, g, v.attempt.value);
      }
    case _ =>
      Unpublished(s, r);
      if v.port in s.live { SettledLive(s, r, v.port); }
  }

  lemma SettledLive(s: State, r: Tid, p: Port)
    requires Structure(s) && AttachAt(s, r) && r in s.core.reservationTable && p in s.live
    requires PublishedBy(s.threads[r]).None?
    requires s.core.reservationTable[r].fate.Aborted? || s.core.reservationTable[r].fate.LostToClose?
    ensures s.live[p] == r ==> s.core.reservationTable[r].fate.LostToClose? && (s.threads[r].apc.Lost? || r in s.leaked)
  {
    assert LiveOk(s, p);
    assert ThreadOk(s, r);
  }

  /**
   * Once a Detach has marked a reservation, in every later state of every run
   * the mark is still there and has been served.
   */
  lemma TeardownIntentIsKept(s: State, steps: seq<Step>, after: State, r: Tid)
    requires Reachable(s) && Run(s, steps, after)
    requires r in s.core.reservationTable && s.core.reservationTable[r].teardown
    ensures r in after.core.reservationTable && after.core.reservationTable[r].teardown
    ensures AttachAt(after, r) && IntentServed(after, r)
  {
    LaterInv(s, steps, after);
    assert ReservationKept(s.core, after.core, r);
    ServedNow(after, r);
  }

  // --- Generation safety ---------------------------------------------------

  /** A claim of generation `g` of port `p` that the guarantee speaks about:
      made by a public Detach, by a compensating detach, or by a rollback
      that was clear when it was made. It lasts from the claim until its
      attempt is finished, so past the deletion of the handle. */
  predicate CoveredClaim(s: State, t: Tid, p: Port, g: Gen) {
    && OwnerAt(s, t) && s.threads[t].port == p && s.threads[t].dpc.gen == g
    && (s.threads[t].rollback.None? || s.threads[t].clear)
  }

  lemma CoveredIsClear(s: State, t: Tid, p: Port, g: Gen)
    requires Structure(s) && CoveredClaim(s, t, p, g) && IsCurrent(s.core, p, g)
    ensures Clear(s, p, g) && IsDetaching(s.core, p)
  {
    assert ThreadOk(s, t);
  }

  /**
   * The kernel call of a covered claim whose watcher has exited or never
   * existed releases only the generation that was claimed: its handle is
   * still the current one and nothing else is live on the port.
   */
  lemma DetachHitsOnlyItsGeneration(s: State, t: Tid, p: Port, g: Gen)
    requires Reachable(s) && CoveredClaim(s, t, p, g) && s.threads[t].dpc.phase == Checked(false)
    ensures IsCurrent(s.core, p, g) && g in s.core.handleTable
    ensures p in s.live ==> s.live[p] == s.core.handleTable[g].op
  {
    ReachableInv(s);
    assert ThreadOk(s, t);
  }

  /** While a covered claim's handle is current: no step grants a reservation
      on the port, replaces the handle or makes another socket live there. */
  ghost predicate PortShut(s: State, s': State, p: Port, g: Gen) {
    && (p in s'.core.handles ==> s'.core.handles[p] == g)
    && (p in s'.core.reservations ==>
          p in s.core.reservations && s'.core.reservations[p] == s.core.reservations[p])
    && (p in s'.live ==> p in s.live && s'.live[p] == s.live[p])
  }

  lemma SelectShut(s: State, t: Tid, q: Port, p: Port, g: Gen)
    requires CanAttachSelect(s, t, q) && IsCurrent(s.core, p, g) && IsDetaching(s.core, p)
    ensures PortShut(s, DoAttachSelect(s, t, q), p, g)
  {
  }

  lemma AcceptShut(s: State, t: Tid, accepted: bool, p: Port, g: Gen)
    requires CanAttachKernel(s, t) && IsCurrent(s.core, p, g) && AttachOk(s, t) && Clear(s, p, g)
    ensures PortShut(s, DoAttachKernel(s, t, accepted), p, g)
  {
  }

  /** Registering touches the handle and the reservation of its own port, and
      no handle after Close. */
  lemma RegisterMaps(c: Core, q: Port, op: Tid, auto: bool, u: Tid, p: Port)
    ensures
      var c' := RegisterHandle(c, q, op, auto, u).0;
      && (p != q || c.closed ==>
            (p in c'.handles <==> p in c.handles) && (p in c.handles ==> c'.handles[p] == c.handles[p]))
      && (p in c'.reservations ==> p in c.reservations && c'.reservations[p] == c.reservations[p])
  {
  }

  lemma RegisterShut(s: State, t: Tid, p: Port, g: Gen)
    requires CanAttachRegister(s, t) && IsCurrent(s.core, p, g) && AttachOk(s, t) && Clear(s, p, g)
    ensures PortShut(s, DoAttachRegister(s, t), p, g)
  {
    RegisterMaps(s.core, s.threads[t].apc.port, t, s.threads[t].auto, s.nextTid, p);
  }

  lemma OpeningShut(s: State, step: AttachStep, p: Port, g: Gen)
    requires AttachEnabled(s, step) && Opens(step) && IsCurrent(s.core, p, g) && AttachOk(s, step.t)
    requires Clear(s, p, g) && IsDetaching(s.core, p)
    ensures PortShut(s, AttachApply(s, step), p, g)
  {
    match step
    case AttachSelect(t, q) => SelectShut(s, t, q, p, g);
    case AttachKernel(t, accepted) => AcceptShut(s, t, accepted, p, g);
    case AttachRegister(t) => RegisterShut(s, t, p, g);
  }

  lemma ShutNow(s: State, p: Port, g: Gen, step: Step)
    requires IsCurrent(s.core, p, g) && Clear(s, p, g) && IsDetaching(s.core, p) && Enabled(s, step)
    requires step.ByAttach? && Opens(step.stepAttach) ==> AttachOk(s, step.stepAttach.t)
    ensures PortShut(s, Apply(s, step), p, g)
  {
    match step
    case ByAttach(a) => if Opens(a) { OpeningShut(s, a, p, g); } else { AttachLoses(s, a, p); }
    case ByDetach(a) => DetachLoses(s, a, p);
    case ByWatcher(a) => WatcherLoses(s, a, p);
    case ByWorld(a) => WorldLoses(s, a, p);
  }

  lemma ClaimShutsPort(s: State, t: Tid, p: Port, g: Gen, step: Step)
    requires Reachable(s) && CoveredClaim(s, t, p, g) && IsCurrent(s.core, p, g) && Enabled(s, step)
    ensures PortShut(s, Apply(s, step), p, g)
  {
    ReachableInv(s);
    CoveredIsClear(s, t, p, g);
    if step.ByAttach? && Opens(step.stepAttach) { assert ThreadOk(s, step.stepAttach.t); }
    ShutNow(s, p, g, step);
  }

  lemma RollbackCovers(s: State, w: Tid)
    requires FreshOk(s) && CanWatcherRollbackClaim(s, w)
    requires
      var Rollback(p, g, _) := s.threads[w].wpc;
      && IsCurrent(s.core, p, g) && Clear(s, p, g)
      && g in s.core.handleTable && s.core.handleTable[g].attempt.None?
    ensures
      var Rollback(p, g, _) := s.threads[w].wpc;
      CoveredClaim(DoWatcherRollbackClaim(s, w), s.nextTid, p, g)
  {
    assert s.nextTid !in s.threads;
  }

  /** A rollback claim with no reservation outstanding on its port, before
      Close, is covered. */
  lemma RollbackWithoutReservationIsCovered(s: State, w: Tid)
    requires Reachable(s) && CanWatcherRollbackClaim(s, w) && !s.core.closed
    requires
      var Rollback(p, g, _) := s.threads[w].wpc;
      && IsCurrent(s.core, p, g) && p !in s.core.reservations
      && g in s.core.handleTable && s.core.handleTable[g].attempt.None?
    ensures
      var Rollback(p, g, _) := s.threads[w].wpc;
      CoveredClaim(DoWatcherRollbackClaim(s, w), s.nextTid, p, g)
  {
    ReachableInv(s);
    PublicClaimIsClear(s, s.threads[w].wpc.port);
    RollbackCovers(s, w);
  }
}
