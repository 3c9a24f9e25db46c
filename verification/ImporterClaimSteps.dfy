/** Steps that move a thread and the object it holds at once: reserving and
    giving up a port, claiming and finishing an attempt, starting and ending
    a watcher. */
module ImporterClaimSteps {
  import opened Base
  import opened LifecycleGroup
  import opened ImporterCore
  import opened ImporterProtocol
  import opened ImporterInvariant
  import opened ImporterFrame
  import opened ImporterSteps

  /** A finished attempt stays fine while no handle enters or leaves the map. */
  lemma FinishedStays(s: State, s': State, t: Tid, x: AttemptId)
    requires x in s.core.attemptTable && AttemptOk(s, x) && s.core.attemptTable[x].result.Some?
    requires HandleFrame(s, s', {t}) && AttemptFrame(s, s', {t}) && s'.core.handles == s.core.handles
    ensures x in s'.core.attemptTable && AttemptOk(s', x)
  {
    assert AttemptGrows(s, s', {t}, x);
    if s.core.attemptTable[x].target.OnHandle? {
      assert HandleGrows(s, s', {t}, s.core.attemptTable[x].target.gen);
    }
  }

  /** Attempts of a thread that owns none are finished, so they stay fine. */
  lemma IdleAttempts(s: State, s': State, t: Tid)
    requires Objects(s) && t in s.threads && !s.threads[t].DetachT?
    requires s'.core.attemptTable == s.core.attemptTable && s'.core.handles == s.core.handles
    requires HandleFrame(s, s', {t})
    ensures OwnAttempts(s, s', t)
  {
    forall x | x in s.core.attemptTable && s.core.attemptTable[x].owner == t
      ensures AttemptOk(s', x)
    {
      assert AttemptOk(s, x);
      FinishedStays(s, s', t, x);
    }
  }

  lemma NoReservationOf(s: State, t: Tid)
    requires Objects(s) && t in s.threads && !s.threads[t].AttachT?
    ensures t !in s.core.reservationTable
  {
    assert t in s.core.reservationTable ==> ReservationOk(s, t);
  }

  // --- Reserving a port ----------------------------------------------------

  lemma SelectPorts(s: State, t: Tid, p: Port)
    requires FreshOk(s) && Ports(s) && CanAttachSelect(s, t, p) && ReserveAttachPort(s.core, p, t).1
    ensures
      var s' := DoAttachSelect(s, t, p);
      && PortFrame(s, s', {t}) && ClearFrame(s, s')
      && Answers(s', t)
  {
    var s' := DoAttachSelect(s, t, p);
    forall q | q in s'.live
      ensures s'.live[q] != t
    {
      assert LiveOk(s, q);
    }
    forall q | q in s'.core.reservations && s'.core.reservations[q] == t
      ensures ReservedOk(s', q)
    {
      assert q in s.core.reservations ==> ReservedOk(s, q);
    }
    forall q | q in s'.core.untracked
      ensures UntrackedOk(s', q)
    {
      assert UntrackedOk(s, q);
    }
  }

  lemma SelectObjects(s: State, t: Tid, p: Port)
    requires FreshOk(s) && Links(s) && CanAttachSelect(s, t, p) && AttachOk(s, t)
    requires ReserveAttachPort(s.core, p, t).1
    ensures
      var s' := DoAttachSelect(s, t, p);
      && ObjectFrame(s, s', {t}) && ThreadFrame(s, s', {t}) && FreshOk(s') && Links(s')
      && ThreadOk(s', t) && t in s'.core.reservationTable && ReservationOk(s', t)
      && WatchedWithin(s, t, s'.threads[t], {t}) && NewThreads(s, s') && NewHandles(s, s')
      && s'.core.attemptTable == s.core.attemptTable && s'.core.handleTable == s.core.handleTable
  {
    SelectRows(s, t, p);
    SelectThreads(s, t, p);
  }

  lemma SelectRows(s: State, t: Tid, p: Port)
    requires Links(s) && CanAttachSelect(s, t, p) && AttachOk(s, t) && ReserveAttachPort(s.core, p, t).1
    ensures
      var s' := DoAttachSelect(s, t, p);
      && ObjectFrame(s, s', {t}) && Links(s') && ReservationOk(s', t)
      && s'.core.attemptTable == s.core.attemptTable && s'.core.handleTable == s.core.handleTable
  {
  }

  lemma SelectThreads(s: State, t: Tid, p: Port)
    requires FreshOk(s) && CanAttachSelect(s, t, p) && AttachOk(s, t) && ReserveAttachPort(s.core, p, t).1
    ensures
      var s' := DoAttachSelect(s, t, p);
      ThreadFrame(s, s', {t}) && FreshOk(s') && ThreadOk(s', t) && NewThreads(s, s')
  {
  }

  lemma SelectMaps(s: State, t: Tid, p: Port)
    requires CanAttachSelect(s, t, p)
    ensures
      var c := DoAttachSelect(s, t, p).core;
      c.attemptTable == s.core.attemptTable && c.handles == s.core.handles
  {
  }

  lemma KeepSelectGranted(s: State, t: Tid, p: Port)
    requires Structure(s) && CanAttachSelect(s, t, p) && ThreadOk(s, t) && ReserveAttachPort(s.core, p, t).1
    ensures Structure(DoAttachSelect(s, t, p))
  {
    var s' := DoAttachSelect(s, t, p);
    SelectPorts(s, t, p);
    SelectObjects(s, t, p);
    SelectMaps(s, t, p);
    IdleAttempts(s, s', t);
    TouchKeeps(s, s', t);
  }

  lemma KeepAttachSelect(s: State, t: Tid, p: Port)
    requires Structure(s) && CanAttachSelect(s, t, p)
    ensures Structure(DoAttachSelect(s, t, p))
  {
    assert ThreadOk(s, t);
    if ReserveAttachPort(s.core, p, t).1 {
      KeepSelectGranted(s, t, p);
    } else {
      SelectRefusedMoves(s, t, p);
      OneKeeps(s, DoAttachSelect(s, t, p), t);
    }
  }

  lemma SelectRefusedMoves(s: State, t: Tid, p: Port)
    requires CanAttachSelect(s, t, p) && AttachOk(s, t) && !ReserveAttachPort(s.core, p, t).1
    ensures Moves(s, DoAttachSelect(s, t, p), t)
  {
  }

  // --- Giving a reservation up ---------------------------------------------

  /** Reservation `t` leaves the map without publishing a handle. */
  predicate Unreserves(s: State, s': State, t: Tid, p: Port) {
    && AttachAt(s, t) && s.threads[t].apc.Handing? && s.threads[t].apc.port == p && AttachAt(s', t)
    && t in s.core.reservationTable && t in s'.core.reservationTable
    && s'.base == s.base && s'.nextTid == s.nextTid && s'.live == s.live && s'.leaked == s.leaked
    && s'.threads == s.threads[t := s.threads[t].(apc := s'.threads[t].apc)]
    && s'.core.closed == s.core.closed && s'.core.handles == s.core.handles
    && s'.core.untracked == s.core.untracked && s'.core.attemptTable == s.core.attemptTable
    && s'.core.handleTable == s.core.handleTable && s'.core.nextGen == s.core.nextGen
    && s'.core.nextAttempt == s.core.nextAttempt
    && s'.core.reservations == s.core.reservations - {p}
    && s'.core.reservationTable ==
       s.core.reservationTable[t := s.core.reservationTable[t].(fate := s'.core.reservationTable[t].fate)]
    && match s'.threads[t].apc
       case AbortedOpen(q) => q == p && s'.core.reservationTable[t].fate.Aborted? && p !in s.live
       case Lost(q, _) => q == p && s'.core.reservationTable[t].fate.LostToClose? && s.core.closed
       case _ => false
  }

  lemma UnreservePorts(s: State, s': State, t: Tid, p: Port)
    requires Ports(s) && Unreserves(s, s', t, p)
    requires p in s.core.reservations && s.core.reservations[p] == t
    ensures
      && PortFrame(s, s', {t}) && ClearFrame(s, s')
      && Answers(s', t)
  {
    forall q | q in s'.live && s'.live[q] == t
      ensures LiveOk(s', q)
    {
      assert LiveOk(s, q);
    }
    forall q | q in s'.core.reservations
      ensures s'.core.reservations[q] != t
    {
      assert ReservedOk(s, q);
    }
    forall q | q in s'.core.untracked
      ensures UntrackedOk(s', q)
    {
      assert UntrackedOk(s, q);
    }
  }

  lemma UnreserveObjects(s: State, s': State, t: Tid, p: Port)
    requires FreshOk(s) && Links(s) && Unreserves(s, s', t, p) && AttachOk(s, t)
    requires ReservationOk(s, t)
    ensures
      && ObjectFrame(s, s', {t}) && ThreadFrame(s, s', {t}) && FreshOk(s') && Links(s')
      && ThreadOk(s', t) && ReservationOk(s', t)
      && WatchedWithin(s, t, s'.threads[t], {t}) && NewThreads(s, s') && NewHandles(s, s')
  {
    UnreserveRows(s, s', t, p);
  }

  lemma UnreserveRows(s: State, s': State, t: Tid, p: Port)
    requires Links(s) && Unreserves(s, s', t, p) && AttachOk(s, t) && ReservationOk(s, t)
    ensures ObjectFrame(s, s', {t}) && Links(s') && ReservationOk(s', t)
  {
  }

  lemma UnreserveKeeps(s: State, s': State, t: Tid, p: Port)
    requires Structure(s) && Unreserves(s, s', t, p)
    ensures Structure(s')
  {
    assert ThreadOk(s, t);
    UnreservePorts(s, s', t, p);
    UnreserveObjects(s, s', t, p);
    IdleAttempts(s, s', t);
    TouchKeeps(s, s', t);
  }

  lemma KeepAttachAbort(s: State, t: Tid)
    requires Structure(s) && CanAttachAbort(s, t)
    ensures Structure(DoAttachAbort(s, t))
  {
    assert ThreadOk(s, t);
    UnreserveKeeps(s, DoAttachAbort(s, t), t, s.threads[t].apc.port);
  }

  lemma KeepRegisterClosed(s: State, t: Tid)
    requires Structure(s) && CanAttachRegister(s, t) && s.core.closed
    ensures Structure(DoAttachRegister(s, t))
  {
    assert ThreadOk(s, t);
    UnreserveKeeps(s, DoAttachRegister(s, t), t, s.threads[t].apc.port);
  }

  // --- Starting and ending a watcher ---------------------------------------

  /** Only the watcher slot of handle `g` changes, and thread `t` answers for it. */
  predicate MovesWatcher(s: State, s': State, t: Tid, g: Gen) {
    && t in s.threads && t in s'.threads && !s.threads[t].DetachT?
    && ThreadGrows(s.threads[t], s'.threads[t])
    && s'.base == s.base && s'.live == s.live && s'.leaked == s.leaked
    && s'.core.closed == s.core.closed && s'.core.handles == s.core.handles
    && s'.core.reservations == s.core.reservations
    && s'.core.untracked == s.core.untracked && s'.core.attemptTable == s.core.attemptTable
    && s'.core.reservationTable == s.core.reservationTable && s'.core.nextGen == s.core.nextGen
    && s'.core.nextAttempt == s.core.nextAttempt
    && g in s.core.handleTable && g in s'.core.handleTable
    && s'.core.handleTable == s.core.handleTable[g := s.core.handleTable[g].(watcher := s'.core.handleTable[g].watcher)]
    && ((s.core.handleTable[g].watcher.Promised? && s.core.handleTable[g].op == t)
        || s.core.handleTable[g].watcher == Running(t))
  }

  lemma WatcherPorts(s: State, s': State, t: Tid, g: Gen)
    requires Ports(s) && MovesWatcher(s, s', t, g)
    requires forall u :: u in s.threads && u != t ==> u in s'.threads && s'.threads[u] == s.threads[u]
    requires s.threads[t].AttachT? ==> s.threads[t].apc.Publishing? && s'.threads[t].apc.Out?
    ensures
      && PortFrame(s, s', {t}) && ClearFrame(s, s')
      && Answers(s', t)
  {
    forall q | q in s'.live && s'.live[q] == t
      ensures LiveOk(s', q)
    {
      assert LiveOk(s, q);
    }
    forall q | q in s'.core.reservations
      ensures s'.core.reservations[q] != t
    {
      assert ReservedOk(s, q);
    }
    forall q | q in s'.core.untracked
      ensures UntrackedOk(s', q)
    {
      assert UntrackedOk(s, q);
    }
  }

  lemma WatcherHandles(s: State, s': State, t: Tid, g: Gen)
    requires Links(s) && MovesWatcher(s, s', t, g)
    ensures HandleFrame(s, s', {t}) && AttemptFrame(s, s', {t}) && ReservationFrame(s, s', {t}) && Links(s')
  {
  }

  /** What else a step that starts or ends a watcher shows for itself. */
  ghost predicate WatcherSettles(s: State, s': State, t: Tid) {
    && ThreadFrame(s, s', {t}) && t in s.threads && t in s'.threads
    && (s.threads[t].AttachT? ==> s.threads[t].apc.Publishing? && s'.threads[t].AttachT? && s'.threads[t].apc.Out?)
    && ThreadOk(s', t) && WatchedWithin(s, t, s'.threads[t], {t})
    && FreshOk(s') && NewThreads(s, s') && NewHandles(s, s')
    && (t in s'.core.reservationTable ==> t in s.core.reservationTable && ReservationOk(s', t))
  }

  lemma WatcherMoveKeeps(s: State, s': State, t: Tid, g: Gen)
    requires Structure(s) && MovesWatcher(s, s', t, g) && WatcherSettles(s, s', t)
    ensures Structure(s')
  {
    WatcherPorts(s, s', t, g);
    WatcherHandles(s, s', t, g);
    IdleAttempts(s, s', t);
    TouchKeeps(s, s', t);
  }

  lemma WatcherCloseOk(s: State, t: Tid)
    requires FreshOk(s) && CanWatcherClose(s, t) && WatcherOk(s, t) && t !in s.core.reservationTable
    ensures
      var s' := DoWatcherClose(s, t);
      MovesWatcher(s, s', t, s.threads[t].gen) && WatcherSettles(s, s', t)
  {
  }

  lemma KeepWatcherClose(s: State, t: Tid)
    requires Structure(s) && CanWatcherClose(s, t)
    ensures Structure(DoWatcherClose(s, t))
  {
    assert ThreadOk(s, t);
    NoReservationOf(s, t);
    WatcherCloseOk(s, t);
    WatcherMoveKeeps(s, DoWatcherClose(s, t), t, s.threads[t].gen);
  }

  lemma LaunchMovesWatcher(s: State, t: Tid)
    requires FreshOk(s) && CanAttachLaunch(s, t) && AttachOk(s, t)
    requires s.threads[t].apc.compensator.None? && s.threads[t].auto
    ensures MovesWatcher(s, DoAttachLaunch(s, t), t, s.threads[t].apc.gen)
  {
  }

  lemma LaunchSettles(s: State, t: Tid)
    requires FreshOk(s) && CanAttachLaunch(s, t) && AttachOk(s, t)
    requires s.threads[t].apc.compensator.None? && s.threads[t].auto
    requires t in s.core.reservationTable && ReservationOk(s, t)
    ensures WatcherSettles(s, DoAttachLaunch(s, t), t)
  {
    assert s.nextTid !in s.threads;
    LaunchThreads(s, t);
    LaunchRows(s, t);
  }

  lemma LaunchThreads(s: State, t: Tid)
    requires FreshOk(s) && CanAttachLaunch(s, t) && AttachOk(s, t)
    requires s.threads[t].apc.compensator.None? && s.threads[t].auto
    ensures
      var s' := DoAttachLaunch(s, t);
      ThreadFrame(s, s', {t}) && ThreadOk(s', t) && NewThreads(s, s') && s'.threads[t].apc.Out?
  {
  }

  lemma LaunchRows(s: State, t: Tid)
    requires FreshOk(s) && CanAttachLaunch(s, t) && AttachOk(s, t)
    requires s.threads[t].apc.compensator.None? && s.threads[t].auto
    requires t in s.core.reservationTable && ReservationOk(s, t)
    ensures
      var s' := DoAttachLaunch(s, t);
      FreshOk(s') && NewHandles(s, s') && t in s'.core.reservationTable && ReservationOk(s', t)
  {
  }

  lemma KeepLaunchWatcher(s: State, t: Tid)
    requires Structure(s) && CanAttachLaunch(s, t) && s.threads[t].apc.compensator.None? && s.threads[t].auto
    ensures Structure(DoAttachLaunch(s, t))
  {
    assert ThreadOk(s, t) && ReservationOk(s, t);
    LaunchMovesWatcher(s, t);
    LaunchSettles(s, t);
    WatcherMoveKeeps(s, DoAttachLaunch(s, t), t, s.threads[t].apc.gen);
  }

  lemma KeepAttachLaunch(s: State, t: Tid)
    requires Structure(s) && CanAttachLaunch(s, t)
    ensures Structure(DoAttachLaunch(s, t))
  {
    if s.threads[t].apc.compensator.Some? {
      KeepLaunchCompensation(s, t);
    } else if s.threads[t].auto {
      KeepLaunchWatcher(s, t);
    } else {
      assert ThreadOk(s, t);
      OneKeeps(s, DoAttachLaunch(s, t), t);
    }
  }
}
