/** Steps that change tables, maps or the kernel while every thread stands
    still, and the steps composed from them and a move of one thread. */
module ImporterDataSteps {
  import opened Base
  import opened LifecycleGroup
  import opened ImporterCore
  import opened ImporterProtocol
  import opened ImporterInvariant
  import opened ImporterFrame
  import opened ImporterSteps

  predicate SameThreads(s: State, s': State) {
    && s'.threads == s.threads && s'.nextTid == s.nextTid && s'.base == s.base
    && s'.core.closed == s.core.closed && s.leaked <= s'.leaked
  }

  lemma DataKeeps(s: State, s': State)
    requires Structure(s) && SameThreads(s, s')
    requires ObjectFrame(s, s', {}) && PortFrame(s, s', {}) && ClearFrame(s, s')
    requires FreshOk(s') && Links(s')
    requires s'.core.handleTable.Keys == s.core.handleTable.Keys
    requires s'.core.attemptTable.Keys == s.core.attemptTable.Keys
    ensures Structure(s')
  {
    GroupLinked(s, s', {});
    assert ThreadFrame(s, s', {});
    FrameKeeps(s, s', {});
  }

  // --- Live ports ----------------------------------------------------------

  lemma KeepKernelDrop(s: State, p: Port)
    requires Structure(s)
    ensures Structure(DoKernelDrop(s, p))
  {
    DropPorts(s, p);
    DropObjects(s, p);
    DataKeeps(s, DoKernelDrop(s, p));
  }

  lemma DropPorts(s: State, p: Port)
    requires Ports(s)
    ensures PortFrame(s, DoKernelDrop(s, p), {}) && ClearFrame(s, DoKernelDrop(s, p))
  {
  }

  lemma DropObjects(s: State, p: Port)
    requires FreshOk(s) && Links(s)
    ensures
      var s' := DoKernelDrop(s, p);
      ObjectFrame(s, s', {}) && FreshOk(s') && Links(s')
  {
  }

  lemma LeakKeeps(s: State, t: Tid)
    requires Structure(s) && s.core.closed
    ensures Structure(s.(leaked := s.leaked + {t}))
  {
    SameMapsPorts(s, s.(leaked := s.leaked + {t}));
    DataKeeps(s, s.(leaked := s.leaked + {t}));
  }

  // --- Flags of handles and reservations -----------------------------------

  /** Nothing a port is looked up in has changed. */
  predicate SameMaps(s: State, s': State) {
    && SameThreads(s, s') && s'.live == s.live
    && s'.core.handles == s.core.handles && s'.core.reservations == s.core.reservations
    && s'.core.untracked == s.core.untracked && s'.core.attemptTable == s.core.attemptTable
    && s'.core.nextGen == s.core.nextGen && s'.core.nextAttempt == s.core.nextAttempt
    && s'.core.handleTable.Keys == s.core.handleTable.Keys
    && (forall g :: g in s.core.handleTable ==>
          && s'.core.handleTable[g].port == s.core.handleTable[g].port
          && s'.core.handleTable[g].op == s.core.handleTable[g].op)
  }

  lemma SameMapsPorts(s: State, s': State)
    requires Ports(s) && SameMaps(s, s')
    ensures PortFrame(s, s', {}) && ClearFrame(s, s')
  {
  }

  /** The tables agree except that flags of one handle were raised. */
  predicate RaisesFlags(s: State, s': State, g: Gen) {
    && g in s.core.handleTable && g in s'.core.handleTable
    && s'.core.reservationTable == s.core.reservationTable
    && s'.core.handleTable == s.core.handleTable[g := s'.core.handleTable[g]]
    && var h, h' := s.core.handleTable[g], s'.core.handleTable[g];
       && h' == h.(detaching := h'.detaching, cancelled := h'.cancelled)
       && (h.detaching ==> h'.detaching) && (h.cancelled ==> h'.cancelled)
  }

  lemma FlagObjects(s: State, s': State, g: Gen)
    requires FreshOk(s) && Links(s) && RaisesFlags(s, s', g) && SameMaps(s, s')
    ensures ObjectFrame(s, s', {}) && Links(s')
  {
  }

  lemma FlagKeeps(s: State, s': State, g: Gen)
    requires Structure(s) && RaisesFlags(s, s', g) && SameMaps(s, s') && s'.leaked == s.leaked
    ensures Structure(s')
  {
    FlagObjects(s, s', g);
    SameMapsPorts(s, s');
    DataKeeps(s, s');
  }

  lemma CancelKeeps(s: State, g: Gen)
    requires Structure(s)
    ensures Structure(s.(core := CancelHandle(s.core, g)))
  {
    if g in s.core.handleTable {
      FlagKeeps(s, s.(core := CancelHandle(s.core, g)), g);
    }
  }

  /** Only `done` of a settled reservation or `teardown` of a pending one rises. */
  predicate RaisesReservation(s: State, s': State, r: Tid) {
    && SameMaps(s, s') && s'.leaked == s.leaked && s'.core.handleTable == s.core.handleTable
    && r in s.core.reservationTable && r in s'.core.reservationTable
    && s'.core.reservationTable == s.core.reservationTable[r := s'.core.reservationTable[r]]
    && var v, v' := s.core.reservationTable[r], s'.core.reservationTable[r];
       if v.fate.Pending? then v' == v.(teardown := true) else v' == v.(done := true)
  }

  lemma ReservationFlagObjects(s: State, s': State, r: Tid)
    requires FreshOk(s) && Links(s) && RaisesReservation(s, s', r)
    ensures ObjectFrame(s, s', {}) && FreshOk(s') && Links(s')
  {
  }

  lemma ReservationFlagKeeps(s: State, s': State, r: Tid)
    requires Structure(s) && RaisesReservation(s, s', r)
    ensures Structure(s')
  {
    ReservationFlagObjects(s, s', r);
    SameMapsPorts(s, s');
    DataKeeps(s, s');
  }

  /** Detach meets a reservation: the intent is recorded on it and an older
      handle on the port is cancelled. */
  lemma MarkKeeps(s: State, p: Port, caller: Tid)
    requires Structure(s) && !s.core.closed && p in s.core.reservations
    ensures Structure(s.(core := AcquireDetachTarget(s.core, p, caller).0))
  {
    assert ReservedOk(s, p);
    var op := s.core.reservations[p];
    assert ThreadOk(s, op);
    var s' := s.(core := AcquireDetachTarget(s.core, p, caller).0);
    var s1 := s.(core := s.core.(handleTable := s'.core.handleTable));
    MarkFlags(s, p, caller);
    if p in s.core.handles { FlagKeeps(s, s1, s.core.handles[p]); }
    ReservationFlagKeeps(s1, s', op);
  }

  lemma MarkFlags(s: State, p: Port, caller: Tid)
    requires !s.core.closed && p in s.core.reservations && ReservedOk(s, p) && AttachOk(s, s.core.reservations[p])
    requires p in s.core.handles ==> CurrentOk(s, p)
    ensures
      var s' := s.(core := AcquireDetachTarget(s.core, p, caller).0);
      var s1 := s.(core := s.core.(handleTable := s'.core.handleTable));
      && RaisesReservation(s1, s', s.core.reservations[p])
      && (if p in s.core.handles then RaisesFlags(s, s1, s.core.handles[p]) && SameMaps(s, s1) else s1 == s)
  {
  }

  // --- Handle removal ------------------------------------------------------

  lemma DeleteKeeps(s: State, p: Port, g: Gen)
    requires Structure(s) && g in s.core.handleTable && s.core.handleTable[g].port == p
    requires Dead(s, g) && !Protected(s, {}, g)
    ensures Structure(s.(core := DeleteExactHandle(s.core, p, g)))
  {
    DeletePorts(s, p, g);
    DeleteObjects(s, p, g);
    DataKeeps(s, s.(core := DeleteExactHandle(s.core, p, g)));
  }

  lemma DeletePorts(s: State, p: Port, g: Gen)
    requires Ports(s) && g in s.core.handleTable && s.core.handleTable[g].port == p
    requires Dead(s, g) && !Protected(s, {}, g)
    ensures
      var s' := s.(core := DeleteExactHandle(s.core, p, g));
      PortFrame(s, s', {}) && ClearFrame(s, s')
  {
    var s' := s.(core := DeleteExactHandle(s.core, p, g));
    if IsCurrent(s.core, p, g) {
      forall q | q in s.core.handles
        ensures ClearKept(s, s', q)
      {
      }
      assert MayDrop(s, s', {}, p);
      forall q | q in s.core.untracked
        ensures UntrackedOk(s', q)
      {
        assert UntrackedOk(s, q);
      }
    }
  }

  lemma DeleteObjects(s: State, p: Port, g: Gen)
    requires FreshOk(s) && Links(s)
    ensures
      var s' := s.(core := DeleteExactHandle(s.core, p, g));
      ObjectFrame(s, s', {}) && FreshOk(s') && Links(s')
  {
  }

  // --- Composed steps ------------------------------------------------------

  lemma PortKernelMoves(s: State, t: Tid, o: Outcome)
    requires CanPortKernel(s, t, o) && DetachOk(KernelDetach(s, s.threads[t].port, o), t)
    ensures Moves(KernelDetach(s, s.threads[t].port, o), DoPortKernel(s, t, o), t)
  {
  }

  lemma KeepPortKernel(s: State, t: Tid, o: Outcome)
    requires Structure(s) && CanPortKernel(s, t, o)
    ensures Structure(DoPortKernel(s, t, o))
  {
    var s1 := KernelDetach(s, s.threads[t].port, o);
    if o == Released { KeepKernelDrop(s, s.threads[t].port); }
    assert ThreadOk(s1, t);
    PortKernelMoves(s, t, o);
    OneKeeps(s1, DoPortKernel(s, t, o), t);
  }

  lemma OwnerCancelMoves(s: State, s1: State, t: Tid)
    requires CanOwnerCancel(s, t) && s1 == s.(core := CancelHandle(s.core, s.threads[t].dpc.gen)) && DetachOk(s1, t)
    requires s.threads[t].dpc.gen in s.core.handleTable
    ensures Moves(s1, DoOwnerCancel(s, t), t)
  {
  }

  lemma KeepOwnerCancel(s: State, t: Tid)
    requires Structure(s) && CanOwnerCancel(s, t)
    ensures Structure(DoOwnerCancel(s, t))
  {
    var s1 := s.(core := CancelHandle(s.core, s.threads[t].dpc.gen));
    assert ThreadOk(s, t);
    CancelKeeps(s, s.threads[t].dpc.gen);
    assert ThreadOk(s1, t);
    OwnerCancelMoves(s, s1, t);
    OneKeeps(s1, DoOwnerCancel(s, t), t);
  }

  lemma OwnerKernelOk(s: State, s1: State, t: Tid, o: Outcome)
    requires CanOwnerKernel(s, t, o) && s1 == KernelDetach(s, s.threads[t].port, o) && DetachOk(s1, t)
    ensures ThreadOk(DoOwnerKernel(s, t, o), t)
  {
  }

  lemma KeepOwnerKernel(s: State, t: Tid, o: Outcome)
    requires Structure(s) && CanOwnerKernel(s, t, o)
    ensures Structure(DoOwnerKernel(s, t, o))
  {
    var s1 := KernelDetach(s, s.threads[t].port, o);
    if o == Released { KeepKernelDrop(s, s.threads[t].port); }
    assert ThreadOk(s1, t);
    OwnerKernelOk(s, s1, t, o);
    OneKeeps(s1, DoOwnerKernel(s, t, o), t);
  }

  lemma OwnerRemoveMoves(s: State, s1: State, t: Tid)
    requires CanOwnerRemove(s, t) && DetachAt(s1, t) && DetachOk(s1, t)
    requires s1 == s.(core := DeleteExactHandle(s.core, s.threads[t].port, s.threads[t].dpc.gen))
    ensures Moves(s1, DoOwnerRemove(s, t), t)
  {
  }

  lemma KeepOwnerRemove(s: State, t: Tid)
    requires Structure(s) && CanOwnerRemove(s, t)
    ensures Structure(DoOwnerRemove(s, t))
  {
    assert ThreadOk(s, t);
    var p, g := s.threads[t].port, s.threads[t].dpc.gen;
    var s1 := s.(core := DeleteExactHandle(s.core, p, g));
    DeleteKeeps(s, p, g);
    assert ThreadOk(s1, t);
    OwnerRemoveMoves(s, s1, t);
    OneKeeps(s1, DoOwnerRemove(s, t), t);
  }

  lemma RemoveOwnKeeps(s: State, t: Tid)
    requires Structure(s) && WatcherAt(s, t) && (s.threads[t].wpc.Reconnecting? || s.threads[t].wpc.Retiring?)
    ensures Structure(RemoveOwnHandle(s, t))
  {
    assert ThreadOk(s, t);
    var g := s.threads[t].gen;
    var h := s.core.handleTable[g];
    if h.attempt.Some? {
      assert LinkOk(s, g);
      var u := s.core.attemptTable[h.attempt.value].owner;
      if OwnerAt(s, u) { assert ThreadOk(s, u); }
    }
    assert !Protected(s, {}, g);
    DeleteKeeps(s, h.port, g);
  }

  lemma KeepWatcherExhausted(s: State, t: Tid)
    requires Structure(s) && CanWatcherExhausted(s, t)
    ensures Structure(DoWatcherExhausted(s, t))
  {
    RemoveOwnKeeps(s, t);
    ExitMoves(RemoveOwnHandle(s, t), t);
  }

  lemma KeepWatcherRetire(s: State, t: Tid)
    requires Structure(s) && CanWatcherRetire(s, t)
    ensures Structure(DoWatcherRetire(s, t))
  {
    RemoveOwnKeeps(s, t);
    ExitMoves(RemoveOwnHandle(s, t), t);
  }

  /** A watcher that has removed its handle, or found nothing to remove, exits. */
  lemma ExitMoves(s: State, t: Tid)
    requires Structure(s) && WatcherAt(s, t) && (s.threads[t].wpc.Reconnecting? || s.threads[t].wpc.Retiring?)
    ensures Structure(SetW(s, t, Exiting))
  {
    assert ThreadOk(s, t);
    ExitIsMove(s, t);
    OneKeeps(s, SetW(s, t, Exiting), t);
  }

  lemma ExitIsMove(s: State, t: Tid)
    requires WatcherOk(s, t) && (s.threads[t].wpc.Reconnecting? || s.threads[t].wpc.Retiring?)
    ensures Moves(s, SetW(s, t, Exiting), t)
  {
  }

  lemma LostReleaseMoves(s: State, s2: State, t: Tid, o: Outcome)
    requires CanAttachLostRelease(s, t, o) && AttachAt(s2, t) && AttachOk(s2, t)
    requires
      var s1 := KernelDetach(s, s.threads[t].apc.port, o);
      s2 == if o == Failed then s1.(leaked := s1.leaked + {t}) else s1
    ensures Moves(s2, DoAttachLostRelease(s, t, o), t)
  {
  }

  lemma KeepAttachLostRelease(s: State, t: Tid, o: Outcome)
    requires Structure(s) && CanAttachLostRelease(s, t, o)
    ensures Structure(DoAttachLostRelease(s, t, o))
  {
    assert ThreadOk(s, t);
    var s1 := KernelDetach(s, s.threads[t].apc.port, o);
    if o == Released { KeepKernelDrop(s, s.threads[t].apc.port); }
    var s2 := if o == Failed then s1.(leaked := s1.leaked + {t}) else s1;
    if o == Failed { LeakKeeps(s1, t); }
    assert ThreadOk(s2, t);
    LostReleaseMoves(s, s2, t, o);
    OneKeeps(s2, DoAttachLostRelease(s, t, o), t);
  }

  lemma AttachCompleteOk(s: State, t: Tid)
    requires CanAttachComplete(s, t) && AttachOk(s, t)
    ensures
      var s1, s' := s.(core := CompleteReservation(s.core, t)), DoAttachComplete(s, t);
      && t in s'.threads && ThreadOk(s', t) && s'.threads == s1.threads[t := s'.threads[t]]
      && Advances(s.threads[t], s'.threads[t]) && Settles(s', t, s.threads[t], s'.threads[t])
      && WatchedWithin(s1, t, s'.threads[t], {t}) && SameData(s1, s') && s'.nextTid == s1.nextTid
  {
  }

  lemma KeepAttachComplete(s: State, t: Tid)
    requires Structure(s) && CanAttachComplete(s, t)
    ensures Structure(DoAttachComplete(s, t))
  {
    assert ThreadOk(s, t);
    var s1 := s.(core := CompleteReservation(s.core, t));
    ReservationFlagKeeps(s, s1, t);
    AttachCompleteOk(s, t);
    OneKeeps(s1, DoAttachComplete(s, t), t);
  }

  /** The kernel accepts the socket of a reserved port. */
  ghost predicate GoesLive(s: State, s': State, t: Tid, p: Port) {
    && AttachAt(s, t) && s.threads[t].apc == Handing(p, Reserved) && p !in s.live
    && s' == SetA(s.(live := s.live[p := t]), t, Handing(p, HandedOff))
  }

  lemma GoLiveKeeps(s: State, s': State, t: Tid, p: Port)
    requires Structure(s) && GoesLive(s, s', t, p)
    ensures Structure(s')
  {
    assert ThreadOk(s, t);
    GoLivePorts(s, s', t, p);
    GoLiveObjects(s, s', t, p);
    GoLiveTouched(s, s', t, p);
    TouchKeeps(s, s', t);
  }

  lemma GoLiveTouched(s: State, s': State, t: Tid, p: Port)
    requires FreshOk(s) && Ports(s) && GoesLive(s, s', t, p) && AttachOk(s, t)
    ensures ThreadOk(s', t) && ThreadFrame(s, s', {t}) && WatchedWithin(s, t, s'.threads[t], {t}) && NewThreads(s, s')
    ensures Answers(s', t)
  {
    forall q | q in s'.core.reservations && s'.core.reservations[q] == t
      ensures ReservedOk(s', q)
    {
      assert ReservedOk(s, q);
    }
    forall q | q in s'.live && s'.live[q] == t
      ensures LiveOk(s', q)
    {
      assert q != p ==> LiveOk(s, q);
    }
  }

  lemma GoLivePorts(s: State, s': State, t: Tid, p: Port)
    requires Ports(s) && GoesLive(s, s', t, p)
    requires p in s.core.reservations && s.core.reservations[p] == t
    ensures PortFrame(s, s', {t}) && ClearFrame(s, s')
  {
    forall q | q in s'.core.untracked
      ensures UntrackedOk(s', q)
    {
      assert UntrackedOk(s, q);
    }
  }

  lemma GoLiveObjects(s: State, s': State, t: Tid, p: Port)
    requires FreshOk(s) && Objects(s) && GoesLive(s, s', t, p)
    ensures ObjectFrame(s, s', {t}) && FreshOk(s') && Links(s') && NewHandles(s, s')
    ensures OwnAttempts(s, s', t)
    ensures t in s'.core.reservationTable ==> ReservationOk(s', t)
  {
    forall g | g in s.core.handleTable
      ensures HandleGrows(s, s', {t}, g)
    {
      assert HandleOk(s, g);
    }
    forall g | g in s'.core.handleTable
      ensures LinkOk(s', g)
    {
      assert LinkOk(s, g);
    }
    forall x | x in s'.core.attemptTable && s.core.attemptTable[x].owner == t
      ensures AttemptOk(s', x)
    {
      assert AttemptOk(s, x);
      if s.core.attemptTable[x].target.OnHandle? {
        assert HandleGrows(s, s', {t}, s.core.attemptTable[x].target.gen);
      }
    }
    if t in s.core.reservationTable { assert ReservationOk(s, t); }
  }

  lemma KeepAttachKernel(s: State, t: Tid, accepted: bool)
    requires Structure(s) && CanAttachKernel(s, t)
    ensures Structure(DoAttachKernel(s, t, accepted))
  {
    assert ThreadOk(s, t);
    var p := s.threads[t].apc.port;
    if accepted { GoLiveKeeps(s, DoAttachKernel(s, t, true), t, p); }
    else { OneKeeps(s, DoAttachKernel(s, t, false), t); }
  }
}
