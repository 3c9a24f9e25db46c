/** Steps that create, claim and finish detach attempts, and the publication
    of a handle. */
module ImporterAttemptSteps {
  import opened Base
  import opened LifecycleGroup
  import opened ImporterCore
  import opened ImporterProtocol
  import opened ImporterInvariant
  import opened ImporterFrame
  import opened ImporterSteps
  import opened ImporterDataSteps
  import opened ImporterClaimSteps

  /** What no claim or finish changes. */
  predicate SameRest(s: State, s': State) {
    && s'.base == s.base && s'.live == s.live && s'.leaked == s.leaked
    && s'.core.closed == s.core.closed && s'.core.handles == s.core.handles
    && s'.core.reservations == s.core.reservations
    && s'.core.reservationTable == s.core.reservationTable && s'.core.nextGen == s.core.nextGen
  }

  /** Thread `t` is touched and at most one thread is new. */
  predicate MovesOne(s: State, s': State, t: Tid) {
    && t in s.threads && t in s'.threads && ThreadGrows(s.threads[t], s'.threads[t])
    && !s.threads[t].AttachT?
    && ((s'.threads == s.threads[t := s'.threads[t]] && s'.nextTid == s.nextTid)
        || (s.nextTid in s'.threads && s'.nextTid == s.nextTid + 1
            && s'.threads == s.threads[t := s'.threads[t]][s.nextTid := s'.threads[s.nextTid]]))
  }

  lemma OnlyAttachesAnswer(s: State, t: Tid)
    requires FreshOk(s) && Ports(s) && t in s.threads && !s.threads[t].AttachT?
    ensures forall q :: q in s.live ==> s.live[q] != t
    ensures forall q :: q in s.core.reservations ==> s.core.reservations[q] != t
  {
    forall q | q in s.live
      ensures s.live[q] != t
    {
      assert LiveOk(s, q);
    }
    forall q | q in s.core.reservations
      ensures s.core.reservations[q] != t
    {
      assert ReservedOk(s, q);
    }
  }

  /** Untracked attempts and the identity of handles stay. */
  ghost predicate Spares(s: State, s': State) {
    && (forall x :: x in s.core.attemptTable && s.core.attemptTable[x].target.OnPort? ==>
          x in s'.core.attemptTable && s'.core.attemptTable[x] == s.core.attemptTable[x])
    && (forall g :: g in s.core.handleTable ==>
          g in s'.core.handleTable && s'.core.handleTable[g].op == s.core.handleTable[g].op)
  }

  lemma RestPorts(s: State, s': State, t: Tid)
    requires FreshOk(s) && Ports(s) && SameRest(s, s') && MovesOne(s, s', t)
    requires s'.core.untracked == s.core.untracked && AttemptFrame(s, s', {t}) && Spares(s, s')
    ensures PortFrame(s, s', {t}) && ClearFrame(s, s') && Answers(s', t)
  {
    forall q | q in s'.core.untracked
      ensures UntrackedOk(s', q)
    {
      assert UntrackedOk(s, q);
    }
    OnlyAttachesAnswer(s, t);
  }

  // --- Claiming a handle ---------------------------------------------------

  /** `u` becomes the owner of a fresh attempt on `g`. */
  predicate Claims(s: State, s': State, t: Tid, u: Tid, g: Gen) {
    var x := s.core.nextAttempt;
    && SameRest(s, s') && MovesOne(s, s', t) && (u == t || u !in s.threads) && u in s'.threads
    && s'.core.untracked == s.core.untracked && s'.core.nextAttempt == x + 1
    && g in s.core.handleTable && s.core.handleTable[g].attempt.None?
    && s'.core.handleTable ==
       s.core.handleTable[g := s.core.handleTable[g].(attempt := Some(x), detaching := true)]
    && s'.core.attemptTable == s.core.attemptTable[x := Attempt(OnHandle(g), u, None)]
    && OwnsHandle(s'.threads[u], g, x)
  }

  lemma ClaimObjects(s: State, s': State, t: Tid, u: Tid, g: Gen)
    requires FreshOk(s) && Objects(s) && Claims(s, s', t, u, g)
    requires s.threads[t].DetachT? ==> s.threads[t].dpc.Looking?
    ensures ObjectFrame(s, s', {t}) && FreshOk(s') && Links(s') && OwnAttempts(s, s', t) && NewHandles(s, s')
    ensures ThreadFrame(s, s', {t})
  {
    ClaimTables(s, s', t, u, g);
    forall x | x in s'.core.attemptTable && (x !in s.core.attemptTable || s.core.attemptTable[x].owner == t)
      ensures AttemptOk(s', x)
    {
      assert x in s.core.attemptTable ==> AttemptOk(s, x);
    }
  }

  lemma ClaimTables(s: State, s': State, t: Tid, u: Tid, g: Gen)
    requires FreshOk(s) && Links(s) && Claims(s, s', t, u, g)
    ensures ObjectFrame(s, s', {t}) && FreshOk(s') && Links(s') && ThreadFrame(s, s', {t})
  {
    ClaimHandles(s, s', t, u, g);
    ClaimFresh(s, s', t, u, g);
  }

  lemma ClaimFresh(s: State, s': State, t: Tid, u: Tid, g: Gen)
    requires FreshOk(s) && Claims(s, s', t, u, g)
    ensures FreshOk(s') && ThreadFrame(s, s', {t})
  {
  }

  lemma ClaimHandles(s: State, s': State, t: Tid, u: Tid, g: Gen)
    requires FreshOk(s) && Links(s) && Claims(s, s', t, u, g)
    ensures HandleFrame(s, s', {t}) && AttemptFrame(s, s', {t}) && Links(s')
  {
    assert s.core.nextAttempt !in s.core.attemptTable;
  }

  lemma ClaimSpares(s: State, s': State, t: Tid, u: Tid, g: Gen)
    requires FreshOk(s) && Claims(s, s', t, u, g)
    ensures Spares(s, s')
  {
    assert s.core.nextAttempt !in s.core.attemptTable;
  }

  lemma ClaimKeeps(s: State, s': State, t: Tid, u: Tid, g: Gen)
    requires Structure(s) && Claims(s, s', t, u, g)
    requires s.threads[t].DetachT? ==> s.threads[t].dpc.Looking?
    requires WatchedWithin(s, t, s'.threads[t], {t}) && ThreadOk(s', t) && NewThreads(s, s')
    ensures Structure(s')
  {
    NoReservationOf(s, t);
    ClaimObjects(s, s', t, u, g);
    ClaimSpares(s, s', t, u, g);
    RestPorts(s, s', t);
    TouchKeeps(s, s', t);
  }

  /** Whatever a public Detach may claim is clear. */
  lemma PublicClaimIsClear(s: State, p: Port)
    requires Structure(s) && !s.core.closed && p in s.core.handles && p !in s.core.reservations
    ensures Clear(s, p, s.core.handles[p])
  {
    if p in s.live {
      assert LiveOk(s, p);
      var k := s.live[p];
      assert ThreadOk(s, k);
    }
  }

  lemma LookHandleOk(s: State, t: Tid)
    requires FreshOk(s) && CanDetachLook(s, t) && DetachOk(s, t)
    requires AcquireDetachTarget(s.core, s.threads[t].port, t).1.OwnHandle?
    requires var p := s.threads[t].port; Clear(s, p, s.core.handles[p]) && CurrentOk(s, p)
    ensures
      var s' := DoDetachLook(s, t);
      && Claims(s, s', t, t, s.core.handles[s.threads[t].port])
      && ThreadOk(s', t) && WatchedWithin(s, t, s'.threads[t], {t}) && NewThreads(s, s')
  {
  }

  lemma KeepLookHandle(s: State, t: Tid)
    requires Structure(s) && CanDetachLook(s, t)
    requires AcquireDetachTarget(s.core, s.threads[t].port, t).1.OwnHandle?
    ensures Structure(DoDetachLook(s, t))
  {
    assert ThreadOk(s, t);
    var p := s.threads[t].port;
    assert ReservedIn(s, p);
    PublicClaimIsClear(s, p);
    LookHandleOk(s, t);
    ClaimKeeps(s, DoDetachLook(s, t), t, t, s.core.handles[p]);
  }

  /** Every installed reservation has its object. */
  predicate ReservedIn(s: State, p: Port) {
    p in s.core.reservations ==> s.core.reservations[p] in s.core.reservationTable
  }

  lemma RollbackClaimOk(s: State, t: Tid)
    requires FreshOk(s) && CanWatcherRollbackClaim(s, t) && WatcherOk(s, t)
    requires
      var Rollback(p, g, _) := s.threads[t].wpc;
      IsCurrent(s.core, p, g) && s.core.handleTable[g].attempt.None?
    ensures
      var s' := DoWatcherRollbackClaim(s, t);
      && Claims(s, s', t, s.nextTid, s.threads[t].wpc.gen)
      && ThreadOk(s', t) && WatchedWithin(s, t, s'.threads[t], {t}) && NewThreads(s, s')
  {
    RollbackClaims(s, t);
    RollbackThreads(s, t);
  }

  lemma RollbackThreads(s: State, t: Tid)
    requires FreshOk(s) && CanWatcherRollbackClaim(s, t) && WatcherOk(s, t)
    requires
      var Rollback(p, g, _) := s.threads[t].wpc;
      IsCurrent(s.core, p, g) && s.core.handleTable[g].attempt.None?
    ensures ThreadOk(DoWatcherRollbackClaim(s, t), t) && NewThreads(s, DoWatcherRollbackClaim(s, t))
  {
    assert s.nextTid !in s.threads;
    RollbackOwner(s, t);
  }

  lemma RollbackOwner(s: State, t: Tid)
    requires s.nextTid !in s.threads && CanWatcherRollbackClaim(s, t) && WatcherOk(s, t)
    requires
      var Rollback(p, g, _) := s.threads[t].wpc;
      IsCurrent(s.core, p, g) && s.core.handleTable[g].attempt.None?
    ensures ThreadOk(DoWatcherRollbackClaim(s, t), s.nextTid)
  {
  }

  lemma RollbackClaims(s: State, t: Tid)
    requires FreshOk(s) && CanWatcherRollbackClaim(s, t) && WatcherOk(s, t)
    requires
      var Rollback(p, g, _) := s.threads[t].wpc;
      IsCurrent(s.core, p, g) && s.core.handleTable[g].attempt.None?
    ensures Claims(s, DoWatcherRollbackClaim(s, t), t, s.nextTid, s.threads[t].wpc.gen)
  {
    assert s.nextTid !in s.threads;
  }

  lemma RollbackJoinMoves(s: State, t: Tid)
    requires CanWatcherRollbackClaim(s, t) && WatcherOk(s, t) && LinkOk(s, s.threads[t].wpc.gen)
    requires
      var Rollback(p, g, _) := s.threads[t].wpc;
      !(IsCurrent(s.core, p, g) && s.core.handleTable[g].attempt.None?)
    ensures Moves(s, DoWatcherRollbackClaim(s, t), t)
  {
  }

  lemma KeepWatcherRollbackClaim(s: State, t: Tid)
    requires Structure(s) && CanWatcherRollbackClaim(s, t)
    ensures Structure(DoWatcherRollbackClaim(s, t))
  {
    assert ThreadOk(s, t);
    var Rollback(p, g, _) := s.threads[t].wpc;
    if IsCurrent(s.core, p, g) && s.core.handleTable[g].attempt.None? {
      RollbackClaimOk(s, t);
      ClaimKeeps(s, DoWatcherRollbackClaim(s, t), t, s.nextTid, g);
    } else {
      assert LinkOk(s, g);
      RollbackJoinMoves(s, t);
      OneKeeps(s, DoWatcherRollbackClaim(s, t), t);
    }
  }

  // --- Claiming an untracked port ------------------------------------------

  lemma LookPortTables(s: State, t: Tid)
    requires FreshOk(s) && Links(s) && CanDetachLook(s, t)
    requires AcquireDetachTarget(s.core, s.threads[t].port, t).1.OwnUntracked?
    ensures
      var s' := DoDetachLook(s, t);
      && HandleFrame(s, s', {t}) && AttemptFrame(s, s', {t}) && Links(s') && NewHandles(s, s')
  {
    assert s.core.nextAttempt !in s.core.attemptTable;
    LookPortCore(s.core, s.threads[t].port, t);
  }

  /** A Detach of an unknown port adds one attempt. */
  lemma LookPortCore(c: Core, p: Port, t: Tid)
    requires AcquireDetachTarget(c, p, t).1.OwnUntracked?
    ensures
      var c' := AcquireDetachTarget(c, p, t).0;
      && c'.handleTable == c.handleTable
      && c'.attemptTable == c.attemptTable[c.nextAttempt := Attempt(OnPort(p), t, None)]
  {
  }

  lemma LookPortOk(s: State, t: Tid)
    requires FreshOk(s) && CanDetachLook(s, t) && DetachOk(s, t)
    requires AcquireDetachTarget(s.core, s.threads[t].port, t).1.OwnUntracked?
    ensures
      var s' := DoDetachLook(s, t);
      && ThreadFrame(s, s', {t}) && NewThreads(s, s')
      && ThreadOk(s', t) && WatchedWithin(s, t, s'.threads[t], {t})
      && s'.core.reservationTable == s.core.reservationTable && s'.core.handleTable == s.core.handleTable
      && ReservationFrame(s, s', {t}) && FreshOk(s')
  {
  }

  lemma LookPortAttempts(s: State, t: Tid)
    requires FreshOk(s) && Objects(s) && CanDetachLook(s, t)
    requires AcquireDetachTarget(s.core, s.threads[t].port, t).1.OwnUntracked?
    ensures OwnAttempts(s, DoDetachLook(s, t), t)
  {
    var s' := DoDetachLook(s, t);
    forall x | x in s'.core.attemptTable && (x !in s.core.attemptTable || s.core.attemptTable[x].owner == t)
      ensures AttemptOk(s', x)
    {
      assert x in s.core.attemptTable ==> AttemptOk(s, x);
    }
  }

  lemma LookPortPorts(s: State, t: Tid)
    requires FreshOk(s) && Ports(s) && CanDetachLook(s, t)
    requires AcquireDetachTarget(s.core, s.threads[t].port, t).1.OwnUntracked?
    requires ReservedIn(s, s.threads[t].port)
    ensures
      var s' := DoDetachLook(s, t);
      PortFrame(s, s', {t}) && ClearFrame(s, s') && Answers(s', t)
  {
    var s' := DoDetachLook(s, t);
    var p := s.threads[t].port;
    assert p in s.core.handles ==> CurrentOk(s, p);
    assert s.core.nextAttempt !in s.core.attemptTable;
    forall q | q in s'.core.untracked
      ensures UntrackedOk(s', q)
    {
      assert q in s.core.untracked ==> UntrackedOk(s, q);
    }
    OnlyAttachesAnswer(s, t);
  }

  lemma ReservationsHaveObjects(s: State, p: Port)
    requires Structure(s)
    ensures ReservedIn(s, p)
  {
    if p in s.core.reservations {
      assert ReservedOk(s, p);
      assert ThreadOk(s, s.core.reservations[p]);
    }
  }

  lemma KeepLookPort(s: State, t: Tid)
    requires Structure(s) && CanDetachLook(s, t)
    requires AcquireDetachTarget(s.core, s.threads[t].port, t).1.OwnUntracked?
    ensures Structure(DoDetachLook(s, t))
  {
    assert ThreadOk(s, t);
    ReservationsHaveObjects(s, s.threads[t].port);
    NoReservationOf(s, t);
    LookPortTables(s, t);
    LookPortOk(s, t);
    LookPortAttempts(s, t);
    LookPortPorts(s, t);
    TouchKeeps(s, DoDetachLook(s, t), t);
  }

  lemma KeepDetachLook(s: State, t: Tid)
    requires Structure(s) && CanDetachLook(s, t)
    ensures Structure(DoDetachLook(s, t))
  {
    assert ThreadOk(s, t);
    var p := s.threads[t].port;
    ReservationsHaveObjects(s, p);
    match AcquireDetachTarget(s.core, p, t).1
    case OwnHandle(_, _) => KeepLookHandle(s, t);
    case OwnUntracked(_) => KeepLookPort(s, t);
    case AwaitReservation(op) => KeepLookReserved(s, t);
    case _ =>
      assert p in s.core.handles ==> LinkOk(s, s.core.handles[p]);
      assert p in s.core.untracked ==> UntrackedOk(s, p);
      LookFollowMoves(s, t);
      OneKeeps(s, DoDetachLook(s, t), t);
  }

  lemma LookFollowMoves(s: State, t: Tid)
    requires CanDetachLook(s, t) && DetachOk(s, t)
    requires
      var p := s.threads[t].port;
      var target := AcquireDetachTarget(s.core, p, t).1;
      && (target.TargetClosed? || target.FollowAttempt?)
      && (p in s.core.handles && s.core.handles[p] in s.core.handleTable ==> LinkOk(s, s.core.handles[p]))
      && (p in s.core.untracked ==> UntrackedOk(s, p))
    ensures Moves(s, DoDetachLook(s, t), t)
  {
  }

  lemma LookReservedMoves(s: State, t: Tid)
    requires CanDetachLook(s, t) && DetachOk(s, t)
    requires AcquireDetachTarget(s.core, s.threads[t].port, t).1.AwaitReservation?
    ensures Moves(s.(core := AcquireDetachTarget(s.core, s.threads[t].port, t).0), DoDetachLook(s, t), t)
  {
  }

  lemma KeepLookReserved(s: State, t: Tid)
    requires Structure(s) && CanDetachLook(s, t) && DetachOk(s, t)
    requires AcquireDetachTarget(s.core, s.threads[t].port, t).1.AwaitReservation?
    ensures Structure(DoDetachLook(s, t))
  {
    var p := s.threads[t].port;
    MarkKeeps(s, p, t);
    LookReservedMoves(s, t);
    OneKeeps(s.(core := AcquireDetachTarget(s.core, p, t).0), DoDetachLook(s, t), t);
  }

  // --- Finishing an attempt ------------------------------------------------

  lemma OwnerFinishHandles(s: State, t: Tid)
    requires CanOwnerFinish(s, t) && DetachOk(s, t)
    ensures
      var s' := DoOwnerFinish(s, t);
      HandleFrame(s, s', {t}) && NewHandles(s, s')
  {
  }

  lemma OwnerFinishTables(s: State, t: Tid)
    requires CanOwnerFinish(s, t) && DetachOk(s, t)
    ensures
      var s' := DoOwnerFinish(s, t);
      HandleFrame(s, s', {t}) && AttemptFrame(s, s', {t}) && NewHandles(s, s')
  {
    OwnerFinishHandles(s, t);
  }

  lemma OwnerFinishLinks(s: State, t: Tid)
    requires Links(s) && CanOwnerFinish(s, t) && DetachOk(s, t)
    ensures Links(DoOwnerFinish(s, t))
  {
    var s' := DoOwnerFinish(s, t);
    forall g | g in s'.core.handleTable
      ensures LinkOk(s', g)
    {
      assert LinkOk(s, g);
    }
  }

  lemma OwnerFinishOk(s: State, t: Tid)
    requires FreshOk(s) && CanOwnerFinish(s, t) && DetachOk(s, t)
    ensures
      var s' := DoOwnerFinish(s, t);
      && SameRest(s, s') && MovesOne(s, s', t) && s'.core.untracked == s.core.untracked
      && ThreadFrame(s, s', {t}) && NewThreads(s, s') && ReservationFrame(s, s', {t}) && FreshOk(s')
      && ThreadOk(s', t) && WatchedWithin(s, t, s'.threads[t], {t})
  {
    OwnerFinishRest(s, t);
  }

  lemma OwnerFinishRest(s: State, t: Tid)
    requires CanOwnerFinish(s, t) && DetachOk(s, t)
    ensures
      var s' := DoOwnerFinish(s, t);
      SameRest(s, s') && MovesOne(s, s', t) && s'.core.untracked == s.core.untracked && ThreadFrame(s, s', {t})
  {
  }

  lemma OwnerFinishSpares(s: State, t: Tid)
    requires CanOwnerFinish(s, t) && DetachOk(s, t)
    ensures Spares(s, DoOwnerFinish(s, t))
  {
  }

  lemma OwnerFinishAttempts(s: State, t: Tid)
    requires Objects(s) && CanOwnerFinish(s, t) && DetachOk(s, t)
    ensures OwnAttempts(s, DoOwnerFinish(s, t), t)
  {
    var s' := DoOwnerFinish(s, t);
    OwnerFinishTables(s, t);
    OwnerFinishRest(s, t);
    OwnerFinishNothingNew(s, t);
    forall x | x in s'.core.attemptTable && (x !in s.core.attemptTable || s.core.attemptTable[x].owner == t)
      ensures AttemptOk(s', x)
    {
      assert AttemptOk(s, x);
      if x == s.threads[t].dpc.attempt { FinishedAttempt(s, t); } else { FinishedStays(s, s', t, x); }
    }
  }

  lemma OwnerFinishNothingNew(s: State, t: Tid)
    requires CanOwnerFinish(s, t) && DetachOk(s, t)
    ensures DoOwnerFinish(s, t).core.attemptTable.Keys == s.core.attemptTable.Keys
  {
  }

  lemma FinishedAttempt(s: State, t: Tid)
    requires CanOwnerFinish(s, t) && DetachOk(s, t)
    ensures
      var x := s.threads[t].dpc.attempt;
      x in DoOwnerFinish(s, t).core.attemptTable && AttemptOk(DoOwnerFinish(s, t), x)
  {
  }

  lemma KeepOwnerFinish(s: State, t: Tid)
    requires Structure(s) && CanOwnerFinish(s, t)
    ensures Structure(DoOwnerFinish(s, t))
  {
    assert ThreadOk(s, t);
    NoReservationOf(s, t);
    var s' := DoOwnerFinish(s, t);
    OwnerFinishTables(s, t);
    OwnerFinishLinks(s, t);
    OwnerFinishOk(s, t);
    OwnerFinishAttempts(s, t);
    OwnerFinishSpares(s, t);
    RestPorts(s, s', t);
    TouchKeeps(s, s', t);
  }

  lemma PortFinishTables(s: State, t: Tid)
    requires FreshOk(s) && Links(s) && CanPortFinish(s, t) && DetachOk(s, t)
    ensures
      var s' := DoPortFinish(s, t);
      && HandleFrame(s, s', {t}) && AttemptFrame(s, s', {t}) && Links(s') && NewHandles(s, s')
  {
  }

  lemma PortFinishOk(s: State, t: Tid)
    requires FreshOk(s) && CanPortFinish(s, t) && DetachOk(s, t)
    ensures
      var s' := DoPortFinish(s, t);
      && ThreadFrame(s, s', {t}) && NewThreads(s, s')
      && ThreadOk(s', t) && WatchedWithin(s, t, s'.threads[t], {t})
  {
  }

  lemma PortFinishFresh(s: State, t: Tid)
    requires FreshOk(s) && CanPortFinish(s, t) && DetachOk(s, t)
    ensures
      var s' := DoPortFinish(s, t);
      && ReservationFrame(s, s', {t}) && FreshOk(s')
      && s'.core.reservationTable == s.core.reservationTable && s'.core.handleTable == s.core.handleTable
  {
  }

  lemma PortFinishAttempts(s: State, t: Tid)
    requires FreshOk(s) && Objects(s) && CanPortFinish(s, t) && DetachOk(s, t)
    ensures OwnAttempts(s, DoPortFinish(s, t), t)
  {
    var s' := DoPortFinish(s, t);
    forall x | x in s'.core.attemptTable && (x !in s.core.attemptTable || s.core.attemptTable[x].owner == t)
      ensures AttemptOk(s', x)
    {
      assert AttemptOk(s, x);
    }
  }

  lemma PortFinishPorts(s: State, t: Tid)
    requires FreshOk(s) && Ports(s) && CanPortFinish(s, t) && DetachOk(s, t)
    ensures
      var s' := DoPortFinish(s, t);
      PortFrame(s, s', {t})
  {
    var s' := DoPortFinish(s, t);
    forall q | q in s'.core.untracked
      ensures UntrackedOk(s', q)
    {
      assert UntrackedOk(s, q);
    }
  }

  lemma PortFinishClear(s: State, t: Tid)
    requires FreshOk(s) && Ports(s) && CanPortFinish(s, t)
    ensures
      var s' := DoPortFinish(s, t);
      ClearFrame(s, s') && Answers(s', t)
  {
    OnlyAttachesAnswer(s, t);
  }

  lemma KeepPortFinish(s: State, t: Tid)
    requires Structure(s) && CanPortFinish(s, t)
    ensures Structure(DoPortFinish(s, t))
  {
    assert ThreadOk(s, t);
    NoReservationOf(s, t);
    PortFinishTables(s, t);
    PortFinishOk(s, t);
    PortFinishFresh(s, t);
    PortFinishAttempts(s, t);
    PortFinishPorts(s, t);
    PortFinishClear(s, t);
    TouchKeeps(s, DoPortFinish(s, t), t);
  }
}
