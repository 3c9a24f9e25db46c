/** Each step keeps the invariant. Steps are split into a change of data and a
    change of program counters wherever the invariant holds in between. */
module ImporterSteps {
  import opened Base
  import opened LifecycleGroup
  import opened ImporterCore
  import opened ImporterProtocol
  import opened ImporterInvariant
  import opened ImporterFrame

  // --- Program counters only -----------------------------------------------

  /** The two cores differ at most in the wait group, the in-flight keys, the
      panic flag and the closed flag. */
  predicate SameData(s: State, s': State) {
    && s'.core.handles == s.core.handles && s'.core.reservations == s.core.reservations
    && s'.core.untracked == s.core.untracked && s'.core.nextGen == s.core.nextGen
    && s'.core.handleTable == s.core.handleTable
    && s'.core.reservationTable == s.core.reservationTable
    && s'.core.attemptTable == s.core.attemptTable && s'.core.nextAttempt == s.core.nextAttempt
    && (s.core.closed ==> s'.core.closed)
    && s'.live == s.live && s'.leaked == s.leaked && s'.base == s.base
  }

  /** A counter moves without giving up what other objects rely on. */
  predicate Advances(a: Thread, b: Thread) {
    && ThreadGrows(a, b)
    && (a.AttachT? && a.apc.Handing? ==>
          && b.apc.Handing? && b.apc.port == a.apc.port
          && (b.apc.handoff == a.apc.handoff || a.apc.handoff.Reserved?))
    && (a.AttachT? && a.apc.Out? ==> b.apc.Out? && b.apc.published == a.apc.published)
    && (a.DetachT? && a.dpc.Owner? ==> OwnsHandle(b, a.dpc.gen, a.dpc.attempt))
    && (a.DetachT? && a.dpc.OnUntracked? ==> OwnsPort(b, a.dpc.attempt))
  }

  /** A losing attach answers for its live port until it has released it or
      is known to have leaked it. */
  predicate Settles(s': State, u: Tid, a: Thread, b: Thread) {
    a.AttachT? && a.apc.Lost? && b.AttachT? ==>
      || (b.apc.Lost? && b.apc.port == a.apc.port)
      || (b.apc.Out? && (a.apc.port in s'.live && s'.live[a.apc.port] == u ==>
            b.apc.published.None? && u in s'.leaked && GaveWay(s', u)))
  }

  ghost predicate PcStep(s: State, s': State, touched: set<Tid>) {
    && SameData(s, s')
    && (forall u :: u in s.threads ==>
          && u in s'.threads
          && (u !in touched ==> s'.threads[u] == s.threads[u])
          && Advances(s.threads[u], s'.threads[u]) && Settles(s', u, s.threads[u], s'.threads[u]))
    && (forall u :: u in s'.threads && u !in s.threads ==> s.nextTid <= u < s'.nextTid)
    && s.nextTid <= s'.nextTid
    && Linked(s, s', touched)
    && (forall u :: u in s'.threads && (u in touched || u !in s.threads) ==> ThreadOk(s', u))
  }

  lemma PcPorts(s: State, s': State, touched: set<Tid>)
    requires Ports(s) && PcStep(s, s', touched)
    ensures PortFrame(s, s', touched)
  {
  }

  lemma PcClear(s: State, s': State, touched: set<Tid>)
    requires Ports(s) && PcStep(s, s', touched)
    ensures ClearFrame(s, s')
  {
    forall p | p in s.core.handles
      ensures ClearKept(s, s', p)
    {
    }
  }

  lemma PcAnswers(s: State, s': State, touched: set<Tid>)
    requires Ports(s) && PcStep(s, s', touched)
    ensures forall p :: p in s'.live ==> LiveOk(s', p)
    ensures forall p :: p in s'.core.reservations ==> ReservedOk(s', p)
  {
    forall p | p in s'.live
      ensures LiveOk(s', p)
    {
      assert LiveOk(s, p);
    }
    forall p | p in s'.core.reservations
      ensures ReservedOk(s', p)
    {
      assert ReservedOk(s, p);
    }
  }

  lemma PcObjects(s: State, s': State, touched: set<Tid>)
    requires FreshOk(s) && Objects(s) && PcStep(s, s', touched)
    ensures Objects(s')
  {
    forall r | r in s'.core.reservationTable
      ensures ReservationOk(s', r)
    {
      assert ReservationOk(s, r);
    }
    forall x | x in s'.core.attemptTable
      ensures AttemptOk(s', x)
    {
      assert AttemptOk(s, x);
    }
    forall g | g in s'.core.handleTable
      ensures HandleOk(s', g) && LinkOk(s', g)
    {
      assert HandleOk(s, g) && LinkOk(s, g);
    }
  }

  lemma PcFrame(s: State, s': State, touched: set<Tid>)
    requires Ports(s) && PcStep(s, s', touched)
    ensures Frame(s, s', touched)
  {
    PcPorts(s, s', touched);
    PcClear(s, s', touched);
  }

  lemma PcKeeps(s: State, s': State, touched: set<Tid>)
    requires Structure(s) && PcStep(s, s', touched)
    ensures Structure(s')
  {
    PcFrame(s, s', touched);
    PcAnswers(s, s', touched);
    PcObjects(s, s', touched);
    ThreadsMove(s, s', touched);
    PcFresh(s, s', touched);
  }

  lemma PcFresh(s: State, s': State, touched: set<Tid>)
    requires FreshOk(s) && Ports(s) && PcStep(s, s', touched)
    ensures FreshOk(s')
    ensures forall p :: p in s'.core.handles ==> CurrentOk(s', p)
    ensures forall p :: p in s'.core.untracked ==> UntrackedOk(s', p)
  {
  }

  lemma ThreadsMove(s: State, s': State, touched: set<Tid>)
    requires Structure(s) && PcStep(s, s', touched) && Frame(s, s', touched)
    ensures Threads(s')
  {
    UntouchedThreads(s, s', touched);
  }

  /** One thread moves; nothing else changes. */
  ghost predicate Moves(s: State, s': State, t: Tid) {
    && t in s.threads && t in s'.threads
    && s'.threads == s.threads[t := s'.threads[t]] && s'.nextTid == s.nextTid && SameData(s, s')
    && Advances(s.threads[t], s'.threads[t]) && Settles(s', t, s.threads[t], s'.threads[t])
    && WatchedWithin(s, t, s'.threads[t], {t})
    && ThreadOk(s', t)
  }

  lemma OneKeeps(s: State, s': State, t: Tid)
    requires Structure(s) && Moves(s, s', t)
    ensures Structure(s')
  {
    GroupLinked(s, s', {t});
    MovesIsPcStep(s, s', t);
    PcKeeps(s, s', {t});
  }

  lemma MovesIsPcStep(s: State, s': State, t: Tid)
    requires Moves(s, s', t) && Linked(s, s', {t})
    ensures PcStep(s, s', {t})
  {
  }

  /** Steps that move one thread and nothing else. */
  predicate PlainAttach(s: State, step: AttachStep) {
    || step.AttachGiveUp? || step.AttachRelease?
    || (step.AttachLeave? && AttachAt(s, step.t) && s.threads[step.t].parent.None?)
  }

  predicate PlainDetach(s: State, step: DetachStep) {
    || step.DetachPublication? || step.DetachGiveUp? || step.DetachFollow?
    || (step.OwnerLeave? && DetachAt(s, step.t) && s.threads[step.t].rollback.None?)
  }

  predicate PlainWatcher(step: WatcherStep) {
    || step.WatcherDetect? || step.WatcherCancelled? || step.WatcherSucceeded? || step.WatcherRollbackCheck?
    || step.WatcherJoined? || step.WatcherLeave?
  }

  lemma PlainAttachMoves(s: State, step: AttachStep)
    requires AttachEnabled(s, step) && PlainAttach(s, step) && AttachOk(s, step.t)
    ensures Moves(s, AttachApply(s, step), step.t)
  {
  }

  lemma PlainDetachMoves(s: State, step: DetachStep)
    requires DetachEnabled(s, step) && PlainDetach(s, step) && DetachOk(s, step.t)
    requires step.DetachPublication? ==> ReservationOk(s, s.threads[step.t].dpc.op)
    ensures Moves(s, DetachApply(s, step), step.t)
  {
  }

  lemma WatcherSetMoves(s: State, t: Tid, wpc: WatcherPc)
    requires WatcherAt(s, t) && !s.threads[t].wpc.Attempting? && !s.threads[t].wpc.RollingBack?
    requires WatcherOk(SetW(s, t, wpc), t)
    ensures Moves(s, SetW(s, t, wpc), t)
  {
  }

  lemma WatcherLeaveMoves(s: State, t: Tid)
    requires CanWatcherLeave(s, t) && WatcherOk(s, t)
    ensures Moves(s, DoWatcherLeave(s, t), t)
  {
  }

  /** The counter a plain step of a watcher sets. */
  lemma PlainWatcherSets(s: State, step: WatcherStep) returns (wpc: WatcherPc)
    requires WatcherEnabled(s, step) && PlainWatcher(step) && !step.WatcherLeave? && WatcherOk(s, step.t)
    ensures WatcherApply(s, step) == SetW(s, step.t, wpc) && WatcherOk(SetW(s, step.t, wpc), step.t)
    ensures !s.threads[step.t].wpc.Attempting? && !s.threads[step.t].wpc.RollingBack?
  {
    wpc := WatcherApply(s, step).threads[step.t].wpc;
  }

  lemma PlainWatcherMoves(s: State, step: WatcherStep)
    requires WatcherEnabled(s, step) && PlainWatcher(step) && WatcherOk(s, step.t)
    ensures Moves(s, WatcherApply(s, step), step.t)
  {
    if step.WatcherLeave? {
      WatcherLeaveMoves(s, step.t);
    } else {
      var wpc := PlainWatcherSets(s, step);
      WatcherSetMoves(s, step.t, wpc);
    }
  }

  lemma KeepPlainAttach(s: State, step: AttachStep)
    requires Structure(s) && AttachEnabled(s, step) && PlainAttach(s, step)
    ensures Structure(AttachApply(s, step))
  {
    assert ThreadOk(s, step.t);
    PlainAttachMoves(s, step);
    OneKeeps(s, AttachApply(s, step), step.t);
  }

  lemma KeepPlainDetach(s: State, step: DetachStep)
    requires Structure(s) && DetachEnabled(s, step) && PlainDetach(s, step)
    ensures Structure(DetachApply(s, step))
  {
    assert ThreadOk(s, step.t);
    if step.DetachPublication? { assert ReservationOk(s, s.threads[step.t].dpc.op); }
    PlainDetachMoves(s, step);
    OneKeeps(s, DetachApply(s, step), step.t);
  }

  lemma KeepPlainWatcher(s: State, step: WatcherStep)
    requires Structure(s) && WatcherEnabled(s, step) && PlainWatcher(step)
    ensures Structure(WatcherApply(s, step))
  {
    assert ThreadOk(s, step.t);
    PlainWatcherMoves(s, step);
    OneKeeps(s, WatcherApply(s, step), step.t);
  }

  lemma NotCurrentIsDead(s: State, g: Gen)
    requires FreshOk(s) && Ports(s) && Objects(s) && g in s.core.handleTable
    requires !IsCurrent(s.core, s.core.handleTable[g].port, g)
    ensures Dead(s, g)
  {
    assert HandleOk(s, g);
    var p := s.core.handleTable[g].port;
    if p in s.live { assert LiveOk(s, p); }
  }

  lemma OwnerCheckOk(s: State, t: Tid, timedOut: bool)
    requires CanOwnerCheck(s, t, timedOut) && DetachOk(s, t)
    requires !IsCurrent(s.core, s.threads[t].port, s.threads[t].dpc.gen) ==> Dead(s, s.threads[t].dpc.gen)
    ensures Moves(s, DoOwnerCheck(s, t, timedOut), t)
  {
  }

  lemma KeepOwnerCheck(s: State, t: Tid, timedOut: bool)
    requires Structure(s) && CanOwnerCheck(s, t, timedOut)
    ensures Structure(DoOwnerCheck(s, t, timedOut))
  {
    assert ThreadOk(s, t);
    var g := s.threads[t].dpc.gen;
    if !IsCurrent(s.core, s.threads[t].port, g) { NotCurrentIsDead(s, g); }
    OwnerCheckOk(s, t, timedOut);
    OneKeeps(s, DoOwnerCheck(s, t, timedOut), t);
  }

  lemma SpawnIsStep(s: State, s': State, th: Thread)
    requires s.nextTid !in s.threads && s'.threads == s.threads[s.nextTid := th] && s'.nextTid == s.nextTid + 1
    requires SameData(s, s') && ThreadOk(s', s.nextTid) && Linked(s, s', {})
    ensures PcStep(s, s', {})
  {
  }

  /** A thread starts; nothing else changes. */
  lemma SpawnKeeps(s: State, s': State, th: Thread)
    requires Structure(s) && s'.threads == s.threads[s.nextTid := th] && s'.nextTid == s.nextTid + 1
    requires SameData(s, s') && ThreadOk(s', s.nextTid)
    ensures Structure(s')
  {
    assert s.nextTid !in s.threads;
    GroupLinked(s, s', {});
    SpawnIsStep(s, s', th);
    PcKeeps(s, s', {});
  }

  lemma KeepAttachStart(s: State, key: Key, auto: bool)
    requires Structure(s)
    ensures Structure(DoAttachStart(s, key, auto))
  {
    var s' := DoAttachStart(s, key, auto);
    if s' != s {
      SpawnKeeps(s, s', AttachT(key, auto, None, Dialing));
    }
  }

  lemma KeepDetachStart(s: State, p: Port)
    requires Structure(s)
    ensures Structure(DoDetachStart(s, p))
  {
    SpawnKeeps(s, DoDetachStart(s, p), DetachT(p, true, None, Looking));
  }

  /** Only the wait group or the closed flag changes. */
  lemma QuietKeeps(s: State, s': State)
    requires Structure(s) && s'.threads == s.threads && s'.nextTid == s.nextTid && SameData(s, s')
    ensures Structure(s')
  {
    GroupLinked(s, s', {});
    PcKeeps(s, s', {});
  }

  // --- Two threads hand over to each other ---------------------------------

  ghost predicate PairMoves(s: State, s': State, t: Tid, u: Tid) {
    && t in s.threads && u in s.threads && t != u && t in s'.threads && u in s'.threads
    && s'.threads == s.threads[t := s'.threads[t]][u := s'.threads[u]]
    && s'.nextTid == s.nextTid && SameData(s, s')
    && Advances(s.threads[t], s'.threads[t]) && Advances(s.threads[u], s'.threads[u])
    && !(s.threads[t].AttachT? && s.threads[t].apc.Lost?) && !(s.threads[u].AttachT? && s.threads[u].apc.Lost?)
    && ThreadOk(s', t) && ThreadOk(s', u)
    && WatchedWithin(s, t, s'.threads[t], {t, u}) && WatchedWithin(s, u, s'.threads[u], {t, u})
  }

  lemma PairIsPcStep(s: State, s': State, t: Tid, u: Tid)
    requires PairMoves(s, s', t, u) && Linked(s, s', {t, u})
    ensures PcStep(s, s', {t, u})
  {
  }

  lemma PairKeeps(s: State, s': State, t: Tid, u: Tid)
    requires Structure(s) && PairMoves(s, s', t, u)
    ensures Structure(s')
  {
    GroupLinked(s, s', {t, u});
    PairIsPcStep(s, s', t, u);
    PcKeeps(s, s', {t, u});
  }

  lemma AttachLeaveOk(s: State, t: Tid, w: Tid)
    requires CanAttachLeave(s, t) && AttachOk(s, t) && s.threads[t].parent == Some(w)
    requires WatcherAt(s, w) && WatcherOk(s, w)
    ensures PairMoves(s, DoAttachLeave(s, t), t, w)
  {
  }

  lemma KeepChildAttachLeave(s: State, t: Tid)
    requires Structure(s) && CanAttachLeave(s, t) && s.threads[t].parent.Some?
    ensures Structure(DoAttachLeave(s, t))
  {
    assert ThreadOk(s, t);
    var w := s.threads[t].parent.value;
    assert ThreadOk(s, w);
    AttachLeaveOk(s, t, w);
    PairKeeps(s, DoAttachLeave(s, t), t, w);
  }

  lemma OwnerLeaveOk(s: State, t: Tid, w: Tid)
    requires CanOwnerLeave(s, t) && DetachOk(s, t) && s.threads[t].rollback == Some(w)
    requires WatcherAt(s, w) && WatcherOk(s, w)
    ensures PairMoves(s, DoOwnerLeave(s, t), t, w)
  {
  }

  lemma KeepChildOwnerLeave(s: State, t: Tid)
    requires Structure(s) && CanOwnerLeave(s, t) && s.threads[t].rollback.Some?
    ensures Structure(DoOwnerLeave(s, t))
  {
    assert ThreadOk(s, t);
    var w := s.threads[t].rollback.value;
    assert ThreadOk(s, w);
    OwnerLeaveOk(s, t, w);
    PairKeeps(s, DoOwnerLeave(s, t), t, w);
  }

  lemma LaunchCompensationOk(s: State, t: Tid, d: Tid)
    requires CanAttachLaunch(s, t) && AttachOk(s, t) && s.threads[t].apc.compensator == Some(d)
    requires OwnerAt(s, d) && DetachOk(s, d)
    ensures PairMoves(s, DoAttachLaunch(s, t), t, d)
  {
  }

  lemma KeepLaunchCompensation(s: State, t: Tid)
    requires Structure(s) && CanAttachLaunch(s, t) && s.threads[t].apc.compensator.Some?
    ensures Structure(DoAttachLaunch(s, t))
  {
    assert ThreadOk(s, t);
    var d := s.threads[t].apc.compensator.value;
    assert ThreadOk(s, d);
    LaunchCompensationOk(s, t, d);
    PairKeeps(s, DoAttachLaunch(s, t), t, d);
  }

  /** `t` moves and one thread starts. */
  ghost predicate MovesAndSpawns(s: State, s': State, t: Tid) {
    && t in s.threads && t in s'.threads && s.nextTid !in s.threads && s.nextTid in s'.threads
    && s'.nextTid == s.nextTid + 1 && SameData(s, s')
    && s'.threads == s.threads[t := s'.threads[t]][s.nextTid := s'.threads[s.nextTid]]
    && ThreadOk(s', t) && ThreadOk(s', s.nextTid)
    && Advances(s.threads[t], s'.threads[t]) && Settles(s', t, s.threads[t], s'.threads[t])
    && WatchedWithin(s, t, s'.threads[t], {t})
  }

  lemma WatcherAttemptOk(s: State, t: Tid)
    requires FreshOk(s) && CanWatcherAttempt(s, t) && WatcherOk(s, t)
    requires AcquireAttachSlot(s.core, s.threads[t].key).1.SlotGranted?
    ensures MovesAndSpawns(s, DoWatcherAttempt(s, t), t)
  {
  }

  lemma SpawnIsPcStep(s: State, s': State, t: Tid)
    requires MovesAndSpawns(s, s', t) && Linked(s, s', {t})
    ensures PcStep(s, s', {t})
  {
  }

  lemma AttemptRefusedMoves(s: State, t: Tid)
    requires CanWatcherAttempt(s, t) && WatcherOk(s, t) && s.core.closed
    ensures Moves(s, DoWatcherAttempt(s, t), t)
  {
  }

  lemma KeepAttemptGranted(s: State, t: Tid)
    requires Structure(s) && CanWatcherAttempt(s, t) && WatcherOk(s, t)
    requires AcquireAttachSlot(s.core, s.threads[t].key).1.SlotGranted?
    ensures Structure(DoWatcherAttempt(s, t))
  {
    var s' := DoWatcherAttempt(s, t);
    WatcherAttemptOk(s, t);
    GroupLinked(s, s', {t});
    SpawnIsPcStep(s, s', t);
    PcKeeps(s, s', {t});
  }

  lemma KeepWatcherAttempt(s: State, t: Tid)
    requires Structure(s) && CanWatcherAttempt(s, t)
    ensures Structure(DoWatcherAttempt(s, t))
  {
    assert ThreadOk(s, t);
    var s' := DoWatcherAttempt(s, t);
    var (_, r) := AcquireAttachSlot(s.core, s.threads[t].key);
    match r
    case SlotClosed => AttemptRefusedMoves(s, t); OneKeeps(s, s', t);
    case SlotBusy =>
    case SlotGranted => KeepAttemptGranted(s, t);
  }
}
