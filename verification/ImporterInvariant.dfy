/**
 * The inductive invariant of the importer protocol. Each predicate below
 * speaks about one port, handle, reservation, attempt or thread.
 */
module ImporterInvariant {
  import opened Base
  import opened LifecycleGroup
  import opened ImporterCore
  import opened ImporterProtocol

  predicate HoldsReservation(th: Thread, p: Port) {
    th.AttachT? && th.apc.Handing? && th.apc.port == p
  }

  /** The port and generation an attach has published, if any. */
  function PublishedBy(th: Thread): Option<(Port, Gen)> {
    match th
    case AttachT(_, _, _, Publishing(p, g, _, _)) => Some((p, g))
    case AttachT(_, _, _, Out(r, _)) => r
    case _ => None
  }

  /** The thread owns unfinished attempt `x` on handle `g`. */
  predicate OwnsHandle(th: Thread, g: Gen, x: AttemptId) {
    th.DetachT? && th.dpc.Owner? && th.dpc.gen == g && th.dpc.attempt == x
  }

  /** The thread owns unfinished untracked attempt `x`. */
  predicate OwnsPort(th: Thread, x: AttemptId) {
    th.DetachT? && th.dpc.OnUntracked? && th.dpc.attempt == x
  }

  /** The socket generation `g` was published for is no longer live. */
  predicate Dead(s: State, g: Gen) {
    && g in s.core.handleTable
    && var h := s.core.handleTable[g];
       h.port in s.live ==> s.live[h.port] != h.op
  }

  ghost predicate FreshOk(s: State) {
    && s.base <= s.nextTid
    && (forall t :: t in s.threads ==> s.base <= t < s.nextTid)
    && (forall g :: g in s.core.handleTable ==> g <= s.core.nextGen)
    && (forall x :: x in s.core.attemptTable ==> x < s.core.nextAttempt)
    && (forall r :: r in s.core.reservationTable ==> r < s.nextTid)
    && (forall p :: p in s.live ==> s.live[p] < s.nextTid)
    && (s.leaked != {} ==> s.core.closed)
  }

  predicate HandleOk(s: State, g: Gen) {
    && g in s.core.handleTable
    && var h := s.core.handleTable[g];
       && h.op in s.threads && PublishedBy(s.threads[h.op]) == Some((h.port, g))
       && h.op in s.core.reservationTable && s.core.reservationTable[h.op].fate == Published(g)
  }

  /** A stored attempt is unfinished or succeeded, and the handle is detaching. */
  predicate LinkOk(s: State, g: Gen) {
    && g in s.core.handleTable
    && var h := s.core.handleTable[g];
       h.attempt.Some? ==>
         && h.detaching
         && h.attempt.value in s.core.attemptTable
         && s.core.attemptTable[h.attempt.value].target == OnHandle(g)
         && (s.core.attemptTable[h.attempt.value].result.Some? ==>
               s.core.attemptTable[h.attempt.value].result == Some(Released))
  }

  predicate CurrentOk(s: State, p: Port) {
    && p in s.core.handles
    && var g := s.core.handles[p];
       g in s.core.handleTable && s.core.handleTable[g].port == p
  }

  predicate ReservedOk(s: State, p: Port) {
    && p in s.core.reservations
    && var r := s.core.reservations[p];
       r in s.threads && HoldsReservation(s.threads[r], p)
  }

  predicate UntrackedOk(s: State, p: Port) {
    && p in s.core.untracked
    && var x := s.core.untracked[p];
       && p !in s.core.handles && p !in s.core.reservations
       && x in s.core.attemptTable
       && s.core.attemptTable[x].target == OnPort(p) && s.core.attemptTable[x].result.None?
  }

  predicate ReservationOk(s: State, r: Tid) {
    && r in s.core.reservationTable
    && var c := s.core;
       var v := c.reservationTable[r];
       && AttachAt(s, r)
       && match v.fate
          case Pending => !v.done && v.attempt.None? && HoldsReservation(s.threads[r], v.port)
          case Aborted => v.attempt.None?
          case LostToClose => v.attempt.None? && c.closed
          case Published(g) =>
            && g in c.handleTable && c.handleTable[g].op == r && c.handleTable[g].port == v.port
            && v.attempt.Some? == v.teardown
            && (v.teardown ==>
                  && v.attempt.value in c.attemptTable
                  && c.attemptTable[v.attempt.value].target == OnHandle(g)
                  && c.handleTable[g].watcher.NoWatcher?
                  && c.handleTable[g].detaching)
  }

  predicate AttemptOk(s: State, x: AttemptId) {
    && x in s.core.attemptTable
    && var c := s.core;
       var a := c.attemptTable[x];
       match a.target
       case OnHandle(g) =>
         && g in c.handleTable
         && (a.result.None? ==>
               && c.handleTable[g].attempt == Some(x)
               && a.owner in s.threads && OwnsHandle(s.threads[a.owner], g, x))
         && (a.result == Some(Released) ==> c.handleTable[g].attempt == Some(x))
         && (a.result.Some? && a.result != Some(Failed) ==> Dead(s, g) && !IsCurrent(c, c.handleTable[g].port, g))
       case OnPort(p) =>
         a.result.None? ==>
           && p in c.untracked && c.untracked[p] == x
           && a.owner in s.threads && OwnsPort(s.threads[a.owner], x)
  }

  /** The attach lost its reservation to Close. */
  predicate GaveWay(s: State, k: Tid) {
    k in s.core.reservationTable && s.core.reservationTable[k].fate.LostToClose?
  }

  /** Who answers for a live port: an inherited socket has no handle; our own
      is in flight, or published as the current handle, or leaked by Close. */
  predicate LiveOk(s: State, p: Port) {
    && p in s.live
    && var k := s.live[p];
       if k < s.base then p !in s.core.handles
       else
         && AttachAt(s, k)
         && match s.threads[k].apc
            case Handing(q, phase) => q == p && phase.HandedOff?
            case Lost(q, _) => q == p
            case Publishing(q, g, _, _) => q == p && IsCurrent(s.core, p, g)
            case Out(Some((q, g)), _) => q == p && IsCurrent(s.core, p, g)
            case Out(None, _) => k in s.leaked && GaveWay(s, k)
            case _ => false
  }

  predicate ReservationHeld(s: State, t: Tid, p: Port) {
    && p in s.core.reservations && s.core.reservations[p] == t
    && t in s.core.reservationTable
    && s.core.reservationTable[t].port == p && s.core.reservationTable[t].fate.Pending?
  }

  predicate HasHandle(s: State, t: Tid, p: Port, g: Gen) {
    && g in s.core.handleTable
    && s.core.handleTable[g].op == t && s.core.handleTable[g].port == p
  }

  predicate AttachOk(s: State, t: Tid) {
    && AttachAt(s, t)
    && var c := s.core;
       var th := s.threads[t];
       && (th.parent.Some? && !(th.apc.Out? && th.apc.out.AttachReturned?) ==>
             WatcherAt(s, th.parent.value) && s.threads[th.parent.value].wpc == Attempting(t))
       && match th.apc
          case Dialing => t !in c.reservationTable
          case Handing(p, phase) =>
            && ReservationHeld(s, t, p)
            && (p in s.live ==> phase.HandedOff? && s.live[p] == t)
          case AbortedOpen(p) => t in c.reservationTable && c.reservationTable[t].fate.Aborted?
          case Lost(p, _) => c.closed && t in c.reservationTable && c.reservationTable[t].fate.LostToClose?
          case Publishing(p, g, d, _) => HasHandle(s, t, p, g) && LaunchOk(s, t, p, g, d)
          case Out(r, _) => r.Some? ==> HasHandle(s, t, r.value.0, r.value.1)
  }

  /** What finishAttach will start for a published handle. */
  predicate LaunchOk(s: State, t: Tid, p: Port, g: Gen, d: Option<Tid>) {
    && AttachAt(s, t) && g in s.core.handleTable
    && t in s.core.reservationTable && s.core.reservationTable[t].fate == Published(g)
    && match d
       case Some(u) =>
         && s.core.reservationTable[t].teardown
         && OwnerAt(s, u) && s.threads[u].dpc.phase.Unstarted? && s.threads[u].dpc.gen == g
       case None =>
         && !s.core.reservationTable[t].teardown
         && s.core.handleTable[g].watcher == if s.threads[t].auto then Promised else NoWatcher
  }

  /** A clear claim stays clear while its handle is the current one. */
  predicate StaysClear(s: State, t: Tid, g: Gen) {
    && DetachAt(s, t)
    && var th := s.threads[t];
       th.clear && IsCurrent(s.core, th.port, g) ==> Clear(s, th.port, g)
  }

  predicate OwnerOk(s: State, t: Tid) {
    && OwnerAt(s, t)
    && var c := s.core;
       var th := s.threads[t];
       var Owner(g, x, phase) := th.dpc;
       && g in c.handleTable && c.handleTable[g].port == th.port
       && c.handleTable[g].attempt == Some(x) && c.handleTable[g].detaching
       && x in c.attemptTable && c.attemptTable[x] == Attempt(OnHandle(g), t, None)
       && (th.rollback.None? ==> th.clear) && StaysClear(s, t, g)
       && match phase
          case Unstarted =>
            && th.rollback.None?
            && AttachAt(s, c.handleTable[g].op)
            && var a := s.threads[c.handleTable[g].op].apc;
               a.Publishing? && a.gen == g && a.compensator == Some(t)
          case Claimed => true
          case AwaitWatcher => c.handleTable[g].cancelled
          case Checked(timedOut) =>
            && c.handleTable[g].cancelled
            && (!timedOut ==>
                  && (c.handleTable[g].watcher.NoWatcher? || c.handleTable[g].watcher.Exited?)
                  && (th.clear ==> IsCurrent(c, th.port, g)))
          case Removing(o) => Dead(s, g) && o != Failed
          case Finishing(o) => o != Failed ==> Dead(s, g) && !IsCurrent(c, th.port, g)
  }

  predicate DetachOk(s: State, t: Tid) {
    && DetachAt(s, t)
    && var c := s.core;
       var th := s.threads[t];
       && (th.rollback.Some? && !(th.dpc.DetachOut? && th.dpc.returned) ==>
             && !th.dpc.GaveUp? && !th.dpc.Looking? && !th.dpc.AwaitPublication? && !th.dpc.Following?
             && WatcherAt(s, th.rollback.value) && s.threads[th.rollback.value].wpc == RollingBack(t))
       && match th.dpc
          case Looking => true
          case GaveUp => true
          case AwaitPublication(op) => op in c.reservationTable
          case Following(x) => x in c.attemptTable
          case OnUntracked(x, _) => x in c.attemptTable && c.attemptTable[x] == Attempt(OnPort(th.port), t, None)
          case Owner(_, _, _) => OwnerOk(s, t)
          case DetachOut(x, o, _) => x in c.attemptTable && c.attemptTable[x].result == Some(o)
  }

  predicate WatcherOk(s: State, t: Tid) {
    && WatcherAt(s, t)
    && var c := s.core;
       var th := s.threads[t];
       && th.gen in c.handleTable
       && (!th.wpc.WatcherLeaving? && !th.wpc.WatcherGone? ==> c.handleTable[th.gen].watcher == Running(t))
       && (th.wpc.WatcherLeaving? || th.wpc.WatcherGone? ==> c.handleTable[th.gen].watcher == Exited)
       && match th.wpc
          case Reconnecting => Dead(s, th.gen)
          case Attempting(child) =>
            Dead(s, th.gen) && AttachAt(s, child) && s.threads[child].parent == Some(t)
          case Succeeded(p, g) => Dead(s, th.gen) && g in c.handleTable && c.handleTable[g].port == p
          case Retiring => Dead(s, th.gen)
          case Rollback(p, g, _) => g in c.handleTable && c.handleTable[g].port == p
          case RollingBack(child) => DetachAt(s, child) && s.threads[child].rollback == Some(t)
          case Joining(x) => x in c.attemptTable
          case _ => true
  }

  predicate ThreadOk(s: State, t: Tid) {
    && t in s.threads
    && match s.threads[t]
       case AttachT(_, _, _, _) => AttachOk(s, t)
       case DetachT(_, _, _, _) => DetachOk(s, t)
       case WatcherT(_, _, _) => WatcherOk(s, t)
  }

  ghost predicate Ports(s: State) {
    && (forall p :: p in s.core.handles ==> CurrentOk(s, p))
    && (forall p :: p in s.core.reservations ==> ReservedOk(s, p))
    && (forall p :: p in s.core.untracked ==> UntrackedOk(s, p))
    && (forall p :: p in s.live ==> LiveOk(s, p))
  }

  ghost predicate Links(s: State) {
    forall g :: g in s.core.handleTable ==> LinkOk(s, g)
  }

  ghost predicate Objects(s: State) {
    && (forall g :: g in s.core.handleTable ==> HandleOk(s, g))
    && Links(s)
    && (forall r :: r in s.core.reservationTable ==> ReservationOk(s, r))
    && (forall x :: x in s.core.attemptTable ==> AttemptOk(s, x))
  }

  ghost predicate Threads(s: State) {
    forall t :: t in s.threads ==> ThreadOk(s, t)
  }

  ghost predicate Structure(s: State) {
    FreshOk(s) && Ports(s) && Objects(s) && Threads(s)
  }
}
