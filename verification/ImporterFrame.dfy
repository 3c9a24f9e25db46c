/**
 * What one step may change. `Frame(s, s', touched)` collects the guarantees
 * every step gives to the threads it does not touch; `FrameKeeps` shows once
 * that they are enough to carry the invariant over to everything untouched,
 * so a step only has to establish the frame and speak for what it touched.
 */
module ImporterFrame {
  import opened Base
  import opened LifecycleGroup
  import opened ImporterCore
  import opened ImporterProtocol
  import opened ImporterInvariant

  /** A thread keeps its identity and what it published. */
  predicate ThreadGrows(a: Thread, b: Thread) {
    && (a.AttachT? ==> b.AttachT? && b.parent == a.parent && b.auto == a.auto)
    && (a.DetachT? ==> b.DetachT? && b.port == a.port && b.rollback == a.rollback)
    && (a.WatcherT? ==> b.WatcherT? && b.gen == a.gen)
    && (PublishedBy(a).Some? ==> PublishedBy(b) == PublishedBy(a))
  }

  ghost predicate ThreadFrame(s: State, s': State, touched: set<Tid>) {
    && s'.base == s.base
    && (s.core.closed ==> s'.core.closed)
    && s.leaked <= s'.leaked
    && (forall u :: u in s.threads ==>
          && u in s'.threads
          && (u !in touched ==> s'.threads[u] == s.threads[u])
          && ThreadGrows(s.threads[u], s'.threads[u]))
  }

  predicate HandleGrows(s: State, s': State, touched: set<Tid>, g: Gen) {
    && g in s.core.handleTable && g in s'.core.handleTable
    && var h := s.core.handleTable[g];
       var h' := s'.core.handleTable[g];
       && h'.port == h.port && h'.op == h.op
       && (h.detaching ==> h'.detaching) && (h.cancelled ==> h'.cancelled)
       && (h'.watcher == h.watcher
           || (h.watcher.Promised? && h.op in touched)
           || (h.watcher.Running? && h.watcher.watcher in touched))
       && (h'.attempt == h.attempt
           || h.attempt.None?
           || (h.attempt.value in s.core.attemptTable && s.core.attemptTable[h.attempt.value].owner in touched
               && s.core.attemptTable[h.attempt.value].result.None?))
       && (Dead(s, g) ==> Dead(s', g))
  }

  predicate AttemptGrows(s: State, s': State, touched: set<Tid>, x: AttemptId) {
    && x in s.core.attemptTable && x in s'.core.attemptTable
    && var a := s.core.attemptTable[x];
       var a' := s'.core.attemptTable[x];
       && a'.target == a.target && a'.owner == a.owner
       && (a.result.Some? || a.owner !in touched ==> a'.result == a.result)
  }

  predicate ReservationGrows(s: State, s': State, touched: set<Tid>, r: Tid) {
    && r in s.core.reservationTable && r in s'.core.reservationTable
    && var v := s.core.reservationTable[r];
       var v' := s'.core.reservationTable[r];
       && v'.port == v.port
       && (!v.fate.Pending? ==> v'.fate == v.fate && v'.attempt == v.attempt && v'.teardown == v.teardown)
       && (r !in touched ==>
             v'.fate == v.fate && v'.attempt == v.attempt && (v.fate.Pending? ==> v'.done == v.done))
  }

  ghost predicate HandleFrame(s: State, s': State, touched: set<Tid>) {
    forall g :: g in s.core.handleTable ==>
      g in s'.core.handleTable && HandleGrows(s, s', touched, g)
  }

  ghost predicate AttemptFrame(s: State, s': State, touched: set<Tid>) {
    forall x :: x in s.core.attemptTable ==>
      x in s'.core.attemptTable && AttemptGrows(s, s', touched, x)
  }

  ghost predicate ReservationFrame(s: State, s': State, touched: set<Tid>) {
    && (forall r :: r in s.core.reservationTable ==>
          r in s'.core.reservationTable && ReservationGrows(s, s', touched, r))
    && (forall r :: r in s'.core.reservationTable ==> r in s.core.reservationTable || r in touched)
  }

  ghost predicate ObjectFrame(s: State, s': State, touched: set<Tid>) {
    && HandleFrame(s, s', touched) && AttemptFrame(s, s', touched) && ReservationFrame(s, s', touched)
  }

  /** The claim on `g` is past its identity check and was not timed out. */
  predicate Protected(s: State, touched: set<Tid>, g: Gen) {
    && g in s.core.handleTable
    && var h := s.core.handleTable[g];
       && h.attempt.Some? && h.attempt.value in s.core.attemptTable
       && var t := s.core.attemptTable[h.attempt.value].owner;
          && t !in touched && OwnerAt(s, t) && s.threads[t].dpc.gen == g
          && s.threads[t].clear && s.threads[t].dpc.phase == Checked(false)
  }

  /** A handle leaves the map only when its socket is gone and no checked
      claim of another thread still relies on it. */
  predicate MayDrop(s: State, s': State, touched: set<Tid>, p: Port) {
    && p in s.core.handles && CurrentOk(s, p)
    && var g := s.core.handles[p];
       && g in s'.core.handleTable && Dead(s', g) && !Protected(s, touched, g)
  }

  ghost predicate PortFrame(s: State, s': State, touched: set<Tid>) {
    && Ports(s)
    && (forall p :: p in s.core.handles ==>
          (p in s'.core.handles && s'.core.handles[p] == s.core.handles[p]) || MayDrop(s, s', touched, p))
    && (forall p :: p in s'.core.handles ==>
          || (p in s.core.handles && s'.core.handles[p] == s.core.handles[p])
          || (s'.core.handles[p] !in s.core.handleTable && CurrentOk(s', p)
              && (p in s'.live ==> s.base <= s'.live[p])))
    && (forall p :: p in s.core.reservations && s.core.reservations[p] !in touched ==>
          p in s'.core.reservations && s'.core.reservations[p] == s.core.reservations[p])
    && (forall p :: p in s'.core.reservations ==>
          || (p in s.core.reservations && s'.core.reservations[p] == s.core.reservations[p])
          || s'.core.reservations[p] in touched)
    && (forall p :: p in s'.core.untracked ==> UntrackedOk(s', p))
    && (forall p :: p in s.core.untracked ==>
          || (p in s'.core.untracked && s'.core.untracked[p] == s.core.untracked[p])
          || (s.core.untracked[p] in s'.core.attemptTable
              && s'.core.attemptTable[s.core.untracked[p]].result.Some?))
    && (forall p :: p in s'.live ==>
          || (p in s.live && s'.live[p] == s.live[p])
          || (s'.live[p] in touched && p in s.core.reservations && s.core.reservations[p] == s'.live[p]))
  }

  /** Clear claims survive on every port whose handle is already detaching. */
  predicate ClearKept(s: State, s': State, p: Port) {
    && p in s.core.handles
    && var g := s.core.handles[p];
       IsDetaching(s.core, p) && IsCurrent(s'.core, p, g) && Clear(s, p, g) ==> Clear(s', p, g)
  }

  ghost predicate ClearFrame(s: State, s': State) {
    forall p :: p in s.core.handles ==> ClearKept(s, s', p)
  }

  /** What a step must show itself: the threads it touched or made, the
      objects those threads answer for, and the objects it made. */
  ghost predicate Touched(s: State, s': State, touched: set<Tid>) {
    && FreshOk(s')
    && (forall t :: t in s'.threads && (t in touched || t !in s.threads) ==> ThreadOk(s', t))
    && (forall g :: g in s'.core.handleTable && g !in s.core.handleTable ==> HandleOk(s', g))
    && Links(s')
    && (forall r :: r in s'.core.reservationTable && r in touched ==> ReservationOk(s', r))
    && (forall x ::
          x in s'.core.attemptTable && (x !in s.core.attemptTable || s.core.attemptTable[x].owner in touched) ==>
            AttemptOk(s', x))
    && (forall p :: p in s'.core.reservations && s'.core.reservations[p] in touched ==> ReservedOk(s', p))
    && (forall p :: p in s'.live && s'.live[p] in touched ==> LiveOk(s', p))
  }

  ghost predicate Frame(s: State, s': State, touched: set<Tid>) {
    && Ports(s)
    && ThreadFrame(s, s', touched) && ObjectFrame(s, s', touched)
    && PortFrame(s, s', touched) && ClearFrame(s, s')
    && Linked(s, s', touched)
  }

  /** Links between an untouched thread and its partner thread. */
  predicate PartnerKept(s: State, s': State, u: Tid) {
    && u in s.threads
    && match s.threads[u]
       case AttachT(_, _, parent, apc) =>
         && (parent.Some? && !(apc.Out? && apc.out.AttachReturned?) ==>
               parent.value in s'.threads && parent.value in s.threads
               && s'.threads[parent.value] == s.threads[parent.value])
         && (apc.Publishing? && apc.compensator.Some? ==>
               apc.compensator.value in s'.threads && apc.compensator.value in s.threads
               && s'.threads[apc.compensator.value] == s.threads[apc.compensator.value])
       case DetachT(_, _, rollback, dpc) =>
         && (rollback.Some? && !(dpc.DetachOut? && dpc.returned) ==>
               rollback.value in s'.threads && rollback.value in s.threads
               && s'.threads[rollback.value] == s.threads[rollback.value])
         && (dpc.Owner? && dpc.phase.Unstarted? && dpc.gen in s.core.handleTable ==>
               var op := s.core.handleTable[dpc.gen].op;
               AttachAt(s', op) && AttachAt(s, op) && s.threads[op].apc.Publishing?
               && s'.threads[op].apc.Publishing? && s'.threads[op].apc.gen == s.threads[op].apc.gen
               && s'.threads[op].apc.compensator == s.threads[op].apc.compensator)
       case WatcherT(_, _, _) => true
  }

  ghost predicate Linked(s: State, s': State, touched: set<Tid>) {
    forall u :: u in s.threads && u !in touched ==> PartnerKept(s, s', u)
  }

  /** Any thread waiting for `v` to leave its old counter is in `group`. */
  predicate WatchedWithin(s: State, v: Tid, b: Thread, group: set<Tid>) {
    && v in s.threads
    && match s.threads[v]
       case WatcherT(_, _, wpc) =>
         (wpc.Attempting? ==> wpc.child in group) && (wpc.RollingBack? ==> wpc.child in group)
       case DetachT(_, _, _, dpc) =>
         dpc.Owner? && dpc.phase.Unstarted? && dpc.gen in s.core.handleTable ==>
           s.core.handleTable[dpc.gen].op in group
       case AttachT(_, _, _, apc) =>
         apc.Publishing? && apc.compensator.Some? ==>
           || apc.compensator.value in group
           || (b.AttachT? && b.apc.Publishing? && b.apc.gen == apc.gen && b.apc.compensator == apc.compensator)
  }

  lemma GroupLinked(s: State, s': State, group: set<Tid>)
    requires Threads(s)
    requires forall u :: u in s.threads ==> u in s'.threads && (u !in group ==> s'.threads[u] == s.threads[u])
    requires forall v :: v in group && v in s.threads ==> WatchedWithin(s, v, s'.threads[v], group)
    ensures Linked(s, s', group)
  {
    forall u | u in s.threads && u !in group
      ensures PartnerKept(s, s', u)
    {
      assert ThreadOk(s, u);
    }
  }

  // --- The frame is enough -------------------------------------------------

  lemma LaunchKeeps(s: State, s': State, touched: set<Tid>, t: Tid)
    requires Structure(s) && ThreadFrame(s, s', touched) && ObjectFrame(s, s', touched)
    requires Linked(s, s', touched)
    requires AttachAt(s, t) && t !in touched && s.threads[t].apc.Publishing?
    ensures
      var Publishing(p, g, d, _) := s.threads[t].apc;
      AttachAt(s', t) && HasHandle(s', t, p, g) && LaunchOk(s', t, p, g, d)
  {
    assert AttachOk(s, t);
    assert PartnerKept(s, s', t);
    assert HandleGrows(s, s', touched, s.threads[t].apc.gen);
    assert ReservationGrows(s, s', touched, t);
  }

  lemma AttachKeeps(s: State, s': State, touched: set<Tid>, t: Tid)
    requires Structure(s) && Frame(s, s', touched)
    requires AttachAt(s, t) && t !in touched
    ensures AttachAt(s', t) && AttachOk(s', t)
  {
    assert AttachOk(s, t);
    assert PartnerKept(s, s', t);
    match s.threads[t].apc
    case Publishing(p, g, d, _) => LaunchKeeps(s, s', touched, t);
    case Out(Some((p, g)), _) => assert HandleGrows(s, s', touched, g);
    case _ =>
  }

  lemma StaysClearKeeps(s: State, s': State, touched: set<Tid>, t: Tid)
    requires Structure(s) && Frame(s, s', touched)
    requires OwnerAt(s, t) && t !in touched && StaysClear(s, t, s.threads[t].dpc.gen)
    ensures OwnerAt(s', t) && StaysClear(s', t, s.threads[t].dpc.gen)
  {
    assert DetachOk(s, t) && OwnerOk(s, t);
    var p, g := s.threads[t].port, s.threads[t].dpc.gen;
    if IsCurrent(s'.core, p, g) {
      assert IsCurrent(s.core, p, g);
      assert ClearKept(s, s', p);
    }
  }

  lemma OwnerLinkKeeps(s: State, s': State, touched: set<Tid>, t: Tid)
    requires Structure(s) && ThreadFrame(s, s', touched) && ObjectFrame(s, s', touched)
    requires OwnerAt(s, t) && t !in touched
    ensures
      var Owner(g, x, _) := s.threads[t].dpc;
      && OwnerAt(s', t) && g in s'.core.handleTable
      && s'.core.handleTable[g].port == s.threads[t].port
      && s'.core.handleTable[g].attempt == Some(x) && s'.core.handleTable[g].detaching
      && x in s'.core.attemptTable && s'.core.attemptTable[x] == Attempt(OnHandle(g), t, None)
      && (Dead(s, g) ==> Dead(s', g))
      && (s.core.handleTable[g].cancelled ==> s'.core.handleTable[g].cancelled)
  {
    assert DetachOk(s, t) && OwnerOk(s, t);
    assert HandleGrows(s, s', touched, s.threads[t].dpc.gen);
    assert AttemptGrows(s, s', touched, s.threads[t].dpc.attempt);
  }

  lemma CheckedStays(s: State, s': State, touched: set<Tid>, t: Tid)
    requires Ports(s) && PortFrame(s, s', touched) && HandleFrame(s, s', touched)
    requires OwnerAt(s, t) && t !in touched && OwnerOk(s, t) && s.threads[t].dpc.phase == Checked(false)
    ensures
      var th := s.threads[t];
      && th.dpc.gen in s'.core.handleTable
      && (s'.core.handleTable[th.dpc.gen].watcher.NoWatcher? || s'.core.handleTable[th.dpc.gen].watcher.Exited?)
      && (th.clear ==> IsCurrent(s'.core, th.port, th.dpc.gen))
  {
    assert HandleGrows(s, s', touched, s.threads[t].dpc.gen);
    if s.threads[t].clear { assert Protected(s, touched, s.threads[t].dpc.gen); }
  }

  lemma CheckedKeeps(s: State, s': State, touched: set<Tid>, t: Tid)
    requires Structure(s) && Frame(s, s', touched)
    requires OwnerAt(s, t) && t !in touched && s.threads[t].dpc.phase == Checked(false)
    ensures
      var th := s.threads[t];
      && th.dpc.gen in s'.core.handleTable
      && (s'.core.handleTable[th.dpc.gen].watcher.NoWatcher? || s'.core.handleTable[th.dpc.gen].watcher.Exited?)
      && (th.clear ==> IsCurrent(s'.core, th.port, th.dpc.gen))
  {
    assert DetachOk(s, t) && OwnerOk(s, t);
    CheckedStays(s, s', touched, t);
  }

  lemma OwnerKeeps(s: State, s': State, touched: set<Tid>, t: Tid)
    requires Structure(s) && Frame(s, s', touched)
    requires OwnerAt(s, t) && t !in touched
    ensures OwnerAt(s', t) && OwnerOk(s', t)
  {
    assert DetachOk(s, t) && OwnerOk(s, t);
    OwnerLinkKeeps(s, s', touched, t);
    StaysClearKeeps(s, s', touched, t);
    var phase := s.threads[t].dpc.phase;
    if phase.Unstarted? { assert PartnerKept(s, s', t); }
    if phase == Checked(false) { CheckedKeeps(s, s', touched, t); }
  }

  lemma DetachKeeps(s: State, s': State, touched: set<Tid>, t: Tid)
    requires Structure(s) && Frame(s, s', touched)
    requires DetachAt(s, t) && t !in touched
    ensures DetachAt(s', t) && DetachOk(s', t)
  {
    assert DetachOk(s, t);
    assert PartnerKept(s, s', t);
    if OwnerAt(s, t) { OwnerKeeps(s, s', touched, t); }
  }

  lemma WatcherStays(s: State, s': State, touched: set<Tid>, t: Tid)
    requires ThreadFrame(s, s', touched) && HandleFrame(s, s', touched) && AttemptFrame(s, s', touched)
    requires WatcherAt(s, t) && t !in touched && WatcherOk(s, t)
    ensures WatcherAt(s', t) && WatcherOk(s', t)
  {
    assert HandleGrows(s, s', touched, s.threads[t].gen);
  }

  lemma WatcherKeeps(s: State, s': State, touched: set<Tid>, t: Tid)
    requires Structure(s) && Frame(s, s', touched)
    requires WatcherAt(s, t) && t !in touched
    ensures WatcherAt(s', t) && WatcherOk(s', t)
  {
    assert ThreadOk(s, t);
    WatcherStays(s, s', touched, t);
  }

  lemma UntouchedThreads(s: State, s': State, touched: set<Tid>)
    requires Structure(s) && Frame(s, s', touched)
    ensures forall t :: t in s.threads && t !in touched ==> t in s'.threads && ThreadOk(s', t)
  {
    forall t | t in s.threads && t !in touched
      ensures t in s'.threads && ThreadOk(s', t)
    {
      match s.threads[t]
      case AttachT(_, _, _, _) => AttachKeeps(s, s', touched, t);
      case DetachT(_, _, _, _) => DetachKeeps(s, s', touched, t);
      case WatcherT(_, _, _) => WatcherKeeps(s, s', touched, t);
    }
  }

  lemma ThreadsKeep(s: State, s': State, touched: set<Tid>)
    requires Structure(s) && Frame(s, s', touched) && Touched(s, s', touched)
    ensures Threads(s')
  {
    UntouchedThreads(s, s', touched);
  }

  lemma AttemptKeeps(s: State, s': State, touched: set<Tid>, x: AttemptId)
    requires Structure(s) && Frame(s, s', touched)
    requires x in s.core.attemptTable && s.core.attemptTable[x].owner !in touched
    ensures x in s'.core.attemptTable && AttemptOk(s', x)
  {
    assert AttemptOk(s, x);
    AttemptFramed(s, s', touched, x);
  }

  lemma AttemptFramed(s: State, s': State, touched: set<Tid>, x: AttemptId)
    requires ThreadFrame(s, s', touched) && HandleFrame(s, s', touched) && AttemptFrame(s, s', touched)
    requires PortFrame(s, s', touched) && x in s.core.attemptTable && AttemptOk(s, x)
    requires s.core.attemptTable[x].owner !in touched
    ensures x in s'.core.attemptTable && AttemptOk(s', x)
  {
    assert AttemptGrows(s, s', touched, x);
    match s.core.attemptTable[x].target
    case OnHandle(g) => assert HandleGrows(s, s', touched, g);
    case OnPort(p) => assert p in s'.core.untracked ==> UntrackedOk(s', p);
  }

  lemma ReservationKeeps(s: State, s': State, touched: set<Tid>, r: Tid)
    requires Structure(s) && Frame(s, s', touched)
    requires r in s.core.reservationTable && r !in touched
    ensures r in s'.core.reservationTable && ReservationOk(s', r)
  {
    assert ReservationOk(s, r);
    ReservationStays(s, s', touched, r);
  }

  lemma ReservationStays(s: State, s': State, touched: set<Tid>, r: Tid)
    requires ThreadFrame(s, s', touched) && HandleFrame(s, s', touched) && AttemptFrame(s, s', touched)
    requires ReservationOk(s, r) && r in s'.core.reservationTable && r !in touched
    requires ReservationGrows(s, s', touched, r)
    ensures ReservationOk(s', r)
  {
    var v := s.core.reservationTable[r];
    if v.fate.Published? { assert HandleGrows(s, s', touched, v.fate.gen); }
  }

  lemma ObjectsKeep(s: State, s': State, touched: set<Tid>)
    requires Structure(s) && Frame(s, s', touched) && Touched(s, s', touched)
    ensures Objects(s')
  {
    forall x | x in s'.core.attemptTable
      ensures AttemptOk(s', x)
    {
      if x in s.core.attemptTable && s.core.attemptTable[x].owner !in touched {
        AttemptKeeps(s, s', touched, x);
      }
    }
    forall r | r in s'.core.reservationTable
      ensures ReservationOk(s', r)
    {
      if r !in touched { ReservationKeeps(s, s', touched, r); }
    }
    forall g | g in s'.core.handleTable
      ensures HandleOk(s', g)
    {
      if g in s.core.handleTable { assert HandleOk(s, g); }
    }
  }

  lemma LiveKeeps(s: State, s': State, touched: set<Tid>, p: Port)
    requires Structure(s) && Frame(s, s', touched)
    requires p in s'.live && s'.live[p] !in touched
    ensures LiveOk(s', p)
  {
    assert LiveOk(s, p);
    var k := s.live[p];
    if k >= s.base && PublishedBy(s.threads[k]).Some? {
      var g := PublishedBy(s.threads[k]).value.1;
      assert AttachOk(s, k);
      assert HasHandle(s, k, p, g);
    }
  }

  lemma PortsKeep(s: State, s': State, touched: set<Tid>)
    requires Structure(s) && Frame(s, s', touched) && Touched(s, s', touched)
    ensures Ports(s')
  {
    forall p | p in s'.live
      ensures LiveOk(s', p)
    {
      if s'.live[p] !in touched { LiveKeeps(s, s', touched, p); }
    }
    forall p | p in s'.core.reservations
      ensures ReservedOk(s', p)
    {
      if s'.core.reservations[p] !in touched { assert ReservedOk(s, p); }
    }
    forall p | p in s'.core.handles
      ensures CurrentOk(s', p)
    {
      if p in s.core.handles { assert CurrentOk(s, p); }
    }
  }

  lemma FrameKeeps(s: State, s': State, touched: set<Tid>)
    requires Structure(s) && Frame(s, s', touched) && Touched(s, s', touched)
    ensures Structure(s')
  {
    PortsKeep(s, s', touched);
    ObjectsKeep(s, s', touched);
    ThreadsKeep(s, s', touched);
  }

  // --- Steps that touch one thread -----------------------------------------

  ghost predicate NewThreads(s: State, s': State) {
    forall u :: u in s'.threads && u !in s.threads ==> ThreadOk(s', u)
  }

  ghost predicate NewHandles(s: State, s': State) {
    forall g :: g in s'.core.handleTable && g !in s.core.handleTable ==> HandleOk(s', g)
  }

  /** Attempts the step made, and those `t` owned. */
  ghost predicate OwnAttempts(s: State, s': State, t: Tid) {
    forall x :: x in s'.core.attemptTable && (x !in s.core.attemptTable || s.core.attemptTable[x].owner == t) ==>
      AttemptOk(s', x)
  }

  /** Live ports and reservations `t` answers for. */
  ghost predicate Answers(s': State, t: Tid) {
    && (forall p :: p in s'.live && s'.live[p] == t ==> LiveOk(s', p))
    && (forall p :: p in s'.core.reservations && s'.core.reservations[p] == t ==> ReservedOk(s', p))
  }

  lemma TouchKeeps(s: State, s': State, t: Tid)
    requires Structure(s) && t in s.threads
    requires ThreadFrame(s, s', {t}) && ObjectFrame(s, s', {t})
    requires PortFrame(s, s', {t}) && ClearFrame(s, s')
    requires WatchedWithin(s, t, s'.threads[t], {t})
    requires FreshOk(s') && Links(s') && ThreadOk(s', t)
    requires NewThreads(s, s') && NewHandles(s, s')
    requires t in s'.core.reservationTable ==> ReservationOk(s', t)
    requires OwnAttempts(s, s', t) && Answers(s', t)
    ensures Structure(s')
  {
    GroupLinked(s, s', {t});
    FrameKeeps(s, s', {t});
  }
}
