/**
 * How a rollback whose claim was not clear comes to release a socket that is
 * not its own, without any wait having expired.
 */
module ImporterHazard {
  import opened Base
  import opened ImporterCore
  import opened ImporterProtocol
  import opened ImporterInvariant
  import opened ImporterHistory
  import opened ImporterRuns
  import opened ImporterTouch
  import opened ImporterOrder
  import opened ImporterAwaited
  import opened ImporterProgress
  import opened ImporterStop
  import opened ImporterStopWatcher

  /** Owner `t` has seen its watcher end and is about to ask the kernel to
      release a socket that is not the one its generation was published for. */
  predicate HitsForeign(s: State, t: Tid) {
    && CanOwnerKernel(s, t, Released) && s.threads[t].dpc.phase == Checked(false)
    && s.threads[t].dpc.gen in s.core.handleTable
    && s.live[s.threads[t].port] != s.core.handleTable[s.threads[t].dpc.gen].op
  }

  /** Some continuation has owner `t` release a foreign socket. */
  ghost predicate Hazard(s: State, t: Tid) { exists after :: Reaches(s, after) && HitsForeign(after, t) }

  lemma HazardLater(s: State, m: State, t: Tid)
    requires Reaches(s, m) && Hazard(m, t)
    ensures Hazard(s, t)
  {
    var after :| Reaches(m, after) && HitsForeign(after, t);
    ReachesOn(s, m, after);
  }

  lemma HazardNow(s: State, t: Tid)
    requires HitsForeign(s, t)
    ensures Hazard(s, t)
  {
    RunNowhere(s);
    assert Reaches(s, s);
  }

  lemma HazardStep(s: State, t: Tid, step: Step)
    requires Enabled(s, step) && Hazard(Apply(s, step), t)
    ensures Hazard(s, t)
  {
    OneStep(s, step);
    HazardLater(s, Apply(s, step), t);
  }

  predicate PhaseIs(s: State, t: Tid, phase: OwnerPhase) { OwnerAt(s, t) && s.threads[t].dpc.phase == phase }

  /** Owner `t` of the current generation `g` of `p` waits for its watcher. */
  ghost predicate Poised(s: State, t: Tid, p: Port, g: Gen) {
    OwnerStands(s, t, p, g) && PhaseIs(s, t, AwaitWatcher) && Reachable(s)
  }

  /** Owner `t` is about to release what is live on `p`, for generation `g`. */
  predicate Pointing(s: State, t: Tid, p: Port, g: Gen) {
    && OwnerAt(s, t) && s.threads[t].port == p && s.threads[t].dpc.gen == g
    && s.threads[t].dpc.phase == Checked(false) && g in s.core.handleTable
  }

  ghost predicate Aimed(s: State, t: Tid, p: Port, g: Gen) { Pointing(s, t, p, g) && Reachable(s) }

  // --- The three ways a claim fails to be clear ----------------------------

  /** A foreign socket is live on the port. */
  predicate ForeignLive(s: State, p: Port, g: Gen) {
    p in s.live && g in s.core.handleTable && s.live[p] != s.core.handleTable[g].op
  }

  predicate HeldBy(s: State, p: Port, r: Tid, handoff: HandoffPhase) {
    p in s.core.reservations && s.core.reservations[p] == r && AttachAt(s, r) && s.threads[r].apc == Handing(p, handoff)
  }

  /** A handoff on the port may be accepted at any moment. */
  predicate AboutToBeLive(s: State, p: Port, r: Tid) { HeldBy(s, p, r, Reserved) }

  /** A handoff was accepted and dropped again; its attach will publish. */
  predicate AboutToPublish(s: State, p: Port, r: Tid) {
    HeldBy(s, p, r, HandedOff) && p !in s.live && !s.core.closed
  }

  /** A handoff under way on the port is not harmless. */
  predicate Threatened(s: State, p: Port) {
    p in s.core.reservations && var r := s.core.reservations[p]; AboutToBeLive(s, p, r) || AboutToPublish(s, p, r)
  }

  lemma HolderFacts(s: State, p: Port)
    requires Reachable(s)
    ensures p in s.core.reservations ==>
      var r := s.core.reservations[p];
      r in s.threads && HoldsReservation(s.threads[r], p)
  {
    ReachableInv(s);
    assert p in s.core.reservations ==> ReservedOk(s, p);
  }

  lemma WaysToBeUnclear(s: State, p: Port, g: Gen)
    requires Reachable(s) && g in s.core.handleTable
    ensures !Clear(s, p, g) <==> ForeignLive(s, p, g) || Threatened(s, p)
  {
    HolderFacts(s, p);
    HandleFacts(s, g);
    if p in s.core.reservations { ThreadFacts(s, s.core.reservations[p]); }
  }

  // --- The watcher is stopped ----------------------------------------------

  /** Nothing is left to wait for. */
  predicate Unwatched(s: State, g: Gen) {
    g in s.core.handleTable && (s.core.handleTable[g].watcher.NoWatcher? || s.core.handleTable[g].watcher.Exited?)
  }

  predicate PromisesAt(s: State, op: Tid, g: Gen) {
    op in s.threads && Promises(s.threads[op], g) && g in s.core.handleTable
  }

  predicate Watched(s: State, v: Tid, g: Gen) { WatcherOf(s, v, g) && s.threads[v].wpc.Watching? }

  lemma PromiseMoves(s: State, op: Tid, g: Gen)
    requires PromisesAt(s, op, g) && s.nextTid !in s.threads
    ensures
      var m := AttachApply(s, AttachNext(s, op));
      Watched(m, s.nextTid, g) || (PromisesAt(m, op, g) && Left(m, op) < Left(s, op))
  {
  }

  /** A promised watcher is started. */
  lemma {:induction false} KeepPromise(s: State, op: Tid, p: Port, g: Gen, keep: set<Tid>)
    returns (m: State, v: Tid)
    requires Reachable(s) && Passive(s, keep) && PromisesAt(s, op, g)
    ensures Drives(s, m, p, keep) && Watched(m, v, g)
    decreases Left(s, op)
  {
    AttachCalmStep(s, op, p, keep);
    FreshFacts(s);
    PromiseMoves(s, op, g);
    m, v := Apply(s, ByAttach(AttachNext(s, op))), s.nextTid;
    if !Watched(m, v, g) {
      var n := m;
      StillPassive(s, n, keep);
      m, v := KeepPromise(n, op, p, g, keep);
      DrivesOn(s, n, m, p, keep);
    }
  }

  /** The watcher can be stopped: it is not retiring the handle, and its own
      attempt neither stands by nor reserves the port. */
  predicate Stoppable(s: State, p: Port, g: Gen, keep: set<Tid>) {
    g in s.core.handleTable && s.core.handleTable[g].watcher.Running? ==>
      var v := s.core.handleTable[g].watcher.watcher;
      !Retires(s, v) && AttemptElsewhere(s, v, p, keep)
  }

  lemma StopSlot(s: State, t: Tid, p: Port, g: Gen, keep: set<Tid>) returns (s': State)
    requires Poised(s, t, p, g) && Passive(s, keep) && OneOwner(s, t, keep) && Stoppable(s, p, g, keep)
    ensures Drives(s, s', p, keep) && Unwatched(s', g)
  {
    CurrentFacts(s, p, g);
    HandleFacts(s, g);
    match s.core.handleTable[g].watcher
    case Running(v) =>
      assert Stage(s, t, v, p, g, keep);
      s' := StopWatcher(s, t, v, p, g, keep);
    case Promised =>
      var m, v := KeepPromise(s, s.core.handleTable[g].op, p, g, keep);
      assert Untouched(s, m, t);
      StillPassive(s, m, keep);
      StillOneOwner(s, m, t, keep);
      assert Stage(m, t, v, p, g, keep);
      s' := StopWatcher(m, t, v, p, g, keep);
      DrivesOn(s, m, s', p, keep);
    case _ =>
      DrivesNowhere(s, p, keep);
      s' := s;
  }

  lemma CheckAims(s: State, t: Tid, p: Port, g: Gen)
    requires OwnerStands(s, t, p, g) && PhaseIs(s, t, AwaitWatcher) && Unwatched(s, g)
    ensures CanOwnerCheck(s, t, false) && Pointing(DoOwnerCheck(s, t, false), t, p, g)
  {
  }

  /** The owner gets as far as its kernel call; the port and the attaches
      standing by are as they were. */
  lemma Aim(s: State, t: Tid, p: Port, g: Gen, keep: set<Tid>) returns (s': State)
    requires Poised(s, t, p, g) && Passive(s, keep) && OneOwner(s, t, keep) && Stoppable(s, p, g, keep)
    ensures Drives(s, s', p, keep - {t}) && Aimed(s', t, p, g)
  {
    var m := StopSlot(s, t, p, g, keep);
    assert Untouched(s, m, t);
    DrivesFewer(s, m, p, keep - {t}, keep);
    CheckAims(m, t, p, g);
    CalmStep(m, ByDetach(OwnerCheck(t, false)), p, keep - {t});
    s' := Apply(m, ByDetach(OwnerCheck(t, false)));
    DrivesOn(s, m, s', p, keep - {t});
  }

  // --- A foreign socket is live, or a handoff will make it so --------------

  lemma ForeignHits(s: State, t: Tid, p: Port, g: Gen)
    requires Poised(s, t, p, g) && ForeignLive(s, p, g) && Stoppable(s, p, g, {t})
    ensures Hazard(s, t)
  {
    var e := Aim(s, t, p, g, {t});
    assert HandleKept(s.core, e.core, g);
    HazardNow(e, t);
    HazardLater(s, e, t);
  }

  predicate PublishedByOther(s: State, g: Gen, r: Tid) { g in s.core.handleTable && s.core.handleTable[g].op != r }

  lemma HolderIsForeign(s: State, p: Port, r: Tid, g: Gen)
    requires Reachable(s) && AttachAt(s, r) && PublishedBy(s.threads[r]).None? && g in s.core.handleTable
    ensures PublishedByOther(s, g, r)
  {
    HandleFacts(s, g);
  }

  predicate MayAccept(s: State, r: Tid, p: Port) { CanAttachKernel(s, r) && s.threads[r].apc.port == p }

  lemma AcceptedIsForeign(s: State, t: Tid, p: Port, g: Gen, r: Tid)
    requires Pointing(s, t, p, g) && MayAccept(s, r, p) && PublishedByOther(s, g, r)
    ensures HitsForeign(DoAttachKernel(s, r, true), t)
  {
  }

  lemma AcceptHits(s: State, t: Tid, p: Port, g: Gen, r: Tid)
    requires Pointing(s, t, p, g) && MayAccept(s, r, p) && PublishedByOther(s, g, r)
    ensures Hazard(s, t)
  {
    AcceptedIsForeign(s, t, p, g, r);
    HazardNow(DoAttachKernel(s, r, true), t);
    HazardStep(s, t, ByAttach(AttachKernel(r, true)));
  }

  lemma PairIsPassive(s: State, t: Tid, r: Tid)
    requires PhaseIs(s, t, AwaitWatcher) && AttachAt(s, r) && s.threads[r].apc.Handing?
    ensures Passive(s, {t, r}) && OneOwner(s, t, {t, r}) && {t, r} - {t} == {r}
  {
  }

  /** The owner gets as far while the attach in its handoff stands by. */
  lemma AimBeside(s: State, t: Tid, p: Port, g: Gen, r: Tid, handoff: HandoffPhase) returns (e: State)
    requires Poised(s, t, p, g) && HeldBy(s, p, r, handoff) && Stoppable(s, p, g, {t, r})
    ensures Drives(s, e, p, {r}) && Aimed(e, t, p, g) && HeldBy(e, p, r, handoff)
  {
    PairIsPassive(s, t, r);
    e := Aim(s, t, p, g, {t, r});
    assert Untouched(s, e, r);
  }

  lemma ReservedHits(s: State, t: Tid, p: Port, g: Gen, r: Tid)
    requires Poised(s, t, p, g) && AboutToBeLive(s, p, r) && Stoppable(s, p, g, {t, r})
    ensures Hazard(s, t)
  {
    var e := AimBeside(s, t, p, g, r, Reserved);
    HolderIsForeign(e, p, r, g);
    AcceptHits(e, t, p, g, r);
    HazardLater(s, e, t);
  }

  // --- A new attach takes a vacant port ------------------------------------

  /** A new attach would be granted port `p`. */
  predicate Vacant(s: State, p: Port) {
    && !s.core.closed && p !in s.live && p !in s.core.reservations && p !in s.core.untracked
    && !IsDetaching(s.core, p)
  }

  predicate IsDialing(s: State, b: Tid) { AttachAt(s, b) && s.threads[b].apc.Dialing? }

  lemma StartDials(s: State, key: Key, t: Tid, p: Port, g: Gen)
    requires key !in s.core.inFlight && s.nextTid !in s.threads && Pointing(s, t, p, g) && Vacant(s, p)
    requires PublishedByOther(s, g, s.nextTid)
    ensures
      var m := DoAttachStart(s, key, false);
      IsDialing(m, s.nextTid) && Pointing(m, t, p, g) && Vacant(m, p) && PublishedByOther(m, g, s.nextTid)
  {
  }

  lemma SelectReserves(s: State, b: Tid, t: Tid, p: Port, g: Gen)
    requires IsDialing(s, b) && Vacant(s, p) && Pointing(s, t, p, g) && PublishedByOther(s, g, b)
    ensures CanAttachSelect(s, b, p)
    ensures
      var m := DoAttachSelect(s, b, p);
      MayAccept(m, b, p) && Pointing(m, t, p, g) && PublishedByOther(m, g, b)
  {
  }

  lemma SelectHits(s: State, b: Tid, t: Tid, p: Port, g: Gen)
    requires IsDialing(s, b) && Vacant(s, p) && Pointing(s, t, p, g) && PublishedByOther(s, g, b)
    ensures Hazard(s, t)
  {
    SelectReserves(s, b, t, p, g);
    AcceptHits(DoAttachSelect(s, b, p), t, p, g, b);
    HazardStep(s, t, ByAttach(AttachSelect(b, p)));
  }

  /** A new attach takes the vacant port, and the owner releases its socket. */
  lemma FreshHits(s: State, t: Tid, p: Port, g: Gen)
    requires Aimed(s, t, p, g) && Vacant(s, p)
    ensures Hazard(s, t)
  {
    var key := UnusedNumber(s.core.inFlight);
    FreshFacts(s);
    HandleFacts(s, g);
    StartDials(s, key, t, p, g);
    SelectHits(DoAttachStart(s, key, false), s.nextTid, t, p, g);
    HazardStep(s, t, ByAttach(AttachStart(key, false)));
  }

  // --- The handle is superseded after the check ----------------------------

  predicate Quiescent(s: State, p: Port) { !s.core.closed && p !in s.live && p !in s.core.reservations }

  /** Generation `h` of `p` was born claimed, for owner `d`. */
  predicate BornClaimed(s: State, p: Port, d: Tid, h: Gen) {
    && OwnerStands(s, d, p, h) && h in s.core.handleTable
    && var op := s.core.handleTable[h].op;
       op in s.core.reservationTable && s.core.reservationTable[op].fate == Published(h)
       && s.core.reservationTable[op].teardown
  }

  /** The compensating detach `d` of `h` is on its way to delete the handle. */
  ghost predicate Compensating(s: State, t: Tid, p: Port, g: Gen, d: Tid, h: Gen) {
    BornClaimed(s, p, d, h) && d != t && Quiescent(s, p) && Aimed(s, t, p, g)
  }

  /** A step of another thread; what it does besides is for the caller. */
  lemma OtherStep(s: State, t: Tid, p: Port, g: Gen, step: Step) returns (m: State)
    requires Aimed(s, t, p, g) && Enabled(s, step) && t !in Touches(s, step)
    ensures m == Apply(s, step) && Aimed(m, t, p, g) && Reaches(s, m) && CoreGrows(s.core, m.core)
  {
    m := Apply(s, step);
    OneStep(s, step);
    ReachableStep(s, step);
    FreshFacts(s);
    StepTouch(s, step, t);
    StepIsGrowth(s, step);
    assert HandleKept(s.core, m.core, g);
  }

  /** The steps of the compensating detach once it was started. */
  function CompensationStep(s: State, d: Tid): DetachStep {
    if !OwnerAt(s, d) then DetachStart(0)
    else
      match s.threads[d].dpc.phase
      case Claimed => OwnerCancel(d)
      case AwaitWatcher => OwnerCheck(d, false)
      case Checked(_) => OwnerKernel(d, NotBound)
      case _ => OwnerRemove(d)
  }

  predicate Underway(s: State, d: Tid) {
    && OwnerAt(s, d)
    && (PhaseIs(s, d, Claimed) || PhaseIs(s, d, AwaitWatcher) || s.threads[d].dpc.phase.Checked?
        || PhaseIs(s, d, Removing(NotBound)))
  }

  /** The port has become vacant, or the detach has come closer to that. */
  predicate Vacates(s: State, m: State, p: Port, d: Tid, h: Gen) {
    || Vacant(m, p)
    || (OwnerStands(m, d, p, h) && Quiescent(m, p) && Underway(m, d) && LeftOf(m, d) < LeftOf(s, d))
  }

  lemma CompensationMoves(s: State, p: Port, d: Tid, h: Gen)
    requires OwnerStands(s, d, p, h) && Quiescent(s, p) && p !in s.core.untracked && Unwatched(s, h) && Underway(s, d)
    ensures
      var step := CompensationStep(s, d);
      && DetachEnabled(s, step) && DetachTouches(s, step) == {d}
      && Vacates(s, DetachApply(s, step), p, d, h)
  {
    match s.threads[d].dpc.phase
    case Claimed => assert Vacates(s, DoOwnerCancel(s, d), p, d, h);
    case AwaitWatcher => assert Vacates(s, DoOwnerCheck(s, d, false), p, d, h);
    case Checked(_) => assert Vacates(s, DoOwnerKernel(s, d, NotBound), p, d, h);
    case Removing(_) => RemoveVacates(s, p, d, h);
  }

  lemma RemoveVacates(s: State, p: Port, d: Tid, h: Gen)
    requires OwnerStands(s, d, p, h) && Quiescent(s, p) && p !in s.core.untracked && CanOwnerRemove(s, d)
    ensures Vacant(DoOwnerRemove(s, d), p)
  {
  }

  lemma BornFacts(s: State, p: Port, d: Tid, h: Gen)
    requires Reachable(s) && BornClaimed(s, p, d, h)
    ensures Unwatched(s, h) && p !in s.core.untracked
    ensures IsUnstarted(s, d) ==> Starter(s, s.core.handleTable[h].op, d)
  {
    CurrentFacts(s, p, h);
    ReservationFacts(s, s.core.handleTable[h].op);
    ThreadFacts(s, d);
  }

  lemma StillBorn(s: State, m: State, p: Port, d: Tid, h: Gen)
    requires BornClaimed(s, p, d, h) && OwnerStands(m, d, p, h) && CoreGrows(s.core, m.core)
    ensures BornClaimed(m, p, d, h)
  {
    assert HandleKept(s.core, m.core, h);
    assert ReservationKept(s.core, m.core, s.core.handleTable[h].op);
  }

  lemma CompensationGoesOn(s: State, t: Tid, p: Port, g: Gen, d: Tid, h: Gen) returns (m: State)
    requires Compensating(s, t, p, g, d, h) && Underway(s, d)
    ensures Reaches(s, m) && Aimed(m, t, p, g) && Vacates(s, m, p, d, h)
    ensures Vacant(m, p) || Compensating(m, t, p, g, d, h)
  {
    BornFacts(s, p, d, h);
    CompensationMoves(s, p, d, h);
    m := OtherStep(s, t, p, g, ByDetach(CompensationStep(s, d)));
    if !Vacant(m, p) { StillBorn(s, m, p, d, h); }
  }

  /** It finds the port not bound and deletes the handle: the port is vacant. */
  lemma {:induction false} CompensationHits(s: State, t: Tid, p: Port, g: Gen, d: Tid, h: Gen)
    requires Compensating(s, t, p, g, d, h) && Underway(s, d)
    ensures Hazard(s, t)
    decreases LeftOf(s, d)
  {
    var m := CompensationGoesOn(s, t, p, g, d, h);
    if Vacant(m, p) {
      FreshHits(m, t, p, g);
    } else {
      CompensationHits(m, t, p, g, d, h);
    }
    HazardLater(s, m, t);
  }

  lemma StartStep(s: State, t: Tid, p: Port, g: Gen, d: Tid, h: Gen, op: Tid) returns (m: State)
    requires Compensating(s, t, p, g, d, h) && Starter(s, op, d) && PublishedByOp(s, h, op)
    ensures Reaches(s, m) && Compensating(m, t, p, g, d, h) && PublishedByOp(m, h, op)
    ensures PhaseIs(m, d, Claimed) || (Untouched(s, m, d) && Left(m, op) < Left(s, op))
  {
    assert Passive(s, {t});
    AttachCalmStep(s, op, p, {t});
    FreshFacts(s);
    StartMoves(s, op, d);
    m := Apply(s, ByAttach(AttachNext(s, op)));
    AttachStaysOwner(s, AttachNext(s, op), d);
    assert t in {t} && Untouched(s, m, t);
    assert HandleKept(s.core, m.core, g) && HandleKept(s.core, m.core, h);
    StillBorn(s, m, p, d, h);
  }

  /** The attach that published the claimed handle, until its detach starts. */
  lemma {:induction false} LaunchHits(s: State, t: Tid, p: Port, g: Gen, d: Tid, h: Gen, op: Tid)
    requires Compensating(s, t, p, g, d, h) && IsUnstarted(s, d) && PublishedByOp(s, h, op)
    ensures Hazard(s, t)
    decreases Left(s, op)
  {
    BornFacts(s, p, d, h);
    var m := StartStep(s, t, p, g, d, h, op);
    if PhaseIs(m, d, Claimed) {
      CompensationHits(m, t, p, g, d, h);
    } else {
      LaunchHits(m, t, p, g, d, h, op);
    }
    HazardLater(s, m, t);
  }

  predicate CanPublish(s: State, r: Tid, p: Port, teardown: bool) {
    && CanAttachRegister(s, r) && s.threads[r].apc.port == p && ReservationHeld(s, r, p) && !s.core.closed
    && p !in s.live && s.nextTid !in s.threads && s.core.reservationTable[r].teardown == teardown
  }

  /** A handle born claimed, or a plain one. */
  lemma RegisterMoves(s: State, r: Tid, p: Port, teardown: bool)
    requires CanPublish(s, r, p, teardown)
    ensures
      var m, d, h := DoAttachRegister(s, r), s.nextTid, s.core.nextGen + 1;
      && Quiescent(m, p) && IsCurrent(m.core, p, h)
      && (teardown ==> BornClaimed(m, p, d, h) && IsUnstarted(m, d))
      && (!teardown ==> !IsDetaching(m.core, p))
  {
  }

  /** The owner has checked; now the dropped attach publishes. */
  lemma PublishHits(s: State, t: Tid, p: Port, g: Gen, r: Tid)
    requires Aimed(s, t, p, g) && AboutToPublish(s, p, r)
    ensures Hazard(s, t)
  {
    ThreadFacts(s, r);
    FreshFacts(s);
    var teardown := s.core.reservationTable[r].teardown;
    RegisterMoves(s, r, p, teardown);
    var m := OtherStep(s, t, p, g, ByAttach(AttachRegister(r)));
    var d, h := s.nextTid, s.core.nextGen + 1;
    CurrentFacts(m, p, h);
    if teardown { LaunchHits(m, t, p, g, d, h, m.core.handleTable[h].op); } else { FreshHits(m, t, p, g); }
    HazardLater(s, m, t);
  }

  lemma GapHits(s: State, t: Tid, p: Port, g: Gen, r: Tid)
    requires Poised(s, t, p, g) && AboutToPublish(s, p, r) && Stoppable(s, p, g, {t, r})
    ensures Hazard(s, t)
  {
    var e := AimBeside(s, t, p, g, r, HandedOff);
    PublishHits(e, t, p, g, r);
    HazardLater(s, e, t);
  }
}
