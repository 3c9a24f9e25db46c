/**
 * The watcher of a claimed generation can be brought to its exit without
 * touching the claim's port, unless it is retiring the handle.
 */
module ImporterStopWatcher {
  import opened Base
  import opened ImporterCore
  import opened ImporterProtocol
  import opened ImporterInvariant
  import opened ImporterHistory
  import opened ImporterRuns
  import opened ImporterTouch
  import opened ImporterCalm
  import opened ImporterOrder
  import opened ImporterAwaited
  import opened ImporterProgress
  import opened ImporterStop

  // --- A rollback comes to its end -----------------------------------------

  /** Watcher `v` of generation `g` waits for rollback `d`, which is no
      bystander and whose generation is not the current one of `p`. */
  ghost predicate Rolling(s: State, v: Tid, g: Gen, d: Tid, p: Port, keep: set<Tid>) {
    && WatcherAt(s, v) && s.threads[v].gen == g && s.threads[v].wpc == RollingBack(d)
    && d !in keep && DetachAt(s, d) && (OwnerAt(s, d) ==> !IsCurrent(s.core, p, s.threads[d].dpc.gen))
    && Reachable(s) && Passive(s, keep)
  }

  predicate IsExiting(s: State, v: Tid, g: Gen) {
    WatcherAt(s, v) && s.threads[v].gen == g && s.threads[v].wpc.Exiting?
  }

  /** What detach `d` has left to do. */
  function LeftOf(s: State, d: Tid): nat { if DetachAt(s, d) then DetachRank(s.threads[d].dpc) else 0 }

  predicate ActsFor(s: State, d: Tid, v: Tid) {
    DetachAt(s, d) && Acting(s.threads[d]) && s.threads[d].rollback == Some(v)
  }

  lemma RollbackActs(s: State, v: Tid, g: Gen, d: Tid, p: Port, keep: set<Tid>)
    requires Rolling(s, v, g, d, p, keep)
    ensures ActsFor(s, d, v)
  {
    ThreadFacts(s, v);
    ThreadFacts(s, d);
  }

  lemma ReturnExits(s: State, d: Tid, v: Tid, g: Gen)
    requires CanOwnerLeave(s, d) && s.threads[d].rollback == Some(v) && WatcherAt(s, v) && s.threads[v].gen == g
    ensures IsExiting(DoOwnerLeave(s, d), v, g)
  {
  }

  predicate Goes(s: State, m: State, d: Tid) {
    d in s.threads && d in m.threads && Proceeds(s.threads[d], m.threads[d])
  }

  lemma RollingGoesOn(s: State, m: State, v: Tid, g: Gen, d: Tid, p: Port, keep: set<Tid>)
    requires Rolling(s, v, g, d, p, keep) && Drives(s, m, p, keep) && Untouched(s, m, v) && Goes(s, m, d)
    ensures Rolling(m, v, g, d, p, keep)
  {
    StillPassive(s, m, keep);
  }

  lemma ReturnTouches(s: State, v: Tid, step: DetachStep)
    requires s.nextTid !in s.threads && DetachEnabled(s, step) && WatcherAt(s, v)
    requires !step.DetachStart? && !step.OwnerLeave?
    ensures Untouched(s, DetachApply(s, step), v)
  {
    DetachTouch(s, step, v);
  }

  lemma RollingStep(s: State, v: Tid, g: Gen, d: Tid, p: Port, keep: set<Tid>) returns (m: State)
    requires Rolling(s, v, g, d, p, keep)
    ensures Drives(s, m, p, keep)
    ensures IsExiting(m, v, g) || (Rolling(m, v, g, d, p, keep) && LeftOf(m, d) < LeftOf(s, d))
  {
    RollbackActs(s, v, g, d, p, keep);
    ActorCalmStep(s, d, p, keep);
    var step := ActorNext(s, d);
    m := Apply(s, ByDetach(step));
    if step.OwnerLeave? {
      ReturnExits(s, d, v, g);
    } else {
      FreshFacts(s);
      ReturnTouches(s, v, step);
      RollingGoesOn(s, m, v, g, d, p, keep);
    }
  }

  lemma {:induction false} EndRollback(s: State, v: Tid, g: Gen, d: Tid, p: Port, keep: set<Tid>) returns (s': State)
    requires Rolling(s, v, g, d, p, keep)
    ensures Drives(s, s', p, keep) && IsExiting(s', v, g)
    decreases LeftOf(s, d)
  {
    s' := RollingStep(s, v, g, d, p, keep);
    if !IsExiting(s', v, g) {
      var m := s';
      s' := EndRollback(m, v, g, d, p, keep);
      DrivesOn(s, m, s', p, keep);
    }
  }

  // --- An attempt comes to its end -----------------------------------------

  /** `o` owns the unfinished attempt `x` on handle `h`. */
  predicate OwnsAttempt(s: State, x: AttemptId, o: Tid, h: Gen) {
    && x in s.core.attemptTable && s.core.attemptTable[x] == Attempt(OnHandle(h), o, None)
    && OwnerAt(s, o) && s.threads[o].dpc.gen == h && s.threads[o].dpc.attempt == x && h in s.core.handleTable
  }

  /** Moreover it is no bystander, and its generation is not the current one
      of `p`. */
  ghost predicate Unfinished(s: State, x: AttemptId, o: Tid, h: Gen, p: Port, keep: set<Tid>) {
    && OwnsAttempt(s, x, o, h) && o !in keep && !IsCurrent(s.core, p, h) && Reachable(s) && Passive(s, keep)
  }

  predicate Finished(s: State, x: AttemptId) {
    x in s.core.attemptTable && s.core.attemptTable[x].result.Some?
  }

  predicate IsUnstarted(s: State, o: Tid) { OwnerAt(s, o) && s.threads[o].dpc.phase.Unstarted? }

  /** The attach that will start the owner `o`. */
  predicate Starter(s: State, op: Tid, o: Tid) {
    && AttachAt(s, op) && s.threads[op].apc.Publishing? && s.threads[op].apc.compensator == Some(o)
  }

  predicate PublishedByOp(s: State, h: Gen, op: Tid) { h in s.core.handleTable && s.core.handleTable[h].op == op }

  /** The attach that published a claimed handle starts its compensation. */
  lemma LaunchStarts(s: State, t: Tid, o: Tid)
    requires CanAttachLaunch(s, t) && s.threads[t].apc.compensator == Some(o) && OwnerAt(s, o)
    ensures
      var s' := DoAttachLaunch(s, t);
      OwnerAt(s', o) && s'.threads[o].dpc == s.threads[o].dpc.(phase := Claimed)
  {
  }

  lemma OwnerHasAttempt(s: State, o: Tid, h: Gen, x: AttemptId)
    requires Reachable(s) && OwnerAt(s, o) && OwnsHandle(s.threads[o], h, x)
    ensures OwnsAttempt(s, x, o, h)
  {
    ThreadFacts(s, o);
  }

  lemma StarterFacts(s: State, x: AttemptId, o: Tid, h: Gen, p: Port, keep: set<Tid>) returns (op: Tid)
    requires Unfinished(s, x, o, h, p, keep)
    ensures PublishedByOp(s, h, op) && (IsUnstarted(s, o) ==> Starter(s, op, o) && op !in keep)
  {
    ThreadFacts(s, o);
    op := s.core.handleTable[h].op;
  }

  lemma StartMoves(s: State, op: Tid, o: Tid)
    requires Starter(s, op, o) && OwnerAt(s, o) && s.nextTid !in s.threads
    ensures
      var m := AttachApply(s, AttachNext(s, op));
      && OwnerAt(m, o)
      && (m.threads[o] == s.threads[o] || m.threads[o].dpc == s.threads[o].dpc.(phase := Claimed))
      && (m.threads[o] == s.threads[o] ==> Starter(m, op, o) || s.threads[o].dpc.phase.Claimed?)
  {
    var step := AttachNext(s, op);
    if step.AttachLaunch? { LaunchStarts(s, op, o); } else { AttachTouch(s, step, o); }
  }

  /** What is left to do before the attempt on `h` is finished. */
  function Work(s: State, o: Tid, h: Gen): nat {
    if !IsUnstarted(s, o) then LeftOf(s, o)
    else if h in s.core.handleTable then 7 + Left(s, s.core.handleTable[h].op) else 0
  }

  predicate StartsOwner(s: State, m: State, o: Tid) {
    && OwnerAt(s, o) && OwnerAt(m, o)
    && (m.threads[o] == s.threads[o] || m.threads[o].dpc == s.threads[o].dpc.(phase := Claimed))
  }

  lemma StartIsWork(s: State, m: State, op: Tid, o: Tid, h: Gen)
    requires PublishedByOp(s, h, op) && PublishedByOp(m, h, op) && StartsOwner(s, m, o) && IsUnstarted(s, o)
    requires Left(m, op) < Left(s, op)
    ensures Work(m, o, h) < Work(s, o, h)
  {
  }

  lemma StartWork(s: State, x: AttemptId, o: Tid, h: Gen, p: Port, keep: set<Tid>) returns (m: State)
    requires Unfinished(s, x, o, h, p, keep) && IsUnstarted(s, o)
    ensures Drives(s, m, p, keep) && Unfinished(m, x, o, h, p, keep) && Work(m, o, h) < Work(s, o, h)
  {
    var op := StarterFacts(s, x, o, h, p, keep);
    AttachCalmStep(s, op, p, keep);
    FreshFacts(s);
    StartMoves(s, op, o);
    m := Apply(s, ByAttach(AttachNext(s, op)));
    StillPassive(s, m, keep);
    OwnerHasAttempt(m, o, h, x);
    assert HandleKept(s.core, m.core, h);
    StartIsWork(s, m, op, o, h);
  }

  lemma FinishFinishes(s: State, o: Tid, x: AttemptId, h: Gen)
    requires CanOwnerFinish(s, o) && OwnsAttempt(s, x, o, h)
    ensures Finished(DoOwnerFinish(s, o), x)
  {
  }

  lemma OwnerGoesOn(s: State, o: Tid, h: Gen, x: AttemptId)
    requires OwnsAttempt(s, x, o, h) && Acting(s.threads[o]) && !s.threads[o].dpc.phase.Finishing?
    ensures
      var m := DetachApply(s, ActorNext(s, o));
      OwnerAt(m, o) && OwnsHandle(m.threads[o], h, x) && !IsUnstarted(m, o)
  {
  }

  lemma OwnerWork(s: State, x: AttemptId, o: Tid, h: Gen, p: Port, keep: set<Tid>) returns (m: State)
    requires Unfinished(s, x, o, h, p, keep) && !IsUnstarted(s, o)
    ensures Drives(s, m, p, keep)
    ensures Finished(m, x) || (Unfinished(m, x, o, h, p, keep) && Work(m, o, h) < Work(s, o, h))
  {
    ActorCalmStep(s, o, p, keep);
    m := Apply(s, ByDetach(ActorNext(s, o)));
    StillPassive(s, m, keep);
    if s.threads[o].dpc.phase.Finishing? {
      FinishFinishes(s, o, x, h);
    } else {
      OwnerGoesOn(s, o, h, x);
      OwnerHasAttempt(m, o, h, x);
    }
  }

  /** Any claimed attempt can be finished without touching `p`. */
  lemma {:induction false} EndAttempt(s: State, x: AttemptId, o: Tid, h: Gen, p: Port, keep: set<Tid>)
    returns (s': State)
    requires Unfinished(s, x, o, h, p, keep)
    ensures Drives(s, s', p, keep) && Finished(s', x)
    decreases Work(s, o, h)
  {
    if IsUnstarted(s, o) {
      s' := StartWork(s, x, o, h, p, keep);
    } else {
      s' := OwnerWork(s, x, o, h, p, keep);
    }
    if !Finished(s', x) {
      var m := s';
      s' := EndAttempt(m, x, o, h, p, keep);
      DrivesOn(s, m, s', p, keep);
    }
  }

  // --- The watcher of a claimed generation stops ---------------------------

  /** Owner `t` of generation `g` of port `p` waits for its watcher. */
  predicate OwnerStands(s: State, t: Tid, p: Port, g: Gen) {
    && OwnerAt(s, t) && s.threads[t].port == p && s.threads[t].dpc.gen == g && IsCurrent(s.core, p, g)
  }

  predicate WatcherOf(s: State, v: Tid, g: Gen) { WatcherAt(s, v) && s.threads[v].gen == g }

  ghost predicate OneOwner(s: State, t: Tid, keep: set<Tid>) {
    t in keep && forall u :: u in keep ==> u == t || AttachAt(s, u)
  }

  /** Owner `t` waits for watcher `v` of the current generation `g` of `p`;
      the bystanders are `t` and attaches in their handoff. */
  ghost predicate Stage(s: State, t: Tid, v: Tid, p: Port, g: Gen, keep: set<Tid>) {
    && OwnerStands(s, t, p, g) && s.threads[t].dpc.phase.AwaitWatcher?
    && WatcherOf(s, v, g) && OneOwner(s, t, keep) && Passive(s, keep) && Reachable(s)
  }

  lemma StillOneOwner(s: State, m: State, t: Tid, keep: set<Tid>)
    requires OneOwner(s, t, keep) && Bystanders(s, m, keep)
    ensures OneOwner(m, t, keep)
  {
    forall u | u in keep
      ensures u == t || AttachAt(m, u)
    {
      assert Untouched(s, m, u);
    }
  }

  predicate Stopped(s: State, g: Gen) { g in s.core.handleTable && s.core.handleTable[g].watcher.Exited? }

  lemma StageKept(s: State, m: State, t: Tid, v: Tid, p: Port, g: Gen, keep: set<Tid>)
    requires Stage(s, t, v, p, g, keep) && Drives(s, m, p, keep) && WatcherOf(m, v, g)
    ensures Stage(m, t, v, p, g, keep)
  {
    StillPassive(s, m, keep);
    StillOneOwner(s, m, t, keep);
    assert Untouched(s, m, t);
  }

  lemma StageFacts(s: State, t: Tid, v: Tid, p: Port, g: Gen, keep: set<Tid>)
    requires Stage(s, t, v, p, g, keep)
    ensures v !in keep && WatcherOk(s, v) && WatcherOrder(s, v) && OwnerOk(s, t)
    ensures forall k :: Younger(s.core, v, k) ==> k != g && !IsCurrent(s.core, p, k)
  {
    ThreadFacts(s, v);
    ThreadFacts(s, t);
  }

  /** The watcher neither reconnects nor retires its handle. */
  predicate Steered(s: State, v: Tid) {
    WatcherAt(s, v) && !s.threads[v].wpc.Attempting? && !s.threads[v].wpc.Retiring?
  }

  /** It waits for its rollback, or for the attempt it joined. */
  predicate Pauses(s: State, v: Tid) {
    && WatcherAt(s, v)
    && match s.threads[v].wpc
       case RollingBack(_) => true
       case Joining(x) => !Finished(s, x)
       case _ => false
  }

  /** What a steered watcher has left to do; nothing when it has exited. */
  function WatcherLeft(s: State, v: Tid): nat {
    if !WatcherAt(s, v) then 0
    else
      match s.threads[v].wpc
      case Succeeded(_, _) => 6
      case Rollback(_, _, unclaimed) => if unclaimed then 4 else 5
      case RollingBack(_) => 3
      case Joining(x) => if Finished(s, x) then 2 else 3
      case Watching => 2
      case Reconnecting => 2
      case Exiting => 1
      case _ => 0
  }

  /** The next step of a steered watcher that does not pause. */
  function OwnStep(s: State, v: Tid): WatcherStep {
    if !WatcherAt(s, v) then HelperLeave
    else
      match s.threads[v].wpc
      case Succeeded(_, _) => WatcherSucceeded(v)
      case Rollback(_, _, unclaimed) => if unclaimed then WatcherRollbackClaim(v) else WatcherRollbackCheck(v)
      case Joining(_) => WatcherJoined(v)
      case Exiting => WatcherClose(v)
      case _ => WatcherCancelled(v)
  }

  /** The watcher has come closer to its exit, or is there. */
  predicate Nearer(s: State, m: State, v: Tid, g: Gen) {
    Stopped(m, g) || (WatcherOf(m, v, g) && Steered(m, v) && WatcherLeft(m, v) < WatcherLeft(s, v))
  }

  predicate CanOwnStep(s: State, v: Tid) {
    var step := OwnStep(s, v);
    WatcherEnabled(s, step) && CalmWatcher(step) && WatcherTouches(step) == {v}
  }

  lemma OwnStepEnabled(s: State, v: Tid)
    requires WatcherOk(s, v) && Steered(s, v) && !Pauses(s, v) && WatcherLeft(s, v) > 0
    requires s.core.handleTable[s.threads[v].gen].cancelled
    ensures CanOwnStep(s, v)
  {
  }

  lemma ClaimNearer(s: State, v: Tid, g: Gen)
    requires CanWatcherRollbackClaim(s, v) && WatcherOf(s, v, g) && s.nextTid !in s.threads
    ensures Nearer(s, DoWatcherRollbackClaim(s, v), v, g)
  {
  }

  /** The claim has marked the handle, so what the watcher attached is rolled
      back. */
  lemma OwnStepNearer(s: State, v: Tid, g: Gen)
    requires WatcherOk(s, v) && WatcherOf(s, v, g) && Steered(s, v) && WatcherLeft(s, v) > 0 && CanOwnStep(s, v)
    requires s.core.handleTable[g].detaching && s.nextTid !in s.threads
    ensures Nearer(s, WatcherApply(s, OwnStep(s, v)), v, g)
  {
    if CanWatcherRollbackClaim(s, v) { ClaimNearer(s, v, g); }
    else if s.threads[v].wpc.Exiting? { CloseNearer(s, v, g); }
    else { MoveNearer(s, v, g); }
  }

  lemma CloseNearer(s: State, v: Tid, g: Gen)
    requires CanWatcherClose(s, v) && WatcherOf(s, v, g) && WatcherOk(s, v)
    ensures Nearer(s, DoWatcherClose(s, v), v, g)
  {
  }

  lemma MoveNearer(s: State, v: Tid, g: Gen)
    requires WatcherOf(s, v, g) && Steered(s, v) && WatcherLeft(s, v) > 0 && CanOwnStep(s, v)
    requires !CanWatcherRollbackClaim(s, v) && !s.threads[v].wpc.Exiting?
    requires g in s.core.handleTable && s.core.handleTable[g].detaching
    ensures Nearer(s, WatcherApply(s, OwnStep(s, v)), v, g)
  {
    var step := OwnStep(s, v);
    assert step.WatcherSucceeded? || step.WatcherRollbackCheck? || step.WatcherJoined? || step.WatcherCancelled?;
  }

  /** A detach of a younger generation is no bystander. */
  lemma NoBystander(s: State, t: Tid, p: Port, g: Gen, keep: set<Tid>, d: Tid)
    requires OwnerStands(s, t, p, g) && OneOwner(s, t, keep) && DetachAt(s, d)
    requires OwnerAt(s, d) ==> s.threads[d].dpc.gen != g
    ensures d !in keep
  {
  }

  lemma RollingEnds(s: State, t: Tid, v: Tid, p: Port, g: Gen, keep: set<Tid>, d: Tid) returns (m: State)
    requires Stage(s, t, v, p, g, keep) && s.threads[v].wpc == RollingBack(d)
    ensures Drives(s, m, p, keep) && IsExiting(m, v, g)
  {
    StageFacts(s, t, v, p, g, keep);
    NoBystander(s, t, p, g, keep, d);
    m := EndRollback(s, v, g, d, p, keep);
  }

  lemma DrivesFewer(s: State, m: State, p: Port, keep: set<Tid>, more: set<Tid>)
    requires Drives(s, m, p, more) && keep <= more
    ensures Drives(s, m, p, keep)
  {
  }

  lemma MorePassive(s: State, v: Tid, keep: set<Tid>)
    requires Passive(s, keep) && WatcherAt(s, v) && s.threads[v].wpc.Joining?
    ensures Passive(s, keep + {v})
  {
  }

  lemma JoinedAttempt(s: State, t: Tid, v: Tid, p: Port, g: Gen, keep: set<Tid>, x: AttemptId)
    returns (o: Tid, h: Gen)
    requires Stage(s, t, v, p, g, keep) && s.threads[v].wpc == Joining(x) && !Finished(s, x)
    ensures Unfinished(s, x, o, h, p, keep + {v})
  {
    StageFacts(s, t, v, p, g, keep);
    OwnerIsThere(s, x);
    o, h := s.core.attemptTable[x].owner, s.core.attemptTable[x].target.gen;
    NoBystander(s, t, p, g, keep, o);
    MorePassive(s, v, keep);
  }

  lemma JoiningEnds(s: State, t: Tid, v: Tid, p: Port, g: Gen, keep: set<Tid>, x: AttemptId) returns (m: State)
    requires Stage(s, t, v, p, g, keep) && s.threads[v].wpc == Joining(x) && !Finished(s, x)
    ensures Drives(s, m, p, keep) && Untouched(s, m, v) && Finished(m, x)
  {
    var o, h := JoinedAttempt(s, t, v, p, g, keep, x);
    m := EndAttempt(s, x, o, h, p, keep + {v});
    DrivesFewer(s, m, p, keep, keep + {v});
    assert v in keep + {v};
  }

  lemma StopStep(s: State, t: Tid, v: Tid, p: Port, g: Gen, keep: set<Tid>) returns (m: State)
    requires Stage(s, t, v, p, g, keep) && Steered(s, v) && WatcherLeft(s, v) > 0
    ensures Drives(s, m, p, keep) && Nearer(s, m, v, g)
  {
    if Pauses(s, v) {
      match s.threads[v].wpc
      case RollingBack(d) => m := RollingEnds(s, t, v, p, g, keep, d);
      case Joining(x) => m := JoiningEnds(s, t, v, p, g, keep, x);
    } else {
      StageFacts(s, t, v, p, g, keep);
      FreshFacts(s);
      OwnStepEnabled(s, v);
      OwnStepNearer(s, v, g);
      CalmStep(s, ByWatcher(OwnStep(s, v)), p, keep);
      m := Apply(s, ByWatcher(OwnStep(s, v)));
    }
  }

  lemma {:induction false} StopSteered(s: State, t: Tid, v: Tid, p: Port, g: Gen, keep: set<Tid>) returns (s': State)
    requires Stage(s, t, v, p, g, keep) && Steered(s, v)
    ensures Drives(s, s', p, keep) && Stopped(s', g)
    decreases WatcherLeft(s, v)
  {
    if WatcherLeft(s, v) == 0 {
      StageFacts(s, t, v, p, g, keep);
      DrivesNowhere(s, p, keep);
      s' := s;
    } else {
      var m := StopStep(s, t, v, p, g, keep);
      if Stopped(m, g) {
        s' := m;
      } else {
        StageKept(s, m, t, v, p, g, keep);
        s' := StopSteered(m, t, v, p, g, keep);
        DrivesOn(s, m, s', p, keep);
      }
    }
  }

  /** Its own reconnect attempt neither stands by nor reserves the port. */
  predicate AttemptElsewhere(s: State, v: Tid, p: Port, keep: set<Tid>) {
    WatcherAt(s, v) && s.threads[v].wpc.Attempting? ==>
      var c := s.threads[v].wpc.child;
      c !in keep && AttachAt(s, c) && (s.threads[c].apc.Handing? ==> s.threads[c].apc.port != p)
  }

  predicate Retires(s: State, v: Tid) { WatcherAt(s, v) && s.threads[v].wpc.Retiring? }

  /**
   * The watcher of a claimed generation comes to its exit without a change on
   * the port, unless it is retiring the handle or its own reconnect attempt
   * is the one reserving the port.
   */
  lemma StopWatcher(s: State, t: Tid, v: Tid, p: Port, g: Gen, keep: set<Tid>) returns (s': State)
    requires Stage(s, t, v, p, g, keep) && !Retires(s, v) && AttemptElsewhere(s, v, p, keep)
    ensures Drives(s, s', p, keep) && Stopped(s', g)
  {
    if Steered(s, v) {
      s' := StopSteered(s, t, v, p, g, keep);
    } else {
      var m := EndChild(s, v, s.threads[v].wpc.child, p, keep);
      StageKept(s, m, t, v, p, g, keep);
      s' := StopSteered(m, t, v, p, g, keep);
      DrivesOn(s, m, s', p, keep);
    }
  }
}
