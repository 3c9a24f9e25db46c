/**
 * How threads can be brought to their end without touching a given port:
 * every step below leaves the port's maps and a set of bystanders as they are.
 */
module ImporterStop {
  import opened Base
  import opened ImporterCore
  import opened ImporterProtocol
  import opened ImporterInvariant
  import opened ImporterHistory
  import opened ImporterRuns
  import opened ImporterTouch
  import opened ImporterCalm
  import opened ImporterOrder
  import opened ImporterAwaited
  import opened ImporterProgress

  // --- Runs that leave a port and bystanders alone -------------------------

  ghost predicate Reaches(s: State, s': State) { exists steps :: Run(s, steps, s') }

  ghost predicate Bystanders(s: State, s': State, keep: set<Tid>) {
    forall u :: u in keep ==> u in s.threads && Untouched(s, s', u)
  }

  /** Some run leads from `s` to `s'` and changes neither the maps of `p` nor
      the threads `keep`. */
  ghost predicate Drives(s: State, s': State, p: Port, keep: set<Tid>) {
    && Reaches(s, s') && Reachable(s') && PortSame(s, s', p) && Bystanders(s, s', keep)
    && CoreGrows(s.core, s'.core)
  }

  lemma DrivesNowhere(s: State, p: Port, keep: set<Tid>)
    requires Reachable(s) && keep <= s.threads.Keys
    ensures Drives(s, s, p, keep)
  {
    RunNowhere(s);
    SameGrows(s.core, s.core);
  }

  lemma ReachesStep(s: State, m: State, step: Step)
    requires Reaches(s, m) && Enabled(m, step)
    ensures Reaches(s, Apply(m, step))
  {
    var steps :| Run(s, steps, m);
    RunThen(s, steps, m, step);
  }

  lemma OneStep(s: State, step: Step)
    requires Enabled(s, step)
    ensures Reaches(s, Apply(s, step))
  {
    RunNowhere(s);
    ReachesStep(s, s, step);
  }

  lemma {:induction false} RunsJoin(s: State, steps: seq<Step>, m: State, more: seq<Step>, e: State)
    requires Run(s, steps, m) && Run(m, more, e)
    ensures Run(s, steps + more, e)
    decreases |more|
  {
    if more == [] {
      RunStays(m, e);
      assert steps + more == steps;
    } else {
      RunFirst(m, more, e);
      RunThen(s, steps, m, more[0]);
      RunsJoin(s, steps + [more[0]], Apply(m, more[0]), more[1..], e);
      assert steps + [more[0]] + more[1..] == steps + more;
    }
  }

  lemma ReachesOn(s: State, m: State, e: State)
    requires Reaches(s, m) && Reaches(m, e)
    ensures Reaches(s, e)
  {
    var steps :| Run(s, steps, m);
    var more :| Run(m, more, e);
    RunsJoin(s, steps, m, more, e);
  }

  lemma DrivesOn(s: State, m: State, e: State, p: Port, keep: set<Tid>)
    requires Drives(s, m, p, keep) && Drives(m, e, p, keep)
    ensures Drives(s, e, p, keep)
  {
    ReachesOn(s, m, e);
    CoreGrowsOn(s.core, m.core, e.core);
  }

  lemma CalmStep(s: State, step: Step, p: Port, keep: set<Tid>)
    requires Reachable(s) && Enabled(s, step) && Calm(s, step, p)
    requires keep <= s.threads.Keys && Touches(s, step) !! keep
    ensures Drives(s, Apply(s, step), p, keep)
  {
    OneStep(s, step);
    ReachableStep(s, step);
    CalmIsSame(s, step, p);
    StepIsGrowth(s, step);
    FreshFacts(s);
    forall u | u in keep
      ensures Untouched(s, Apply(s, step), u)
    {
      StepTouch(s, step, u);
    }
  }

  /** The bystanders are attaches in their handoff, owners between their
      cancellation and their kernel call, or watchers joining an attempt. */
  ghost predicate Passive(s: State, keep: set<Tid>) {
    forall u :: u in keep ==> u in s.threads && IsPassive(s.threads[u])
  }

  predicate IsPassive(th: Thread) {
    match th
    case AttachT(_, _, _, apc) => apc.Handing?
    case DetachT(_, _, _, dpc) => dpc.Owner? && (dpc.phase.AwaitWatcher? || dpc.phase.Checked?)
    case WatcherT(_, _, wpc) => wpc.Joining?
  }

  // --- An attach comes to its end ------------------------------------------

  function AttachRank(apc: AttachPc): nat {
    match apc
    case Handing(_, handoff) => if handoff.HandoffFailed? then 4 else 5
    case Dialing => 3
    case AbortedOpen(_) => 3
    case Lost(_, open) => if open then 4 else 3
    case Publishing(_, _, _, open) => if open then 4 else 3
    case Out(_, Releasing) => 2
    case Out(_, Leaving) => 1
    case Out(_, AttachReturned) => 0
  }

  /** What the next step of an attach does to its own thread. */
  predicate Advances(a: Thread, b: Thread) {
    && a.AttachT? && b.AttachT? && b.parent == a.parent && AttachRank(b.apc) < AttachRank(a.apc)
    && (b.apc.Handing? ==> a.apc.Handing? && b.apc.port == a.apc.port)
  }

  lemma RegisterAdvances(s: State, t: Tid)
    requires CanAttachRegister(s, t) && s.nextTid !in s.threads
    ensures t in DoAttachRegister(s, t).threads && Advances(s.threads[t], DoAttachRegister(s, t).threads[t])
  {
  }

  lemma LaunchAdvances(s: State, t: Tid)
    requires CanAttachLaunch(s, t) && s.nextTid !in s.threads
    ensures t in DoAttachLaunch(s, t).threads && Advances(s.threads[t], DoAttachLaunch(s, t).threads[t])
  {
  }

  lemma LeaveAdvances(s: State, t: Tid)
    requires CanAttachLeave(s, t)
    ensures t in DoAttachLeave(s, t).threads && Advances(s.threads[t], DoAttachLeave(s, t).threads[t])
  {
  }

  lemma AttachAdvances(s: State, t: Tid)
    requires AttachAt(s, t) && !Returned(s.threads[t]) && s.nextTid !in s.threads
    ensures
      var s' := AttachApply(s, AttachNext(s, t));
      t in s'.threads && Advances(s.threads[t], s'.threads[t])
  {
    match AttachNext(s, t)
    case AttachRegister(_) => RegisterAdvances(s, t);
    case AttachLaunch(_) => LaunchAdvances(s, t);
    case AttachLeave(_) => LeaveAdvances(s, t);
    case _ =>
  }

  lemma AttachTouchesNoBystander(s: State, t: Tid, keep: set<Tid>)
    requires AttachAt(s, t) && !Returned(s.threads[t]) && AttachOk(s, t) && Passive(s, keep) && t !in keep
    ensures AttachTouches(s, AttachNext(s, t)) !! keep
  {
  }

  /** The next step of an attach that is not reserving `p`. */
  lemma AttachCalmStep(s: State, t: Tid, p: Port, keep: set<Tid>)
    requires Reachable(s) && AttachAt(s, t) && !Returned(s.threads[t]) && Passive(s, keep) && t !in keep
    requires s.threads[t].apc.Handing? ==> s.threads[t].apc.port != p
    ensures
      var s' := Apply(s, ByAttach(AttachNext(s, t)));
      Drives(s, s', p, keep) && t in s'.threads && Advances(s.threads[t], s'.threads[t])
  {
    ThreadFacts(s, t);
    FreshFacts(s);
    AttachTouchesNoBystander(s, t, keep);
    AttachAdvances(s, t);
    CalmStep(s, ByAttach(AttachNext(s, t)), p, keep);
  }

  /** Watcher `v` waits for attempt `c`, which is no bystander and does not
      reserve `p`. */
  ghost predicate Child(s: State, v: Tid, c: Tid, p: Port, keep: set<Tid>) {
    && WatcherAt(s, v) && s.threads[v].wpc == Attempting(c)
    && c !in keep && AttachAt(s, c) && (s.threads[c].apc.Handing? ==> s.threads[c].apc.port != p)
    && Reachable(s) && Passive(s, keep)
  }

  predicate Reported(s: State, s': State, v: Tid) {
    && WatcherAt(s, v)
    && WatcherAt(s', v) && s'.threads[v].gen == s.threads[v].gen
    && (s'.threads[v].wpc.Reconnecting? || s'.threads[v].wpc.Succeeded?)
  }

  /** What attach `c` has left to do. */
  function Left(s: State, c: Tid): nat { if AttachAt(s, c) then AttachRank(s.threads[c].apc) else 0 }

  lemma LeaveReports(s: State, c: Tid, v: Tid)
    requires CanAttachLeave(s, c) && s.threads[c].parent == Some(v) && WatcherAt(s, v)
    ensures Reported(s, DoAttachLeave(s, c), v)
  {
  }

  lemma ChildGoesOn(s: State, v: Tid, c: Tid, step: AttachStep)
    requires Reachable(s) && AttachEnabled(s, step) && AttachAt(s, c) && WatcherAt(s, v)
    requires !step.AttachStart? && step.t == c && !step.AttachLeave?
    ensures Untouched(s, Apply(s, ByAttach(step)), v)
  {
    ThreadFacts(s, c);
    FreshFacts(s);
    AttachTouch(s, step, v);
  }

  lemma StillPassive(s: State, s': State, keep: set<Tid>)
    requires Passive(s, keep) && Bystanders(s, s', keep)
    ensures Passive(s', keep)
  {
  }

  lemma ChildStep(s: State, v: Tid, c: Tid, p: Port, keep: set<Tid>) returns (m: State)
    requires Child(s, v, c, p, keep)
    ensures Drives(s, m, p, keep)
    ensures Reported(s, m, v) || (Child(m, v, c, p, keep) && Untouched(s, m, v) && Left(m, c) < Left(s, c))
  {
    ThreadFacts(s, v);
    var step := AttachNext(s, c);
    AttachCalmStep(s, c, p, keep);
    m := Apply(s, ByAttach(step));
    StillPassive(s, m, keep);
    if step.AttachLeave? { LeaveReports(s, c, v); } else { ChildGoesOn(s, v, c, step); }
  }

  /** A watcher's reconnect attempt comes to its end and reports. */
  lemma {:induction false} EndChild(s: State, v: Tid, c: Tid, p: Port, keep: set<Tid>) returns (s': State)
    requires Child(s, v, c, p, keep)
    ensures Drives(s, s', p, keep) && Reported(s, s', v)
    decreases Left(s, c)
  {
    s' := ChildStep(s, v, c, p, keep);
    if !Reported(s, s', v) {
      var m := s';
      s' := EndChild(m, v, c, p, keep);
      DrivesOn(s, m, s', p, keep);
    }
  }

  // --- A detach comes to its end -------------------------------------------

  /** The detach owns an attempt that has been started, or has finished one. */
  predicate Acting(th: Thread) {
    && th.DetachT? && !Returned(th)
    && (th.dpc.OnUntracked? || (th.dpc.Owner? && !th.dpc.phase.Unstarted?) || th.dpc.DetachOut?)
  }

  function DetachRank(dpc: DetachPc): nat {
    match dpc
    case OnUntracked(_, reported) => if reported.None? then 3 else 2
    case Owner(_, _, Unstarted) => 7
    case Owner(_, _, Claimed) => 6
    case Owner(_, _, AwaitWatcher) => 5
    case Owner(_, _, Checked(_)) => 4
    case Owner(_, _, Removing(_)) => 3
    case Owner(_, _, Finishing(_)) => 2
    case DetachOut(_, _, returned) => if returned then 0 else 1
    case _ => 0
  }

  /** Its next step when no wait succeeds and no kernel call does. */
  function ActorNext(s: State, t: Tid): (step: DetachStep)
    requires DetachAt(s, t) && Acting(s.threads[t])
    requires OwnerAt(s, t) ==> s.threads[t].dpc.gen in s.core.handleTable
    ensures !step.DetachStart? && step.t == t && DetachEnabled(s, step)
  {
    match s.threads[t].dpc
    case OnUntracked(_, reported) => if reported.None? then PortKernel(t, Failed) else PortFinish(t)
    case Owner(_, _, Claimed) => OwnerCancel(t)
    case Owner(_, _, AwaitWatcher) => OwnerCheck(t, true)
    case Owner(_, _, Checked(_)) => OwnerKernel(t, Failed)
    case Owner(_, _, Removing(_)) => OwnerRemove(t)
    case Owner(_, _, Finishing(_)) => OwnerFinish(t)
    case DetachOut(_, _, _) => OwnerLeave(t)
  }

  predicate Proceeds(a: Thread, b: Thread) {
    && a.DetachT? && b.DetachT? && b.rollback == a.rollback && DetachRank(b.dpc) < DetachRank(a.dpc)
    && (Returned(b) || Acting(b))
    && (b.dpc.Owner? ==> a.dpc.Owner? && b.dpc.gen == a.dpc.gen && b.dpc.attempt == a.dpc.attempt)
  }

  lemma ActorProceeds(s: State, t: Tid)
    requires DetachAt(s, t) && Acting(s.threads[t])
    requires OwnerAt(s, t) ==> s.threads[t].dpc.gen in s.core.handleTable
    requires s.threads[t].rollback.Some? ==> s.threads[t].rollback.value != t
    ensures
      var s' := DetachApply(s, ActorNext(s, t));
      t in s'.threads && Proceeds(s.threads[t], s'.threads[t])
  {
  }

  lemma ActorTouchesNoBystander(s: State, t: Tid, keep: set<Tid>)
    requires DetachAt(s, t) && Acting(s.threads[t]) && DetachOk(s, t) && Passive(s, keep) && t !in keep
    ensures DetachTouches(s, ActorNext(s, t)) !! keep
  {
  }

  /** The next step of a detach whose generation is not the current one of `p`. */
  lemma ActorCalmStep(s: State, t: Tid, p: Port, keep: set<Tid>)
    requires Reachable(s) && DetachAt(s, t) && Acting(s.threads[t]) && Passive(s, keep) && t !in keep
    requires OwnerAt(s, t) ==> !IsCurrent(s.core, p, s.threads[t].dpc.gen)
    ensures OwnerAt(s, t) ==> s.threads[t].dpc.gen in s.core.handleTable
    ensures
      var s' := Apply(s, ByDetach(ActorNext(s, t)));
      Drives(s, s', p, keep) && t in s'.threads && Proceeds(s.threads[t], s'.threads[t])
  {
    ThreadFacts(s, t);
    ActorTouchesNoBystander(s, t, keep);
    ActorProceeds(s, t);
    CalmStep(s, ByDetach(ActorNext(s, t)), p, keep);
  }
}
