/**
 * Which threads a step moves, and what it does to the maps of one port.
 */
module ImporterTouch {
  import opened Base
  import opened LifecycleGroup
  import opened ImporterCore
  import opened ImporterProtocol

  /** The threads an attach step moves: its own, the compensating detach it
      launches, or the watcher it returns to. */
  function AttachTouches(s: State, step: AttachStep): set<Tid> {
    match step
    case AttachStart(_, _) => {}
    case AttachLaunch(t) =>
      if AttachAt(s, t) && s.threads[t].apc.Publishing? && s.threads[t].apc.compensator.Some?
      then {t, s.threads[t].apc.compensator.value} else {t}
    case AttachLeave(t) =>
      if AttachAt(s, t) && s.threads[t].parent.Some? then {t, s.threads[t].parent.value} else {t}
    case _ => {step.t}
  }

  function DetachTouches(s: State, step: DetachStep): set<Tid> {
    match step
    case DetachStart(_) => {}
    case OwnerLeave(t) =>
      if DetachAt(s, t) && s.threads[t].rollback.Some? then {t, s.threads[t].rollback.value} else {t}
    case _ => {step.t}
  }

  function WatcherTouches(step: WatcherStep): set<Tid> {
    match step
    case HelperStart(_) => {}
    case HelperLeave => {}
    case _ => {step.t}
  }

  function Touches(s: State, step: Step): set<Tid> {
    match step
    case ByAttach(a) => AttachTouches(s, a)
    case ByDetach(a) => DetachTouches(s, a)
    case ByWatcher(a) => WatcherTouches(a)
    case ByWorld(_) => {}
  }

  predicate Untouched(s: State, s': State, u: Tid) {
    && u in s.threads
    && (u in s'.threads && s'.threads[u] == s.threads[u])
  }

  lemma RegisterTouch(s: State, t: Tid, u: Tid)
    requires CanAttachRegister(s, t) && u in s.threads && u != t && s.nextTid !in s.threads
    ensures Untouched(s, DoAttachRegister(s, t), u)
  {
  }

  lemma LaunchTouch(s: State, t: Tid, u: Tid)
    requires CanAttachLaunch(s, t) && u in s.threads && s.nextTid !in s.threads
    requires u !in AttachTouches(s, AttachLaunch(t))
    ensures Untouched(s, DoAttachLaunch(s, t), u)
  {
  }

  lemma LeaveTouch(s: State, t: Tid, u: Tid)
    requires CanAttachLeave(s, t) && u in s.threads && u !in AttachTouches(s, AttachLeave(t))
    ensures Untouched(s, DoAttachLeave(s, t), u)
  {
  }

  lemma AttachTouch(s: State, step: AttachStep, u: Tid)
    requires AttachEnabled(s, step) && u in s.threads && s.nextTid !in s.threads
    requires u !in AttachTouches(s, step)
    ensures Untouched(s, AttachApply(s, step), u)
  {
    match step
    case AttachRegister(t) => RegisterTouch(s, t, u);
    case AttachLaunch(t) => LaunchTouch(s, t, u);
    case AttachLeave(t) => LeaveTouch(s, t, u);
    case _ =>
  }

  lemma DetachTouch(s: State, step: DetachStep, u: Tid)
    requires DetachEnabled(s, step) && u in s.threads && s.nextTid !in s.threads
    requires u !in DetachTouches(s, step)
    ensures Untouched(s, DetachApply(s, step), u)
  {
  }

  lemma WatcherTouch(s: State, step: WatcherStep, u: Tid)
    requires WatcherEnabled(s, step) && u in s.threads && s.nextTid !in s.threads
    requires u !in WatcherTouches(step)
    ensures Untouched(s, WatcherApply(s, step), u)
  {
  }

  /** A step leaves alone every thread it does not touch. */
  lemma StepTouch(s: State, step: Step, u: Tid)
    requires Enabled(s, step) && u in s.threads && s.nextTid !in s.threads && u !in Touches(s, step)
    ensures Untouched(s, Apply(s, step), u)
  {
    match step
    case ByAttach(a) => AttachTouch(s, a, u);
    case ByDetach(a) => DetachTouch(s, a, u);
    case ByWatcher(a) => WatcherTouch(s, a, u);
    case ByWorld(_) =>
  }

}
