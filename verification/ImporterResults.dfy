/** What a Detach returns, against the kernel calls it made in the run
    (internal/app/importer.go:798-1016). */
module ImporterResults {
  import opened Base
  import opened ImporterCore
  import opened ImporterProtocol
  import opened ImporterInvariant
  import opened ImporterRuns
  import opened ImporterTouch
  import opened ImporterAwaited

  /** What the kernel answers in this step to a DetachPort of thread `t`. */
  function Answer(step: Step, t: Tid): seq<Outcome> {
    if !step.ByDetach? then []
    else
      match step.stepDetach
      case OwnerKernel(u, o) => if u == t then [o] else []
      case PortKernel(u, o) => if u == t then [o] else []
      case _ => []
  }

  /** The step closes the attempt thread `t` owns. */
  predicate Closes(step: Step, t: Tid) { step == ByDetach(OwnerFinish(t)) || step == ByDetach(PortFinish(t)) }

  /** A thread's kernel answers in a run, and whether it closed its attempt. */
  datatype Story = Story(answers: seq<Outcome>, closed: bool)

  const NOTHING: Story := Story([], false)

  function Then(story: Story, step: Step, t: Tid): Story {
    Story(story.answers + Answer(step, t), story.closed || Closes(step, t))
  }

  /** What was reported is what the kernel answered; without a call it is success. */
  predicate FromKernel(answers: seq<Outcome>, o: Outcome) { answers == [o] || (answers == [] && o == Released) }

  predicate Tells(dpc: DetachPc, story: Story) {
    match dpc
    case Owner(_, _, Removing(o)) => story == Story([o], false)
    case Owner(_, _, Finishing(o)) => !story.closed && FromKernel(story.answers, o)
    case OnUntracked(_, Some(o)) => story == Story([o], false)
    case DetachOut(_, o, _) => if story.closed then FromKernel(story.answers, o) else story == NOTHING
    case _ => story == NOTHING
  }

  predicate Told(s: State, t: Tid, story: Story) {
    if DetachAt(s, t) then Tells(s.threads[t].dpc, story) else story == NOTHING
  }

  /** The step is one of the Detach `t` itself. */
  predicate Own(step: Step, t: Tid) {
    step.ByDetach? && !step.stepDetach.DetachStart? && step.stepDetach.t == t
  }

  predicate Ends(step: DetachStep) { step.PortFinish? || step.OwnerFinish? || step.OwnerLeave? || step.DetachFollow? }

  lemma EndTells(s: State, step: DetachStep, t: Tid, story: Story)
    requires DetachEnabled(s, step) && Own(ByDetach(step), t) && DetachAt(s, t) && Tells(s.threads[t].dpc, story)
    requires Ends(step)
    ensures DetachAt(DetachApply(s, step), t)
    ensures Tells(DetachApply(s, step).threads[t].dpc, Then(story, ByDetach(step), t))
  {
    assert story.answers + [] == story.answers;
  }

  lemma WorkTells(s: State, step: DetachStep, t: Tid, story: Story)
    requires DetachEnabled(s, step) && Own(ByDetach(step), t) && DetachAt(s, t) && Tells(s.threads[t].dpc, story)
    requires !Ends(step)
    ensures DetachAt(DetachApply(s, step), t)
    ensures Tells(DetachApply(s, step).threads[t].dpc, Then(story, ByDetach(step), t))
  {
    assert story.answers + [] == story.answers;
  }

  lemma OwnTells(s: State, step: DetachStep, t: Tid, story: Story)
    requires DetachEnabled(s, step) && Own(ByDetach(step), t) && DetachAt(s, t) && Tells(s.threads[t].dpc, story)
    ensures DetachAt(DetachApply(s, step), t)
    ensures Tells(DetachApply(s, step).threads[t].dpc, Then(story, ByDetach(step), t))
  {
    if Ends(step) { EndTells(s, step, t, story); } else { WorkTells(s, step, t, story); }
  }

  lemma OwnIsDetach(s: State, step: DetachStep, t: Tid)
    requires DetachEnabled(s, step) && Own(ByDetach(step), t)
    ensures DetachAt(s, t)
  {
  }

  lemma OtherSaysNothing(step: Step, t: Tid, story: Story)
    requires !Own(step, t)
    ensures Then(story, step, t) == story
  {
    assert story.answers + [] == story.answers;
  }

  /** A thread that is no Detach, or one that has just begun. */
  predicate Silent(th: Thread) {
    th.DetachT? ==> th.dpc.Looking? || (th.dpc.Owner? && (th.dpc.phase.Unstarted? || th.dpc.phase.Claimed?))
  }

  /** Another thread's step leaves a Detach alone, unless it launches it. */
  predicate Spared(s: State, s': State, t: Tid) {
    && t in s.threads && t in s'.threads
    && (s'.threads[t] == s.threads[t]
        || (s'.threads[t].DetachT? == s.threads[t].DetachT? && Silent(s.threads[t]) && Silent(s'.threads[t])))
  }

  lemma LaunchSpares(s: State, u: Tid, t: Tid)
    requires CanAttachLaunch(s, u) && AttachOk(s, u) && s.nextTid !in s.threads
    requires t in AttachTouches(s, AttachLaunch(u))
    ensures Spared(s, DoAttachLaunch(s, u), t)
  {
  }

  lemma LeaveSpares(s: State, u: Tid, t: Tid)
    requires CanAttachLeave(s, u) && t in AttachTouches(s, AttachLeave(u)) && t in s.threads
    ensures Spared(s, DoAttachLeave(s, u), t)
  {
  }

  lemma RegisterSpares(s: State, u: Tid)
    requires CanAttachRegister(s, u) && s.nextTid !in s.threads
    ensures Spared(s, DoAttachRegister(s, u), u)
  {
  }

  lemma AttachSpares(s: State, a: AttachStep, t: Tid)
    requires AttachEnabled(s, a) && s.nextTid !in s.threads && t in s.threads && t in AttachTouches(s, a)
    requires a.AttachLaunch? ==> AttachOk(s, a.t)
    ensures Spared(s, AttachApply(s, a), t)
  {
    match a
    case AttachLaunch(u) => LaunchSpares(s, u, t);
    case AttachLeave(u) => LeaveSpares(s, u, t);
    case AttachRegister(u) => RegisterSpares(s, u);
    case _ =>
  }

  lemma LeaverSpares(s: State, u: Tid, t: Tid)
    requires CanOwnerLeave(s, u) && t != u && t in s.threads && t in DetachTouches(s, OwnerLeave(u))
    ensures Spared(s, DoOwnerLeave(s, u), t)
  {
  }

  lemma WatcherSpares(s: State, a: WatcherStep, t: Tid)
    requires WatcherEnabled(s, a) && s.nextTid !in s.threads && t in s.threads && t in WatcherTouches(a)
    ensures Spared(s, WatcherApply(s, a), t)
  {
  }

  lemma OtherSpares(s: State, step: Step, t: Tid)
    requires Reachable(s) && Enabled(s, step) && !Own(step, t) && t in s.threads
    ensures Spared(s, Apply(s, step), t)
  {
    FreshFacts(s);
    if t !in Touches(s, step) {
      StepTouch(s, step, t);
    } else {
      match step
      case ByAttach(a) =>
        if a.AttachLaunch? { ThreadFacts(s, a.t); }
        AttachSpares(s, a, t);
      case ByDetach(a) => LeaverSpares(s, a.t, t);
      case ByWatcher(a) => WatcherSpares(s, a, t);
      case ByWorld(_) =>
    }
  }

  // --- New threads ---------------------------------------------------------

  lemma NewByAttach(s: State, a: AttachStep, t: Tid)
    requires AttachEnabled(s, a) && t !in s.threads && t in AttachApply(s, a).threads
    ensures Silent(AttachApply(s, a).threads[t])
  {
    match a
    case AttachRegister(u) => NewByRegister(s, u, t);
    case AttachLaunch(u) => NewByLaunch(s, u, t);
    case _ =>
  }

  lemma NewByRegister(s: State, u: Tid, t: Tid)
    requires CanAttachRegister(s, u) && t !in s.threads && t in DoAttachRegister(s, u).threads
    ensures Silent(DoAttachRegister(s, u).threads[t])
  {
  }

  lemma NewByLaunch(s: State, u: Tid, t: Tid)
    requires CanAttachLaunch(s, u) && t !in s.threads && t in DoAttachLaunch(s, u).threads
    ensures Silent(DoAttachLaunch(s, u).threads[t])
  {
  }

  lemma NewByDetach(s: State, a: DetachStep, t: Tid)
    requires DetachEnabled(s, a) && t !in s.threads && t in DetachApply(s, a).threads
    ensures Silent(DetachApply(s, a).threads[t])
  {
    match a
    case DetachStart(p) =>
    case DetachLook(u) => NewByLook(s, u, t);
    case OwnerLeave(u) => NewByLeave(s, u, t);
    case _ =>
  }

  lemma NewByLook(s: State, u: Tid, t: Tid)
    requires CanDetachLook(s, u) && t !in s.threads
    ensures t !in DoDetachLook(s, u).threads
  {
  }

  lemma NewByLeave(s: State, u: Tid, t: Tid)
    requires CanOwnerLeave(s, u) && t !in s.threads
    ensures t !in DoOwnerLeave(s, u).threads
  {
  }

  lemma NewByWatcher(s: State, a: WatcherStep, t: Tid)
    requires WatcherEnabled(s, a) && t !in s.threads && t in WatcherApply(s, a).threads
    ensures Silent(WatcherApply(s, a).threads[t])
  {
  }

  lemma NewIsSilent(s: State, step: Step, t: Tid)
    requires Enabled(s, step) && t !in s.threads && t in Apply(s, step).threads
    ensures Silent(Apply(s, step).threads[t])
  {
    match step
    case ByAttach(a) => NewByAttach(s, a, t);
    case ByDetach(a) => NewByDetach(s, a, t);
    case ByWatcher(a) => NewByWatcher(s, a, t);
    case ByWorld(_) =>
  }

  // --- Runs ----------------------------------------------------------------

  lemma ToldStep(s: State, step: Step, t: Tid, story: Story)
    requires Reachable(s) && Enabled(s, step) && Told(s, t, story)
    ensures Told(Apply(s, step), t, Then(story, step, t))
  {
    if Own(step, t) {
      OwnIsDetach(s, step.stepDetach, t);
      OwnTells(s, step.stepDetach, t, story);
    } else {
      OtherTells(s, step, t, story);
    }
  }

  lemma SparedTells(s: State, s': State, t: Tid, story: Story)
    requires Spared(s, s', t) && Told(s, t, story)
    ensures Told(s', t, story)
  {
  }

  lemma OtherTells(s: State, step: Step, t: Tid, story: Story)
    requires Reachable(s) && Enabled(s, step) && Told(s, t, story) && !Own(step, t)
    ensures Told(Apply(s, step), t, Then(story, step, t))
  {
    OtherSaysNothing(step, t, story);
    if t in s.threads {
      OtherSpares(s, step, t);
      SparedTells(s, Apply(s, step), t, story);
    } else if t in Apply(s, step).threads {
      NewIsSilent(s, step, t);
    }
  }

  /** The run from `s` on adds to the story. */
  function More(story: Story, steps: seq<Step>, t: Tid): Story
    decreases |steps|
  {
    if steps == [] then story else More(Then(story, steps[0], t), steps[1..], t)
  }

  lemma {:induction false} ToldRun(s: State, steps: seq<Step>, after: State, t: Tid, story: Story)
    requires Reachable(s) && Run(s, steps, after) && Told(s, t, story)
    ensures Told(after, t, More(story, steps, t)) && Reachable(after)
    decreases |steps|
  {
    if steps == [] {
      RunStays(s, after);
    } else {
      RunFirst(s, steps, after);
      ReachableStep(s, steps[0]);
      ToldStep(s, steps[0], t, story);
      ToldRun(Apply(s, steps[0]), steps[1..], after, t, Then(story, steps[0], t));
    }
  }

  /**
   * Over every run a Detach makes at most one kernel call. If it closed its
   * attempt it returns, and the attempt holds for everybody who follows it,
   * exactly what the kernel answered, or success if its handle had been
   * superseded and it made no call; a Detach that owned no attempt made none.
   */
  lemma DetachReportsTheKernel(i: State, steps: seq<Step>, s: State, t: Tid)
    requires Init(i) && Run(i, steps, s) && DetachAt(s, t) && s.threads[t].dpc.DetachOut?
    ensures
      var DetachOut(x, o, _) := s.threads[t].dpc;
      var Story(answers, closed) := More(NOTHING, steps, t);
      && x in s.core.attemptTable && s.core.attemptTable[x].result == Some(o)
      && if closed then answers == [o] || (answers == [] && o == Released) else answers == []
  {
    RunNowhere(i);
    assert Reachable(i);
    ToldRun(i, steps, s, t, NOTHING);
    ThreadFacts(s, t);
  }
}
