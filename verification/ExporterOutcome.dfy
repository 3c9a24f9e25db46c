/**
 * What a session's cleanup future and Shutdown report, against the Disconnects
 * the run made and what the kernel answered to them; and what each Shutdown
 * call works on.
 */
module ExporterOutcome {
  import opened Base
  import opened ExporterRegistry
  import opened ExporterProtocol
  import opened ExporterInvariant
  import opened ExporterSteps
  import opened ExporterShutdownSteps
  import opened ExporterTheorems
  import H = ExporterHandle

  /** What the kernel answers in this step to a Disconnect for session `c`. */
  function Answer(step: Step, c: Sid): seq<H.Cleanup> {
    if !step.OnSession? || step.c != c then []
    else
      match step.act
      case OwnDisconnect(r) => [r]
      case SweptDisconnect(r) => [r]
      case _ => []
  }

  /** The answers to all Disconnects for session `c` in a run, in order. */
  function Answers(steps: seq<Step>, c: Sid): seq<H.Cleanup> {
    if steps == [] then [] else Answer(steps[0], c) + Answers(steps[1..], c)
  }

  /** The record agrees with the answers so far. */
  predicate Tells(x: Sess, answers: seq<H.Cleanup>) {
    && |answers| == x.issued <= 1
    && (x.pc.Reported? ==> answers == [x.pc.result])
    && (x.cleaner.CleanerReported? ==> answers == [x.cleaner.outcome])
    && (x.h.cleanup.Some? ==> x.h.cleanup.value == if answers == [] then H.Clean else answers[0])
  }

  ghost predicate Told(s: State, c: Sid, answers: seq<H.Cleanup>) {
    if c in s.sess then Tells(s.sess[c], answers) else answers == []
  }

  lemma ActTells(x: Sess, c: Sid, a: Act, shutdown: bool, answers: seq<H.Cleanup>)
    requires SessOk(x, shutdown) && CanAct(x, a) && VisitOk(x, a, shutdown) && Tells(x, answers)
    ensures Tells(DoAct(x, a), answers + Answer(OnSession(c, a), c))
  {
    if !a.OwnDisconnect? && !a.SweptDisconnect? { assert answers + [] == answers; }
  }

  lemma ToldAct(s: State, d: Sid, a: Act, c: Sid, answers: seq<H.Cleanup>)
    requires Sessions(s) && Retention(s) && Enabled(s, OnSession(d, a)) && Told(s, c, answers)
    ensures Told(Apply(s, OnSession(d, a)), c, answers + Answer(OnSession(d, a), c))
  {
    ActEdits(s, d, a);
    if d == c {
      VisitIsOk(s, c, a);
      ActTells(s.sess[c], c, a, s.reg.shutdown, answers);
    } else {
      assert answers + [] == answers;
    }
  }

  lemma ToldStep(s: State, step: Step, c: Sid, answers: seq<H.Cleanup>)
    requires Inv(s) && Enabled(s, step) && Told(s, c, answers)
    ensures Told(Apply(s, step), c, answers + Answer(step, c))
  {
    assert !step.OnSession? ==> answers + Answer(step, c) == answers;
    match step
    case OnSession(d, a) => ToldAct(s, d, a, c, answers);
    case Register(d) => ToldRegister(s, d, c, answers);
    case Unregister(d) => ToldUnregister(s, d, c, answers);
    case Accept(_) => ToldAccept(s, c, answers);
    case _ => StepAside(s, step); ToldSame(s, Apply(s, step), c, answers);
  }

  lemma ToldSame(s: State, s': State, c: Sid, answers: seq<H.Cleanup>)
    requires Told(s, c, answers) && s'.sess == s.sess
    ensures Told(s', c, answers)
  {
  }

  lemma ToldRegister(s: State, d: Sid, c: Sid, answers: seq<H.Cleanup>)
    requires Told(s, c, answers) && d in s.sess
    ensures Told(DoRegister(s, d), c, answers)
  {
  }

  lemma ToldUnregister(s: State, d: Sid, c: Sid, answers: seq<H.Cleanup>)
    requires Told(s, c, answers) && d in s.sess
    ensures Told(DoUnregister(s, d), c, answers)
  {
  }

  lemma ToldAccept(s: State, c: Sid, answers: seq<H.Cleanup>)
    requires Told(s, c, answers) && Ids(s)
    ensures Told(DoAccept(s), c, answers)
  {
    assert s.nextId !in s.sess;
  }

  lemma {:induction false} ToldRun(s: State, steps: seq<Step>, after: State, c: Sid, answers: seq<H.Cleanup>)
    requires Inv(s) && Run(s, steps, after) && Told(s, c, answers)
    ensures Told(after, c, answers + Answers(steps, c))
    decreases |steps|
  {
    AnswersAdd(steps, c, answers);
    if steps != [] {
      ToldStep(s, steps[0], c, answers);
      InvStep(s, steps[0]);
      ToldRun(Apply(s, steps[0]), steps[1..], after, c, answers + Answer(steps[0], c));
    }
  }

  lemma AnswersAdd(steps: seq<Step>, c: Sid, answers: seq<H.Cleanup>)
    ensures steps == [] ==> answers + Answers(steps, c) == answers
    ensures steps != [] ==> answers + Answers(steps, c) == answers + Answer(steps[0], c) + Answers(steps[1..], c)
  {
  }

  lemma ToldFromInit(i: State, steps: seq<Step>, s: State, c: Sid)
    requires Init(i) && Run(i, steps, s)
    ensures Told(s, c, Answers(steps, c))
  {
    InvInit(i);
    ToldRun(i, steps, s, c, []);
    assert [] + Answers(steps, c) == Answers(steps, c);
  }

  /**
   * Over every run at most one Disconnect is made for a session, and its future,
   * once closed, holds an error exactly when that Disconnect was made and failed.
   */
  lemma FutureHoldsTheAnswer(i: State, steps: seq<Step>, s: State, c: Sid)
    requires Init(i) && Run(i, steps, s) && c in s.sess
    ensures |Answers(steps, c)| <= 1
    ensures
      var future := s.sess[c].h.cleanup;
      && (future == Some(H.DisconnectError) <==> future.Some? && Answers(steps, c) == [H.DisconnectError])
      && (future == Some(H.Clean) <==> future.Some? && Answers(steps, c) != [H.DisconnectError])
  {
    ToldFromInit(i, steps, s, c);
    ClosedIff(s.sess[c], Answers(steps, c));
  }

  lemma ClosedIff(x: Sess, answers: seq<H.Cleanup>)
    requires Tells(x, answers)
    ensures
      var future := x.h.cleanup;
      && (future == Some(H.DisconnectError) <==> future.Some? && answers == [H.DisconnectError])
      && (future == Some(H.Clean) <==> future.Some? && answers != [H.DisconnectError])
  {
    if answers != [] { assert answers == [answers[0]]; }
  }

  /**
   * What Shutdown returns from the futures it retained, once all are closed: the
   * error of session k is reported exactly when the kernel failed its Disconnect.
   */
  lemma ShutdownReportsTheFailures(
    i: State, steps: seq<Step>, s: State, waited: seq<Option<H.Cleanup>>, k: nat)
    requires Init(i) && Run(i, steps, s) && |waited| == |s.reg.retained| && k < |waited|
    requires forall j :: 0 <= j < |waited| ==>
      waited[j].Some? && s.reg.retained[j] in s.sess && waited[j] == s.sess[s.reg.retained[j]].h.cleanup
    ensures k in H.ErrorsOf(waited, 0) <==> Answers(steps, s.reg.retained[k]) == [H.DisconnectError]
  {
    FutureHoldsTheAnswer(i, steps, s, s.reg.retained[k]);
  }

  // --- What a handoff was preceded by --------------------------------------

  /** How far the handler is: `watched` that it has its lifecycle subscription,
      `told` that the peer has its success reply. */
  predicate Prepared(x: Sess, watched: bool, told: bool) {
    && (x.pc.Replying? ==> watched)
    && (x.pc.Replied? || x.pc.InKernel? || !x.h.phase.NotStarted? ==> watched && told)
  }

  ghost predicate PreparedAt(s: State, c: Sid, steps: seq<Step>) {
    c in s.sess ==>
      Prepared(s.sess[c], OnSession(c, Subscribe(true)) in steps, OnSession(c, Act.Reply(true)) in steps)
  }

  lemma ActPrepares(x: Sess, a: Act, watched: bool, told: bool)
    requires CanAct(x, a) && Prepared(x, watched, told)
    ensures Prepared(DoAct(x, a), watched || a == Subscribe(true), told || a == Act.Reply(true))
  {
  }

  lemma PreparedStep(s: State, step: Step, c: Sid, before: seq<Step>)
    requires Ids(s) && Enabled(s, step) && PreparedAt(s, c, before)
    ensures PreparedAt(Apply(s, step), c, before + [step])
  {
    match step
    case OnSession(d, a) =>
      ActEdits(s, d, a);
      if d == c {
        ActPrepares(s.sess[c], a, OnSession(c, Subscribe(true)) in before, OnSession(c, Act.Reply(true)) in before);
      }
    case Register(d) =>
    case Unregister(d) =>
    case Accept(_) => assert s.nextId !in s.sess;
    case _ => StepAside(s, step);
  }

  lemma {:induction false} PreparedRun(s: State, before: seq<Step>, steps: seq<Step>, after: State, c: Sid)
    requires Inv(s) && Run(s, steps, after) && PreparedAt(s, c, before)
    ensures PreparedAt(after, c, before + steps)
    decreases |steps|
  {
    Regroup(before, steps);
    if steps != [] {
      PreparedStep(s, steps[0], c, before);
      InvStep(s, steps[0]);
      PreparedRun(Apply(s, steps[0]), before + [steps[0]], steps[1..], after, c);
    }
  }

  lemma Regroup(before: seq<Step>, steps: seq<Step>)
    ensures steps == [] ==> before + steps == before
    ensures steps != [] ==> before + [steps[0]] + steps[1..] == before + steps
  {
  }

  /** In every run a socket is handed to the kernel only after the handler got
      its lifecycle subscription and wrote the success reply. */
  lemma HandoffIsAnnounced(i: State, steps: seq<Step>, s: State, c: Sid)
    requires Init(i) && Run(i, steps, s) && c in s.sess && !s.sess[c].h.phase.NotStarted?
    ensures OnSession(c, Subscribe(true)) in steps && OnSession(c, Act.Reply(true)) in steps
  {
    InvInit(i);
    PreparedRun(i, [], steps, s, c);
    assert [] + steps == steps;
  }

  // --- Every call works on the first snapshot ------------------------------

  /** Shut, with these handles and this accept loop, and no listener. */
  predicate ShutWith(r: Registry, handles: seq<Sid>, loop: Option<Tid>) {
    r.shutdown && r.retained == handles && r.listener.None? && r.loop == loop
  }

  lemma ShutServe(s: State, t: Tid, a: ServeAct)
    requires s.reg.shutdown
    ensures ShutWith(s.reg, s.reg.retained, s.reg.loop) ==>
      ShutWith(DoServe(s, t, a).reg, s.reg.retained, s.reg.loop)
  {
  }

  lemma ShutStep(s: State, step: Step, handles: seq<Sid>, loop: Option<Tid>)
    requires ShutWith(s.reg, handles, loop)
    ensures ShutWith(Apply(s, step).reg, handles, loop)
  {
    if Enabled(s, step) {
      match step
      case OnSession(c, a) => ActEdits(s, c, a);
      case OnServe(t, a) => ShutServe(s, t, a);
      case _ =>
    }
  }

  lemma {:induction false} ShutRun(s: State, steps: seq<Step>, after: State, handles: seq<Sid>, loop: Option<Tid>)
    requires ShutWith(s.reg, handles, loop) && Run(s, steps, after)
    ensures ShutWith(after.reg, handles, loop)
    decreases |steps|
  {
    if steps != [] {
      ShutStep(s, steps[0], handles, loop);
      ShutRun(Apply(s, steps[0]), steps[1..], after, handles, loop);
    }
  }

  /**
   * The first Shutdown takes the sessions live at that moment, each once, with
   * the listener and the accept loop; every later Shutdown of the run gets the
   * same sessions and the same loop, and no listener.
   */
  lemma EveryShutdownSeesTheFirst(s: State, order: seq<Sid>, steps: seq<Step>, after: State, again: seq<Sid>)
    requires !s.reg.shutdown && Enabled(s, ShutdownCapture(order))
    requires Run(Apply(s, ShutdownCapture(order)), steps, after)
    ensures
      var first, later := CaptureShutdown(s.reg, order).1, CaptureShutdown(after.reg, again).1;
      && first == Snapshot(true, order, s.reg.listener, s.reg.loop)
      && later == Snapshot(false, order, None, s.reg.loop)
      && Lists(order, s.reg.sessions.Keys)
      && Apply(s, ShutdownCapture(order)).doomed == s.reg.listener
  {
    ShutRun(Apply(s, ShutdownCapture(order)), steps, after, order, s.reg.loop);
  }

  // --- Nothing stands in the way of a cleanup ------------------------------

  /** What the one at work on the cleanup does next, if the kernel lets it. */
  function NextAct(x: Sess): Act {
    match x.pc
    case InKernel(None) => KernelExport(false)
    case InKernel(Some(_)) => FinishHandoff
    case Disconnecting => OwnDisconnect(H.Clean)
    case Reported(_) => FinishOwnCleanup
    case _ => if x.cleaner.Due? then SweptDisconnect(H.Clean) else FinishSweptCleanup
  }

  function ActsLeft(x: Sess): (n: nat)
    ensures 1 <= n <= 4
  {
    match x.pc
    case InKernel(None) => 4
    case InKernel(Some(_)) => 3
    case Disconnecting => 2
    case Reported(_) => 1
    case _ => if x.cleaner.Due? then 2 else 1
  }

  lemma NextActWorks(x: Sess, shutdown: bool)
    requires SessOk(x, shutdown) && x.h.cancelled && x.h.cleanup.None? && InHand(x)
    ensures
      && CanAct(x, NextAct(x))
      && var y := DoAct(x, NextAct(x));
         y.h.cancelled && (y.h.cleanup.Some? || (InHand(y) && ActsLeft(y) < ActsLeft(x)))
  {
  }

  ghost predicate OnlyOf(steps: seq<Step>, c: Sid) {
    forall k :: 0 <= k < |steps| ==> steps[k].OnSession? && steps[k].c == c
  }

  /** The future of `c` is closed, or at most `n` acts away from it. */
  ghost predicate Closing(s: State, c: Sid, n: nat) {
    && c in s.sess && s.sess[c].h.cancelled
    && (s.sess[c].h.cleanup.Some? || (InHand(s.sess[c]) && ActsLeft(s.sess[c]) <= n))
  }

  lemma ClosingStep(s: State, c: Sid, n: nat) returns (step: Step, s': State)
    requires Reachable(s) && n > 0 && Closing(s, c, n) && s.sess[c].h.cleanup.None?
    ensures Enabled(s, step) && step.OnSession? && step.c == c && s' == Apply(s, step)
    ensures Reachable(s') && Closing(s', c, n - 1)
  {
    ReachableInv(s);
    NextActWorks(s.sess[c], s.reg.shutdown);
    step := OnSession(c, NextAct(s.sess[c]));
    ActEdits(s, c, step.act);
    ReachableOn(s, step);
    s' := Apply(s, step);
  }

  lemma {:induction false} RunSnoc(s: State, steps: seq<Step>, after: State, step: Step)
    requires Run(s, steps, after) && Enabled(after, step)
    ensures Run(s, steps + [step], Apply(after, step))
    decreases |steps|
  {
    if steps != [] {
      RunSnoc(Apply(s, steps[0]), steps[1..], after, step);
      assert (steps + [step])[1..] == steps[1..] + [step];
    } else {
      assert steps + [step] == [step];
    }
  }

  lemma ReachableOn(s: State, step: Step)
    requires Reachable(s) && Enabled(s, step)
    ensures Reachable(Apply(s, step))
  {
    var i, steps :| Init(i) && Run(i, steps, s);
    RunSnoc(i, steps, s, step);
  }

  lemma {:induction false} FutureCanClose(s: State, c: Sid, n: nat) returns (steps: seq<Step>, after: State)
    requires Reachable(s) && Closing(s, c, n)
    ensures Run(s, steps, after) && |steps| <= n && OnlyOf(steps, c)
    ensures c in after.sess && after.sess[c].h.cleanup.Some?
    decreases n
  {
    steps, after := [], s;
    if s.sess[c].h.cleanup.None? {
      var step, s' := ClosingStep(s, c, n);
      var more;
      more, after := FutureCanClose(s', c, n - 1);
      RunCons(s, step, more, after);
      steps := [step] + more;
    }
  }

  lemma RunCons(s: State, step: Step, more: seq<Step>, after: State)
    requires Enabled(s, step) && Run(Apply(s, step), more, after)
    ensures Run(s, [step] + more, after)
  {
    assert ([step] + more)[1..] == more;
  }

  /** After the sweep no retained future is stuck: a few steps of its own session,
      and of nobody else, close it. */
  lemma RetainedFutureCanClose(s: State, j: nat) returns (steps: seq<Step>, after: State)
    requires Reachable(s) && s.sweep == AtSignal(|s.reg.retained|) && j < |s.reg.retained|
    ensures Run(s, steps, after) && |steps| <= 4 && OnlyOf(steps, s.reg.retained[j])
    ensures s.reg.retained[j] in after.sess && after.sess[s.reg.retained[j]].h.cleanup.Some?
  {
    ReachableInv(s);
    SweepReachesEverySession(s, j);
    steps, after := FutureCanClose(s, s.reg.retained[j], 4);
  }

  // --- When Serve is declined ----------------------------------------------

  lemma {:induction false} ShutIffCaptured(s: State, steps: seq<Step>, after: State)
    requires Run(s, steps, after)
    ensures after.reg.shutdown <==> s.reg.shutdown || exists k :: 0 <= k < |steps| && steps[k].ShutdownCapture?
    decreases |steps|
  {
    if steps != [] {
      ShutBy(s, steps[0]);
      ShutIffCaptured(Apply(s, steps[0]), steps[1..], after);
      assert forall k :: 0 < k < |steps| ==> steps[k] == steps[1..][k - 1];
    }
  }

  lemma ShutBy(s: State, step: Step)
    requires Enabled(s, step)
    ensures Apply(s, step).reg.shutdown <==> s.reg.shutdown || step.ShutdownCapture?
  {
    match step
    case OnSession(c, a) => ActEdits(s, c, a);
    case OnServe(t, a) => ServeSweep(s, t, a);
    case _ =>
  }

  /** Serve is refused after any Shutdown of the run, else while another Serve
      has not returned, and otherwise accepted. */
  lemma ServeIsDeclinedIff(i: State, steps: seq<Step>, s: State, t: Tid)
    requires Init(i) && Run(i, steps, s)
    ensures
      var declined := StartServing(s.reg, t).1;
      var shut := exists k :: 0 <= k < |steps| && steps[k].ShutdownCapture?;
      && (declined == Some(AlreadyShutdown) <==> shut)
      && (declined == Some(ServeAlreadyRunning) <==> !shut && exists u :: u in s.serves && !s.serves[u].Stopped?)
      && (declined.Some? ==> declined.value == AlreadyShutdown || declined.value == ServeAlreadyRunning)
  {
    ShutIffCaptured(i, steps, s);
    InvInit(i);
    InvRun(i, steps, s);
    RunningIff(s);
  }

  lemma RunningIff(s: State)
    requires Serves(s)
    ensures s.reg.serving <==> exists u :: u in s.serves && !s.serves[u].Stopped?
  {
    if u :| u in s.serves && !s.serves[u].Stopped? { assert ServeOk(s, u); }
  }
}
