/** The parts of the exporter invariant about Shutdown, Serve and the drain
    group, and the induction over runs. */
module ExporterShutdownSteps {
  import opened Base
  import opened LifecycleGroup
  import opened ExporterRegistry
  import opened ExporterProtocol
  import opened ExporterInvariant
  import opened ExporterSteps
  import H = ExporterHandle

  // --- Retention -----------------------------------------------------------

  /** The two records look the same to Shutdown. */
  predicate SameToShutdown(x: Sess, y: Sess) {
    && Live(y.pc) == Live(x.pc) && EverRegistered(y) == EverRegistered(x)
    && y.h.cancelled == x.h.cancelled && y.h.done == x.h.done && y.cleaner.Swept? == x.cleaner.Swept?
  }

  lemma RetentionEdit(s: State, s': State, c: Sid)
    requires Retention(s) && Edits(s, s', c) && s'.sweep == s.sweep && SameToShutdown(s.sess[c], s'.sess[c])
    ensures Retention(s')
  {
    forall j | 0 <= j < |s'.reg.retained|
      ensures s'.reg.retained[j] in s'.sess && SweptOk(s', j) && EverRegistered(s'.sess[s'.reg.retained[j]])
    {
      assert SweptOk(s, j);
    }
    forall d | d in s'.sess
      ensures KnownTo(s', d)
    {
      assert KnownTo(s, d);
    }
  }

  /** An act other than Shutdown's visit changes nothing Shutdown looks at. */
  lemma RetentionQuiet(s: State, c: Sid, a: Act)
    requires Sessions(s) && Retention(s) && Enabled(s, OnSession(c, a)) && !a.Signal? && !a.CancelDone?
    ensures Retention(Apply(s, OnSession(c, a)))
  {
    var x := s.sess[c];
    ActEdits(s, c, a);
    ActLife(x, a);
    ActOwes(x, a);
    ActRegistered(x, a, s.reg.shutdown);
    QuietSweep(s, c, a);
    RetentionEdit(s, Apply(s, OnSession(c, a)), c);
  }

  lemma QuietSweep(s: State, c: Sid, a: Act)
    requires Enabled(s, OnSession(c, a)) && !a.Signal? && !a.CancelDone?
    ensures Apply(s, OnSession(c, a)).sweep == s.sweep
  {
  }

  lemma VisitEffects(x: Sess, a: Act)
    requires a.Signal? || a.CancelDone?
    ensures DoAct(x, a).h.cancelled == (a.Signal? || x.h.cancelled)
    ensures a.CancelDone? ==> DoAct(x, a).h.done && (DoAct(x, a).cleaner.Swept? <==> x.cleaner.Swept? && !a.mine)
    ensures a.Signal? ==> (DoAct(x, a).cleaner.Swept? <==> x.cleaner.Swept? || H.SignalCancel(x.h).1)
  {
  }

  lemma VisitSwept(s: State, s': State, c: Sid, a: Act, j: nat)
    requires Retention(s) && Enabled(s, OnSession(c, a)) && (a.Signal? || a.CancelDone?)
    requires SessOk(s.sess[c], s.reg.shutdown)
    requires s' == Apply(s, OnSession(c, a)) && Edits(s, s', c) && s'.sess[c] == DoAct(s.sess[c], a)
    requires EverRegistered(s'.sess[c]) == EverRegistered(s.sess[c]) && j < |s.reg.retained|
    ensures s'.reg.retained[j] in s'.sess && SweptOk(s', j) && EverRegistered(s'.sess[s'.reg.retained[j]])
  {
    VisitEffects(s.sess[c], a);
    assert SweptOk(s, s.sweep.index) && SweptOk(s, j);
    assert j != s.sweep.index ==> s.reg.retained[j] != c;
  }

  lemma RetentionVisit(s: State, c: Sid, a: Act)
    requires Sessions(s) && Retention(s) && Enabled(s, OnSession(c, a)) && (a.Signal? || a.CancelDone?)
    ensures Retention(Apply(s, OnSession(c, a)))
  {
    var s' := Apply(s, OnSession(c, a));
    var x := s.sess[c];
    VisitIsOk(s, c, a);
    ActEdits(s, c, a);
    ActLife(x, a);
    ActRegistered(x, a, s.reg.shutdown);
    VisitEffects(x, a);
    assert SweptOk(s, s.sweep.index);
    forall j | 0 <= j < |s'.reg.retained|
      ensures s'.reg.retained[j] in s'.sess && SweptOk(s', j) && EverRegistered(s'.sess[s'.reg.retained[j]])
    {
      VisitSwept(s, s', c, a, j);
    }
    forall d | d in s'.sess
      ensures KnownTo(s', d)
    {
      assert KnownTo(s, d);
    }
  }

  lemma RetentionRegister(s: State, c: Sid)
    requires Sessions(s) && Retention(s) && Enabled(s, Register(c))
    ensures Retention(DoRegister(s, c))
  {
    var s' := DoRegister(s, c);
    assert SessOk(s.sess[c], s.reg.shutdown);
    assert KnownTo(s, c);
    forall j | 0 <= j < |s'.reg.retained|
      ensures s'.reg.retained[j] in s'.sess && SweptOk(s', j) && EverRegistered(s'.sess[s'.reg.retained[j]])
    {
      assert SweptOk(s, j) && s.reg.retained[j] != c;
    }
    forall d | d in s'.sess
      ensures KnownTo(s', d)
    {
      assert KnownTo(s, d);
    }
  }

  lemma RetentionUnregister(s: State, c: Sid)
    requires Sessions(s) && Retention(s) && Enabled(s, Unregister(c))
    ensures Retention(DoUnregister(s, c))
  {
    var s' := DoUnregister(s, c);
    assert SessOk(s.sess[c], s.reg.shutdown);
    forall j | 0 <= j < |s'.reg.retained|
      ensures s'.reg.retained[j] in s'.sess && SweptOk(s', j) && EverRegistered(s'.sess[s'.reg.retained[j]])
    {
      assert SweptOk(s, j);
    }
    forall d | d in s'.sess
      ensures KnownTo(s', d)
    {
      assert KnownTo(s, d);
    }
  }

  lemma RetentionAccept(s: State)
    requires Ids(s) && Retention(s)
    ensures Retention(DoAccept(s))
  {
    var s' := DoAccept(s);
    assert s.nextId !in s.sess;
    forall j | 0 <= j < |s'.reg.retained|
      ensures s'.reg.retained[j] in s'.sess && SweptOk(s', j) && EverRegistered(s'.sess[s'.reg.retained[j]])
    {
      assert SweptOk(s, j);
    }
    forall d | d in s'.sess
      ensures KnownTo(s', d)
    {
      assert d in s.sess ==> KnownTo(s, d);
    }
  }

  lemma RetentionCapture(s: State, order: seq<Sid>)
    requires Sessions(s) && Entries(s) && Retention(s) && Lists(order, s.reg.sessions.Keys)
    ensures Retention(DoCapture(s, order))
  {
    var s' := DoCapture(s, order);
    if !s.reg.shutdown {
      forall j | 0 <= j < |s'.reg.retained|
        ensures s'.reg.retained[j] in s'.sess && SweptOk(s', j) && EverRegistered(s'.sess[s'.reg.retained[j]])
      {
        assert EntryOk(s, order[j]) && SessOk(s.sess[order[j]], false);
      }
      forall d | d in s'.sess
        ensures KnownTo(s', d)
      {
        assert KnownTo(s, d) && EntryOk(s, d) && SessOk(s.sess[d], false);
      }
    }
  }

  lemma RetentionSame(s: State, s': State)
    requires Retention(s) && s'.sess == s.sess && s'.retired == s.retired && s'.sweep == s.sweep
    requires s'.reg.retained == s.reg.retained && s'.reg.shutdown == s.reg.shutdown
    ensures Retention(s')
  {
    forall j | 0 <= j < |s'.reg.retained|
      ensures s'.reg.retained[j] in s'.sess && SweptOk(s', j) && EverRegistered(s'.sess[s'.reg.retained[j]])
    {
      assert SweptOk(s, j);
    }
    forall d | d in s'.sess
      ensures KnownTo(s', d)
    {
      assert KnownTo(s, d);
    }
  }

  lemma RetentionStep(s: State, step: Step)
    requires Sessions(s) && Ids(s) && Entries(s) && Retention(s) && Enabled(s, step)
    ensures Retention(Apply(s, step))
  {
    match step
    case OnSession(c, a) => if a.Signal? || a.CancelDone? { RetentionVisit(s, c, a); } else { RetentionQuiet(s, c, a); }
    case Register(c) => RetentionRegister(s, c);
    case Unregister(c) => RetentionUnregister(s, c);
    case Accept(_) => RetentionAccept(s);
    case ShutdownCapture(order) => RetentionCapture(s, order);
    case OnServe(t, a) => ServeSweep(s, t, a); RetentionSame(s, DoServe(s, t, a));
    case _ => RetentionRest(s, step);
  }

  lemma RetentionRest(s: State, step: Step)
    requires Retention(s) && Enabled(s, step)
    requires step.ServeStart? || step.KernelDrop? || step.CloseDoomed? || step.CaptureDrain?
    ensures Retention(Apply(s, step))
  {
    RetentionSame(s, Apply(s, step));
  }

  lemma ServeSweep(s: State, t: Tid, a: ServeAct)
    ensures
      var s' := DoServe(s, t, a);
      && s'.sess == s.sess && s'.retired == s.retired && s'.sweep == s.sweep
      && s'.reg.retained == s.reg.retained && s'.reg.shutdown == s.reg.shutdown
  {
  }

  // --- Serve ---------------------------------------------------------------

  /** The Once lets a Serve close its channel at most once. */
  lemma SignalIsOk(s: State, t: Tid, pc: ServePc, u: Tid)
    requires Serves(s) && t in s.serves && (s.serves[t].LoopOver? || s.serves[t].Deferring?)
    requires u in s.serves && (pc.Waiting? || pc.Stopping?)
    ensures ServeOk(SetServe(SignalAcceptExited(s, t), t, pc), u)
  {
    assert ServeOk(s, u) && ServeOk(s, t);
  }

  lemma ServesSignal(s: State, t: Tid, pc: ServePc)
    requires Serves(s) && t in s.serves && (s.serves[t].LoopOver? || s.serves[t].Deferring?)
    requires pc.Waiting? || pc.Stopping?
    ensures Serves(SetServe(SignalAcceptExited(s, t), t, pc))
  {
    forall u | u in s.serves { SignalIsOk(s, t, pc, u); }
  }

  lemma ServesRegistry(s: State, t: Tid, a: ServeAct)
    requires Serves(s) && t in s.serves && CanServe(s.serves[t], a) && (a.Install? || a.Stop?)
    ensures Serves(DoServe(s, t, a))
  {
    var s' := DoServe(s, t, a);
    forall u | u in s'.serves
      ensures ServeOk(s', u)
    {
      assert ServeOk(s, u) && ServeOk(s, t);
    }
  }

  lemma ServesMove(s: State, t: Tid, a: ServeAct)
    requires Serves(s) && t in s.serves && CanServe(s.serves[t], a)
    requires !a.SignalExit? && !a.DeferredSignal? && !a.Install? && !a.Stop?
    ensures Serves(DoServe(s, t, a))
  {
    var s' := DoServe(s, t, a);
    forall u | u in s'.serves
      ensures ServeOk(s', u)
    {
      assert ServeOk(s, u) && ServeOk(s, t);
    }
  }

  lemma ServesAct(s: State, t: Tid, a: ServeAct)
    requires Serves(s) && t in s.serves && CanServe(s.serves[t], a)
    ensures Serves(DoServe(s, t, a))
  {
    if a.SignalExit? {
      ServesSignal(s, t, Waiting);
    } else if a.DeferredSignal? {
      ServesSignal(s, t, Stopping);
    } else if a.Install? || a.Stop? {
      ServesRegistry(s, t, a);
    } else {
      ServesMove(s, t, a);
    }
  }

  lemma ServesStart(s: State)
    requires Serves(s) && Ids(s)
    ensures Serves(DoServeStart(s))
  {
    var s' := DoServeStart(s);
    assert s.nextId !in s.serves;
    forall u | u in s'.serves
      ensures ServeOk(s', u)
    {
      assert u in s.serves ==> ServeOk(s, u);
    }
  }

  lemma ServesCapture(s: State, order: seq<Sid>)
    requires Serves(s)
    ensures Serves(DoCapture(s, order))
  {
    var s' := DoCapture(s, order);
    forall u | u in s'.serves
      ensures ServeOk(s', u)
    {
      assert ServeOk(s, u);
    }
  }

  lemma ServesSame(s: State, s': State)
    requires Serves(s) && s'.serves == s.serves && s'.exits == s.exits && s'.once == s.once && s'.open <= s.open
    requires s'.reg.serving == s.reg.serving && s'.reg.loop == s.reg.loop && s'.reg.listener == s.reg.listener
    requires s'.reg.shutdown == s.reg.shutdown
    requires s'.doomed == s.doomed || (s'.doomed.None? && s.doomed.value !in s'.open)
    ensures Serves(s')
  {
    forall u | u in s'.serves
      ensures ServeOk(s', u)
    {
      assert ServeOk(s, u);
    }
  }

  lemma ServesStep(s: State, step: Step)
    requires Serves(s) && Ids(s) && Enabled(s, step)
    ensures Serves(Apply(s, step))
  {
    match step
    case OnServe(t, a) => ServesAct(s, t, a);
    case ServeStart => ServesStart(s);
    case ShutdownCapture(order) => ServesCapture(s, order);
    case OnSession(c, a) => ActEdits(s, c, a); ServesSame(s, Apply(s, step));
    case Accept(_) => ServesSame(s, DoAccept(s));
    case Register(c) => ServesSame(s, DoRegister(s, c));
    case Unregister(c) => ServesSame(s, DoUnregister(s, c));
    case _ => ServesRest(s, step);
  }

  lemma ServesRest(s: State, step: Step)
    requires Serves(s) && Enabled(s, step) && (step.KernelDrop? || step.CloseDoomed? || step.CaptureDrain?)
    ensures Serves(Apply(s, step))
  {
    ServesSame(s, Apply(s, step));
  }

  // --- The drain group -----------------------------------------------------

  lemma CountsLeave(s: State, c: Sid)
    requires Counts(s) && Enabled(s, OnSession(c, Act.Leave))
    ensures Counts(Apply(s, OnSession(c, Act.Leave)))
  {
    var s' := Apply(s, OnSession(c, Act.Leave));
    assert c in Handlers(s) && Handlers(s') == Handlers(s) - {c};
    assert Timers(s') == Timers(s);
  }

  lemma CountsArm(s: State, c: Sid)
    requires Counts(s) && Enabled(s, OnSession(c, Act.ArmTimer))
    ensures Counts(Apply(s, OnSession(c, Act.ArmTimer)))
  {
    var s' := Apply(s, OnSession(c, Act.ArmTimer));
    assert c !in Timers(s) && Timers(s') == Timers(s) + {c};
    assert Handlers(s') == Handlers(s);
  }

  lemma CountsTimer(s: State, c: Sid)
    requires Counts(s) && Enabled(s, OnSession(c, Act.TimerEnds))
    ensures Counts(Apply(s, OnSession(c, Act.TimerEnds)))
  {
    var s' := Apply(s, OnSession(c, Act.TimerEnds));
    assert c in Timers(s) && Timers(s') == Timers(s) - {c};
    assert Handlers(s') == Handlers(s);
  }

  lemma CountsQuiet(s: State, c: Sid, a: Act)
    requires Counts(s) && Enabled(s, OnSession(c, a)) && !a.Leave? && !a.ArmTimer? && !a.TimerEnds?
    ensures Counts(Apply(s, OnSession(c, a)))
  {
    ActEdits(s, c, a);
    QuietGroup(s, c, a);
    CountsSame(s, Apply(s, OnSession(c, a)));
  }

  lemma CountsAct(s: State, c: Sid, a: Act)
    requires Counts(s) && Enabled(s, OnSession(c, a))
    ensures Counts(Apply(s, OnSession(c, a)))
  {
    if a.Leave? { CountsLeave(s, c); }
    else if a.ArmTimer? { CountsArm(s, c); }
    else if a.TimerEnds? { CountsTimer(s, c); }
    else { CountsQuiet(s, c, a); }
  }

  lemma QuietGroup(s: State, c: Sid, a: Act)
    requires Enabled(s, OnSession(c, a)) && !a.Leave? && !a.ArmTimer? && !a.TimerEnds?
    ensures
      var s' := Apply(s, OnSession(c, a));
      && s'.wg == s.wg && s'.panicked == s.panicked && s'.sess[c].timer == s.sess[c].timer
      && s'.sess[c].pc.Left? == s.sess[c].pc.Left?
  {
  }

  lemma CountsAccept(s: State)
    requires Counts(s) && Ids(s)
    ensures Counts(DoAccept(s))
  {
    var s' := DoAccept(s);
    assert s.nextId !in s.sess;
    assert Handlers(s') == Handlers(s) + {s.nextId};
    assert Timers(s') == Timers(s);
  }

  lemma CountsSame(s: State, s': State)
    requires Counts(s) && s'.wg.count == s.wg.count && s'.panicked == s.panicked
    requires s'.sess.Keys == s.sess.Keys
    requires forall c :: c in s.sess ==>
      s'.sess[c].pc.Left? == s.sess[c].pc.Left? && s'.sess[c].timer == s.sess[c].timer
    ensures Counts(s')
  {
    assert Handlers(s') == Handlers(s);
    assert Timers(s') == Timers(s);
  }

  lemma CountsStep(s: State, step: Step)
    requires Counts(s) && Ids(s) && Enabled(s, step)
    ensures Counts(Apply(s, step))
  {
    match step
    case OnSession(c, a) => CountsAct(s, c, a);
    case Accept(_) => CountsAccept(s);
    case OnServe(t, a) => ServeGroup(s, t, a); CountsSame(s, DoServe(s, t, a));
    case _ => CountsRest(s, step);
  }

  lemma CountsRest(s: State, step: Step)
    requires Counts(s) && Enabled(s, step) && !step.OnSession? && !step.Accept? && !step.OnServe?
    ensures Counts(Apply(s, step))
  {
    CountsSame(s, Apply(s, step));
  }

  lemma ServeGroup(s: State, t: Tid, a: ServeAct)
    ensures
      var s' := DoServe(s, t, a);
      s'.sess == s.sess && s'.wg == s.wg && s'.panicked == s.panicked && s'.drain == s.drain
  {
  }

  /** Once Shutdown waited for the accept loop, nobody accepts. */
  lemma NobodyAccepts(s: State, t: Tid)
    requires Serves(s) && s.reg.shutdown && AcceptLoopDone(s) && t in s.serves
    ensures !s.serves[t].Accepting? && !s.serves[t].Reserved? && !s.serves[t].Made?
  {
    assert ServeOk(s, t);
    if s.reg.loop.Some? { assert ServeOk(s, s.reg.loop.value); }
  }

  lemma DrainsAct(s: State, c: Sid, a: Act)
    requires Counts(s) && Drains(s) && Enabled(s, OnSession(c, a))
    ensures Drains(Apply(s, OnSession(c, a)))
  {
    ActEdits(s, c, a);
    if a.Leave? || a.ArmTimer? { assert c in Handlers(s); }
    else if a.TimerEnds? { assert c in Timers(s); }
    else { QuietGroup(s, c, a); }
  }

  lemma DrainsServe(s: State, t: Tid, a: ServeAct)
    requires Drains(s) && t in s.serves && CanServe(s.serves[t], a)
    ensures Drains(DoServe(s, t, a))
  {
    ServeGroup(s, t, a);
  }

  lemma DrainsStep(s: State, step: Step)
    requires Counts(s) && Serves(s) && Drains(s) && Enabled(s, step)
    ensures Drains(Apply(s, step))
  {
    match step
    case OnSession(c, a) => DrainsAct(s, c, a);
    case OnServe(t, a) => DrainsServe(s, t, a);
    case Accept(t) => if s.drain.Some? { NobodyAccepts(s, t); assert false; }
    case _ =>
  }

  // --- Runs ----------------------------------------------------------------

  lemma InvStep(s: State, step: Step)
    requires Inv(s) && Enabled(s, step)
    ensures Inv(Apply(s, step))
  {
    SessionsStep(s, step);
    IdsStep(s, step);
    EntriesStep(s, step);
    ExportsStep(s, step);
    RetentionStep(s, step);
    ServesStep(s, step);
    CountsStep(s, step);
    DrainsStep(s, step);
  }

  lemma InvInit(s: State)
    requires Init(s)
    ensures Inv(s)
  {
    assert Handlers(s) == {} && Timers(s) == {};
  }

  lemma {:induction false} InvRun(s: State, steps: seq<Step>, after: State)
    requires Inv(s) && Run(s, steps, after)
    ensures Inv(after)
    decreases |steps|
  {
    if steps != [] {
      InvStep(s, steps[0]);
      InvRun(Apply(s, steps[0]), steps[1..], after);
    }
  }

  /** `s` is the state after some run from a new exporter. */
  ghost predicate Reachable(s: State) {
    exists i: State, steps: seq<Step> :: Init(i) && Run(i, steps, s)
  }

  /** The invariant holds of every reachable state. */
  lemma ReachableInv(s: State)
    requires Reachable(s)
    ensures Inv(s)
  {
    var i, steps :| Init(i) && Run(i, steps, s);
    InvInit(i);
    InvRun(i, steps, s);
  }
}
