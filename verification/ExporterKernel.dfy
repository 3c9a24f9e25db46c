/**
 * What is left in the kernel. A handler's observation that the peer is gone is
 * only advisory; in runs where it is true whenever it is made, no export
 * outlives its session unless its Disconnect failed and reported so.
 */
module ExporterKernel {
  import opened Base
  import opened LifecycleGroup
  import opened ExporterRegistry
  import opened ExporterProtocol
  import opened ExporterInvariant
  import opened ExporterSteps
  import opened ExporterShutdownSteps
  import H = ExporterHandle

  predicate Carries(s: State, c: Sid) {
    && c in s.sess
    && (s.sess[c].entry.bus in s.exported && s.exported[s.sess[c].entry.bus] == c)
  }

  /** The handler believes the peer is gone only when it is. */
  predicate Truthful(s: State, step: Step) {
    step.OnSession? && step.act.SeeGone? && step.c in s.sess ==> !Carries(s, step.c)
  }

  ghost predicate TruthfulRun(s: State, steps: seq<Step>, after: State)
    decreases |steps|
  {
    if steps == [] then after == s
    else Enabled(s, steps[0]) && Truthful(s, steps[0]) && TruthfulRun(Apply(s, steps[0]), steps[1..], after)
  }

  /** The export is known to be over. */
  predicate Over(x: Sess) {
    || x.observed
    || x.pc == Reported(H.Clean) || x.cleaner == CleanerReported(H.Clean)
    || (x.issued == 1 && x.h.cleanup == Some(H.Clean))
  }

  predicate HandedOver(x: Sess) { x.h.phase.Succeeded? || x.pc == InKernel(Some(true)) }

  ghost predicate KernelOk(s: State) {
    && (forall c :: c in s.sess && Over(s.sess[c]) ==> !Carries(s, c))
    && (forall b :: b in s.exported ==>
          s.exported[b] in s.sess && s.sess[s.exported[b]].entry.bus == b && HandedOver(s.sess[s.exported[b]]))
  }

  lemma ActOver(x: Sess, a: Act, shutdown: bool)
    requires SessOk(x, shutdown) && CanAct(x, a) && VisitOk(x, a, shutdown)
    ensures Over(DoAct(x, a)) ==> Over(x) || a.SeeGone? || a == OwnDisconnect(H.Clean) || a == SweptDisconnect(H.Clean)
    ensures HandedOver(x) ==> HandedOver(DoAct(x, a)) && DoAct(x, a).entry == x.entry
    ensures a == KernelExport(true) ==> !Over(DoAct(x, a)) && HandedOver(DoAct(x, a)) && DoAct(x, a).entry == x.entry
    ensures Over(x) ==> DoAct(x, a).entry == x.entry
  {
  }

  /** What the act leaves in the kernel. */
  lemma ActKernel(s: State, c: Sid, a: Act)
    requires Enabled(s, OnSession(c, a))
    ensures
      var bus := s.sess[c].entry.bus;
      Apply(s, OnSession(c, a)).exported ==
      if a == KernelExport(true) then s.exported[bus := c]
      else if a == OwnDisconnect(H.Clean) || a == SweptDisconnect(H.Clean) then s.exported - {bus}
      else s.exported
  {
  }

  lemma KernelAct(s: State, c: Sid, a: Act)
    requires Sessions(s) && Retention(s) && KernelOk(s) && Enabled(s, OnSession(c, a)) && Truthful(s, OnSession(c, a))
    ensures KernelOk(Apply(s, OnSession(c, a)))
  {
    VisitIsOk(s, c, a);
    ActEdits(s, c, a);
    ActOver(s.sess[c], a, s.reg.shutdown);
    ActKernel(s, c, a);
    ActKernelOk(s, Apply(s, OnSession(c, a)), c, a);
  }

  lemma ActKernelOk(s: State, s': State, c: Sid, a: Act)
    requires KernelOk(s) && Edits(s, s', c) && Truthful(s, OnSession(c, a))
    requires
      var x, y, bus := s.sess[c], s'.sess[c], s.sess[c].entry.bus;
      && (Over(y) ==> Over(x) || a.SeeGone? || a == OwnDisconnect(H.Clean) || a == SweptDisconnect(H.Clean))
      && (HandedOver(x) ==> HandedOver(y) && y.entry == x.entry)
      && (a == KernelExport(true) ==> !Over(y) && HandedOver(y) && y.entry == x.entry && bus !in s.exported)
      && s'.exported == (if a == KernelExport(true) then s.exported[bus := c]
                         else if a == OwnDisconnect(H.Clean) || a == SweptDisconnect(H.Clean) then s.exported - {bus}
                         else s.exported)
    ensures KernelOk(s')
  {
    var b := s'.sess[c].entry.bus;
    assert b in s.exported && s.exported[b] == c ==> s.sess[c].entry.bus == b;
  }

  lemma KernelStep(s: State, step: Step)
    requires Inv(s) && KernelOk(s) && Enabled(s, step) && Truthful(s, step)
    ensures KernelOk(Apply(s, step))
  {
    match step
    case OnSession(c, a) => KernelAct(s, c, a);
    case Register(c) => KernelRegister(s, c);
    case Unregister(c) => KernelUnregister(s, c);
    case Accept(_) => KernelAccept(s);
    case _ => StepAside(s, step); KernelAside(s, Apply(s, step));
  }

  lemma KernelRegister(s: State, c: Sid)
    requires Sessions(s) && KernelOk(s) && Enabled(s, Register(c))
    ensures KernelOk(DoRegister(s, c))
  {
    assert SessOk(s.sess[c], s.reg.shutdown);
  }

  lemma KernelUnregister(s: State, c: Sid)
    requires KernelOk(s) && Enabled(s, Unregister(c))
    ensures KernelOk(DoUnregister(s, c))
  {
  }

  lemma KernelAccept(s: State)
    requires Ids(s) && KernelOk(s)
    ensures KernelOk(DoAccept(s))
  {
    assert s.nextId !in s.sess;
  }

  lemma KernelAside(s: State, s': State)
    requires KernelOk(s) && Aside(s, s')
    ensures KernelOk(s')
  {
  }

  lemma {:induction false} KernelRun(s: State, steps: seq<Step>, after: State)
    requires Inv(s) && KernelOk(s) && TruthfulRun(s, steps, after)
    ensures Inv(after) && KernelOk(after)
    decreases |steps|
  {
    if steps != [] {
      KernelStep(s, steps[0]);
      InvStep(s, steps[0]);
      KernelRun(Apply(s, steps[0]), steps[1..], after);
    }
  }

  lemma OverOrFailed(x: Sess, shutdown: bool)
    requires SessOk(x, shutdown) && x.pc.Left? && HandedOver(x) && !CleanerOwes(x)
    ensures Over(x) || x.h.cleanup == Some(H.DisconnectError)
  {
    assert x.h.cleanup.Some? ==> x.h.cleanup.value.Clean? || x.h.cleanup.value.DisconnectError?;
  }

  /** No export outlives its session: when the handler has left and no
      cleanup goroutine is pending, the kernel carries the session's socket
      only if the Disconnect failed and its future says so. */
  lemma NoExportOutlivesItsSession(i: State, steps: seq<Step>, s: State, c: Sid)
    requires Init(i) && TruthfulRun(i, steps, s)
    requires c in s.sess && s.sess[c].pc.Left? && !CleanerOwes(s.sess[c]) && Carries(s, c)
    ensures s.sess[c].h.cleanup == Some(H.DisconnectError)
  {
    InvInit(i);
    KernelRun(i, steps, s);
    OverOrFailed(s.sess[c], s.reg.shutdown);
  }
}
