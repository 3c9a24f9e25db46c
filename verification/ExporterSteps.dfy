/** Every step keeps every part of the exporter invariant. */
module ExporterSteps {
  import opened LifecycleGroup
  import opened ExporterRegistry
  import opened ExporterProtocol
  import opened ExporterInvariant
  import H = ExporterHandle

  // --- What an act may change ----------------------------------------------

  /** Only the record of `c`, the kernel, the sweep and the group change. */
  predicate Edits(s: State, s': State, c: Sid) {
    && c in s.sess && c in s'.sess && s'.sess == s.sess[c := s'.sess[c]]
    && s'.reg == s.reg && s'.cfg == s.cfg && s'.nextId == s.nextId && s'.serves == s.serves
    && s'.open == s.open && s'.doomed == s.doomed && s'.exits == s.exits && s'.once == s.once
    && s'.retired == s.retired && s'.drain == s.drain
  }

  lemma ActEdits(s: State, c: Sid, a: Act)
    requires Enabled(s, OnSession(c, a))
    ensures Edits(s, Apply(s, OnSession(c, a)), c)
    ensures Apply(s, OnSession(c, a)).sess[c] == DoAct(s.sess[c], a)
  {
    SideKeeps(s, c, s.sess[c], a);
  }

  /** Only the kernel, the sweep and the group change. */
  predicate OnlySides(s: State, s': State) {
    && s'.sess == s.sess && s'.reg == s.reg && s'.cfg == s.cfg && s'.nextId == s.nextId && s'.serves == s.serves
    && s'.open == s.open && s'.doomed == s.doomed && s'.exits == s.exits && s'.once == s.once
    && s'.retired == s.retired && s'.drain == s.drain
  }

  lemma SideKeeps(s: State, c: Sid, x: Sess, a: Act)
    ensures OnlySides(s, SideEffect(s, c, x, a))
  {
    match a
    case KernelExport(ok) => assert OnlySides(s, s.(exported := s.exported[x.entry.bus := c]));
    case OwnDisconnect(r) => DisconnectKeeps(s, x.entry.bus, r);
    case SweptDisconnect(r) => DisconnectKeeps(s, x.entry.bus, r);
    case ArmTimer => GroupKeeps(s);
    case TimerEnds => GroupKeeps(s);
    case Leave => GroupKeeps(s);
    case Signal => SignalKeeps(s, c, x);
    case CancelDone(mine) => CancelKeeps(s, c, x, mine);
    case _ => assert SideEffect(s, c, x, a) == s;
  }

  lemma DisconnectKeeps(s: State, bus: Bus, r: H.Cleanup)
    ensures OnlySides(s, Disconnect(s, bus, r))
  {
  }

  lemma GroupKeeps(s: State)
    ensures OnlySides(s, Join(s)) && OnlySides(s, Depart(s))
  {
  }

  lemma SignalKeeps(s: State, c: Sid, x: Sess)
    ensures OnlySides(s, SideEffect(s, c, x, Signal))
  {
  }

  lemma CancelKeeps(s: State, c: Sid, x: Sess, mine: bool)
    ensures OnlySides(s, SideEffect(s, c, x, CancelDone(mine)))
  {
  }

  /** No session record and no registered session changes. */
  ghost predicate Aside(s: State, s': State) {
    && s'.sess == s.sess && s'.cfg == s.cfg && s.nextId <= s'.nextId
    && s'.reg.sessions == s.reg.sessions && s'.reg.perPeer == s.reg.perPeer
    && (s.reg.shutdown ==> s'.reg.shutdown)
    && (forall b :: b in s'.exported ==> b in s.exported && s'.exported[b] == s.exported[b])
    && (forall t :: t in s'.serves ==> t in s.serves || t < s'.nextId)
  }

  lemma ServeAside(s: State, t: Tid, a: ServeAct)
    requires t in s.serves && CanServe(s.serves[t], a)
    ensures Aside(s, DoServe(s, t, a))
  {
    match a
    case Install => assert Aside(s, DoServe(s, t, Install));
    case Stop => assert Aside(s, DoServe(s, t, Stop));
    case SignalExit => assert Aside(s, DoServe(s, t, SignalExit));
    case DeferredSignal => assert Aside(s, DoServe(s, t, DeferredSignal));
    case _ =>
  }

  lemma StartAside(s: State)
    ensures Aside(s, DoServeStart(s))
  {
  }

  lemma StepAside(s: State, step: Step)
    requires Enabled(s, step)
    requires !step.OnSession? && !step.Register? && !step.Unregister? && !step.Accept?
    ensures Aside(s, Apply(s, step))
  {
    match step
    case OnServe(t, a) => ServeAside(s, t, a);
    case ServeStart => StartAside(s);
    case _ =>
  }

  lemma ActLife(x: Sess, a: Act)
    requires CanAct(x, a)
    ensures Live(DoAct(x, a).pc) == Live(x.pc)
    ensures !x.pc.Greeting? ==> DoAct(x, a).entry == x.entry
  {
  }

  lemma ActOwes(x: Sess, a: Act)
    requires CanAct(x, a) && !a.Signal? && (a.CancelDone? && a.mine ==> x.cleaner.Swept?)
    ensures CleanerOwes(DoAct(x, a)) ==> CleanerOwes(x)
    ensures !a.CancelDone? ==> DoAct(x, a).h.cancelled == x.h.cancelled && DoAct(x, a).h.done == x.h.done
    ensures !a.CancelDone? ==> DoAct(x, a).cleaner.Swept? == x.cleaner.Swept?
  {
  }

  lemma ActRegistered(x: Sess, a: Act, shutdown: bool)
    requires CanAct(x, a) && SessOk(x, shutdown) && VisitOk(x, a, shutdown)
    ensures EverRegistered(DoAct(x, a)) == EverRegistered(x)
  {
  }

  // --- Sessions ------------------------------------------------------------

  lemma VisitIsOk(s: State, c: Sid, a: Act)
    requires Retention(s) && Enabled(s, OnSession(c, a))
    ensures VisitOk(s.sess[c], a, s.reg.shutdown)
  {
    if a.Signal? || a.CancelDone? { assert SweptOk(s, s.sweep.index); }
  }

  lemma SessionsAct(s: State, c: Sid, a: Act)
    requires Sessions(s) && Retention(s) && Enabled(s, OnSession(c, a))
    ensures Sessions(Apply(s, OnSession(c, a)))
  {
    VisitIsOk(s, c, a);
    ActKeeps(s.sess[c], a, s.reg.shutdown);
    ActEdits(s, c, a);
  }

  lemma RegisterKeeps(x: Sess, shutdown: bool)
    requires SessOk(x, shutdown) && x.pc.Requested?
    ensures SessOk(x.(pc := Announced), shutdown) && SessOk(x.(pc := Leaving), shutdown)
  {
  }

  lemma UnregisterKeeps(x: Sess, shutdown: bool)
    requires SessOk(x, shutdown) && x.pc.Unregistering?
    ensures SessOk(x.(h := H.Cancel(x.h), pc := Leaving), shutdown)
  {
  }

  lemma SessionsStep(s: State, step: Step)
    requires Sessions(s) && Retention(s) && Enabled(s, step)
    ensures Sessions(Apply(s, step))
  {
    match step
    case OnSession(c, a) => SessionsAct(s, c, a);
    case Register(c) => SessionsRegister(s, c);
    case Unregister(c) => SessionsUnregister(s, c);
    case Accept(_) => SessionsAccept(s);
    case _ => StepAside(s, step); SessionsAside(s, Apply(s, step));
  }

  lemma SessionsRegister(s: State, c: Sid)
    requires Sessions(s) && Enabled(s, Register(c))
    ensures Sessions(DoRegister(s, c))
  {
    RegisterKeeps(s.sess[c], s.reg.shutdown);
  }

  lemma SessionsUnregister(s: State, c: Sid)
    requires Sessions(s) && Enabled(s, Unregister(c))
    ensures Sessions(DoUnregister(s, c))
  {
    UnregisterKeeps(s.sess[c], s.reg.shutdown);
  }

  lemma SessionsAside(s: State, s': State)
    requires Sessions(s) && Aside(s, s')
    ensures Sessions(s')
  {
  }

  lemma SessionsAccept(s: State)
    requires Sessions(s)
    ensures Sessions(DoAccept(s))
  {
  }

  // --- Registry ------------------------------------------------------------

  lemma IdsStep(s: State, step: Step)
    requires Ids(s) && Enabled(s, step)
    ensures Ids(Apply(s, step))
  {
    match step
    case OnSession(c, a) => ActEdits(s, c, a);
    case Register(c) =>
    case Unregister(c) =>
    case Accept(_) =>
    case _ => StepAside(s, step);
  }

  lemma SameAccounts(r: Registry, r': Registry, cfg: Limits)
    requires Accounts(r, cfg) && r'.sessions == r.sessions && r'.perPeer == r.perPeer
    ensures Accounts(r', cfg)
  {
    forall p
      ensures CountedFor(r', p)
    {
      assert CountedFor(r, p);
    }
  }

  lemma EntriesSame(s: State, s': State)
    requires Entries(s) && s'.sess == s.sess && s'.cfg == s.cfg
    requires s'.reg.sessions == s.reg.sessions && s'.reg.perPeer == s.reg.perPeer
    ensures Entries(s')
  {
    forall d | d in s'.sess
      ensures EntryOk(s', d)
    {
      assert EntryOk(s, d);
    }
    SameAccounts(s.reg, s'.reg, s.cfg);
  }

  lemma EntriesAct(s: State, c: Sid, a: Act)
    requires Entries(s) && Enabled(s, OnSession(c, a))
    ensures Entries(Apply(s, OnSession(c, a)))
  {
    var s' := Apply(s, OnSession(c, a));
    ActEdits(s, c, a);
    ActLife(s.sess[c], a);
    forall d | d in s'.sess
      ensures EntryOk(s', d)
    {
      assert EntryOk(s, d);
    }
  }

  lemma EntriesRegister(s: State, c: Sid)
    requires Entries(s) && Enabled(s, Register(c))
    ensures Entries(DoRegister(s, c))
  {
    var s' := DoRegister(s, c);
    assert EntryOk(s, c);
    RegisterAccounts(s.reg, s.cfg, c, s.sess[c].entry);
    forall d | d in s'.sess
      ensures EntryOk(s', d)
    {
      assert EntryOk(s, d);
    }
  }

  lemma EntriesUnregister(s: State, c: Sid)
    requires Entries(s) && Enabled(s, Unregister(c))
    ensures Entries(DoUnregister(s, c))
  {
    var s' := DoUnregister(s, c);
    assert EntryOk(s, c);
    UnregisterAccounts(s.reg, s.cfg, c);
    forall d | d in s'.sess
      ensures EntryOk(s', d)
    {
      assert EntryOk(s, d);
    }
  }

  lemma EntriesAccept(s: State)
    requires Entries(s) && Ids(s)
    ensures Entries(DoAccept(s))
  {
    var s' := DoAccept(s);
    assert s.nextId !in s.sess;
    forall d | d in s'.sess
      ensures EntryOk(s', d)
    {
      assert d in s.sess ==> EntryOk(s, d);
    }
    SameAccounts(s.reg, s'.reg, s.cfg);
  }

  lemma EntriesStep(s: State, step: Step)
    requires Entries(s) && Ids(s) && Enabled(s, step)
    ensures Entries(Apply(s, step))
  {
    match step
    case OnSession(c, a) => EntriesAct(s, c, a);
    case Register(c) => EntriesRegister(s, c);
    case Unregister(c) => EntriesUnregister(s, c);
    case Accept(_) => EntriesAccept(s);
    case _ => StepAside(s, step); EntriesSame(s, Apply(s, step));
  }

  // --- Kernel exports ------------------------------------------------------

  lemma LiveDevicesDiffer(s: State, c: Sid, d: Sid)
    requires Entries(s) && c in s.sess && d in s.sess && c != d && Live(s.sess[c].pc) && Live(s.sess[d].pc)
    ensures s.sess[c].entry.bus != s.sess[d].entry.bus
  {
    assert EntryOk(s, c) && EntryOk(s, d);
  }

  /** Who guards a device after an act guarded it before, unless the act is
      the kernel's acceptance. */
  lemma ActGuards(x: Sess, a: Act, shutdown: bool)
    requires SessOk(x, shutdown) && CanAct(x, a) && VisitOk(x, a, shutdown) && a != KernelExport(true)
    ensures Guards(DoAct(x, a)) ==> Guards(x)
    ensures CleanerOwes(DoAct(x, a)) ==> CleanerOwes(x) || (a.Signal? && Live(x.pc))
    ensures Live(x.pc) || CleanerOwes(x) ==> DoAct(x, a).entry == x.entry
  {
  }

  lemma DevicesApart(s: State, c: Sid, a: Act, d: Sid, e: Sid)
    requires Entries(s) && Enabled(s, OnSession(c, a)) && SessOk(s.sess[c], s.reg.shutdown)
    requires VisitOk(s.sess[c], a, s.reg.shutdown) && a != KernelExport(true)
    requires d in s.sess && e in s.sess && ApartOk(s, d, e)
    ensures ApartOk(Apply(s, OnSession(c, a)), d, e)
  {
    ActEdits(s, c, a);
    ActLife(s.sess[c], a);
    ActGuards(s.sess[c], a, s.reg.shutdown);
    if d == c && e != c && Live(s.sess[c].pc) && Live(s.sess[e].pc) { LiveDevicesDiffer(s, c, e); }
  }

  lemma DeviceGuarded(s: State, c: Sid, a: Act, d: Sid)
    requires Enabled(s, OnSession(c, a)) && SessOk(s.sess[c], s.reg.shutdown)
    requires VisitOk(s.sess[c], a, s.reg.shutdown) && a != KernelExport(true)
    requires d in s.sess && GuardOk(s, d)
    ensures GuardOk(Apply(s, OnSession(c, a)), d)
  {
    ActEdits(s, c, a);
    ActGuards(s.sess[c], a, s.reg.shutdown);
  }

  lemma ExportsAct(s: State, c: Sid, a: Act)
    requires Sessions(s) && Entries(s) && Exports(s) && Retention(s) && Enabled(s, OnSession(c, a))
    requires a != KernelExport(true)
    ensures Exports(Apply(s, OnSession(c, a)))
  {
    VisitIsOk(s, c, a);
    ActEdits(s, c, a);
    ExportsActed(s, c, a, Apply(s, OnSession(c, a)));
  }

  lemma ExportsActed(s: State, c: Sid, a: Act, s': State)
    requires Entries(s) && Exports(s) && Enabled(s, OnSession(c, a)) && SessOk(s.sess[c], s.reg.shutdown)
    requires VisitOk(s.sess[c], a, s.reg.shutdown) && a != KernelExport(true)
    requires s' == Apply(s, OnSession(c, a)) && s'.sess.Keys == s.sess.Keys
    ensures Exports(s')
  {
    forall d | d in s'.sess
      ensures GuardOk(s', d)
    {
      DeviceGuarded(s, c, a, d);
    }
    forall d, e | d in s'.sess && e in s'.sess
      ensures ApartOk(s', d, e)
    {
      DevicesApart(s, c, a, d, e);
    }
  }

  lemma ExportsAccepted(s: State, c: Sid)
    requires Sessions(s) && Entries(s) && Exports(s) && Enabled(s, OnSession(c, KernelExport(true)))
    ensures Exports(Apply(s, OnSession(c, KernelExport(true))))
  {
    var s' := Apply(s, OnSession(c, KernelExport(true)));
    ActEdits(s, c, KernelExport(true));
    forall d | d in s'.sess
      ensures GuardOk(s', d)
    {
      assert GuardOk(s, d) && ApartOk(s, d, c);
      if d != c && Live(s.sess[d].pc) { LiveDevicesDiffer(s, d, c); }
    }
    forall d, e | d in s'.sess && e in s'.sess
      ensures ApartOk(s', d, e)
    {
      assert ApartOk(s, d, e);
    }
  }

  lemma ExportsLess(s: State, s': State)
    requires Exports(s) && s'.sess == s.sess
    requires forall b :: b in s'.exported ==> b in s.exported && s'.exported[b] == s.exported[b]
    ensures Exports(s')
  {
  }

  lemma ExportsAccept(s: State)
    requires Exports(s) && Ids(s)
    ensures Exports(DoAccept(s))
  {
    assert s.nextId !in s.sess;
  }

  lemma ExportsRegister(s: State, c: Sid)
    requires Sessions(s) && Exports(s) && Enabled(s, Register(c))
    ensures Exports(DoRegister(s, c))
  {
    var s' := DoRegister(s, c);
    assert SessOk(s.sess[c], s.reg.shutdown);
    forall d, e | d in s'.sess && e in s'.sess
      ensures ApartOk(s', d, e)
    {
      assert SessOk(s.sess[d], s.reg.shutdown) && ApartOk(s, d, e);
    }
  }

  lemma ExportsUnregister(s: State, c: Sid)
    requires Sessions(s) && Exports(s) && Enabled(s, Unregister(c))
    ensures Exports(DoUnregister(s, c))
  {
  }

  lemma ExportsStep(s: State, step: Step)
    requires Sessions(s) && Ids(s) && Entries(s) && Exports(s) && Retention(s) && Enabled(s, step)
    ensures Exports(Apply(s, step))
  {
    match step
    case OnSession(c, a) => if a == KernelExport(true) { ExportsAccepted(s, c); } else { ExportsAct(s, c, a); }
    case Register(c) => ExportsRegister(s, c);
    case Unregister(c) => ExportsUnregister(s, c);
    case Accept(_) => ExportsAccept(s);
    case _ => StepAside(s, step); ExportsLess(s, Apply(s, step));
  }
}
