/** registerHandle publishing a handle, with or without compensation. */
module ImporterPublishStep {
  import opened Base
  import opened LifecycleGroup
  import opened ImporterCore
  import opened ImporterProtocol
  import opened ImporterInvariant
  import opened ImporterFrame
  import opened ImporterDataSteps
  import opened ImporterClaimSteps

  /** The state after an older handle of the port was cancelled. */
  function Superseding(s: State, p: Port): State {
    if p in s.core.handles then s.(core := CancelHandle(s.core, s.core.handles[p])) else s
  }

  /** `t` replaces its reservation of `p` by generation `g`; when teardown was
      requested, a fresh owner thread holds a fresh attempt on it. */
  predicate Publishes(s: State, s': State, t: Tid, p: Port, g: Gen) {
    var r := s.core.reservationTable;
    var x := s.core.nextAttempt;
    && AttachAt(s, t) && s.threads[t].apc == Handing(p, HandedOff) && t in r
    && !s.core.closed && g == s.core.nextGen + 1
    && s'.base == s.base && s'.live == s.live && s'.leaked == s.leaked && !s'.core.closed
    && s'.core.untracked == s.core.untracked && s'.core.nextGen == g
    && s'.core.handles == s.core.handles[p := g]
    && s'.core.reservations == s.core.reservations - {p}
    && (if r[t].teardown then
          && s'.core.handleTable == s.core.handleTable[g := Handle(p, t, true, false, Some(x), NoWatcher)]
          && s'.core.reservationTable == r[t := r[t].(fate := Published(g), attempt := Some(x))]
          && s'.core.attemptTable == s.core.attemptTable[x := Attempt(OnHandle(g), s.nextTid, None)]
          && s'.core.nextAttempt == x + 1 && s'.nextTid == s.nextTid + 1
          && s'.threads ==
             s.threads[t := s.threads[t].(apc := Publishing(p, g, Some(s.nextTid), true))]
                      [s.nextTid := DetachT(p, true, None, Owner(g, x, Unstarted))]
        else
          && s'.core.handleTable == s.core.handleTable[g :=
               Handle(p, t, false, false, None, if s.threads[t].auto then Promised else NoWatcher)]
          && s'.core.reservationTable == r[t := r[t].(fate := Published(g), attempt := None)]
          && s'.core.attemptTable == s.core.attemptTable && s'.core.nextAttempt == x
          && s'.nextTid == s.nextTid
          && s'.threads == s.threads[t := s.threads[t].(apc := Publishing(p, g, None, true))])
  }

  lemma PublishTables(s: State, s': State, t: Tid, p: Port, g: Gen)
    requires FreshOk(s) && Links(s) && Publishes(s, s', t, p, g)
    ensures HandleFrame(s, s', {t}) && AttemptFrame(s, s', {t}) && Links(s') && g !in s.core.handleTable
  {
    assert g !in s.core.handleTable && s.core.nextAttempt !in s.core.attemptTable;
  }

  lemma PublishRest(s: State, s': State, t: Tid, p: Port, g: Gen)
    requires FreshOk(s) && Publishes(s, s', t, p, g) && AttachOk(s, t)
    ensures ThreadFrame(s, s', {t}) && ReservationFrame(s, s', {t}) && FreshOk(s')
  {
    assert s.nextTid !in s.threads;
    PublishFresh(s, s', t, p, g);
  }

  lemma PublishFresh(s: State, s': State, t: Tid, p: Port, g: Gen)
    requires FreshOk(s) && Publishes(s, s', t, p, g)
    ensures FreshOk(s')
  {
  }

  lemma PublishThread(s: State, s': State, t: Tid, p: Port, g: Gen)
    requires FreshOk(s) && Publishes(s, s', t, p, g) && AttachOk(s, t)
    ensures ThreadOk(s', t) && NewHandles(s, s') && ReservationOk(s', t)
    ensures WatchedWithin(s, t, s'.threads[t], {t})
  {
    assert s.nextTid !in s.threads;
    if s.threads[t].parent.Some? { assert s.threads[t].parent.value in s.threads; }
  }

  lemma PublishOwner(s: State, s': State, t: Tid, p: Port, g: Gen)
    requires FreshOk(s) && Publishes(s, s', t, p, g) && AttachOk(s, t)
    ensures NewThreads(s, s')
  {
    assert s.nextTid !in s.threads;
  }

  lemma PublishAttempts(s: State, s': State, t: Tid, p: Port, g: Gen)
    requires FreshOk(s) && Objects(s) && Publishes(s, s', t, p, g)
    ensures OwnAttempts(s, s', t)
  {
    assert s.nextTid !in s.threads && s.core.nextAttempt !in s.core.attemptTable && g !in s.core.handleTable;
    forall x | x in s'.core.attemptTable && (x !in s.core.attemptTable || s.core.attemptTable[x].owner == t)
      ensures AttemptOk(s', x)
    {
      assert x in s.core.attemptTable ==> AttemptOk(s, x);
    }
  }

  /** The replaced handle is dead, and no checked claim relies on it: such a
      claim is clear, which a reservation still able to go live excludes. */
  lemma SupersededMayDrop(s: State, s': State, t: Tid, p: Port, g: Gen)
    requires Structure(s) && Publishes(s, s', t, p, g) && p in s.core.handles
    ensures MayDrop(s, s', {t}, p)
  {
    var g0 := s.core.handles[p];
    assert CurrentOk(s, p) && HandleOk(s, g0) && ThreadOk(s, t);
    var h := s.core.handleTable[g0];
    if Protected(s, {t}, g0) {
      ProtectedIsClear(s, t, g0, p);
      assert false;
    }
  }

  /** A protected claim excludes an open handoff on its port. */
  lemma ProtectedIsClear(s: State, t: Tid, g0: Gen, p: Port)
    requires Structure(s) && g0 in s.core.handleTable && s.core.handleTable[g0].port == p && Protected(s, {t}, g0)
    requires IsCurrent(s.core, p, g0)
    ensures Clear(s, p, g0)
  {
    assert LinkOk(s, g0);
    var u := s.core.attemptTable[s.core.handleTable[g0].attempt.value].owner;
    assert ThreadOk(s, u);
  }

  lemma PublishPorts(s: State, s': State, t: Tid, p: Port, g: Gen)
    requires FreshOk(s) && Ports(s) && Publishes(s, s', t, p, g) && AttachOk(s, t)
    requires p in s.core.handles ==> MayDrop(s, s', {t}, p)
    ensures PortFrame(s, s', {t})
  {
    assert g !in s.core.handleTable && s.core.nextAttempt !in s.core.attemptTable;
    forall q | q in s'.core.untracked
      ensures UntrackedOk(s', q)
    {
      assert UntrackedOk(s, q);
    }
  }

  lemma PublishAnswers(s: State, s': State, t: Tid, p: Port, g: Gen)
    requires FreshOk(s) && Ports(s) && Publishes(s, s', t, p, g)
    ensures Answers(s', t)
  {
    forall q | q in s'.core.reservations
      ensures s'.core.reservations[q] != t
    {
      assert ReservedOk(s, q);
    }
    forall q | q in s'.live && s'.live[q] == t
      ensures LiveOk(s', q)
    {
      assert LiveOk(s, q);
    }
  }

  lemma PublishClear(s: State, s': State, t: Tid, p: Port, g: Gen)
    requires FreshOk(s) && Ports(s) && Publishes(s, s', t, p, g)
    ensures ClearFrame(s, s')
  {
    forall q | q in s.core.handles
      ensures ClearKept(s, s', q)
    {
      assert CurrentOk(s, q);
      assert q in s.core.reservations ==> ReservedOk(s, q);
    }
  }

  lemma PublishKeeps(s: State, s': State, t: Tid, p: Port, g: Gen)
    requires Structure(s) && Publishes(s, s', t, p, g)
    ensures Structure(s')
  {
    assert ThreadOk(s, t);
    if p in s.core.handles { SupersededMayDrop(s, s', t, p, g); }
    PublishTables(s, s', t, p, g);
    PublishRest(s, s', t, p, g);
    PublishThread(s, s', t, p, g);
    PublishOwner(s, s', t, p, g);
    PublishAttempts(s, s', t, p, g);
    PublishPorts(s, s', t, p, g);
    PublishAnswers(s, s', t, p, g);
    PublishClear(s, s', t, p, g);
    TouchKeeps(s, s', t);
  }

  lemma RegisterPlain(s: State, t: Tid)
    requires CanAttachRegister(s, t) && AttachOk(s, t) && !s.core.closed
    requires !s.core.reservationTable[t].teardown
    ensures
      var p := s.threads[t].apc.port;
      Publishes(Superseding(s, p), DoAttachRegister(s, t), t, p, s.core.nextGen + 1)
  {
  }

  lemma RegisterCompensates(s: State, t: Tid)
    requires FreshOk(s) && CanAttachRegister(s, t) && AttachOk(s, t) && !s.core.closed
    requires s.core.reservationTable[t].teardown
    ensures
      var p := s.threads[t].apc.port;
      Publishes(Superseding(s, p), DoAttachRegister(s, t), t, p, s.core.nextGen + 1)
  {
    var p, g := s.threads[t].apc.port, s.core.nextGen + 1;
    var (c, r) := RegisterHandle(s.core, p, t, s.threads[t].auto, s.nextTid);
    TeardownRegisters(s.core, p, t, s.threads[t].auto, s.nextTid);
    var s1 := SetA(s.(core := c), t, Publishing(p, g, Some(s.nextTid), true));
    assert Clear(s1, p, g);
  }

  /** The rows RegisterHandle writes when teardown was requested. */
  lemma TeardownRegisters(c: Core, p: Port, op: Tid, auto: bool, u: Tid)
    requires p in c.reservations && c.reservations[p] == op && op in c.reservationTable && !c.closed
    requires c.reservationTable[op].teardown
    ensures
      var (c', r) := RegisterHandle(c, p, op, auto, u);
      var c1 := if p in c.handles then CancelHandle(c, c.handles[p]) else c;
      var g, x := c.nextGen + 1, c.nextAttempt;
      && r == Registered(g, Some(x))
      && c'.handleTable == c1.handleTable[g := Handle(p, op, true, false, Some(x), NoWatcher)]
      && c'.handles == c.handles[p := g] && c'.reservations == c.reservations - {p}
      && c'.reservationTable ==
         c.reservationTable[op := c.reservationTable[op].(fate := Fate.Published(g), attempt := Some(x))]
      && c'.attemptTable == c.attemptTable[x := Attempt(OnHandle(g), u, None)]
      && c'.nextAttempt == x + 1 && c'.nextGen == g && c'.untracked == c.untracked && !c'.closed
  {
  }

  lemma RegisterPublishes(s: State, t: Tid)
    requires FreshOk(s) && CanAttachRegister(s, t) && AttachOk(s, t) && !s.core.closed
    ensures
      var p := s.threads[t].apc.port;
      Publishes(Superseding(s, p), DoAttachRegister(s, t), t, p, s.core.nextGen + 1)
  {
    if s.core.reservationTable[t].teardown {
      RegisterCompensates(s, t);
    } else {
      RegisterPlain(s, t);
    }
  }

  lemma KeepAttachRegister(s: State, t: Tid)
    requires Structure(s) && CanAttachRegister(s, t)
    ensures Structure(DoAttachRegister(s, t))
  {
    if s.core.closed {
      KeepRegisterClosed(s, t);
    } else {
      assert ThreadOk(s, t);
      var p := s.threads[t].apc.port;
      if p in s.core.handles { CancelKeeps(s, s.core.handles[p]); }
      RegisterPublishes(s, t);
      PublishKeeps(Superseding(s, p), DoAttachRegister(s, t), t, p, s.core.nextGen + 1);
    }
  }
}
