/**
 * The Importer object of internal/app/importer.go: each method is one critical
 * section of Importer.mu performed on mutable fields. Its contract ties the new
 * fields to the transition the protocol model takes, so everything proved about
 * runs of the model speaks about these bodies.
 */
module ImporterObject {
  import opened Base
  import opened LifecycleGroup
  import opened ImporterCore

  /** The next generation becomes the handle of `p`; its predecessor is cancelled. */
  function Installed(c: Core, p: Port, op: Tid, watched: bool): Core {
    var c1 := if p in c.handles then CancelHandle(c, c.handles[p]) else c;
    var h := Handle(p, op, false, false, None, if watched then Promised else NoWatcher);
    c1.(nextGen := c.nextGen + 1, handles := c.handles[p := c.nextGen + 1],
        handleTable := c1.handleTable[c.nextGen + 1 := h])
  }

  /** registerHandle is installation, then the compensating claim if teardown
      was requested, then dropping the reservation. */
  lemma RegisterByParts(c: Core, p: Port, op: Tid, auto: bool, u: Tid)
    requires p in c.reservations && c.reservations[p] == op && op in c.reservationTable && !c.closed
    ensures
      var v := c.reservationTable[op];
      var g := c.nextGen + 1;
      var c1 := Installed(c, p, op, auto && !v.teardown);
      var c2 := if v.teardown then ClaimHandle(c1, g, u).0 else c1;
      var x := if v.teardown then Some(c.nextAttempt) else None;
      RegisterHandle(c, p, op, auto, u) ==
      (c2.(reservations := c.reservations - {p},
           reservationTable := c.reservationTable[op := v.(fate := Published(g), attempt := x)]),
       Registered(g, x))
  {
    if c.reservationTable[op].teardown { CompensatedRow(c, p, op, auto); }
  }

  lemma CompensatedRow(c: Core, p: Port, op: Tid, auto: bool)
    ensures
      var g := c.nextGen + 1;
      var c1 := Installed(c, p, op, false);
      var before := if p in c.handles then CancelHandle(c, c.handles[p]) else c;
      var h := Handle(p, op, true, false, Some(c.nextAttempt), NoWatcher);
      c1.handleTable[g := h] == before.handleTable[g := h]
  {
  }

  class Importer {
    var closed: bool
    var handles: map<Port, Gen>
    var reservations: map<Port, Tid>
    var untracked: map<Port, AttemptId>
    var inFlight: set<Key>
    var nextGen: Gen
    var handleTable: map<Gen, Handle>
    var reservationTable: map<Tid, Reservation>
    var attemptTable: map<AttemptId, Attempt>
    var nextAttempt: AttemptId
    var panicked: bool
    const wg: LifecycleWaitGroup

    ghost predicate Ready()
      reads this, wg
    {
      Valid(wg.State())
    }

    ghost function View(): Core
      reads this, wg
      requires Ready()
    {
      Core(closed, handles, reservations, untracked, inFlight, nextGen,
           handleTable, reservationTable, attemptTable, nextAttempt, wg.State(), panicked)
    }

    constructor ()
      ensures Ready() && fresh(wg) && View() == NEW_IMPORTER
    {
      closed, handles, reservations, untracked, inFlight := false, map[], map[], map[], {};
      nextGen, handleTable, reservationTable, attemptTable := 0, map[], map[], map[];
      nextAttempt, panicked := 0, false;
      wg := new LifecycleWaitGroup();
    }

    method Enrolled()
      requires Ready()
      modifies wg
      ensures Ready() && View() == WgAdd(old(View()))
    {
      var _ := wg.Add(1);
    }

    method Done()
      requires Ready()
      modifies this`panicked, wg
      ensures Ready() && View() == WgDone(old(View()))
    {
      var negative := wg.Add(-1);
      if negative { panicked := true; }
    }

    method TakeAttachSlot(key: Key) returns (r: SlotResult)
      requires Ready()
      modifies this, wg
      ensures Ready() && (View(), r) == AcquireAttachSlot(old(View()), key)
    {
      if closed { return SlotClosed; }
      if key in inFlight { return SlotBusy; }
      inFlight := inFlight + {key};
      Enrolled();
      return SlotGranted;
    }

    method FreeAttachSlot(key: Key)
      requires Ready()
      modifies this
      ensures Ready() && View() == ReleaseAttachSlot(old(View()), key)
    {
      inFlight := inFlight - {key};
    }

    method ReservePort(p: Port, op: Tid) returns (granted: bool)
      requires Ready()
      modifies this
      ensures Ready() && (View(), granted) == ReserveAttachPort(old(View()), p, op)
    {
      if closed { return false; }
      if p in reservations { return false; }
      if p in untracked { return false; }
      if p in handles && handles[p] in handleTable && handleTable[handles[p]].detaching { return false; }
      reservations := reservations[p := op];
      reservationTable := reservationTable[op := Reservation(p, false, None, false, Pending)];
      return true;
    }

    method AbortReservation(p: Port, op: Tid)
      requires Ready()
      modifies this
      ensures Ready() && View() == AbortAttachReservation(old(View()), p, op)
    {
      if p in reservations && reservations[p] == op && op in reservationTable {
        reservations := reservations - {p};
        reservationTable := reservationTable[op := reservationTable[op].(fate := Aborted)];
      }
    }

    method FinishReservation(op: Tid)
      requires Ready()
      modifies this
      ensures Ready() && View() == CompleteReservation(old(View()), op)
    {
      if op in reservationTable {
        reservationTable := reservationTable[op := reservationTable[op].(done := true)];
      }
    }

    method CancelOne(g: Gen)
      requires Ready()
      modifies this`handleTable
      ensures Ready() && View() == CancelHandle(old(View()), g)
    {
      if g in handleTable { handleTable := handleTable[g := handleTable[g].(cancelled := true)]; }
    }

    method Register(p: Port, op: Tid, auto: bool, compensator: Tid) returns (r: RegisterResult)
      requires Ready()
      modifies this, wg
      ensures Ready() && (View(), r) == RegisterHandle(old(View()), p, op, auto, compensator)
    {
      if !(p in reservations && reservations[p] == op && op in reservationTable) { return ReservationLost; }
      if closed {
        reservations := reservations - {p};
        reservationTable := reservationTable[op := reservationTable[op].(fate := LostToClose)];
        return RegisterClosed;
      }
      r := Publish(p, op, auto, compensator);
    }

    method Publish(p: Port, op: Tid, auto: bool, compensator: Tid) returns (r: RegisterResult)
      requires Ready() && p in reservations && reservations[p] == op && op in reservationTable && !closed
      modifies this, wg
      ensures Ready() && (View(), r) == RegisterHandle(old(View()), p, op, auto, compensator)
    {
      var mark := reservationTable[op];
      RegisterByParts(View(), p, op, auto, compensator);
      var g := NewHandle(p, op, auto && !mark.teardown);
      var attempt := None;
      if mark.teardown {
        attempt := Some(nextAttempt);
        var _ := Claim(g, compensator);
      }
      reservations := reservations - {p};
      reservationTable := reservationTable[op := mark.(fate := Published(g), attempt := attempt)];
      return Registered(g, attempt);
    }

    /** newPortHandleLocked and its installation as the port's handle. */
    method NewHandle(p: Port, op: Tid, watched: bool) returns (g: Gen)
      requires Ready()
      modifies this`handles, this`handleTable, this`nextGen
      ensures Ready() && g == nextGen && View() == Installed(old(View()), p, op, watched)
    {
      if p in handles { CancelOne(handles[p]); }
      nextGen := nextGen + 1;
      g := nextGen;
      handles := handles[p := g];
      handleTable := handleTable[g := Handle(p, op, false, false, None, if watched then Promised else NoWatcher)];
    }

    method Claim(g: Gen, owner: Tid) returns (target: DetachTarget)
      requires Ready() && g in handleTable
      modifies this, wg
      ensures Ready() && (View(), target) == ClaimHandle(old(View()), g, owner)
    {
      var h := handleTable[g];
      if h.attempt.Some? { return FollowAttempt(h.attempt.value); }
      var x := nextAttempt;
      nextAttempt := x + 1;
      attemptTable := attemptTable[x := Attempt(OnHandle(g), owner, None)];
      Enrolled();
      handleTable := handleTable[g := h.(attempt := Some(x), detaching := true)];
      return OwnHandle(g, x);
    }

    method FindDetachTarget(p: Port, caller: Tid) returns (target: DetachTarget)
      requires Ready()
      modifies this, wg
      ensures Ready() && (View(), target) == AcquireDetachTarget(old(View()), p, caller)
    {
      if closed { return TargetClosed; }
      if p in reservations && reservations[p] in reservationTable {
        var op := reservations[p];
        if p in handles && handles[p] in handleTable {
          var g := handles[p];
          handleTable := handleTable[g := handleTable[g].(detaching := true, cancelled := true)];
        }
        reservationTable := reservationTable[op := reservationTable[op].(teardown := true)];
        return AwaitReservation(op);
      }
      if p in handles && handles[p] in handleTable {
        target := Claim(handles[p], caller);
        return;
      }
      if p in untracked { return FollowAttempt(untracked[p]); }
      var x := nextAttempt;
      nextAttempt := x + 1;
      attemptTable := attemptTable[x := Attempt(OnPort(p), caller, None)];
      untracked := untracked[p := x];
      Enrolled();
      return OwnUntracked(x);
    }

    method DeleteExact(p: Port, g: Gen)
      requires Ready()
      modifies this
      ensures Ready() && View() == DeleteExactHandle(old(View()), p, g)
    {
      if p in handles && handles[p] == g { handles := handles - {p}; }
    }

    method CloseAttempt(x: AttemptId, o: Outcome)
      requires Ready()
      modifies this`attemptTable, this`panicked
      ensures Ready() && View() == FinishAttempt(old(View()), x, o)
    {
      if x in attemptTable && attemptTable[x].result.None? {
        attemptTable := attemptTable[x := attemptTable[x].(result := Some(o))];
      } else {
        panicked := true;
      }
    }

    method FinishHandleDetach(g: Gen, x: AttemptId, o: Outcome)
      requires Ready()
      modifies this
      ensures Ready() && View() == FinishDetachAttempt(old(View()), g, x, o)
    {
      CloseAttempt(x, o);
      if o != Released && g in handleTable && handleTable[g].attempt == Some(x) {
        handleTable := handleTable[g := handleTable[g].(attempt := None)];
      }
    }

    method FinishPortDetach(p: Port, x: AttemptId, o: Outcome)
      requires Ready()
      modifies this
      ensures Ready() && View() == FinishUntrackedDetach(old(View()), p, x, o)
    {
      CloseAttempt(x, o);
      if p in untracked && untracked[p] == x { untracked := untracked - {p}; }
    }

    method ClaimExact(p: Port, g: Gen, owner: Tid) returns (target: Option<DetachTarget>)
      requires Ready()
      modifies this, wg
      ensures Ready() && (View(), target) == AcquireExactHandle(old(View()), p, g, owner)
    {
      if !(p in handles && handles[p] == g && g in handleTable) { return None; }
      var claimed := Claim(g, owner);
      return Some(claimed);
    }

    /** Close: refuse new work, cancel every registered handle, and capture
        the channel to wait on. */
    method Close() returns (drained: Chan)
      requires Ready()
      modifies this, wg
      ensures Ready() && closed
      ensures drained in wg.closed <==> wg.count == 0
      ensures View() == old(View()).(closed := true, handleTable := handleTable, wg := Capture(old(View()).wg).0)
      ensures Cancelled(old(handleTable), handleTable, old(handles).Values)
    {
      closed := true;
      CancelAll();
      drained := wg.DoneChan();
    }

    method CancelAll()
      requires Ready()
      modifies this`handleTable
      ensures Ready() && View() == old(View()).(handleTable := handleTable)
      ensures Cancelled(old(handleTable), handleTable, handles.Values)
    {
      var todo := handles.Values;
      while todo != {}
        invariant Ready() && todo <= handles.Values
        invariant Cancelled(old(handleTable), handleTable, handles.Values - todo)
        decreases todo
      {
        var g :| g in todo;
        CancelOne(g);
        todo := todo - {g};
      }
    }
  }

  /** The handles in `gens`, and only they, are cancelled. */
  ghost predicate Cancelled(before: map<Gen, Handle>, after: map<Gen, Handle>, gens: set<Gen>) {
    && after.Keys == before.Keys
    && forall g :: g in before ==> after[g] == if g in gens then before[g].(cancelled := true) else before[g]
  }
}
