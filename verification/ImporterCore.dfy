/**
 * The state guarded by Importer.mu and the critical sections that change it
 * (internal/app/importer.go). Each function is the effect of one critical
 * section; class `Importer` performs the same effects on mutable fields.
 *
 * Heap objects are rows of a table, so pointer identity is key identity: a
 * portHandle is named by its generation, an attachReservation by the Attach
 * operation that made it, a detachAttempt by its allocation number.
 */
module ImporterCore {
  import opened Base
  import opened LifecycleGroup

  type Port = nat
  type Gen = nat
  type Tid = nat
  type AttemptId = nat
  type Key = nat
  type Wg = g: Group | Valid(g) witness EMPTY

  /** What kernel.DetachPort or a whole detach attempt reports. */
  datatype Outcome = Released | NotBound | Failed

  datatype Target = OnHandle(gen: Gen) | OnPort(port: Port)

  /** detachAttempt: `result` is set when its done channel closes. `target` and
      `owner` record which claim created it. */
  datatype Attempt = Attempt(target: Target, owner: Tid, result: Option<Outcome>)

  /** The watcherDone channel: never made, made but the watcher not started,
      owned by a running watcher, or closed. */
  datatype WatcherSlot = NoWatcher | Promised | Running(watcher: Tid) | Exited

  /** portHandle. `op` is the Attach that published it. */
  datatype Handle = Handle(
    port: Port, op: Tid, detaching: bool, cancelled: bool,
    attempt: Option<AttemptId>, watcher: WatcherSlot)

  /** How a reservation left the reservations map. */
  datatype Fate = Pending | Aborted | LostToClose | Published(gen: Gen)

  /** attachReservation. */
  datatype Reservation = Reservation(
    port: Port, teardown: bool, attempt: Option<AttemptId>, done: bool, fate: Fate)

  datatype Core = Core(
    closed: bool,
    handles: map<Port, Gen>,
    reservations: map<Port, Tid>,
    untracked: map<Port, AttemptId>,
    inFlight: set<Key>,
    nextGen: Gen,
    handleTable: map<Gen, Handle>,
    reservationTable: map<Tid, Reservation>,
    attemptTable: map<AttemptId, Attempt>,
    nextAttempt: AttemptId,
    wg: Wg,
    panicked: bool)

  const NEW_IMPORTER: Core :=
    Core(false, map[], map[], map[], {}, 0, map[], map[], map[], 0, EMPTY, false)

  function WgAdd(c: Core): Core { c.(wg := Enrol(c.wg)) }

  /** wg.Done; a counter below zero is a panic. */
  function WgDone(c: Core): Core {
    if c.wg.count > 0 then c.(wg := Leave(c.wg)) else c.(panicked := true)
  }

  // --- Attach side ---------------------------------------------------------

  datatype SlotResult = SlotClosed | SlotBusy | SlotGranted

  function AcquireAttachSlot(c: Core, key: Key): (Core, SlotResult) {
    if c.closed then (c, SlotClosed)
    else if key in c.inFlight then (c, SlotBusy)
    else (WgAdd(c.(inFlight := c.inFlight + {key})), SlotGranted)
  }

  function ReleaseAttachSlot(c: Core, key: Key): Core {
    c.(inFlight := c.inFlight - {key})
  }

  predicate IsDetaching(c: Core, p: Port) {
    p in c.handles && c.handles[p] in c.handleTable && c.handleTable[c.handles[p]].detaching
  }

  function ReserveAttachPort(c: Core, p: Port, op: Tid): (Core, bool) {
    if c.closed || p in c.reservations || p in c.untracked || IsDetaching(c, p) then (c, false)
    else
      (c.(reservations := c.reservations[p := op],
          reservationTable := c.reservationTable[op := Reservation(p, false, None, false, Pending)]),
       true)
  }

  /** Exact-pointer removal after a failed handoff. */
  function AbortAttachReservation(c: Core, p: Port, op: Tid): Core {
    if p in c.reservations && c.reservations[p] == op && op in c.reservationTable then
      c.(reservations := c.reservations - {p},
         reservationTable := c.reservationTable[op := c.reservationTable[op].(fate := Aborted)])
    else c
  }

  /** Closing reservation.done, at most once. */
  function CompleteReservation(c: Core, op: Tid): Core {
    if op in c.reservationTable then
      c.(reservationTable := c.reservationTable[op := c.reservationTable[op].(done := true)])
    else c
  }

  datatype RegisterResult =
    | Registered(gen: Gen, compensation: Option<AttemptId>)
    | RegisterClosed
    | ReservationLost

  function CancelHandle(c: Core, g: Gen): Core {
    if g in c.handleTable then
      c.(handleTable := c.handleTable[g := c.handleTable[g].(cancelled := true)])
    else c
  }

  /** registerHandle with the locked helpers it calls. `compensator` is the
      goroutine startCompensatingDetach will start if teardown was requested. */
  function RegisterHandle(c: Core, p: Port, op: Tid, auto: bool, compensator: Tid)
    : (Core, RegisterResult)
  {
    if !(p in c.reservations && c.reservations[p] == op && op in c.reservationTable) then
      (c, ReservationLost)
    else if c.closed then
      (c.(reservations := c.reservations - {p},
          reservationTable := c.reservationTable[op := c.reservationTable[op].(fate := LostToClose)]),
       RegisterClosed)
    else
      var r := c.reservationTable[op];
      var g := c.nextGen + 1;
      var c1 := if p in c.handles then CancelHandle(c, c.handles[p]) else c;
      var x := c1.nextAttempt;
      var h := Handle(p, op, r.teardown, false,
                      if r.teardown then Some(x) else None,
                      if auto && !r.teardown then Promised else NoWatcher);
      var c2 := c1.(
        nextGen := g,
        handles := c1.handles[p := g],
        handleTable := c1.handleTable[g := h],
        reservations := c1.reservations - {p},
        reservationTable := c1.reservationTable[op :=
          r.(fate := Published(g), attempt := if r.teardown then Some(x) else None)]);
      if r.teardown then
        (WgAdd(c2.(nextAttempt := x + 1,
                   attemptTable := c2.attemptTable[x := Attempt(OnHandle(g), compensator, None)])),
         Registered(g, Some(x)))
      else (c2, Registered(g, None))
  }

  // --- Detach side ---------------------------------------------------------

  datatype DetachTarget =
    | TargetClosed
    | AwaitReservation(op: Tid)
    | OwnHandle(gen: Gen, attempt: AttemptId)
    | OwnUntracked(attempt: AttemptId)
    | FollowAttempt(attempt: AttemptId)

  /** acquireDetachAttempt plus the owner's enrolment. */
  function ClaimHandle(c: Core, g: Gen, owner: Tid): (Core, DetachTarget)
    requires g in c.handleTable
  {
    var h := c.handleTable[g];
    match h.attempt
    case Some(x) => (c, FollowAttempt(x))
    case None =>
      var x := c.nextAttempt;
      (WgAdd(c.(
         handleTable := c.handleTable[g := h.(attempt := Some(x), detaching := true)],
         attemptTable := c.attemptTable[x := Attempt(OnHandle(g), owner, None)],
         nextAttempt := x + 1)),
       OwnHandle(g, x))
  }

  function AcquireDetachTarget(c: Core, p: Port, caller: Tid): (Core, DetachTarget) {
    if c.closed then (c, TargetClosed)
    else if p in c.reservations && c.reservations[p] in c.reservationTable then
      var op := c.reservations[p];
      var c1 :=
        if p in c.handles && c.handles[p] in c.handleTable then
          var g := c.handles[p];
          c.(handleTable := c.handleTable[g := c.handleTable[g].(detaching := true, cancelled := true)])
        else c;
      (c1.(reservationTable := c1.reservationTable[op := c1.reservationTable[op].(teardown := true)]),
       AwaitReservation(op))
    else if p in c.handles && c.handles[p] in c.handleTable then
      ClaimHandle(c, c.handles[p], caller)
    else if p in c.untracked then (c, FollowAttempt(c.untracked[p]))
    else
      var x := c.nextAttempt;
      (WgAdd(c.(
         untracked := c.untracked[p := x],
         attemptTable := c.attemptTable[x := Attempt(OnPort(p), caller, None)],
         nextAttempt := x + 1)),
       OwnUntracked(x))
  }

  predicate IsCurrent(c: Core, p: Port, g: Gen) { p in c.handles && c.handles[p] == g }

  /** deleteExactHandle and removeHandle. */
  function DeleteExactHandle(c: Core, p: Port, g: Gen): Core {
    if IsCurrent(c, p, g) then c.(handles := c.handles - {p}) else c
  }

  /** attempt.err = o; close(attempt.done): a second close is a panic. */
  function FinishAttempt(c: Core, x: AttemptId, o: Outcome): Core {
    if x in c.attemptTable && c.attemptTable[x].result.None? then
      c.(attemptTable := c.attemptTable[x := c.attemptTable[x].(result := Some(o))])
    else c.(panicked := true)
  }

  function FinishDetachAttempt(c: Core, g: Gen, x: AttemptId, o: Outcome): Core {
    var c1 := FinishAttempt(c, x, o);
    if o != Released && g in c1.handleTable && c1.handleTable[g].attempt == Some(x) then
      c1.(handleTable := c1.handleTable[g := c1.handleTable[g].(attempt := None)])
    else c1
  }

  function FinishUntrackedDetach(c: Core, p: Port, x: AttemptId, o: Outcome): Core {
    var c1 := FinishAttempt(c, x, o);
    if p in c1.untracked && c1.untracked[p] == x then c1.(untracked := c1.untracked - {p}) else c1
  }

  /** The locked prefix of detachExactHandle; `None` means superseded. */
  function AcquireExactHandle(c: Core, p: Port, g: Gen, owner: Tid): (Core, Option<DetachTarget>) {
    if IsCurrent(c, p, g) && g in c.handleTable then
      var (c1, target) := ClaimHandle(c, g, owner);
      (c1, Some(target))
    else (c, None)
  }

  // --- Watcher and Close ---------------------------------------------------

  /** spawnReconnectWatcher enrols the watcher that will own watcherDone. */
  function StartWatcher(c: Core, g: Gen, w: Tid): Core {
    if g in c.handleTable then
      WgAdd(c.(handleTable := c.handleTable[g := c.handleTable[g].(watcher := Running(w))]))
    else WgAdd(c)
  }

  /** close(handle.watcherDone): closing a nil or closed channel is a panic. */
  function CloseWatcherDone(c: Core, g: Gen): Core {
    if g in c.handleTable && c.handleTable[g].watcher.Running? then
      c.(handleTable := c.handleTable[g := c.handleTable[g].(watcher := Exited)])
    else c.(panicked := true)
  }

  function CloseImporter(c: Core): Core { c.(closed := true) }
}
