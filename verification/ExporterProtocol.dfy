/**
 * Exporter sessions as a transition system over internal/app/exporter.go and
 * internal/app/session.go: connection handlers, the kernel handoff, Serve,
 * Shutdown and its cleanup goroutines, in every interleaving.
 *
 * One step is one hold of a mutex, one kernel call, or one channel or
 * wait-group operation. Kernel calls, writes to the peer, timers and
 * observations of the peer's end succeed or fail at will.
 */
module ExporterProtocol {
  import opened Base
  import opened LifecycleGroup
  import opened ExporterRegistry
  import H = ExporterHandle

  type Wg = g: Group | Valid(g) witness EMPTY

  /** Where a connection handler is (handleConn down to endSession). */
  datatype HandlerPc =
    | Greeting
    | Requested
    | Announced
    | Replying
    | Replied
    | InKernel(accepted: Option<bool>)
    | Disconnecting
    | Reported(result: H.Cleanup)
    | Parked
    | PeerGone
    | Ending
    | Unregistering
    | Leaving
    | Left

  /** The goroutine Shutdown starts for a handle it claimed. */
  datatype CleanerPc = NoCleaner | Swept | Due | CleanerReported(outcome: H.Cleanup) | CleanerFinished

  /** armHandshakeTimeout's watcher. */
  datatype TimerPc = NoTimer | Running | TimerGone

  /**
   * One accepted connection and the session it may become. `issued` counts
   * kernel.Disconnect calls made for it, `observed` that its handler saw the
   * peer's end, `replied` that a success OP_REP_IMPORT was written for it.
   */
  datatype Sess = Sess(
    entry: Entry, h: H.Handle, pc: HandlerPc, cleaner: CleanerPc, timer: TimerPc,
    issued: nat, observed: bool, replied: bool)

  /** Serve (serveWithListenerFactory); its listener bears the same number.
      `Deferring` and `Stopping` are its two deferred calls. */
  datatype ServePc =
    | Reserved
    | Made
    | Rejecting
    | Accepting
    | LoopOver
    | Waiting
    | Deferring
    | Stopping
    | Stopped

  /** The first Shutdown's work after its snapshot. */
  datatype SweepPc = NotShut | AtSignal(index: nat) | AtCancel(index: nat, mine: bool)

  /**
   * `exported` is the kernel's view: which session's socket a device carries.
   * `open` are the listeners still open, `doomed` the one the first Shutdown
   * captured and has not closed yet. `retired` are sessions unregistered
   * before Shutdown. `exits` counts the closings of each acceptLoopExited,
   * `once` are the Serves whose acceptExitedOnce has fired.
   */
  datatype State = State(
    cfg: Limits,
    reg: Registry,
    sess: map<Sid, Sess>,
    nextId: nat,
    exported: map<Bus, Sid>,
    serves: map<Tid, ServePc>,
    open: set<Tid>,
    doomed: Option<Tid>,
    exits: map<Tid, nat>,
    once: set<Tid>,
    sweep: SweepPc,
    retired: set<Sid>,
    wg: Wg,
    drain: Option<Chan>,
    panicked: bool)

  ghost predicate Init(s: State) {
    && s.reg == NEW_REGISTRY && s.sess == map[] && s.exported == map[]
    && s.serves == map[] && s.open == {} && s.doomed == None && s.exits == map[] && s.once == {}
    && s.sweep == NotShut && s.retired == {} && s.wg == EMPTY && s.drain == None && !s.panicked
  }

  function Join(s: State): State { s.(wg := Enrol(s.wg)) }

  function Depart(s: State): State {
    if s.wg.count > 0 then s.(wg := LifecycleGroup.Leave(s.wg)) else s.(panicked := true)
  }

  function Put(s: State, c: Sid, x: Sess): State { s.(sess := s.sess[c := x]) }

  // --- Steps of one session ------------------------------------------------

  /** What may happen to one session record: its handler's steps, its timer's,
      its cleanup goroutine's, and the first Shutdown's visit. */
  datatype Act =
    | Refuse
    | Request(entry: Entry)
    | Subscribe(ok: bool)
    | Reply(ok: bool)
    | StartHandoff
    | KernelExport(accepted: bool)
    | FinishHandoff
    | OwnDisconnect(result: H.Cleanup)
    | FinishOwnCleanup
    | SeeDone
    | SeeGone
    | CompleteGone
    | EndComplete
    | Leave
    | ArmTimer
    | TimerEnds
    | Signal
    | CancelDone(mine: bool)
    | SweptDisconnect(result: H.Cleanup)
    | FinishSweptCleanup

  predicate CanAct(x: Sess, a: Act) {
    match a
    case Refuse => x.pc.Greeting? || x.pc.Requested?
    case Request(_) => x.pc.Greeting?
    case Subscribe(_) => x.pc.Announced?
    case Reply(_) => x.pc.Replying?
    case StartHandoff => x.pc.Replied?
    case KernelExport(_) => x.pc == InKernel(None)
    case FinishHandoff => x.pc.InKernel? && x.pc.accepted.Some?
    case OwnDisconnect(_) => x.pc.Disconnecting?
    case FinishOwnCleanup => x.pc.Reported?
    case SeeDone => x.pc.Parked? && x.h.done
    case SeeGone => x.pc.Parked?
    case CompleteGone => x.pc.PeerGone?
    case EndComplete => x.pc.Ending?
    case Leave => x.pc.Leaving?
    case ArmTimer => x.pc.Greeting? && x.timer.NoTimer?
    case TimerEnds => x.timer.Running?
    case Signal => true
    case CancelDone(_) => true
    case SweptDisconnect(_) => x.cleaner.Due?
    case FinishSweptCleanup => x.cleaner.CleanerReported?
  }

  function DoAct(x: Sess, a: Act): Sess
    requires CanAct(x, a)
  {
    match a
    case Refuse => x.(pc := Leaving)
    case Request(e) => x.(pc := Requested, entry := e)
    case Subscribe(ok) => x.(pc := if ok then Replying else Ending)
    case Reply(ok) => x.(pc := if ok then Replied else Ending, replied := ok)
    case StartHandoff =>
      var (h, ran) := H.BeginHandoff(x.h);
      x.(h := h, pc := if ran then InKernel(None) else Ending)
    case KernelExport(ok) => x.(pc := InKernel(Some(ok)))
    case FinishHandoff =>
      var ok := x.pc.accepted.value;
      var (h, disconnect) := H.EndHandoff(x.h, ok);
      x.(h := h, pc := if !ok then Ending else if disconnect then Disconnecting else Parked)
    case OwnDisconnect(r) => x.(pc := Reported(r), issued := x.issued + 1)
    case FinishOwnCleanup => x.(h := H.FinishCleanup(x.h, x.pc.result), pc := Ending)
    case SeeDone => x.(pc := Ending)
    case SeeGone => x.(pc := PeerGone, observed := true)
    case CompleteGone => x.(h := H.CompleteWithoutDisconnect(x.h).0, pc := Ending)
    case EndComplete => x.(h := H.CompleteWithoutDisconnect(x.h).0, pc := Unregistering)
    case Leave => x.(pc := Left)
    case ArmTimer => x.(timer := Running)
    case TimerEnds => x.(timer := TimerGone)
    case Signal =>
      var (h, mine) := H.SignalCancel(x.h);
      x.(h := h, cleaner := if mine then Swept else x.cleaner)
    case CancelDone(mine) => x.(h := H.Cancel(x.h), cleaner := if mine then Due else x.cleaner)
    case SweptDisconnect(r) => x.(cleaner := CleanerReported(r), issued := x.issued + 1)
    case FinishSweptCleanup => x.(h := H.FinishCleanup(x.h, x.cleaner.outcome), cleaner := CleanerFinished)
  }

  /** The first Shutdown is at session `c`. */
  predicate SweepAt(s: State, c: Sid, k: nat) { k < |s.reg.retained| && s.reg.retained[k] == c }

  /** Conditions on the rest of the state. */
  predicate SideCondition(s: State, c: Sid, x: Sess, a: Act) {
    match a
    case KernelExport(ok) => ok ==> x.entry.bus !in s.exported
    case Signal => s.sweep.AtSignal? && SweepAt(s, c, s.sweep.index)
    case CancelDone(mine) => s.sweep.AtCancel? && SweepAt(s, c, s.sweep.index) && s.sweep.mine == mine
    case _ => true
  }

  /** kernel.Disconnect on the session's device. */
  function Disconnect(s: State, bus: Bus, r: H.Cleanup): State {
    if r.Clean? then s.(exported := s.exported - {bus}) else s
  }

  /** Effects on the rest of the state. */
  function SideEffect(s: State, c: Sid, x: Sess, a: Act): State {
    match a
    case KernelExport(ok) => if ok then s.(exported := s.exported[x.entry.bus := c]) else s
    case OwnDisconnect(r) => Disconnect(s, x.entry.bus, r)
    case SweptDisconnect(r) => Disconnect(s, x.entry.bus, r)
    case Signal => if s.sweep.AtSignal? then s.(sweep := AtCancel(s.sweep.index, H.SignalCancel(x.h).1)) else s
    case CancelDone(_) => if s.sweep.AtCancel? then s.(sweep := AtSignal(s.sweep.index + 1)) else s
    case ArmTimer => Join(s)
    case TimerEnds => Depart(s)
    case Leave => Depart(s)
    case _ => s
  }

  // --- Steps of Serve ------------------------------------------------------

  datatype ServeAct =
    | FactoryFails
    | FactoryMakes
    | Install
    | RejectClose
    | LoopExit
    | LoopPanics
    | ContextClose
    | SignalExit
    | CloserGone
    | DeferredSignal
    | Stop

  predicate CanServe(pc: ServePc, a: ServeAct) {
    match a
    case FactoryFails => pc.Reserved?
    case FactoryMakes => pc.Reserved?
    case Install => pc.Made?
    case RejectClose => pc.Rejecting?
    case LoopExit => pc.Accepting?
    case LoopPanics => pc.Accepting?
    case ContextClose => pc.Accepting? || pc.LoopOver? || pc.Waiting?
    case SignalExit => pc.LoopOver?
    case CloserGone => pc.Waiting?
    case DeferredSignal => pc.Deferring?
    case Stop => pc.Stopping?
  }

  function SetServe(s: State, t: Tid, pc: ServePc): State { s.(serves := s.serves[t := pc]) }

  /** signalAcceptExited: the channel is closed unless the Once has fired. */
  function SignalAcceptExited(s: State, t: Tid): State {
    if t in s.once then s
    else s.(once := s.once + {t}, exits := s.exits[t := if t in s.exits then s.exits[t] + 1 else 1])
  }

  function DoServe(s: State, t: Tid, a: ServeAct): State {
    match a
    case FactoryFails => SetServe(s, t, Deferring)
    case FactoryMakes => SetServe(s.(open := s.open + {t}), t, Made)
    case Install =>
      var (r, declined) := InstallListener(s.reg, t);
      SetServe(s.(reg := r), t, if declined.None? then Accepting else Rejecting)
    case RejectClose => SetServe(s.(open := s.open - {t}), t, Deferring)
    case LoopExit => SetServe(s, t, LoopOver)
    case LoopPanics => SetServe(s, t, Deferring)
    case ContextClose => s.(open := s.open - {t})
    case SignalExit => SetServe(SignalAcceptExited(s, t), t, Waiting)
    case CloserGone => SetServe(s, t, Deferring)
    case DeferredSignal => SetServe(SignalAcceptExited(s, t), t, Stopping)
    case Stop => SetServe(s.(reg := StopServing(s.reg)), t, Stopped)
  }

  // --- All steps -----------------------------------------------------------

  datatype Step =
    | OnSession(c: Sid, act: Act)
    | OnServe(t: Tid, serve: ServeAct)
    | ServeStart
    | Accept(t: Tid)
    | Register(c: Sid)
    | Unregister(c: Sid)
    | KernelDrop(bus: Bus)
    | ShutdownCapture(order: seq<Sid>)
    | CloseDoomed
    | CaptureDrain

  predicate AcceptLoopDone(s: State) {
    s.reg.loop.Some? ==> s.reg.loop.value in s.exits && s.exits[s.reg.loop.value] > 0
  }

  ghost predicate Enabled(s: State, step: Step) {
    match step
    case OnSession(c, act) => c in s.sess && CanAct(s.sess[c], act) && SideCondition(s, c, s.sess[c], act)
    case OnServe(t, a) => t in s.serves && CanServe(s.serves[t], a)
    case ServeStart => true
    case Accept(t) => t in s.serves && s.serves[t].Accepting?
    case Register(c) => c in s.sess && s.sess[c].pc.Requested?
    case Unregister(c) => c in s.sess && s.sess[c].pc.Unregistering?
    case KernelDrop(_) => true
    case ShutdownCapture(order) => Lists(order, s.reg.sessions.Keys)
    case CloseDoomed => s.doomed.Some?
    case CaptureDrain => s.reg.shutdown && AcceptLoopDone(s) && s.drain.None?
  }

  function DoAccept(s: State): State {
    var x := Sess(Entry(0, 0), H.NEW_HANDLE, Greeting, NoCleaner, NoTimer, 0, false, false);
    Join(Put(s, s.nextId, x).(nextId := s.nextId + 1))
  }

  function DoRegister(s: State, c: Sid): State
    requires c in s.sess
  {
    var (r, declined) := RegisterSession(s.reg, s.cfg, c, s.sess[c].entry);
    Put(s.(reg := r), c, s.sess[c].(pc := if declined.None? then Announced else Leaving))
  }

  function DoUnregister(s: State, c: Sid): State
    requires c in s.sess
  {
    var x := s.sess[c];
    Put(s.(reg := UnregisterSession(s.reg, c), retired := if s.reg.shutdown then s.retired else s.retired + {c}),
        c, x.(h := H.Cancel(x.h), pc := Leaving))
  }

  function DoCapture(s: State, order: seq<Sid>): State {
    var (r, snapshot) := CaptureShutdown(s.reg, order);
    if snapshot.first then s.(reg := r, doomed := snapshot.listener, sweep := AtSignal(0)) else s.(reg := r)
  }

  function DoServeStart(s: State): State {
    var (r, declined) := StartServing(s.reg, s.nextId);
    if declined.Some? then s
    else SetServe(s.(reg := r, nextId := s.nextId + 1, exits := s.exits[s.nextId := 0]), s.nextId, Reserved)
  }

  function DoCaptureDrain(s: State): State {
    var (g, ch) := Capture(s.wg);
    s.(wg := g, drain := Some(ch))
  }

  /** A step that is not enabled changes nothing. */
  ghost function Apply(s: State, step: Step): State {
    if !Enabled(s, step) then s
    else
      match step
      case OnSession(c, act) => Put(SideEffect(s, c, s.sess[c], act), c, DoAct(s.sess[c], act))
      case OnServe(t, a) => DoServe(s, t, a)
      case ServeStart => DoServeStart(s)
      case Accept(_) => DoAccept(s)
      case Register(c) => DoRegister(s, c)
      case Unregister(c) => DoUnregister(s, c)
      case KernelDrop(bus) => s.(exported := s.exported - {bus})
      case ShutdownCapture(order) => DoCapture(s, order)
      case CloseDoomed => s.(open := s.open - {s.doomed.value}, doomed := None)
      case CaptureDrain => DoCaptureDrain(s)
  }

  ghost predicate Run(s: State, steps: seq<Step>, after: State)
    decreases |steps|
  {
    if steps == [] then after == s
    else Enabled(s, steps[0]) && Run(Apply(s, steps[0]), steps[1..], after)
  }
}
