/** The inductive invariant of the exporter protocol. */
module ExporterInvariant {
  import opened Base
  import opened LifecycleGroup
  import opened ExporterRegistry
  import opened ExporterProtocol
  import H = ExporterHandle

  // --- One session ---------------------------------------------------------

  predicate Live(pc: HandlerPc) {
    !pc.Greeting? && !pc.Requested? && !pc.Leaving? && !pc.Left?
  }

  predicate HandlerOwes(x: Sess) { x.pc.Disconnecting? || x.pc.Reported? }

  predicate CleanerOwes(x: Sess) { x.cleaner.Swept? || x.cleaner.Due? || x.cleaner.CleanerReported? }

  /** Someone has claimed the cleanup and not yet closed its future. */
  predicate Owed(x: Sess) { HandlerOwes(x) || CleanerOwes(x) }

  /** The claim is settled: its future is closed or has one owner. */
  predicate ClaimOk(x: Sess) {
    && !x.h.doubleClose
    && !(HandlerOwes(x) && CleanerOwes(x))
    && (x.h.claimed <==> x.h.cleanup.Some? || Owed(x))
    && (x.h.cleanup.Some? ==> !Owed(x))
    && (Owed(x) ==> x.h.phase.Succeeded? && x.h.cancelled)
  }

  /** Disconnect is issued at most once, and only after a successful handoff. */
  predicate IssueOk(x: Sess) {
    && x.issued <= 1
    && (x.issued == 1 ==>
          x.h.phase.Succeeded? && x.h.claimed && !x.pc.Disconnecting? && !x.cleaner.Swept? && !x.cleaner.Due?)
    && (x.pc.Reported? || x.cleaner.CleanerReported? || x.cleaner.CleanerFinished? ==> x.issued == 1)
    && (x.h.cleanup == Some(H.DisconnectError) ==> x.issued == 1)
  }

  /** The handler's position agrees with the handoff phase. */
  predicate PhaseOk(x: Sess) {
    && (x.pc.Greeting? || x.pc.Requested? ==> x.h == H.NEW_HANDLE && x.cleaner.NoCleaner? && !x.observed && !x.replied)
    && (x.pc.Announced? || x.pc.Replying? || x.pc.Replied? ==>
          x.h.phase.NotStarted? && (x.h.claimed ==> x.h.cancelled))
    && (x.pc.InKernel? <==> x.h.phase.InProgress?)
    && (x.pc.InKernel? ==> !x.h.claimed)
    && (HandlerOwes(x) || x.pc.Parked? || x.pc.PeerGone? ==> x.h.phase.Succeeded?)
    && (x.pc.Unregistering? ==> x.h.claimed)
    && (x.pc.Leaving? || x.pc.Left? ==>
          (x.h.claimed && x.h.done) || (x.h == H.NEW_HANDLE && x.cleaner.NoCleaner? && !x.observed))
  }

  /** A successful handoff ends by an observed peer end or a Disconnect. */
  predicate EndOk(x: Sess) {
    && (x.observed ==> x.h.phase.Succeeded?)
    && (x.pc.PeerGone? ==> x.observed)
    && (x.h.cancelled && !x.h.phase.InProgress? ==> x.h.claimed)
    && (x.h.done && Live(x.pc) ==> x.h.cancelled)
    && (x.pc.Ending? && x.h.phase.Succeeded? ==> x.h.claimed)
    && (x.h.phase.Succeeded? && x.h.claimed ==> x.observed || x.issued == 1 || Owed(x))
  }

  predicate SessOk(x: Sess, shutdown: bool) {
    ClaimOk(x) && IssueOk(x) && PhaseOk(x) && EndOk(x) && (x.h.cancelled ==> shutdown)
  }

  /** Shutdown visits only registered sessions, and cancels `done` after it
      has signalled. */
  predicate VisitOk(x: Sess, a: Act, shutdown: bool) {
    && (a.Signal? ==> EverRegistered(x) && shutdown)
    && (a.CancelDone? ==> x.h.cancelled && (a.mine ==> x.cleaner.Swept?))
  }

  lemma ActKeeps(x: Sess, a: Act, shutdown: bool)
    requires SessOk(x, shutdown) && CanAct(x, a) && VisitOk(x, a, shutdown)
    ensures SessOk(DoAct(x, a), shutdown)
  {
  }

  ghost predicate Sessions(s: State) {
    forall c :: c in s.sess ==> SessOk(s.sess[c], s.reg.shutdown)
  }

  // --- The registry --------------------------------------------------------

  ghost predicate Ids(s: State) {
    && (forall c :: c in s.sess ==> c < s.nextId)
    && (forall t :: t in s.serves ==> t < s.nextId)
  }

  predicate EntryOk(s: State, c: Sid) {
    && c in s.sess
    && (c in s.reg.sessions <==> Live(s.sess[c].pc))
    && (c in s.reg.sessions ==> s.reg.sessions[c] == s.sess[c].entry)
  }

  ghost predicate Entries(s: State) {
    && s.reg.sessions.Keys <= s.sess.Keys
    && (forall c :: c in s.sess ==> EntryOk(s, c))
    && Accounts(s.reg, s.cfg)
  }

  /** The session answers for its device: the kernel carries its socket or
      no socket, never another session's. */
  predicate Guards(x: Sess) {
    (Live(x.pc) || CleanerOwes(x)) && (x.h.phase.Succeeded? || x.pc == InKernel(Some(true)))
  }

  predicate GuardOk(s: State, c: Sid) {
    && c in s.sess
    && (Guards(s.sess[c]) && s.sess[c].entry.bus in s.exported ==> s.exported[s.sess[c].entry.bus] == c)
  }

  predicate ApartOk(s: State, c: Sid, d: Sid) {
    && c in s.sess && d in s.sess
    && (CleanerOwes(s.sess[c]) && Live(s.sess[d].pc) && c != d ==> s.sess[c].entry.bus != s.sess[d].entry.bus)
  }

  ghost predicate Exports(s: State) {
    && (forall c :: c in s.sess ==> GuardOk(s, c))
    && (forall c, d :: c in s.sess && d in s.sess ==> ApartOk(s, c, d))
  }

  // --- Shutdown ------------------------------------------------------------

  predicate EverRegistered(x: Sess) { Live(x.pc) || x.h.claimed }

  /** Sessions before the sweep's position are cancelled and their cleanup
      goroutines started; those after it are untouched by Shutdown. */
  predicate SweptOk(s: State, j: nat) {
    && j < |s.reg.retained| && s.reg.retained[j] in s.sess
    && var x := s.sess[s.reg.retained[j]];
       match s.sweep
       case NotShut => true
       case AtSignal(k) => if j < k then x.h.cancelled && x.h.done && !x.cleaner.Swept? else !x.h.cancelled
       case AtCancel(k, mine) =>
         if j < k then x.h.cancelled && x.h.done && !x.cleaner.Swept?
         else if j == k then x.h.cancelled && (mine <==> x.cleaner.Swept?)
         else !x.h.cancelled
  }

  predicate KnownTo(s: State, c: Sid) {
    && c in s.sess
    && var x := s.sess[c];
       && (x.h.cancelled ==> c in s.reg.retained)
       && (EverRegistered(x) ==> Live(x.pc) || c in s.retired || c in s.reg.retained)
       && (s.reg.shutdown && EverRegistered(x) ==> c in s.retired || c in s.reg.retained)
       && (c in s.retired ==> !Live(x.pc) && EverRegistered(x) && c !in s.reg.retained)
  }

  ghost predicate Retention(s: State) {
    && (s.sweep.NotShut? <==> !s.reg.shutdown)
    && (!s.reg.shutdown ==> s.reg.retained == [])
    && (s.sweep.AtSignal? ==> s.sweep.index <= |s.reg.retained|)
    && (s.sweep.AtCancel? ==> s.sweep.index < |s.reg.retained|)
    && (forall i, j :: 0 <= i < j < |s.reg.retained| ==> s.reg.retained[i] != s.reg.retained[j])
    && (forall j :: 0 <= j < |s.reg.retained| ==>
          s.reg.retained[j] in s.sess && SweptOk(s, j) && EverRegistered(s.sess[s.reg.retained[j]]))
    && (forall c :: c in s.retired ==> c in s.sess)
    && (forall c :: c in s.sess ==> KnownTo(s, c))
  }

  // --- Serve ---------------------------------------------------------------

  predicate ServeOk(s: State, t: Tid) {
    && t in s.serves
    && var pc := s.serves[t];
       && (!pc.Stopped? ==> s.reg.serving && s.reg.loop == Some(t))
       && t in s.exits && s.exits[t] == (if t in s.once then 1 else 0)
       && (pc.Waiting? || pc.Stopping? || pc.Stopped? ==> t in s.once)
       && (t in s.once ==> pc.Waiting? || pc.Deferring? || pc.Stopping? || pc.Stopped?)
       && (pc.Accepting? && !s.reg.shutdown ==> s.reg.listener == Some(t))
       && (s.reg.shutdown && pc.Accepting? && t in s.open ==> s.doomed == Some(t))
       && (pc.Reserved? ==> t !in s.open)
       && (pc.Rejecting? ==> s.reg.shutdown)
  }

  ghost predicate Serves(s: State) {
    && (forall t :: t in s.serves ==> ServeOk(s, t))
    && (s.reg.serving ==> s.reg.loop.Some? && s.reg.loop.value in s.serves && !s.serves[s.reg.loop.value].Stopped?)
    && (s.reg.loop.Some? ==> s.reg.loop.value in s.serves)
    && (s.reg.listener.Some? ==>
          && s.reg.serving && s.reg.listener == s.reg.loop && !s.reg.shutdown
          && !s.serves[s.reg.loop.value].Reserved? && !s.serves[s.reg.loop.value].Made?)
    && (forall t :: t in s.open ==> t in s.serves)
    && (forall t :: t in s.once ==> t in s.serves)
    && (s.doomed.Some? ==> s.reg.shutdown && s.doomed.value in s.serves)
  }

  // --- The drain group -----------------------------------------------------

  function Handlers(s: State): set<Sid> { set c | c in s.sess && !s.sess[c].pc.Left? }

  function Timers(s: State): set<Sid> { set c | c in s.sess && s.sess[c].timer.Running? }

  predicate Counts(s: State) {
    !s.panicked && s.wg.count == |Handlers(s)| + |Timers(s)|
  }

  predicate Drains(s: State) {
    s.drain.Some? ==> s.reg.shutdown && AcceptLoopDone(s) && s.wg.drained == s.drain
  }

  ghost predicate Inv(s: State) {
    Sessions(s) && Ids(s) && Entries(s) && Exports(s) && Retention(s) && Serves(s) && Counts(s) && Drains(s)
  }
}
