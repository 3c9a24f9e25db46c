/**
 * The protocol never deadlocks: in every reachable state each waiter is at the
 * head of a finite chain of waits that ends in a thread with an enabled step.
 * Neither the time limits of bounded waits nor a cancellation nobody asked for
 * is needed to get on.
 */
module ImporterProgress {
  import opened Base
  import opened ImporterCore
  import opened ImporterProtocol
  import opened ImporterInvariant
  import opened ImporterRuns
  import opened ImporterOrder
  import opened ImporterAwaited

  /** The thread a step belongs to, if it is one of a thread's own. */
  function Actor(step: Step): Option<Tid> {
    match step
    case ByAttach(AttachStart(_, _)) => None
    case ByAttach(a) => Some(a.t)
    case ByDetach(DetachStart(_)) => None
    case ByDetach(a) => Some(a.t)
    case ByWatcher(HelperStart(_)) => None
    case ByWatcher(HelperLeave) => None
    case ByWatcher(a) => Some(a.t)
    case ByWorld(_) => None
  }

  /** The step only gives up: a wait's time limit, or a watcher stopping although
      its handle was not cancelled. */
  predicate GivesUp(s: State, step: Step) {
    match step
    case ByDetach(DetachGiveUp(_)) => true
    case ByDetach(OwnerCheck(_, timedOut)) => timedOut
    case ByWatcher(WatcherCancelled(t)) =>
      !IsCancelled(s, t)
    case _ => false
  }

  predicate Takes(s: State, t: Tid, step: Step) {
    Actor(step) == Some(t) && Enabled(s, step) && !GivesUp(s, step)
  }

  ghost predicate Ready(s: State, t: Tid) { exists step :: Takes(s, t, step) }

  /** The thread is at an operation that may block on another thread. */
  predicate Waiting(th: Thread) {
    match th
    case AttachT(_, _, _, _) => false
    case DetachT(_, _, _, dpc) =>
      || dpc.AwaitPublication? || dpc.Following?
      || (dpc.Owner? && (dpc.phase.Unstarted? || dpc.phase.AwaitWatcher?))
    case WatcherT(_, _, wpc) => wpc.Attempting? || wpc.RollingBack? || wpc.Joining?
  }

  /** Attempt `x` is unfinished and its owner is waited for. */
  predicate AwaitsAttempt(s: State, x: AttemptId, u: Tid) {
    x in s.core.attemptTable && s.core.attemptTable[x].result.None? && u == s.core.attemptTable[x].owner
  }

  predicate AwaitsSlot(s: State, g: Gen, u: Tid) {
    && g in s.core.handleTable
    && match s.core.handleTable[g].watcher
       case Promised => u == s.core.handleTable[g].op
       case Running(v) => u == v
       case _ => false
  }

  /** `t` waits for `u`. */
  predicate WaitsFor(s: State, t: Tid, u: Tid) {
    && t in s.threads
    && match s.threads[t]
       case AttachT(_, _, _, _) => false
       case DetachT(_, _, _, AwaitPublication(op)) => u == op
       case DetachT(_, _, _, Following(x)) => AwaitsAttempt(s, x, u)
       case DetachT(_, _, _, Owner(g, _, Unstarted)) => g in s.core.handleTable && u == s.core.handleTable[g].op
       case DetachT(_, _, _, Owner(g, _, AwaitWatcher)) => AwaitsSlot(s, g, u)
       case DetachT(_, _, _, _) => false
       case WatcherT(_, _, Attempting(child)) => u == child
       case WatcherT(_, _, RollingBack(child)) => u == child
       case WatcherT(_, _, Joining(x)) => AwaitsAttempt(s, x, u)
       case WatcherT(_, _, _) => false
  }

  /** Each thread of the chain waits for the next, and the last is ready. */
  ghost predicate Chain(s: State, chain: seq<Tid>) {
    && chain != [] && (forall i :: 0 <= i < |chain| ==> chain[i] in s.threads)
    && (forall i :: 0 <= i < |chain| - 1 ==> WaitsFor(s, chain[i], chain[i + 1]))
    && Ready(s, chain[|chain| - 1])
  }

  /** An attach never blocks on another thread. */
  function AttachNext(s: State, t: Tid): (step: AttachStep)
    requires AttachAt(s, t) && !Returned(s.threads[t])
    ensures !step.AttachStart? && step.t == t && AttachEnabled(s, step)
  {
    match s.threads[t].apc
    case Dialing => AttachGiveUp(t)
    case Handing(_, Reserved) => AttachKernel(t, false)
    case Handing(_, HandoffFailed) => AttachAbort(t)
    case Handing(_, HandedOff) => AttachRegister(t)
    case AbortedOpen(_) => AttachComplete(t)
    case Lost(_, open) => if open then AttachComplete(t) else AttachLostRelease(t, Failed)
    case Publishing(_, _, _, open) => if open then AttachComplete(t) else AttachLaunch(t)
    case Out(_, Releasing) => AttachRelease(t)
    case Out(_, Leaving) => AttachLeave(t)
  }

  lemma AttachIsReady(s: State, t: Tid)
    requires AttachAt(s, t) && !Returned(s.threads[t])
    ensures Ready(s, t)
  {
    assert Takes(s, t, ByAttach(AttachNext(s, t)));
  }

  lemma DetachNext(s: State, t: Tid) returns (step: DetachStep)
    requires DetachAt(s, t) && !Returned(s.threads[t]) && !Waiting(s.threads[t])
    ensures !step.DetachStart? && step.t == t && DetachEnabled(s, step) && !GivesUp(s, ByDetach(step))
  {
    match s.threads[t].dpc
    case Looking => step := DetachLook(t);
    case OnUntracked(_, reported) => step := if reported.None? then PortKernel(t, Failed) else PortFinish(t);
    case Owner(_, _, Claimed) => step := OwnerCancel(t);
    case Owner(_, _, Checked(_)) => step := OwnerKernel(t, Failed);
    case Owner(_, _, Removing(_)) => step := OwnerRemove(t);
    case Owner(_, _, Finishing(_)) => step := OwnerFinish(t);
    case DetachOut(_, _, _) => step := OwnerLeave(t);
  }

  lemma DetachIsReady(s: State, t: Tid)
    requires DetachAt(s, t) && !Returned(s.threads[t]) && !Waiting(s.threads[t])
    ensures Ready(s, t)
  {
    var step := DetachNext(s, t);
    assert Takes(s, t, ByDetach(step));
  }

  /** The handle of watcher `w` was cancelled. */
  predicate IsCancelled(s: State, w: Tid) {
    WatcherAt(s, w) && s.threads[w].gen in s.core.handleTable && s.core.handleTable[s.threads[w].gen].cancelled
  }

  lemma WatcherNext(s: State, t: Tid) returns (step: WatcherStep)
    requires IsCancelled(s, t) && WatcherOk(s, t)
    requires !Returned(s.threads[t]) && !Waiting(s.threads[t])
    ensures !step.HelperStart? && !step.HelperLeave? && step.t == t
    ensures WatcherEnabled(s, step) && !GivesUp(s, ByWatcher(step))
  {
    match s.threads[t].wpc
    case Watching => step := WatcherCancelled(t);
    case Reconnecting => step := WatcherCancelled(t);
    case Succeeded(_, _) => step := WatcherSucceeded(t);
    case Retiring => step := WatcherRetire(t);
    case Rollback(_, _, unclaimed) => step := if unclaimed then WatcherRollbackClaim(t) else WatcherRollbackCheck(t);
    case Exiting => step := WatcherClose(t);
    case WatcherLeaving => step := WatcherLeave(t);
  }

  lemma WatcherIsReady(s: State, t: Tid)
    requires IsCancelled(s, t) && WatcherOk(s, t)
    requires !Returned(s.threads[t]) && !Waiting(s.threads[t])
    ensures Ready(s, t)
  {
    var step := WatcherNext(s, t);
    assert Takes(s, t, ByWatcher(step));
  }

  /** The wait of `t` is over already: it is ready itself. */
  lemma WaitIsOver(s: State, t: Tid, step: Step)
    requires t in s.threads && Takes(s, t, step)
    ensures Chain(s, [t])
  {
  }

  lemma WaitsOnReady(s: State, t: Tid, u: Tid)
    requires t in s.threads && u in s.threads && WaitsFor(s, t, u) && Ready(s, u)
    ensures Chain(s, [t, u])
  {
  }

  lemma Longer(s: State, t: Tid, chain: seq<Tid>)
    requires t in s.threads && Chain(s, chain) && WaitsFor(s, t, chain[0])
    ensures Chain(s, [t] + chain)
  {
    var longer := [t] + chain;
    forall i | 0 <= i < |longer| - 1
      ensures WaitsFor(s, longer[i], longer[i + 1])
    {
      if i > 0 { assert WaitsFor(s, chain[i - 1], chain[i]); }
    }
  }

  /** The owner of an unfinished attempt has not returned. */
  lemma OwnerIsThere(s: State, x: AttemptId)
    requires Reachable(s) && x in s.core.attemptTable && s.core.attemptTable[x].result.None?
    ensures
      var u := s.core.attemptTable[x].owner;
      && DetachAt(s, u) && !Returned(s.threads[u])
      && match s.core.attemptTable[x].target
         case OnHandle(g) => OwnsHandle(s.threads[u], g, x) && g in s.core.handleTable && OwnerOk(s, u)
         case OnPort(_) => OwnsPort(s.threads[u], x)
  {
    ReachableInv(s);
    assert AttemptOk(s, x);
    ThreadFacts(s, s.core.attemptTable[x].owner);
  }

  /** From the owner of an attempt on `g`: at most to the watcher of `g`, and
      from there only to younger generations. */
  lemma {:induction false} OwnerChain(s: State, t: Tid, g: Gen, bound: nat) returns (chain: seq<Tid>)
    requires Reachable(s) && OwnerAt(s, t) && s.threads[t].dpc.gen == g && OwnerOk(s, t)
    requires s.nextTid <= s.core.handleTable[g].op + bound
    ensures Chain(s, chain) && chain[0] == t
    decreases bound, 1
  {
    var h := s.core.handleTable[g];
    HandleFacts(s, g);
    match s.threads[t].dpc.phase
    case Unstarted =>
      AttachIsReady(s, h.op);
      WaitsOnReady(s, t, h.op);
      chain := [t, h.op];
    case AwaitWatcher => chain := SlotChain(s, t, g, bound);
    case _ =>
      DetachIsReady(s, t);
      chain := [t];
  }

  lemma {:induction false} SlotChain(s: State, t: Tid, g: Gen, bound: nat) returns (chain: seq<Tid>)
    requires Reachable(s) && OwnerAt(s, t) && s.threads[t].dpc.gen == g && OwnerOk(s, t)
    requires s.threads[t].dpc.phase.AwaitWatcher? && s.nextTid <= s.core.handleTable[g].op + bound
    ensures Chain(s, chain) && chain[0] == t
    decreases bound, 0
  {
    var h := s.core.handleTable[g];
    HandleFacts(s, g);
    match h.watcher
    case Promised =>
      AttachIsReady(s, h.op);
      WaitsOnReady(s, t, h.op);
      chain := [t, h.op];
    case Running(v) =>
      ThreadFacts(s, v);
      FreshFacts(s);
      var rest := WatcherChain(s, v, bound - 1);
      Longer(s, t, rest);
      chain := [t] + rest;
    case _ =>
      WaitIsOver(s, t, ByDetach(OwnerCheck(t, false)));
      chain := [t];
  }

  lemma {:induction false} WatcherChain(s: State, w: Tid, bound: nat) returns (chain: seq<Tid>)
    requires Reachable(s) && WatcherAt(s, w) && !Returned(s.threads[w])
    requires Waiting(s.threads[w]) || IsCancelled(s, w)
    requires s.nextTid <= w + bound
    ensures Chain(s, chain) && chain[0] == w
    decreases bound, 2
  {
    ThreadFacts(s, w);
    match s.threads[w].wpc
    case Attempting(child) =>
      AttachIsReady(s, child);
      WaitsOnReady(s, w, child);
      chain := [w, child];
    case RollingBack(child) => chain := RollbackChain(s, w, bound);
    case Joining(x) => chain := JoinChain(s, w, bound);
    case _ =>
      WatcherIsReady(s, w);
      chain := [w];
  }

  lemma {:induction false} RollbackChain(s: State, w: Tid, bound: nat) returns (chain: seq<Tid>)
    requires Reachable(s) && WatcherAt(s, w) && s.threads[w].wpc.RollingBack? && s.nextTid <= w + bound
    ensures Chain(s, chain) && chain[0] == w
    decreases bound, 1
  {
    var d := s.threads[w].wpc.child;
    ThreadFacts(s, w);
    ThreadFacts(s, d);
    if s.threads[d].dpc.Owner? {
      FreshFacts(s);
      var rest := OwnerChain(s, d, s.threads[d].dpc.gen, bound - 1);
      Longer(s, w, rest);
      chain := [w] + rest;
    } else {
      DetachIsReady(s, d);
      WaitsOnReady(s, w, d);
      chain := [w, d];
    }
  }

  lemma {:induction false} JoinChain(s: State, w: Tid, bound: nat) returns (chain: seq<Tid>)
    requires Reachable(s) && WatcherAt(s, w) && s.threads[w].wpc.Joining? && s.nextTid <= w + bound
    ensures Chain(s, chain) && chain[0] == w
    decreases bound, 1
  {
    var x := s.threads[w].wpc.attempt;
    ThreadFacts(s, w);
    var a := s.core.attemptTable[x];
    if a.result.Some? {
      WaitIsOver(s, w, ByWatcher(WatcherJoined(w)));
      chain := [w];
    } else {
      OwnerIsThere(s, x);
      FreshFacts(s);
      var rest := OwnerChain(s, a.owner, a.target.gen, bound - 1);
      Longer(s, w, rest);
      chain := [w] + rest;
    }
  }

  lemma FollowerChain(s: State, t: Tid) returns (chain: seq<Tid>)
    requires Reachable(s) && DetachAt(s, t) && s.threads[t].dpc.Following?
    ensures Chain(s, chain) && chain[0] == t
  {
    var x := s.threads[t].dpc.attempt;
    ThreadFacts(s, t);
    var a := s.core.attemptTable[x];
    if a.result.Some? {
      WaitIsOver(s, t, ByDetach(DetachFollow(t)));
      chain := [t];
    } else {
      OwnerIsThere(s, x);
      match a.target
      case OnHandle(g) =>
        var rest := OwnerChain(s, a.owner, g, s.nextTid);
        Longer(s, t, rest);
        chain := [t] + rest;
      case OnPort(_) =>
        DetachIsReady(s, a.owner);
        WaitsOnReady(s, t, a.owner);
        chain := [t, a.owner];
    }
  }

  lemma PublicationChain(s: State, t: Tid) returns (chain: seq<Tid>)
    requires Reachable(s) && DetachAt(s, t) && s.threads[t].dpc.AwaitPublication?
    ensures Chain(s, chain) && chain[0] == t
  {
    var op := s.threads[t].dpc.op;
    ThreadFacts(s, t);
    ReachableSound(s);
    assert ReservationAwaited(s, op);
    if s.core.reservationTable[op].done {
      WaitIsOver(s, t, ByDetach(DetachPublication(t)));
      chain := [t];
    } else {
      AttachIsReady(s, op);
      WaitsOnReady(s, t, op);
      chain := [t, op];
    }
  }

  /** Whoever waits, waits for a chain of threads whose last one can move. */
  lemma WaitsEnd(s: State, t: Tid) returns (chain: seq<Tid>)
    requires Reachable(s) && t in s.threads && Waiting(s.threads[t])
    ensures Chain(s, chain) && chain[0] == t
  {
    ThreadFacts(s, t);
    if s.threads[t].WatcherT? {
      chain := WatcherChain(s, t, s.nextTid);
    } else if s.threads[t].dpc.Following? {
      chain := FollowerChain(s, t);
    } else if s.threads[t].dpc.AwaitPublication? {
      chain := PublicationChain(s, t);
    } else {
      chain := OwnerChain(s, t, s.threads[t].dpc.gen, s.nextTid);
    }
  }
}
