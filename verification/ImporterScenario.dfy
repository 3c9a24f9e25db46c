/**
 * A run that leads a rollback into the hazard: a device is attached and drops;
 * its watcher reconnects it to a second port while a Detach claims the first;
 * before the watcher rolls the second port back, that port drops as well and
 * another attach reserves it.
 */
module ImporterScenario {
  import opened Base
  import opened LifecycleGroup
  import opened ImporterCore
  import opened ImporterProtocol
  import opened ImporterRuns
  import opened ImporterTouch
  import opened ImporterCalm

  const FIRST: Port := 0
  const SECOND: Port := 1

  // --- Pieces of the run ---------------------------------------------------

  /** Nothing is known about the port. */
  predicate Blank(s: State, p: Port) {
    p !in s.live && p !in s.core.handles && p !in s.core.reservations && p !in s.core.untracked
  }

  /** Everything about port `q`, generation `k` and the threads `us` is as before. */
  ghost predicate Aside(s: State, s': State, q: Port, k: Gen, us: set<Tid>) {
    && (q !in s.live ==> q !in s'.live) && (q !in s.core.handles ==> q !in s'.core.handles)
    && (q !in s.core.reservations ==> q !in s'.core.reservations)
    && (q !in s.core.untracked ==> q !in s'.core.untracked)
    && s'.core.closed == s.core.closed
    && (IsCurrent(s.core, q, k) ==> IsCurrent(s'.core, q, k))
    && (k in s.core.handleTable ==> k in s'.core.handleTable && s'.core.handleTable[k] == s.core.handleTable[k])
    && (forall u :: u in us ==> u in s.threads && Untouched(s, s', u))
  }

  lemma AsideOn(s: State, m: State, e: State, q: Port, k: Gen, us: set<Tid>)
    requires Aside(s, m, q, k, us) && Aside(m, e, q, k, us)
    ensures Aside(s, e, q, k, us)
  {
  }

  predicate Dials(s: State, c: Tid, p: Port) {
    && AttachAt(s, c) && s.threads[c].auto && s.threads[c].apc.Dialing? && Blank(s, p) && !s.core.closed
  }

  predicate Reserves(s: State, c: Tid, p: Port, handoff: HandoffPhase) {
    && AttachAt(s, c) && s.threads[c].auto && s.threads[c].apc == Handing(p, handoff) && !s.core.closed
    && p !in s.core.handles && p !in s.core.untracked
    && p in s.core.reservations && s.core.reservations[p] == c
    && c in s.core.reservationTable && !s.core.reservationTable[c].teardown
  }

  /** Attach `c` has published generation `g` and will start its watcher. */
  predicate Published(s: State, c: Tid, p: Port, g: Gen) {
    && AttachAt(s, c) && s.threads[c].auto && s.threads[c].apc == Publishing(p, g, None, true) && !s.core.closed
    && IsCurrent(s.core, p, g) && p !in s.core.reservations && p !in s.core.untracked
    && g in s.core.handleTable && s.core.handleTable[g] == Handle(p, c, false, false, None, Promised)
  }

  predicate SameCaller(s: State, s': State, c: Tid) {
    && AttachAt(s, c)
    && (AttachAt(s', c) && s'.threads[c].parent == s.threads[c].parent && s'.threads[c].key == s.threads[c].key)
  }

  lemma SelectPiece(s: State, c: Tid, p: Port, q: Port, k: Gen, us: set<Tid>)
    requires Dials(s, c, p) && q != p && us <= s.threads.Keys && c !in us
    ensures
      var m := DoAttachSelect(s, c, p);
      && CanAttachSelect(s, c, p) && Reserves(m, c, p, Reserved) && p !in m.live
      && SameCaller(s, m, c) && Aside(s, m, q, k, us)
      && m.core.nextGen == s.core.nextGen
  {
  }

  lemma KernelPiece(s: State, c: Tid, p: Port, q: Port, k: Gen, us: set<Tid>)
    requires Reserves(s, c, p, Reserved) && q != p && us <= s.threads.Keys && c !in us
    ensures
      var m := DoAttachKernel(s, c, true);
      CanAttachKernel(s, c) && Reserves(m, c, p, HandedOff) && SameCaller(s, m, c) && Aside(s, m, q, k, us)
      && m.core.nextGen == s.core.nextGen
  {
  }

  lemma RegisterPiece(s: State, c: Tid, p: Port, q: Port, k: Gen, us: set<Tid>)
    requires Reserves(s, c, p, HandedOff) && q != p && us <= s.threads.Keys && c !in us && k != s.core.nextGen + 1
    ensures
      var m := DoAttachRegister(s, c);
      && CanAttachRegister(s, c) && Published(m, c, p, s.core.nextGen + 1)
      && SameCaller(s, m, c) && Aside(s, m, q, k, us)
  {
  }

  /** Generation `g` is attached on `p` and watched by `v`. */
  predicate Attached(s: State, v: Tid, p: Port, g: Gen) {
    && IsCurrent(s.core, p, g) && p !in s.core.reservations && p !in s.core.untracked && !s.core.closed
    && g in s.core.handleTable && s.core.handleTable[g].port == p && s.core.handleTable[g].attempt.None?
    && !s.core.handleTable[g].detaching && s.core.handleTable[g].watcher == Running(v)
    && WatcherAt(s, v) && s.threads[v].gen == g && s.threads[v].wpc.Watching?
  }

  predicate Leaves(s: State, c: Tid, p: Port, g: Gen, out: OutPhase) {
    AttachAt(s, c) && s.threads[c].apc == Out(Some((p, g)), out)
  }

  lemma CompletePiece(s: State, c: Tid, p: Port, g: Gen, q: Port, k: Gen, us: set<Tid>)
    requires Published(s, c, p, g) && us <= s.threads.Keys && c !in us
    ensures
      var m := DoAttachComplete(s, c);
      && CanAttachComplete(s, c) && CanAttachLaunch(m, c) && m.threads[c].auto
      && m.threads[c].apc == Publishing(p, g, None, false)
      && Published(SetA(m, c, Publishing(p, g, None, true)), c, p, g)
      && SameCaller(s, m, c) && Aside(s, m, q, k, us)
  {
  }

  lemma LaunchPiece(s: State, c: Tid, p: Port, g: Gen, q: Port, k: Gen, us: set<Tid>)
    requires AttachAt(s, c) && s.threads[c].auto && s.threads[c].apc == Publishing(p, g, None, false)
    requires Published(SetA(s, c, Publishing(p, g, None, true)), c, p, g)
    requires us <= s.threads.Keys && c !in us && s.nextTid !in s.threads && k != g
    ensures
      var m := DoAttachLaunch(s, c);
      && CanAttachLaunch(s, c) && Attached(m, s.nextTid, p, g) && m.threads[s.nextTid].key == s.threads[c].key
      && Leaves(m, c, p, g, Releasing) && SameCaller(s, m, c) && Aside(s, m, q, k, us)
  {
  }

  lemma ReleasePiece(s: State, c: Tid, v: Tid, p: Port, g: Gen, q: Port, k: Gen, us: set<Tid>)
    requires Attached(s, v, p, g) && Leaves(s, c, p, g, Releasing) && us <= s.threads.Keys && c !in us
    ensures
      var m := DoAttachRelease(s, c);
      && CanAttachRelease(s, c) && Attached(m, v, p, g) && m.threads[v] == s.threads[v]
      && s.threads[c].key !in m.core.inFlight
      && Leaves(m, c, p, g, Leaving) && SameCaller(s, m, c) && Aside(s, m, q, k, us)
  {
  }

  /** Returning changes no map and no table. */
  lemma LeaveData(s: State, c: Tid)
    requires CanAttachLeave(s, c)
    ensures
      var m := DoAttachLeave(s, c);
      && MapsSame(s, m) && m.core.untracked == s.core.untracked && m.core.inFlight == s.core.inFlight
      && m.core.handleTable == s.core.handleTable
  {
  }

  lemma ReportThreads(s: State, c: Tid, w: Tid)
    requires CanAttachLeave(s, c) && s.threads[c].parent == Some(w) && WatcherAt(s, w)
    ensures
      var m := DoAttachLeave(s, c);
      && (forall u :: u in s.threads && u != c && u != w ==> Untouched(s, m, u))
      && WatcherAt(m, w) && m.threads[w].gen == s.threads[w].gen
      && (s.threads[c].apc.published.Some? ==>
            m.threads[w].wpc == Succeeded(s.threads[c].apc.published.value.0, s.threads[c].apc.published.value.1))
  {
  }

  lemma LeavePiece(s: State, c: Tid, v: Tid, p: Port, g: Gen, q: Port, k: Gen, us: set<Tid>)
    requires Attached(s, v, p, g) && Leaves(s, c, p, g, Leaving) && us <= s.threads.Keys && c !in us
    requires s.threads[c].parent.None?
    ensures
      var m := DoAttachLeave(s, c);
      && CanAttachLeave(s, c) && Attached(m, v, p, g) && m.threads[v] == s.threads[v]
      && m.core.inFlight == s.core.inFlight && Aside(s, m, q, k, us)
  {
    LeaveData(s, c);
  }

  lemma ReportPiece(s: State, c: Tid, w: Tid, v: Tid, p: Port, g: Gen, q: Port, k: Gen, us: set<Tid>)
    requires Attached(s, v, p, g) && Leaves(s, c, p, g, Leaving) && us <= s.threads.Keys && c !in us
    requires s.threads[c].parent == Some(w) && WatcherAt(s, w) && w !in us && w != v
    ensures
      var m := DoAttachLeave(s, c);
      && CanAttachLeave(s, c) && Attached(m, v, p, g) && m.threads[v] == s.threads[v]
      && m.core.inFlight == s.core.inFlight && Aside(s, m, q, k, us)
      && WatcherAt(m, w) && m.threads[w].gen == s.threads[w].gen && m.threads[w].wpc == Succeeded(p, g)
  {
    LeaveData(s, c);
    ReportThreads(s, c, w);
  }

  /** Any attach whose port nobody else wants hands its socket over. */
  lemma HandoffRun(s: State, c: Tid, p: Port, q: Port, k: Gen, us: set<Tid>) returns (e: State)
    requires Reachable(s) && Dials(s, c, p) && q != p && us <= s.threads.Keys && c !in us
    ensures Reachable(e) && Reserves(e, c, p, HandedOff) && SameCaller(s, e, c)
    ensures Aside(s, e, q, k, us) && e.core.nextGen == s.core.nextGen
  {
    SelectPiece(s, c, p, q, k, us);
    ReachableStep(s, ByAttach(AttachSelect(c, p)));
    var m := DoAttachSelect(s, c, p);
    KernelPiece(m, c, p, q, k, us);
    ReachableStep(m, ByAttach(AttachKernel(c, true)));
    e := DoAttachKernel(m, c, true);
    AsideOn(s, m, e, q, k, us);
  }

  /** It then publishes a handle. */
  lemma PublishRun(s: State, c: Tid, p: Port, q: Port, k: Gen, us: set<Tid>) returns (e: State, g: Gen)
    requires Reachable(s) && Dials(s, c, p) && q != p && us <= s.threads.Keys && c !in us && k <= s.core.nextGen
    ensures Reachable(e) && Published(e, c, p, g) && SameCaller(s, e, c) && Aside(s, e, q, k, us) && g != k
  {
    var m := HandoffRun(s, c, p, q, k, us);
    RegisterPiece(m, c, p, q, k, us);
    ReachableStep(m, ByAttach(AttachRegister(c)));
    e, g := DoAttachRegister(m, c), m.core.nextGen + 1;
    AsideOn(s, m, e, q, k, us);
  }

  /** The watcher has the attach's key, and the key is free. */
  predicate Inherits(s: State, c: Tid, m: State, v: Tid) {
    && AttachAt(s, c) && WatcherAt(m, v) && m.threads[v].key == s.threads[c].key && SlotFree(m, v)
    && v !in s.threads
  }

  /** It starts the watcher and frees its slot. */
  lemma LaunchRun(s: State, c: Tid, p: Port, g: Gen, q: Port, k: Gen, us: set<Tid>) returns (m: State, v: Tid)
    requires Reachable(s) && Published(s, c, p, g) && us <= s.threads.Keys && c !in us && k != g
    ensures Reachable(m) && Attached(m, v, p, g) && Leaves(m, c, p, g, Leaving) && Inherits(s, c, m, v)
    ensures SameCaller(s, m, c) && Aside(s, m, q, k, us)
  {
    CompletePiece(s, c, p, g, q, k, us);
    ReachableStep(s, ByAttach(AttachComplete(c)));
    var s1 := DoAttachComplete(s, c);
    FreshFacts(s1);
    LaunchPiece(s1, c, p, g, q, k, us);
    ReachableStep(s1, ByAttach(AttachLaunch(c)));
    var s2 := DoAttachLaunch(s1, c);
    v := s1.nextTid;
    ReleasePiece(s2, c, v, p, g, q, k, us);
    ReachableStep(s2, ByAttach(AttachRelease(c)));
    m := DoAttachRelease(s2, c);
  }

  // --- The run -------------------------------------------------------------

  const FRESH: State := State(NEW_IMPORTER, map[], 0, 0, map[], {}, 0, None)

  lemma StartPiece(s: State, key: Key, auto: bool)
    requires !s.core.closed && key !in s.core.inFlight && s.nextTid !in s.threads
    ensures
      var m := DoAttachStart(s, key, auto);
      && AttachAt(m, s.nextTid) && m.threads[s.nextTid] == AttachT(key, auto, None, Dialing)
      && m.live == s.live && m.core.nextGen == s.core.nextGen && m.core.handleTable == s.core.handleTable
      && m.core.handles == s.core.handles && m.core.reservations == s.core.reservations
      && m.core.untracked == s.core.untracked && !m.core.closed
      && (forall u :: u in s.threads ==> Untouched(s, m, u))
  {
  }

  predicate OnItsOwn(s: State, c: Tid) { AttachAt(s, c) && s.threads[c].parent.None? }

  lemma FirstDial() returns (s: State, c: Tid)
    ensures Reachable(s) && Dials(s, c, FIRST) && OnItsOwn(s, c) && Blank(s, SECOND)
  {
    RunNowhere(FRESH);
    assert Init(FRESH);
    StartPiece(FRESH, 7, true);
    ReachableStep(FRESH, ByAttach(AttachStart(7, true)));
    s, c := DoAttachStart(FRESH, 7, true), FRESH.nextTid;
  }

  /** A device is attached on the first port. */
  lemma FirstAttach() returns (s: State, v: Tid, g: Gen)
    ensures Reachable(s) && Attached(s, v, FIRST, g) && SlotFree(s, v) && Blank(s, SECOND)
  {
    var s1, c := FirstDial();
    var s2;
    s2, g := PublishRun(s1, c, FIRST, SECOND, 0, {});
    var s3;
    s3, v := LaunchRun(s2, c, FIRST, g, SECOND, 0, {});
    LeavePiece(s3, c, v, FIRST, g, SECOND, 0, {});
    ReachableStep(s3, ByAttach(AttachLeave(c)));
    s := DoAttachLeave(s3, c);
  }

  // --- The device drops, and a Detach meets the reconnect ------------------

  /** The watcher of `k` on port `p` retries, and port `q` is there to take. */
  predicate Retrying(s: State, w: Tid, c: Tid, k: Gen, p: Port, q: Port) {
    && WatcherAt(s, w) && s.threads[w].gen == k && s.threads[w].wpc == Attempting(c)
    && Dials(s, c, q) && s.threads[c].parent == Some(w)
    && IsCurrent(s.core, p, k) && p !in s.core.reservations && p !in s.core.untracked && p !in s.live
    && k in s.core.handleTable && k <= s.core.nextGen && s.core.handleTable[k].attempt.None?
  }

  /** The device of watcher `v` has no attach under way. */
  predicate SlotFree(s: State, v: Tid) { WatcherAt(s, v) && s.threads[v].key !in s.core.inFlight }

  /** The watcher has seen its port `p` free. */
  predicate Dropped(s: State, w: Tid, k: Gen, p: Port) {
    && CanWatcherAttempt(s, w) && s.threads[w].gen == k && SlotFree(s, w) && p !in s.live && !s.core.closed
    && IsCurrent(s.core, p, k) && p !in s.core.reservations && p !in s.core.untracked
    && k in s.core.handleTable && s.core.handleTable[k].attempt.None?
  }

  ghost predicate OthersStay(s: State, m: State, w: Tid) {
    forall u :: u in s.threads && u != w ==> Untouched(s, m, u)
  }

  lemma DropPiece(s: State, w: Tid, k: Gen, p: Port, q: Port)
    requires Attached(s, w, p, k) && SlotFree(s, w) && Blank(s, q)
    ensures
      var m := DoKernelDrop(s, p);
      && CanWatcherDetect(m, w)
      && var n := DoWatcherDetect(m, w);
         && Dropped(n, w, k, p) && Blank(n, q) && n.core == s.core && n.nextTid == s.nextTid
         && n.threads.Keys == s.threads.Keys && OthersStay(s, n, w)
  {
  }

  lemma AttemptPiece(s: State, w: Tid, k: Gen, p: Port, q: Port)
    requires Dropped(s, w, k, p) && Blank(s, q) && s.nextTid !in s.threads && k <= s.core.nextGen
    ensures
      var m := DoWatcherAttempt(s, w);
      && Retrying(m, w, s.nextTid, k, p, q) && m.core.handleTable == s.core.handleTable
      && OthersStay(s, m, w)
  {
  }

  lemma RetryRun(s: State, w: Tid, k: Gen, p: Port, q: Port) returns (m: State, c: Tid)
    requires Reachable(s) && Attached(s, w, p, k) && SlotFree(s, w) && Blank(s, q)
    ensures Reachable(m) && Retrying(m, w, c, k, p, q) && m.core.handleTable == s.core.handleTable && c !in s.threads
    ensures OthersStay(s, m, w)
  {
    FreshFacts(s);
    DropPiece(s, w, k, p, q);
    ReachableStep(s, ByWorld(KernelDrop(p)));
    var s1 := DoKernelDrop(s, p);
    ReachableStep(s1, ByWatcher(WatcherDetect(w)));
    var s2 := DoWatcherDetect(s1, w);
    AttemptPiece(s2, w, k, p, q);
    ReachableStep(s2, ByWatcher(WatcherAttempt(w)));
    m, c := DoWatcherAttempt(s2, w), s.nextTid;
  }

  /** A Detach has claimed generation `k` meanwhile. */
  predicate Claimed(s: State, w: Tid, c: Tid, k: Gen) {
    && WatcherAt(s, w) && s.threads[w].gen == k && s.threads[w].wpc == Attempting(c)
    && Dials(s, c, SECOND) && s.threads[c].parent == Some(w)
    && k in s.core.handleTable && k <= s.core.nextGen && s.core.handleTable[k].detaching
  }

  lemma DetachPiece(s: State, w: Tid, c: Tid, k: Gen)
    requires Retrying(s, w, c, k, FIRST, SECOND) && s.nextTid !in s.threads
    ensures
      var m := DoDetachStart(s, FIRST);
      CanDetachLook(m, s.nextTid) && Retrying(m, w, c, k, FIRST, SECOND) && m.threads[s.nextTid].port == FIRST
  {
  }

  lemma LookPiece(s: State, w: Tid, c: Tid, k: Gen, d: Tid)
    requires Retrying(s, w, c, k, FIRST, SECOND) && CanDetachLook(s, d) && s.threads[d].port == FIRST
    ensures Claimed(DoDetachLook(s, d), w, c, k)
  {
  }

  lemma DetachRun(s: State, w: Tid, c: Tid, k: Gen) returns (m: State)
    requires Reachable(s) && Retrying(s, w, c, k, FIRST, SECOND)
    ensures Reachable(m) && Claimed(m, w, c, k)
  {
    FreshFacts(s);
    DetachPiece(s, w, c, k);
    ReachableStep(s, ByDetach(DetachStart(FIRST)));
    var s1 := DoDetachStart(s, FIRST);
    LookPiece(s1, w, c, k, s.nextTid);
    ReachableStep(s1, ByDetach(DetachLook(s.nextTid)));
    m := DoDetachLook(s1, s.nextTid);
  }

  // --- The reconnect succeeds on the second port and has to be rolled back ---

  /** Watcher `w` of the claimed generation `k` has attached `g` on the second
      port. */
  predicate Reconnected(s: State, w: Tid, v: Tid, k: Gen, g: Gen, wpc: WatcherPc) {
    && WatcherAt(s, w) && s.threads[w].gen == k && s.threads[w].wpc == wpc && w != v
    && k in s.core.handleTable && s.core.handleTable[k].detaching && Attached(s, v, SECOND, g) && SlotFree(s, v)
  }

  function Ahead(g: Gen): WatcherPc { Succeeded(SECOND, g) }

  /** A rollback of `g` that is about to claim. */
  function RollsBack(g: Gen): WatcherPc { Rollback(SECOND, g, true) }

  lemma ReconnectRun(s: State, w: Tid, c: Tid, k: Gen) returns (m: State, v: Tid, g: Gen)
    requires Reachable(s) && Claimed(s, w, c, k)
    ensures Reachable(m) && Reconnected(m, w, v, k, g, Ahead(g))
  {
    var s1;
    s1, g := PublishRun(s, c, SECOND, FIRST, k, {w});
    var s2;
    s2, v := LaunchRun(s1, c, SECOND, g, FIRST, k, {w});
    assert w in {w} && Untouched(s, s1, w) && Untouched(s1, s2, w);
    ReportPiece(s2, c, w, v, SECOND, g, FIRST, k, {});
    ReachableStep(s2, ByAttach(AttachLeave(c)));
    m := DoAttachLeave(s2, c);
  }

  lemma RollbackPiece(s: State, w: Tid, v: Tid, k: Gen, g: Gen)
    requires Reconnected(s, w, v, k, g, Ahead(g))
    ensures
      && CanWatcherSucceeded(s, w)
      && var m := DoWatcherSucceeded(s, w);
         CanWatcherRollbackCheck(m, w) && Reconnected(DoWatcherRollbackCheck(m, w), w, v, k, g, RollsBack(g))
  {
  }

  /** A rollback is pending while the handle is attached on the second port. */
  lemma RollbackIsReachable() returns (s: State, w: Tid, v: Tid, k: Gen, g: Gen)
    ensures Reachable(s) && Reconnected(s, w, v, k, g, RollsBack(g))
  {
    var c;
    s, w, k := FirstAttach();
    s, c := RetryRun(s, w, k, FIRST, SECOND);
    s := DetachRun(s, w, c, k);
    s, v, g := ReconnectRun(s, w, c, k);
    RollbackPiece(s, w, v, k, g);
    ReachableStep(s, ByWatcher(WatcherSucceeded(w)));
    s := DoWatcherSucceeded(s, w);
    ReachableStep(s, ByWatcher(WatcherRollbackCheck(w)));
    s := DoWatcherRollbackCheck(s, w);
  }

  // --- Another attach reserves the second port -----------------------------

  /** The rollback of `g` is pending, and attach `b` has reserved its port. */
  predicate Contested(s: State, w: Tid, v: Tid, g: Gen, b: Tid, wpc: WatcherPc) {
    && WatcherAt(s, w) && s.threads[w].wpc == RollsBack(g)
    && IsCurrent(s.core, SECOND, g) && g in s.core.handleTable && s.core.handleTable[g].attempt.None?
    && s.core.handleTable[g].watcher == Running(v) && WatcherAt(s, v) && s.threads[v].wpc == wpc
    && SECOND in s.core.reservations && s.core.reservations[SECOND] == b
    && AttachAt(s, b) && s.threads[b].apc == Handing(SECOND, Reserved)
  }

  /** The rollback of `g` is pending, its watcher `v` is at `wpc`, and its port
      is free. */
  predicate Pending(s: State, w: Tid, v: Tid, g: Gen, wpc: WatcherPc) {
    && WatcherAt(s, w) && s.threads[w].wpc == RollsBack(g)
    && IsCurrent(s.core, SECOND, g) && g in s.core.handleTable && s.core.handleTable[g].attempt.None?
    && !s.core.handleTable[g].detaching
    && s.core.handleTable[g].watcher == Running(v) && WatcherAt(s, v) && s.threads[v].wpc == wpc
    && SECOND !in s.live && SECOND !in s.core.reservations && SECOND !in s.core.untracked && !s.core.closed
  }

  lemma RivalDialPiece(s: State, w: Tid, v: Tid, g: Gen, wpc: WatcherPc, key: Key)
    requires Pending(s, w, v, g, wpc) && key !in s.core.inFlight && s.nextTid !in s.threads
    ensures
      var m := DoAttachStart(s, key, false);
      Pending(m, w, v, g, wpc) && AttachAt(m, s.nextTid) && m.threads[s.nextTid].apc.Dialing?
  {
    StartPiece(s, key, false);
  }

  lemma RivalSelectPiece(s: State, w: Tid, v: Tid, g: Gen, wpc: WatcherPc, b: Tid)
    requires Pending(s, w, v, g, wpc) && AttachAt(s, b) && s.threads[b].apc.Dialing?
    ensures CanAttachSelect(s, b, SECOND) && Contested(DoAttachSelect(s, b, SECOND), w, v, g, b, wpc)
  {
  }

  lemma RivalRun(s: State, w: Tid, v: Tid, g: Gen, wpc: WatcherPc) returns (m: State, b: Tid)
    requires Reachable(s) && Pending(s, w, v, g, wpc)
    ensures Reachable(m) && Contested(m, w, v, g, b, wpc)
  {
    var key := UnusedNumber(s.core.inFlight);
    FreshFacts(s);
    RivalDialPiece(s, w, v, g, wpc, key);
    ReachableStep(s, ByAttach(AttachStart(key, false)));
    var s1 := DoAttachStart(s, key, false);
    b := s.nextTid;
    RivalSelectPiece(s1, w, v, g, wpc, b);
    ReachableStep(s1, ByAttach(AttachSelect(b, SECOND)));
    m := DoAttachSelect(s1, b, SECOND);
  }

  /** The whole run: a pending rollback whose port another attach has reserved. */
  lemma ContestedIsReachable() returns (s: State, w: Tid, v: Tid, g: Gen, b: Tid)
    ensures Reachable(s) && Contested(s, w, v, g, b, Watching)
  {
    var k;
    s, w, v, k, g := RollbackIsReachable();
    ReachableStep(s, ByWorld(KernelDrop(SECOND)));
    s := DoKernelDrop(s, SECOND);
    s, b := RivalRun(s, w, v, g, Watching);
  }

  // --- The same, with the handle's own watcher retiring it -----------------

  lemma UnusedPort(s: State) returns (q: Port)
    ensures Blank(s, q)
  {
    q := UnusedNumber(s.live.Keys + s.core.handles.Keys + s.core.reservations.Keys + s.core.untracked.Keys);
  }

  /** The rolled-back handle's own watcher `v` has reconnected elsewhere. */
  predicate Moved(s: State, w: Tid, v: Tid, g: Gen, c: Tid, q: Port, h: Gen) {
    && Leaves(s, c, q, h, Leaving) && s.threads[c].parent == Some(v) && Pending(s, w, v, g, Attempting(c))
    && s.threads[v].gen == g && w != v
  }

  lemma MoveRun(s: State, w: Tid, v: Tid, k: Gen, g: Gen) returns (e: State, c: Tid, q: Port, h: Gen)
    requires Reachable(s) && Reconnected(s, w, v, k, g, RollsBack(g))
    ensures Reachable(e) && Moved(e, w, v, g, c, q, h)
  {
    q := UnusedPort(s);
    var m;
    m, c := RetryRun(s, v, g, SECOND, q);
    assert Untouched(s, m, w);
    var n;
    n, h := PublishRun(m, c, q, SECOND, g, {w, v});
    var u;
    e, u := LaunchRun(n, c, q, h, SECOND, g, {w, v});
    AsideOn(m, n, e, SECOND, g, {w, v});
    assert w in {w, v} && v in {w, v} && Untouched(m, e, w) && Untouched(m, e, v);
  }

  lemma RetirePiece(s: State, w: Tid, v: Tid, g: Gen, c: Tid, q: Port, h: Gen)
    requires Moved(s, w, v, g, c, q, h)
    ensures
      && CanAttachLeave(s, c)
      && var m := DoAttachLeave(s, c);
         CanWatcherSucceeded(m, v) && Pending(DoWatcherSucceeded(m, v), w, v, g, Retiring)
  {
    LeaveData(s, c);
    ReportThreads(s, c, v);
  }

  /** A contested rollback whose handle is about to be retired. */
  lemma RetiringIsReachable() returns (s: State, w: Tid, v: Tid, g: Gen, b: Tid)
    ensures Reachable(s) && Contested(s, w, v, g, b, Retiring)
  {
    var k, c, q, h;
    s, w, v, k, g := RollbackIsReachable();
    s, c, q, h := MoveRun(s, w, v, k, g);
    RetirePiece(s, w, v, g, c, q, h);
    ReachableStep(s, ByAttach(AttachLeave(c)));
    s := DoAttachLeave(s, c);
    ReachableStep(s, ByWatcher(WatcherSucceeded(v)));
    s := DoWatcherSucceeded(s, v);
    s, b := RivalRun(s, w, v, g, Retiring);
  }
}
