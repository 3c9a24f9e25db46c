/**
 * Attach and detach against a kernel port table that changes by itself
 * (internal/adapter/kernel/attach.go:51-94, 313-367).
 *
 * The class performs one call. The transition system below it interleaves the
 * small steps of any number of calls with the kernel and other processes:
 * every status file is read at its own moment, and nothing is assumed of the
 * kernel's verdict on a write.
 */
module VhciAllocator {
  import opened Base
  import opened VhciTopology
  import opened VhciPorts

  datatype Vdev = Vdev(hub: Hub, status: Status)

  type Table = map<U32, Vdev>

  /** The rows of a snapshot are the table's. */
  ghost predicate Shows(rows: seq<Row>, table: Table) {
    && (forall k :: 0 <= k < |rows| ==>
          rows[k].port in table && table[rows[k].port] == Vdev(rows[k].hub, rows[k].status))
    && (forall p :: p in table ==> Row(table[p].hub, p, table[p].status) in rows)
  }

  predicate FreeIn(table: Table, p: U32) { p in table && IsFree(table[p].status) }

  function ControllerOf(p: U32, block: U32): nat
    requires block > 0
  {
    p / block
  }

  /** The ports of controller `k`. */
  function BlockOf(table: Table, k: nat, block: U32): Table
    requires block > 0
  {
    map p | p in table && ControllerOf(p, block) == k :: table[p]
  }

  /** What a call has seen after reading controller `k` from `tables[k]`. */
  function Joined(tables: seq<Table>, block: U32): Table
    requires block > 0
  {
    if tables == [] then map[]
    else Joined(tables[..|tables| - 1], block) + BlockOf(tables[|tables| - 1], |tables| - 1, block)
  }

  /** Every file that parses shows its controller's ports as they were in the
      table it was read from. */
  ghost predicate FilesShow(files: seq<StatusFile>, tables: seq<Table>, block: U32)
    requires block > 0 && |files| < TWO_32
  {
    && |tables| == |files|
    && forall k :: 0 <= k < |files| ==> FileShows(files[k], k, tables[k], block)
  }

  ghost predicate FileShows(file: StatusFile, k: U32, table: Table, block: U32)
    requires block > 0
  {
    file.Lines? && RowsOf(file.lines, k, block).Ok? ==>
      Shows(RowsOf(file.lines, k, block).value, BlockOf(table, k, block))
  }

  lemma ShowsJoin(rows: seq<Row>, seen: Table, more: seq<Row>, table: Table)
    requires Shows(rows, seen) && Shows(more, table) && seen.Keys !! table.Keys
    ensures Shows(rows + more, seen + table)
  {
    forall p | p in seen + table
      ensures Row((seen + table)[p].hub, p, (seen + table)[p].status) in rows + more
    {
      if p in table {
        assert Row(table[p].hub, p, table[p].status) in more;
      } else {
        assert Row(seen[p].hub, p, seen[p].status) in rows;
      }
    }
  }

  lemma {:induction false} JoinedPorts(tables: seq<Table>, block: U32, p: U32)
    requires block > 0
    ensures p in Joined(tables, block) <==> ControllerOf(p, block) < |tables| && p in tables[ControllerOf(p, block)]
    ensures p in Joined(tables, block) ==> Joined(tables, block)[p] == tables[ControllerOf(p, block)][p]
    decreases |tables|
  {
    if tables != [] { JoinedPorts(tables[..|tables| - 1], block, p); }
  }

  lemma FilesBefore(files: seq<StatusFile>, tables: seq<Table>, block: U32)
    requires block > 0 && 0 < |files| < TWO_32 && FilesShow(files, tables, block)
    ensures FilesShow(files[..|files| - 1], tables[..|files| - 1], block)
  {
    var n := |files| - 1;
    forall k | 0 <= k < n
      ensures FileShows(files[..n][k], k, tables[..n][k], block)
    {
      assert FileShows(files[k], k, tables[k], block);
    }
  }

  lemma BlocksApart(tables: seq<Table>, table: Table, block: U32)
    requires block > 0
    ensures Joined(tables, block).Keys !! BlockOf(table, |tables|, block).Keys
  {
    forall p | p in Joined(tables, block)
      ensures p !in BlockOf(table, |tables|, block)
    {
      JoinedPorts(tables, block, p);
    }
  }

  /** The rows of all the files show the joined tables. */
  lemma {:induction false} RowsShowJoined(files: seq<StatusFile>, tables: seq<Table>, block: U32)
    requires block > 0 && |files| < TWO_32 && FilesShow(files, tables, block) && TableOf(files, block).Ok?
    ensures Shows(TableOf(files, block).value, Joined(tables, block))
    decreases |files|
  {
    if files != [] {
      var n := |files| - 1;
      FilesBefore(files, tables, block);
      RowsShowJoined(files[..n], tables[..n], block);
      assert FileShows(files[n], n, tables[n], block);
      BlocksApart(tables[..n], tables[n], block);
      ShowsJoin(
        TableOf(files[..n], block).value, Joined(tables[..n], block),
        RowsOf(files[n].lines, n, block).value, BlockOf(tables[n], n, block));
    }
  }

  // --- The calls -----------------------------------------------------------

  /** What a call sees that reads its topology and then `files`, file `k` from
      `tables[k]`. */
  ghost function SeenBy(nports: U32, controllers: U32, tables: seq<Table>): Table {
    match StatusOf(nports, controllers)
    case Ok(t) => if t.vhciPorts > 0 then Joined(tables, t.vhciPorts) else map[]
    case Err(_) => map[]
  }

  ghost predicate Observes(nports: U32, files: seq<StatusFile>, tables: seq<Table>)
    requires |files| < 0x8000_0000
  {
    match StatusOf(nports, |files|)
    case Ok(t) => t.vhciPorts > 0 ==> FilesShow(files, tables, t.vhciPorts)
    case Err(_) => true
  }

  /** The status files can be read and agree with `nports`. */
  ghost predicate Readable(nports: U32, files: seq<StatusFile>)
    requires |files| < 0x8000_0000
  {
    && nports > 0 && |files| > 0 && nports % (2 * |files|) == 0
    && AllFit(files, nports / |files|)
  }

  lemma ReadableIff(nports: U32, files: seq<StatusFile>)
    requires |files| < 0x8000_0000
    ensures Readable(nports, files) <==>
      StatusOf(nports, |files|).Ok? && TableOf(files, StatusOf(nports, |files|).value.vhciPorts).Ok?
    ensures StatusOf(nports, |files|).Ok? <==> nports > 0 && |files| > 0 && nports % (2 * |files|) == 0
  {
    if StatusOf(nports, |files|).Ok? {
      var t := StatusOf(nports, |files|).value;
      StatusIsExact(nports, |files|);
      StatusDivides(nports, |files|);
      TimesCommute(|files|, t.vhciPorts);
      BlockSplits(t.vhciPorts, |files|, 0);
      TableOfIff(files, t.vhciPorts);
    } else if nports > 0 && |files| > 0 && nports % (2 * |files|) == 0 {
      CompleteStatus(nports, |files|);
    }
  }

  /** A port that may be claimed: unused, or ready. */
  ghost predicate Claimable(table: Table, p: U32, superSpeed: bool) {
    && p in table && (table[p].status == Null || table[p].status == Available)
    && (table[p].hub == SS <==> superSpeed)
  }

  datatype Refusal = NoSnapshot | NoFreePort | Reserved | OutOfRange | KernelRefused | NotBound

  /** How a sysfs write ends; `Invalid` is EINVAL. */
  datatype Verdict = Accepted | Invalid | Refused

  /** The least free port of the hub among those seen. */
  ghost predicate Chooses(seen: Table, hub: Hub, p: U32) {
    && FreeIn(seen, p) && seen[p].hub == hub
    && forall q :: FreeIn(seen, q) && seen[q].hub == hub ==> p <= q
  }

  function SetStatus(table: Table, p: U32, s: Status): Table {
    if p in table then table[p := table[p].(status := s)] else table
  }

  /** What an attach that saw `seen` did: the port it offered to the hook, and
      the table before and after. */
  ghost predicate AttachDid(
    seen: Table, hub: Hub, hooked: Option<U32>, reserve: bool, write: Verdict, table: Table, table': Table)
  {
    && (hooked.Some? ==> Chooses(seen, hub, hooked.value))
    && table' == if hooked.Some? && reserve && write == Accepted then SetStatus(table, hooked.value, Used) else table
  }

  /** What a detach that saw `seen` did. */
  ghost predicate DetachDid(seen: Table, id: U32, ok: bool, table: Table, table': Table) {
    && (ok ==> id in seen && !FreeIn(seen, id))
    && table' == if ok then SetStatus(table, id, Null) else table
  }

  /** A port with a device on it, or a broken one. */
  ghost predicate InUse(table: Table, p: U32) {
    p in table && (table[p].status == Used || table[p].status == NotAssigned || table[p].status == ErrorStatus)
  }

  /** What a detach reports once its snapshot was read. */
  ghost function DetachOutcome(inRange: bool, inUse: bool, write: Verdict): Result<(), Refusal> {
    if !inRange then Err(OutOfRange)
    else if !inUse || write == Invalid then Err(NotBound)
    else if write == Refused then Err(KernelRefused)
    else Ok(())
  }

  class ImporterAdapter {
    /** The kernel's table, as the sysfs writes see it. */
    var table: Table

    constructor (table: Table)
      ensures this.table == table
    {
      this.table := table;
    }

    /**
     * AttachRemote with the status files it reads, file `k` while the kernel's
     * table was `tables[k]`; `reserve` is the hook's verdict and `write` the
     * kernel's. The hook is called with `hooked`, before the write.
     */
    method AttachRemote(
      nports: U32, files: seq<StatusFile>, ghost tables: seq<Table>, speed: U32, reserve: bool, write: Verdict)
      returns (r: Result<U32, Refusal>, hooked: Option<U32>)
      requires |files| < 0x8000_0000
      requires Observes(nports, files, tables)
      modifies this
      ensures
        var seen := SeenBy(nports, |files|, tables);
        AttachDid(seen, HubForSpeed(speed), hooked, reserve, write, old(table), table)
      ensures r.Ok? <==> hooked.Some? && reserve && write == Accepted
      ensures r.Ok? ==> hooked == Some(r.value)
      ensures r.Err? ==> table == old(table)
      ensures
        var seen := SeenBy(nports, |files|, tables);
        var superSpeed := speed == 5 || speed == 6;
        && (hooked.Some? ==>
              Claimable(seen, hooked.value, superSpeed)
              && forall p :: Claimable(seen, p, superSpeed) ==> hooked.value <= p)
        && (r == Err(NoFreePort) <==> Readable(nports, files) && forall p :: !Claimable(seen, p, superSpeed))
      ensures r == Err(NoSnapshot) <==> !Readable(nports, files)
      ensures r == Err(KernelRefused) <==> hooked.Some? && reserve && write != Accepted
      ensures r != Err(OutOfRange)
      ensures r == Err(Reserved) <==> hooked.Some? && !reserve
    {
      hooked := None;
      ReadableIff(nports, files);
      var topo := StatusOf(nports, |files|);
      if topo.Err? { return Err(NoSnapshot), None; }
      var t := topo.value;
      var rows := ReadStatusRows(files, t.vhciPorts);
      if rows.Err? { return Err(NoSnapshot), None; }
      StatusIsExact(nports, |files|);
      TableInBlocks(files, t.vhciPorts);
      RowsShowJoined(files, tables, t.vhciPorts);
      ghost var seen := Joined(tables, t.vhciPorts);
      var port, found := LowestFreePort(rows.value, HubForSpeed(speed));
      if !found {
        NoneIsFree(rows.value, seen, HubForSpeed(speed));
        return Err(NoFreePort), None;
      }
      LeastIsFree(rows.value, seen, HubForSpeed(speed), port);
      RowIsInRange(nports, |files|, port);
      hooked := Some(port);
      if !reserve { return Err(Reserved), hooked; }
      if !InRange(t, port) { return Err(OutOfRange), hooked; }
      if write != Accepted { return Err(KernelRefused), hooked; }
      table := SetStatus(table, port, Used);
      return Ok(port), hooked;
    }

    /** DetachPort: a port seen free or not at all, and one whose write fails
        with EINVAL, is not bound. */
    method DetachPort(nports: U32, files: seq<StatusFile>, ghost tables: seq<Table>, id: U32, write: Verdict)
      returns (r: Result<(), Refusal>)
      requires |files| < 0x8000_0000
      requires Observes(nports, files, tables)
      modifies this
      ensures !Readable(nports, files) ==> r == Err(NoSnapshot) || (r == Err(OutOfRange) && id >= nports)
      ensures Readable(nports, files) ==>
        r == DetachOutcome(id < nports, InUse(SeenBy(nports, |files|, tables), id), write)
      ensures DetachDid(SeenBy(nports, |files|, tables), id, r.Ok?, old(table), table)
      ensures r.Err? ==> table == old(table)
    {
      ReadableIff(nports, files);
      var topo := StatusOf(nports, |files|);
      if topo.Err? { return Err(NoSnapshot); }
      StatusIsExact(nports, |files|);
      if !InRange(topo.value, id) { return Err(OutOfRange); }
      var rows := ReadStatusRows(files, topo.value.vhciPorts);
      if rows.Err? { return Err(NoSnapshot); }
      RowsShowJoined(files, tables, topo.value.vhciPorts);
      var status := StatusForPort(rows.value, id);
      ShownStatus(rows.value, Joined(tables, topo.value.vhciPorts), id, status);
      if status.None? || IsFree(status.value) { return Err(NotBound); }
      match write {
        case Invalid => return Err(NotBound);
        case Refused => return Err(KernelRefused);
        case Accepted =>
          table := SetStatus(table, id, Null);
          return Ok(());
      }
    }
  }

  lemma ShownStatus(rows: seq<Row>, table: Table, id: U32, status: Option<Status>)
    requires Shows(rows, table)
    requires status.None? <==> forall k :: 0 <= k < |rows| ==> rows[k].port != id
    requires status.Some? ==> exists k :: 0 <= k < |rows| && rows[k] == Row(rows[k].hub, id, status.value)
    ensures (status.None? || IsFree(status.value)) <==> !InUse(table, id)
    ensures InUse(table, id) <==> id in table && !FreeIn(table, id)
  {
    if id in table {
      var k :| 0 <= k < |rows| && rows[k] == Row(table[id].hub, id, table[id].status);
      assert rows[k].port == id;
    }
  }

  lemma NoneIsFree(rows: seq<Row>, table: Table, desired: Hub)
    requires Shows(rows, table) && NoneFree(rows, desired)
    ensures forall p :: FreeIn(table, p) ==> table[p].hub != desired
  {
    forall p | FreeIn(table, p)
      ensures table[p].hub != desired
    {
      var k :| 0 <= k < |rows| && rows[k] == Row(table[p].hub, p, table[p].status);
      assert !Eligible(rows[k], desired);
    }
  }

  lemma LeastIsFree(rows: seq<Row>, table: Table, desired: Hub, port: U32)
    requires Shows(rows, table) && LeastFree(rows, desired, port)
    ensures Chooses(table, desired, port)
  {
    forall p | FreeIn(table, p) && table[p].hub == desired
      ensures port <= p
    {
      var k :| 0 <= k < |rows| && rows[k] == Row(table[p].hub, p, table[p].status);
      assert Eligible(rows[k], desired);
    }
  }

  // --- Runs of many calls --------------------------------------------------

  /** What happened to the ports, oldest first. */
  datatype Event = Granted(port: U32) | Released(port: U32) | Claimed(port: U32)

  datatype Request = ForAttach(hub: Hub) | ForDetach(port: U32)

  /** A call between taking and releasing portMutationMu. `since` is the length
      of the log when it took the lock. */
  datatype Call =
    | Reading(request: Request, since: nat, next: nat, seen: Table)
    | Chosen(hub: Hub, since: nat, port: U32)
    | Condemned(since: nat, port: U32)

  /** `block` and `controllers` are the topology. */
  datatype State = State(
    block: U32, controllers: nat,
    table: Table, lock: Option<nat>, calls: map<nat, Call>, log: seq<Event>)

  datatype Step =
    | Lock(t: nat, request: Request)
    | Read(t: nat)
    | Select(t: nat)
    | AttachWrite(t: nat)
    | Condemn(t: nat)
    | DetachWrite(t: nat)
    | Unlock(t: nat)
    | KernelFrees(port: U32)
    | OthersClaim(port: U32)

  ghost predicate ValidTopology(s: State) {
    s.block > 0 && forall p :: p in s.table ==> ControllerOf(p, s.block) < s.controllers
  }

  ghost predicate Init(s: State) {
    ValidTopology(s) && s.lock == None && s.calls == map[] && s.log == []
  }

  function SetCall(s: State, t: nat, call: Call): State { s.(calls := s.calls[t := call]) }

  function EndCall(s: State, t: nat): State { s.(lock := None, calls := s.calls - {t}) }

  function Mark(s: State, p: U32, status: Status, e: Event): State {
    s.(table := SetStatus(s.table, p, status), log := s.log + [e])
  }

  /**
   * `Unlock` is any return without an accepted write. An accepted attach
   * write takes the port whatever its status, and other processes may
   * take any port at any moment.
   */
  ghost predicate Next(s: State, step: Step, s': State) {
    match step
    case Lock(t, request) =>
      && s.lock == None
      && s' == SetCall(s, t, Reading(request, |s.log|, 0, map[])).(lock := Some(t))
    case Read(t) =>
      && t in s.calls && s.calls[t].Reading? && s.calls[t].next < s.controllers && s.block > 0
      && var Reading(request, since, k, seen) := s.calls[t];
         s' == SetCall(s, t, Reading(request, since, k + 1, seen + BlockOf(s.table, k, s.block)))
    case Select(t) =>
      && t in s.calls && s.calls[t].Reading? && s.calls[t].next == s.controllers
      && s.calls[t].request.ForAttach?
      && var Reading(ForAttach(hub), since, _, seen) := s.calls[t];
         exists p :: Chooses(seen, hub, p) && s' == SetCall(s, t, Chosen(hub, since, p))
    case AttachWrite(t) =>
      && t in s.calls && s.calls[t].Chosen?
      && s' == EndCall(Mark(s, s.calls[t].port, Used, Granted(s.calls[t].port)), t)
    case Condemn(t) =>
      && t in s.calls && s.calls[t].Reading? && s.calls[t].next == s.controllers
      && s.calls[t].request.ForDetach?
      && var Reading(ForDetach(p), since, _, seen) := s.calls[t];
         p in seen && !FreeIn(seen, p) && s' == SetCall(s, t, Condemned(since, p))
    case DetachWrite(t) =>
      && t in s.calls && s.calls[t].Condemned?
      && s' == EndCall(Mark(s, s.calls[t].port, Null, Released(s.calls[t].port)), t)
    case Unlock(t) => t in s.calls && s' == EndCall(s, t)
    case KernelFrees(p) => s' == Mark(s, p, Null, Released(p))
    case OthersClaim(p) => s' == Mark(s, p, Used, Claimed(p))
  }

  ghost predicate Run(states: seq<State>, steps: seq<Step>) {
    && |states| == |steps| + 1
    && Init(states[0])
    && forall i :: 0 <= i < |steps| ==> Next(states[i], steps[i], states[i + 1])
  }

  /** `p` was granted and not released since. */
  predicate Held(log: seq<Event>, p: U32) {
    if log == [] then false
    else
      match log[|log| - 1]
      case Granted(q) => q == p || Held(log[..|log| - 1], p)
      case Released(q) => q != p && Held(log[..|log| - 1], p)
      case Claimed(_) => Held(log[..|log| - 1], p)
  }

  ghost predicate Since(log: seq<Event>, since: nat, e: Event) {
    exists k :: since <= k < |log| && log[k] == e
  }

  /** What a call saw is still so, or the log says why not. A port it saw free
      is not held, whatever happened since. */
  ghost predicate SeenOk(s: State, since: nat, seen: Table, p: U32) {
    p in seen ==>
      && p in s.table && s.table[p].hub == seen[p].hub
      && (FreeIn(seen, p) ==> !Held(s.log, p) && (FreeIn(s.table, p) || Since(s.log, since, Claimed(p))))
      && (!FreeIn(seen, p) ==> !FreeIn(s.table, p) || Since(s.log, since, Released(p)))
  }

  /** Every port of a controller already read was seen. */
  ghost predicate SeenAll(s: State, next: nat, seen: Table) {
    s.block > 0 && forall p :: p in s.table && ControllerOf(p, s.block) < next ==> p in seen
  }

  ghost predicate ReadOk(s: State, since: nat, next: nat, seen: Table) {
    SeenAll(s, next, seen) && forall p :: SeenOk(s, since, seen, p)
  }

  ghost predicate ChoiceOk(s: State, hub: Hub, since: nat, p: U32) {
    && p in s.table && s.table[p].hub == hub && !Held(s.log, p)
    && (FreeIn(s.table, p) || Since(s.log, since, Claimed(p)))
    && forall q: U32 :: q < p && FreeIn(s.table, q) && s.table[q].hub == hub ==> Since(s.log, since, Released(q))
  }

  ghost predicate CallOk(s: State, call: Call) {
    && call.since <= |s.log|
    && match call
       case Reading(_, since, next, seen) => ReadOk(s, since, next, seen)
       case Chosen(hub, since, p) => ChoiceOk(s, hub, since, p)
       case Condemned(since, p) => p in s.table && (!FreeIn(s.table, p) || Since(s.log, since, Released(p)))
  }

  /** Only the lock's holder is inside, and no held port is free. */
  ghost predicate Inv(s: State) {
    && ValidTopology(s)
    && (forall t :: t in s.calls ==> s.lock == Some(t) && CallOk(s, s.calls[t]))
    && (forall p :: Held(s.log, p) ==> p in s.table && !FreeIn(s.table, p))
    && (forall i :: 0 <= i < |s.log| && s.log[i].Granted? ==> !Held(s.log[..i], s.log[i].port))
  }

  lemma LogGrows(log: seq<Event>, e: Event)
    requires forall i :: 0 <= i < |log| && log[i].Granted? ==> !Held(log[..i], log[i].port)
    requires e.Granted? ==> !Held(log, e.port)
    ensures
      var more := log + [e];
      && (forall i :: 0 <= i < |more| && more[i].Granted? ==> !Held(more[..i], more[i].port))
      && (forall p :: Held(more, p) <==> e == Granted(p) || (Held(log, p) && e != Released(p)))
  {
    var more := log + [e];
    assert more[..|more| - 1] == log;
    forall i | 0 <= i < |more| && more[i].Granted?
      ensures !Held(more[..i], more[i].port)
    {
      if i < |log| { assert more[..i] == log[..i]; }
    }
  }

  lemma SinceGrows(log: seq<Event>, e: Event, since: nat)
    requires since <= |log|
    ensures Since(log + [e], since, e)
    ensures forall f :: Since(log, since, f) ==> Since(log + [e], since, f)
  {
    assert (log + [e])[|log|] == e;
    forall f | Since(log, since, f)
      ensures Since(log + [e], since, f)
    {
      var k :| since <= k < |log| && log[k] == f;
      assert (log + [e])[k] == f;
    }
  }

  /** The kernel and other processes leave an explanation in the log. */
  lemma WorldKeepsCall(s: State, p: U32, status: Status, e: Event, call: Call)
    requires Inv(s) && CallOk(s, call)
    requires (e == Released(p) && status == Null) || (e == Claimed(p) && status == Used)
    ensures CallOk(Mark(s, p, status, e), call)
  {
    LogGrows(s.log, e);
    SinceGrows(s.log, e, call.since);
    if call.Reading? {
      forall q
        ensures SeenOk(Mark(s, p, status, e), call.since, call.seen, q)
      {
        assert SeenOk(s, call.since, call.seen, q);
      }
    }
  }

  lemma ReadKeeps(s: State, t: nat, s': State)
    requires Inv(s) && Next(s, Read(t), s')
    ensures CallOk(s', s'.calls[t])
  {
    var Reading(_, since, k, seen) := s.calls[t];
    forall p
      ensures SeenOk(s', since, s'.calls[t].seen, p)
    {
      assert SeenOk(s, since, seen, p);
    }
  }

  lemma SelectKeeps(s: State, since: nat, seen: Table, hub: Hub, p: U32)
    requires Inv(s) && ReadOk(s, since, s.controllers, seen) && Chooses(seen, hub, p)
    ensures ChoiceOk(s, hub, since, p)
  {
    assert SeenOk(s, since, seen, p);
    forall q: U32 | q < p && FreeIn(s.table, q) && s.table[q].hub == hub
      ensures Since(s.log, since, Released(q))
    {
      assert SeenOk(s, since, seen, q);
    }
  }

  lemma SelectStep(s: State, t: nat, s': State)
    requires Inv(s) && Next(s, Select(t), s')
    ensures Inv(s')
  {
    var Reading(ForAttach(hub), since, _, seen) := s.calls[t];
    SelectKeeps(s, since, seen, hub, s'.calls[t].port);
    assert ChoiceOk(s', hub, since, s'.calls[t].port);
  }

  lemma LockStep(s: State, t: nat, request: Request, s': State)
    requires Inv(s) && Next(s, Lock(t, request), s')
    ensures Inv(s')
  {
    assert CallOk(s', s'.calls[t]);
  }

  lemma ReadStep(s: State, t: nat, s': State)
    requires Inv(s) && Next(s, Read(t), s')
    ensures Inv(s')
  {
    ReadKeeps(s, t, s');
  }

  lemma CondemnStep(s: State, t: nat, s': State)
    requires Inv(s) && Next(s, Condemn(t), s')
    ensures Inv(s')
  {
    assert SeenOk(s, s.calls[t].since, s.calls[t].seen, s.calls[t].request.port);
  }

  lemma UnlockStep(s: State, t: nat, s': State)
    requires Inv(s) && Next(s, Unlock(t), s')
    ensures Inv(s')
  {
  }

  lemma WriteStep(s: State, step: Step, s': State)
    requires Inv(s) && Next(s, step, s') && (step.AttachWrite? || step.DetachWrite?)
    ensures Inv(s')
  {
    var p := s.calls[step.t].port;
    assert CallOk(s, s.calls[step.t]);
    LogGrows(s.log, if step.AttachWrite? then Granted(p) else Released(p));
  }

  lemma WorldStep(s: State, p: U32, status: Status, e: Event)
    requires Inv(s)
    requires (e == Released(p) && status == Null) || (e == Claimed(p) && status == Used)
    ensures Inv(Mark(s, p, status, e))
  {
    LogGrows(s.log, e);
    forall t | t in s.calls { WorldKeepsCall(s, p, status, e, s.calls[t]); }
  }

  lemma InvStep(s: State, step: Step, s': State)
    requires Inv(s) && Next(s, step, s')
    ensures Inv(s')
  {
    match step
    case Lock(t, request) => LockStep(s, t, request, s');
    case Read(t) => ReadStep(s, t, s');
    case Select(t) => SelectStep(s, t, s');
    case Condemn(t) => CondemnStep(s, t, s');
    case Unlock(t) => UnlockStep(s, t, s');
    case KernelFrees(p) => WorldStep(s, p, Null, Released(p));
    case OthersClaim(p) => WorldStep(s, p, Used, Claimed(p));
    case _ => WriteStep(s, step, s');
  }

  lemma {:induction false} InvRun(states: seq<State>, steps: seq<Step>, i: nat)
    requires Run(states, steps) && i < |states|
    ensures Inv(states[i])
    decreases i
  {
    if i > 0 {
      InvRun(states, steps, i - 1);
      InvStep(states[i - 1], steps[i - 1], states[i]);
    }
  }

  /**
   * At every attach write of every run the chosen port is still free, unless
   * another process claimed it after the call took the lock; and every lower
   * port of the hub that is free by now was released after that.
   */
  lemma ChosenPortIsStillFree(states: seq<State>, steps: seq<Step>, i: nat, t: nat)
    requires Run(states, steps) && i < |steps| && steps[i] == AttachWrite(t)
    ensures
      var s := states[i];
      && t in s.calls && s.calls[t].Chosen?
      && var Chosen(hub, since, p) := s.calls[t];
         && p in s.table && s.table[p].hub == hub
         && (FreeIn(s.table, p) || Since(s.log, since, Claimed(p)))
         && forall q: U32 :: q < p && FreeIn(s.table, q) && s.table[q].hub == hub ==> Since(s.log, since, Released(q))
  {
    InvRun(states, steps, i);
    assert Next(states[i], steps[i], states[i + 1]);
  }

  /** A detach write is aimed at a port in use, unless it was released after
      the call took the lock. */
  lemma CondemnedPortIsStillUsed(states: seq<State>, steps: seq<Step>, i: nat, t: nat)
    requires Run(states, steps) && i < |steps| && steps[i] == DetachWrite(t)
    ensures
      var s := states[i];
      && t in s.calls && s.calls[t].Condemned?
      && var Condemned(since, p) := s.calls[t];
         p in s.table && (!FreeIn(s.table, p) || Since(s.log, since, Released(p)))
  {
    InvRun(states, steps, i);
    assert Next(states[i], steps[i], states[i + 1]);
  }

  lemma {:induction false} HeldUntilReleased(log: seq<Event>, i: nat, p: U32)
    requires i < |log| && log[i] == Granted(p)
    requires forall k :: i < k < |log| ==> log[k] != Released(p)
    ensures Held(log, p)
    decreases |log|
  {
    if i < |log| - 1 { HeldUntilReleased(log[..|log| - 1], i, p); }
  }

  /**
   * Over any run, even if the kernel accepts every write and whatever other
   * processes claim, no port is granted twice without a release in between.
   */
  lemma NoLivePortIsGrantedTwice(states: seq<State>, steps: seq<Step>, i: nat, j: nat, p: U32)
    requires Run(states, steps)
    requires
      var log := states[|steps|].log;
      i < j < |log| && log[i] == Granted(p) && log[j] == Granted(p)
    ensures exists k :: i < k < j && states[|steps|].log[k] == Released(p)
  {
    InvRun(states, steps, |steps|);
    var log := states[|steps|].log;
    if forall k :: i < k < j ==> log[k] != Released(p) {
      assert log[..j][i] == Granted(p);
      HeldUntilReleased(log[..j], i, p);
    }
  }

  // --- The calls are the steps of a run ------------------------------------

  /** A call that has read `tables` and reads one more table. */
  lemma ReadIsStep(s: State, t: nat, request: Request, since: nat, tables: seq<Table>, s': State)
    requires s.block > 0 && |tables| < s.controllers
    requires t in s.calls && s.calls[t] == Reading(request, since, |tables|, Joined(tables, s.block))
    requires s' == SetCall(s, t, Reading(request, since, |tables| + 1, Joined(tables + [s.table], s.block)))
    ensures Next(s, Read(t), s')
  {
    assert (tables + [s.table])[..|tables|] == tables;
  }

  /**
   * What AttachRemote promises is what the steps of a call that has read every
   * file do: select and write, or unlock.
   */
  lemma AttachIsSteps(
    s: State, t: nat, since: nat, tables: seq<Table>, hub: Hub,
    hooked: Option<U32>, reserve: bool, write: Verdict, table': Table)
    returns (mid: State, after: State)
    requires s.block > 0 && t in s.calls
    requires s.calls[t] == Reading(ForAttach(hub), since, s.controllers, Joined(tables, s.block))
    requires AttachDid(Joined(tables, s.block), hub, hooked, reserve, write, s.table, table')
    ensures hooked.None? ==> mid == s && Next(s, Unlock(t), after)
    ensures hooked.Some? ==>
      && Next(s, Select(t), mid)
      && Next(mid, if reserve && write == Accepted then AttachWrite(t) else Unlock(t), after)
    ensures after.table == table'
  {
    mid := if hooked.Some? then SetCall(s, t, Chosen(hub, since, hooked.value)) else s;
    after := if hooked.Some? && reserve && write == Accepted
             then EndCall(Mark(mid, hooked.value, Used, Granted(hooked.value)), t)
             else EndCall(mid, t);
  }

  /** The same for DetachPort. */
  lemma DetachIsSteps(s: State, t: nat, since: nat, tables: seq<Table>, id: U32, ok: bool, table': Table)
    returns (mid: State, after: State)
    requires s.block > 0 && t in s.calls
    requires s.calls[t] == Reading(ForDetach(id), since, s.controllers, Joined(tables, s.block))
    requires DetachDid(Joined(tables, s.block), id, ok, s.table, table')
    ensures if ok then Next(s, Condemn(t), mid) && Next(mid, DetachWrite(t), after)
            else mid == s && Next(s, Unlock(t), after)
    ensures after.table == table'
  {
    mid := if ok then SetCall(s, t, Condemned(since, id)) else s;
    after := if ok then EndCall(Mark(mid, id, Null, Released(id)), t) else EndCall(mid, t);
  }
}
