/**
 * The state guarded by Exporter.mu and its critical sections
 * (internal/app/exporter.go:485-668, 800-861, 1098-1175): session accounting,
 * the Serve reservation and the shutdown snapshot.
 */
module ExporterRegistry {
  import opened Base

  type Sid = nat
  type Bus = nat
  type Peer = nat
  type Tid = nat

  datatype Entry = Entry(bus: Bus, peer: Peer)

  /** exporterLimits; a cap of zero is disabled. */
  datatype Limits = Limits(maxSessions: nat, maxPerPeer: nat)

  /** `loop` is the Serve whose acceptLoopExited channel is installed. */
  datatype Registry = Registry(
    shutdown: bool,
    serving: bool,
    listener: Option<Tid>,
    loop: Option<Tid>,
    sessions: map<Sid, Entry>,
    perPeer: map<Peer, nat>,
    retained: seq<Sid>)

  const NEW_REGISTRY: Registry := Registry(false, false, None, None, map[], map[], [])

  datatype Declined = AlreadyShutdown | MaxSessions | PerPeerLimit | DeviceAlreadyBound | ServeAlreadyRunning

  function Lookup(m: map<Peer, nat>, p: Peer): nat { if p in m then m[p] else 0 }

  predicate BusTaken(r: Registry, bus: Bus) { exists id :: id in r.sessions && r.sessions[id].bus == bus }

  function RegisterSession(r: Registry, cfg: Limits, id: Sid, e: Entry): (Registry, Option<Declined>) {
    if r.shutdown then (r, Some(AlreadyShutdown))
    else if cfg.maxSessions > 0 && |r.sessions| >= cfg.maxSessions then (r, Some(MaxSessions))
    else if cfg.maxPerPeer > 0 && Lookup(r.perPeer, e.peer) >= cfg.maxPerPeer then (r, Some(PerPeerLimit))
    else if BusTaken(r, e.bus) then (r, Some(DeviceAlreadyBound))
    else
      (Recorded(r, id, e), None)
  }

  function UnregisterSession(r: Registry, id: Sid): Registry {
    if id !in r.sessions then r
    else
      var p := r.sessions[id].peer;
      var n := Lookup(r.perPeer, p);
      var left := if n > 0 then n - 1 else 0;
      r.(sessions := r.sessions - {id},
         perPeer := if left == 0 then r.perPeer - {p} else r.perPeer[p := left])
  }

  // --- Accounting ----------------------------------------------------------

  function OfPeer(sessions: map<Sid, Entry>, p: Peer): set<Sid> {
    set id | id in sessions && sessions[id].peer == p
  }

  ghost predicate Counted(r: Registry) {
    forall p :: CountedFor(r, p)
  }

  ghost predicate Capped(r: Registry, cfg: Limits) {
    && (cfg.maxSessions > 0 ==> |r.sessions| <= cfg.maxSessions)
    && (cfg.maxPerPeer > 0 ==> forall p :: p in r.perPeer ==> r.perPeer[p] <= cfg.maxPerPeer)
  }

  ghost predicate DistinctDevices(r: Registry) {
    forall a, b :: a in r.sessions && b in r.sessions && r.sessions[a].bus == r.sessions[b].bus ==> a == b
  }

  /** Each counter is the number of live sessions of that peer with no zero
      entries, no enabled cap is exceeded, and no device has two sessions. */
  ghost predicate Accounts(r: Registry, cfg: Limits) { Counted(r) && Capped(r, cfg) && DistinctDevices(r) }

  /** The counter of one peer. */
  predicate CountedFor(r: Registry, p: Peer) {
    && (p in r.perPeer ==> r.perPeer[p] == |OfPeer(r.sessions, p)| && r.perPeer[p] > 0)
    && (p !in r.perPeer ==> OfPeer(r.sessions, p) == {})
  }

  function Recorded(r: Registry, id: Sid, e: Entry): Registry {
    r.(sessions := r.sessions[id := e], perPeer := r.perPeer[e.peer := Lookup(r.perPeer, e.peer) + 1])
  }

  lemma RecordedCounts(r: Registry, id: Sid, e: Entry, p: Peer)
    requires CountedFor(r, p) && id !in r.sessions
    ensures CountedFor(Recorded(r, id, e), p)
  {
    var r' := Recorded(r, id, e);
    if p == e.peer {
      assert OfPeer(r'.sessions, p) == OfPeer(r.sessions, p) + {id};
    } else {
      assert OfPeer(r'.sessions, p) == OfPeer(r.sessions, p);
    }
  }

  lemma RegisterCounts(r: Registry, id: Sid, e: Entry)
    requires Counted(r) && id !in r.sessions
    ensures Counted(Recorded(r, id, e))
  {
    forall p
      ensures CountedFor(Recorded(r, id, e), p)
    {
      RecordedCounts(r, id, e, p);
    }
  }

  lemma RegisterAccounts(r: Registry, cfg: Limits, id: Sid, e: Entry)
    requires Accounts(r, cfg) && id !in r.sessions
    ensures Accounts(RegisterSession(r, cfg, id, e).0, cfg)
    ensures RegisterSession(r, cfg, id, e).1.None? <==>
      && !r.shutdown
      && (cfg.maxSessions > 0 ==> |r.sessions| < cfg.maxSessions)
      && (cfg.maxPerPeer > 0 ==> |OfPeer(r.sessions, e.peer)| < cfg.maxPerPeer)
      && !BusTaken(r, e.bus)
    ensures
      var full := cfg.maxSessions > 0 && |r.sessions| == cfg.maxSessions;
      var crowded := cfg.maxPerPeer > 0 && |OfPeer(r.sessions, e.peer)| == cfg.maxPerPeer;
      var declined := RegisterSession(r, cfg, id, e).1;
      && (declined == Some(AlreadyShutdown) <==> r.shutdown)
      && (declined == Some(MaxSessions) <==> !r.shutdown && full)
      && (declined == Some(PerPeerLimit) <==> !r.shutdown && !full && crowded)
      && (declined == Some(DeviceAlreadyBound) <==> !r.shutdown && !full && !crowded && BusTaken(r, e.bus))
  {
    var (r', declined) := RegisterSession(r, cfg, id, e);
    assert CountedFor(r, e.peer);
    if declined.None? {
      RegisterCounts(r, id, e);
      assert |r'.sessions| == |r.sessions| + 1;
    }
  }

  lemma DroppedCounts(r: Registry, id: Sid, p: Peer)
    requires CountedFor(r, p) && id in r.sessions
    ensures CountedFor(UnregisterSession(r, id), p)
  {
    var r' := UnregisterSession(r, id);
    if p == r.sessions[id].peer {
      assert id in OfPeer(r.sessions, p);
      assert OfPeer(r'.sessions, p) == OfPeer(r.sessions, p) - {id};
      assert |OfPeer(r'.sessions, p)| == |OfPeer(r.sessions, p)| - 1;
    } else {
      assert OfPeer(r'.sessions, p) == OfPeer(r.sessions, p);
    }
  }

  lemma UnregisterCounts(r: Registry, id: Sid)
    requires Counted(r)
    ensures Counted(UnregisterSession(r, id))
  {
    if id in r.sessions {
      forall p
        ensures CountedFor(UnregisterSession(r, id), p)
      {
        DroppedCounts(r, id, p);
      }
    }
  }

  lemma UnregisterAccounts(r: Registry, cfg: Limits, id: Sid)
    requires Accounts(r, cfg)
    ensures Accounts(UnregisterSession(r, id), cfg) && id !in UnregisterSession(r, id).sessions
  {
    UnregisterCounts(r, id);
    if id in r.sessions {
      var r' := UnregisterSession(r, id);
      assert r.sessions.Keys == r'.sessions.Keys + {id};
      assert |r'.sessions| == |r'.sessions.Keys| && |r.sessions| == |r.sessions.Keys|;
    }
  }

  /** Unregistering the session just registered restores the registry. */
  lemma RegisterThenUnregister(r: Registry, cfg: Limits, id: Sid, e: Entry)
    requires Counted(r) && id !in r.sessions && RegisterSession(r, cfg, id, e).1.None?
    ensures UnregisterSession(RegisterSession(r, cfg, id, e).0, id) == r
  {
    assert CountedFor(r, e.peer);
    DroppedIsRestored(r, id, e);
  }

  lemma DroppedIsRestored(r: Registry, id: Sid, e: Entry)
    requires id !in r.sessions && (e.peer in r.perPeer ==> r.perPeer[e.peer] > 0)
    ensures UnregisterSession(Recorded(r, id, e), id) == r
  {
    var n := Lookup(r.perPeer, e.peer);
    assert r.sessions[id := e] - {id} == r.sessions;
    if n == 0 {
      assert r.perPeer[e.peer := 1] - {e.peer} == r.perPeer;
    } else {
      assert r.perPeer[e.peer := n + 1][e.peer := n] == r.perPeer;
    }
  }

  // --- Serve and Shutdown --------------------------------------------------

  function StartServing(r: Registry, t: Tid): (Registry, Option<Declined>) {
    if r.shutdown then (r, Some(AlreadyShutdown))
    else if r.serving then (r, Some(ServeAlreadyRunning))
    else (r.(serving := true, listener := None, loop := Some(t)), None)
  }

  function InstallListener(r: Registry, t: Tid): (Registry, Option<Declined>) {
    if r.shutdown then (r, Some(AlreadyShutdown)) else (r.(listener := Some(t)), None)
  }

  function StopServing(r: Registry): Registry { r.(serving := false, listener := None) }

  /** shutdownState: what one Shutdown call works on. */
  datatype Snapshot = Snapshot(first: bool, handles: seq<Sid>, listener: Option<Tid>, loop: Option<Tid>)

  predicate Lists(order: seq<Sid>, ids: set<Sid>) {
    && (forall i :: 0 <= i < |order| ==> order[i] in ids)
    && (forall id :: id in ids ==> id in order)
    && (forall i, j :: 0 <= i < j < |order| ==> order[i] != order[j])
  }

  /** captureShutdownState; `order` is the order the session map is iterated in. */
  function CaptureShutdown(r: Registry, order: seq<Sid>): (Registry, Snapshot) {
    var r' := if r.shutdown then r else r.(shutdown := true, listener := None, retained := order);
    (r', Snapshot(!r.shutdown, r'.retained, r.listener, r.loop))
  }

  /** Repeated Shutdowns see the first snapshot's handles and change nothing. */
  lemma RepeatShutdownSeesSameHandles(r: Registry, order: seq<Sid>, again: seq<Sid>)
    ensures
      var (r1, first) := CaptureShutdown(r, order);
      var (r2, second) := CaptureShutdown(r1, again);
      r2 == r1 && second.handles == first.handles && !second.first && (first.first ==> second.listener.None?)
  {
  }

  class Exporter {
    var shutdown: bool
    var serving: bool
    var listener: Option<Tid>
    var loop: Option<Tid>
    var sessions: map<Sid, Entry>
    var perPeer: map<Peer, nat>
    var retained: seq<Sid>
    const cfg: Limits

    ghost function View(): Registry
      reads this
    {
      Registry(shutdown, serving, listener, loop, sessions, perPeer, retained)
    }

    constructor (cfg: Limits)
      ensures View() == NEW_REGISTRY && this.cfg == cfg && Accounts(View(), cfg)
    {
      shutdown, serving, listener, loop := false, false, None, None;
      sessions, perPeer, retained := map[], map[], [];
      this.cfg := cfg;
    }

    method Register(id: Sid, e: Entry) returns (declined: Option<Declined>)
      modifies this`sessions, this`perPeer
      ensures (View(), declined) == RegisterSession(old(View()), cfg, id, e)
    {
      if shutdown { return Some(AlreadyShutdown); }
      if cfg.maxSessions > 0 && |sessions| >= cfg.maxSessions { return Some(MaxSessions); }
      var n := if e.peer in perPeer then perPeer[e.peer] else 0;
      if cfg.maxPerPeer > 0 && n >= cfg.maxPerPeer { return Some(PerPeerLimit); }
      var todo := sessions.Keys;
      while todo != {}
        invariant todo <= sessions.Keys
        invariant forall id :: id in sessions && id !in todo ==> sessions[id].bus != e.bus
        decreases todo
      {
        var existing :| existing in todo;
        if sessions[existing].bus == e.bus { return Some(DeviceAlreadyBound); }
        todo := todo - {existing};
      }
      sessions := sessions[id := e];
      perPeer := perPeer[e.peer := n + 1];
      return None;
    }

    method Unregister(id: Sid)
      modifies this`sessions, this`perPeer
      ensures View() == UnregisterSession(old(View()), id)
    {
      if id !in sessions { return; }
      var p := sessions[id].peer;
      sessions := sessions - {id};
      if p in perPeer && perPeer[p] > 0 { perPeer := perPeer[p := perPeer[p] - 1]; }
      if p !in perPeer || perPeer[p] == 0 { perPeer := perPeer - {p}; }
      assert perPeer == UnregisterSession(old(View()), id).perPeer;
    }

    method Start(t: Tid) returns (declined: Option<Declined>)
      modifies this`serving, this`listener, this`loop
      ensures (View(), declined) == StartServing(old(View()), t)
    {
      if shutdown { return Some(AlreadyShutdown); }
      if serving { return Some(ServeAlreadyRunning); }
      serving, listener, loop := true, None, Some(t);
      return None;
    }

    method Install(t: Tid) returns (declined: Option<Declined>)
      modifies this`listener
      ensures (View(), declined) == InstallListener(old(View()), t)
    {
      if shutdown { return Some(AlreadyShutdown); }
      listener := Some(t);
      return None;
    }

    method Stop()
      modifies this`serving, this`listener
      ensures View() == StopServing(old(View()))
    {
      serving, listener := false, None;
    }

    method Capture() returns (snapshot: Snapshot)
      modifies this`shutdown, this`listener, this`retained
      ensures snapshot.first ==> Lists(retained, sessions.Keys)
      ensures (View(), snapshot) == CaptureShutdown(old(View()), retained)
    {
      var first, was := !shutdown, listener;
      shutdown := true;
      if first {
        listener := None;
        var handles: seq<Sid> := [];
        var todo := sessions.Keys;
        while todo != {}
          invariant View() == old(View()).(shutdown := true, listener := None)
          invariant todo <= sessions.Keys && Lists(handles, sessions.Keys - todo)
          decreases todo
        {
          var id :| id in todo;
          var rest := todo - {id};
          ListsExtend(handles, sessions.Keys - todo, id);
          assert sessions.Keys - todo + {id} == sessions.Keys - rest;
          handles, todo := handles + [id], rest;
        }
        assert sessions.Keys - todo == sessions.Keys;
        retained := handles;
      }
      snapshot := Snapshot(first, retained, was, loop);
    }
  }

  lemma ListsExtend(order: seq<Sid>, ids: set<Sid>, id: Sid)
    requires Lists(order, ids) && id !in ids
    ensures Lists(order + [id], ids + {id})
  {
    forall x | x in ids + {id}
      ensures x in order + [id]
    {
      assert (order + [id])[|order|] == id;
      if x != id { assert x in order; }
    }
  }
}
