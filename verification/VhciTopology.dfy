/**
 * The VHCI topology of internal/adapter/kernel/topology.go: how many ports a
 * root hub has, which bus belongs to which controller and hub, and the flat
 * port numbers the kernel uses. Arithmetic is uint32 and wraps.
 */
module VhciTopology {
  import opened Base

  const TWO_32: int := 0x1_0000_0000

  type U32 = x: int | 0 <= x < TWO_32

  function Mul(a: U32, b: U32): U32 { a as int * b as int % TWO_32 }
  function Add(a: U32, b: U32): U32 { (a as int + b as int) % TWO_32 }

  datatype Hub = HS | SS
  datatype Location = Location(controller: U32, hub: Hub)

  datatype Failure =
    | ReadFailed
    | NoControllers
    | ZeroPorts
    | Inconsistent
    | Incomplete

  datatype StatusTopology = StatusTopology(controllers: U32, hcPorts: U32, vhciPorts: U32)
  datatype Topology = Topology(controllers: U32, hcPorts: U32, vhciPorts: U32, busMap: map<U32, Location>)

  // --- Discovery -----------------------------------------------------------

  /** What opening status or status.N gives; beyond the list it is absent. */
  datatype Probe = Present | Absent | Unreadable

  /** The probes before the first absent one. */
  function Leading(files: seq<Probe>): (n: nat)
    ensures n <= |files|
    ensures forall i :: 0 <= i < n ==> !files[i].Absent?
    ensures n < |files| ==> files[n].Absent?
  {
    if files == [] || files[0].Absent? then 0
    else
      var rest := Leading(files[1..]);
      assert forall i :: 0 <= i < rest ==> files[i + 1] == files[1..][i];
      rest + 1
  }

  /** probeControllerCount. The loop ends at the first absent index, which a
      uint32 index reaches only if there is one. */
  method ProbeControllerCount(files: seq<Probe>) returns (r: Result<U32, Failure>)
    requires |files| < TWO_32
    ensures r.Ok? <==> Leading(files) > 0 && Unreadable !in files[..Leading(files)]
    ensures r.Ok? ==> r.value == Leading(files)
    ensures r.Err? ==> r.error == if Leading(files) == 0 then NoControllers else ReadFailed
  {
    var count: U32 := 0;
    var i := 0;
    while i < |files| && !files[i].Absent?
      invariant 0 <= i <= Leading(files) && count == i && Unreadable !in files[..i]
    {
      if files[i].Unreadable? {
        assert files[i] in files[..Leading(files)];
        return Err(ReadFailed);
      }
      count := Add(count, 1);
      i := i + 1;
    }
    if count == 0 { return Err(NoControllers); }
    return Ok(count);
  }

  function DeriveHcPorts(nports: U32, controllers: U32): Result<U32, Failure> {
    if nports == 0 then Err(ZeroPorts)
    else
      var divisor := Mul(controllers, 2);
      if divisor == 0 || nports % divisor != 0 then Err(Inconsistent) else Ok(nports / divisor)
  }

  function StatusOf(nports: U32, controllers: U32): Result<StatusTopology, Failure> {
    match DeriveHcPorts(nports, controllers)
    case Err(e) => Err(e)
    case Ok(hc) => Ok(StatusTopology(controllers, hc, Mul(hc, 2)))
  }

  /** Below 2^31 controllers the port arithmetic does not wrap. */
  lemma StatusIsExact(nports: U32, controllers: U32)
    requires controllers < 0x8000_0000 && StatusOf(nports, controllers).Ok?
    ensures
      var t := StatusOf(nports, controllers).value;
      && t.hcPorts > 0 && t.vhciPorts == 2 * t.hcPorts && t.controllers > 0
      && t.controllers * t.vhciPorts == nports
  {
    var d := 2 * controllers;
    var hc := nports / d;
    ExactQuotient(nports, d);
    TimesGrows(2, d, hc);
    TimesGroups(controllers, hc);
  }

  lemma ExactQuotient(n: nat, d: nat)
    requires d > 0 && n % d == 0
    ensures d * (n / d) == n
  {
  }

  lemma TimesGroups(a: nat, b: nat)
    ensures a * (2 * b) == 2 * a * b
  {
  }

  lemma TimesGrows(a: nat, b: nat, c: nat)
    requires a <= b
    ensures a * c <= b * c
  {
  }

  /** The usb children of one vhci_hcd.N directory, by bus number. */
  datatype ControllerDir = MissingDir | UnreadableDir | Children(busnums: seq<U32>)

  /** The two buses of a controller, the lower one being its HS hub. */
  function WithController(m: map<U32, Location>, idx: U32, x: U32, y: U32): map<U32, Location> {
    var (low, high) := if x <= y then (x, y) else (y, x);
    m[low := Location(idx, HS)][high := Location(idx, SS)]
  }

  /** Every location of the first `n` controllers is reached by one bus. */
  ghost predicate Covers(m: map<U32, Location>, n: nat) {
    && (forall b :: b in m ==> m[b].controller < n)
    && (forall b, c :: b in m && c in m && m[b] == m[c] ==> b == c)
    && (forall l: Location :: l.controller < n ==> exists b :: b in m && m[b] == l)
  }

  /** The counting argument: a map that grew by two entries per controller has
      lost none of them to a repeated bus number. */
  ghost predicate Counted(m: map<U32, Location>, n: nat) {
    && |m| <= 2 * n
    && (forall b :: b in m ==> m[b].controller < n)
    && (|m| == 2 * n ==> Covers(m, n))
  }

  lemma InsertSize<K, V>(m: map<K, V>, k: K, v: V)
    ensures |m[k := v]| == |m| + if k in m then 0 else 1
  {
    if k in m { assert m[k := v].Keys == m.Keys; } else { assert m[k := v].Keys == m.Keys + {k}; }
    assert |m[k := v]| == |m[k := v].Keys| && |m| == |m.Keys|;
  }

  lemma CountedGrows(m: map<U32, Location>, idx: U32, x: U32, y: U32, m': map<U32, Location>, n: nat)
    requires Counted(m, idx) && m' == WithController(m, idx, x, y) && n == idx + 1
    ensures Counted(m', n)
  {
    var (low, high) := if x <= y then (x, y) else (y, x);
    var m1 := m[low := Location(idx, HS)];
    InsertSize(m, low, Location(idx, HS));
    InsertSize(m1, high, Location(idx, SS));
    if |m'| == 2 * n {
      assert Covers(m, idx) && low !in m && high !in m && low != high;
      CoversGrows(m, idx, low, high);
    }
  }

  lemma CoversGrows(m: map<U32, Location>, idx: U32, low: U32, high: U32)
    requires Covers(m, idx) && low !in m && high !in m && low != high
    ensures Covers(m[low := Location(idx, HS)][high := Location(idx, SS)], idx + 1)
  {
    var m2 := m[low := Location(idx, HS)][high := Location(idx, SS)];
    forall l: Location | l.controller < idx + 1
      ensures exists b :: b in m2 && m2[b] == l
    {
      if l.controller == idx {
        assert m2[low] == Location(idx, HS) && m2[high] == Location(idx, SS);
        assert l.hub == HS || l.hub == SS;
      } else {
        var b :| b in m && m[b] == l;
        assert m2[b] == l;
      }
    }
  }

  /** The bus map after the first `n` controllers, or the first failure. */
  function Folded(dirs: seq<ControllerDir>, n: nat): Result<map<U32, Location>, Failure>
    requires n <= |dirs| < TWO_32
  {
    if n == 0 then Ok(map[])
    else
      match Folded(dirs, n - 1)
      case Err(e) => Err(e)
      case Ok(m) =>
        match dirs[n - 1]
        case MissingDir => Err(Incomplete)
        case UnreadableDir => Err(ReadFailed)
        case Children(buses) =>
          if |buses| != 2 then Err(Incomplete) else Ok(WithController(m, n - 1, buses[0], buses[1]))
  }

  lemma NothingIsCounted()
    ensures Counted(map[], 0)
  {
  }

  lemma FoldedStep(dirs: seq<ControllerDir>, n: nat)
    requires 0 < n <= |dirs| < TWO_32 && Folded(dirs, n).Ok?
    ensures Folded(dirs, n - 1).Ok? && dirs[n - 1].Children? && |dirs[n - 1].busnums| == 2
    ensures
      Folded(dirs, n).value ==
      WithController(Folded(dirs, n - 1).value, n - 1, dirs[n - 1].busnums[0], dirs[n - 1].busnums[1])
  {
  }

  lemma FoldedParts(dirs: seq<ControllerDir>, n: nat)
    returns (m: map<U32, Location>, m': map<U32, Location>, x: U32, y: U32)
    requires 0 < n <= |dirs| < TWO_32 && Folded(dirs, n).Ok?
    ensures Folded(dirs, n - 1) == Ok(m) && Folded(dirs, n) == Ok(m') && m' == WithController(m, n - 1, x, y)
  {
    FoldedStep(dirs, n);
    m, m' := Folded(dirs, n - 1).value, Folded(dirs, n).value;
    x, y := dirs[n - 1].busnums[0], dirs[n - 1].busnums[1];
  }

  lemma {:induction false} FoldedIsCounted(dirs: seq<ControllerDir>, n: nat)
    requires n <= |dirs| < TWO_32 && Folded(dirs, n).Ok?
    ensures Counted(Folded(dirs, n).value, n)
  {
    if n == 0 {
      NothingIsCounted();
    } else {
      FoldedIsCounted(dirs, n - 1);
      var m, m', x, y := FoldedParts(dirs, n);
      CountedGrows(m, n - 1, x, y, m', n);
    }
  }

  lemma {:induction false} FoldedFails(dirs: seq<ControllerDir>, n: nat, m: nat)
    requires n <= m <= |dirs| < TWO_32 && Folded(dirs, n).Err?
    ensures Folded(dirs, m) == Folded(dirs, n)
    decreases m - n
  {
    if n < m { FoldedFails(dirs, n, m - 1); }
  }

  /** buildBusMap and appendControllerBusMap. */
  method BuildBusMap(dirs: seq<ControllerDir>) returns (r: Result<map<U32, Location>, Failure>)
    requires |dirs| < TWO_32
    ensures r == Folded(dirs, |dirs|)
  {
    var busMap: map<U32, Location> := map[];
    var idx := 0;
    while idx < |dirs|
      invariant 0 <= idx <= |dirs| && Folded(dirs, idx) == Ok(busMap)
    {
      if Folded(dirs, idx + 1).Err? { FoldedFails(dirs, idx + 1, |dirs|); }
      match dirs[idx]
      case MissingDir => return Err(Incomplete);
      case UnreadableDir => return Err(ReadFailed);
      case Children(buses) =>
        if |buses| != 2 { return Err(Incomplete); }
        busMap := WithController(busMap, idx, buses[0], buses[1]);
        idx := idx + 1;
    }
    return Ok(busMap);
  }

  /** What a successfully discovered topology guarantees. */
  ghost predicate Sound(t: Topology, nports: U32) {
    && t.hcPorts > 0 && t.vhciPorts == 2 * t.hcPorts
    && t.controllers * t.vhciPorts == nports
    && Covers(t.busMap, t.controllers)
  }

  /** The integers below `n`. */
  ghost function Below(n: nat): (r: set<int>)
    ensures |r| == n && forall i: int :: i in r <==> 0 <= i < n
  {
    if n == 0 then {} else Below(n - 1) + {n - 1}
  }

  lemma BusNumbersAreFew(m: map<U32, Location>)
    ensures |m| <= TWO_32
  {
    var keys: set<int> := set b | b in m;
    assert keys <= Below(TWO_32);
    SubsetSize(keys, Below(TWO_32));
    assert keys == m.Keys && |m| == |m.Keys|;
  }

  lemma {:induction false} SubsetSize<T>(a: set<T>, b: set<T>)
    requires a <= b
    ensures |a| <= |b|
  {
    assert b == a + (b - a);
  }

  /** discoverTopology, given the number of controllers found. */
  function Discovered(nports: U32, controllers: U32, dirs: seq<ControllerDir>): Result<Topology, Failure>
    requires |dirs| == controllers
  {
    match StatusOf(nports, controllers)
    case Err(e) => Err(e)
    case Ok(t) =>
      match Folded(dirs, |dirs|)
      case Err(e) => Err(e)
      case Ok(m) =>
        if |m| != 2 * controllers then Err(Incomplete)
        else Ok(Topology(controllers, t.hcPorts, t.vhciPorts, m))
  }

  method DiscoverTopology(nports: U32, controllers: U32, dirs: seq<ControllerDir>)
    returns (r: Result<Topology, Failure>)
    requires |dirs| == controllers
    ensures r == Discovered(nports, controllers, dirs)
  {
    var status := StatusOf(nports, controllers);
    if status.Err? { return Err(status.error); }
    var built := BuildBusMap(dirs);
    if built.Err? { return Err(built.error); }
    if |built.value| != 2 * controllers { return Err(Incomplete); }
    return Ok(Topology(controllers, status.value.hcPorts, status.value.vhciPorts, built.value));
  }

  /** Whenever discovery succeeds the topology is sound. With 2^31 controllers
      or more it cannot succeed: the map would need more bus numbers than
      there are, so nothing has to be assumed about their number. */
  lemma DiscoveredIsSound(nports: U32, controllers: U32, dirs: seq<ControllerDir>)
    requires |dirs| == controllers && Discovered(nports, controllers, dirs).Ok?
    ensures Sound(Discovered(nports, controllers, dirs).value, nports) && controllers < 0x8000_0000
  {
    FoldedIsCounted(dirs, |dirs|);
    BusNumbersAreFew(Folded(dirs, |dirs|).value);
    assert controllers != 0x8000_0000;
    StatusIsExact(nports, controllers);
  }

  // --- Exactly the complete topologies are accepted ------------------------

  /** Every one of the first `n` controllers has two children. */
  ghost predicate Paired(dirs: seq<ControllerDir>, n: nat)
    requires n <= |dirs|
  {
    forall i :: 0 <= i < n ==> dirs[i].Children? && |dirs[i].busnums| == 2
  }

  /** `b` is the number of child `a` of controller `i`. */
  predicate IsBus(dirs: seq<ControllerDir>, i: int, a: int, b: U32) {
    0 <= i < |dirs| && dirs[i].Children? && 0 <= a < |dirs[i].busnums| && dirs[i].busnums[a] == b
  }

  /** No bus number occurs twice among the first `n` controllers. */
  ghost predicate Distinct(dirs: seq<ControllerDir>, n: nat) {
    forall i, a, j, c, b :: i < n && j < n && IsBus(dirs, i, a, b) && IsBus(dirs, j, c, b) ==> i == j && a == c
  }

  ghost predicate Complete(nports: U32, dirs: seq<ControllerDir>) {
    && nports > 0 && |dirs| > 0 && nports % (2 * |dirs|) == 0
    && Paired(dirs, |dirs|) && Distinct(dirs, |dirs|)
  }

  lemma {:induction false} FoldedWhenPaired(dirs: seq<ControllerDir>, n: nat)
    requires n <= |dirs| < TWO_32
    ensures Folded(dirs, n).Ok? <==> Paired(dirs, n)
  {
    if n > 0 { FoldedWhenPaired(dirs, n - 1); }
  }

  lemma {:induction false} FoldedBuses(dirs: seq<ControllerDir>, n: nat, b: U32)
    requires n <= |dirs| < TWO_32 && Folded(dirs, n).Ok?
    ensures b in Folded(dirs, n).value <==> exists i, a :: i < n && IsBus(dirs, i, a, b)
  {
    if n > 0 {
      FoldedStep(dirs, n);
      FoldedBuses(dirs, n - 1, b);
      var m, buses := Folded(dirs, n - 1).value, dirs[n - 1].busnums;
      assert b in Folded(dirs, n).value <==> b in m || b == buses[0] || b == buses[1];
      assert b == buses[0] ==> IsBus(dirs, n - 1, 0, b);
      assert b == buses[1] ==> IsBus(dirs, n - 1, 1, b);
    }
  }

  lemma DistinctGrows(dirs: seq<ControllerDir>, n: nat)
    requires 0 < n <= |dirs| < TWO_32 && Folded(dirs, n).Ok? && Folded(dirs, n - 1).Ok?
    requires dirs[n - 1].Children? && |dirs[n - 1].busnums| == 2
    ensures
      var m, buses := Folded(dirs, n - 1).value, dirs[n - 1].busnums;
      Distinct(dirs, n) <==>
        Distinct(dirs, n - 1) && buses[0] !in m && buses[1] !in m && buses[0] != buses[1]
  {
    var m, buses := Folded(dirs, n - 1).value, dirs[n - 1].busnums;
    FoldedBuses(dirs, n - 1, buses[0]);
    FoldedBuses(dirs, n - 1, buses[1]);
    assert IsBus(dirs, n - 1, 0, buses[0]) && IsBus(dirs, n - 1, 1, buses[1]);
  }

  lemma {:induction false} FullMapIsDistinct(dirs: seq<ControllerDir>, n: nat)
    requires n <= |dirs| < TWO_32 && Folded(dirs, n).Ok?
    ensures |Folded(dirs, n).value| == 2 * n <==> Distinct(dirs, n)
  {
    if n > 0 {
      FoldedStep(dirs, n);
      FullMapIsDistinct(dirs, n - 1);
      FoldedIsCounted(dirs, n - 1);
      DistinctGrows(dirs, n);
      var m, x, y := Folded(dirs, n - 1).value, dirs[n - 1].busnums[0], dirs[n - 1].busnums[1];
      var (low, high) := if x <= y then (x, y) else (y, x);
      InsertSize(m, low, Location(n - 1, HS));
      InsertSize(m[low := Location(n - 1, HS)], high, Location(n - 1, SS));
    }
  }

  lemma DivisorIsSmall(n: nat, d: nat)
    requires n > 0 && d > 0 && n % d == 0
    ensures d <= n
  {
  }

  lemma CompleteStatus(nports: U32, controllers: U32)
    requires nports > 0 && controllers > 0 && nports % (2 * controllers) == 0
    ensures StatusOf(nports, controllers).Ok?
  {
    DivisorIsSmall(nports, 2 * controllers);
  }

  lemma StatusDivides(nports: U32, controllers: U32)
    requires controllers < 0x8000_0000 && StatusOf(nports, controllers).Ok?
    ensures nports > 0 && controllers > 0 && nports % (2 * controllers) == 0
  {
    assert Mul(controllers, 2) == 2 * controllers;
  }

  /** Discovery succeeds exactly on complete topologies. */
  lemma DiscoveredIffComplete(nports: U32, controllers: U32, dirs: seq<ControllerDir>)
    requires |dirs| == controllers
    ensures Discovered(nports, controllers, dirs).Ok? <==> Complete(nports, dirs)
  {
    FoldedWhenPaired(dirs, |dirs|);
    if Discovered(nports, controllers, dirs).Ok? {
      DiscoveredIsSound(nports, controllers, dirs);
      FullMapIsDistinct(dirs, |dirs|);
      StatusDivides(nports, controllers);
    } else if Complete(nports, dirs) {
      CompleteStatus(nports, controllers);
      FullMapIsDistinct(dirs, |dirs|);
    }
  }

  /** Controller `i` has not the two buses it should have. */
  predicate Broken(dirs: seq<ControllerDir>, i: nat) {
    i < |dirs| && (!dirs[i].Children? || |dirs[i].busnums| != 2)
  }

  predicate FirstBroken(dirs: seq<ControllerDir>, i: nat) {
    Broken(dirs, i) && forall j :: 0 <= j < i ==> !Broken(dirs, j)
  }

  /** How a broken controller is reported. */
  function Blame(dir: ControllerDir): Failure { if dir.UnreadableDir? then ReadFailed else Incomplete }

  lemma FirstBrokenDecides(dirs: seq<ControllerDir>, i: nat)
    requires |dirs| < TWO_32 && FirstBroken(dirs, i)
    ensures Folded(dirs, |dirs|) == Err(Blame(dirs[i]))
  {
    forall j | 0 <= j < i
      ensures dirs[j].Children? && |dirs[j].busnums| == 2
    {
      assert !Broken(dirs, j);
    }
    FoldedWhenPaired(dirs, i);
    BrokenStep(dirs, i);
    FoldedFails(dirs, i + 1, |dirs|);
  }

  lemma BrokenStep(dirs: seq<ControllerDir>, i: nat)
    requires |dirs| < TWO_32 && Broken(dirs, i) && Folded(dirs, i).Ok?
    ensures Folded(dirs, i + 1) == Err(Blame(dirs[i]))
  {
  }

  /** What a failed discovery reports: the port count first, then the first
      broken controller, then a bus number that occurs twice. */
  lemma DiscoveryFailsWith(nports: U32, controllers: U32, dirs: seq<ControllerDir>)
    requires |dirs| == controllers < 0x8000_0000
    ensures
      var r := Discovered(nports, controllers, dirs);
      if nports == 0 then r == Err(ZeroPorts)
      else if controllers == 0 || nports % (2 * controllers) != 0 then r == Err(Inconsistent)
      else
        && (forall i: nat :: FirstBroken(dirs, i) ==> r == Err(Blame(dirs[i])))
        && (Paired(dirs, controllers) && !Distinct(dirs, controllers) ==> r == Err(Incomplete))
  {
    assert Mul(controllers, 2) == 2 * controllers;
    if nports > 0 && controllers > 0 && nports % (2 * controllers) == 0 { CompleteStatus(nports, controllers); }
    FoldedWhenPaired(dirs, |dirs|);
    if Paired(dirs, controllers) { FullMapIsDistinct(dirs, |dirs|); }
    forall i: nat | FirstBroken(dirs, i)
      ensures Folded(dirs, |dirs|) == Err(Blame(dirs[i]))
    {
      FirstBrokenDecides(dirs, i);
    }
  }

  // --- Which bus is which hub ----------------------------------------------

  /** `x` and `y` are the buses of controller `i`, in either order. */
  ghost predicate HasBuses(dirs: seq<ControllerDir>, i: nat, x: U32, y: U32) {
    i < |dirs| && (dirs[i] == Children([x, y]) || dirs[i] == Children([y, x]))
  }

  lemma BusesAre(dirs: seq<ControllerDir>, i: nat, x: U32, y: U32)
    requires HasBuses(dirs, i, x, y)
    ensures (IsBus(dirs, i, 0, x) && IsBus(dirs, i, 1, y)) || (IsBus(dirs, i, 0, y) && IsBus(dirs, i, 1, x))
  {
  }

  lemma {:induction false} FoldedPlaces(dirs: seq<ControllerDir>, n: nat, i: nat, x: U32, y: U32)
    requires i < n <= |dirs| < TWO_32 && Folded(dirs, n).Ok? && Distinct(dirs, |dirs|)
    requires HasBuses(dirs, i, x, y) && x < y
    ensures
      var m := Folded(dirs, n).value;
      x in m && y in m && m[x] == Location(i, HS) && m[y] == Location(i, SS)
    decreases n
  {
    FoldedStep(dirs, n);
    if i < n - 1 {
      FoldedPlaces(dirs, n - 1, i, x, y);
      BusesAre(dirs, i, x, y);
      assert IsBus(dirs, n - 1, 0, dirs[n - 1].busnums[0]) && IsBus(dirs, n - 1, 1, dirs[n - 1].busnums[1]);
    }
  }

  /** Whatever order the children are listed in, the lower bus of a controller
      is its HS hub and the higher one its SS hub. */
  lemma LowerBusIsHighSpeed(nports: U32, controllers: U32, dirs: seq<ControllerDir>, i: nat, x: U32, y: U32)
    requires |dirs| == controllers && Discovered(nports, controllers, dirs).Ok?
    requires HasBuses(dirs, i, x, y) && x < y
    ensures
      var m := Discovered(nports, controllers, dirs).value.busMap;
      x in m && y in m && m[x] == Location(i, HS) && m[y] == Location(i, SS)
  {
    DiscoveredIffComplete(nports, controllers, dirs);
    FoldedPlaces(dirs, |dirs|, i, x, y);
  }

  // --- Flat port numbers ---------------------------------------------------

  function HubOffset(t: Topology, hub: Hub): U32 { if hub.SS? then t.hcPorts else 0 }

  function FlatPort(t: Topology, loc: Location, rhport0: U32): U32 {
    Add(Add(Mul(loc.controller, t.vhciPorts), HubOffset(t, loc.hub)), rhport0)
  }

  /** A bus of the topology and a 1-based root port on it. */
  predicate Names(t: Topology, bus: U32, root: U32) { bus in t.busMap && 1 <= root <= t.hcPorts }

  function PortOf(t: Topology, bus: U32, root: U32): U32
    requires Names(t, bus, root)
  {
    FlatPort(t, t.busMap[bus], root - 1)
  }

  /** Position inside the controller's block of ports. */
  function Slot(t: Topology, hub: Hub, root: U32): int { (if hub.SS? then t.hcPorts else 0) + root - 1 }

  lemma BlockFits(c: nat, n: nat, v: nat, r: nat)
    requires c < n && r < v
    ensures c * v + r < n * v
  {
    TimesGrows(c + 1, n, v);
    assert (c + 1) * v == c * v + v;
  }

  lemma QuotientIsUnique(a: nat, r: nat, b: nat, q: nat, v: nat)
    requires r < v && q < v && a * v + r == b * v + q
    ensures a == b && r == q
  {
    if a < b { TimesGrows(a + 1, b, v); }
    if b < a { TimesGrows(b + 1, a, v); }
  }

  lemma BlockSplits(c: nat, v: nat, r: nat)
    requires r < v
    ensures (c * v + r) / v == c && (c * v + r) % v == r
  {
    var p := c * v + r;
    assert p == p / v * v + p % v;
    QuotientIsUnique(c, r, p / v, p % v, v);
  }

  /** Below 2^32 the wrapping sum is the sum. */
  lemma FlatIsExact(t: Topology, loc: Location, rhport0: U32)
    requires loc.controller * t.vhciPorts + HubOffset(t, loc.hub) + rhport0 < TWO_32
    ensures FlatPort(t, loc, rhport0) == loc.controller * t.vhciPorts + HubOffset(t, loc.hub) + rhport0
  {
    TimesGrows(0, loc.controller, t.vhciPorts);
  }

  lemma LocationIsExact(t: Topology, nports: U32, loc: Location, root: U32)
    requires t.hcPorts > 0 && t.vhciPorts == 2 * t.hcPorts && t.controllers * t.vhciPorts == nports
    requires loc.controller < t.controllers && 1 <= root <= t.hcPorts
    ensures
      var p := FlatPort(t, loc, root - 1);
      && p == loc.controller * t.vhciPorts + Slot(t, loc.hub, root) && p < nports
      && p / t.vhciPorts == loc.controller && p % t.vhciPorts == Slot(t, loc.hub, root)
  {
    var slot := Slot(t, loc.hub, root);
    BlockFits(loc.controller, t.controllers, t.vhciPorts, slot);
    BlockSplits(loc.controller, t.vhciPorts, slot);
    FlatIsExact(t, loc, root - 1);
  }

  /** No wrap-around, inside the port space, and the controller is the quotient. */
  lemma PortIsExact(t: Topology, nports: U32, bus: U32, root: U32)
    requires Sound(t, nports) && Names(t, bus, root)
    ensures
      var loc := t.busMap[bus];
      && PortOf(t, bus, root) == loc.controller * t.vhciPorts + Slot(t, loc.hub, root)
      && PortOf(t, bus, root) < nports
      && PortOf(t, bus, root) / t.vhciPorts == loc.controller
      && PortOf(t, bus, root) % t.vhciPorts == Slot(t, loc.hub, root)
  {
    LocationIsExact(t, nports, t.busMap[bus], root);
  }

  /** Different (bus, root port) pairs have different flat ports. */
  lemma PortIsInjective(t: Topology, nports: U32, bus: U32, root: U32, bus': U32, root': U32)
    requires Sound(t, nports) && Names(t, bus, root) && Names(t, bus', root')
    requires PortOf(t, bus, root) == PortOf(t, bus', root')
    ensures bus == bus' && root == root'
  {
    PortIsExact(t, nports, bus, root);
    PortIsExact(t, nports, bus', root');
    assert t.busMap[bus].hub == t.busMap[bus'].hub;
    assert t.busMap[bus] == t.busMap[bus'];
  }

  /** The location and root port that number `p` stands for. */
  lemma PortSplits(t: Topology, nports: U32, p: U32) returns (loc: Location, root: U32)
    requires t.hcPorts > 0 && t.vhciPorts == 2 * t.hcPorts && t.controllers * t.vhciPorts == nports && p < nports
    ensures loc.controller < t.controllers && 1 <= root <= t.hcPorts && FlatPort(t, loc, root - 1) == p
  {
    var c, r := Divide(p, t.controllers, t.vhciPorts);
    loc := Location(c, if r < t.hcPorts then HS else SS);
    root := if r < t.hcPorts then r + 1 else r - t.hcPorts + 1;
    LocationIsExact(t, nports, loc, root);
  }

  /** Every flat port is the port of some bus and root port. */
  lemma PortIsOnto(t: Topology, nports: U32, p: U32) returns (bus: U32, root: U32)
    requires Sound(t, nports) && p < nports
    ensures Names(t, bus, root) && PortOf(t, bus, root) == p
  {
    var loc;
    loc, root := PortSplits(t, nports, p);
    bus :| bus in t.busMap && t.busMap[bus] == loc;
  }

  /** A quotient below `n` bounds the dividend. */
  lemma QuotientBounds(p: nat, n: nat, v: nat)
    requires v > 0 && p / v < n
    ensures p < n * v
  {
    BlockFits(p / v, n, v, p % v);
  }

  lemma Divide(p: nat, n: nat, v: nat) returns (c: nat, r: nat)
    requires v > 0 && p < n * v
    ensures p == c * v + r && r < v && c < n
  {
    c, r := p / v, p % v;
    if c >= n { TimesGrows(n, c, v); }
  }

  /** (bus, root port) to flat port is a bijection from the named ports onto
      [0, nports). */
  ghost predicate Bijective(t: Topology, nports: U32) {
    && (forall b, r :: Names(t, b, r) ==> PortOf(t, b, r) < nports)
    && (forall b, r, b', r' :: Names(t, b, r) && Names(t, b', r') && PortOf(t, b, r) == PortOf(t, b', r') ==>
          b == b' && r == r')
    && (forall p: U32 | p < nports :: Named(t, p))
  }

  ghost predicate Named(t: Topology, p: U32) { exists b, r :: Names(t, b, r) && PortOf(t, b, r) == p }

  lemma DiscoveredPortsAreABijection(nports: U32, controllers: U32, dirs: seq<ControllerDir>)
    requires |dirs| == controllers && Discovered(nports, controllers, dirs).Ok?
    ensures Bijective(Discovered(nports, controllers, dirs).value, nports)
  {
    DiscoveredIsSound(nports, controllers, dirs);
    SoundIsBijective(Discovered(nports, controllers, dirs).value, nports);
  }

  lemma SoundIsBijective(t: Topology, nports: U32)
    requires Sound(t, nports)
    ensures Bijective(t, nports)
  {
    forall b, r | Names(t, b, r)
      ensures PortOf(t, b, r) < nports
    {
      PortIsExact(t, nports, b, r);
    }
    forall b, r, b', r' | Names(t, b, r) && Names(t, b', r') && PortOf(t, b, r) == PortOf(t, b', r')
      ensures b == b' && r == r'
    {
      PortIsInjective(t, nports, b, r, b', r');
    }
    forall p: U32 | p < nports
      ensures Named(t, p)
    {
      var b, r := PortIsOnto(t, nports, p);
    }
  }

  // --- Events --------------------------------------------------------------

  /** vhciEventLocation; the arguments are unsigned 64-bit. */
  function EventLocation(t: Topology, controller: nat, bus: nat, root: nat): Option<Location> {
    if controller >= TWO_32 || bus >= TWO_32 then None
    else if bus !in t.busMap || controller >= t.controllers || t.busMap[bus].controller != controller
            || root > t.hcPorts then None
    else Some(t.busMap[bus])
  }

  /** The port reported for an event is the one its bus and root port name,
      and dividing it by the block size gives back the event's controller. */
  lemma EventPortIsRight(t: Topology, nports: U32, controller: nat, bus: nat, root: nat)
    requires Sound(t, nports) && root >= 1 && EventLocation(t, controller, bus, root).Some?
    ensures
      && Names(t, bus, root)
      && FlatPort(t, EventLocation(t, controller, bus, root).value, root - 1) == PortOf(t, bus, root)
      && PortOf(t, bus, root) / t.vhciPorts == controller && PortOf(t, bus, root) < nports
  {
    PortIsExact(t, nports, bus, root);
  }

  /** An event is resolved exactly when it names a port of its controller. */
  lemma EventIsResolvedIff(t: Topology, controller: U32, bus: U32, root: U32)
    requires root >= 1 && Covers(t.busMap, t.controllers)
    ensures EventLocation(t, controller, bus, root).Some? <==>
            Names(t, bus, root) && t.busMap[bus].controller == controller
  {
  }

  /**
   * From the kernel's files to the number a uevent stands for: with `hc` ports
   * on each hub, root port `root` of the lower bus of controller `i` is flat
   * port 2 * hc * i + root - 1, and of the higher bus hc more.
   */
  lemma DiscoveredEventPort(
    nports: U32, controllers: U32, dirs: seq<ControllerDir>, i: nat, x: U32, y: U32, bus: U32, root: U32, hc: nat)
    requires |dirs| == controllers && Discovered(nports, controllers, dirs).Ok?
    requires HasBuses(dirs, i, x, y) && x < y && (bus == x || bus == y)
    requires nports == 2 * hc * controllers && 1 <= root <= hc
    ensures
      var t := Discovered(nports, controllers, dirs).value;
      && EventLocation(t, i, bus, root).Some?
      && FlatPort(t, EventLocation(t, i, bus, root).value, root - 1) ==
         2 * hc * i + (if bus == x then 0 else hc) + root - 1
  {
    var t := Discovered(nports, controllers, dirs).value;
    DiscoveredIsSound(nports, controllers, dirs);
    LowerBusIsHighSpeed(nports, controllers, dirs, i, x, y);
    BlockSize(t, nports, hc);
    PortIsExact(t, nports, bus, root);
    TimesCommute(i, t.vhciPorts);
  }

  lemma BlockSize(t: Topology, nports: U32, hc: nat)
    requires Sound(t, nports) && t.controllers > 0 && nports == 2 * hc * t.controllers
    ensures t.vhciPorts == 2 * hc && t.hcPorts == hc
  {
    TimesCommute(t.controllers, t.vhciPorts);
    QuotientIsUnique(t.vhciPorts, 0, 2 * hc, 0, t.controllers);
  }

  lemma TimesCommute(a: int, b: int)
    ensures a * b == b * a
  {
  }
}
