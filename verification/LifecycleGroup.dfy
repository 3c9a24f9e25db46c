/**
 * The reusable drain group of internal/app/importer.go:25-86.
 *
 * A group is a counter plus the channel that is closed when the counter
 * falls to zero. Channels are numbered in allocation order, so a channel
 * that has been replaced is recognisable by its number.
 */
module LifecycleGroup {
  import opened Base

  type Chan = nat

  /** `drained == None` is the nil channel of a group nobody has used yet. */
  datatype Group = Group(count: nat, drained: Option<Chan>, made: nat, closed: set<Chan>)

  const EMPTY: Group := Group(0, None, 0, {})

  /** The current channel is the newest one, it is closed exactly when the
      counter is zero, and every channel it replaced is closed. */
  ghost predicate Valid(g: Group) {
    && (g.drained.None? ==> g.count == 0 && g.made == 0 && g.closed == {})
    && (g.drained.Some? ==> g.made == g.drained.value + 1)
    && (forall c :: c in g.closed ==> c < g.made)
    && (forall c: nat :: c + 1 < g.made ==> c in g.closed)
    && (g.drained.Some? ==> (g.drained.value in g.closed <==> g.count == 0))
  }

  /** Add, as a function: `None` is the panic on a counter that would become negative. */
  function Adjust(g: Group, delta: int): (r: Option<Group>)
    requires Valid(g)
    ensures r.None? <==> g.count + delta < 0
    ensures r.Some? ==> Valid(r.value) && r.value.count == g.count + delta
    ensures r.Some? && g.count > 0 ==> r.value.drained == g.drained
    ensures r.Some? ==> g.closed <= r.value.closed && g.made <= r.value.made
  {
    if delta == 0 then Some(g)
    else if g.count + delta < 0 then None
    else if delta > 0 && g.count == 0 then
      Some(Group(delta, Some(g.made), g.made + 1, g.closed))
    else if g.count + delta == 0 then
      Some(g.(count := 0, closed := g.closed + {g.drained.value}))
    else Some(g.(count := g.count + delta))
  }

  /** DoneChan, as a function: the channel a waiter captures. */
  function Capture(g: Group): (r: (Group, Chan))
    requires Valid(g)
    ensures Valid(r.0) && r.0.count == g.count
    ensures r.0.drained == Some(r.1)
    ensures g.drained.Some? ==> r.0 == g
  {
    match g.drained
    case Some(c) => (g, c)
    case None => (Group(0, Some(0), 1, {0}), 0)
  }

  /** One enrolment; the counter was incremented under the caller's lock. */
  function Enrol(g: Group): (r: Group)
    requires Valid(g)
    ensures Valid(r) && r.count == g.count + 1
    ensures g.count > 0 ==> r.drained == g.drained
  {
    Adjust(g, 1).value
  }

  function Leave(g: Group): (r: Group)
    requires Valid(g) && g.count > 0
    ensures Valid(r) && r.count == g.count - 1 && r.drained == g.drained
  {
    Adjust(g, -1).value
  }

  /** The states a group passes through while a list of deltas is applied;
      a panicking delta stops the run. */
  ghost function Trace(g: Group, deltas: seq<int>): (r: seq<Group>)
    requires Valid(g)
    ensures |r| > 0 && r[0] == g && forall i :: 0 <= i < |r| ==> Valid(r[i])
    decreases |deltas|
  {
    if deltas == [] || Adjust(g, deltas[0]).None? then [g]
    else [g] + Trace(Adjust(g, deltas[0]).value, deltas[1..])
  }

  /**
   * What a captured channel means: after any further use of the group it is
   * closed exactly when the counter was zero at some moment since the capture.
   */
  lemma {:induction false} CapturedChannelRecordsZero(g: Group, deltas: seq<int>)
    requires Valid(g) && g.drained.Some?
    ensures
      var states := Trace(g, deltas);
      g.drained.value in states[|states| - 1].closed <==>
      exists i :: 0 <= i < |states| && states[i].count == 0
    decreases |deltas|
  {
    var c := g.drained.value;
    var states := Trace(g, deltas);
    if deltas == [] || Adjust(g, deltas[0]).None? {
      assert states == [g];
      assert states[0].count == g.count;
    } else {
      var g' := Adjust(g, deltas[0]).value;
      var rest := Trace(g', deltas[1..]);
      assert states == [g] + rest;
      assert states[|states| - 1] == rest[|rest| - 1];
      if g.count == 0 {
        ClosedStaysClosed(g', deltas[1..], c);
        assert states[0].count == 0;
      } else {
        CapturedChannelRecordsZero(g', deltas[1..]);
        if i :| 0 <= i < |rest| && rest[i].count == 0 {
          assert states[i + 1].count == 0;
        }
        if j :| 0 <= j < |states| && states[j].count == 0 {
          assert rest[j - 1].count == 0;
        }
      }
    }
  }

  lemma {:induction false} ClosedStaysClosed(g: Group, deltas: seq<int>, c: Chan)
    requires Valid(g) && c in g.closed
    ensures var states := Trace(g, deltas); c in states[|states| - 1].closed
    decreases |deltas|
  {
    if deltas != [] && Adjust(g, deltas[0]).Some? {
      var g' := Adjust(g, deltas[0]).value;
      assert Trace(g, deltas) == [g] + Trace(g', deltas[1..]);
      ClosedStaysClosed(g', deltas[1..], c);
    }
  }

  /** lifecycleWaitGroup itself; its mutex makes each method one step. */
  class LifecycleWaitGroup {
    var count: nat
    var drained: Option<Chan>
    var made: nat
    var closed: set<Chan>

    ghost function State(): (g: Group)
      reads this
    {
      Group(count, drained, made, closed)
    }

    constructor ()
      ensures State() == EMPTY && Valid(State())
    {
      count, drained, made, closed := 0, None, 0, {};
    }

    method Add(delta: int) returns (panicked: bool)
      requires Valid(State())
      modifies this
      ensures Valid(State())
      ensures panicked <==> old(State()).count + delta < 0
      ensures State() == if panicked then old(State()) else Adjust(old(State()), delta).value
    {
      panicked := false;
      if delta == 0 { return; }
      if delta > 0 && count == 0 {
        drained := Some(made);
        made := made + 1;
      }
      var next := count + delta;
      if next < 0 { return true; }
      count := next;
      if count == 0 { closed := closed + {drained.value}; }
    }

    method DoneChan() returns (c: Chan)
      requires Valid(State())
      modifies this
      ensures Valid(State())
      ensures (State(), c) == Capture(old(State()))
      ensures c in closed <==> count == 0
    {
      if drained.None? {
        drained := Some(made);
        closed := closed + {made};
        assert closed == {made};
        made := made + 1;
      }
      c := drained.value;
    }
  }
}
