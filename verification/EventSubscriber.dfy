/**
 * The publication barrier of WatchSessions and Watch subscribers
 * (internal/app/exporter_watch.go:27-77, 173-255 and importer_watch.go:25-96,
 * 213-255): publishers, a closer and an iterator in any interleaving.
 */
module EventSubscriber {

  const CAPACITY: nat := 16

  /** The fields one subscriber's mutex guards, and its buffered channel. */
  datatype Channel<E> = Channel(buffer: seq<E>, closed: bool)

  datatype PublishResult = Inactive | Dropped | Sent

  function TryPublish<E>(c: Channel<E>, ev: E): (Channel<E>, PublishResult) {
    if c.closed then (c, Inactive)
    else if |c.buffer| >= CAPACITY then (c, Dropped)
    else (c.(buffer := c.buffer + [ev]), Sent)
  }

  class Subscriber<E> {
    var buffer: seq<E>
    var closed: bool

    ghost function View(): Channel<E>
      reads this
    {
      Channel(buffer, closed)
    }

    constructor ()
      ensures View() == Channel([], false)
    {
      buffer, closed := [], false;
    }

    method Publish(ev: E) returns (r: PublishResult)
      modifies this
      ensures (View(), r) == TryPublish(old(View()), ev)
    {
      if closed { return Inactive; }
      if |buffer| >= CAPACITY { return Dropped; }
      buffer := buffer + [ev];
      return Sent;
    }

    method CloseDone()
      modifies this
      ensures View() == old(View()).(closed := true)
    {
      if closed { return; }
      closed := true;
    }

    /** drainSessionEvents with a consumer that accepts everything. */
    method Drain() returns (events: seq<E>)
      modifies this
      ensures events == old(buffer) && buffer == [] && closed == old(closed)
    {
      events := [];
      while buffer != []
        invariant events + buffer == old(buffer) && closed == old(closed)
        decreases |buffer|
      {
        events, buffer := events + [buffer[0]], buffer[1..];
      }
    }
  }

  // --- Interleavings -------------------------------------------------------

  datatype IteratorPc = Selecting | Draining | Ended

  /** `accepted` are the events that entered the buffer, `yielded` those the
      consumer received, both in order. */
  datatype State<E> = State(chan: Channel<E>, iter: IteratorPc, accepted: seq<E>, yielded: seq<E>)

  /** OtherEvent is an event from another source merged into the iterator. */
  datatype Step<E> = Publish(ev: E) | Close | Receive | SeeDone | DrainOne | DrainEnds | OtherEvent

  ghost predicate Init<E>(s: State<E>) { s == State(Channel([], false), Selecting, [], []) }

  ghost predicate Enabled<E>(s: State<E>, step: Step<E>) {
    match step
    case Publish(_) => true
    case Close => true
    case Receive => s.iter.Selecting? && s.chan.buffer != []
    case SeeDone => s.iter.Selecting? && s.chan.closed
    case DrainOne => s.iter.Draining? && s.chan.buffer != []
    case DrainEnds => s.iter.Draining? && s.chan.buffer == []
    case OtherEvent => s.iter.Selecting?
  }

  function TakeOne<E>(s: State<E>): State<E>
    requires s.chan.buffer != []
  {
    s.(chan := s.chan.(buffer := s.chan.buffer[1..]), yielded := s.yielded + [s.chan.buffer[0]])
  }

  ghost function Apply<E>(s: State<E>, step: Step<E>): State<E>
    requires Enabled(s, step)
  {
    match step
    case Publish(ev) =>
      var (c, r) := TryPublish(s.chan, ev);
      s.(chan := c, accepted := if r.Sent? then s.accepted + [ev] else s.accepted)
    case Close => s.(chan := s.chan.(closed := true))
    case Receive => TakeOne(s)
    case SeeDone => s.(iter := Draining)
    case DrainOne => TakeOne(s)
    case DrainEnds => s.(iter := Ended)
    case OtherEvent => s
  }

  ghost predicate Run<E(!new)>(s: State<E>, steps: seq<Step<E>>, after: State<E>)
    decreases |steps|
  {
    if steps == [] then after == s
    else Enabled(s, steps[0]) && Run(Apply(s, steps[0]), steps[1..], after)
  }

  /** Nothing is lost, duplicated or reordered, and an iterator that has seen
      `done` works on a closed channel. */
  ghost predicate Inv<E>(s: State<E>) {
    && s.accepted == s.yielded + s.chan.buffer
    && |s.chan.buffer| <= CAPACITY
    && (!s.iter.Selecting? ==> s.chan.closed)
    && (s.iter.Ended? ==> s.chan.buffer == [])
  }

  lemma InvStep<E>(s: State<E>, step: Step<E>)
    requires Inv(s) && Enabled(s, step)
    ensures Inv(Apply(s, step))
    ensures s.chan.closed ==> Apply(s, step).chan.closed && Apply(s, step).accepted == s.accepted
  {
  }

  lemma {:induction false} InvRun<E(!new)>(s: State<E>, steps: seq<Step<E>>, after: State<E>)
    requires Inv(s) && Run(s, steps, after)
    ensures Inv(after)
    ensures s.chan.closed ==> after.chan.closed && after.accepted == s.accepted
    decreases |steps|
  {
    if steps != [] {
      InvStep(s, steps[0]);
      InvRun(Apply(s, steps[0]), steps[1..], after);
    }
  }

  /** Only Close closes the channel. */
  lemma {:induction false} ClosedIffClose<E(!new)>(s: State<E>, steps: seq<Step<E>>, after: State<E>)
    requires Run(s, steps, after)
    ensures after.chan.closed <==> s.chan.closed || Close in steps
    decreases |steps|
  {
    if steps != [] {
      ClosedIffClose(Apply(s, steps[0]), steps[1..], after);
      assert Close in steps <==> steps[0] == Close || Close in steps[1..];
    }
  }

  /** At any moment of any run, a published event is accepted, as the last one,
      exactly when nothing has closed the subscriber and fewer than sixteen
      accepted events wait for the consumer; otherwise it is dropped. */
  lemma PublishIsAcceptedIff<E(!new)>(i: State<E>, before: seq<Step<E>>, s: State<E>, ev: E)
    requires Init(i) && Run(i, before, s)
    ensures s.yielded <= s.accepted
    ensures Apply(s, Publish(ev)).accepted ==
      s.accepted + if Close !in before && |s.accepted| - |s.yielded| < 16 then [ev] else []
    ensures Apply(s, Publish(ev)).yielded == s.yielded
  {
    InvRun(i, before, s);
    ClosedIffClose(i, before, s);
  }

  /** Nothing is accepted after the subscriber is closed. */
  lemma NothingAcceptedAfterClose<E(!new)>(
    i: State<E>, before: seq<Step<E>>, s: State<E>, steps: seq<Step<E>>, after: State<E>)
    requires Init(i) && Run(i, before, s) && s.chan.closed && Run(s, steps, after)
    ensures after.accepted == s.accepted
  {
    InvRun(i, before, s);
    InvRun(s, steps, after);
  }

  /** An iterator that ended on `done` has yielded every accepted event exactly
      once, in acceptance order, and stays complete whatever happens later. */
  lemma EndedIteratorSawEverything<E(!new)>(
    i: State<E>, before: seq<Step<E>>, s: State<E>, steps: seq<Step<E>>, after: State<E>)
    requires Init(i) && Run(i, before, s) && s.iter.Ended? && Run(s, steps, after)
    ensures s.yielded == s.accepted && after.accepted == s.accepted
  {
    InvRun(i, before, s);
    InvRun(s, steps, after);
    assert s.yielded + [] == s.yielded;
  }
}
