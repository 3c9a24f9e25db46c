/**
 * The one-slot callback queue of internal/app/reconnect.go:63-80, 657-745. The
 * watcher is its only producer; its three non-blocking selects interleave with
 * the worker that invokes the callback.
 */
module CallbackQueue {
  import opened Base

  /** Inside Notify: first send, drop of the stale item, final send. */
  datatype ProducerPc = Idle | Sending | Dropping | Resending | Closed

  /** Notifications are numbered from 1; `sent` is how many Notify calls have
      begun. `invoked` are the numbers the worker took, in order. */
  datatype State = State(queue: Option<nat>, sent: nat, pc: ProducerPc, invoked: seq<nat>, exited: bool)

  const INITIAL: State := State(None, 0, Idle, [], false)

  datatype Step = Notify | TrySend | Drop | Resend | Close | WorkerTakes | WorkerExits

  predicate Enabled(s: State, step: Step) {
    match step
    case Notify => s.pc.Idle?
    case TrySend => s.pc.Sending?
    case Drop => s.pc.Dropping?
    case Resend => s.pc.Resending?
    case Close => s.pc.Idle?
    case WorkerTakes => s.queue.Some? && !s.exited
    case WorkerExits => s.pc.Closed? && s.queue.None? && !s.exited
  }

  function Apply(s: State, step: Step): State
    requires Enabled(s, step)
  {
    match step
    case Notify => s.(sent := s.sent + 1, pc := Sending)
    case TrySend => if s.queue.None? then s.(queue := Some(s.sent), pc := Idle) else s.(pc := Dropping)
    case Drop => s.(queue := None, pc := Resending)
    case Resend => if s.queue.None? then s.(queue := Some(s.sent), pc := Idle) else s.(pc := Idle)
    case Close => s.(pc := Closed)
    case WorkerTakes => s.(queue := None, invoked := s.invoked + [s.queue.value])
    case WorkerExits => s.(exited := true)
  }

  ghost predicate Run(s: State, steps: seq<Step>, after: State)
    decreases |steps|
  {
    if steps == [] then after == s
    else Enabled(s, steps[0]) && Run(Apply(s, steps[0]), steps[1..], after)
  }

  function Last(xs: seq<nat>): nat { if xs == [] then 0 else xs[|xs| - 1] }

  predicate Ascending(xs: seq<nat>) { forall i, j :: 0 <= i < j < |xs| ==> xs[i] < xs[j] }

  /** Where notification `n`, the latest completed one, is. */
  predicate Kept(s: State, n: nat) { s.queue == Some(n) || (s.queue.None? && Last(s.invoked) == n) }

  ghost predicate Inv(s: State) {
    && Ascending(s.invoked) && (forall k :: k in s.invoked ==> 1 <= k)
    && (s.queue.Some? ==> Last(s.invoked) < s.queue.value <= s.sent)
    && Last(s.invoked) <= s.sent
    && (match s.pc
        case Idle => Kept(s, s.sent)
        case Closed => Kept(s, s.sent)
        case Sending => s.sent > 0 && Kept(s, s.sent - 1)
        case Dropping => s.sent > 0 && Kept(s, s.sent - 1)
        case Resending => s.sent > 0 && s.queue.None? && Last(s.invoked) < s.sent)
    && (s.exited ==> s.pc.Closed? && s.queue.None?)
  }

  lemma TakeAscends(xs: seq<nat>, k: nat)
    requires Ascending(xs) && Last(xs) < k
    ensures Ascending(xs + [k]) && Last(xs + [k]) == k
  {
    assert forall i :: 0 <= i < |xs| ==> xs[i] <= Last(xs);
  }

  lemma InvStep(s: State, step: Step)
    requires Inv(s) && Enabled(s, step)
    ensures Inv(Apply(s, step))
  {
    if step.WorkerTakes? { TakeAscends(s.invoked, s.queue.value); }
  }

  lemma {:induction false} InvRun(s: State, steps: seq<Step>, after: State)
    requires Inv(s) && Run(s, steps, after)
    ensures Inv(after)
    decreases |steps|
  {
    if steps != [] {
      InvStep(s, steps[0]);
      InvRun(Apply(s, steps[0]), steps[1..], after);
    }
  }

  /** Callbacks run in order of notification, each at most once, and the final
      non-blocking send never finds the slot taken. */
  lemma CallbacksAreOrdered(steps: seq<Step>, s: State)
    requires Run(INITIAL, steps, s)
    ensures Ascending(s.invoked) && forall k :: k in s.invoked ==> 1 <= k <= s.sent
    ensures s.pc.Resending? ==> s.queue.None?
  {
    InvRun(INITIAL, steps, s);
    forall k | k in s.invoked
      ensures 1 <= k <= s.sent
    {
      var i :| 0 <= i < |s.invoked| && s.invoked[i] == k;
      assert i < |s.invoked| - 1 ==> s.invoked[i] < s.invoked[|s.invoked| - 1];
    }
  }

  /** Coalescing drops only superseded notifications: once Notify returns, the
      latest one is queued or has been taken, and when the worker has exited it
      was the last callback to run. */
  lemma LatestNotificationIsNeverLost(steps: seq<Step>, s: State)
    requires Run(INITIAL, steps, s)
    ensures s.pc.Idle? || s.pc.Closed? ==> s.queue == Some(s.sent) || Last(s.invoked) == s.sent
    ensures s.exited ==> Last(s.invoked) == s.sent
  {
    InvRun(INITIAL, steps, s);
  }
}
