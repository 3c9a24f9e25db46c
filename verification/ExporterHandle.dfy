/**
 * The per-session handoff and cleanup state machine of
 * internal/app/exporter.go:88-252. The pure functions are the effect of one
 * hold of handoffMu; class `SessionHandle` performs the same effects on fields.
 */
module ExporterHandle {
  import opened Base

  datatype Phase = NotStarted | InProgress | Succeeded | Failed

  /** What a claimed Disconnect reported; also the immutable cleanup result. */
  datatype Cleanup = Clean | DisconnectError

  /** sessionHandle. `cleanup` is set when cleanupDone closes; `doubleClose`
      records a second close, which would panic. */
  datatype Handle = Handle(
    phase: Phase, cancelled: bool, claimed: bool, cleanup: Option<Cleanup>, done: bool, doubleClose: bool)

  const NEW_HANDLE: Handle := Handle(NotStarted, false, false, None, false, false)

  function CloseCleanup(h: Handle, r: Cleanup): Handle {
    if h.cleanup.None? then h.(cleanup := Some(r)) else h.(doubleClose := true)
  }

  /** claimCleanupLocked: the caller owns the cleanup exactly when true. */
  function ClaimCleanup(h: Handle): (r: (Handle, bool)) {
    if h.claimed then (h, false) else (h.(claimed := true), true)
  }

  function CompleteWithoutDisconnect(h: Handle): (r: (Handle, bool)) {
    var (h1, mine) := ClaimCleanup(h);
    if mine then (CloseCleanup(h1, Clean), true) else (h1, false)
  }

  /** runHandoff before the kernel call. */
  function BeginHandoff(h: Handle): (r: (Handle, bool)) {
    if h.cancelled then (h, false) else (h.(phase := InProgress), true)
  }

  /** runHandoff after the kernel call; true means this handler disconnects. */
  function EndHandoff(h: Handle, accepted: bool): (r: (Handle, bool)) {
    if !accepted then (CompleteWithoutDisconnect(h.(phase := Failed)).0, false)
    else
      var h1 := h.(phase := Succeeded);
      if h1.cancelled then ClaimCleanup(h1) else (h1, false)
  }

  /** signalCancel; true means the canceller disconnects. */
  function SignalCancel(h: Handle): (r: (Handle, bool)) {
    var h1 := h.(cancelled := true);
    match h1.phase
    case Succeeded => ClaimCleanup(h1)
    case NotStarted => (CompleteWithoutDisconnect(h1).0, false)
    case Failed => (CompleteWithoutDisconnect(h1).0, false)
    case InProgress => (h1, false)
  }

  function FinishCleanup(h: Handle, r: Cleanup): Handle { CloseCleanup(h, r) }

  function Cancel(h: Handle): Handle { h.(done := true) }

  class SessionHandle {
    var phase: Phase
    var cancelled: bool
    var claimed: bool
    var cleanup: Option<Cleanup>
    var done: bool
    var doubleClose: bool

    ghost function View(): Handle
      reads this
    {
      Handle(phase, cancelled, claimed, cleanup, done, doubleClose)
    }

    constructor ()
      ensures View() == NEW_HANDLE
    {
      phase, cancelled, claimed, cleanup, done, doubleClose := NotStarted, false, false, None, false, false;
    }

    method ClaimLocked() returns (mine: bool)
      modifies this`claimed
      ensures (View(), mine) == ClaimCleanup(old(View()))
    {
      if claimed { return false; }
      claimed := true;
      return true;
    }

    method CloseDone(r: Cleanup)
      modifies this`cleanup, this`doubleClose
      ensures View() == CloseCleanup(old(View()), r)
    {
      if cleanup.None? { cleanup := Some(r); } else { doubleClose := true; }
    }

    method Complete() returns (mine: bool)
      modifies this
      ensures (View(), mine) == CompleteWithoutDisconnect(old(View()))
    {
      mine := ClaimLocked();
      if mine { CloseDone(Clean); }
    }

    method HandoffStarts() returns (ran: bool)
      modifies this
      ensures (View(), ran) == BeginHandoff(old(View()))
    {
      if cancelled { return false; }
      phase := InProgress;
      return true;
    }

    method HandoffEnds(accepted: bool) returns (disconnect: bool)
      modifies this
      ensures (View(), disconnect) == EndHandoff(old(View()), accepted)
    {
      if !accepted {
        phase := Failed;
        var _ := Complete();
        return false;
      }
      phase := Succeeded;
      if cancelled {
        disconnect := ClaimLocked();
        return;
      }
      return false;
    }

    method Signal() returns (disconnect: bool)
      modifies this
      ensures (View(), disconnect) == SignalCancel(old(View()))
    {
      cancelled := true;
      match phase
      case Succeeded => disconnect := ClaimLocked();
      case InProgress => disconnect := false;
      case _ =>
        var _ := Complete();
        disconnect := false;
    }

    method Finish(r: Cleanup)
      modifies this
      ensures View() == FinishCleanup(old(View()), r)
    {
      CloseDone(r);
    }
  }

  /** The positions, counted from `base`, of the futures that completed with an error. */
  function ErrorsOf(results: seq<Option<Cleanup>>, base: nat): (r: seq<nat>)
    ensures forall k :: k in r <==> base <= k < base + |results| && results[k - base] == Some(DisconnectError)
  {
    if results == [] then []
    else
      var rest := ErrorsOf(results[1..], base + 1);
      if results[0] == Some(DisconnectError) then [base] + rest else rest
  }

  lemma {:induction false} ErrorsSnoc(results: seq<Option<Cleanup>>, last: Option<Cleanup>, base: nat)
    ensures
      ErrorsOf(results + [last], base) ==
      ErrorsOf(results, base) + if last == Some(DisconnectError) then [base + |results|] else []
    decreases |results|
  {
    if results == [] {
      assert results + [last] == [last];
    } else {
      assert (results + [last])[1..] == results[1..] + [last];
      ErrorsSnoc(results[1..], last, base + 1);
    }
  }

  /** No error is reported twice, and they come in the order of the handles. */
  lemma {:induction false} ErrorsInOrder(results: seq<Option<Cleanup>>, base: nat)
    ensures
      var r := ErrorsOf(results, base);
      forall i, j :: 0 <= i < j < |r| ==> r[i] < r[j]
    decreases |results|
  {
    if results != [] {
      var rest := ErrorsOf(results[1..], base + 1);
      ErrorsInOrder(results[1..], base + 1);
      forall i | 0 <= i < |rest|
        ensures base < rest[i]
      {
        var k := rest[i];
        assert k in ErrorsOf(results[1..], base + 1);
      }
      var r := ErrorsOf(results, base);
      forall i, j | 0 <= i < j < |r|
        ensures r[i] < r[j]
      {
        assert r == rest || (r[j] == rest[j - 1] && (i > 0 ==> r[i] == rest[i - 1]));
      }
    }
  }

  method CompletedCleanupErrors(results: seq<Option<Cleanup>>, base: nat) returns (errors: seq<nat>)
    ensures errors == ErrorsOf(results, base)
  {
    errors := [];
    var k := 0;
    while k < |results|
      invariant 0 <= k <= |results| && errors == ErrorsOf(results[..k], base)
    {
      ErrorsSnoc(results[..k], results[k], base);
      assert results[..k + 1] == results[..k] + [results[k]];
      if results[k] == Some(DisconnectError) { errors := errors + [base + k]; }
      k := k + 1;
    }
    assert results[..k] == results;
  }

  /**
   * waitCleanupBounded over the retained futures: `waited[k]` is what waiting
   * for future k saw (None: the deadline won and the recheck still found it
   * pending), `sweep[k]` what the non-blocking sweep after a timeout sees.
   * Every error of every future seen complete is reported, once and in order;
   * one wedged future hides none of the others.
   */
  method WaitCleanupBounded(waited: seq<Option<Cleanup>>, sweep: seq<Option<Cleanup>>)
    returns (errors: seq<nat>, wedged: Option<nat>)
    requires |sweep| == |waited|
    ensures wedged.None? ==> None !in waited && errors == ErrorsOf(waited, 0)
    ensures wedged.Some? ==>
      && wedged.value < |waited| && waited[wedged.value].None? && None !in waited[..wedged.value]
      && errors == ErrorsOf(waited[..wedged.value], 0) + ErrorsOf(sweep[wedged.value + 1..], wedged.value + 1)
  {
    errors := [];
    var idx := 0;
    while idx < |waited|
      invariant 0 <= idx <= |waited|
      invariant None !in waited[..idx] && errors == ErrorsOf(waited[..idx], 0)
    {
      if waited[idx].None? {
        var rest := CompletedCleanupErrors(sweep[idx + 1..], idx + 1);
        return errors + rest, Some(idx);
      }
      ErrorsSnoc(waited[..idx], waited[idx], 0);
      assert waited[..idx + 1] == waited[..idx] + [waited[idx]];
      if waited[idx] == Some(DisconnectError) { errors := errors + [idx]; }
      idx := idx + 1;
    }
    assert waited[..idx] == waited;
    return errors, None;
  }
}
