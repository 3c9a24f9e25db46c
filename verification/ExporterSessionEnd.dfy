/**
 * waitForSessionEnd (internal/app/session.go:601-711): a parked handler looks at
 * whichever signal is ready until one of them ends the session.
 */
module ExporterSessionEnd {
  import opened Base
  import opened ExporterHandle

  /** What one select picks. A lifecycle event may name another device; the
      status probe may find the session still active. */
  datatype Tick = DoneClosed | Event(endsThis: bool) | EventsClosed(inactive: bool) | PollFires(inactive: bool)

  datatype Reason = ByShutdown | ClientGone

  /** The event channel is no longer selected once it was found closed, and
      there is a poll only with a status probe. */
  predicate Selectable(ticks: seq<Tick>, i: nat, probe: bool)
    requires i < |ticks|
  {
    match ticks[i]
    case DoneClosed => true
    case Event(_) => forall j :: 0 <= j < i ==> !ticks[j].EventsClosed?
    case EventsClosed(_) => forall j :: 0 <= j < i ==> !ticks[j].EventsClosed?
    case PollFires(_) => probe
  }

  /** Losing the event source is not the end of a session: only `done`, an
      event for this device or an inactive probe is. */
  predicate Ends(ticks: seq<Tick>, i: nat, probe: bool)
    requires i < |ticks|
  {
    && Selectable(ticks, i, probe)
    && match ticks[i]
       case DoneClosed => true
       case Event(endsThis) => endsThis
       case EventsClosed(inactive) => probe && inactive
       case PollFires(inactive) => inactive
  }

  /** None while nothing has ended the session. A completion claims the cleanup
      unless Shutdown already has. */
  method WaitForSessionEnd(h: SessionHandle, ticks: seq<Tick>, probe: bool) returns (reason: Option<Reason>, at: nat)
    modifies h
    ensures at <= |ticks| && forall i :: 0 <= i < at ==> !Ends(ticks, i, probe)
    ensures reason.None? ==> at == |ticks| && h.View() == old(h.View())
    ensures reason.Some? ==> at < |ticks| && Ends(ticks, at, probe)
    ensures reason.Some? && ticks[at].DoneClosed? ==> reason.value == ByShutdown && h.View() == old(h.View())
    ensures reason.Some? && !ticks[at].DoneClosed? ==>
      && h.View() == CompleteWithoutDisconnect(old(h.View())).0
      && reason.value == if old(h.claimed) then ByShutdown else ClientGone
  {
    var events := true;
    at := 0;
    while at < |ticks|
      invariant 0 <= at <= |ticks| && h.View() == old(h.View())
      invariant events <==> forall j :: 0 <= j < at ==> !ticks[j].EventsClosed?
      invariant forall i :: 0 <= i < at ==> !Ends(ticks, i, probe)
    {
      var done := false;
      match ticks[at] {
        case DoneClosed => return Some(ByShutdown), at;
        case Event(endsThis) => done := events && endsThis;
        case EventsClosed(inactive) =>
          done := events && probe && inactive;
          if !done { events := false; }
        case PollFires(inactive) => done := probe && inactive;
      }
      if done {
        var mine := h.Complete();
        return Some(if mine then ClientGone else ByShutdown), at;
      }
      at := at + 1;
    }
    return None, at;
  }
}
