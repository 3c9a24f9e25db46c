# usbip-go: a verified model of its lifecycles, codec and port numbering

This project models the parts of usbip-go where correctness depends on every
interleaving or on exact arithmetic, and proves what they promise for all runs
and all inputs:

- **The importer** (`internal/app/importer.go`, `reconnect.go`): Attach, Detach,
  reconnect watchers, rollback and Close as one transition system. A step is one
  critical section of `Importer.mu`, one kernel call, one channel operation or one
  wait-group operation; every timeout, cancellation and kernel failure may happen
  at any time. `ImporterCore` holds the effect of each critical section,
  `ImporterObject` the same sections as methods on mutable fields,
  `ImporterProtocol` the threads and steps, `ImporterInvariant` the inductive
  invariant. `ImporterFrame` shows once what a step owes to everything it does not
  touch; the `*Steps` modules then show each step keeps the invariant,
  `ImporterEnrolment` that the wait group is counted right, and `ImporterRuns`
  lifts both to all runs. The promises are in `ImporterTheorems`,
  `ImporterAccountability`, `ImporterProgress` (no deadlock, from the order of
  waits in `ImporterOrder` and `ImporterAwaited`), `ImporterSlots` (who is let in),
  `ImporterWaiters` and `ImporterResults` (what a Detach returns), `ImporterReconnect`
  (what becomes of a replaced handle and of its replacement) and `ImporterRollback`.
  The rollback does not keep generation safety in every case; `ImporterRollback`
  says exactly when. `ImporterTouch`, `ImporterCalm` and `ImporterGains` say which
  threads a step moves and what it can do to a port; with them `ImporterStop` and
  `ImporterStopWatcher` bring the handle's watcher to its exit without touching the
  port, `ImporterHazard` builds the harmful continuations, `ImporterShield` shows the
  two situations in which there is none, and `ImporterScenario` reaches a harmful
  state from a new importer.
- **The exporter** (`internal/app/exporter.go`, `session.go`): connection handlers,
  the four-phase kernel handoff, single-owner cleanup, session caps, Serve,
  repeated Shutdowns and their cleanup goroutines, in the same style
  (`ExporterHandle`, `ExporterRegistry`, `ExporterProtocol`, `ExporterInvariant`,
  `ExporterSteps`, `ExporterShutdownSteps`, `ExporterSessionEnd`, then `ExporterTheorems`,
  `ExporterOutcome` and `ExporterKernel`).
- **The wire codec** (`internal/adapter/wire`, `internal/app/limits.go`): the OP_*
  messages of the USB/IP protocol (kernel document "USB/IP protocol", section
  "Message Format"), version 0x0111, over connections that deliver arbitrary short
  chunks and through the handshake byte limiter.
- **VHCI topology and port allocation** (`internal/adapter/kernel`): uint32
  arithmetic with wrap-around, the bus map, the status table and the allocator.
- **Smaller pieces**: the drain group, the subscriber publication barrier, the
  coalescing callback queue and the session ids.

Runs are sequences of steps in which every step is enabled; `Reachable(s)` means
that some run from a fresh object ends in `s`, and `Run(s, steps, after)` is any
continuation. Each main result is stated about all of them.

## Reading guide

Heap objects are rows of tables, so pointer identity is key identity: a
`portHandle` is named by its generation, an `attachReservation` by its Attach
operation, a `detachAttempt` by its allocation number. The kernel is a small
table: which socket a port or device carries. Methods marked as one critical
section are proved equal to the transition the protocol takes, so what is proved
about runs is about those bodies. The table below names only some of these
methods; `ImporterObject`, `ExporterHandle` and `ExporterRegistry` hold one for
every critical section.

Assumptions, all from the code's own contracts: the kernel adapter calls the
reservation hook once, with the port it returns, before its mutation
(`internal/app/interfaces.go:31-34`); session ids are fresh; the allocator (not the
topology) assumes fewer than 2^31 controllers, since `validatePortInRange`
multiplies in 32 bits.

Where the code and its comments disagree the model follows the code: a decoded
device keeps the path it was sent with (`internal/adapter/wire/layout.go:132-185`),
although the comment on `Device.Path` calls it empty for remote devices.

## Model

| member | source | states |
|---|---|---|
| LifecycleGroup.Adjust | internal/app/importer.go:35-56 | adding to the group panics exactly when the counter would go negative, keeps the captured channel while the counter is positive, and never reopens a channel |
| LifecycleGroup.Capture | internal/app/importer.go:76-86 | the channel a waiter gets is the group's current one, closed exactly when the counter is zero |
| LifecycleGroup.CapturedChannelRecordsZero | internal/app/importer.go:25-86 | after any further use of the group a captured channel is closed if and only if the counter was zero at some moment since the capture |
| LifecycleGroup.ClosedStaysClosed | internal/app/importer.go:35-56 | a closed drain channel is closed after every later sequence of additions |
| LifecycleGroup.LifecycleWaitGroup.Add | internal/app/importer.go:35-56 | the mutable group follows `Adjust`, including the panic |
| ImporterObject.Importer.Register | internal/app/importer.go:1522-1558 | registration is the protocol's transition: lost, lost to Close, or the next generation published, already claimed if teardown was requested |
| ImporterObject.RegisterByParts | internal/app/importer.go:1543-1636 | registering equals installing, then claiming the compensating attempt if teardown was requested, then dropping the reservation |
| ImporterObject.Importer.FindDetachTarget | internal/app/importer.go:805-856 | a reservation wins over a handle and records the teardown intent; else the handle, else an untracked attempt, is owned or followed |
| ImporterObject.Importer.ClaimExact | internal/app/importer.go:1018-1036 | rollback claims only the current handle and does not consult reservations |
| ImporterObject.Importer.Close | internal/app/importer.go:376-394 | Close refuses new work, cancels every registered handle and no other, and captures a channel that is closed exactly when the counter is zero |
| ImporterRuns.StructureStep | internal/app/importer.go:704-1653 | every step of Attach, Detach, the watchers, Close and the kernel keeps the structural invariant |
| ImporterRuns.AccountingStep | internal/app/importer.go:25-86 | every step keeps the wait-group counter equal to the number of enrolled goroutines |
| ImporterRuns.ReachableInv | internal/app/importer.go:376-1653 | the invariants hold in every reachable state |
| ImporterTheorems.TeardownIntentIsKept | internal/app/importer.go:805-943 | no teardown intent is lost: in every later state of every run a marked attach is still in flight with no waiter woken, or aborted holding nothing, or lost to Close and releases the port or reports the leak, or published a handle that was born claimed by one compensating attempt, stored for the waiters before they are woken, and that no watcher ever watches |
| ImporterTheorems.DetachHitsOnlyItsGeneration | internal/app/importer.go:945-1002 | when a covered claim whose watcher exited or never existed calls the kernel, its handle is current and only its own socket can be live on the port |
| ImporterTheorems.ClaimShutsPort | internal/app/importer.go:798-856 | from the claim until its attempt is finished, and so also after the kernel released the port and before the handle is deleted: while a covered claim's handle is current, no step grants a reservation on its port, replaces its handle or makes another socket live there |
| ImporterTheorems.RollbackWithoutReservationIsCovered | internal/app/importer.go:1018-1047 | a rollback made before Close with no reservation outstanding on its port is covered too |
| ImporterRollback.RollbackHazardIff | internal/app/importer.go:1018-1047 | when a rollback claims a handle, some continuation has it release another attach's socket, with its wait for the watcher not expired, if and only if the claim is not clear (a foreign socket is live on the port, or a handoff under way there can still make one live or publish) and the handle's own watcher is neither retiring it nor waiting for the very attach that will supersede it |
| ImporterRollback.RollbackHazardIsReachable | internal/app/reconnect.go:495-605 | a run from a new importer leads to such a claim: reconnect onto a second port, Detach of the first, the second port drops, another attach reserves it before the rollback claims |
| ImporterRollback.ShieldedClaimIsReachable | internal/app/reconnect.go:495-605 | a run leads to a claim that is not clear and is harmless all the same, because the handle's own watcher is retiring it |
| ImporterScenario.PublishRun | internal/app/importer.go:1294-1558 | an attach whose port nobody else wants reserves it, hands its socket over and publishes a handle, whatever else is going on |
| ImporterStopWatcher.StopWatcher | internal/app/reconnect.go:142-605 | unless it is retiring the handle, or its own attempt reserves the port, the watcher of a claimed generation can be brought to its exit with no change to the port, to the claim or to another attach's handoff there |
| ImporterShield.OutOfDangerRun | internal/app/importer.go:950-1002 | while the handle's watcher is retiring it, or waits for the attach that will supersede it, no run lets the claim reach its kernel call with a foreign socket live |
| ImporterProgress.WaitsEnd | internal/app/importer.go:798-1047 | no deadlock: in every reachable state each waiter (for a publication, an attempt, a watcher, a rollback or a reconnect attempt) heads a finite chain of waits that ends in a thread with an enabled step, without counting time limits or cancellations nobody asked for |
| ImporterAwaited.ReachableSound | internal/app/reconnect.go:142-605 | in every reachable state watchers wait only on generations published after they started, open reservations and promised watchers have an attach that will serve them, and running watchers exist |
| ImporterAccountability.UntrackedIsDisjoint | internal/app/importer.go:844-855 | an untracked detach never shares its port with a handle or a reservation |
| ImporterAccountability.ReservationIsNeverLost | internal/app/importer.go:1560-1573 | the "reservation lost" error is unreachable: registration publishes a new generation as the port's handle exactly when the importer is open, and otherwise loses to Close |
| ImporterAccountability.OneHandlePerAttach | internal/app/importer.go:1522-1558 | an attach publishes at most one handle |
| ImporterAccountability.HandoffIsAnswered | internal/app/importer.go:1434-1469 | from a successful AttachRemote to the end of that Attach, the run contains its own DetachPort on the port or it published a handle for exactly that port |
| ImporterAccountability.NoSocketIsForgotten | internal/app/importer.go:1266-1288 | every live socket of this importer belongs to an attach in flight, to the current handle of its port, or to a leak reported after Close |
| ImporterAccountability.AttemptHasOneOwner | internal/app/importer.go:242-255 | a handle has at most one unfinished attempt, the handle points to it, and it has one owner |
| ImporterAccountability.EveryoneSeesOneResult | internal/app/importer.go:271-292 | owner and followers, whenever they return, return the one result the attempt was closed with |
| ImporterWaiters.WaiterGetsCompensation | internal/app/importer.go:858-943 | a Detach that waited for a publication and comes back gets the result of the compensating attempt stored for the waiters, in every run, and never starts one of its own |
| ImporterWaiters.DetachStopsCurrentHandle | internal/app/importer.go:798-856 | a Detach before Close marks the current handle of its port in every later state, also when it goes on to wait for an attach that is replacing that handle, and then it cancels the handle too |
| ImporterResults.DetachReportsTheKernel | internal/app/importer.go:798-1016 | over every run a Detach makes at most one kernel call; if it closed its attempt, it returns and stores for its followers exactly what the kernel answered, or success without a call because its handle was superseded; a Detach that owned no attempt made no call |
| ImporterAccountability.SuccessIsForever | internal/app/importer.go:950-1002 | after a Detach reported success, or that the port was not bound, in every later state the socket of the generation it claimed is gone, its handle is not registered, and no Detach of the port follows that finished attempt |
| ImporterAccountability.SettledPortIsGranted | internal/app/importer.go:945-1016 | the port such a Detach leaves is free for all: with the importer open and no reservation, untracked attempt or other handle on it, the next attach is granted it and the next Detach asks the kernel itself |
| ImporterReconnect.GivenUpIsForgotten | internal/app/reconnect.go:394-480 | a handle its watcher gave up, because its attempts ran out or because it was replaced, is not registered in any later state of any run |
| ImporterReconnect.ReplacedIsForgotten | internal/app/reconnect.go:495-523 | after a successful reconnect that no Detach has marked, the old handle is not registered once the watcher is done, whichever port the replacement took |
| ImporterReconnect.ReconnectIsNotAbandoned | internal/app/reconnect.go:394-480 | once a watcher has believed a detach signal it is done only after its handle was replaced, given up after the last attempt, claimed by a Detach or cancelled, or the importer was closed; a failed or refused attempt does not end it |
| ImporterReconnect.DetachReachesReplacement | internal/app/reconnect.go:495-605 | a Detach that marked the old handle before the watcher looked reaches the replacement: once the watcher is done, a Detach has the replacement too or it is not registered any more |
| ImporterReconnect.OwnedReplacementIsLeftAlone | internal/app/reconnect.go:548-568 | a rollback that finds a Detach on the replacement, failed or not, never rolls it back itself, in any later state |
| ImporterReconnect.JoinedAttemptIsAwaited | internal/app/importer.go:1018-1047 | a rollback that joined a running Detach is done only after that Detach has finished |
| ImporterReconnect.SupersededIsCancelled | internal/app/importer.go:1575-1610 | an attach that publishes on a port with a handle supersedes it: in every later state the old handle is cancelled and not registered |
| ImporterAccountability.NoAttemptAfterSuccess | internal/app/importer.go:257-269 | no attempt follows a successful one on the same handle |
| ImporterAccountability.FailureAllowsFreshOwner | internal/app/importer.go:257-269 | after a failed attempt the next Detach owns a fresh attempt on the same registered handle |
| ImporterAccountability.DrainChannelMeansDone | internal/app/importer.go:1075-1100 | the channel Close captured is closed exactly when every enrolled goroutine has finished |
| ImporterAccountability.DrainIsFinal | internal/app/importer.go:376-407 | after Close a counter of zero stays zero in every later state, no step of the run is a kernel call, and no handle changes and no detach attempt starts |
| ImporterAccountability.InFlightAttachesDiffer | internal/app/importer.go:1122-1157 | two attaches that hold a slot at once are for different endpoint and bus id pairs |
| ImporterSlots.AttachIsRefusedIff | internal/app/importer.go:1122-1157 | in every reachable state an attach is refused as closed exactly after Close, as busy exactly while an attach for the same endpoint and bus id holds its slot, and is let in otherwise |
| ImporterSlots.PortIsGrantedIff | internal/app/importer.go:1294-1430 | in every reachable state a port is granted exactly when the importer is open, no other attach is handing a socket over on it, no Detach is releasing it without a handle, and its current handle is not being detached |
| ImporterSlots.OnePortPerAttach | internal/app/importer.go:1294-1430 | an attach asks for one port only: granted or refused it never asks again, and a refused one never calls the kernel and publishes nothing |
| ImporterAccountability.NothingPanics | internal/app/importer.go:35-56 | no run closes a channel twice or drives the counter below zero |
| ImporterHistory.StepGrows | internal/app/importer.go:242-292 | no step changes a handle's identity, a published result, a settled reservation or a recorded intent, or revives a dead socket |
| ImporterHistory.RunGrows | internal/app/importer.go:242-292 | the same along every run |
| ExporterHandle.SessionHandle.HandoffEnds | internal/app/exporter.go:156-173 | a failed handoff completes the cleanup; a successful one is claimed by the handler exactly when it was cancelled meanwhile |
| ExporterHandle.SessionHandle.Signal | internal/app/exporter.go:180-198 | cancelling claims the cleanup exactly when the handoff already succeeded |
| ExporterSessionEnd.WaitForSessionEnd | internal/app/session.go:601-708 | a parked handler ends at the first of: done closed, an event for its device, an inactive probe; losing the event source alone never ends it, and completion claims the cleanup unless Shutdown has |
| ExporterHandle.WaitCleanupBounded | internal/app/exporter.go:718-776 | every error of every completed future is reported once and in order, and one wedged future hides none of the others |
| ExporterHandle.CompletedCleanupErrors | internal/app/exporter.go:765-776 | the non-blocking sweep reports exactly the completed errors |
| ExporterHandle.ErrorsInOrder | internal/app/exporter.go:718-776 | reported errors are in handle order without repetition |
| ExporterRegistry.Exporter.Register | internal/app/exporter.go:1104-1146 | registration checks shutdown, the caps and the device in that order and records the session |
| ExporterRegistry.RegisterAccounts | internal/app/exporter.go:1104-1146 | registration keeps counters, caps and device exclusivity; it succeeds exactly when the exporter is open, no enabled cap is reached and the device is free, and otherwise reports the first of shutdown, total cap, cap of the peer and device that stands in the way |
| ExporterRegistry.UnregisterAccounts | internal/app/exporter.go:1152-1175 | unregistration keeps counters, caps and device exclusivity |
| ExporterRegistry.RegisterThenUnregister | internal/app/exporter.go:1104-1175 | unregistering the session just registered restores the registry exactly |
| ExporterRegistry.Exporter.Capture | internal/app/exporter.go:643-668 | the first Shutdown retains every live session once; every call gets the same retained handles |
| ExporterRegistry.RepeatShutdownSeesSameHandles | internal/app/exporter.go:643-668 | a repeated Shutdown changes nothing and sees the first one's handles |
| ExporterOutcome.EveryShutdownSeesTheFirst | internal/app/exporter.go:643-668 | the first Shutdown of a run works on exactly the sessions live at that moment, each once, with the listener and the accept loop; every later one works on the same sessions and the same loop, and on no listener |
| ExporterOutcome.FutureHoldsTheAnswer | internal/app/exporter.go:202-252 | over every run at most one Disconnect is made for a session, and its closed future holds an error if and only if that Disconnect was made and the kernel failed it; otherwise it holds success |
| ExporterOutcome.ShutdownReportsTheFailures | internal/app/exporter.go:695-776 | of the retained futures, once all are closed, exactly those are reported as errors whose Disconnect the kernel failed in the run |
| ExporterOutcome.RetainedFutureCanClose | internal/app/exporter.go:679-712 | after the sweep no retained future is stuck: at most four enabled steps of its own session, and of nobody else, close it |
| ExporterOutcome.HandoffIsAnnounced | internal/app/session.go:408-530 | in every run a socket is handed to the kernel only after the handler got its lifecycle subscription and wrote the success reply |
| ExporterOutcome.ServeIsDeclinedIff | internal/app/exporter.go:805-824 | at any moment of any run Serve is refused as shut down exactly when some Shutdown ran, and as already running exactly when none ran and another Serve has not returned |
| ExporterInvariant.ActKeeps | internal/app/exporter.go:108-252 | every step of a handler, its timer, its cleanup goroutine and Shutdown's visit keeps the session's claim, issue, phase and end rules |
| ExporterShutdownSteps.InvStep | internal/app/exporter.go:485-1175 | every step keeps the exporter invariant |
| ExporterShutdownSteps.ReachableInv | internal/app/exporter.go:485-1175 | the invariant holds in every reachable state |
| ExporterTheorems.DisconnectAtMostOnce | internal/app/exporter.go:695-712 | Disconnect is issued at most once per session, only after its ExportOnConn succeeded, and no cleanup future is closed twice |
| ExporterTheorems.DisconnectHitsOwnExport | internal/app/exporter.go:679-712 | a Disconnect never tears down another session's export |
| ExporterTheorems.NoOrphanedExport | internal/app/session.go:532-580 | a handler that is gone leaves a closed future or exactly one pending cleanup goroutine; after a successful handoff there was an observed peer end or exactly one Disconnect; otherwise none; its done channel is closed |
| ExporterKernel.NoExportOutlivesItsSession | internal/app/session.go:637-783 | when observations of the peer's end are true, the kernel carries a gone session's socket only if its Disconnect failed and its future says so |
| ExporterTheorems.SessionsAreAccounted | internal/app/exporter.go:1098-1175 | in every reachable state each per-peer counter is the number of live sessions of that peer with no zero entries, no enabled cap is exceeded, and live sessions have distinct bus ids |
| ExporterTheorems.ReplyOnlyWhenRegistered | internal/app/session.go:493-530 | a success OP_REP_IMPORT is written, and a socket handed to the kernel, only for a registered session and only one per device |
| ExporterTheorems.ShutdownMissesNoSession | internal/app/exporter.go:643-668 | every session ever registered was unregistered before Shutdown or is retained, and not both |
| ExporterTheorems.SweepReachesEverySession | internal/app/exporter.go:679-691 | after the sweep every retained session is cancelled and its future is closed or in hand: its handler is in the kernel or disconnects, or a started goroutine does |
| ExporterTheorems.ShutdownResultsAreImmutable | internal/app/exporter.go:514-557 | however many Shutdowns run, the retained set never changes, a closed future keeps its result, and no further Disconnect is issued for it |
| ExporterTheorems.OneAcceptLoop | internal/app/exporter.go:805-824 | at most one Serve holds the accept-loop reservation |
| ExporterTheorems.LoopExitIsSignalledOnce | internal/app/exporter.go:559-624 | between the explicit signal after the accept loop and the deferred one, acceptLoopExited is closed at most once and never while the loop may still run; after either signal, also when the loop panicked, it is closed exactly once |
| ExporterTheorems.ServedListenerIsClosed | internal/app/exporter.go:514-530 | a listener still being served when Shutdown wins is captured by Shutdown and closed by it |
| ExporterTheorems.LateListenerIsRejected | internal/app/exporter.go:589-599 | a listener produced after Shutdown is never served and is closed by its Serve |
| ExporterTheorems.DrainChannelMeansDone | internal/app/exporter.go:936-942 | the drain channel is closed exactly when every handler and handshake timer has finished |
| ExporterTheorems.DrainIsFinal | internal/app/exporter.go:540-548 | after Shutdown and the accept loop's exit a counter of zero stays zero in every later state |
| WireBytes.PaddedStringFromBytes | internal/adapter/wire/fields.go:130-154 | fast path and byte scan together return the printable prefix, flagged exactly when no NUL ends it |
| WireBytes.FieldOfPad | internal/adapter/wire/fields.go:58-164 | a printable in-width string reads back from its padded field unflagged |
| WireBytes.FieldIsPrefix | internal/adapter/wire/fields.go:130-154 | an unflagged field is its text followed by a NUL; later bytes are ignored |
| WireStream.LimitReader.Read | internal/app/limits.go:158-184 | the limiter passes bytes in order and reports the excess instead of truncating silently |
| WireStream.LimitReader.ReadFull | internal/adapter/wire/header.go:79-85 | a full read through the limiter depends on the bytes and the limit, not on the chunks |
| WireRoundTrip.HeaderRoundTrip | internal/adapter/wire/header.go:32-105 | an encoded header decodes to its opcode and status and consumes eight bytes |
| WireRoundTrip.HeaderLayout | internal/adapter/wire/header.go:32-39 | every header starts with version 0x0111 and carries opcode and status at their offsets |
| WireRoundTrip.DeviceLayout | internal/adapter/wire/layout.go:17-101 | every field of the 312-byte record stands at its offset, strings NUL-terminated |
| WireRoundTrip.DeviceRoundTrip | internal/adapter/wire/layout.go:58-185 | a device record reads back with local-only fields blank and no flags |
| WireRoundTrip.InterfacesRoundTrip | internal/adapter/wire/devlist.go:113-291 | interfaces read back cut or zero-padded to the declared number with alternate settings zero |
| WireRoundTrip.DevlistRoundTrip | internal/adapter/wire/devlist.go:74-291 | any list of at most 1024 carried devices decodes from its encoding, consumes exactly the frame whatever follows, and has no truncation flags |
| WireRoundTrip.LongDevlistIsRefused | internal/adapter/wire/devlist.go:170-180 | a longer list is refused whatever its devices contain |
| WireRoundTrip.ListedIsStable | internal/adapter/wire/devlist.go:74-291 | what a peer sees can be sent on unchanged |
| WireRoundTrip.ImportReplyRoundTrip | internal/adapter/wire/import_op.go:95-170 | a success reply decodes to the device |
| WireRoundTrip.ImportErrorRoundTrip | internal/adapter/wire/import_op.go:117-206 | exactly the statuses 1 to 4 can be sent, and they decode to not found, already bound, unavailable and not found; any larger status is a protocol error |
| WireTruncation.TruncatedDevlistIsDetected | internal/adapter/wire/devlist.go:147-302 | every strict prefix of any accepted OP_REP_DEVLIST frame decodes to an end-of-file class error |
| WireTruncation.TruncatedImportReplyIsDetected | internal/adapter/wire/import_op.go:146-170 | every strict prefix of any accepted successful OP_REP_IMPORT frame decodes to an end-of-file class error |
| WireTruncation.DevlistCut | internal/adapter/wire/devlist.go:147-302 | cutting the stream after the frame changes nothing; cutting inside it is an end-of-file error |
| WireTruncation.OnlyEmptyIsCleanEof | internal/adapter/wire/header.go:107-117 | a clean end of file is reported for the empty stream and for no other |
| WireAccepted.HeaderIsJudged | internal/adapter/wire/header.go:41-117 | on every stream: the error of a short header, the protocol mismatch of a wrong version or opcode byte, the protocol error of a non-zero status, and otherwise the header |
| WireAccepted.OpcodesOnTheWire | internal/adapter/wire/header.go:32-39 | the eight bytes every request and success reply starts with, written out |
| WireAccepted.WrongOpcodeIsRefused | internal/adapter/wire/import_op.go:40-58 | each decoder takes its own opcode and refuses the other known ones as a protocol mismatch |
| WireAccepted.DeviceAcceptedIff | internal/adapter/wire/layout.go:109-185 | a record is accepted if and only if 312 bytes are there, bus and device number fit sixteen bits and the speed is at most 6 |
| WireAccepted.DeviceTextIff | internal/adapter/wire/layout.go:132-185 | path and bus id of an accepted record are unflagged exactly when bytes 0-255 and 256-287 hold them, printable and ended by a NUL |
| WireAccepted.DevlistIsSummary | internal/adapter/wire/devlist.go:147-256 | a decoded list is what its entries decode to one after the other, as many as the count says, and its flags name exactly the malformed fields by device |
| WireAccepted.AcceptedDevlistTravels | internal/adapter/wire/devlist.go:74-291 | the converse round trip: whatever list is accepted without a flag, from any bytes, its own encoding decodes to that list again |
| WireImport.ParsedIsWireSafe | pkg/domain/busid.go:29-118 | every bus id a user may enter is accepted on the wire |
| WireImport.ParsedIffTopology | pkg/domain/busid.go:18-52 | a user may enter exactly the ids of at most 31 bytes that are a bus number, a hyphen, and port numbers with dots between them |
| WireImport.ImportRequestIff | internal/adapter/wire/import_op.go:40-91 | on every stream the request decoder returns an id if and only if the stream begins with the eight header bytes and a 32-byte field that holds it, 1 to 31 letters, digits, dots, underscores and hyphens ended by a NUL; it consumes forty bytes |
| WireImport.BasenameRoundTrip | pkg/domain/busid.go:76-118 | every such id, not only those a user may enter, is encoded and decodes to itself whatever follows |
| WireImport.RequestRoundTrip | internal/adapter/wire/import_op.go:16-91 | an import request decodes to its bus id and consumes 40 bytes |
| WireImport.RequestThroughLimiter | internal/app/limits.go:141-183 | a limit of at least 40 bytes does not disturb it |
| WireImport.LimitNeverChangesBusId | internal/app/limits.go:141-183 | on every stream a limit can only turn a bus id into an error, never into another bus id |
| WireImport.SmallLimitIsAnError | internal/app/limits.go:158-175 | a positive limit below 40 bytes is always an error |
| WireHandshake.ImportHandshake | internal/app/session.go:65-101 | encoder, any chunking, limiter and header-then-body decoder end to end: the bus id arrives unchanged if the limit is disabled or at least 40, and is an error otherwise |
| WireReader.ReadRequest | internal/app/session.go:79-101 | header-then-body decoding agrees with the one-shot decoder on every stream with that opcode |
| WireReader.ReadImportRequest | internal/adapter/wire/import_op.go:40-91 | the request reader, chunked and limited, agrees with the decoder that `WireImport.ImportRequestIff` fixes byte by byte |
| WireReader.ReadHeader | internal/adapter/wire/header.go:60-105 | the header decoder agrees with its function on every stream and limit, and without a limit the errors agree too |
| WireReader.ReadDevice | internal/adapter/wire/layout.go:109-185 | the device decoder agrees with its function, errors and flags included |
| WireReader.ReadInterfaces | internal/adapter/wire/devlist.go:259-291 | the interface decoder agrees with its function |
| WireReader.InterfaceList | internal/adapter/wire/devlist.go:278-290 | the loop collects every descriptor in order |
| WireReader.MergeFlags | internal/adapter/wire/devlist.go:251-256 | truncation flags keep their order and get the device's index |
| WireReader.ReadBody | internal/adapter/wire/devlist.go:198-219 | the loop over devices agrees with the recursive definition, flags and errors included |
| WireReader.ReadDevlist | internal/adapter/wire/devlist.go:147-191 | the list decoder agrees with its function on every stream |
| WireReader.ReadImportReply | internal/adapter/wire/import_op.go:146-170 | the reply decoder agrees with its function, status errors included |
| WireWriter.FillDeviceTail | internal/adapter/wire/layout.go:87-101 | the buffer filled in place is the record's tail |
| WireWriter.WritePaddedString | internal/adapter/wire/fields.go:58-73 | a string is padded and written, or refused when it leaves no room for the terminator |
| WireWriter.WriteDevice | internal/adapter/wire/layout.go:58-80 | the record is written, or the first field that is too wide is reported |
| WireWriter.WriteInterfaces | internal/adapter/wire/devlist.go:113-133 | the declared number of descriptors is written, dropping or zeroing the difference |
| WireWriter.WriteDevlist | internal/adapter/wire/devlist.go:74-108 | encoding succeeds exactly when the count fits and every field fits, and reports the first device that does not |
| VhciTopology.ProbeControllerCount | internal/adapter/kernel/topology.go:239-260 | the count is the number of status files before the first missing one, and any unreadable one is an error |
| VhciTopology.StatusIsExact | internal/adapter/kernel/topology.go:292-303 | below 2^31 controllers the derived port counts multiply back to nports without wrapping |
| VhciTopology.BuildBusMap | internal/adapter/kernel/topology.go:310-367 | the loop gives the fold of the controllers, or its first failure; `VhciTopology.LowerBusIsHighSpeed` and `VhciTopology.DiscoveryFailsWith` fix both |
| VhciTopology.CountedGrows | internal/adapter/kernel/topology.go:336-367 | two entries per controller can only be reached if no bus number repeats, and then every controller and hub has exactly one bus |
| VhciTopology.DiscoveredIffComplete | internal/adapter/kernel/topology.go:203-226 | discovery succeeds if and only if nports is positive and divisible by twice the number of controllers, every controller directory has exactly two buses, and no bus number occurs twice |
| VhciTopology.DiscoveryFailsWith | internal/adapter/kernel/topology.go:203-226 | a failed discovery reports a zero or indivisible port count first, then the first broken controller, unreadable or incomplete, then a repeated bus number |
| VhciTopology.LowerBusIsHighSpeed | internal/adapter/kernel/topology.go:336-422 | whenever discovery succeeds, of the two buses of controller i, listed in either order, the lower one is mapped to its HS hub and the higher one to its SS hub |
| VhciTopology.DiscoveredIsSound | internal/adapter/kernel/topology.go:203-226 | whenever discovery succeeds the arithmetic is exact and the bus map covers every hub once, with no assumption on the number of controllers |
| VhciTopology.DiscoveredPortsAreABijection | internal/adapter/kernel/topology.go:94-114 | bus number and root port to flat port is a bijection onto [0, nports) |
| VhciTopology.PortIsExact | internal/adapter/kernel/topology.go:94-114 | a flat port does not wrap, is below nports, and divided by the block size gives its controller |
| VhciTopology.EventPortIsRight | internal/adapter/kernel/uevent.go:587-637 | the port reported for an event is the one its bus and root port name, and dividing it gives back the event's controller |
| VhciTopology.EventIsResolvedIff | internal/adapter/kernel/uevent.go:618-637 | an event is resolved exactly when it names a port of its controller |
| VhciTopology.DiscoveredEventPort | internal/adapter/kernel/uevent.go:587-637 | from the kernel files to the number: with hc ports on each hub, root port r of the lower bus of controller i resolves to flat port 2*hc*i + r - 1, and of the higher bus to hc more |
| VhciPorts.ParseStatusFile | internal/adapter/kernel/ports.go:159-222 | one status file gives its rows in order, or the first inconsistency |
| VhciPorts.RowsOfIff | internal/adapter/kernel/ports.go:159-222 | a file is accepted if and only if no line says the controller is not ready and every row is in its block; then all its rows are kept, in order |
| VhciPorts.FirstMisfitDecides | internal/adapter/kernel/ports.go:195-215 | the first line that does not fit decides between not ready and wrong controller |
| VhciPorts.TableOfIff | internal/adapter/kernel/ports.go:120-140 | the table is read if and only if every file is there and fits its controller; it is the rows of all files, file after file |
| VhciPorts.ReadStatusRows | internal/adapter/kernel/ports.go:120-140 | the rows of all controllers in order, or the first failure |
| VhciPorts.TableInBlocks | internal/adapter/kernel/ports.go:159-222 | every accepted row belongs to a controller that was read |
| VhciPorts.LowestFreePort | internal/adapter/kernel/ports.go:424-444 | the port returned is the least free one of the hub class; none is returned exactly when none is free |
| VhciPorts.RowIsInRange | internal/adapter/kernel/attach.go:232-239 | a row of the snapshot always passes the range check on that snapshot |
| VhciPorts.StatusForPort | internal/adapter/kernel/attach.go:359-367 | the status of the first row of the port, or none |
| VhciAllocator.RowsShowJoined | internal/adapter/kernel/ports.go:120-140 | the rows of all files show every controller as it was when its file was read |
| VhciAllocator.ImporterAdapter.AttachRemote | internal/adapter/kernel/attach.go:51-94 | the hook and the result name the least port seen unused or ready, each file read at its own moment, on the SS hub if and only if the speed is 5 or 6; no port is free exactly when there is none such, there is no snapshot exactly when the files do not agree with nports, the range check never fails, success needs the hook and the kernel to agree, and only that port changes |
| VhciAllocator.ImporterAdapter.DetachPort | internal/adapter/kernel/attach.go:313-357 | with readable files: out of range from nports on, not bound when the port was not seen in use or the write fails with EINVAL, else the write decides and exactly that port is freed |
| VhciAllocator.ChosenPortIsStillFree | internal/adapter/kernel/attach.go:62-93 | over any interleaving of calls, kernel releases and foreign claims, at every attach write the chosen port is still free unless another process claimed it after the call took portMutationMu, and every lower port of the class that is free by then was released after that |
| VhciAllocator.CondemnedPortIsStillUsed | internal/adapter/kernel/attach.go:319-341 | a detach write is aimed at a port in use unless it was released after the call took the lock |
| VhciAllocator.NoLivePortIsGrantedTwice | internal/adapter/kernel/attach.go:51-94 | even if the kernel accepts every write and whatever other processes claim, no port is granted twice without a release in between |
| VhciAllocator.ReadIsStep | internal/adapter/kernel/ports.go:120-140 | a call that has read some status files and reads the next one takes a Read step of such a run |
| VhciAllocator.AttachIsSteps | internal/adapter/kernel/attach.go:51-94 | what AttachRemote promises of the port, the table and its result are the steps of such a run |
| VhciAllocator.DetachIsSteps | internal/adapter/kernel/attach.go:313-357 | the same for DetachPort |
| EventSubscriber.Subscriber.Publish | internal/app/exporter_watch.go:57-77 | an event is accepted exactly when the subscriber is open and its buffer has room |
| EventSubscriber.PublishIsAcceptedIff | internal/app/exporter_watch.go:57-77 | at any moment of any run a published event is accepted, as the last one, exactly when no Close came before and fewer than sixteen accepted events wait; otherwise it is dropped and nothing else changes |
| EventSubscriber.Subscriber.Drain | internal/app/exporter_watch.go:240-255 | draining yields the whole buffer in order |
| EventSubscriber.NothingAcceptedAfterClose | internal/app/exporter_watch.go:27-77 | nothing is accepted after the subscriber is closed |
| EventSubscriber.EndedIteratorSawEverything | internal/app/importer_watch.go:213-255 | an iterator that ended on done yielded every accepted event exactly once in acceptance order, whatever happens later |
| CallbackQueue.CallbacksAreOrdered | internal/app/reconnect.go:685-730 | callbacks run in notification order, each at most once, and the final non-blocking send always finds the slot free |
| CallbackQueue.LatestNotificationIsNeverLost | internal/app/reconnect.go:685-722 | once Notify returned, the latest notification is queued or taken, and it is the last callback to run |
| SessionId.NewSessionId | pkg/domain/session.go:88-119 | an id is minted from sixteen random bytes and the clock, or refused if the source is short |
| SessionId.MintedLayout | pkg/domain/session.go:88-119 | the layout of section 5.7 of RFC 9562: timestamp, version 7, variant 10, random bits kept |
| SessionId.Print | pkg/domain/session.go:128-144 | the text is the canonical hyphenated form |
| SessionId.TextIsCanonical | pkg/domain/session.go:128-144 | hyphens stand at 8, 13, 18 and 23, and the other characters are lower-case hexadecimal digits that read two by two are the bytes of the id |
| SessionId.TextOrderIsIdOrder | pkg/domain/session.go:128-144 | the printer is injective and order-preserving on all ids |
| SessionId.IdsAreChronological | pkg/domain/session.go:88-144 | for any random bytes, ids minted at earlier milliseconds below 2^48 have smaller texts |

## Left out

- ImporterTheorems.DetachHitsOnlyItsGeneration: does not cover a claim whose bounded wait for the watcher expired, because the watcher may then still remove the handle before the kernel call.
- VhciAllocator.ImporterAdapter.AttachRemote: does not model the descriptor handling around the sysfs write; module availability and the write itself are one verdict of the kernel.
- VhciPorts.ParseStatusFile: starts from tokenised lines; splitting a line into fields and the numeric status codes are not modelled.
- WireStream.LimitReader.ReadFull: at the exact limit the end of the connection may arrive with the last bytes, so the kind of error is not fixed there.
- WireReader.ReadDevlist: the buffered reader around the connection may read past the frame; the model reads exactly the frame, and the TrailingBytes flag, which depends on what was prefetched, is not modelled.
- WireReader.ReadHeader: with a limit set the kind of error is not fixed, for the same reason as in ReadFull.
- Liveness: no fairness is assumed, so nothing states that a pending step is eventually taken; that waits never block each other is proved.
- Wall-clock bounds, backoff delays and the accept rate limiter; a timeout is a step that may happen at any time.
- Which of several ready end signals a session handler notices first; any order is allowed.
- Write errors towards a peer, other than that a reply may fail.
- The kernel port mutex is not assumed by the importer protocol; the order of kernel calls is left open there.
- Other processes attaching ports are modelled in the allocator only.
- The subscriber lists and their snapshots when an event is published; each subscriber is modelled by itself.
- The one-time close of an accepted connection and the forced close of connections when a drain deadline expires.
- Bind and Unbind, device listing, transports, netlink sockets and sysfs access.
- The command line, rendering, status and health servers, systemd activation, logging, options and enum names.
