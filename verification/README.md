# YakShed run protocols, in Dafny

YakShed is a desktop application that supervises coding-agent runs. This project models the
protocols on which that supervision rests and proves what they keep under every interleaving of
tasks, cancellation at any await, and crashes. `dafny verify dfyconfig.toml` checks all of it.

Each protocol is written in two layers. A *protocol* module gives the state as a value and the lock
sections of the code as actions (`Enabled`, `Apply`); its lemmas hold for every legal sequence of
actions, that is, for every interleaving. A *class* then runs the code's own methods on fields: each
lock section is proved to be one action, and between two sections `Yield` lets the other tasks take
any number of actions. An answer of the environment (a write that fails, a store that refuses, a
provider that does not answer) is a parameter or a nondeterministic value. A caller that waits is
given a `patience`, after which it drops the call: cancellation at an await is a normal outcome. Ghost
logs (`mine`, `trail`, `faults`, `history`) record what a call did and met, so that its contract can say
why it ended as it did.

`Runs` defines, once, what a run of such a system is and what every run keeps.

| files | what they model |
|---|---|
| `MockProtocol`, `MockProofs`, `MockHarness` | the mock harness's staged delivery: validate under the lock, reserve capacity without it, validate again, commit |
| `RoutingProtocol`, `RoutingProofs`, `Routing` | the run supervisor's routing of one event stream to bounded per-run channels, and its start handshakes |
| `TimelineModel`, `Transcript`, `Timeline` | the batching of message and command chunks into the stored timeline: how it is read, what text and entries it holds, and the consumer itself |
| `ApprovalProtocol`, `Approvals` | the begin, respond, confirm protocol of approvals |
| `StartupOutcome`, `Startup`, `Paging` | reconciliation of listed runs after a restart, over pages |
| `Framing`, `Reducer`, `Settlement`, `CodexWire`, `Actor` | the actor that owns a Codex child process: framer, reducer, run lifecycle, request table, login |
| `EventReplay` | the desktop harness's pending and replay queues |
| `MigrationProtocol`, `Migration` | the write-ahead credential migration |
| `SecretStore`, `BrokerProtocol`, `BrokerProofs`, `Broker` | the local secret file and the broker that serialises writes to it |
| `Snapshots` | the optimistic, multi-page reads of the desktop API |
| `Runs`, `Common` | runs of a transition system; options and maps |

## Where the code promises less than it seems to

Each of these is a property that fails, with an input at which it fails and the exact condition
under which it holds.

* *Routing.* If the event pump fails while a start is in flight, the start later routes its run
  without a work item (`PumpFailureForgetsWorkItem`). A full channel of such a run refuses an event
  and nothing is done about it, so a later event leaves a gap: `GapReachable` is one such run of the
  supervisor, and `GapExactly` says that this is the only way.
* *Replay.* If a run is registered between receiving an event of it and classifying that event, the
  event overtakes the replayed ones (`ClassifyInOrder` has the exact condition). If it is the run's
  terminal, and exactly then, a replayed event is no longer convertible (`ClassifyKeepsConvertible`)
  and is refused when it is taken out (`RefusedFromReplay`, `RegistrationBetween`); the refusal is an
  error of `next_event`, which ends the pump.
* *Framing.* With a maximum frame size of zero, and only then, an unterminated tail is lost
  (`TailReported`); the runtime specification refuses that size (`crates/provider-codex/src/lib.rs:85`).
* *Login.* Two completion notices, one for another login, make the arrival order matter
  (`TwoCompletionsDisagree`); `LoginConfluent` says exactly when it does not.
* *Startup.* A failed transition of a run without a provider reference returns at once and leaves the
  routes prepared before it registered, though nothing reads them (`run_supervisor.rs:939`); and runs
  that were moved to Running before any failure stay so in the store. `LeftBehind` is one input with
  both; `RouteLeftExactly` and `RunningLeftExactly` say for which listed runs a store failure can have
  either effect.

Besides, the routing tables are mutually inverse exactly as long as no reference is registered for a
run while another live run has it (`RegisterInverse`, `RemoveInverse`); the provider has to see to that.

## Model

| member | source | states |
|---|---|---|
| MockProofs.ExactlyOnce | crates/provider-mock/src/lib.rs:489-843 | in every reachable state the step events sent for a run are exactly the emitting steps of the consumed prefix of its plan, in order, none lost or repeated, even where steps are equal |
| MockProofs.StepsDelivered | crates/provider-mock/src/lib.rs:663-843 | in every reachable state the scripted events of a run are as many as the sending steps its plan has passed, the event of each of these steps is of the step's own kind and carries what the step carries, and the commands that the harness numbers itself get 1, 2, 3 and so on |
| MockProofs.InjectedOnce | crates/provider-mock/src/lib.rs:1050-1085 | the unknown or malformed item that a fault injects is the first event behind the acceptance, and nothing else is ever injected |
| MockProofs.RequestsFit | crates/provider-mock/src/lib.rs:689-735 | a request is of the kind of the step that asked it, and only an answer of that kind is recorded for it |
| MockProofs.EveryEventAccounted | crates/provider-mock/src/lib.rs:489-1197 | a run is accepted first and once; only its plan completes it, only its crash fault crashes it, only an interruption interrupts it; a steer sends nothing but message chunks |
| MockProofs.ServedInTurn | crates/provider-mock/src/lib.rs:1036-1048 | the runs of each session are numbered 1, 2, 3 and so on as they are accepted, and the plans are served in the order given, each once, the default plan only when they are used up |
| MockProofs.OneTerminal | crates/provider-mock/src/lib.rs:523-661 | at most one terminal is sent for a run and nothing after it |
| MockProofs.StagedTerminalIsNext | crates/provider-mock/src/lib.rs:489-661 | a staged terminal is the next event of its run, whatever other calls do in between |
| MockProofs.GateHolds | crates/provider-mock/src/lib.rs:602-618 | no step behind a wait for a response is sent before that response is recorded |
| MockProofs.DelayHolds | crates/provider-mock/src/lib.rs:593-600 | while a delayed approval has not been released, none of the run's requests is an approval of its plan |
| MockProofs.CrashFaults | crates/provider-mock/src/lib.rs:737-770 | a crash after acceptance, or after a file mutation, ends the run right behind the event that the fault names |
| MockProofs.LaterReplay | crates/provider-mock/src/lib.rs:1199-1235 | a recorded response never changes, a finished run stays finished and silent, a plan is never swapped |
| MockProofs.InvariantStep | crates/provider-mock/src/lib.rs:489-1235 | every lock section of every call keeps the invariant from which the results above follow |
| MockProofs.ReplayInvariant | crates/provider-mock/src/lib.rs:489-1235 | the invariant holds after any interleaving of lock sections, so also when calls are cancelled at any await |
| MockHarness.Harness.Yield | crates/provider-mock/src/lib.rs:563-565 | other calls taking any number of lock sections leave the run of the harness a legal one |
| MockHarness.Harness.LaterSince | crates/provider-mock/src/lib.rs:489-1235 | nothing that was settled at an earlier point of the run of the harness has been undone since |
| MockHarness.Harness.CommitPending | crates/provider-mock/src/lib.rs:523-561 | the commit performs exactly the delivery action: it sends the event and settles the record under the same lock |
| MockHarness.Harness.FlushPending | crates/provider-mock/src/lib.rs:489-521 | what is sent is the delivery that was staged when it was looked at, and only if that is still the staged one once there is room; every other answer is told by what the call saw last |
| MockHarness.Harness.EmitStep | crates/provider-mock/src/lib.rs:663-843 | one emitted step is one legal action of the protocol and sends one event, of the kind and with the content of the step |
| MockHarness.Harness.DriveTurn | crates/provider-mock/src/lib.rs:567-843 | one turn of the drive loop takes only legal actions; it goes on only if a step was taken, something is staged, or another call took the step; an error or a dropped call is told by what happened last |
| MockHarness.Harness.DriveRun | crates/provider-mock/src/lib.rs:567-843 | a drive that succeeds leaves the run finished, out of steps, or waiting for a response or a release; it fails only for a missing run, a repeated request or a shut channel that it has just met, and takes no action but those of a drive of this run |
| MockHarness.Harness.ReleaseDelayedApproval | crates/provider-mock/src/lib.rs:845-856 | a run that was seen delayed is driven past its approval until it settles; a conflict means that none was seen delayed |
| MockHarness.Harness.StartRun | crates/provider-mock/src/lib.rs:1003-1102 | an unknown session or a refusing plan fails at the first look, before any wait for room; otherwise one run is accepted, new in its session, and driven until it settles unless its plan never completes; whatever fails is told by what happened last |
| MockHarness.Harness.Steer | crates/provider-mock/src/lib.rs:1104-1155 | a steer that succeeds sent its message once, last, on an active run with nothing staged; one that does not sent none, and says why |
| MockHarness.Harness.SteerTurn | crates/provider-mock/src/lib.rs:1104-1155 | one attempt to steer: validate, reserve, validate again, send; it is repeated only if something is staged |
| MockHarness.Harness.Interrupt | crates/provider-mock/src/lib.rs:1157-1197 | an interrupt that succeeds leaves the run inactive: its last step was its own interrupted terminal, or the staged terminal |
| MockHarness.Harness.InterruptTurn | crates/provider-mock/src/lib.rs:1157-1197 | one attempt to interrupt: it commits the interrupted terminal only if nothing else is staged, and is repeated only then |
| MockHarness.Harness.RespondToRequest | crates/provider-mock/src/lib.rs:1199-1235 | an unknown request, one of another kind and one answered differently are refused at once; otherwise this very response is recorded, once, and the run is driven until it settles |
| RoutingProofs.GapFree | crates/yakshed-application/src/run_supervisor.rs:1304-1450 | in every state that can be reached, given that no reference is registered for two live runs at once, the three tables are mutually inverse, the buffers bounded, and on every channel whose run had a work item when routed the pump's events are one contiguous block of the provider run's stream |
| RoutingProofs.GapExactly | crates/yakshed-application/src/run_supervisor.rs:1319-1334 | the exact condition: on an open channel that is not about to be closed and on which nothing was refused yet, some continuation leaves a gap if and only if its run had no work item when it was routed |
| RoutingProofs.GapReachable | crates/yakshed-application/src/run_supervisor.rs:1304-1420 | one run of the supervisor, from its start, that leaves a gap |
| RoutingProofs.GapWithoutWorkItem | crates/yakshed-application/src/run_supervisor.rs:1319-1334 | the two events and one receive that leave the gap |
| RoutingProofs.PumpFailureForgetsWorkItem | crates/yakshed-application/src/run_supervisor.rs:1368-1420 | the four steps by which a run comes to be routed without its work item: the pump fails while its start is in flight |
| RoutingProofs.RefusalIsFinal | crates/yakshed-application/src/run_supervisor.rs:1319-1450 | once a push on a channel was refused, nothing more is ever pushed on it |
| RoutingProofs.HandshakeLosesNothing | crates/yakshed-application/src/run_supervisor.rs:596-631 | what a handshake that did not overflow buffered for a provider run that had no route since it opened, followed by what reaches the pump later, is that run's stream since the handshake opened |
| RoutingProofs.RegisterInverse | crates/yakshed-application/src/run_supervisor.rs:596-613 | registering a route keeps the tables inverse if and only if the provider reference is shared with no other live run |
| RoutingProofs.RemoveInverse | crates/yakshed-application/src/run_supervisor.rs:1147-1167 | taking a route back keeps the tables inverse under exactly the same condition |
| RoutingProofs.CloseInverse | crates/yakshed-application/src/run_supervisor.rs:1422-1450 | closing a run keeps the tables inverse |
| RoutingProofs.CloseExactly | crates/yakshed-application/src/run_supervisor.rs:1422-1450 | closing leaves nothing of the run or of its provider run in any table or buffer, and leaves every other run, provider run and buffered event alone |
| RoutingProofs.RemoveUndoesPrepare | crates/yakshed-application/src/run_supervisor.rs:1147-1167 | taking a freshly prepared run back restores every table |
| RoutingProofs.HandshakeArrival | crates/yakshed-application/src/run_supervisor.rs:372-408 | during a handshake every event without a route is kept at the end of its buffer, up to 64 of them, and then the overflow is noted |
| RoutingProofs.UncertainArrival | crates/yakshed-application/src/run_supervisor.rs:372-408 | outside a handshake such an event goes to one uncertain start with events of the same provider run, or else to the oldest one without events, or else nowhere; nothing else changes |
| RoutingProofs.OrderedCount | crates/yakshed-application/src/run_supervisor.rs:829-848 | the eviction queue is exactly as long as the table of uncertain starts is large |
| RoutingProofs.EvictedOldest | crates/yakshed-application/src/run_supervisor.rs:836-842 | only the oldest uncertain start is evicted, and only when there are 64 |
| RoutingProofs.RetainBounded | crates/yakshed-application/src/run_supervisor.rs:829-848 | retaining an uncertain start keeps at most 64 of them, each listed once |
| RoutingProofs.BufferBounded | crates/yakshed-application/src/run_supervisor.rs:372-408 | buffering keeps at most 64 events for the start in progress and for each uncertain start |
| RoutingProofs.InvariantStep | crates/yakshed-application/src/run_supervisor.rs:508-632 | every lock section and channel operation keeps the routing invariant |
| RoutingProofs.LaterReplay | crates/yakshed-application/src/run_supervisor.rs:1304-1334 | streams only grow, pushed blocks only grow, and a closed or refused channel stays so |
| Routing.Supervisor.BufferHandshakeEvent | crates/yakshed-application/src/run_supervisor.rs:372-408 | the search over uncertain starts and over the queue does what the protocol's buffering action says |
| Routing.Supervisor.PushOrBuffer | crates/yakshed-application/src/run_supervisor.rs:1304-1318 | the pump's lock section is exactly the arrival action |
| Routing.Supervisor.TryPush | crates/yakshed-application/src/run_supervisor.rs:1315-1330 | a full channel is told apart from a closed one, and neither takes the event |
| Routing.Supervisor.RouteEvent | crates/yakshed-application/src/run_supervisor.rs:1304-1366 | the event becomes part of its run's stream; a run whose channel was full, and only such a run, is closed before the pump looks at its next event |
| Routing.Supervisor.HandlePumpFailure | crates/yakshed-application/src/run_supervisor.rs:1368-1397 | every table is empty after one section, also under a start in flight |
| Routing.Supervisor.CloseRun | crates/yakshed-application/src/run_supervisor.rs:1422-1450 | closing forgets exactly what belongs to the run |
| Routing.Supervisor.PrepareRoute | crates/yakshed-application/src/run_supervisor.rs:1075-1098 | a fresh channel is registered with its run, its work item and in doubt |
| Routing.Supervisor.ActivateRoute | crates/yakshed-application/src/run_supervisor.rs:1100-1120 | a prepared run stops being in doubt |
| Routing.Supervisor.RemoveRouteState | crates/yakshed-application/src/run_supervisor.rs:1147-1167 | preparing is undone |
| Routing.Supervisor.HandOver | crates/yakshed-application/src/run_supervisor.rs:617-631 | the first `count` buffered events arrive on the channel, in order, beside the pump; if that is not all of them, the next one was offered and refused by a full or closed channel |
| Routing.Supervisor.RetainUnknownHandshake | crates/yakshed-application/src/run_supervisor.rs:829-848 | the buffer of a start of unknown outcome is kept, with eviction |
| Routing.Supervisor.BindRun | crates/yakshed-application/src/run_supervisor.rs:596-613 | binding takes out exactly the run's buffered events; if the handshake is still open, did not overflow and the run had no route since it opened, they are its whole stream since |
| Routing.Supervisor.RetainUncertainStart | crates/yakshed-application/src/run_supervisor.rs:850-912 | what the handshake had buffered for the provider run is sent on its route, if it has one, up to the first refusal; the run is left in doubt, or closed exactly if its handshake overflowed |
| Routing.Supervisor.StartRun | crates/yakshed-application/src/run_supervisor.rs:508-632 | a whole start under any interference at each of its awaits, with the exact steps it takes itself: a refused run is gone; an unanswered one is the newest uncertain start and keeps exactly what was buffered; a bound one has its own channel with everything that was buffered for it in order, and is closed only if its handshake had overflowed or the channel refused an event; one the store does not bind is in doubt, or closed after an overflow |
| Routing.Supervisor.FinishBinding | crates/yakshed-application/src/run_supervisor.rs:617-631 | the run is closed exactly if its handshake had overflowed or a send of the hand-over was refused; otherwise every buffered event was sent |
| Routing.Supervisor.DeliverUncertainStartEvents | crates/yakshed-application/src/run_supervisor.rs:1233-1271 | all that was kept of the run arrives in order on a channel of its provider run; the run is closed only if its handshake had overflowed, or there was no route, or the channel refused an event; if nothing was kept nothing is done |
| Routing.Supervisor.ReattachRun | crates/yakshed-application/src/run_supervisor.rs:1122-1145 | a run is attached exactly if it was already, and is then only taken out of doubt, or its requests loaded and the store agreed; if newly, it has a channel of its own under its reference, with its work item, and what was kept of its start is delivered; a refused one has no route left |
| Timeline.Consumer.ConsumeRun | crates/yakshed-application/src/run_supervisor.rs:1603-1641 | the run succeeds exactly if the store refuses nothing; then the stored timeline and the buffer read exactly like the unbatched one, hold the whole streamed text, one entry of the right kind and content for each authoritative event, and for each command rows that batch its deltas under the command text of the first delta in the row; after a terminal the buffer is empty. If the store refuses a batch, what was stored is an early part of all this |
| TimelineModel.ChaptersCloseInOrder | crates/yakshed-application/src/run_supervisor.rs:1643-1777 | equal readings have the same authoritative items, each once and in order |
| TimelineModel.ReadFlush | crates/yakshed-application/src/run_supervisor.rs:1818-1844 | a flush reads as the buffered message and each command's buffered output |
| TimelineModel.ReadCommandRows | crates/yakshed-application/src/run_supervisor.rs:1818-1844 | the rows of different commands of one flush can be read in any order |
| TimelineModel.HeldCommand | crates/yakshed-application/src/run_supervisor.rs:1807-1814 | pushing a command chunk extends that command's output by that chunk |
| TimelineModel.UnbatchedPrecedes | crates/yakshed-application/src/run_supervisor.rs:1603-1641 | an early part of a prefix's timeline is an early part of the whole timeline |
| Timeline.Consumer.PushMessage | crates/yakshed-application/src/run_supervisor.rs:1802-1805 | the buffer grows by one chunk and keeps its meaning |
| Timeline.Consumer.PushCommand | crates/yakshed-application/src/run_supervisor.rs:1807-1814 | the command's entry keeps its first text and grows by the chunk |
| Timeline.Consumer.TakeItems | crates/yakshed-application/src/run_supervisor.rs:1818-1844 | the drained rows are the message, if any, and then one row per command in order of native id |
| Timeline.Consumer.ApplyEvent | crates/yakshed-application/src/run_supervisor.rs:1643-1777 | after every event fewer than 32 chunks are held and the meaning, the text, the entries and the command rows grew by that event |
| Timeline.Consumer.ApplyAuthoritative | crates/yakshed-application/src/run_supervisor.rs:1655-1767 | an authoritative event is stored behind everything buffered, which is flushed |
| Timeline.Consumer.ApplyDelta | crates/yakshed-application/src/run_supervisor.rs:1651-1775 | nothing is stored until 32 chunks are held; then everything held is flushed |
| Timeline.Consumer.PushDelta | crates/yakshed-application/src/run_supervisor.rs:1653-1659 | a message chunk goes to the message and a command chunk to its command, under the text of the command's first chunk since the last flush |
| Transcript.TracksCommand | crates/yakshed-application/src/run_supervisor.rs:1807-1814 | a held command stays one row that batches its deltas under the command text of the first of them |
| Transcript.TracksFlush | crates/yakshed-application/src/run_supervisor.rs:1818-1844 | a flush moves the held text and each command's held row into the store, and nothing else |
| Transcript.TracksClosing | crates/yakshed-application/src/run_supervisor.rs:1666-1777 | an authoritative event is recorded by one entry of its own kind with what the event carries |
| Transcript.TracksEarly | crates/yakshed-application/src/run_supervisor.rs:1603-1641 | what is stored is at any time an early part of what the events said: text, entries and command rows alike |
| ApprovalProtocol.Agreement | crates/yakshed-application/src/run_supervisor.rs:650-729 | over all resolvers, retries and restarts, all answers sent for one approval carry the same decision, which was durably Responding before each of them |
| ApprovalProtocol.InvariantStep | crates/yakshed-application/src/run_supervisor.rs:650-729 | every step of resolvers, store and restart keeps agreement |
| ApprovalProtocol.InvariantReplay | crates/yakshed-application/src/run_supervisor.rs:650-729 | agreement holds after any history |
| ApprovalProtocol.DecisionsKept | crates/yakshed-store/src/sqlite.rs:1184-1200 | nothing, voiding included, changes a decision that was made |
| Approvals.Supervisor.BeginApprovalResponse | crates/yakshed-store/src/sqlite.rs:2406-2485 | the store takes a decision exactly if the approval is still pending |
| Approvals.Supervisor.ConfirmApprovalResponse | crates/yakshed-store/src/sqlite.rs:2487-2573 | confirming resolves only what is responding and keeps the decision |
| Approvals.Supervisor.Decide | crates/yakshed-application/src/run_supervisor.rs:667-692 | a resolver goes on only with the decision that is durable; it stops at another decision in memory, or because the store failed or no longer has the approval pending |
| Approvals.Supervisor.SendAndConfirm | crates/yakshed-application/src/run_supervisor.rs:693-710 | the answer sent is the durable decision; success means the store says resolved with it; a failure is the harness's exactly if the harness failed, and otherwise the store's |
| Approvals.Supervisor.ResolveApproval | crates/yakshed-application/src/run_supervisor.rs:650-729 | one resolver call under any interference: each error exactly when, and what success means |
| Approvals.Supervisor.RequestApproval | crates/yakshed-application/src/run_supervisor.rs:1681-1710 | an approval the harness asks for is in the store, and then open in memory |
| Approvals.Supervisor.RestoreApproval | crates/yakshed-application/src/run_supervisor.rs:1169-1205 | after a restart exactly an undecided or responding approval is open again, a responding one with the decision the store has for it |
| Approvals.Supervisor.Restarted | crates/yakshed-application/src/run_supervisor.rs:447-480 | a restart keeps nothing in memory and everything in the store |
| StartupOutcome.SuccessExactly | crates/yakshed-application/src/run_supervisor.rs:914-974 | startup succeeds if and only if it meets no store failure, at a page or at a run |
| StartupOutcome.SuccessSettles | crates/yakshed-application/src/run_supervisor.rs:914-974 | success means that exactly the listed runs that the harness still has are routed, each running, and no other run is durably starting or running |
| StartupOutcome.EachRun | crates/yakshed-application/src/run_supervisor.rs:914-974 | whether startup fails or not, every listed run in front of the place where it stops is settled (running if the harness still has it; otherwise OutcomeUnknown if it was starting, Disconnected if it was running), and every run behind it or not listed is left alone |
| StartupOutcome.StopsFor | crates/yakshed-application/src/run_supervisor.rs:914-1033 | which store failure each error of a startup stands for |
| StartupOutcome.RouteLeftExactly | crates/yakshed-application/src/run_supervisor.rs:936-944 | the exact condition under which some store failure leaves a route: an active run without provider reference comes, in id order, behind a run that the harness still has |
| StartupOutcome.RunningLeftExactly | crates/yakshed-application/src/run_supervisor.rs:914-974 | the exact condition under which some store failure leaves a run that startup made running: behind a run that the harness still has and that was not running comes another page, or a run that is active or that the harness still has |
| StartupOutcome.LeftBehind | crates/yakshed-application/src/run_supervisor.rs:936-944 | two runs of which the first is left running and routed when the second cannot be given up |
| Startup.Supervisor.ReconcileStartup | crates/yakshed-application/src/run_supervisor.rs:914-984 | startup does what is said above up to the first activation; then the consumers and the pump run too, and success means that every run that they did not touch is as it was prepared: running and attached with all its open requests, or not active |
| Startup.Supervisor.PrepareAll | crates/yakshed-application/src/run_supervisor.rs:914-974 | the loop over pages and runs, with its early returns, has exactly the outcome above, whichever store calls fail |
| Startup.Supervisor.ReconcilePages | crates/yakshed-application/src/run_supervisor.rs:917-984 | the pages together give the outcome of the whole list, over any number of pages |
| Startup.Supervisor.ReconcilePage | crates/yakshed-application/src/run_supervisor.rs:934-974 | the runs of one page are looked at in order up to the first failure; every store record and every route is what it should be there |
| Startup.Supervisor.ReconcileRun | crates/yakshed-application/src/run_supervisor.rs:934-974 | one run gets the record and the route, or fails with the error, that its record, its reachability and the store failures determine |
| Startup.Supervisor.GiveUp | crates/yakshed-application/src/run_supervisor.rs:936-964 | a starting run that is given up becomes OutcomeUnknown, a running one Disconnected, any other stays |
| Startup.Supervisor.PrepareStartupReattach | crates/yakshed-application/src/run_supervisor.rs:986-1033 | success prepares a route, restored requests and a running status; failure leaves no route, and a running run whose requests do not load becomes disconnected |
| Startup.Supervisor.RegisterRun | crates/yakshed-application/src/run_supervisor.rs:1001-1025 | the route comes first and is removed again if the store refuses the run |
| Startup.Supervisor.Transition | crates/yakshed-store/src/sqlite.rs:1128-1182 | a transition happens exactly if the expected status is current and the matrix allows it |
| Startup.Supervisor.LoadRequests | crates/yakshed-application/src/run_supervisor.rs:1169-1231 | exactly the run's open approvals, its decisions in flight and its pending inputs are restored, over any number of pages, unless a call fails |
| Startup.Supervisor.RemovePrepared | crates/yakshed-application/src/run_supervisor.rs:922-930 | taking back leaves no route and no restored request |
| Startup.Supervisor.ActivatePrepared | crates/yakshed-application/src/run_supervisor.rs:976-981 | exactly the prepared runs go live, whatever the consumers and the pump do to those that are live already |
| Paging.PageFollows | crates/yakshed-store/src/sqlite.rs:1900-1930 | a page and what follows its cursor are what followed the cursor before it |
| Paging.FollowedWhole | crates/yakshed-store/src/sqlite.rs:1900-1930 | following cursors yields the whole list, whatever the page size |
| Framing.FrameStream | crates/provider-codex/src/actor.rs:1604-1653 | for any split of the byte stream into reads the framer sends exactly the messages of the whole stream split at newlines, and its buffer never exceeds the maximum |
| Framing.TakeRead | crates/provider-codex/src/actor.rs:1617-1641 | one read of any size leaves the framer where the bytes so far, taken as a whole, put it |
| Framing.TakeByte | crates/provider-codex/src/actor.rs:1618-1641 | one byte does so |
| Framing.SendTail | crates/provider-codex/src/actor.rs:1643-1652 | an unterminated tail is malformed or oversized, and then comes one end of file |
| Framing.PiecesJoin | crates/provider-codex/src/actor.rs:1604-1653 | splitting at newlines loses nothing |
| Framing.PiecesUnique | crates/provider-codex/src/actor.rs:1604-1653 | no other list of newline-free pieces joins to the same stream |
| Framing.RoundTrip | crates/provider-codex/src/actor.rs:1580-1594 | frames written one after the other are read back as those frames |
| Framing.MessagesShape | crates/provider-codex/src/actor.rs:1619-1641 | each non-empty piece gives one message: a complete line that parses is a frame, the tail or any other line is malformed, and either is cut and marked oversized above the maximum; only a tail that the buffer cannot hold gives none |
| Framing.StreamShape | crates/provider-codex/src/actor.rs:1604-1653 | every message but the last carries at most the maximum of one line, the whole line unless marked oversized; the last and only the last is the end marker |
| Framing.TailReported | crates/provider-codex/src/actor.rs:1643-1652 | a non-empty unterminated tail is reported if and only if the maximum is not zero |
| Reducer.Reducer.Reduce | crates/provider-codex/src/reducer.rs:17-175 | each well-formed notification or request gives the event of its kind with what it carries, a malformed one its malformed report; only a start or an empty change goes by silently; the table of commands changes only with a started or completed command and with a completed turn |
| Reducer.Reducer.CompletedItem | crates/provider-codex/src/reducer.rs:177-260 | a completed command is removed from the table, and reported only with the text it was started with |
| Reducer.ToldOfRun | crates/provider-codex/src/reducer.rs:17-175 | events name the message's run, and only a completed turn tells of an ending |
| Settlement.EveryAcceptedRunEnds | crates/provider-codex/src/actor.rs:1513-1553 | with an empty table every accepted run has had a terminal after its acceptance |
| Settlement.NoSecondTerminal | crates/provider-codex/src/actor.rs:1483-1505 | between two terminals of one run it was accepted again |
| Settlement.TabledPlain | crates/provider-codex/src/actor.rs:875-965 | an event that names only tabled runs keeps the log bracketed |
| Settlement.TabledAccepted | crates/provider-codex/src/actor.rs:793-812 | an acceptance puts the run in the table and keeps the log bracketed |
| Settlement.TabledEnded | crates/provider-codex/src/actor.rs:1483-1505 | a terminal of a tabled run takes it out and keeps the log bracketed |
| Settlement.LoginConfluent | crates/provider-codex/src/actor.rs:831-874 | the exact condition: with one answer to the start, every arrival order of the notices leads to the same login state if and only if the start was refused, or the account changed, or no completion is for this login, or all completions are equal |
| Settlement.LoginSettled | crates/provider-codex/src/actor.rs:831-874 | under that condition the login state is read off the set of notices |
| Settlement.TwoCompletionsDisagree | crates/provider-codex/src/actor.rs:839-851 | two completion notices are enough to make the order matter |
| CodexWire.LedgerIssuePending | crates/provider-codex/src/actor.rs:371-409 | a caller whose frame was written is owed exactly one answer |
| CodexWire.LedgerSettle | crates/provider-codex/src/actor.rs:982-1002 | answering a request in flight keeps every caller answered, in flight or waiting, exactly one of them and once |
| CodexWire.LedgerWaiter | crates/provider-codex/src/actor.rs:1004-1032 | so does answering a queued login caller |
| CodexWire.WiredNext | crates/provider-codex/src/actor.rs:383-386 | the next wire id was never used |
| CodexWire.VerdictUnderstood | crates/provider-codex/src/actor.rs:735-824 | a response of the schema, turn and session that its request expects is a success; an error is passed on; anything else leaves a mutation with an unknown outcome and fails a query as a protocol error |
| CodexWire.Rejection | crates/provider-codex/src/actor.rs:875-921 | which code a server request is refused with, and that it is taken exactly if it is well formed, names a known run and has an id not in use |
| Actor.Actor.RunActor | crates/provider-codex/src/actor.rs:371-599 | for any inputs and any write failures: the inputs are handled in order up to the one that ends the actor; at exit no request is pending, no caller waiting, no run open; every caller was answered exactly once; the runs still open were ended by a crash if the child is gone and by a shutdown otherwise |
| Actor.Actor.HandleInput | crates/provider-codex/src/actor.rs:373-596 | which inputs bring a caller, which end the actor and how, and the whole effect of each of the others |
| Actor.Actor.HandleFrame | crates/provider-codex/src/actor.rs:720-966 | each frame goes to its handler and has that handler's whole effect |
| Actor.Actor.HandleRequest | crates/provider-codex/src/actor.rs:376-409 | an unknown run is refused unwritten; a written request is in flight; a failed write answers OutcomeUnknown for a mutation and Disconnected otherwise |
| Actor.Actor.HandleLogin | crates/provider-codex/src/actor.rs:449-497 | a second login joins the first, a pending one is returned, and only otherwise is a new one written |
| Actor.Actor.HandleRespond | crates/provider-codex/src/actor.rs:1400-1448 | an answer to a server request is written at most once; it is then gone, or its outcome is unknown |
| Actor.Actor.HandleResponse | crates/provider-codex/src/actor.rs:735-824 | a response settles the request of its own id and no other, with the verdict on its own body; a started run is tabled and accepted |
| Actor.Actor.CompleteAsked | crates/provider-codex/src/actor.rs:814-824 | a good account answer overrides a login in progress, whose callers are then told that the outcome is unknown |
| Actor.Actor.AnswerAsked | crates/provider-codex/src/actor.rs:982-1002 | one caller gets one answer; a mutation is never told Disconnected |
| Actor.Actor.SettleLoginStart | crates/provider-codex/src/actor.rs:1004-1032 | all callers queued during a start get the same result, in order, and the login moves as the notices say |
| Actor.Actor.AnswerWaiters | crates/provider-codex/src/actor.rs:1028-1031 | each queued caller gets the answer once |
| Actor.Actor.HandleLoginCompleted | crates/provider-codex/src/actor.rs:831-858 | a completion moves the login as the notices say; a malformed one forgets it |
| Actor.Actor.HandleAccountUpdated | crates/provider-codex/src/actor.rs:859-874 | a valid update moves the login as the notices say |
| Actor.Actor.HandleServerRequest | crates/provider-codex/src/actor.rs:875-921 | a server request is taken exactly when no check rejects it, and then appends exactly its approval or input request, or the malformed report of an empty prompt; a rejection is written back with its code of section 5.1 of JSON-RPC 2.0 and reported |
| Actor.Actor.HandleNotification | crates/provider-codex/src/actor.rs:922-965 | a notification naming an unknown run is only reported; a completed turn ends its run, with a crash if its status cannot be read; any other one appends exactly what it tells: a message chunk, a completed message, a command's output under the text it was started with, one file mutation for each change, or its malformed report |
| Actor.Actor.Tell | crates/provider-codex/src/actor.rs:922-965 | what the reducer tells of a message is sent, whole and in order, and ends nothing |
| Actor.Actor.CompleteTurn | crates/provider-codex/src/actor.rs:927-963 | a completed turn is told as its status, or as malformed and a crash; the run and its commands are gone |
| Actor.Actor.Relay | crates/provider-codex/src/actor.rs:933-965 | what the reducer made of a message is sent in order, and the run it completes is ended |
| Actor.Actor.EmitTerminalAndRetire | crates/provider-codex/src/actor.rs:1483-1505 | a terminal removes the run, its server requests and its commands |
| Actor.Actor.SettlePending | crates/provider-codex/src/actor.rs:1522-1533 | everything in flight is answered with what its loss means |
| Actor.Actor.SettleRuns | crates/provider-codex/src/actor.rs:1534-1552 | every tabled run is ended in the same way, each once |
| Actor.Actor.Settle | crates/provider-codex/src/actor.rs:1513-1553 | nobody is left waiting and no run open; each caller is told what the loss of its own request means |
| EventReplay.ReplayConserves | crates/yakshed-desktop/src/macos.rs:1572-1624 | every event given is in exactly one of channel, hand, pending, replay, delivered and refused, in every interleaving; at most 128 are pending, none of a registered run |
| EventReplay.ClassifyInOrder | crates/yakshed-desktop/src/macos.rs:1599-1621 | the exact condition under which classifying the received event keeps its run's order |
| EventReplay.StepInOrder | crates/yakshed-desktop/src/macos.rs:1304-1331 | every other step, registration included, keeps the order of every run |
| EventReplay.DeliveredInOrder | crates/yakshed-desktop/src/macos.rs:1572-1624 | with receive and classify as one step, each run's events come out in order and none is refused |
| EventReplay.ClassifyKeepsConvertible | crates/yakshed-desktop/src/macos.rs:1599-1621 | the exact condition under which classifying keeps every replayed event convertible: the event in hand is not the terminal of a run that still has events in the replay queue |
| EventReplay.RefusedFromReplay | crates/yakshed-desktop/src/macos.rs:1583-1598 | an event is refused exactly when it leaves the replay queue while its run is not registered |
| EventReplay.RegistrationBetween | crates/yakshed-desktop/src/macos.rs:1599-1621 | a registration between receive and classify can lose an event: its terminal overtakes it and retires the run |
| EventReplay.InvariantStep | crates/yakshed-desktop/src/macos.rs:1304-1331 | every step keeps conservation, the bound and the wake-up |
| EventReplay.CodexHarness.RegisterRun | crates/yakshed-desktop/src/macos.rs:1304-1331 | a registered run's pending events go to the replay queue, and the consumer is woken |
| EventReplay.CodexHarness.ConvertEvent | crates/yakshed-desktop/src/macos.rs:1638-1749 | an event of an unregistered run is refused; a terminal retires its run |
| EventReplay.CodexHarness.NextEvent | crates/yakshed-desktop/src/macos.rs:1572-1624 | one call consumes one event or none, under any interference; an event in the replay queue always comes first; a turn ends without one only if a registration called, the event was kept because its run is not registered, the channel was empty, or there was no room to keep another |
| EventReplay.CodexHarness.ClassifyOne | crates/yakshed-desktop/src/macos.rs:1609-1621 | the event in hand waits exactly if its run is not registered |
| MigrationProtocol.CrashSafe | crates/yakshed-desktop/src/macos.rs:443-631 | in every state that faults, crashes, relaunches and foreign writers can reach, every secret to migrate is in the untouched source or lies in the target with its original value |
| MigrationProtocol.PurgeIsLast | crates/yakshed-desktop/src/macos.rs:606-623 | a purge is enabled only behind a stored checkpoint with the whole manifest copied and no backend left on the file |
| MigrationProtocol.SharedFileUntouched | crates/yakshed-desktop/src/macos.rs:386-396 | over all histories, while another backend uses the legacy file no migration ever begins: config and source stay as they are and the target only gets what others add |
| MigrationProtocol.TargetKept | crates/yakshed-desktop/src/macos.rs:570-580 | no value in the target is ever overwritten or removed |
| MigrationProtocol.BindingsKeepTheirSecret | crates/yakshed-store/src/config.rs:504-636 | a credential binding that resolved before resolves to the same secret in every later state |
| MigrationProtocol.OwnCopiesKept | crates/yakshed-desktop/src/macos.rs:549-569 | while nobody else writes the target, every half-done copy has its receipt in every state a crash can leave |
| MigrationProtocol.InvariantStep | crates/yakshed-application/src/lib.rs:131-199 | every effect on config, source and target keeps the migration invariant; config changes are taken only if the result validates |
| MigrationProtocol.InvariantReplay | crates/yakshed-desktop/src/macos.rs:330-631 | the invariant holds after any sequence of effects |
| MigrationProtocol.CheckpointRepoints | crates/yakshed-store/src/config.rs:583-614 | after the checkpoint no binding names the legacy backend, which is gone; every binding keeps its place and locator, and every other binding and backend is untouched |
| Migration.Desktop.Migrate | crates/yakshed-desktop/src/macos.rs:330-631 | one launch. Without fault and foreign additions its outcome is exact: stopped before it begins if the target's name or the file is in use, else MissingSource if a bound secret is not in the file, else Ready with every secret in the target and the source gone; a fault stops it at once and is the reason given; no false collision with own copies; a finished migration changes nothing |
| Migration.Desktop.Begin | crates/yakshed-desktop/src/macos.rs:351-442 | nothing is written if the legacy backend is not configured, another backend has the target's name, or another one uses the file, and the answer says which; otherwise the record is written before anything is copied |
| Migration.Desktop.WriteRecord | crates/yakshed-desktop/src/macos.rs:397-442 | the record lists everything stored and everything bound, and is the only thing written |
| Migration.Desktop.Resume | crates/yakshed-desktop/src/macos.rs:444-631 | a launch that finds a record ends Ready, or with MissingSource if something listed is not in the file, or with the fault it met |
| Migration.Desktop.StoreReceipt | crates/yakshed-desktop/src/macos.rs:549-604 | a receipt is stored exactly as asked, or a failure is reported |
| Migration.Desktop.CopyAll | crates/yakshed-desktop/src/macos.rs:524-605 | a full pass leaves every listed secret copied; without faults and foreign values it stops exactly at a secret that is not in the file |
| Migration.Desktop.CopyOne | crates/yakshed-desktop/src/macos.rs:524-605 | one secret is put behind a receipt, read back, compared and marked copied |
| Migration.Desktop.PutOne | crates/yakshed-desktop/src/macos.rs:534-581 | a present value without a receipt, or a different one, or a copied receipt without a value, is a collision; success means that the target holds the value behind a receipt |
| Migration.Desktop.PutAbsent | crates/yakshed-desktop/src/macos.rs:549-581 | the receipt is stored before the value |
| Migration.Desktop.ConfirmOne | crates/yakshed-desktop/src/macos.rs:582-604 | a receipt becomes Copied only after the value read back equals the source's |
| Migration.Desktop.StoreCheckpoint | crates/yakshed-desktop/src/macos.rs:606-615 | the checkpoint is stored only with everything copied |
| Migration.Desktop.CleanUp | crates/yakshed-desktop/src/macos.rs:455-475 | without a fault, the source is purged and the record dropped exactly if no other backend uses the file |
| Migration.Desktop.OwnsSourcePath | crates/yakshed-desktop/src/macos.rs:633-657 | the search over the configured local-file backends finds out whether one, other than the excepted one, resolves to the legacy file; if that cannot be found out it is assumed |
| Migration.Desktop.Update | crates/yakshed-store/src/config.rs:504-636 | a change is stored exactly as the config rules say, or refused |
| SecretStore.LocalFile.Put | crates/yakshed-secrets/src/local_file.rs:454-486 | success is exactly the one-key update; past the checks, an existing key is the error unless it may be replaced, an abandoned put is cancelled with nothing changed, and otherwise the commit decides; any error but an uncertain write leaves the stored map as it was |
| SecretStore.LocalFile.Delete | crates/yakshed-secrets/src/local_file.rs:488-507 | success removes exactly the key or finds it absent; past the checks, an abandoned delete is cancelled with nothing changed, and otherwise the commit decides; any error but an uncertain write leaves the stored map as it was |
| SecretStore.LocalFile.WriteStore | crates/yakshed-secrets/src/local_file.rs:988-1061 | only a failure before the commit is known to have changed nothing |
| SecretStore.LocalFile.ClaimOrValidate | crates/yakshed-secrets/src/local_file.rs:949-985 | claiming changes no stored secret and never touches a foreign store |
| SecretStore.LocalFile.WithStoreLock | crates/yakshed-secrets/src/local_file.rs:317-337 | the store is reached exactly if every check passes and it is there or can be created; the way in changes no stored secret and notices an early abandonment |
| BrokerProofs.DefiniteOutcome | crates/yakshed-secrets/src/broker.rs:239-295 | a call answered with anything but success or an uncertain write has not changed the stored map and never will |
| BrokerProofs.SuccessIsOneUpdate | crates/yakshed-secrets/src/broker.rs:239-295 | a put that succeeded wrote its own key exactly once, over an existing value only if asked to; a delete that succeeded removed its own key exactly once, or wrote nothing because the key was absent |
| BrokerProofs.NoLateWrite | crates/yakshed-secrets/src/local_file.rs:162-192 | an answered call's worker that runs on has written already or never will, as soon as any other worker has the store |
| BrokerProofs.OneAtATime | crates/yakshed-secrets/src/broker.rs:75-86 | calls on one reference never have their actions running at the same time |
| BrokerProofs.SoundStep | crates/yakshed-secrets/src/broker.rs:239-295 | every step of callers, workers and commits keeps the invariant |
| BrokerProtocol.LocksStep | crates/yakshed-secrets/src/broker.rs:75-86 | live calls on one reference share one registered lock, which no other reference has |
| Broker.CredentialBroker.GetLock | crates/yakshed-secrets/src/broker.rs:75-86 | unused locks are dropped, a used one is shared, else a new one is made |
| Broker.CredentialBroker.Run | crates/yakshed-secrets/src/broker.rs:239-295 | one put or delete under any interference: a success is exactly its own update, a definite failure means nothing was written; it ends with its worker's report or by the interruption, which comes only after its patience |
| Broker.CredentialBroker.TryAgain | crates/yakshed-secrets/src/broker.rs:260-270 | a call takes its lock as soon as it sees it free, and its worker's report as soon as there is one |
| Broker.CredentialBroker.RunWorker | crates/yakshed-secrets/src/broker.rs:239-269 | the worker runs the file's own put or delete and passes on exactly what that reported; or it was abandoned and did nothing |
| Broker.CredentialBroker.Interrupted | crates/yakshed-secrets/src/broker.rs:270-284 | an interruption is uncertain exactly if the action was dispatched |
| Snapshots.SnapshotIsWhole | crates/yakshed-desktop-api/src/lib.rs:517-654 | pages of one revision followed to the end are exactly one state's whole list |
| Snapshots.DesktopApi.ReadPage | crates/yakshed-desktop-api/src/lib.rs:523-554 | a returned page shows one single state that the item was in meanwhile, of the expected revision; giving up means that the item changed in each of 256 attempts; a failure is reported exactly if a store call failed |
| Snapshots.DesktopApi.FollowPages | crates/yakshed-desktop-api/tests/facade.rs:150-165 | a caller who follows the cursors with the first page's revision pinned gets the whole list of one single state, whatever changes meanwhile |
| Snapshots.DesktopApi.GetWorkItemSnapshotPage | crates/yakshed-desktop-api/src/lib.rs:517-554 | so for the runs of a work item, with the page size capped at 50 |
| Snapshots.DesktopApi.GetRunApprovalPage | crates/yakshed-desktop-api/src/lib.rs:556-600 | so for the approvals of a run of that work item, at most 50 at a time |
| Snapshots.DesktopApi.GetPendingUserInputPage | crates/yakshed-desktop-api/src/lib.rs:602-654 | so for its pending inputs, at most 50 at a time |
| Snapshots.DesktopApi.GetWorkItemTimelinePageAtRevision | crates/yakshed-desktop-api/src/lib.rs:982-1033 | so for its timeline, where a page size above 200 is an error |
| Snapshots.DesktopApi.RunPage | crates/yakshed-desktop-api/src/lib.rs:563-569 | a run that does not exist, or of another work item, is refused with its own error before any page is read; otherwise this is reading a page |

## Left out

- HandOver: the order between handed-over events and the pump's own pushes is not claimed, because the code hands over without the lock.
- GapFree: a reference is registered only while no other live run has it, which the provider has to see to; references may be used again once their run is closed.
- ReconcileStartup: runs are keyed by their own id in memory, given that no two listed runs share a provider reference; what the consumers do to a run once it is live is limited to ending its route, moving its status and failing with the stream.
- StartRun: the provider is taken to answer with a reference that no other live run has.
- Migrate: a purge that fails may have zeroed the source, which the model keeps as a ruined source behind the checkpoint; its contents are not claimed.
- Put: the checks of permissions, owners and access lists are one outcome each (trusted or not).
- RunActor: answers to callers whose message is still queued when the actor ends are not the actor's and are not modelled.
- ReadPage: the four page functions share one loop here, which the code writes out four times; a missing work item is one of the store failures.
- Process spawning, signals, pipes and timers: a write succeeds or fails, a timeout is a step that may happen at any time.
- SQLite and the config store: compare-and-set maps that may refuse any change; a store call may also succeed and still be reported as failed.
- Config revision numbers, and changes of the configuration by others during a migration, other than refusals.
- JSON: frames arrive already classified as well-formed or not; redaction, native payloads and diagnostics are dropped.
- Events sent after the application dropped its event receiver: the model logs what is sent, received or not.
- The runtime checks and faults of the mock harness that concern its process rather than a run.
- Session listing and loading, account status queries, health and diagnostics requests.
- The durable status changes that go with closing or disconnecting a route, and the application events published along the way.
- Approvals and inputs held in memory when a route closes; the approval protocol lets them be forgotten at any time.
- Panics of a worker thread in the local-file backend, which the code reports as a plain failure.
- Keychain and 1Password backends, the in-memory test backend, and reads through the broker.
- Contents of a timeline row beyond its kind and text: identifiers of rows and streams, and stream cursors.
- Overflow of 64-bit counters.
- Frontend conversions and error tables, which one branch settles each.
