# AethroLink core: the durable task-event log and what must agree with it

AethroLink routes tasks between agents. Every task has an append-only event log and a row in a SQLite
database; goroutines append to the log while subscribers stream it, a remote node mirrors it, a restart
repairs it, and two-agent threads build on it. This project models that core and proves what it keeps.

The files, one module each:

- `TaskTypes`: task states, events, decoded JSON.
- `Options`, `WorkerKeys`: the deep option merge, the adapter's shallow merge, the worker a request reaches.
- `EventStore`: the two tables and their one transaction. `AppendProtocol`: any number of appenders,
  subscribers and failures, step by step. `Orchestrator`: the object and its methods, each one tied to a
  run of that protocol. `Control`: cancel and resume requests beside the goroutine that runs a task.
- `NodeStream`: the loops of the peer event stream. `StreamSystem`: the stream beside the appenders.
  `Reordering`: what publication out of order loses.
- `NodeProto`, `Sse`, `Relay`: frames, the stream's text, and the mirror in the origin's log, up to the
  end-to-end theorems.
- `Reconcile`: restart reconciliation that can be cut off after any write and started again.
- `Threads`: the turn log of a thread and the auto-handoff loop.
- `StdioRpc`: the JSON-RPC multiplexer over a worker's standard streams.
- `TextRecovery`, `AcpRun`, `SessionLock`: one prompt of an ACP agent under its session lock.
- `RunPipeline`, `TaskLifecycle`: from an adapter's run to the task's log.
- `PeerCache`: one sync of peer targets, and what many nodes make of it.

Interleavings are state machines: an action is one atomic step of one goroutine, a run is a list of actions
each enabled when its turn comes, and the theorems hold of every run. Code that changes things in place is
a class or a method with loops, proved against a specification function; where both forms exist a lemma
shows that the undisturbed method is one of the machine's runs. JSON is an abstract codec; clocks, timers,
network answers, process death and storage failures are inputs of the runs and scripts.
`dafny verify dfyconfig.toml` checks the whole project.

## What turned out not to hold

Each of these is a lemma with the exact condition, or a witness for every state in which it can happen.

- Overlapping appends to one task lose one event, because callers ignore the error
  (`AppendProtocol.OverlapLosesOne`).
- `docs/state_machine.md:29` says that a task ends in exactly one terminal state. A cancel or resume request
  that read the row before the task ended and commits after it takes the task back, for good
  (`Control.CancelTakesTaskBack`). That is the only way (`Control.LeavesTerminalExactly`,
  `Control.FollowsTerminal`), and `Control.AbsorbingExactly` says when it is shut. The rule does hold for one
  writer (`TaskLifecycle.LogEndsOnce`), and `docs/state_machine.md:281` for tasks finished before a restart
  (`Control.SettledTaskStays`, `Reconcile.AtMostOneInterruption`).
- `docs/state_machine.md:150-193` lets a cancel before remote acceptance end the task at once, a failing cancel
  fail it, and an accepted resume set it running. No request does any of this: alone, none changes the status
  (`Control.AloneItKeepsTheStatus`, `Control.HandledMeans`).
- Two appenders can publish in another order than they committed, and a live stream then never delivers the
  earlier event (`Reordering.BootedRunLosesAnEvent`, `Reordering.LateEventIsLost`). A stream misses nothing
  exactly as said in `StreamSystem.LosslessExactly`.
- A relay whose write of the interrupted status fails stops with frames missing and a binding that does not
  say so (`Relay.FailedWriteHidesLoss`, `Relay.BindingRightExactly`).
- A run that is over before its stream is asked for is lost whole (`RunPipeline.WholeRunCanBeLost`), and of a
  run that was found any tail that fits the two channels, its terminal event included, can be lost without an
  error (`RunPipeline.CutsExactly`).
- The error of a failing run can be lost too: its channels are closed right after it is sent, and who sees the closed
  event channel first returns without it (`RunPipeline.ErrorCanBeLost`).
- The binding column of a task row is wiped by the fallback handle (`EventStore.BindingWiped`).
- A crash between a relay's interruption and its turn update leaves the turn with its old status for good
  (`Reconcile.StaleTurnExactly`, `Reconcile.EndedTurnStays`).
- A relay binding without its proxy task makes every boot fail (`Reconcile.BootsOnlyWhenBound`). No statement
  of the code deletes a task row, so this takes a damaged database.
- An OpenClaw run with structured events and nothing to say ends without a terminal event or an error
  (`AcpRun.SilentEndExactly`).
- Request ids past 2^53 can come back rounded, and the reply goes to another requester
  (`StdioRpc.InexactEchoIsMisrouted`).
- Cancel of a thread-bound OpenClaw task names another worker than the dispatch did
  (`WorkerKeys.ControlReachesWorker`); its resume is refused before a worker is named
  (`internal/adapters/acp_dialect_openclaw.go:72-74`).
- Worker entries of targets with `::` in their ids can collide (`WorkerKeys.EntryKeyCollision`, and exactly
  when in `WorkerKeys.DialectEntriesCollide`).
- Without the same-actor guard one foreign turn lets an agent speak twice in a row
  (`Threads.InterferenceBreaksAlternation`). The request field `stop_on_awaiting_input`
  (`pkg/types/thread.go:115`) is never read: the loop always stops there.
- Targets registered without an adapter are relayed back and forth without end
  (`PeerCache.PingPongIsReachable`).

Two ways out of an ACP run would keep its session scope taken for ever (`SessionLock.StrandedExactly`), but
`runTask` reaches neither: it passes `context.Background()` (`internal/core/orchestrator.go:389`), and a
subscription is closed only by the run's own deferred cancel (`internal/runtime/manager.go:257-273`).

## Model

| member | source | states |
|---|---|---|
| Options.MergeMaps | internal/core/orchestrator.go:95-117 | the in-place merge builds the deep merge: null overrides say nothing, two maps under one key merge in turn, anything else is replaced |
| Options.MergedByKey | internal/core/orchestrator.go:95-117 | the merge key by key: a missing or null override leaves the default, two maps merge, and anything else, an empty map over a scalar included, replaces it |
| Options.MergeIdempotent | internal/core/orchestrator.go:95-117 | merging the same request a second time changes nothing, at any nesting depth |
| Options.RequestLeafWins | internal/core/orchestrator.go:106-116 | every leaf of the request is found at its path in the result |
| Options.DefaultLeafSurvives | internal/core/orchestrator.go:97-115 | a default leaf is found at its path exactly when the request is silent along it or repeats it |
| Options.MergeOntoExtension | internal/core/orchestrator.go:576-602 | merging a task's stored options onto the same defaults again gives them unchanged |
| Options.MergeAdapterOptions | internal/adapters/acp_helpers.go:56-75 | the adapter's loop leaves every key of the override with its value, every other default as it was, and nothing else |
| Options.ShallowMergeIdentity | internal/adapters/acp_helpers.go:56-62 | that shallow merge returns the options themselves exactly when they hold every default key |
| WorkerKeys.SameRequestSameWorker | internal/adapters/acp_submit.go:21-28 | with unchanged defaults, start, health, dispatch and stop compute one subcontext key, for each dialect |
| WorkerKeys.KeysSay | internal/adapters/acp_dialect_openclaw.go:22-24 | the key of each dialect on the wire, from its own option, or from its own default when that is missing, empty or no string |
| WorkerKeys.ControlReachesWorker | internal/adapters/acp_dialect_openclaw.go:98-111 | the key a control call reads from a stored or rehydrated handle is the dispatch key, except exactly for an OpenClaw task bound to a thread whose id is not its session key |
| WorkerKeys.EntryKeyIdentifies | internal/runtime/manager.go:320-325 | for all targets and subcontexts, entry keys are equal exactly when both parts are, or when one target goes on after a separator, or after its first colon, with what the other subcontext begins with |
| WorkerKeys.DialectEntriesCollide | internal/runtime/manager.go:320-325 | for all targets and all options of the dialects, entries are shared exactly by equal target, dialect and scope name, or by a target that goes on after a separator with what the other key begins with |
| WorkerKeys.ColonFreeTargets | internal/runtime/manager.go:320-325 | target ids without a colon keep their entries apart |
| WorkerKeys.EntryKeyCollision | internal/adapters/acp_dialect_openclaw.go:22-24 | for any names, the OpenClaw target `a` with session key `x::session:y` and the target `a::session:x` with session key `y` share one worker |
| EventStore.MaxSeq | internal/storage/sqlite.go:392-400 | the number is an upper bound of the task's numbers and one of them, or 0 when it has no rows |
| EventStore.ContiguousSeqs | internal/storage/sqlite.go:392-400 | in logs numbered 1..n the maximum is n, and a number is taken exactly when it lies in 1..n |
| EventStore.ListingIsLog | internal/storage/sqlite.go:478-499 | in such logs the listing ordered by number exists once, and is the insertion order |
| EventStore.TableFollowsCommits | internal/storage/sqlite.go:420-476 | over any list of attempts the event table gains exactly the events of those that commit, in order |
| EventStore.RowFollowsCommits | internal/storage/sqlite.go:447-467 | the task row is the fold of its committed mutations: status and error of the last one, and for ids, binding and artifact the last value that was said |
| EventStore.UpdatedMeans | internal/storage/sqlite.go:442-467 | one committed mutation, column by column: a non-empty execution id, session id or artifact id is what the row holds next, an empty one or no handle leaves the old value, the binding is the handle's, status and error the mutation's |
| EventStore.CommittedMeans | internal/storage/sqlite.go:442-467 | a commit puts its event at the end of the table, changes its task's row so, and no other row |
| EventStore.LastSaidMeans | internal/storage/sqlite.go:460-464 | COALESCE over a list of updates keeps the last one that is not NULL, or the old value when none is |
| EventStore.OnceSetStaysSet | internal/storage/sqlite.go:461-464 | execution id, session id and result artifact never become NULL again, and the error goes with the next mutation that has none |
| EventStore.BindingWiped | internal/storage/sqlite.go:443-448 | a binding that is set is overwritten with the empty string exactly by a handle whose binding is empty |
| EventStore.TaskStore.InsertTask | internal/storage/sqlite.go:305-332 | inserts exactly when the id is new, and leaves the events alone |
| EventStore.TaskStore.NextSeq | internal/storage/sqlite.go:392-400 | the scan returns one more than the maximum, which is a free number |
| EventStore.TaskStore.AppendEventAndUpdateTask | internal/storage/sqlite.go:420-476 | event and row change together exactly when nothing failed and the number was free; otherwise neither table changes |
| AppendProtocol.EveryRunIsSafe | internal/core/orchestrator.go:191-214 | in every run from a fresh node all logs are numbered 1..n, no channel is used after close or closed twice, no queue exceeds 32, and what a subscriber took in is a subsequence of what was offered to it, all committed |
| AppendProtocol.InvKept | internal/core/orchestrator.go:490-506 | every step of appenders, subscribers and cancels keeps the numbering, the registry, the queues and the offers consistent |
| AppendProtocol.ContiguousKept | docs/state_machine.md:38 | no step of any appender breaks the rule that the numbers of a task's events grow by one |
| AppendProtocol.StoreOutcome | internal/storage/sqlite.go:98 | the transaction of an appender that read its number earlier commits exactly when the log has not grown since; a rollback leaves log and rows as they were |
| AppendProtocol.OneWinnerPerNumber | internal/storage/sqlite.go:98 | of two appenders that read the same number, once one commits the other is rolled back without a trace |
| AppendProtocol.OverlapLosesOne | internal/core/orchestrator.go:191-199 | from any state with two idle appenders, overlapping appends end with only one event in the log, whatever the other meant to record |
| AppendProtocol.InOrderRunIsGapless | internal/core/orchestrator.go:191-214 | while no event of the task is committed with an earlier one still owed to a subscriber, no turn update of such an event fails and its queue has room, the subscriber takes in the log without a gap, up to one event on its way; reads may overlap and appends be rolled back |
| AppendProtocol.SerialIsInOrder | internal/core/orchestrator.go:191-214 | appends that do not overlap meet that condition for every subscriber with room |
| AppendProtocol.OfferedOnce | internal/core/orchestrator.go:203-212 | in every run from a fresh node no subscriber is offered an event twice |
| AppendProtocol.BootedIsReady | internal/core/orchestrator.go:50-61 | a node just started, with any contiguous log on disk, meets everything that the run theorems start from |
| Orchestrator.SoloAppendIsARun | internal/core/orchestrator.go:191-214 | an append that nobody interrupts is a run of the protocol with the effect of the sequential method; that run publishes, from start to end, when transaction and turn update worked, and has a failing turn update exactly when the transaction alone did |
| Orchestrator.AppendedAloneMeans | internal/core/orchestrator.go:191-214 | after a failed transaction nothing has changed; otherwise the event ends the log under the next number, its row has the new status and error, and, exactly if the turn update worked, each subscriber of the task was offered this one event, queued if there was room; every other channel is as before |
| Orchestrator.SendAll | internal/core/orchestrator.go:203-212 | visiting the subscribers one by one can always be completed, and ends with exactly those of the event's task offered the event |
| Orchestrator.Orchestrator.Publish | internal/core/orchestrator.go:203-212 | offers the event to every subscriber of its task and to no one else |
| Orchestrator.Orchestrator.AppendEvent | internal/core/orchestrator.go:191-214 | commits the event under the next number and returns it exactly if the turn update worked too; then every id registered for its task has it as its newest offer and, with room, at the end of its queue; all other channels, and all of them after a failure, are unchanged |
| Orchestrator.Orchestrator.Subscribe | internal/core/orchestrator.go:490-497 | registers a fresh id for the task with an empty open channel and leaves every other channel and registration as it was |
| Orchestrator.Orchestrator.CancelSubscription | internal/core/orchestrator.go:498-505 | removes and closes the channel once; a second call does nothing |
| Orchestrator.AppendDraft | internal/core/orchestrator.go:191-214 | seen from a caller, an append adds the draft under a fresh number or nothing, keeps all logs contiguous, leaves the row with the draft's status and error, and publishes as above |
| Control.LeavesTerminalExactly | internal/core/orchestrator.go:532-558 | in every reachable state a step takes the row out of a terminal state exactly when it commits the event of a cancel or resume request; that request had read the row before the terminal event was committed, and puts back the status it read |
| Control.FollowsTerminal | docs/state_machine.md:29 | over whole runs: the event after a terminal one leaves the terminal state exactly when a request appended it, one that had read the row before the terminal event |
| Control.AbsorbingExactly | docs/state_machine.md:29 | a finished task stays finished in every future exactly when each request past its guard already holds a number that is taken |
| Control.SettledTaskStays | docs/state_machine.md:281 | a task that was finished when the process began stays finished in every run |
| Control.NeverEndsAgain | internal/core/orchestrator.go:465-467 | once a request took a task out of its terminal state and its owner appends no more, no run ends it again |
| Control.CancelTakesTaskBack | internal/core/orchestrator.go:532-558 | from any booted node some run creates a task, reports it running, lets a cancel read that, ends the task, and leaves it running for good |
| Control.AloneItKeepsTheStatus | internal/core/orchestrator.go:508-558 | undisturbed, a request never changes the status of its task, and adds one event at most |
| Control.HandledMeans | internal/core/orchestrator.go:508-558 | each answer of an undisturbed request: missing task, failing guard, missing target or adapter, refusing adapter and failing transaction leave the node alone, each with its own verdict; otherwise one event that names the request and repeats the status ends the log and is published exactly if the turn update worked |
| Control.CancelTask | internal/core/orchestrator.go:532-558 | reads, guards, asks the adapter and appends the status it read; every early return leaves the node unchanged |
| Control.ResumeTask | internal/core/orchestrator.go:508-530 | the same for resume, which wants a task that awaits input |
| Control.RequestIsARun | internal/core/orchestrator.go:508-558 | an undisturbed request is a run of the interleaved machine with the same tables and channels, without a failing turn update if that worked |
| NodeStream.ReplayHistory | internal/api/router.go:151-174 | writes the history's fresh events, sets aside what arrives meanwhile, and stops after the frame at which the channel turned out closed |
| NodeStream.DrainBuffered | internal/api/router.go:178-188 | writes the buffered events that are fresh, up to the first terminal one |
| NodeStream.FollowLive | internal/api/router.go:189-211 | the signals before the end of the context or the channel are what counts: an event of theirs is written exactly when its number is above all written before it and no terminal event was; by ascending number, after what was written before, with keep-alives in between |
| NodeStream.HandleNodeTaskEvents | internal/api/router.go:121-212 | the whole handler, by position in its inputs: in ascending order exactly the events of the history that rise above all before them and, unless a terminal one was among these, the later receptions of polls and signals that do, up to the first terminal one; when the channel turns out closed during the replay, the history up to that frame |
| NodeStream.LiveByPosition | internal/api/router.go:178-206 | an event is written exactly when some signal before the end carries it, with a number above all that were read before it and no terminal event written yet; the result ascends |
| NodeStream.EmittedByPosition | internal/api/router.go:146-206 | the same of replay, buffer and live part together, for any history, polls and signals |
| NodeStream.FreshUntilTerminalConcat | internal/api/router.go:178-206 | the buffered loop followed by the live loop is one pass over both lists |
| StreamSystem.MovesKeepInv | internal/api/router.go:128-211 | in every interleaving the handler's channel stays registered, first in first out, and its snapshot is a prefix of the log |
| StreamSystem.StreamIsSafe | internal/api/router.go:128-211 | for every interleaving with appenders, failures and other subscribers: what is written is a selection from the log in strictly increasing number order, the whole snapshot comes first, and the channel is never closed under the handler |
| StreamSystem.StreamIsLossless | internal/api/router.go:128-211 | if the handler's offers stay in number order and its 32-slot queue has room, with any overlap of reads, rollbacks and other subscribers: what is written is at every moment a prefix of the log; a caught-up live stream has written all of it, and a stream that ended by itself ended with a terminal snapshot or right after the first terminal event past it |
| StreamSystem.LosslessExactly | internal/api/router.go:128-211 | in every run from a fresh node a live stream with an empty queue has written the whole log exactly when what it took in past its snapshot is the rest of the log, in order and with none missing |
| StreamSystem.SerialStreamIsLossless | internal/api/router.go:128-211 | the special case of appends that do not overlap and nothing dropped |
| StreamSystem.LosslessEmission | internal/api/router.go:146-206 | a snapshot and receptions that go on from it without a gap are written as one prefix of the log, up to the first terminal event |
| Reordering.SwapIsReachable | internal/core/orchestrator.go:197-212 | from any state with two committed, unpublished events of a task, whatever their numbers, some run queues them in either order |
| Reordering.BootedRunLosesAnEvent | internal/core/orchestrator.go:197-212 | from any booted node and for any two non-terminal events of a new task, some run of appenders and stream ends caught up with the first event in the log and never written |
| Reordering.WrittenIffInOrder | internal/api/router.go:198-203 | of two fresh events received in turn the second is written exactly when its number is the larger |
| Reordering.LateEventIsLost | internal/api/router.go:198-203 | an event received after a later one is never written, whatever follows |
| NodeProto.OwnershipCannotBeSpoofed | internal/nodeproto/protocol.go:146-178 | the imported event takes kind, state, source and message from the frame; the reserved keys of its data hold the frame's own fields, the optional ones exactly when set; all other keys are the peer's, unchanged |
| NodeProto.ToLocalTaskEvent | internal/nodeproto/protocol.go:146-188 | the copying loop builds an event that is such an import |
| Sse.StreamTaskEvents | internal/nodetransport/client.go:117-133 | the scanner loop delivers the frames of the data lines, in order, until a line is too long or a data line does not decode |
| Sse.LineSays | internal/nodetransport/client.go:117-133 | one line: at 65536 characters or more it ends the scan, a data line is decoded and delivered or ends it, any other is passed over |
| Sse.PrintThenScan | internal/api/router.go:265-268 | scanning a printed stream gives its frames back, in order and unchanged, exactly when all their lines fit the scanner; otherwise those before the first that does not |
| Sse.BrokenStreamDeliversPrefix | internal/nodetransport/client.go:117-133 | wherever the text is cut, the frames delivered are the first of the stream, whole |
| Relay.MirrorIsOrderedImage | internal/core/orchestrator.go:350-366 | for every interleaving with other appenders and every failing write: the relay's events in the origin log are images of the first frames in frame order, then at most one failure event, one of kind task.failed, state failed and source transport that names peer and error, under fresh increasing numbers; a relay that did not give up has mirrored every frame, and one that did left the binding interrupted exactly when that write succeeded |
| Relay.RowAfterCommit | internal/core/orchestrator.go:351-363 | in every run, right after a commit of the relay the proxy task's row has the frame's state and no error, or, after the failure event, is failed with the reason "remote event stream failed" and the stream's error text; its binding is the relay's handle's |
| Relay.BindingAfterMeans | internal/core/orchestrator.go:356-358 | the binding holds the state of the last terminal frame whose write succeeded, or streaming when there is none |
| Relay.BindingRightExactly | internal/core/orchestrator.go:356-358 | the binding says what the frames call for exactly when the last attempted write succeeded or an earlier one had written the same state |
| Relay.FailedWriteHidesLoss | internal/core/orchestrator.go:360-365 | for any relay with frames some run stops it with nothing mirrored and the binding still streaming |
| Relay.EndToEnd | internal/core/orchestrator.go:350-366 | any destination run, its text cut anywhere, any origin run: what the origin mirrored is, in order, the first events that the stream wrote, each with its number recorded, and those are a selection from the destination log in log order |
| Relay.EndToEndLossless | internal/core/orchestrator.go:350-366 | if the destination handler's offers stay in order and its queue has room, the mirrored part is the destination log from its first event on, without a gap |
| Relay.MirrorFrames | internal/core/orchestrator.go:351-360 | the callback imports frame after frame until an append fails, an append that failed only in its turn update still left its image, the row follows the last image, and the binding is what the successful writes made of it |
| Relay.MirrorRemoteEvents | internal/core/orchestrator.go:350-366 | undisturbed, the log gains exactly those images and, after an error of an append or of the stream, the failure event described above; the row is then failed with reason and detail, otherwise as the last image says; the binding is interrupted exactly after such an error, if that write succeeds |
| Relay.SoloMirrorIsARun | internal/core/orchestrator.go:350-366 | a mirror that nobody disturbs, whatever fails on the way, is a run of the interleaved machine with the events and the binding that the method leaves |
| Reconcile.NodeTables.MarkInterruptedThreadsOnRestart | internal/storage/threads.go:23-39 | row by row: a thread is interrupted afterwards if it was active and its last task has a row that is not completed, failed or cancelled; every other row is the old one, and no row comes or goes |
| Reconcile.ThreadsAfterBoots | internal/core/orchestrator.go:64-67 | over any boots with at least one write, cut off anywhere, threads are what that one statement makes of them, judged by the tables before the first boot |
| Reconcile.NodeTables.MarkInterruptedRelayBindings | internal/storage/peers.go:191-227 | every pending or streaming binding becomes interrupted, the others stay, and no row comes or goes |
| Reconcile.BindingsAfterBoot | internal/core/orchestrator.go:68-91 | a boot cut off right after its second write leaves every open binding interrupted; any longer one leaves each interrupted or with its finished task's status, and none pending or streaming |
| Reconcile.NodeTables.UpdateRemoteTaskBindingStatus | internal/storage/peers.go:182-188 | sets the status of one binding and nothing else |
| Reconcile.NodeTables.FailInterrupted | internal/core/orchestrator.go:85-90 | appends the interruption and fails the task in one transaction, then the turn; a crash can fall between |
| Reconcile.NodeTables.RepairRelays | internal/core/orchestrator.go:72-91 | the loop over the selected bindings, cut off after any write, in any order of rows, ended by a missing task |
| Reconcile.NodeTables.ReconcileRestartState | internal/core/orchestrator.go:64-93 | a boot cut off after any number of writes leaves the state that the step function gives: threads marked row by row as soon as it made a write, and, right after the second, every open binding interrupted; it reports success exactly when every open binding has its task |
| Reconcile.LoopView | internal/core/orchestrator.go:72-91 | seen from one task, a cut-off loop does nothing or the one visit its state asks for, and the visit when it runs to its end |
| Reconcile.CrashesLeaveNoTrace | internal/core/orchestrator.go:64-93 | boot any number of times, each cut off anywhere, rows listed in any order, then twice to the end: task rows, bindings, threads and logs are those of two undisturbed boots |
| Reconcile.SettledMeans | internal/core/orchestrator.go:77-87 | two boots leave an open relay with its task's terminal status, or with a failed task, its reason, the destination as binding and one more event, the interruption with kind, state, source and data written out |
| Reconcile.AtMostOneInterruption | internal/core/orchestrator.go:77-90 | over any boots a terminal task, or one without an open relay, keeps row and log, and any other gains at most one event, that interruption under the next number |
| Reconcile.BootsOnlyWhenBound | internal/core/orchestrator.go:72-76 | a full boot succeeds, now or after any crashes, exactly when no open binding lacks its proxy task |
| Reconcile.StaleTurnExactly | internal/core/orchestrator.go:196-202 | a boot leaves a failed task beside a turn with its old status exactly when it is cut off right after that task's transaction |
| Reconcile.EndedTurnStays | internal/core/orchestrator.go:77-84 | no later boot writes the turn of a task that has ended |
| Threads.ValidationIsExact | internal/core/threads.go:18-38 | a pair is accepted exactly when it is one of the thread's two directions, with the names that were given |
| Threads.ContinuationIsExact | internal/core/threads.go:68-89 | continuation succeeds exactly when what was named fits one direction, never overrules the caller, and by default answers the last target |
| Threads.EveryRunIsCoherent | internal/storage/threads.go:78-115 | however thread and task creations, failures, restarts and status updates interleave, turn indices are 1..n, every turn is between the two distinct agents, and the thread row agrees with its newest turn |
| Threads.AppendKeepsCoherent | internal/core/threads.go:163-175 | one append with a validated pair keeps all threads coherent |
| Threads.ThreadStore.InsertThread | internal/storage/sqlite.go:343-356 | inserts exactly when the id is new, and no turn |
| Threads.ThreadStore.NextTurnIndex | internal/storage/threads.go:98-103 | the index inside the transaction is one more than the thread's largest |
| Threads.ThreadStore.AppendThreadTurnAndUpdateThread | internal/storage/threads.go:78-115 | thread row and turn change together or not at all |
| Threads.ContinueThreadAutoHandoff | internal/core/threads.go:119-160 | the controller loop, over whatever each turn meets, leaves the tables and creates the tasks that the step function gives |
| Threads.ContinueThread | internal/core/threads.go:350-378 | one request: derive the pair, create its task, and start the loop only when asked for and worth it; it leaves the tables and creates the tasks of the function that the next two rows and the bounds below are about |
| Threads.RequestIsExact | internal/core/threads.go:350-378 | undisturbed, a request whose pair fits creates its first task and then, with the loop asked for and a bound above one, exactly as many as the bound allows before a seen state stops it, a creation fails or the rounds run out; the thread's log gains one turn for each task whose turn was written, in order, and its row follows; otherwise one task or none, and no turn |
| Threads.RequestMakesAll | internal/core/threads.go:119-160 | when every task is seen completed and every creation works, a request for the loop makes all its max_turns tasks |
| Threads.RequestIsBounded | internal/core/threads.go:350-378 | a request creates at most max_turns tasks in all, and one without the loop or a positive bound |
| Threads.HandoffIsSafe | internal/core/threads.go:119-160 | whatever others do: every task stays inside the pair, follows one that was seen, not awaiting input, and completed if errors stop the loop; with the same-actor guard nobody speaks twice in a row; the thread stays coherent |
| Threads.AloneItAlternates | internal/core/threads.go:119-160 | undisturbed, senders alternate strictly, and the loop ends early only because a task's state stops it or a creation failed |
| Threads.RequestAlternates | internal/core/threads.go:350-378 | undisturbed, all tasks of one request alternate from its first one on |
| Threads.InterferenceBreaksAlternation | internal/core/threads.go:137-143 | one foreign turn makes the same agent speak twice, unless the guard is on, which then stops the loop |
| StdioRpc.EchoIsExact | internal/runtime/manager.go:182-183 | an id echoed through a double comes back as sent exactly when it is a multiple of the spacing of doubles there, as all ids up to 2^53 are |
| StdioRpc.EveryRunIsSafe | internal/runtime/manager.go:163-255 | for every interleaving of requests, replies, timeouts, write failures and worker death: no reply channel is written after close or closed twice, a returned reply carries the requester's wire id, and no line reaches two requesters |
| StdioRpc.LateReplyIsDropped | internal/runtime/manager.go:182-195 | until the 64-bit counter wraps a numbered line goes to the requester of that number or to nobody, and to nobody once that one has timed out |
| StdioRpc.OwnReplyArrives | internal/runtime/manager.go:217-246 | while the read loop runs, the reply to a request that is pending and waiting can be read, handed over and received unchanged |
| StdioRpc.NobodyIsForgotten | internal/runtime/manager.go:163-255 | in every run until the counter wraps, a requester that waits is pending, or its line is in the read loop's hand, or it can receive, and then it gets the line that was taken for it, or learns that the worker is gone |
| StdioRpc.InexactEchoIsMisrouted | internal/runtime/manager.go:182-188 | with both pending, the echoed reply to request 2^53+1 is taken for request 2^53 |
| StdioRpc.SoloReadLoopIsARun | internal/runtime/manager.go:163-211 | an undisturbed read loop with its deferred clean-up is a run of the protocol |
| StdioRpc.StdioWorker.Request | internal/runtime/manager.go:217-222 | a request begins with the next id and an empty pending channel |
| StdioRpc.StdioWorker.Forget | internal/runtime/manager.go:247-251 | a timeout removes the pending entry |
| StdioRpc.StdioWorker.Dispatch | internal/runtime/manager.go:181-196 | a numbered line takes its channel out of the map, fills it and closes it; any other line leaves requests alone |
| StdioRpc.StdioWorker.ReadLoop | internal/runtime/manager.go:163-211 | all lines are dispatched in order, and then every pending channel is closed and the worker marked closed |
| TextRecovery.TrimIs | internal/adapters/acp_helpers.go:23-25 | trimming removes white space at both ends and nothing else |
| TextRecovery.RecoveryIsLastAnswer | internal/adaptersupport/recovery.go:28-37 | the streaming automaton returns the trimmed text of the last maximal run of assistant chunks that is not blank, for every chunk stream |
| TextRecovery.HeardAddsUp | internal/adaptersupport/recovery.go:48-112 | which chunks those are: each update with a chunk of the session, in order, up to the first signal that ends the loop, and nothing after it |
| TextRecovery.RecoverAssistantTextFromSessionLoad | internal/adaptersupport/recovery.go:48-112 | the loop returns that text for the chunks of this session that arrive before it ends |
| AcpRun.EveryRunIsWellFormed | internal/adapters/acp_runs.go:28-93 | for every sequence of notifications, ticks and prompt results: the accepted event is first, at most one event is terminal and it is last, an error excludes a terminal event, no terminal event was seen while the loop goes on, and a drained run ends with the completion that says the trimmed chunks or the replayed text |
| AcpRun.RunEndsExactly | internal/adapters/acp_runs.go:40-93 | for every list of signals: which signal ends a run, and how, told from the signals alone: drain and idle time by the clock of the last prompt result and notification of the session; the prompt's error and the idle timeout are reported, nothing else is |
| AcpRun.RunWritesExactly | internal/adapters/acp_runs.go:28-92 | for every list of signals: a run writes the accepted event, one event for each structured notification among the signals it handled, in order, and at last the completion exactly if it drained and has something to say |
| AcpRun.LastWordsSay | internal/adapters/acp_runs.go:53-61 | what a drained run says, for each dialect: the trimmed chunks, else the replay of the session where one is asked for, else the empty text or nothing |
| AcpRun.ChunksJoin | internal/adapters/acp_runs.go:70-84 | the chunks are put together in the order of their signals |
| AcpRun.CompletionSays | internal/adapters/acp_dialect_openclaw.go:88-96 | the completion is of kind task.completed and state completed, and its data holds the text under result |
| AcpRun.NotificationSays | internal/adapters/acp_dialect_openclaw.go:124-136 | a notification is a chunk exactly when it carries such a text, and a report exactly when it does not, the agent is OpenClaw and there is an event object, whose kind, message and data the task event follows |
| AcpRun.SilentEndExactly | internal/adapters/acp_dialect_openclaw.go:113-122 | a run that frees its session ends without terminal event and error exactly when it drained as OpenClaw, with structured events and nothing to say |
| AcpRun.AcpAdapter.ConsumeRun | internal/adapters/acp_runs.go:12-94 | the loop writes what the step function gives, frees the scope on every exit but cancellation and a lost subscription, and drops its registration |
| AcpRun.LeavesWithoutReleaseExactly | internal/adapters/acp_runs.go:42-73 | for all signal lists, a run ends without giving its session back exactly when the signal that ended it was a cancelled context or a closed subscription |
| AcpRun.AcpAdapter.SubmitPrompt | internal/adapters/acp_submit.go:95-131 | a busy scope rejects, a later failure gives back lock and registration, a success holds both |
| SessionLock.SessionCoordinator.TryAcquire | internal/adaptersupport/session.go:36-44 | takes a free scope, keeps one's own, and is refused when another task holds it |
| SessionLock.SessionCoordinator.Release | internal/adaptersupport/session.go:47-53 | removes exactly the holder's own entry |
| SessionLock.OneTaskPerScope | internal/adaptersupport/session.go:36-53 | in every run no two tasks hold a scope, and a scope is taken exactly while a task submits to it, runs on it or was stranded on it |
| SessionLock.ForeignReleaseIsIdle | internal/adaptersupport/session.go:47-53 | in every reachable state a release by anyone but the holder changes nothing |
| SessionLock.FailedSubmitGivesBack | internal/adapters/acp_submit.go:98-119 | a failing submission leaves the lock table as it found it |
| SessionLock.StrandedExactly | internal/adapters/acp_runs.go:42-73 | a task leaves its scope taken behind exactly when its run ended in one of those two ways |
| SessionLock.NothingIsStranded | internal/adapters/acp_runs.go:50-91 | while no run ends so, a scope is taken exactly while a task submits to it or runs on it |
| SessionLock.StrandedScopeStaysBusy | internal/adapters/acp_runs.go:42-73 | after such an ending every later submission to the scope would be rejected |
| RunPipeline.TakenIsPrefix | internal/adapters/acp_runs.go:102-136 | in every interleaving of run, registry, forwarder and runTask what runTask takes is a prefix of what the run sent, and when it has returned all of it exactly if the run was still registered at the lookup (or sent nothing) and no stage took an error branch past waiting events |
| RunPipeline.TailCanBeLost | internal/adapters/acp_runs.go:129-133 | for every clean run and every cut whose rest fits the two channels, some interleaving records only the part before the cut |
| RunPipeline.CutsExactly | internal/adapters/acp_runs.go:116-136 | a clean run can end silently with its first k events exactly when the rest is at most 128 |
| RunPipeline.LossIsBounded | internal/adapters/acp_runs.go:116-136 | no interleaving ever loses more than that |
| RunPipeline.WholeRunCanBeLost | internal/adapters/acp_runs.go:102-115 | any run that fits its channel can be gone when runTask looks it up; runTask then records nothing of it and returns silently or reports a missing run |
| RunPipeline.ErrorIsTheRuns | internal/adapters/acp_runs.go:102-136 | in every interleaving an error that runTask takes is the run's own, or says that the run was gone at the lookup |
| RunPipeline.ErrorCanBeLost | internal/adapters/acp_runs.go:119-132 | for every run that fails without a terminal event, some interleaving records all its events and returns without its error |
| RunPipeline.ErrorCanBeRecorded | internal/adapters/acp_runs.go:128-132 | and some interleaving records the same events and then the error |
| TaskLifecycle.AttemptsAreALife | internal/core/orchestrator.go:388-470 | whatever resolves, fails or is streamed, what runTask appends follows the launch, ready, dispatch, submission, adapter-event grammar |
| TaskLifecycle.AttemptsSay | internal/core/orchestrator.go:404-470 | field by field what is attempted for each answer: a healthy runtime, one that is launched, one that is not, readiness that fails, a submission that fails, and each adapter event copied with its state, data, error and artifact; the dispatch follows exactly when the launch ended with the runtime up |
| TaskLifecycle.NothingToRun | internal/core/orchestrator.go:390-403 | a task or target that does not resolve makes the routine leave silently, a missing adapter with one failure that names it |
| TaskLifecycle.LogEndsOnce | internal/core/orchestrator.go:440-470 | with runTask as the only writer and any appends failing, the log gains at most one terminal event and nothing after it |
| TaskLifecycle.AdapterPartIsPrefix | internal/core/orchestrator.go:439-469 | what is attempted after the submission is, in order, the first events that the run sent, and then at most one stream failure |
| TaskLifecycle.LogGainsPrefix | internal/core/orchestrator.go:439-469 | when the appends succeed the log gains exactly that after the submission, each event under its own number |
| TaskLifecycle.RowFollows | internal/core/orchestrator.go:439-469 | with any appends failing, the row has status and error of the last attempt that committed, its artifact and its binding; with none it is the old row |
| TaskLifecycle.AcpPlanEndsOnce | internal/adapters/acp_runs.go:12-94 | every ACP run meets the pipeline's assumption that a terminal event comes last |
| TaskLifecycle.MirrorRun | internal/core/orchestrator.go:440-469 | the select loop attempts one append per event until a terminal one, or the failure |
| TaskLifecycle.LaunchRuntime | internal/core/orchestrator.go:404-429 | the health check and launch attempt exactly the events of their branch |
| TaskLifecycle.Submit | internal/core/orchestrator.go:430-470 | the dispatch, then the submission failure or the submission and what the run sends |
| TaskLifecycle.RunTask | internal/core/orchestrator.go:388-470 | the routine makes exactly those attempts, in order, the log gains those that commit, and the row follows them |
| PeerCache.PeerTargetTable.UpsertPeerTarget | internal/storage/peers.go:77-105 | writes one row under peer and target |
| PeerCache.PeerTargetTable.DeletePeerTargetsExcept | internal/storage/peers.go:108-127 | removes exactly the peer's rows that are not listed, all of them when the list is empty |
| PeerCache.PeerTargetTable.SyncPeerTargets | internal/core/peers.go:70-130 | a sync skips remote targets, upserts the others and then deletes the rest; a failure leaves the upserts made so far |
| PeerCache.SyncIsExact | internal/core/peers.go:103-127 | after a sync the peer's rows are exactly its exported non-remote targets, each as last listed, and every other peer's rows are as before |
| PeerCache.SyncTwice | internal/core/peers.go:103-127 | a second sync from the same export leaves the same rows with the same contents |
| PeerCache.RunKeepsInv | internal/core/peers.go:70-130 | over any number of nodes, with fixed addresses and syncs that overlap or stop half-way, a cached target is an agent of the node at its peer's address |
| PeerCache.RelayArrives | internal/core/orchestrator.go:254-265 | a relayed task arrives at a node that has the agent, and stops there exactly when that agent has an adapter |
| PeerCache.RouteIsExact | internal/core/orchestrator.go:129-152 | an agent of one's own with an adapter wins over any cached one; without it the one peer that lists the target gets the task, and with none or two of them it is refused |
| PeerCache.OneHop | internal/core/orchestrator.go:129-152 | with adapters on all agents a relay is one hop |
| PeerCache.PingPongIsReachable | internal/core/orchestrator.go:254-265 | two nodes with an adapterless agent of one name come about in a plain run and relay a task for it without end |

## Left out

- HTTP handlers other than the peer event stream, CLI, flags, agent state files and health polling: library wrappers.
- `handleTaskEvents`, the client-facing stream, which subscribes after reading history: the peer stream is the variant that closes that gap.
- SQLite itself, migrations, artifact files, event ids and timestamps: tables are maps and sequences with atomic statements.
- Cancelled contexts inside a single statement: a failing read of the next number is a failing transaction here, which leaves the same state.
- Cancel and resume of a mirrored task: the task's owner in `Control` says nothing but a terminal state after it tried to end the task, as `runTask` does; a relay may mirror a destination log in which that happened, and then goes out of a terminal state too.
- `relayRemoteTask` before the stream opens (submission, binding row, accepted event): appends like any other, already part of every interleaving.
- Process spawning, leases and the entries map of the runtime manager beyond its key: restarts of workers are inputs.
- Subscribers of a stdio worker: the same registry as the orchestrator's, with 64 slots.
- JSON-RPC requests that the worker itself sends with a numeric id: the read loop takes them for replies, and the model does not tell the two apart.
- Ids of replies that are negative, fractional or at least 2^64: what the conversion gives is any `key` here.
- TextRecovery.RecoverAssistantTextFromSessionLoad: says nothing of when its timers fire; the load channel stays ready after it is closed and re-arms the drain timer on every pass, so the model lets it return any number of times.
- Relay.MirrorRemoteEvents: publication inside each append is that of `Orchestrator.AppendEvent`; the contract speaks of the log, the row and the binding.
- Threads.ContinueThreadAutoHandoff: intents, payloads and the polling of a task's state are not modelled; the state in which a task was seen is an input of each turn.
- PeerCache.RunKeepsInv: peers that change their address are shut out; then a cached row can outlive the node it came from.
- Routing by intent, capabilities and payload builders of the dialects, registration, heartbeats and validation methods: straight-line code with easy claims only.
- Thread inspection, the prediction of session reuse, and the stored session bindings with their idle time: read-only summaries and single-row updates.
