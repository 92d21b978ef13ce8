# The workflow message engine, verified

This project models the engine that sits between the Temporal SDK environment and a PHP worker: for every workflow, an
outbound message queue, an inbound pipeline of worker commands, result handlers that are answered at once or deferred,
cancel functions, workflow updates, a child-id registry and a process-wide id counter. It proves what every step of the
engine keeps, what holds over whole runs, and what two runs have in common.

## Layout

| file | contents |
|---|---|
| `Protocol.dfy` | messages, commands, 64-bit arithmetic |
| `Decimal.dfy` | decimal printing and parsing |
| `Attributes.dfy` | typed search attributes: the start table and the upsert loop |
| `Queue.dfy`, `Cancelling.dfy`, `Registry.dfy` | the message queue and id counter, the cancel table, the child-id rendezvous, as classes |
| `Codec.dfy`, `Wire.dfy` | command names, batches on the wire, worker info; and that everything a run sends travels |
| `Engine.dfy` | the engine as a state machine over values: one function per handler, `Next` per event, `Run` per run |
| `Workflows.dfy` | the workflow object: the same handlers on mutable fields, each proved to end in the state `Engine` prescribes |
| `Frames.dfy` | what calls and handlers leave alone |
| `Delivery.dfy`, `Guarantees.dfy` | the delivery and cancellation invariant, and what it gives over whole runs |
| `Pipeline.dfy` | flushes, order of handling, number of exchanges |
| `Provenance.dfy` | where answers come from, and what children's listeners hear |
| `UpdateRequests.dfy` | the first batch of a workflow task, verdicts on updates |
| `Effects.dfy`, `Dispatch.dfy` | what handled messages amount to, from the messages alone; and over whole runs, what the environment hears and answers and what the worker is sent |
| `Operations.dfy` | what the environment is asked to start and to cancel |
| `Numbering.dfy` | ids across all workflows of a process, draw by draw |
| `Simulation.dfy`, `Determinism.dfy` | corresponding states of two runs, and replays and queries as properties of two runs |

`dafny verify dfyconfig.toml` checks everything.

## How the outside world appears

A run is a sequence of events: a result handler fires, a signal, cancel, query, stack-trace or update request arrives, a
workflow task starts, or the workflow is closed. A workflow-task event carries the answers of the environment
(`Reaction`: a value, the handlers the environment calls before the call returns, and the order in which an attribute
map is visited before the call), the answers of the worker pool (`Exchange`: a reply body, or one of the six ways an
exchange fails), the replay flag, and the iteration order of the Go map of pending update names. Every theorem is for
all of them. A handler the environment does not hold cannot fire, so each fires at most once; a map order that is no
order of the map's keys is no event. A Go panic is the `Panicked` status, after which only `Close` happens. JSON null is
a value like any other: an attribute map may hold it. Closures are data: an `Answer` is a deferred callback, a
`Cancellable` a cancel function, a `Token` the pair of callbacks of one update request. `Handle` and `Token` number the
operations and requests of a run and carry the id they were started under, so nothing is assumed about ids the worker
picks; it may reuse them.

The one thing the workflows of a process share is the id counter, and they share it one atomic draw at a time. A workflow
sees the others as `gaps`: how many ids they draw before each of its own. `Numbering.Gaps` derives them from a schedule
that says whose turn each draw of the process is, so quantifying over schedules is quantifying over interleavings.

Fields named `pushed`, `sent`, `dropped`, `asked`, `received`, `handled`, `trace`, `heard` and `log` are histories. No
step reads them.

## Results worth knowing

- The pending update names are visited in Go's map order. With two names pending, two executions of the same workflow
  task may hand the environment different call sequences; with at most one they cannot (`Determinism.MapOrderMatters`).
  Replay determinism is stated under that condition, and it is exact.
- A typed upsert whose map holds a null attribute dereferences it and panics; one that holds an unparsable set datetime
  returns an error. If it holds both, the map order decides which, and only then does it decide anything
  (`Attributes.OrderDecides`).
- Two search attributes of one name and different types make the start table depend on the map order, and nothing else
  does (`Attributes.StartOrderDecides`).
- A replay differs from the original run in one place: a failed validation of a request that waits for one is accepted
  instead of rejected. Two runs of the same events are the same run if and only if this happens in no workflow task that
  is a replay in one of them only, and no upsert is handled whose null and unparsable attributes they come to in
  different orders; otherwise their environment calls or their panics part for good (`Simulation.ReplayedAlike`,
  `Determinism.ReplayDeterminism`).
- A workflow task can end in a panic. The pipeline is then cleared, except after a panic inside a handler, which leaves
  the messages not yet handled where they were. There are two of those: the failed flush in the callback of a side
  effect, and the null attribute (`Pipeline.TaskFlow`, `Pipeline.PanicsInside`).
- A side effect whose callback gets an error queues an error and does not flush, so it makes no exchange of its own
  (`Pipeline.TaskFlow` counts it out).
- A cancel function is registered after the call that starts its operation. If, and only if, the environment calls the
  operation's handler inside that call, the entry is left behind for an operation already answered
  (`Guarantees.EarlyFiringLeavesEntry`), and these are exactly the answered operations a `Cancel` still runs a cancel
  function for (`Guarantees.CancelledAfterAnswer`). `Guarantees.AnsweredThenCancelled` is an activity to which it happens.
- Nothing makes the worker validate an update before completing it. The request then hears Complete first; it hears
  things in order exactly when the worker does not do that (`UpdateRequests.UpdateLifecycle`).
- Two children without an id get the same one exactly when they are a multiple of 2^64 apart
  (`Operations.ChildIdsDistinct`).
- A command that asks for a child's execution is answered once if and only if the child had started and does not start
  again before another command asks for it, or had not and starts exactly once before then. A second command asking for a
  child that has not started leaves the first one unanswered, and a reused child id answers a command twice
  (`Provenance.ChildAnsweredOnce`).
- An empty keyword list comes back from the worker as a nil one, and a nil one does not come back
  (`Attributes.EmptyListFades`).
- A datetime outside the years 0000 to 9999 sent to the worker and back fails the whole upsert
  (`Attributes.ValueRoundTrip`).
- Two registry operations that interleave store, store, load, load call the listener twice (`Registry.Rendezvous`).
- `InvokeLocalActivity` can be encoded but not decoded, `UndefinedResponse` the other way round (`Codec.NamesInvert`).

## Model

| member | source | states |
|---|---|---|
| Determinism.ReplayDeterminism | aggregatedpool/workflow.go:280-333 | two runs fed the same events, environment answers and worker replies (up to the ids plain responses echo), with no two search attributes of one name and at most one update name pending per workflow task, whatever the global counter, whatever other workflows draw between any two draws, whatever the map orders, and however queries interleave, make the same environment calls in the same order and send the same batches up to an order-preserving renaming of engine ids if and only if no command is disputed: no failed validation of a waiting request is handled in a task that is a replay in one run only, and no upsert whose null and unparsable attributes they meet in different orders |
| Determinism.MapOrderMatters | aggregatedpool/workflow.go:300-307 | all the environment calls of a workflow task are independent of the map order if and only if at most one update name is pending |
| Determinism.QueriesDoNotInterfere | aggregatedpool/handler.go:116-135 | inserting or removing queries and stack traces anywhere in a run, and ids drawn by others between any two draws, leave queue, pipeline, callbacks, canceller, registry, updates and environment calls unchanged, and change sent batches only by renaming engine ids in order |
| Determinism.RunTwins | aggregatedpool/workflow.go:280-333 | the simulation behind replay determinism, from any two corresponding states: they stay in correspondence if nothing is disputed, and their environment calls or panics part for good otherwise |
| Simulation.HandleTwins | aggregatedpool/handler.go:138-534 | handling one command from corresponding states gives the same exit and corresponding states |
| Simulation.ReplayedAlike | aggregatedpool/handler.go:52-61 | from corresponding states, one perhaps a replay, with maps visited in any two orders, it does if and only if the command is neither the failed validation of a waiting request replayed in one of them nor an upsert whose two faults they meet in different orders |
| Guarantees.ExactlyOneAnswer | aggregatedpool/handler.go:536-597 | in every run before Close, the answer of every operation ever started is in exactly one of four places: pending in the environment, deferred, queued, sent; so a fired handler yields exactly one response or error, which goes to the id of the command that started the operation and carries the payloads or the failure its handler was called with |
| Provenance.AnswersAreBacked | aggregatedpool/handler.go:536-597 | in every run every answer comes from a handler call the environment makes, by itself or inside a workflow task: a result handler's carries that outcome under its command's id, a child listener's the outcome the child announced |
| Provenance.ChildrenAnswer | aggregatedpool/handler.go:182-198 | in every run the commands that ask for a child's execution listen in the order they are handled, every entry was announced by a child, and what the listeners hear, in order, is what the history of the registry delivers |
| Provenance.AnnouncementsCount | aggregatedpool/handler.go:173-175 | a child that announces itself is entered, and does so once |
| Provenance.ChildrenCanAnnounce | aggregatedpool/handler.go:163-180 | once its command is handled a child can announce itself, unless it did inside the start call |
| Provenance.ChildAnsweredOnce | registry/registry.go:23-43 | in every run such a command is answered exactly once if and only if the child had started and does not start again before another command asks for it, or had not and starts exactly once before then |
| Provenance.NextTold | aggregatedpool/workflow.go:280-333 | every event keeps the invariant behind them |
| Guarantees.AnswersInOrder | aggregatedpool/handler.go:551-596 | answers in sent, then queued, then deferred are the handler calls of the whole run in their order |
| Guarantees.NothingDeferredInTask | aggregatedpool/handler.go:583-596 | handling a command inside the loop never leaves a deferred callback |
| Guarantees.DeferredOutsideTask | aggregatedpool/handler.go:583-596 | outside the loop a handler that fires leaves queue and cancel functions alone and is deferred behind the others |
| Guarantees.NothingLost | aggregatedpool/handler.go:623-675 | in every run before Close, sent followed by queued is everything ever pushed, in order |
| Guarantees.CancellationIsSafe | canceller/canceller.go:21-36 | over every run before Close, a cancel function runs at most once, an operation is asked to cancel at most once, and never after its handler fired following its registration |
| Guarantees.CancelledAfterAnswer | canceller/canceller.go:21-36 | over every run before Close, a cancel function runs for an operation already answered if and only if the handler was called before the cancel function was registered |
| Guarantees.AnsweredEntries | aggregatedpool/handler.go:536-597 | between the events of every run before Close, an entry of the canceller is for an answered operation if and only if its handler was called before the registration or the callback that discards it is still deferred |
| Guarantees.EntryAnswered | aggregatedpool/handler.go:536-597 | the same in every state that keeps the invariant, inside a workflow task too, where nothing is deferred |
| Guarantees.RegisteredAnswered | aggregatedpool/handler.go:145-151 | starting and registering any operation leaves its entry, and the operation is answered by then if and only if the environment called its handler inside the call |
| Guarantees.EarlyFiringLeavesEntry | aggregatedpool/handler.go:142-211 | so for every command that starts an activity, local activity, child or timer, and whatever the reaction; and exactly then the handler comes before the registration in the ledger |
| Guarantees.CancelRequests | aggregatedpool/handler.go:145-211 | a cancel function sends exactly one request for its operation, and none if it is that of a timer without an id |
| Guarantees.CancelsLikeCanceller | canceller/canceller.go:21-36 | with no handler called meanwhile, cancelling leaves the table the canceller's own loop leaves |
| Guarantees.CancelReaches | canceller/canceller.go:21-36 | whatever handlers re-enter, every listed id has no cancel function afterwards, and each that had one had it run or was answered on the way |
| Guarantees.AnsweredThenCancelled | aggregatedpool/handler.go:142-151 | an activity answered inside its start call and then cancelled: the request is sent |
| Guarantees.HandledInOrder | aggregatedpool/workflow.go:315-332 | between the events of every run, panicked and closed ones included, the handled messages are a prefix of the received ones in order; they are all of them and the pipeline is empty unless the run panicked, and then the pipeline holds all the rest or nothing |
| Guarantees.CloseDrops | aggregatedpool/workflow.go:362-382 | Close clears completions and names but not validations, and drops the queue, updates run by the drain included, unsent |
| Delivery.NextKeeps | aggregatedpool/workflow.go:280-333 | every event before Close keeps the delivery and cancellation invariant |
| Delivery.RunKeeps | aggregatedpool/workflow.go:280-333 | so does every run |
| Delivery.HandleKeeps | aggregatedpool/handler.go:138-534 | every worker command keeps it, and starts exactly one operation or none |
| Delivery.CancelIdsKeeps | canceller/canceller.go:21-36 | so does a cancel loop whose cancel functions call handlers that discard entries meanwhile |
| Delivery.DrainKeeps | aggregatedpool/workflow.go:290-297 | draining the deferred callbacks answers them in order and discards the cancel function of each before any command is handled |
| Pipeline.FlushIsAtomic | aggregatedpool/handler.go:623-675 | a flush succeeds exactly on an empty queue or a clean reply; on success the whole batch moves and the whole reply is appended in place; on any failure queue and pipeline are untouched, even when a prefix of the reply had been decoded |
| Pipeline.QueryAnswered | aggregatedpool/handler.go:116-135 | a query returns the payloads or the failure of the one message of a clean reply, and fails on any other reply |
| Pipeline.StackTraceAnswered | aggregatedpool/workflow.go:336-360 | a stack trace is the first item of that message as text, empty without one, or the error of reading it |
| Pipeline.DecodedFrames | internal/codec/proto/proto.go:91-103 | decoding succeeds exactly on well-formed frames, keeping every message in place, and otherwise stops at the first malformed one |
| Pipeline.TaskFlow | aggregatedpool/workflow.go:280-333 | on every exit, a workflow task handles a prefix of the messages of the replies it took in, in order, and all of them if it returns; on a panic inside a handler, which only a side effect and an upsert with a null attribute raise, the rest stays in the pipeline, on any other failure the pipeline is cleared; it makes one exchange for a non-empty first queue plus one per GetVersion, Cancel and SideEffect handled without a failure |
| Pipeline.PipelineFlow | aggregatedpool/workflow.go:315-332 | the same for the pipeline loop from any state, nested flushes included |
| Pipeline.PanicsInside | aggregatedpool/handler.go:600-619 | handling a command panics if and only if it is a side effect whose result is answered by anything but a clean reply, or a typed upsert that meets a null attribute before an unparsable datetime; the pipeline is then as it was |
| Pipeline.HandleFlow | aggregatedpool/handler.go:138-534 | a handled command takes in the one reply it asks for, or none; a failed one takes in nothing; a side effect fails by panicking only, and but for it only an upsert that meets a null attribute panics |
| UpdateRequests.UpdateLifecycle | aggregatedpool/handler.go:40-89 | over every run and for every update request: no verdict twice, at most one of Accept and Reject, nothing after a Reject; the verdicts are a prefix of Reject or of Accept, Complete if and only if the worker never completed the request while its validation was outstanding |
| UpdateRequests.FailedValidation | aggregatedpool/handler.go:258-277 | a failed validation rejects outside a replay and accepts during one, and either way removes both callbacks |
| UpdateRequests.HastyWorker | aggregatedpool/handler.go:241-256 | a request completed before it is validated hears Complete first |
| UpdateRequests.RunLives | aggregatedpool/handler.go:241-277 | the invariant tying callbacks to verdicts is kept by every run, Close included |
| UpdateRequests.FirstBatch | aggregatedpool/workflow.go:288-313 | the first batch is what was queued, then deferred answers in arrival order, then one InvokeUpdate per pending request under ids that rise whatever others draw in between; under any map order no request is lost or duplicated, per-name order is kept, and names and requests end empty |
| UpdateRequests.RequestsWait | aggregatedpool/handler.go:48-77 | once a task has run the queued requests, both callbacks of an id are those of its newest request, and the others are as before |
| UpdateRequests.OthersWaitOn | aggregatedpool/handler.go:241-277 | handling a message takes away exactly the callbacks of the update it settles |
| UpdateRequests.GroupedKeepsOrder | aggregatedpool/workflow.go:300-305 | visiting the names in any order keeps all requests of each name in arrival order |
| Operations.OperationsStarted | aggregatedpool/handler.go:142-211 | in every run the start calls made to the environment are exactly those the handled commands ask for: each once, in order, under the command's id, with its parameters and the defaults filled in |
| Dispatch.MessagesAreServed | aggregatedpool/handler.go:213-312 | in every run the calls made for versions, side effects, completion, continuation, search attributes and memos are exactly those the handled messages ask for, in order, with their payloads, failure, header and options; and the engine's own answers are, in order, one per message owed one, under its id: versions and side effects with the value or the error the environment answered that call with, cancellations and completions with "completed" |
| Dispatch.AnsweredAsGiven | aggregatedpool/workflow.go:280-333 | the k-th answered call of a workflow task is answered with the k-th reaction given to it, and nothing else is answered |
| Dispatch.VerdictsComeFromMessages | aggregatedpool/handler.go:48-77 | in every run an update completes with the failure of the handled UpdateCompleted message that names it, or else with its payloads, and is rejected with the failure of the UpdateValidated message that names it |
| Dispatch.CommandsFollowEvents | aggregatedpool/handler.go:40-135 | in every run the engine's own commands are, up to ids, a function of the launch and the events: the start command with input and last results, one InvokeSignal per signal, one CancelWorkflow per cancel request, one InvokeUpdate per update request run, each with the event's name, id, input and header, and one single command per query, stack trace and Close |
| Dispatch.CancelsWhatWasStarted | aggregatedpool/handler.go:145-211 | in every run a request to cancel names an operation as it was started: a child by the namespace and workflow id of its start call, a timer only if it got an id |
| Effects.HandleDoes | aggregatedpool/handler.go:138-534 | handling one command makes the calls, passes the verdicts and pushes the answers its message calls for, and no more |
| Effects.ExitIs | aggregatedpool/handler.go:138-534 | a command fails exactly for the reasons the source has, with the environment's error, the pool's, or the message's own |
| Operations.KthChild | aggregatedpool/handler.go:167-171 | in every run the workflow ids in the start calls made for children without an id of their own are RunID_1, RunID_2, ... in order |
| Operations.ChildIdsDistinct | aggregatedpool/handler.go:167-171 | in every run two of these ids coincide if and only if they are a multiple of 2^64 apart |
| Operations.CancelIdsIdle | aggregatedpool/handler.go:498-503 | cancelling starts nothing and every request to cancel belongs to a cancel function that ran |
| Numbering.DistinctIds | aggregatedpool/workflow.go:40-45 | however the single draws of the workflows of a process interleave, until the counter wraps: ids rise within each queue, each was drawn at a turn of its own workflow, none is 0, and no two commands of any workflows share one |
| Numbering.NumbersRise | queue/queue.go:40-49 | successive draws of a workflow rise whatever others draw in between |
| Numbering.NextSteps | queue/queue.go:33-49 | every event takes its ids out of the shared counter, in order, at its own turns |
| Decimal.ParseOfItoa | aggregatedpool/handler.go:378-383 | parsing a printed 64-bit integer gives it back |
| Decimal.SignsRead | aggregatedpool/handler.go:378-383 | what a string of digits parses to, with and without a sign, and when it is out of range |
| Decimal.ItoaInjective | aggregatedpool/handler.go:170 | decimal printing is injective |
| Attributes.Collect | aggregatedpool/handler.go:314-478 | for any map, nulls included, and any iteration order the loop panics or fails on the first null or unparsable set datetime it meets, and otherwise gathers the updates the map stands for, one per key |
| Attributes.OrderDecides | aggregatedpool/handler.go:314-478 | how the loop ends is the same in every iteration order if and only if the map does not hold both a null and an unparsable set datetime |
| Attributes.EndsAs | aggregatedpool/handler.go:314-478 | it comes to its end exactly without either, panics only with a null and fails only with such a datetime |
| Attributes.Gather | aggregatedpool/handler.go:314-478 | the same ending, and the updates as a function of the map |
| Attributes.UpdatesAre | aggregatedpool/handler.go:318-468 | key by key: an attribute is unset exactly if its operation is "unset", otherwise set exactly if its value has a shape its type takes, to the value meant, of its type; nothing else is updated |
| Attributes.StartedAre | aggregatedpool/workflow.go:160-250 | which values of the environment the start table takes, per type, and what it makes of them |
| Attributes.FinishesWhen | aggregatedpool/handler.go:446-466 | the loop comes to its end if and only if every key holds an attribute and none fails to convert, and only a datetime does |
| Attributes.CollectStrings | aggregatedpool/handler.go:418-425 | the strings of a mixed list, in order |
| Attributes.StringsConcat | aggregatedpool/handler.go:418-425 | the strings of a list are those of its parts in order, a string of itself and nothing of anything else |
| Attributes.BuildStartTable | aggregatedpool/workflow.go:155-255 | the table made in some iteration order of the typed keys, a later key of the same name winning |
| Attributes.StartOrderDecides | aggregatedpool/workflow.go:155-255 | the start table is the same in every iteration order if and only if no two keys of one name both make an attribute |
| Attributes.ValueRoundTrip | aggregatedpool/workflow.go:160-250 | one value of any of the seven types through the start table, JSON and the upsert table comes back if and only if it is an integer float64 has, a whole second RFC 3339 has, a keyword list that is not nil (an empty one as nil), or of another type; a datetime RFC 3339 cannot write fails, a nil list is skipped, everything else keeps its type |
| Attributes.EmptyListFades | aggregatedpool/handler.go:417-425 | an empty keyword list comes back nil, and a nil one does not come back |
| Attributes.SurvivesWhen | aggregatedpool/handler.go:364-386 | integers up to 2^53 in magnitude, whole-second datetimes of the years 0000 to 9999, keyword lists that are not nil and everything of the other four types survive |
| Attributes.TablesInvert | aggregatedpool/handler.go:318-468 | a whole map of values through both tables, in any order: the upsert fails exactly if some datetime cannot be written, updates exactly the keys that hold neither such a datetime nor a nil list, and every value that survives comes back |
| Wire.EverythingSentTravels | aggregatedpool/handler.go:623-675 | in every run each batch and each single command sent can be written whenever JSON can write its commands, and decodes to the same messages: none holds an undefined response or the invocation of a local activity |
| Codec.BatchRoundTrip | internal/codec/proto/proto.go:36-103 | decoding an encoded batch gives the same messages in the same order with the same id, payloads, failure, header and command kind if and only if none invokes a local activity |
| Codec.Packable | internal/codec/proto/proto.go:141-170 | a batch can be packed exactly when it holds no undefined response and JSON can write its commands |
| Codec.NamesInvert | internal/protocol.go:444-599 | the two name tables invert each other except on the kinds only one of them has |
| Codec.PayloadRoundTrip | internal/codec/proto/proto.go:69-91 | what is marshalled into a payload is what the decoder reads from it |
| Codec.Encode | internal/codec/proto/proto.go:36-75 | writes the packed batch, or leaves the payload untouched when a message cannot be packed |
| Codec.Decode | internal/codec/proto/proto.go:77-103 | appends exactly the messages before the first malformed one and reports it |
| Codec.DecodeWorkerInfo | internal/codec/proto/proto.go:107-139 | succeeds exactly on one message under id 0 all of whose payloads are infos; appends the infos before the first payload that is none in any case, in order |
| Registry.Rendezvous | registry/registry.go:23-43 | for every interleaving of one Listen and one Push the listener is called with the entry exactly once, or exactly twice if both stores precede both loads |
| Registry.LatestWins | registry/registry.go:23-43 | over every sequential history the calls are those in which the latest listener and latest entry win |
| Registry.DeliveryServes | registry/registry.go:23-43 | every delivery answers one Listen and one only |
| Registry.CalledOnce | registry/registry.go:23-43 | exactly when the listener of a Listen is called exactly once |
| Registry.IDRegistry.Listen | registry/registry.go:23-32 | stores the listener and finds the entry already there, as one step of the history |
| Registry.IDRegistry.Push | registry/registry.go:34-43 | stores the entry and finds the listener already there, as one step of the history |
| Cancelling.CancelOnce | canceller/canceller.go:21-36 | each listed cancel function runs at most once however often its id is listed, what ran is gone and the rest untouched, and a failing one is the last to run |
| Cancelling.Canceller.Cancel | canceller/canceller.go:21-36 | the load-and-delete loop runs and leaves what that function says |
| Cancelling.Canceller.Register | canceller/canceller.go:13-15 | stores the cancel function under its id |
| Cancelling.Canceller.Discard | canceller/canceller.go:17-19 | forgets it |
| Queue.Counter.Next | aggregatedpool/workflow.go:43-45 | the next number of the process, after those others have drawn, as a 64-bit id |
| Queue.MessageQueue.Append | queue/queue.go:40-64 | in place or into a larger array, the queue is the old sequence with one message more, and slices taken before keep their content |
| Queue.MessageQueue.PushCommand | queue/queue.go:40-49 | appends a command under a fresh id |
| Queue.MessageQueue.PushResponse | queue/queue.go:51-58 | appends a response |
| Queue.MessageQueue.PushError | queue/queue.go:60-64 | appends an error |
| Queue.MessageQueue.AllocateMessage | queue/queue.go:33-38 | a command under a fresh id that is not queued |
| Queue.MessageQueue.Messages | queue/queue.go:66-70 | a slice sharing the backing array, holding the queue |
| Queue.MessageQueue.PushAll | queue/queue.go:66-70 | a slice keeps its messages through any number of pushes |
| Queue.MessageQueue.Flush | queue/queue.go:24-28 | empties the queue in place |
| Queue.MessageQueue.FlushThenPush | queue/queue.go:24-28 | the first push after a flush overwrites the first message of an earlier slice |
| Workflows.Workflow.Execute | aggregatedpool/workflow.go:118-272 | ends in the initial state: everything empty but the start command |
| Workflows.Workflow.OnWorkflowTaskStarted | aggregatedpool/workflow.go:280-333 | refines the workflow-task step of the state machine |
| Workflows.Workflow.DrainPipeline | aggregatedpool/workflow.go:315-332 | terminates and refines the pipeline loop, clearing the pipeline on an error but not on a panic inside a callback |
| Workflows.Workflow.HandleMessage | aggregatedpool/handler.go:138-534 | refines the handling of one command, which Effects.HandleDoes, Effects.ExitIs and Operations.OperationsStarted pin down from the message |
| Workflows.Workflow.FlushQueue | aggregatedpool/handler.go:623-675 | refines the flush |
| Workflows.Workflow.CancelCommands | canceller/canceller.go:21-36 | refines cancellation, with handlers re-entering during the loop |
| Workflows.Workflow.HandleResult | aggregatedpool/handler.go:567-597 | answers at once in the loop and defers outside it |
| Workflows.Workflow.RecordEffect | aggregatedpool/handler.go:232-239 | the side-effect callback runs inside the call and answers with the recorded value (Effects.HandleDoes); a failed flush there panics |
| Workflows.Workflow.UpsertTypedAttributes | aggregatedpool/handler.go:314-478 | in whatever map order, upserts the updates of the map (Attributes.UpdatesAre), nothing if there are none, nothing on a bad datetime, and panics on a null attribute that comes first |
| Workflows.Workflow.CompleteUpdateCommand | aggregatedpool/handler.go:241-256 | completes a known update once, with the message's failure or payloads (Effects.HandleDoes) |
| Workflows.Workflow.ValidateUpdateCommand | aggregatedpool/handler.go:258-277 | accepts or rejects a known update once, dropping its completion on failure |
| Workflows.Workflow.ExecuteChildWorkflow | aggregatedpool/handler.go:163-180 | starts a child, naming it if it has no id, then registers its cancel function |
| Workflows.Workflow.ListenChild | aggregatedpool/handler.go:182-198 | listens for a child, answering at once if it has started |
| Workflows.Workflow.HandleUpdate | aggregatedpool/handler.go:40-89 | notes the name and queues the request with the environment |
| Workflows.Workflow.HandleQuery | aggregatedpool/handler.go:116-135 | the answer of the one message the worker must send, leaving everything but the counter alone |
| Workflows.Workflow.HandleSignal | aggregatedpool/handler.go:101-113 | queues the signal with its name, input and header (Dispatch.CommandsFollowEvents) |
| Workflows.Workflow.HandleCancel | aggregatedpool/handler.go:92-98 | queues the cancellation under the workflow's header (Dispatch.CommandsFollowEvents) |
| Workflows.Workflow.StackTrace | aggregatedpool/workflow.go:336-347 | asks the worker, leaving everything but the counter alone, and returns the text of the answer, an empty one without payloads, or the error |
| Workflows.Workflow.RunCommand | aggregatedpool/handler.go:678-735 | exactly one message, or an error, and the queue untouched |
| Workflows.Workflow.Close | aggregatedpool/workflow.go:362-382 | refines closing |
| Workflows.Workflow.Happen | aggregatedpool/handler.go:40-135 | any event takes the object to the state the state machine's step prescribes |
| Workflows.Workflow.Drive | aggregatedpool/workflow.go:280-333 | any sequence of events takes it to the state of the run |
| Workflows.RunWorkflow | aggregatedpool/workflow.go:118-272 | created, executed and driven through any events, the object is in the state of the run, and keeps the delivery and cancellation invariant before Close |

## Left out

- Plugin, pool, worker and RPC lifecycle, configuration, TLS, metrics and logging (`plugin.go`, `internal.go`, `rpc.go`, `config.go`, `tls.go`, `metrics.go` and others): they would add easy members only.
- Activities and local activities as the worker executes them (`aggregatedpool/activity.go`, `aggregatedpool/local_activity.go`): single request and response calls.
- Bytes: JSON, protobuf, RFC 3339 and float64 are known by laws (`Codec.Lawful`, `Attributes.Lawful`). Converting a child's execution is total, so the panic at aggregatedpool/handler.go:193-195 does not appear. Instants are UTC.
- Message contexts: task queue, tick time, history length and replay flag travel with every wire message in `Codec` but are not part of the engine's batches.
- Operations.OperationsStarted: retry policies, summaries and the other options of a command are carried as one opaque field, and the wall-clock ScheduledTime of local activities is not modelled.
- Attributes.Convert: float64 to int64 conversion outside the int64 range wraps, where Go leaves the result open; the Go integer types are one unbounded type reduced to 64 bits.
- Object pools and mutexes: each workflow is sequential; interleaving is modelled for the id counter and for the registry.
- Registration of handlers with the environment, and the update queue the environment keeps: visible as `Env.pending`, `Env.starting` and `Env.updates`, not as calls in the trace.
- Panics raised by the environment inside a call, such as for an unsupported version, do not appear: every call returns.
- Workflows.Workflow.CancelCommands: runs the loop of `Canceller.Cancel` itself, since cancel functions change the workflow object, which a function value cannot do here; `Guarantees.CancelsLikeCanceller` relates the two.
- A panic is final in the model; how the SDK retries a workflow task after one is outside it.
