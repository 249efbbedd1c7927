# UniversalRuntime: a verified model of the execution kernel

UniversalRuntime accepts runs of agent graphs, queues them, executes them on a framework adapter and
streams their events. This project models its in-process kernel in Dafny and proves what it promises
over whole runs: the event journal with bounded live subscribers, the fair dispatcher and both lease
queues, the event batcher, the execution service with its repositories and local worker, the LangGraph
event stream, the projector, the capacity gate, the polling journal, configuration precedence, the
repository listings and the identifiers.

`dafny verify dfyconfig.toml` checks everything.

## How the model is built

- Objects that the source updates in place are classes with the same fields. Each method's contract says
  that the new state and the result are those of a specification function (`AfterAppend`, `AfterChoose`,
  `AfterExecute`, ...) of the old state; the theorems are about these functions.
- Interleavings are runs of a step machine. A step is the code between two points where the source really
  suspends; a step that is not enabled changes nothing, so a run is any finite sequence of steps. The
  in-memory locks are never held across a suspension, so an operation that only takes such locks is one
  step. The execution service suspends at its adapter's stream and at an empty queue, and nowhere else.
- The clock, fresh identifiers, and the behaviour of graphs, adapters and sinks are parameters, and every
  theorem holds for all their values.

| files | what they model |
|---|---|
| `Domain` | events, drafts, commands, receipts, JSON data |
| `EventJournal`, `JournalDelivery`, `JournalTheorems` | the in-memory journal; delivery under interleaving |
| `QueueItems`, `FairDispatcher`, `DispatcherFairness` | the dispatcher; freedom from starvation |
| `LeaseLedger`, `KafkaQueue`, `MemoryQueue` | lease bookkeeping, and the two queues that refine it |
| `EventBatching` | the batcher; optimality of greedy batching |
| `Execution`, `ExecutionService` | runs, threads, repositories and the service |
| `ExecutionSettles`, `LocalWorker` | one execution, and the worker's loop |
| `ExecutionRuns`, `ExecutionTheorems`, `ExecutionOperations`, `PendingRuns`, `RefusedStarts`, `ExecutionLogs` | the service over all its runs, and what it tells the journal |
| `LangGraphStream`, `LangGraphExecution` | the adapter's stream, and its execution by the service |
| `EventProjector`, `ProjectionAgreement` | the projector, and how it agrees with the service |
| `Capacity`, `PollingJournal`, `Precedence`, `Listings`, `Identifiers` | one component each |

## Findings

Properties that one would expect of the code and that do not hold, each with its exact condition.

| expected | what holds | members |
|---|---|---|
| a subscriber gets events above its cursor only | exactly when the cursor is not ahead of the log at the time of subscribing; live events are not filtered | `JournalTheorems.CursorHonouredIff` |
| a thread has at most one active run | every step keeps this unless an interruption is reported for a run that is final by then while another run holds the thread; cancelling an executing run and starting another makes that possible. Undisturbed executions always keep it | `ExecutionTheorems.OneActiveIff`, `ExecutionTheorems.TwoActiveRuns`, `ExecutionOperations.OneActiveRunPerThread` |
| a refused start leaves no trace | exactly when its thread is unknown or busy, or when it has no thread and its run identifier is taken. Otherwise its thread is left busy (identifier taken, or thread held by a run, also an interrupted one), or a failed run and a broken thread remain (queue closed) | `RefusedStarts.NoTraceIff`, `RefusedStarts.TraceOfRefusal` |
| a busy thread has an active run | a start breaks this exactly when its run identifier is taken and its known thread has no active run | `RefusedStarts.StrandedIff`, `RefusedStarts.ThreadIsStranded` |
| a busy thread without a run is released some time | exactly when one of its runs is being executed at that moment; otherwise it stays busy for ever and refuses every run | `RefusedStarts.StrandedForEverIff`, `RefusedStarts.StartStrands` |
| a finished run is told to its subscribers | an execution logs a terminal event exactly when its adapter streams one or the stream does not simply end; a stream that ends without one completes the run in silence | `ExecutionLogs.EndsSilentlyIff` |
| the worker serves every command | its loop ends at the first pending run whose stream fails; the commands behind it go on waiting | `LocalWorker.WorkerDiesIff` |
| a polling subscription of a finished run ends | exactly when one of its polls meets a journal whose last event is terminal; a run that was interrupted and resumed has `run.queued` behind it | `PollingJournal.EndsIff`, `PollingJournal.LateReaderEndsIff`, `PollingJournal.TerminalInsideBatch` |
| the projection shows the stored run | the status differs exactly when the graph finished with an interrupt, and is then "running"; the result is the stored one only if the last state values are the completion event's own data | `ProjectionAgreement.ProjectionAgreesIff` |
| the sink shows the projection | exactly when the sink was up for the last accepted event; delivering again repairs nothing | `EventProjector.SinkCurrentIff`, `EventProjector.FailedWriteIsNotRepaired` |
| interactive commands go first | exactly when the oldest aged command is interactive, or nothing is aged and the cursor stands at the interactive slot or its own slot is empty | `FairDispatcher.InteractiveFirstIff` |
| a queued command is handed out within some number of choices, whatever is added | exactly when the command is aged; before that it can be passed over any number of times by commands that arrive already aged, and only choices that consult the cursor count for it | `DispatcherFairness.BoundedIffAged`, `DispatcherFairness.YoungItemCanWait`, `DispatcherFairness.LeavesWithinMeasure` |
| both queues retry alike | exactly when the in-memory queue allows two retries; its default is three | `KafkaQueue.SamePolicyIff` |
| every terminal event flushes the batcher | the four listed types do; an interrupted run's last event stays buffered | `EventBatching.EmptyAfterFlushingEvent` |
| every stream opens with `run.started` | exactly when the request has stream modes and its configuration can be mapped (its `configurable` and `metadata`, where present, make dictionaries); otherwise nothing is streamed and the task stays registered | `LangGraphStream.OpensIff`, `LangGraphStream.LangGraphAdapter.Stream`, `LangGraphExecution.UnopenedFails` |
| counting threads counts them | up to 100000 | `Listings.CountThreads` |

Where documentation and code disagree, the model follows the code. ADR-002 and the architecture document
speak of weighted scheduling; the weights are validated and never read when choosing. The compatibility
matrix has interactive runs dispatched ahead of batch work; see `InteractiveFirstIff`. It also has
interrupted runs resume; resuming queues a command that the worker then ignores, because the run is not
pending (`ExecutionTheorems.NeverRunsAgain`).

## Model

| member | source | states |
|---|---|---|
| EventJournal.InMemoryEventJournal.Append | src/universal_runtime/adapters/memory/events.py:37-69 | one append: the log grows by one numbered event, every listening queue is served, refused queues overflow and are closed, a terminal event closes all, and no other queue changes |
| EventJournal.CloseQueue | src/universal_runtime/adapters/memory/events.py:71-77 | closing a full queue costs its oldest item |
| EventJournal.InMemoryEventJournal.Replay | src/universal_runtime/adapters/memory/events.py:79-85 | the events above a cursor; a cursor below -1 is refused |
| EventJournal.InMemoryEventJournal.Subscribe | src/universal_runtime/adapters/memory/events.py:87-98 | the snapshot, and registration unless it contains a terminal event |
| EventJournal.Subscription.Next | src/universal_runtime/adapters/memory/events.py:99-114 | one resumption of the generator, and its `finally` clause |
| EventJournal.ReplayIsSuffix | src/universal_runtime/adapters/memory/events.py:79-85 | a replay is the rest of the log from the cursor on |
| EventJournal.AppendKeepsWellFormed | src/universal_runtime/adapters/memory/events.py:37-69 | logs stay numbered, no overflowed queue listens, no empty subscriber set survives |
| JournalTheorems.LogIsAppends | src/universal_runtime/adapters/memory/events.py:37-51 | under every interleaving a run's log is the list of its appends in order, each with its draft's identity, type and data, its identifier and time, numbered from 0 |
| JournalTheorems.TerminalAppendCloses | src/universal_runtime/adapters/memory/events.py:18-24 | an append ends a listening stream with room if and only if its type is one of the five terminal ones, as a member or as a plain string |
| JournalDelivery.TerminalFits | src/universal_runtime/adapters/memory/events.py:63-66 | a terminal event that fits is delivered; its end marker may cost one queued event |
| JournalDelivery.EventRefused | src/universal_runtime/adapters/memory/events.py:57-66 | a refused event ends the stream just before it and costs one queued event, or two if it is terminal |
| JournalDelivery.ReachableInvariant | src/universal_runtime/adapters/memory/events.py:37-114 | what is known of every subscriber in every state of every interleaving |
| JournalTheorems.DeliveryTheorem | src/universal_runtime/adapters/memory/events.py:37-114 | under every interleaving a subscriber yields its log from its base with at most one hole of at most two events, and an ended stream has exactly the hole its end explains |
| JournalTheorems.DeliveredInOrder | src/universal_runtime/adapters/memory/events.py:37-114 | that means: events of one run, strictly increasing, at most two numbers skipped |
| JournalTheorems.ReachableWellFormed | src/universal_runtime/adapters/memory/events.py:51-69 | overflow and subscriber bookkeeping in every reachable state |
| JournalTheorems.CursorHonouredIff | src/universal_runtime/adapters/memory/events.py:95-108 | no run yields an event at or below the cursor, if and only if the cursor is not ahead of the log |
| JournalTheorems.KeepingUpIsExact | src/universal_runtime/adapters/memory/events.py:87-114 | a subscriber whose queue always has room yields exactly the replay from its cursor through the first terminal event after it subscribed |
| JournalTheorems.ClosedStreamEnds | src/universal_runtime/adapters/memory/events.py:100-108 | a closed stream yields the rest of its flow and ends, with reads alone |
| JournalTheorems.GoneWithoutTrace | src/universal_runtime/adapters/memory/events.py:109-114 | in every reachable state a subscription that has ended or was abandoned is no subscriber and not marked as overflowed |
| JournalTheorems.NonInterference | src/universal_runtime/adapters/memory/events.py:37-114 | removing all actions of the other subscribers changes neither the logs nor what a subscriber sees |
| FairDispatcher.WeightedFairDispatcher.Add | src/universal_runtime/adapters/kafka/dispatcher.py:75-77 | queues a command at the end under a new number |
| FairDispatcher.WeightedFairDispatcher.Choose | src/universal_runtime/adapters/kafka/dispatcher.py:79-96 | removes and returns the first candidate, advancing the cursor unless an aged item was chosen |
| FairDispatcher.ChoiceFollowsRule | src/universal_runtime/adapters/kafka/dispatcher.py:79-96 | an item is chosen if and only if it satisfies the selection rule, stated without the list's order |
| FairDispatcher.ChoiceByClass | src/universal_runtime/adapters/kafka/dispatcher.py:79-96 | the same over the commands' own times and priorities: the oldest aged command; else the oldest of the class the cursor prefers (interactive, normal, batch in turn), or of the most urgent class present; and what is left in the queue |
| FairDispatcher.InteractiveFirstIff | src/universal_runtime/adapters/kafka/dispatcher.py:83-94 | exactly when an interactive command is chosen while one is queued, with something aged and without |
| DispatcherFairness.PassedOverBound | src/universal_runtime/adapters/kafka/dispatcher.py:75-96 | while an item stays queued, cursor choices and aged choices use up two explicit measures, whatever is added |
| DispatcherFairness.ChosenWithinCursorChoices | src/universal_runtime/adapters/kafka/dispatcher.py:86-94 | an item with k earlier items of its priority is handed out within 3(k+1) cursor choices |
| DispatcherFairness.ChosenOnceAged | src/universal_runtime/adapters/kafka/dispatcher.py:83-85 | an aged item is handed out within one choice more than the items queued before it |
| DispatcherFairness.LeavesWithinMeasure | src/universal_runtime/adapters/kafka/dispatcher.py:75-96 | one measure that makes every item leave |
| DispatcherFairness.YoungItemCanWait | src/universal_runtime/adapters/kafka/dispatcher.py:83-85 | before it ages, an item can be passed over any number of times, whatever else is queued |
| DispatcherFairness.BoundedIffAged | src/universal_runtime/adapters/kafka/dispatcher.py:75-96 | there is a number of choices within which a queued item is handed out whatever is added, if and only if the item is aged |
| DispatcherFairness.RunConserves | src/universal_runtime/adapters/kafka/dispatcher.py:75-96 | no item is lost or handed out twice |
| LeaseLedger.RunKeepsAccounts | src/universal_runtime/adapters/memory/queue.py:31-86 | in every run every published command is in exactly one of waiting, leased, acknowledged, dead-lettered, with its deliveries counted |
| LeaseLedger.RetryBound | src/universal_runtime/adapters/memory/queue.py:67-86 | no command is delivered more often than the limit, and one that was delivered that often and is not leased is acknowledged or dead-lettered |
| KafkaQueue.KafkaRunCommandQueue.Publish | src/universal_runtime/adapters/kafka/dispatcher.py:111-113 | publishing records the command with the transport and hands it to the dispatcher |
| KafkaQueue.KafkaRunCommandQueue.Receive | src/universal_runtime/adapters/kafka/dispatcher.py:115-130 | leases the chosen command, or reports that none is available |
| KafkaQueue.KafkaRunCommandQueue.Acknowledge | src/universal_runtime/adapters/kafka/dispatcher.py:132-134 | ends an active lease; refuses any other receipt |
| KafkaQueue.KafkaRunCommandQueue.Reject | src/universal_runtime/adapters/kafka/dispatcher.py:136-142 | ends the lease and queues the command again or dead-letters it |
| KafkaQueue.ReceiptIsActive | src/universal_runtime/adapters/kafka/dispatcher.py:115-142 | a receive is refused if and only if nothing waits; its receipt counts the delivery and can be used once, under its own lease |
| KafkaQueue.QueueRefinesLedger | src/universal_runtime/adapters/kafka/dispatcher.py:111-142 | every operation is one ledger operation |
| KafkaQueue.CommandsAreConserved | src/universal_runtime/adapters/kafka/dispatcher.py:111-142 | every command is in exactly one place and delivered at most three times |
| KafkaQueue.SamePolicyIff | src/universal_runtime/adapters/kafka/dispatcher.py:139-142 | both queues decide every rejection alike if and only if two retries are allowed |
| MemoryQueue.InMemoryPriorityQueue.Publish | src/universal_runtime/adapters/memory/queue.py:31-41 | queues a command with its negated priority, unless closed |
| MemoryQueue.InMemoryPriorityQueue.PublishRequest | src/universal_runtime/adapters/memory/queue.py:31-41 | a bare request is wrapped in a new command and published |
| MemoryQueue.InMemoryPriorityQueue.Receive | src/universal_runtime/adapters/memory/queue.py:43-59 | leases the least item; reports a closed empty queue; waits on an open one |
| MemoryQueue.InMemoryPriorityQueue.Acknowledge | src/universal_runtime/adapters/memory/queue.py:61-65 | ends an active lease; refuses any other receipt |
| MemoryQueue.InMemoryPriorityQueue.Reject | src/universal_runtime/adapters/memory/queue.py:67-86 | ends the lease and queues the command again under a new number, or dead-letters it |
| MemoryQueue.ReceiptIsActive | src/universal_runtime/adapters/memory/queue.py:43-86 | when a receive is refused and when it waits; its receipt counts the delivery and can be used once, under its own lease |
| MemoryQueue.PublishRefusedIff | src/universal_runtime/adapters/memory/queue.py:37-41 | publishing is refused if and only if the queue is closed |
| MemoryQueue.DrainIsSorted | src/universal_runtime/adapters/memory/queue.py:12-17 | draining hands out every item once, by priority and then insertion order |
| MemoryQueue.DrainAfterHistory | src/universal_runtime/adapters/memory/queue.py:40-59 | the same of successive receives after any history of operations: interactive before normal before batch commands, and each class in the order of its insertion |
| MemoryQueue.RetriedGoesLast | src/universal_runtime/adapters/memory/queue.py:74-84 | after any history, a retried command comes after every waiting command of its own or a higher priority |
| MemoryQueue.QueueRefinesLedger | src/universal_runtime/adapters/memory/queue.py:31-86 | every operation is one ledger operation |
| MemoryQueue.CommandsAreConserved | src/universal_runtime/adapters/memory/queue.py:31-86 | every command is in exactly one place and delivered at most once more than the permitted retries |
| EventBatching.RuntimeEventBatcher.Add | src/universal_runtime/adapters/memory/event_batching.py:31-47 | one addition, with the flushes before and after it |
| EventBatching.RuntimeEventBatcher.Flush | src/universal_runtime/adapters/memory/event_batching.py:49-59 | writes the buffer as one batch, unless empty |
| EventBatching.RunKeepsEvents | src/universal_runtime/adapters/memory/event_batching.py:31-59 | written batches and buffer together are the events added, in order, and every batch meets the limits |
| EventBatching.EmptyAfterFlushingEvent | src/universal_runtime/adapters/memory/event_batching.py:41-47 | the buffer is empty after an event if and only if its type is completed, cancelled, failed or timeout, as a member or as a plain string |
| EventBatching.GreedyIsOptimal | src/universal_runtime/adapters/memory/event_batching.py:34-40 | between two forced flushes no other batching within the limits has fewer batches |
| EventBatching.RunIsOptimal | src/universal_runtime/adapters/memory/event_batching.py:31-59 | the same over whole runs, cut at every forced flush |
| Execution.StatusesAreOneWay | src/universal_runtime/domain/execution/entities.py:50-78 | no sequence of transitions makes a run pending again, and a final status is left by an interruption only |
| Execution.TransitionStores | src/universal_runtime/domain/execution/entities.py:50-78 | the record each transition stores, and when it is refused; an interruption (src/universal_runtime/application/runtime_service.py:272-283) keeps result and error |
| Execution.CreateRefusesIff | src/universal_runtime/adapters/memory/repositories.py:138-150 | creation refuses a known identifier, and else a thread with a pending, running or interrupted run, and nothing else |
| Execution.InMemoryRunRepository.Create | src/universal_runtime/adapters/memory/repositories.py:138-150 | refuses a known identifier and a thread that has an active run |
| Execution.InMemoryRunRepository.Update | src/universal_runtime/adapters/memory/repositories.py:158-163 | replaces a known run |
| Execution.InMemoryRunRepository.ActiveForThread | src/universal_runtime/adapters/memory/repositories.py:208-219 | finds an active run of the thread if and only if there is one |
| Execution.InMemoryThreadRepository.Create | src/universal_runtime/adapters/memory/repositories.py:76-81 | adds a thread under an unknown identifier |
| Execution.InMemoryThreadRepository.Update | src/universal_runtime/adapters/memory/repositories.py:91-98 | replaces a known thread |
| ExecutionService.RuntimeExecutionService.CreateThread | src/universal_runtime/application/runtime_service.py:61-72 | a new idle thread |
| ExecutionService.RuntimeExecutionService.StartRun | src/universal_runtime/application/runtime_service.py:74-146 | the whole new state of a start, with each way it is refused or fails |
| ExecutionService.RuntimeExecutionService.CancelRun | src/universal_runtime/application/runtime_service.py:148-175 | the whole new state of a cancellation |
| ExecutionService.RuntimeExecutionService.ResumeRun | src/universal_runtime/application/runtime_service.py:177-196 | queues a command for an interrupted run and changes nothing else of it |
| ExecutionLogs.StartTells | src/universal_runtime/application/runtime_service.py:90-100 | a start logs one `run.queued` under the run's identity if and only if the run is created |
| ExecutionLogs.StartQueues | src/universal_runtime/application/runtime_service.py:84-135 | a start that succeeds has created a pending run and queued one command with its whole identity and the caller's priority; another start queues nothing |
| ExecutionLogs.CancelTells | src/universal_runtime/application/runtime_service.py:148-175 | a cancellation logs one `run.cancelled` under the run's identity if and only if the run is pending, running or interrupted; otherwise nothing changes |
| ExecutionLogs.ResumeTells | src/universal_runtime/application/runtime_service.py:177-196 | a resumption succeeds if and only if the run is interrupted and the queue open; it logs one `run.queued`, queues one command with the run's identity and the caller's priority, and changes nothing else |
| ExecutionLogs.RunsAreTold | src/universal_runtime/application/runtime_service.py:61-334 | under every interleaving a run's log begins with `run.queued`, and tells of its cancellation or interruption |
| ExecutionLogs.EndsSilentlyIff | src/universal_runtime/application/runtime_service.py:254-304 | an execution logs a terminal event if and only if its stream has one or does not simply end |
| ExecutionService.RuntimeExecutionService.ExecuteReceipt | src/universal_runtime/application/runtime_service.py:241-334 | an execution against any stream and any way it ends, exception handlers and `finally` clause included |
| ExecutionService.RuntimeExecutionService.ConsumeCommands | src/universal_runtime/application/runtime_service.py:213-239 | the worker's loop: an exception of an execution ends it |
| ExecutionSettles.ExecutionSettlesRun | src/universal_runtime/application/runtime_service.py:241-334 | a pending run is settled whatever its adapter does; its thread is not left busy, and is suspended with the run; the adapter is forgotten, the lease acknowledged once, nothing else touched |
| ExecutionSettles.NotExecuted | src/universal_runtime/application/runtime_service.py:241-247 | a receipt for an unknown run raises and keeps its lease; one for a run that is not pending is acknowledged and changes nothing else |
| ExecutionSettles.ExecutionRaisesIff | src/universal_runtime/application/runtime_service.py:262-327 | an execution raises if and only if its stream crashes, contradicts a final status, or is cancelled after another final status |
| LocalWorker.WorkerServesAll | src/universal_runtime/application/runtime_service.py:213-239 | however adapters behave, no lease and no adapter is left behind, and only runs that were pending and were served changed, to settled |
| LocalWorker.WorkerDiesIff | src/universal_runtime/application/runtime_service.py:213-239 | the loop dies if and only if a command that is the first for its pending run meets a failing stream, at the first such command, and otherwise serves all it is given |
| ExecutionRuns.StepKeepsCore | src/universal_runtime/application/runtime_service.py:61-334 | every step of every interleaving keeps threads and runs consistent |
| ExecutionTheorems.AtMostOnce | src/universal_runtime/application/runtime_service.py:241-253 | under any interleaving and redelivery each run's adapter is started at most once, only the run in execution is running, and a busy thread has an active run unless a start has stranded one |
| ExecutionRuns.StepKeepsBusy | src/universal_runtime/application/runtime_service.py:61-334 | every step but a stranding start keeps every busy thread occupied by an active run |
| ExecutionTheorems.NeverRunsAgain | src/universal_runtime/application/runtime_service.py:177-247 | once its execution is over a run never runs again, resumed or not |
| ExecutionTheorems.OneActiveIff | src/universal_runtime/application/runtime_service.py:272-283 | a step keeps one active run per thread if and only if it does not revive a final run on a thread that is taken |
| ExecutionTheorems.TwoActiveRuns | src/universal_runtime/application/runtime_service.py:272-283 | a run of the system that ends with two active runs on one thread |
| ExecutionOperations.ExecuteIsItsSteps | src/universal_runtime/application/runtime_service.py:241-334 | the steps of an undisturbed execution add up to the method's own result |
| ExecutionOperations.OneActiveRunPerThread | src/universal_runtime/application/runtime_service.py:61-334 | after any whole operations a thread has at most one active run, and a busy one has one unless a start has stranded a thread |
| PendingRuns.NoLostRun | src/universal_runtime/application/runtime_service.py:125-146 | in every state of every interleaving a pending run has exactly one command waiting or leased |
| RefusedStarts.NoTraceIff | src/universal_runtime/application/runtime_service.py:74-146 | a refused start changes nothing if and only if its thread is unknown or busy, or it has no thread and a taken identifier |
| RefusedStarts.TraceOfRefusal | src/universal_runtime/application/runtime_service.py:78-146 | which traces the other refusals leave, and when which |
| RefusedStarts.StrandedIff | src/universal_runtime/application/runtime_service.py:78-89 | a start leaves a busy thread that no run holds if and only if its identifier is taken and its known thread has no active run |
| RefusedStarts.StrandedForEverIff | src/universal_runtime/application/runtime_service.py:328-334 | such a thread stays busy whatever follows if and only if none of its runs is being executed |
| RefusedStarts.StartStrands | src/universal_runtime/application/runtime_service.py:78-89 | both of a start in any reachable state without such a thread: it is refused, strands its thread, and for ever if and only if none of the thread's runs is being executed |
| RefusedStarts.StartKeepsStranded | src/universal_runtime/application/runtime_service.py:78-83 | a stranded thread refuses every run |
| RefusedStarts.ThreadIsStranded | src/universal_runtime/application/runtime_service.py:78-89 | a run of the system that strands a thread for ever |
| LangGraphStream.LangGraphAdapter.Stream | src/universal_runtime/adapters/langgraph/adapter.py:132-226 | the stream and its end for any request and any behaviour of the graph, the second attempt included, and the registered tasks afterwards |
| LangGraphStream.OpensIff | src/universal_runtime/adapters/langgraph/adapter.py:132-151 | a stream opens with `run.started` if and only if the request has stream modes and its configuration can be mapped (src/universal_runtime/adapters/langgraph/config_mapper.py:13-15); otherwise it is empty |
| LangGraphStream.StreamGrammar | src/universal_runtime/adapters/langgraph/adapter.py:149-226 | `run.started`, then no event about the run, then exactly one terminal event, which tells how the graph ended |
| LangGraphStream.StreamData | src/universal_runtime/adapters/langgraph/adapter.py:149-224 | the opening and the closing event name the run, and a failure's closing event its error |
| LangGraphStream.StreamOfChunks | src/universal_runtime/adapters/langgraph/stream_mapper.py:68-83 | between opening and closing, announcements apart: one event for each chunk of the graph, in order, with the request's identity, the chunk's payload and the type that fits its mode |
| LangGraphStream.TypeOfFits | src/universal_runtime/adapters/langgraph/stream_mapper.py:24-53 | for every event type, exactly which modes and event names give it |
| LangGraphStream.StreamAnnounces | src/universal_runtime/adapters/langgraph/adapter.py:161-175 | an interrupt is announced right after the state values that carry it, with the same data, and nothing else is announced |
| LangGraphStream.EveryChunkOnce | src/universal_runtime/adapters/langgraph/stream_mapper.py:68-83 | apart from interrupt announcements every chunk becomes one event, in order |
| LangGraphStream.MappedIsPlain | src/universal_runtime/adapters/langgraph/stream_mapper.py:24-53 | no chunk becomes an event about the run |
| LangGraphExecution.LangGraphRunSettles | src/universal_runtime/application/runtime_service.py:254-327 | an undisturbed LangGraph run: the journal gains exactly the stream with one terminal event, the stored record is the one its end calls for, error included, and it raises if and only if the graph does |
| LangGraphExecution.RunByChunks | src/universal_runtime/application/runtime_service.py:254-299 | the stored record by what the graph gave: failed or cancelled with the graph; interrupted if a chunk of mode "values" carries an interrupt; else successful with the payload of the last such chunk, or no result |
| LangGraphExecution.LastValuesIsLast | src/universal_runtime/application/runtime_service.py:260-261 | the stored result is the data of the last state values |
| LangGraphExecution.UnopenedFails | src/universal_runtime/application/runtime_service.py:305-327 | a request whose stream does not open: the run fails, and the service itself reports it |
| EventProjector.LifecycleProjector.Handle | src/universal_runtime/services/event_projector/projector.py:22-58 | one delivery: known events are ignored, gaps refused, the next event folded and written |
| EventProjector.ProjectionIsPrefixFold | src/universal_runtime/services/event_projector/projector.py:22-58 | whatever is delivered in whatever order and multiplicity, each projection is the fold of a prefix of its run's journal |
| EventProjector.FoldStatus | src/universal_runtime/services/event_projector/projector.py:40-50 | a fold's status comes from the last event that reports one |
| EventProjector.FoldStarted | src/universal_runtime/services/event_projector/projector.py:40-41 | its start is the time of the last `run.started` |
| EventProjector.FoldCompleted | src/universal_runtime/services/event_projector/projector.py:42-50 | its completion is the time of the last of the four events that end a run |
| EventProjector.FoldResult | src/universal_runtime/services/event_projector/projector.py:42-43 | its result is the data of the last `run.completed` |
| EventProjector.FoldError | src/universal_runtime/services/event_projector/projector.py:46-48 | its error is the data of the last `run.failed`, an object as it is and a text as a message |
| EventProjector.FoldPlace | src/universal_runtime/services/event_projector/projector.py:51-53 | it is of the run, at the log's last sequence number |
| EventProjector.StepKeepsTracks | src/universal_runtime/services/event_projector/projector.py:25-31 | a delivery is ignored if and only if it is behind, refused if and only if it is ahead, and then changes nothing |
| EventProjector.FullReplayConverges | src/universal_runtime/services/event_projector/projector.py:22-58 | once the deliveries include a whole journal in order, its projection is the fold of all of it |
| EventProjector.ReplayNeverRefused | src/universal_runtime/services/event_projector/projector.py:25-31 | in every reachable state a full replay meets no gap |
| EventProjector.SinkCurrentIff | src/universal_runtime/services/event_projector/projector.py:54-58 | the sink is current if and only if no event of the run was accepted or the last accepted one was written |
| EventProjector.FailedWriteIsNotRepaired | src/universal_runtime/services/event_projector/projector.py:24-26 | no repetition of accepted events changes anything |
| ProjectionAgreement.ProjectionAgreesIff | src/universal_runtime/services/event_projector/projector.py:40-50 | status and result of the projection of the run's journal, under any interleaving of its appends, against the stored run, each with its exact condition on the graph's behaviour |
| Capacity.ExecutionCapacity.Create | src/universal_runtime/adapters/memory/capacity.py:13-20 | refuses a maximum below one |
| Capacity.ExecutionCapacity.Admit | src/universal_runtime/adapters/memory/capacity.py:28-32 | the second check: a draining gate takes the permit back |
| Capacity.TurnedAwayIff | src/universal_runtime/adapters/memory/capacity.py:24-26 | a task is turned away on entry if and only if the gate is draining |
| Capacity.GetsInsideIff | src/universal_runtime/adapters/memory/capacity.py:22-34 | a task that comes in alone gets inside if and only if the gate is not draining and a permit is free, and then holds it |
| Capacity.TurnedAwayAtSecondCheck | src/universal_runtime/adapters/memory/capacity.py:28-31 | a task that holds a permit when draining starts gives it back and is turned away |
| Capacity.PassesThrough | src/universal_runtime/adapters/memory/capacity.py:35-39 | leaving gives back what coming in took |
| Capacity.PermitsConserved | src/universal_runtime/adapters/memory/capacity.py:22-39 | free permits and holders add up to the maximum, and `active` counts the tasks inside, at most the maximum |
| Capacity.DrainingAdmitsNobody | src/universal_runtime/adapters/memory/capacity.py:28-44 | once draining, the tasks inside are among those inside before |
| Capacity.DrainIsFinal | src/universal_runtime/adapters/memory/capacity.py:41-49 | `active` does not grow while draining and is 0 for ever once a drain has returned |
| PollingJournal.PostgresEventJournal.Append | src/universal_runtime/adapters/postgres/events.py:44-92 | an append allocates one above the run's maximum |
| PollingJournal.AppendKeepsNumbered | src/universal_runtime/adapters/postgres/events.py:44-50 | every run's events stay numbered without gap or repeat |
| PollingJournal.RowsAreAppends | src/universal_runtime/adapters/postgres/events.py:44-92 | under every interleaving a run's events are those it had and then its appends in order, each with its draft's identity, type and data, its identifier and time, numbered on |
| PollingJournal.ReplayIsSuffix | src/universal_runtime/adapters/postgres/events.py:99-108 | a replay is the rest of the run's log from the cursor on |
| PollingJournal.PollingSubscription.Poll | src/universal_runtime/adapters/postgres/events.py:114-129 | one round of the loop |
| PollingJournal.PollingSubscription.Yield | src/universal_runtime/adapters/postgres/events.py:117-127 | yields the next event, moves the cursor, and ends after a batch that ends with a terminal event |
| PollingJournal.ReplaysConcatenate | src/universal_runtime/adapters/postgres/events.py:99-129 | under any interleaving with appends, what was read and a replay from there are one replay from the start |
| PollingJournal.EndsIff | src/universal_runtime/adapters/postgres/events.py:114-129 | under any interleaving with appends a subscription ends if and only if one of its polls meets a journal whose last event is terminal |
| PollingJournal.LateReaderEndsIff | src/universal_runtime/adapters/postgres/events.py:114-129 | a late subscriber yields the whole replay, and ends if and only if its last event is terminal |
| PollingJournal.CaughtUpHasEnded | src/universal_runtime/adapters/postgres/events.py:114-129 | under any interleaving a caught-up subscription has ended if the journal's last event is terminal |
| PollingJournal.TerminalInsideBatch | src/universal_runtime/application/runtime_service.py:192-195 | the log of a run interrupted and resumed leaves a late subscriber polling |
| Precedence.Dict.MergeObject | src/universal_runtime/configuration/precedence.py:17-22 | the merge in place: the target becomes the merge of both, the layer is unchanged and shares nothing with it |
| Precedence.Copied | src/universal_runtime/configuration/precedence.py:22 | a copy of a dictionary is new with everything nested in it |
| Precedence.MergeConfigPrecedence | src/universal_runtime/configuration/precedence.py:8-14 | the merge of all layers is a new dictionary; no layer is changed or shared |
| Precedence.LastTouchDecides | src/universal_runtime/configuration/precedence.py:8-22 | at every path the merge holds what the last layer that touches the path says |
| Precedence.PathsDetermine | src/universal_runtime/configuration/precedence.py:8-22 | what is present at all paths determines a value, so that this rule has one solution |
| Precedence.RemergeChangesNothing | src/universal_runtime/configuration/precedence.py:17-22 | merging the last layer again changes nothing |
| Listings.Search | src/universal_runtime/adapters/memory/repositories.py:110-130 | filter, stable sort newest first, cut |
| Listings.LatestForThread | src/universal_runtime/adapters/memory/repositories.py:174-185 | the latest run is a newest of the thread, and the first of its listing, ties included |
| Listings.ListForThread | src/universal_runtime/adapters/memory/repositories.py:187-206 | a page holds runs of the thread and of the status asked for, newest first, and a first page that is not full all of them |
| Listings.CountThreads | src/universal_runtime/adapters/memory/repositories.py:105-108 | the count is right if and only if it is at most 100000 |
| Listings.ListingIsStable | src/universal_runtime/adapters/memory/repositories.py:187-206 | a listing is newest first, loses and repeats nothing, and keeps insertion order among equal times |
| Listings.PagesConcatenate | src/universal_runtime/adapters/memory/repositories.py:187-206 | pages of any size follow each other up to the whole listing |
| Identifiers.FieldsRecovered | src/universal_runtime/domain/identity/identifiers.py:10-16 | below 2^128, version 7, variant 10 binary, and all inputs recovered (section 5.7 of RFC 9562) |
| Identifiers.TextRoundTrip | src/universal_runtime/domain/identity/identifiers.py:15-16 | hyphens at their four places, lower-case hexadecimal digits elsewhere, and the digits read as a number are the packed value (section 4 of RFC 9562) |
| Identifiers.TextFollowsClock | src/universal_runtime/domain/identity/identifiers.py:10-16 | a later timestamp gives a lexicographically larger text, whatever the random parts |

## Left out

- ExecutionService: the journal appears as one list of drafts per run; its numbering and live delivery are proved of `EventJournal`, and its own failures in the middle of an operation are not modelled.
- ExecutionService: thread and run deletion are not modelled; request payloads, metadata, traces, error messages and the data of the service's own events are dropped.
- ExecutionService.RuntimeExecutionService.StartRun: does not model the outbox path, for which the source shows no relay, or a journal that fails to append.
- ExecutionService.RuntimeExecutionService.ConsumeCommands: does not model a failing adapter lookup, the capacity slot around an execution, or cancellation of the worker's own task.
- ExecutionService.RuntimeExecutionService.CancelRun: the call of the adapter's own `cancel` is not modelled; the cancellation it causes is an ending of the stream, and may come at any time.
- ExecutionTheorems.AtMostOnce, ExecutionOperations.OneActiveRunPerThread: a busy thread's run is promised while no start has stranded a thread, which starts under fresh run identifiers never do; `RefusedStarts` has the rest.
- ExecutionTheorems.NeverRunsAgain: resuming is proved not to execute; the source has no operation that makes a run pending again.
- MemoryQueue, KafkaQueue: command and lease identifiers are fresh, and a receipt presented for an active lease is the one issued for it; lease expiry times are not read by the source.
- MemoryQueue.InMemoryPriorityQueue.Receive: a receiver suspended on an empty queue is a result of its own, and is not woken by closing, as in the source; the heap is a list from which the least item is taken.
- KafkaQueue.KafkaRunCommandQueue.Publish: the topic, partition key and headers of the transport's message are not modelled.
- FairDispatcher: the weights, which the source validates and does not read.
- EventBatching: the size of an event is a parameter; a writer that fails is not modelled (its batch is lost), nor is the flush interval, which the source does not read.
- LangGraphStream: the content of the mapped configuration; unpacking of raw chunks, namespaces, JSON conversion and `resume_command`; a failure in them is a graph that stops with an exception. `invoke` and state access.
- LangGraphExecution.LangGraphRunSettles: assumes no concurrent `cancel_run`; interleavings are covered by `ExecutionTheorems` for any adapter.
- EventProjector.LifecycleProjector.Handle: the text Python gives an error payload that is not an object is not modelled for lists, which become a fixed text. No result depends on it. Times are numbers instead of ISO texts.
- Capacity: cancellation inside `acquire` and `release`, and the order in which the semaphore wakes its waiters.
- PollingJournal: SQL, and the conversion of rows, in which event types become plain strings.
- PollingJournal.PostgresEventJournal.Append: does not model the retry after an integrity error, which cannot come about while the advisory lock makes an append one step.
- Precedence: layers are trees, as JSON data is; a layer in which one dictionary occurs twice is not modelled.
- Listings: works on the repositories' values in insertion order, while `Execution` keeps them as maps; negative offsets and limits are not modelled. The metadata filter is a parameter.
- Identifiers: `TypedId` equality and parsing; a clock beyond 48 bits wraps, as in the source, and texts are ordered within one period.
- Production worker loops, gateway routes, gRPC, Kafka and database clients, command line, telemetry, configuration revisions and environment interpolation.
