# Task events over a message bus: a Dafny model

The task tracker writes each task change to its store, then publishes an
event on a RabbitMQ queue. A background processor consumes those queues.
This project models that path and proves properties of it:

- **`ServiceBus`** (`ServiceBusHandler.cs`). The connection manager is a class.
  It keeps a log of the calls it issues on the broker channel and connection
  once constructed, the consumers it has registered, and flags for
  "disposed", "channel open" and "connection open".
  - The constructor's single connection attempt.
  - `SendMessage`: declare the queue, create the message properties, then one persistent publish.
  - `SubscribeToQueue`: declare, then QoS, then a manual-ack consume.
  - The delivery callback's ack/nack decision.
  - `Dispose`, and the broker closing the channel or the connection on its own.
  - The backoff formula of the retry policy, which is built but never run.
- **`Services`** (`TaskService.cs`). The task service is a class over a
  `map<int, TaskItem>` store. It drives a `ServiceBusHandler`. Create and
  update first commit to the store, then send exactly one event.
- **`Processor`** (`TaskMessageProcessor.cs`). At start-up it registers two
  subscriptions, in order. Its handlers always succeed.
- Supporting datatypes:
  - `Entities`: `TaskItem`, and `TaskStatus` as an `int`-backed newtype, because incoming statuses are not range-checked.
  - `Models`: the view models.
  - `Messages`: the two-variant envelope.
  - `Config`: the configuration with its defaults, 5 retries and 1000 ms.
  - `Wrappers`: `Option`/`Result`/`Outcome`.
- `Scenarios` is client code. It replays the list, lookup, create and
  update tests of `TaskServiceTests.cs` with their seeded tasks, inputs and
  assertions, and runs bus start-up, consumption and disposal. Its assertions follow from the
  contracts of the operations it calls.

Calls whose result the model cannot know are oracle parameters:
- the broker's answer to a connection attempt;
- which channel call throws;
- whether the store's save throws;
- the decoder's result and whether the first settlement call throws;
- the clock, the database-assigned id, and the envelope's fresh `Guid` and timestamp.

A call that throws still appears in the channel log, because it was attempted.

## Behaviour worth noting

- The constructor builds a Polly retry policy ("Create retry policy",
  `ServiceBusHandler.cs:31`, with an "Exponential backoff delay", `:40`) and
  then discards it. It makes one connection attempt and rethrows its
  failure, even a transient one (`ServiceBus.ServiceBusHandler.Open`).
  `RetryDelays` is therefore the schedule the policy would use, not one the
  code runs. Building the policy still checks its argument: a negative
  `RetryCount` makes the constructor throw before any attempt.
- A deserialisation exception lands in the catch block of the delivery
  callback, so the message is nacked **with** requeue. Only a `null` result
  is dropped without requeue (`Settle`).
- If the ack throws, the catch block also nacks the same tag with requeue.
  A nack of a `null` message that throws is followed the same way (`Settle`).
- If creating the channel throws after the connection was opened, the
  constructor rethrows and the connection is never closed. The model's
  `Open` only sees the combined outcome of that attempt.

## Model

| member | source | states |
|---|---|---|
| `Config.WithDefaults` | TaskManagementApp/ServiceBus/RabbitMqConfig.cs:3-14 | a configuration that sets only the required properties has RetryCount 5, RetryIntervalMs 1000 and keeps the given queue names |
| `ServiceBus.Pow2` | TaskManagementApp/ServiceBus/ServiceBusHandler.cs:38-40 | the power of two in the backoff is at least 1 |
| `ServiceBus.RetryDelay` | TaskManagementApp/ServiceBus/ServiceBusHandler.cs:36-40 | the first retry waits exactly RetryIntervalMs; with a non-negative interval no delay is shorter, and with a positive one every later delay is longer |
| `ServiceBus.RetryDelayDoubles` | TaskManagementApp/ServiceBus/ServiceBusHandler.cs:38-40 | the delay of attempt n+1 is twice that of attempt n |
| `ServiceBus.RetryDelays` | TaskManagementApp/ServiceBus/ServiceBusHandler.cs:36-40 | the schedule has one delay per retry (none for a non-positive count) and starts at RetryIntervalMs |
| `ServiceBus.RetryDelaysDouble` | TaskManagementApp/ServiceBus/ServiceBusHandler.cs:36-40 | each delay of the schedule is twice the previous one |
| `ServiceBus.RetryDelaysIncrease` | TaskManagementApp/ServiceBus/ServiceBusHandler.cs:36-40 | with a positive interval the delays strictly increase |
| `ServiceBus.DefaultRetryDelays` | TaskManagementApp/ServiceBus/ServiceBusHandler.cs:36-40 | with the default configuration the schedule is 1000, 2000, 4000, 8000, 16000 ms |
| `ServiceBus.ServiceBusHandler.Open` | TaskManagementApp/ServiceBus/ServiceBusHandler.cs:26-68 | a negative retry count fails with an argument error before any attempt; otherwise exactly one connection attempt, which fails iff the first attempt fails, with that same error, whatever later attempts would answer; on success a fresh handler with an empty log, no consumers, channel and connection open |
| `ServiceBus.ServiceBusHandler.Connected` | TaskManagementApp/ServiceBus/ServiceBusHandler.cs:58-63 | the state after a successful connect: not disposed, both open, nothing issued |
| `ServiceBus.SendCalls` | TaskManagementApp/ServiceBus/ServiceBusHandler.cs:71-101 | the calls are a prefix of declare, create properties, publish: the first declares the queue durable, non-exclusive, not auto-deleted; the properties are created iff the declaration and the serialisation succeeded; one publish follows iff creating the properties succeeded too; that publish goes to exchange "" with the queue name as routing key and is persistent |
| `ServiceBus.ServiceBusHandler.SendMessage` | TaskManagementApp/ServiceBus/ServiceBusHandler.cs:71-101 | the log grows by exactly the send's calls; any failing step is rethrown as is, with no retry |
| `ServiceBus.SubscribeCalls` | TaskManagementApp/ServiceBus/ServiceBusHandler.cs:103-161 | the calls are a prefix of declare, QoS(0, 1, false), consume(autoAck false), stopping at the step that throws |
| `ServiceBus.SubscribeOrder` | TaskManagementApp/ServiceBus/ServiceBusHandler.cs:108-152 | a successful subscription issues declare, then QoS(0, 1, false), then consume without auto-ack |
| `ServiceBus.ServiceBusHandler.SubscribeToQueue` | TaskManagementApp/ServiceBus/ServiceBusHandler.cs:103-161 | the log grows by the subscription's calls; the consumer is registered only when consume returned; failures are rethrown |
| `ServiceBus.Settle` | TaskManagementApp/ServiceBus/ServiceBusHandler.cs:121-147 | the handler runs iff decoding gave a message; one or two calls, each a single-message ack/nack of the delivery's own tag; ack iff a message was decoded and its handler completed, and then first; nack without requeue iff the decode was null; nack with requeue iff something in the try block threw (decode, handler, or the first settlement); two calls iff the first settlement throws after a completed handler or a null decode, so there is never a second requeue |
| `ServiceBus.SucceedingHandlerAcksOnce` | TaskManagementApp/ServiceBus/ServiceBusHandler.cs:131-135 | a decoded message whose handler completes is acked exactly once and nothing else is issued |
| `ServiceBus.FailingHandlerRequeues` | TaskManagementApp/ServiceBus/ServiceBusHandler.cs:131-146 | a decoded message whose handler throws is only nacked with requeue, never acked |
| `ServiceBus.ServiceBusHandler.OnReceived` | TaskManagementApp/ServiceBus/ServiceBusHandler.cs:121-147 | the consumer's callback appends exactly the calls of `Settle` for its own handler |
| `ServiceBus.DisposeStep` | TaskManagementApp/ServiceBus/ServiceBusHandler.cs:169-199 | afterwards always disposed; on an already disposed handler nothing changes and nothing is issued; the calls come in the order channel close, channel dispose, connection close, connection dispose, each at most once; the channel is closed iff it was open, and disposed iff its close returned; the connection is closed iff it was open and no channel call threw first, and disposed iff its close returned; a resource ends closed iff it was closed already or its close returned; without errors both end closed; without `disposing` only the flag changes |
| `ServiceBus.DisposeAfterChannelLoss` | TaskManagementApp/ServiceBus/ServiceBusHandler.cs:178-188 | a channel that is no longer open is skipped: only the connection is closed and disposed |
| `ServiceBus.DisposeIdempotent` | TaskManagementApp/ServiceBus/ServiceBusHandler.cs:171-172 | a second dispose, with any arguments, changes nothing and issues nothing |
| `ServiceBus.ServiceBusHandler.ReleaseChannel` | TaskManagementApp/ServiceBus/ServiceBusHandler.cs:178-182 | an open channel is closed, then disposed, and counts as closed once the close returned; a closed one is skipped; it reports whether either call threw |
| `ServiceBus.ServiceBusHandler.ReleaseConnection` | TaskManagementApp/ServiceBus/ServiceBusHandler.cs:184-188 | an open connection is closed, then disposed, and counts as closed once the close returned; a closed one is skipped |
| `ServiceBus.ServiceBusHandler.DisposeCore` | TaskManagementApp/ServiceBus/ServiceBusHandler.cs:169-199 | the new flags and the log are those of `DisposeStep`; close errors are swallowed |
| `ServiceBus.ServiceBusHandler.Dispose` | TaskManagementApp/ServiceBus/ServiceBusHandler.cs:163-167 | public dispose is `DisposeStep` with `disposing` true |
| `ServiceBus.ServiceBusHandler.ChannelShutdown` | TaskManagementApp/ServiceBus/ServiceBusHandler.cs:178 | the broker closing the channel makes its `IsOpen` false without a dispose |
| `ServiceBus.ServiceBusHandler.ConnectionShutdown` | TaskManagementApp/ServiceBus/ServiceBusHandler.cs:178-184 | the broker dropping the connection makes both `IsOpen` checks false without a dispose |
| `Services.MapToVm` | TaskManagementApp/Services/TaskService.cs:100-112 | the view copies each of the seven fields of the task unchanged |
| `Services.MapToVmRoundTrip` | TaskManagementApp/Services/TaskService.cs:100-112 | the view carries every field of the task: the task is recovered from it |
| `Services.CreatedMessageOf` | TaskManagementApp/Services/TaskService.cs:57-63 | the created message has the stored task's TaskId, Name, Description and AssignedTo |
| `Services.TaskService.constructor` | TaskManagementApp/Services/TaskService.cs:20-27 | the service starts over a store where every task sits under its own id |
| `Services.ListViews` | TaskManagementApp/Services/TaskService.cs:29-34 | walking the store yields exactly one view per stored task, each the view of that task, no id twice |
| `Services.TaskService.GetAllTasksAsync` | TaskManagementApp/Services/TaskService.cs:29-34 | one view per stored task: as many views as tasks, each the view of the stored task with its id, every stored task present, no id twice |
| `Services.TaskService.GetTaskByIdAsync` | TaskManagementApp/Services/TaskService.cs:36-41 | a view is returned iff the id is stored, and it is the view of that task |
| `Services.TaskService.CreateTaskAsync` | TaskManagementApp/Services/TaskService.cs:43-70 | a failed save changes nothing and sends nothing; otherwise the store gains exactly the new task (NotStarted, fields copied from the input, created now, never updated) and then exactly one send of its created message to the created queue; a failed send keeps the stored task and surfaces the error; success returns the task's view |
| `Services.TaskService.UpdateTaskStatusAsync` | TaskManagementApp/Services/TaskService.cs:72-98 | an absent id returns null with store and bus unchanged; otherwise only that task changes (new status, updated now) and one updated message with the status before and after is sent to the updated queue, even when the status is the same; a failed send keeps the store change |
| `Services.UpdateFrame` | TaskManagementApp/Services/TaskService.cs:80-84 | the store the update commits (built with the same `Updated` as `UpdateTaskStatusAsync`) sets Status and UpdatedAt, keeps Id, Name, Description, AssignedTo and CreatedAt, and leaves every other task as it was |
| `Processor.ProcessTaskCreatedMessage` | TaskManagementApp/ServiceBus/TaskMessageProcessor.cs:28-33 | the created handler only logs and completes for every message and token |
| `Processor.ProcessTaskUpdatedMessage` | TaskManagementApp/ServiceBus/TaskMessageProcessor.cs:35-42 | the updated handler only logs and completes for every message and token |
| `Processor.CreatedHandler` | TaskManagementApp/ServiceBus/TaskMessageProcessor.cs:17-19 | the callback registered for the created queue completes for every message |
| `Processor.UpdatedHandler` | TaskManagementApp/ServiceBus/TaskMessageProcessor.cs:21-23 | the callback registered for the updated queue completes for every message |
| `Processor.Subscriptions` | TaskManagementApp/ServiceBus/TaskMessageProcessor.cs:17-23 | two registrations: the created queue with the created payload type, then the updated queue with the updated payload type |
| `Processor.HandlersNeverFail` | TaskManagementApp/ServiceBus/TaskMessageProcessor.cs:28-42 | both handlers complete for every message and token |
| `Processor.DecodedDeliveriesAreAcked` | TaskManagementApp/ServiceBus/TaskMessageProcessor.cs:28-42 | on either subscription a decoded message runs the handler and is acked exactly once, with a requeue nack after it only if the ack throws |
| `Processor.TaskMessageProcessor.constructor` | TaskManagementApp/ServiceBus/TaskMessageProcessor.cs:6-11 | the processor holds the bus and the configuration it was given |
| `Processor.TaskMessageProcessor.ExecuteAsync` | TaskManagementApp/ServiceBus/TaskMessageProcessor.cs:13-26 | subscribes to the created queue, then the updated queue; if the first throws, that error is returned and the second is not attempted; on success exactly the two registrations are added; the token is only handed to the handlers |

## Left out

- The RabbitMQ client. This covers the connection factory, sockets and asynchronous consumer dispatch. Its effects are the channel log and the open flags.
- The rule that calls on a closed channel throw. It is covered only through the fault parameters.
- `ServiceBus.ServiceBusHandler.ChannelShutdown`: which broker or channel errors close the channel is not tied to the send and subscribe faults; a shutdown is an event the caller of the model issues.
- `CreateModel` (`ServiceBusHandler.cs:61`) is not in the log: the log starts once the handler is constructed, and the channel's creation is part of the constructor's connection outcome.
- Concurrency between publishes and consumer callbacks on the shared channel. Each operation is modelled as one atomic step.
- Newtonsoft JSON. A publish body is the message value itself. Decoding is the abstract result `Decoded | DecodedNull | DecodeThrows`, so no round trip of the wire format is proved.
- `ServiceBus.ServiceBusHandler.OnReceived`: requires a decoded message to have the consumer's payload type. That is the deserialiser's typing guarantee, stated and not derived.
- The Polly policy. It is never executed, so only its delay formula and its rejection of a negative retry count are modelled.
  - The double arithmetic of `Math.Pow` and `TimeSpan` is modelled as exact integers.
- `ServiceBus.Settle`: an exception from the nack inside the catch block escapes the callback. Only the attempted call is in the log.
- `ServiceBus.ServiceBusHandler.Open`: connection and channel creation are one outcome. A connection left open when only channel creation fails is not represented.
- EF Core.
  - The store is a map.
  - A failing save is a flag.
  - The database's identity generation is the parameter `newId`, required to be unused.
  - On a failed update save, the in-memory change to the tracked entity is not modelled.
- `DateTime.UtcNow` and `Guid.NewGuid`: they are parameters (`now`, `Stamp`).
- The string length limits of the entity and view-model attributes. The framework enforces them, not the core.
- Logging, the HTTP controller, the dependency-injection bootstrap, and the hosting framework's start/stop machinery around `ExecuteAsync`.
