/** Client code that runs the model through some of the situations of the
    service tests (TaskManagementApp.Tests/Services/TaskServiceTests.cs) and
    through start-up, consumption and disposal of the bus; each assertion
    follows from the contracts of the operations called. */
module Scenarios {
  import opened Wrappers
  import opened Entities
  import opened Models
  import opened Messages
  import opened Config
  import opened ServiceBus
  import opened Services
  import opened Processor

  const TestConfig: RabbitMqConfig :=
    WithDefaults("localhost", "guest", "guest", "/", "test-task-created", "test-task-updated")

  /** Creating "New Task" for "New User" returns its view, not started, and
      publishes one created message for the new id to the created queue. */
  method CreateThenPublish(newId: int, now: DateTime, stamp: Stamp)
  {
    var bus := new ServiceBusHandler.Connected(TestConfig);
    var service := new TaskService(map[], bus, TestConfig);
    var vm := CreateTaskVm("New Task", "New Description", Some("New User"));
    var r := service.CreateTaskAsync(vm, newId, now, stamp, false, SendOk);
    assert r.Success? && r.value.Name == "New Task" && r.value.Description == "New Description";
    assert r.value.AssignedTo == Some("New User") && r.value.Status == NotStarted;
    assert newId in service.store;
    assert bus.log == [QueueDeclare("test-task-created", true, false, false),
                       CreateBasicProperties,
                       BasicPublish("", "test-task-created", true,
                                    TaskCreatedMessage(stamp.messageId, stamp.timestamp, newId,
                                                       "New Task", "New Description", Some("New User")))];
  }

  /** Task 1 going from not started to completed publishes the transition;
      an unknown id publishes nothing. */
  method UpdateThenPublish(now: DateTime, earlier: DateTime, stamp: Stamp)
  {
    var bus := new ServiceBusHandler.Connected(TestConfig);
    var t1 := TaskItem(1, "Task 1", "Description 1", NotStarted, None, earlier, None);
    var t2 := TaskItem(2, "Task 2", "Description 2", InProgress, Some("User 1"), earlier, None);
    var service := new TaskService(map[1 := t1, 2 := t2], bus, TestConfig);
    var missing := service.UpdateTaskStatusAsync(99, UpdateTaskStatusVm(Completed), now, stamp, false, SendOk);
    assert missing == Success(None) && bus.log == [];
    var r := service.UpdateTaskStatusAsync(1, UpdateTaskStatusVm(Completed), now, stamp, false, SendOk);
    assert r.Success? && r.value.Some? && r.value.value.Id == 1;
    assert r.value.value.Status == Completed && r.value.value.UpdatedAt.Some?;
    assert bus.log[2] == BasicPublish("", "test-task-updated", true,
                                      TaskUpdatedMessage(stamp.messageId, stamp.timestamp, 1, NotStarted, Completed));
  }

  /** A publish that fails after the save leaves the new task stored. */
  method PublishFailureKeepsTask(newId: int, now: DateTime, stamp: Stamp)
  {
    var bus := new ServiceBusHandler.Connected(TestConfig);
    var service := new TaskService(map[], bus, TestConfig);
    var r := service.CreateTaskAsync(CreateTaskVm("Ship report", "", None), newId, now, stamp, false, PublishFails);
    assert r == Failure(PublishFailed(PublishFails));
    assert newId in service.store;
  }

  /** Two seeded tasks are listed and found by id; an unknown id is not found. */
  method ReadSeededTasks(earlier: DateTime)
  {
    var bus := new ServiceBusHandler.Connected(TestConfig);
    var t1 := TaskItem(1, "Task 1", "Description 1", NotStarted, None, earlier, None);
    var t2 := TaskItem(2, "Task 2", "Description 2", InProgress, Some("User 1"), earlier, None);
    var service := new TaskService(map[1 := t1, 2 := t2], bus, TestConfig);
    var all := service.GetAllTasksAsync();
    assert service.store[1] == t1 && service.store[2] == t2;
    assert |all| == 2 && MapToVm(t1) in all && MapToVm(t2) in all;
    var found := service.GetTaskByIdAsync(1);
    assert found.Some? && found.value.Id == 1 && found.value.Name == "Task 1";
    var missing := service.GetTaskByIdAsync(99);
    assert missing == None;
  }

  /** After start-up, a decoded delivery is acked, a null one is dropped, a
      malformed one is requeued. */
  method ConsumeDeliveries(ct: CancellationToken, m: Message)
    requires PayloadOf(m) == TaskCreatedPayload
  {
    var bus := new ServiceBusHandler.Connected(TestConfig);
    var processor := new TaskMessageProcessor(bus, TestConfig);
    var started := processor.ExecuteAsync(ct, SubscribeOk, SubscribeOk);
    assert started == Pass && |bus.consumers| == 2;
    assert |bus.log| == 6;
    DecodedDeliveriesAreAcked(TestConfig, ct, 0, 7, m, false);
    var ran := bus.OnReceived(0, 7, Decoded(m), false);
    assert ran && bus.log[6..] == [BasicAck(7, false)];
    ran := bus.OnReceived(0, 8, DecodedNull, false);
    assert !ran && bus.log[7..] == [BasicNack(8, false, false)];
    ran := bus.OnReceived(1, 9, DecodeThrows, false);
    assert !ran && bus.log[8..] == [BasicNack(9, false, true)];
  }

  /** Disposing twice closes and disposes each resource once. */
  method DisposeTwice()
  {
    var bus := new ServiceBusHandler.Connected(TestConfig);
    bus.Dispose(CloseOk);
    bus.Dispose(CloseOk);
    assert bus.log == [CloseChannel, DisposeChannel, CloseConnection, DisposeConnection];
    assert bus.State() == Lifecycle(true, false, false);
  }

  /** A channel the broker closed is skipped by the dispose. */
  method DisposeAfterBrokerClosedChannel()
  {
    var bus := new ServiceBusHandler.Connected(TestConfig);
    bus.ChannelShutdown();
    bus.Dispose(CloseOk);
    assert bus.log == [CloseConnection, DisposeConnection];
  }
}
