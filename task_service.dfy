/** The task service: store changes followed by bus events
    (TaskManagementApp/Services/TaskService.cs).

    The database is a map from id to task; the bus is the `ServiceBusHandler`
    the service calls. The clock, the identity the database assigns and the
    envelope's fresh id and timestamp are parameters. */
module Services {
  import opened Wrappers
  import opened Entities
  import opened Models
  import opened Messages
  import opened Config
  import opened ServiceBus

  /** The view of a stored task: every field carried over. */
  function MapToVm(t: TaskItem): (vm: TaskItemVm)
    ensures vm.Id == t.Id && vm.Name == t.Name && vm.Description == t.Description
    ensures vm.Status == t.Status && vm.AssignedTo == t.AssignedTo
    ensures vm.CreatedAt == t.CreatedAt && vm.UpdatedAt == t.UpdatedAt
  {
    TaskItemVm(t.Id, t.Name, t.Description, t.Status, t.AssignedTo, t.CreatedAt, t.UpdatedAt)
  }

  /** The inverse of `MapToVm`. */
  function FromVm(vm: TaskItemVm): TaskItem
  {
    TaskItem(vm.Id, vm.Name, vm.Description, vm.Status, vm.AssignedTo, vm.CreatedAt, vm.UpdatedAt)
  }

  /** The view loses nothing: the stored task can be read back from it. */
  lemma MapToVmRoundTrip(t: TaskItem)
    ensures FromVm(MapToVm(t)) == t
  {
  }

  /** Why an operation threw: the store rejected the save, or the send failed
      after the save was committed. */
  datatype ServiceError = SaveFailed | PublishFailed(fault: SendFault)

  /** The message announcing a stored task. */
  function CreatedMessageOf(t: TaskItem, stamp: Stamp): (m: Message)
    ensures m.TaskCreatedMessage? && PayloadOf(m) == TaskCreatedPayload
    ensures m.TaskId == t.Id && m.Name == t.Name && m.Description == t.Description
            && m.AssignedTo == t.AssignedTo
  {
    TaskCreatedMessage(stamp.messageId, stamp.timestamp, t.Id, t.Name, t.Description, t.AssignedTo)
  }

  /** Some element of a non-empty set of ids. */
  method Pick(ids: set<int>) returns (id: int)
    requires ids != {}
    ensures id in ids
  {
    // Supplies the solver with the witness the `:|` below needs.
    if forall x :: x !in ids {
      assert false;
    }
    id :| id in ids;
  }

  /** `r` lists the view of each task of `tasks` whose id is in `done`, once. */
  ghost predicate Listed(tasks: map<int, TaskItem>, done: set<int>, r: seq<TaskItemVm>)
  {
    && done <= tasks.Keys
    && |r| == |done|
    && (forall i | 0 <= i < |r| :: r[i].Id in done && r[i] == MapToVm(tasks[r[i].Id]))
    && (forall id | id in done :: MapToVm(tasks[id]) in r)
    && (forall i, j | 0 <= i < j < |r| :: r[i].Id != r[j].Id)
  }

  /** Listing one more task keeps the listing exact. */
  lemma ListOneMore(tasks: map<int, TaskItem>, done: set<int>, r: seq<TaskItemVm>, k: int)
    requires forall id | id in tasks :: tasks[id].Id == id
    requires Listed(tasks, done, r) && k in tasks && k !in done
    ensures Listed(tasks, done + {k}, r + [MapToVm(tasks[k])])
  {
  }

  /** The views of all tasks of `tasks`, one per task, in the map's
      enumeration order (which the model leaves unspecified). */
  method ListViews(tasks: map<int, TaskItem>) returns (r: seq<TaskItemVm>)
    requires forall id | id in tasks :: tasks[id].Id == id
    ensures Listed(tasks, tasks.Keys, r)
  {
    var pending, done := tasks.Keys, {};
    r := [];
    while pending != {}
      invariant pending <= tasks.Keys && done == tasks.Keys - pending
      invariant Listed(tasks, done, r)
      decreases pending
    {
      var k := Pick(pending);
      ListOneMore(tasks, done, r, k);
      r := r + [MapToVm(tasks[k])];
      pending, done := pending - {k}, done + {k};
    }
  }

  class TaskService {
    /** The committed contents of the task table. */
    var store: map<int, TaskItem>
    const bus: ServiceBusHandler
    const config: RabbitMqConfig

    /** Every task is stored under its own id. */
    ghost predicate Valid()
      reads this
    {
      forall id | id in store :: store[id].Id == id
    }

    constructor (initial: map<int, TaskItem>, bus: ServiceBusHandler, config: RabbitMqConfig)
      requires forall id | id in initial :: initial[id].Id == id
      ensures Valid()
      ensures store == initial && this.bus == bus && this.config == config
    {
      store := initial;
      this.bus := bus;
      this.config := config;
    }

    /** The view of every stored task, one per task, in the store's
        enumeration order (which the model leaves unspecified). */
    method GetAllTasksAsync() returns (r: seq<TaskItemVm>)
      requires Valid()
      ensures |r| == |store|
      ensures forall v | v in r :: v.Id in store && v == MapToVm(store[v.Id])
      ensures forall id | id in store :: MapToVm(store[id]) in r
      ensures forall i, j | 0 <= i < j < |r| :: r[i].Id != r[j].Id
    {
      r := ListViews(store);
    }

    /** The view of task `id`, or `null` when there is none. */
    method GetTaskByIdAsync(id: int) returns (r: Option<TaskItemVm>)
      requires Valid()
      ensures r.Some? <==> id in store
      ensures r.Some? ==> r.value == MapToVm(store[id]) && r.value.Id == id
    {
      if id in store {
        r := Some(MapToVm(store[id]));
      } else {
        r := None;
      }
    }

    /** Stores a new task (not started, fields from `vm`, created `now`) under
        the identity `newId` the database assigns, then sends one created
        message to the created queue. A failed send leaves the task stored. */
    method CreateTaskAsync(vm: CreateTaskVm, newId: int, now: DateTime, stamp: Stamp,
                           saveFails: bool, sendFault: SendFault)
      returns (r: Result<TaskItemVm, ServiceError>)
      requires Valid()
      requires newId !in store
      modifies this, bus`log
      ensures Valid()
      ensures var t := TaskItem(newId, vm.Name, vm.Description, NotStarted, vm.AssignedTo, now, None);
              if saveFails then
                store == old(store) && bus.log == old(bus.log) && r == Failure(SaveFailed)
              else
                && store == old(store)[newId := t]
                && bus.log == old(bus.log) + SendCalls(config.TaskCreatedQueueName, CreatedMessageOf(t, stamp), sendFault)
                && r == if sendFault == SendOk then Success(MapToVm(t)) else Failure(PublishFailed(sendFault))
    {
      var task := TaskItem(newId, vm.Name, vm.Description, NotStarted, vm.AssignedTo, now, None);
      if saveFails {
        return Failure(SaveFailed);
      }
      store := store[newId := task];
      var message := CreatedMessageOf(task, stamp);
      var sent := bus.SendMessage(config.TaskCreatedQueueName, message, sendFault);
      if sent.Fail? {
        return Failure(PublishFailed(sent.error));
      }
      r := Success(MapToVm(task));
    }

    /** Sets the status of task `id` and its update time, then sends one
        updated message carrying the status before and after. An absent id
        yields `null` with nothing changed and nothing sent. */
    method UpdateTaskStatusAsync(id: int, vm: UpdateTaskStatusVm, now: DateTime, stamp: Stamp,
                                 saveFails: bool, sendFault: SendFault)
      returns (r: Result<Option<TaskItemVm>, ServiceError>)
      requires Valid()
      modifies this, bus`log
      ensures Valid()
      ensures id !in old(store) ==> store == old(store) && bus.log == old(bus.log) && r == Success(None)
      ensures id in old(store) ==>
                var before := old(store)[id];
                var after := Updated(before, vm.NewStatus, now);
                var message := TaskUpdatedMessage(stamp.messageId, stamp.timestamp, id, before.Status, vm.NewStatus);
                if saveFails then
                  store == old(store) && bus.log == old(bus.log) && r == Failure(SaveFailed)
                else
                  && store == old(store)[id := after]
                  && bus.log == old(bus.log) + SendCalls(config.TaskUpdatedQueueName, message, sendFault)
                  && r == if sendFault == SendOk then Success(Some(MapToVm(after))) else Failure(PublishFailed(sendFault))
    {
      if id !in store {
        return Success(None);
      }
      var task := store[id];
      var oldStatus := task.Status;
      task := Updated(task, vm.NewStatus, now);
      if saveFails {
        return Failure(SaveFailed);
      }
      store := store[id := task];
      var message := TaskUpdatedMessage(stamp.messageId, stamp.timestamp, task.Id, oldStatus, task.Status);
      var sent := bus.SendMessage(config.TaskUpdatedQueueName, message, sendFault);
      if sent.Fail? {
        return Failure(PublishFailed(sent.error));
      }
      r := Success(Some(MapToVm(task)));
    }
  }

  /** The task after a status change at `now`. */
  function Updated(t: TaskItem, status: TaskStatus, now: DateTime): TaskItem
  {
    t.(Status := status, UpdatedAt := Some(now))
  }

  /** The store `UpdateTaskStatusAsync` commits changes the status and update
      time of the one task and nothing else. */
  lemma UpdateFrame(store: map<int, TaskItem>, id: int, status: TaskStatus, now: DateTime)
    requires id in store
    ensures var after := store[id := Updated(store[id], status, now)];
            && after.Keys == store.Keys
            && after[id].Status == status && after[id].UpdatedAt == Some(now)
            && after[id].Id == store[id].Id && after[id].Name == store[id].Name
            && after[id].Description == store[id].Description
            && after[id].AssignedTo == store[id].AssignedTo && after[id].CreatedAt == store[id].CreatedAt
            && forall k | k in store && k != id :: after[k] == store[k]
  {
  }
}
