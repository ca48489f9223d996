/** The consumer host (TaskManagementApp/ServiceBus/TaskMessageProcessor.cs):
    at start it registers one subscription per event queue; its two handler
    routines only log, so they always complete and change nothing. */
module Processor {
  import opened Wrappers
  import opened Config
  import opened Messages
  import opened ServiceBus

  /** The host's stopping token. It is forwarded to the handlers and never inspected. */
  datatype CancellationToken = CancellationToken(cancellationRequested: bool)

  /** Logs the new task's id; nothing in it can fail. */
  function ProcessTaskCreatedMessage(message: Message, ct: CancellationToken): (r: HandlerResult)
    ensures r == HandlerCompleted
  {
    HandlerCompleted
  }

  /** Logs the task's id and its old and new status; nothing in it can fail. */
  function ProcessTaskUpdatedMessage(message: Message, ct: CancellationToken): (r: HandlerResult)
    ensures r == HandlerCompleted
  {
    HandlerCompleted
  }

  /** The lambdas `ExecuteAsync` registers, closing over `ct`. */
  function CreatedHandler(ct: CancellationToken): (h: Message -> HandlerResult)
    ensures forall m :: h(m) == HandlerCompleted
  {
    m => ProcessTaskCreatedMessage(m, ct)
  }

  function UpdatedHandler(ct: CancellationToken): (h: Message -> HandlerResult)
    ensures forall m :: h(m) == HandlerCompleted
  {
    m => ProcessTaskUpdatedMessage(m, ct)
  }

  /** The registry: the created queue with its payload type, then the updated queue. */
  function Subscriptions(config: RabbitMqConfig, ct: CancellationToken): (subs: seq<Consumer>)
    ensures |subs| == 2
    ensures subs[0].queue == config.TaskCreatedQueueName && subs[0].payload == TaskCreatedPayload
    ensures subs[1].queue == config.TaskUpdatedQueueName && subs[1].payload == TaskUpdatedPayload
  {
    [Consumer(config.TaskCreatedQueueName, TaskCreatedPayload, CreatedHandler(ct)),
     Consumer(config.TaskUpdatedQueueName, TaskUpdatedPayload, UpdatedHandler(ct))]
  }

  /** Neither handler fails, whatever the message and the token. */
  lemma HandlersNeverFail(config: RabbitMqConfig, ct: CancellationToken, m: Message)
    ensures forall c | c in Subscriptions(config, ct) :: c.handler(m) == HandlerCompleted
  {
  }

  /** So every delivery the processor's subscriptions decode to a message is
      acked exactly once; it is requeued only when that ack itself throws. */
  lemma DecodedDeliveriesAreAcked(config: RabbitMqConfig, ct: CancellationToken,
                                  i: nat, tag: nat, m: Message, ackThrows: bool)
    requires i < 2
    ensures var d := Settle(tag, Decoded(m), Subscriptions(config, ct)[i].handler, ackThrows);
            d.handlerInvoked
            && d.calls == [BasicAck(tag, false)] + (if ackThrows then [BasicNack(tag, false, true)] else [])
  {
  }

  class TaskMessageProcessor {
    const bus: ServiceBusHandler
    const config: RabbitMqConfig

    constructor (bus: ServiceBusHandler, config: RabbitMqConfig)
      ensures this.bus == bus && this.config == config
    {
      this.bus := bus;
      this.config := config;
    }

    /** Subscribes to the created queue, then to the updated queue, and
        returns at once. A subscription that throws ends the start-up: the
        exception propagates and the second subscription is not attempted. */
    method ExecuteAsync(ct: CancellationToken, createdFault: SubscribeFault, updatedFault: SubscribeFault)
      returns (r: Outcome<SubscribeFault>)
      modifies bus`log, bus`consumers
      ensures var subs := Subscriptions(config, ct);
              if createdFault != SubscribeOk then
                && r == Fail(createdFault)
                && bus.log == old(bus.log) + SubscribeCalls(config.TaskCreatedQueueName, createdFault)
                && bus.consumers == old(bus.consumers)
              else
                && r == (if updatedFault == SubscribeOk then Pass else Fail(updatedFault))
                && bus.log == old(bus.log) + SubscribeCalls(config.TaskCreatedQueueName, SubscribeOk)
                                           + SubscribeCalls(config.TaskUpdatedQueueName, updatedFault)
                && bus.consumers == old(bus.consumers) + (if updatedFault == SubscribeOk then subs else subs[..1])
    {
      var first := bus.SubscribeToQueue(config.TaskCreatedQueueName, TaskCreatedPayload, CreatedHandler(ct), createdFault);
      if first.Fail? {
        return first;
      }
      r := bus.SubscribeToQueue(config.TaskUpdatedQueueName, TaskUpdatedPayload, UpdatedHandler(ct), updatedFault);
    }
  }
}
