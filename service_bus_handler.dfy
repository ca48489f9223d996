/** The broker connection manager (TaskManagementApp/ServiceBus/ServiceBusHandler.cs).

    The broker client is replaced by an abstract channel: the handler keeps a
    log of every call it issues on the channel or the connection once it is
    constructed, in order.
    A call that throws is still in the log (it was attempted); which call
    throws is an oracle parameter of each operation. */
module ServiceBus {
  import opened Wrappers
  import opened Config
  import opened Messages

  // ---------------------------------------------------------------------
  // Backoff schedule of the retry policy built in the constructor
  // ---------------------------------------------------------------------

  function Pow2(k: nat): (r: nat)
    ensures r >= 1
  {
    if k == 0 then 1 else 2 * Pow2(k - 1)
  }

  /** The delay in milliseconds before retry attempt `attempt` (counted from 1):
      `RetryIntervalMs * 2^(attempt - 1)`. */
  function RetryDelay(intervalMs: int, attempt: int): (ms: int)
    requires attempt >= 1
    ensures attempt == 1 ==> ms == intervalMs
    ensures intervalMs >= 0 ==> ms >= intervalMs
    ensures intervalMs > 0 && attempt > 1 ==> ms > intervalMs
  {
    intervalMs * Pow2(attempt - 1)
  }

  lemma RetryDelayDoubles(intervalMs: int, attempt: int)
    requires attempt >= 1
    ensures RetryDelay(intervalMs, attempt + 1) == 2 * RetryDelay(intervalMs, attempt)
  {
  }

  /** The delays the policy would wait before attempts 1 .. RetryCount. */
  function RetryDelays(config: RabbitMqConfig): (delays: seq<int>)
    ensures |delays| == if config.RetryCount > 0 then config.RetryCount else 0
    ensures |delays| > 0 ==> delays[0] == config.RetryIntervalMs
  {
    var n := if config.RetryCount > 0 then config.RetryCount else 0;
    seq(n, k requires 0 <= k < n => RetryDelay(config.RetryIntervalMs, k + 1))
  }

  /** Each delay is exactly twice the one before it. */
  lemma RetryDelaysDouble(config: RabbitMqConfig)
    ensures var d := RetryDelays(config);
            forall k | 0 <= k < |d| - 1 :: d[k + 1] == 2 * d[k]
  {
    var d := RetryDelays(config);
    forall k | 0 <= k < |d| - 1
      ensures d[k + 1] == 2 * d[k]
    {
      RetryDelayDoubles(config.RetryIntervalMs, k + 1);
    }
  }

  /** With a positive base interval the delays strictly increase. */
  lemma {:induction false} RetryDelaysIncrease(config: RabbitMqConfig, i: nat, j: nat)
    requires config.RetryIntervalMs > 0
    requires i < j < |RetryDelays(config)|
    ensures RetryDelays(config)[i] < RetryDelays(config)[j]
    decreases j - i
  {
    var d := RetryDelays(config);
    RetryDelaysDouble(config);
    assert d[j] == 2 * d[j - 1];
    assert d[j - 1] > 0 by {
      assert d[j - 1] == RetryDelay(config.RetryIntervalMs, j);
    }
    if i < j - 1 {
      RetryDelaysIncrease(config, i, j - 1);
    }
  }

  /** With the defaults (5 retries, 1000 ms) the schedule is 1 s, 2 s, 4 s, 8 s, 16 s. */
  lemma DefaultRetryDelays(config: RabbitMqConfig)
    requires config.RetryCount == DefaultRetryCount && config.RetryIntervalMs == DefaultRetryIntervalMs
    ensures RetryDelays(config) == [1000, 2000, 4000, 8000, 16000]
  {
    var d := RetryDelays(config);
    assert Pow2(1) == 2 && Pow2(2) == 4 && Pow2(3) == 8 && Pow2(4) == 16;
    assert d[1] == RetryDelay(1000, 2) && d[2] == RetryDelay(1000, 3);
    assert d[3] == RetryDelay(1000, 4) && d[4] == RetryDelay(1000, 5);
  }

  // ---------------------------------------------------------------------
  // The abstract broker
  // ---------------------------------------------------------------------

  /** The failures the retry policy is declared to handle, and any other. */
  datatype ConnectError = BrokerUnreachable | SocketFailure | AlreadyClosed | OtherConnectError

  /** What the broker answers to one attempt to open a connection and its channel. */
  datatype ConnectOutcome = Connected | ConnectFailed(error: ConnectError)

  /** Why the constructor threw: the retry policy rejected a negative retry
      count while being built, or the connection attempt failed. */
  datatype StartupError = RetryCountOutOfRange | ConnectionError(error: ConnectError)

  /** A call the handler issues on its channel or its connection once it is
      constructed. The body of a publish is the serialised message; the
      serialisation itself is abstract. */
  datatype BrokerCall =
    | QueueDeclare(queue: string, durable: bool, exclusive: bool, autoDelete: bool)
    | BasicQos(prefetchSize: nat, prefetchCount: nat, global: bool)
    | CreateBasicProperties
    | BasicPublish(exchange: string, routingKey: string, persistent: bool, body: Message)
    | BasicConsume(queue: string, autoAck: bool)
    | BasicAck(deliveryTag: nat, multiple: bool)
    | BasicNack(deliveryTag: nat, multiple: bool, requeue: bool)
    | CloseChannel
    | DisposeChannel
    | CloseConnection
    | DisposeConnection

  /** The one declaration both operations issue: durable, not exclusive, not auto-deleted. */
  function DurableDeclare(queue: string): BrokerCall
  {
    QueueDeclare(queue, true, false, false)
  }

  // ---------------------------------------------------------------------
  // SendMessage
  // ---------------------------------------------------------------------

  /** Which step of a send throws: the declaration, serialising the message,
      creating its properties, the publish itself, or none. */
  datatype SendFault = SendOk | DeclareOnSendFails | SerializeFails | PropertiesFails | PublishFails

  /** The complete sequence of channel calls of one send. */
  function SendSequence(queue: string, message: Message): seq<BrokerCall>
  {
    [DurableDeclare(queue), CreateBasicProperties, BasicPublish("", queue, true, message)]
  }

  /** The calls one send issues: the sequence up to and including the call
      that throws (serialisation issues no call). */
  function SendCalls(queue: string, message: Message, fault: SendFault): (calls: seq<BrokerCall>)
    ensures 1 <= |calls| <= 3
    ensures calls == SendSequence(queue, message)[..|calls|]
    ensures calls[0] == QueueDeclare(queue, true, false, false)
    ensures |calls| == 3 <==> fault == SendOk || fault == PublishFails
    ensures |calls| == 3 ==> calls[2] == BasicPublish("", queue, true, message)
    ensures |calls| == 2 <==> fault == PropertiesFails
  {
    var s := SendSequence(queue, message);
    match fault
    case DeclareOnSendFails => s[..1]
    case SerializeFails => s[..1]
    case PropertiesFails => s[..2]
    case _ => s
  }

  // ---------------------------------------------------------------------
  // SubscribeToQueue
  // ---------------------------------------------------------------------

  /** Which step of a subscription throws. */
  datatype SubscribeFault = SubscribeOk | DeclareOnSubscribeFails | QosFails | ConsumeFails

  /** The complete set-up sequence of one subscription. */
  function SubscribeSequence(queue: string): seq<BrokerCall>
  {
    [DurableDeclare(queue), BasicQos(0, 1, false), BasicConsume(queue, false)]
  }

  /** The calls one subscription issues: the set-up sequence up to and
      including the step that throws. */
  function SubscribeCalls(queue: string, fault: SubscribeFault): (calls: seq<BrokerCall>)
    ensures 1 <= |calls| <= 3
    ensures calls == SubscribeSequence(queue)[..|calls|]
    ensures |calls| == match fault
                       case DeclareOnSubscribeFails => 1
                       case QosFails => 2
                       case _ => 3
  {
    var s := SubscribeSequence(queue);
    match fault
    case DeclareOnSubscribeFails => s[..1]
    case QosFails => s[..2]
    case _ => s
  }

  lemma SubscribeOrder(queue: string)
    ensures var s := SubscribeCalls(queue, SubscribeOk);
            s[0] == QueueDeclare(queue, true, false, false)
            && s[1] == BasicQos(0, 1, false)
            && s[2] == BasicConsume(queue, false)
  {
  }

  /** What the handler does with what it was given. */
  datatype HandlerResult = HandlerCompleted | HandlerThrows

  /** A registered consumer: the queue, the payload type its messages are
      deserialised into, and the handler it runs. */
  datatype Consumer = Consumer(queue: string, payload: PayloadType, handler: Message -> HandlerResult)

  // ---------------------------------------------------------------------
  // Settling one delivery
  // ---------------------------------------------------------------------

  /** The result of deserialising a delivery's body: a message, `null`, or an exception. */
  datatype DecodeResult = Decoded(message: Message) | DecodedNull | DecodeThrows

  /** Whether the handler ran and the acknowledgement calls that were issued. */
  datatype Delivery = Delivery(handlerInvoked: bool, calls: seq<BrokerCall>)

  /** A single-message settlement of the delivery with tag `tag`. */
  predicate SettlesOnly(c: BrokerCall, tag: nat)
  {
    (c.BasicAck? || c.BasicNack?) && c.deliveryTag == tag && !c.multiple
  }

  /** An exception is raised inside the callback's `try` block. */
  predicate CallbackThrows(decode: DecodeResult, handler: Message -> HandlerResult, firstSettleThrows: bool)
  {
    decode.DecodeThrows? || (decode.Decoded? && handler(decode.message).HandlerThrows?) || firstSettleThrows
  }

  /** The delivery callback. `firstSettleThrows` says whether the settlement
      call issued inside the `try` block (the ack, or the nack of a `null`
      message) throws; the catch block then nacks with requeue. */
  function Settle(tag: nat, decode: DecodeResult, handler: Message -> HandlerResult,
                  firstSettleThrows: bool): (d: Delivery)
    ensures d.handlerInvoked <==> decode.Decoded?
    ensures 1 <= |d.calls| <= 2
    ensures forall c | c in d.calls :: SettlesOnly(c, tag)
    ensures BasicAck(tag, false) in d.calls <==> decode.Decoded? && handler(decode.message).HandlerCompleted?
    ensures BasicAck(tag, false) in d.calls ==> d.calls[0] == BasicAck(tag, false)
    ensures BasicNack(tag, false, false) in d.calls <==> decode.DecodedNull?
    ensures BasicNack(tag, false, true) in d.calls <==> CallbackThrows(decode, handler, firstSettleThrows)
    ensures |d.calls| == 2 ==> d.calls[1] == BasicNack(tag, false, true)
    ensures |d.calls| == 2 <==>
              firstSettleThrows && (decode.DecodedNull? || (decode.Decoded? && handler(decode.message).HandlerCompleted?))
  {
    match decode
    case DecodeThrows =>
      Delivery(false, [BasicNack(tag, false, true)])
    case DecodedNull =>
      Delivery(false, [BasicNack(tag, false, false)] + (if firstSettleThrows then [BasicNack(tag, false, true)] else []))
    case Decoded(m) =>
      if handler(m).HandlerThrows? then Delivery(true, [BasicNack(tag, false, true)])
      else Delivery(true, [BasicAck(tag, false)] + (if firstSettleThrows then [BasicNack(tag, false, true)] else []))
  }

  /** A handler that succeeds gets its message acked exactly once and never requeued. */
  lemma SucceedingHandlerAcksOnce(tag: nat, m: Message, handler: Message -> HandlerResult)
    requires handler(m) == HandlerCompleted
    ensures Settle(tag, Decoded(m), handler, false) == Delivery(true, [BasicAck(tag, false)])
  {
  }

  /** A handler that fails gets its message requeued, and never acked. */
  lemma FailingHandlerRequeues(tag: nat, m: Message, handler: Message -> HandlerResult, firstSettleThrows: bool)
    requires handler(m) == HandlerThrows
    ensures Settle(tag, Decoded(m), handler, firstSettleThrows) == Delivery(true, [BasicNack(tag, false, true)])
  {
  }

  // ---------------------------------------------------------------------
  // Dispose
  // ---------------------------------------------------------------------

  /** Which close or dispose call throws, if it is reached. */
  datatype CloseFault =
    | CloseOk
    | ChannelCloseFails | ChannelDisposeFails
    | ConnectionCloseFails | ConnectionDisposeFails

  datatype Lifecycle = Lifecycle(disposed: bool, channelOpen: bool, connOpen: bool)

  datatype Disposal = Disposal(after: Lifecycle, calls: seq<BrokerCall>)

  /** `[c]` when `c` was issued, `[]` otherwise. */
  function IfIssued(c: BrokerCall, calls: seq<BrokerCall>): seq<BrokerCall>
  {
    if c in calls then [c] else []
  }

  /** One call of `Dispose(disposing)`. A resource counts as closed once its
      `Close()` returned, even if its `Dispose()` then throws. */
  function DisposeStep(s: Lifecycle, disposing: bool, fault: CloseFault): (r: Disposal)
    ensures r.after.disposed
    ensures s.disposed ==> r == Disposal(s, [])
    ensures r.calls == IfIssued(CloseChannel, r.calls) + IfIssued(DisposeChannel, r.calls)
                       + IfIssued(CloseConnection, r.calls) + IfIssued(DisposeConnection, r.calls)
    ensures CloseChannel in r.calls <==> !s.disposed && disposing && s.channelOpen
    ensures DisposeChannel in r.calls <==> CloseChannel in r.calls && fault != ChannelCloseFails
    ensures CloseConnection in r.calls <==>
              && !s.disposed && disposing && s.connOpen
              && !(s.channelOpen && (fault == ChannelCloseFails || fault == ChannelDisposeFails))
    ensures DisposeConnection in r.calls <==> CloseConnection in r.calls && fault != ConnectionCloseFails
    ensures r.after.channelOpen <==> s.channelOpen && DisposeChannel !in r.calls
    ensures r.after.connOpen <==> s.connOpen && DisposeConnection !in r.calls
    ensures !s.disposed && disposing && fault == CloseOk ==> !r.after.channelOpen && !r.after.connOpen
    ensures !disposing ==> r.after == s.(disposed := true) && r.calls == []
  {
    if s.disposed then Disposal(s, [])
    else if !disposing then Disposal(s.(disposed := true), [])
    else if s.channelOpen && fault == ChannelCloseFails then Disposal(s.(disposed := true), [CloseChannel])
    else if s.channelOpen && fault == ChannelDisposeFails then
      Disposal(s.(disposed := true, channelOpen := false), [CloseChannel, DisposeChannel])
    else
      var channelCalls := if s.channelOpen then [CloseChannel, DisposeChannel] else [];
      var closed := s.(channelOpen := false, disposed := true);
      if !s.connOpen then Disposal(closed, channelCalls)
      else if fault == ConnectionCloseFails then Disposal(closed, channelCalls + [CloseConnection])
      else Disposal(closed.(connOpen := false), channelCalls + [CloseConnection, DisposeConnection])
  }

  /** A channel the broker already closed is not closed again: only the
      connection is. */
  lemma DisposeAfterChannelLoss(fault: CloseFault)
    requires fault != ConnectionCloseFails
    ensures DisposeStep(Lifecycle(false, false, true), true, fault)
            == Disposal(Lifecycle(true, false, false), [CloseConnection, DisposeConnection])
  {
  }

  /** A second dispose, whatever its arguments, changes nothing and issues nothing. */
  lemma DisposeIdempotent(s: Lifecycle, disposing: bool, fault: CloseFault, disposing': bool, fault': CloseFault)
    ensures var once := DisposeStep(s, disposing, fault).after;
            DisposeStep(once, disposing', fault') == Disposal(once, [])
  {
  }

  // ---------------------------------------------------------------------
  // The handler object
  // ---------------------------------------------------------------------

  class ServiceBusHandler {
    const config: RabbitMqConfig
    /** Every call issued on the channel or the connection once constructed,
        oldest first. */
    var log: seq<BrokerCall>
    /** The consumers whose `BasicConsume` returned. */
    var consumers: seq<Consumer>
    var disposed: bool
    var channelOpen: bool
    var connOpen: bool

    function State(): Lifecycle
      reads this
    {
      Lifecycle(disposed, channelOpen, connOpen)
    }

    /** The object as the constructor leaves it once the connection and the
        channel were created. */
    constructor Connected(config: RabbitMqConfig)
      ensures this.config == config
      ensures log == [] && consumers == []
      ensures !disposed && channelOpen && connOpen
    {
      this.config := config;
      log, consumers := [], [];
      disposed, channelOpen, connOpen := false, true, true;
    }

    /** The constructor. `broker(k)` is what the broker would answer to the
        k-th attempt. Building the retry policy rejects a negative retry count
        before anything is attempted; otherwise the policy is discarded and
        never run, so only the first attempt is made, and its failure,
        transient or not, is rethrown. */
    static method Open(config: RabbitMqConfig, broker: nat -> ConnectOutcome)
      returns (r: Result<ServiceBusHandler, StartupError>, attempts: nat)
      ensures config.RetryCount < 0 ==> r == Failure(RetryCountOutOfRange) && attempts == 0
      ensures config.RetryCount >= 0 ==> attempts == 1
      ensures config.RetryCount >= 0 ==> (r.Failure? <==> broker(0).ConnectFailed?)
      ensures config.RetryCount >= 0 && r.Failure? ==> r.error == ConnectionError(broker(0).error)
      ensures r.Success? ==> fresh(r.value) && r.value.config == config
                             && r.value.log == [] && r.value.consumers == []
                             && r.value.State() == Lifecycle(false, true, true)
    {
      attempts := 0;
      if config.RetryCount < 0 {
        return Failure(RetryCountOutOfRange), attempts;
      }
      attempts := attempts + 1;
      var outcome := broker(0);
      if outcome.ConnectFailed? {
        return Failure(ConnectionError(outcome.error)), attempts;
      }
      var h := new ServiceBusHandler.Connected(config);
      r := Success(h);
    }

    /** Declares the queue, then publishes one persistent message to the
        default exchange with the queue name as routing key; any failure is
        rethrown, nothing is retried. */
    method SendMessage(queue: string, message: Message, fault: SendFault) returns (r: Outcome<SendFault>)
      modifies this`log
      ensures log == old(log) + SendCalls(queue, message, fault)
      ensures r == if fault == SendOk then Pass else Fail(fault)
    {
      log := log + [DurableDeclare(queue)];
      if fault == DeclareOnSendFails || fault == SerializeFails {
        return Fail(fault);
      }
      log := log + [CreateBasicProperties];
      if fault == PropertiesFails {
        return Fail(fault);
      }
      log := log + [BasicPublish("", queue, true, message)];
      if fault == PublishFails {
        return Fail(fault);
      }
      r := Pass;
    }

    /** Declares the queue, sets prefetch to one unacknowledged message, and
        starts a manual-ack consumer running `handler`. */
    method SubscribeToQueue(queue: string, payload: PayloadType, handler: Message -> HandlerResult,
                            fault: SubscribeFault) returns (r: Outcome<SubscribeFault>)
      modifies this`log, this`consumers
      ensures log == old(log) + SubscribeCalls(queue, fault)
      ensures consumers == if fault == SubscribeOk then old(consumers) + [Consumer(queue, payload, handler)]
                           else old(consumers)
      ensures r == if fault == SubscribeOk then Pass else Fail(fault)
    {
      log := log + [DurableDeclare(queue)];
      if fault == DeclareOnSubscribeFails {
        return Fail(fault);
      }
      log := log + [BasicQos(0, 1, false)];
      if fault == QosFails {
        return Fail(fault);
      }
      log := log + [BasicConsume(queue, false)];
      if fault == ConsumeFails {
        return Fail(fault);
      }
      consumers := consumers + [Consumer(queue, payload, handler)];
      r := Pass;
    }

    /** The `Received` callback of consumer `index` for the delivery `tag`.
        The deserialiser returns the consumer's payload type or `null`. */
    method OnReceived(index: nat, tag: nat, decode: DecodeResult, firstSettleThrows: bool)
      returns (handlerInvoked: bool)
      requires index < |consumers|
      requires decode.Decoded? ==> PayloadOf(decode.message) == consumers[index].payload
      modifies this`log
      ensures var d := Settle(tag, decode, consumers[index].handler, firstSettleThrows);
              log == old(log) + d.calls && handlerInvoked == d.handlerInvoked
    {
      var handler := consumers[index].handler;
      handlerInvoked := false;
      match decode {
        case DecodeThrows =>
          log := log + [BasicNack(tag, false, true)];
        case DecodedNull =>
          log := log + [BasicNack(tag, false, false)];
          if firstSettleThrows {
            log := log + [BasicNack(tag, false, true)];
          }
        case Decoded(m) =>
          handlerInvoked := true;
          var result := handler(m);
          if result == HandlerThrows {
            log := log + [BasicNack(tag, false, true)];
          } else {
            log := log + [BasicAck(tag, false)];
            if firstSettleThrows {
              log := log + [BasicNack(tag, false, true)];
            }
          }
      }
    }

    /** The broker, or a channel-level error in one of the calls above, closes
        the channel: its `IsOpen` turns false without a dispose. */
    method ChannelShutdown()
      modifies this`channelOpen
      ensures !channelOpen
    {
      channelOpen := false;
    }

    /** The broker drops the connection, and its channel with it. */
    method ConnectionShutdown()
      modifies this`channelOpen, this`connOpen
      ensures !channelOpen && !connOpen
    {
      channelOpen, connOpen := false, false;
    }

    /** `Dispose()`: releases the managed resources. */
    method Dispose(fault: CloseFault)
      modifies this`log, this`disposed, this`channelOpen, this`connOpen
      ensures var d := DisposeStep(old(State()), true, fault);
              State() == d.after && log == old(log) + d.calls
    {
      DisposeCore(true, fault);
    }

    /** The channel block of `Dispose(bool)`: an open channel is closed, then
        disposed; `failed` says that one of the two threw. */
    method ReleaseChannel(fault: CloseFault) returns (failed: bool)
      modifies this`log, this`channelOpen
      ensures !old(channelOpen) ==> !failed && !channelOpen && log == old(log)
      ensures old(channelOpen) && fault == ChannelCloseFails ==>
                failed && channelOpen && log == old(log) + [CloseChannel]
      ensures old(channelOpen) && fault != ChannelCloseFails ==>
                && (failed <==> fault == ChannelDisposeFails) && !channelOpen
                && log == old(log) + [CloseChannel, DisposeChannel]
    {
      failed := false;
      if channelOpen {
        log := log + [CloseChannel];
        if fault == ChannelCloseFails {
          return true;
        }
        channelOpen := false;
        log := log + [DisposeChannel];
        failed := fault == ChannelDisposeFails;
      }
    }

    /** The connection block of `Dispose(bool)`: an open connection is
        closed, then disposed. */
    method ReleaseConnection(fault: CloseFault)
      modifies this`log, this`connOpen
      ensures !old(connOpen) ==> !connOpen && log == old(log)
      ensures old(connOpen) && fault == ConnectionCloseFails ==> connOpen && log == old(log) + [CloseConnection]
      ensures old(connOpen) && fault != ConnectionCloseFails ==>
                !connOpen && log == old(log) + [CloseConnection, DisposeConnection]
    {
      if connOpen {
        log := log + [CloseConnection];
        if fault == ConnectionCloseFails {
          return;
        }
        connOpen := false;
        log := log + [DisposeConnection];
      }
    }

    /** `Dispose(bool disposing)`: closes and disposes the open channel, then
        the open connection; a call that throws skips the rest and is swallowed. */
    method DisposeCore(disposing: bool, fault: CloseFault)
      modifies this`log, this`disposed, this`channelOpen, this`connOpen
      ensures var d := DisposeStep(old(State()), disposing, fault);
              State() == d.after && log == old(log) + d.calls
    {
      if disposed {
        return;
      }
      if disposing {
        var failed := ReleaseChannel(fault);
        if failed {
          disposed := true;
          return;
        }
        ReleaseConnection(fault);
      }
      disposed := true;
    }
  }
}
