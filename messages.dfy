/** The bus envelope with its two payload variants
    (TaskManagementApp/ServiceBus/Messages/TaskMessages.cs). */
module Messages {
  import opened Wrappers
  import opened Entities

  /** An opaque globally unique identifier. */
  type Guid = nat

  /** What the envelope's field initialisers read when a message is built:
      a fresh `Guid.NewGuid()` and the UTC clock. */
  datatype Stamp = Stamp(messageId: Guid, timestamp: DateTime)

  /** Both variants carry the base fields `messageId` and `timestamp`. */
  datatype Message =
    | TaskCreatedMessage(messageId: Guid, timestamp: DateTime,
                         TaskId: int, Name: string, Description: string, AssignedTo: Option<string>)
    | TaskUpdatedMessage(messageId: Guid, timestamp: DateTime,
                         TaskId: int, OldStatus: TaskStatus, NewStatus: TaskStatus)

  /** The payload type a subscription deserialises into. */
  datatype PayloadType = TaskCreatedPayload | TaskUpdatedPayload

  function PayloadOf(m: Message): PayloadType
  {
    match m
    case TaskCreatedMessage(_, _, _, _, _, _) => TaskCreatedPayload
    case TaskUpdatedMessage(_, _, _, _, _) => TaskUpdatedPayload
  }
}
