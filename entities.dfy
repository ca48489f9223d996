/** The task entity persisted by the store (TaskManagementApp/Entities/TaskItem.cs). */
module Entities {
  import opened Wrappers

  /** `TaskStatus` is a C# enum backed by `int`. Incoming statuses are never
      range-checked, so every `int` is a possible status, not only 1..3. */
  newtype TaskStatus = int

  const NotStarted: TaskStatus := 1
  const InProgress: TaskStatus := 2
  const Completed: TaskStatus := 3

  /** A point in time read from the UTC clock, as a tick count. */
  type DateTime = int

  datatype TaskItem = TaskItem(
    Id: int,
    Name: string,
    Description: string,
    Status: TaskStatus,
    AssignedTo: Option<string>,
    CreatedAt: DateTime,
    UpdatedAt: Option<DateTime>)
}
