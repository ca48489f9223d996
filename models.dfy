/** The view models exchanged with the HTTP layer (TaskManagementApp/Models/TaskVms.cs). */
module Models {
  import opened Wrappers
  import opened Entities

  datatype CreateTaskVm = CreateTaskVm(Name: string, Description: string, AssignedTo: Option<string>)

  /** The new status is not validated against the enum's named values. */
  datatype UpdateTaskStatusVm = UpdateTaskStatusVm(NewStatus: TaskStatus)

  datatype TaskItemVm = TaskItemVm(
    Id: int,
    Name: string,
    Description: string,
    Status: TaskStatus,
    AssignedTo: Option<string>,
    CreatedAt: DateTime,
    UpdatedAt: Option<DateTime>)
}
