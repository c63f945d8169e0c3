/** The values shared by the services, the storage and the cache. */
module Domain {
  import opened Text

  datatype Option<+T> = None | Some(value: T)

  datatype Error = NotFound | Forbidden | Internal

  datatype Result<+T> = Ok(value: T) | Err(error: Error)

  datatype Role = Owner | Admin | Member

  datatype Team = Team(id: Uuid, name: string, createdBy: Uuid, createdAt: nat)

  /** Status and priority are plain strings in the service; only the table restricts them. */
  datatype Task = Task(
    id: Uuid, team: Uuid, createdBy: Uuid, assignee: Option<Uuid>,
    title: string, description: Option<string>, status: string, priority: string,
    due: Option<Time>, createdAt: nat, updatedAt: nat)

  datatype CreateInput = CreateInput(
    team: Uuid, title: string, description: Option<string>, assignee: Option<Uuid>,
    due: Option<Time>, priority: string)

  /** A field left None is not changed. */
  datatype UpdateInput = UpdateInput(
    title: Option<string>, description: Option<string>, status: Option<string>,
    assignee: Option<Uuid>, due: Option<Time>, priority: Option<string>)

  datatype Filter = Filter(
    team: Option<Uuid>, status: Option<string>, assignee: Option<Uuid>, page: int, limit: int)

  /** The six audited columns: title, description, status, priority, assignee_id and due_date. */
  datatype Field = Title | Description | Status | Priority | AssigneeId | DueDate

  datatype HistoryRow = HistoryRow(
    task: Uuid, changedBy: Uuid, field: Field,
    oldValue: Option<string>, newValue: Option<string>, changedAt: nat)

  datatype CachedList = CachedList(tasks: seq<Task>, total: nat)
}
