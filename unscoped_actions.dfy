/**
 * The second set of task actions: no session and no ownership checks, every row
 * selected by id alone, its own defaults and status literals, and every storage
 * failure caught and reported as `{ success: false, error }`.
 */
module UnscopedActions {
  import opened Options
  import Schema
  import Query
  import Sorting

  /** The status literals this variant writes. */
  datatype VariantStatus = Todo | InProgress | Completed

  function VariantStatusName(s: VariantStatus): string {
    match s
    case Todo => "todo"
    case InProgress => "in-progress"
    case Completed => "completed"
  }

  /** Its default status is not one of the literals the tasks table declares; only "completed" is shared. */
  lemma VariantStatusesOutsideSchema(s: VariantStatus)
    ensures Schema.ParseStatus(VariantStatusName(s)).Some? <==> s == Completed
  {
  }

  /**
   * A row of the tasks table as this variant sees it: the status is the literal written,
   * and the owner is absent on rows this variant inserted.
   */
  datatype Row = Row(id: int, title: string, description: Option<string>, dueDate: Option<Schema.Timestamp>,
                     priority: Schema.Priority, status: string, userId: Option<int>,
                     createdAt: Schema.Timestamp, updatedAt: Schema.Timestamp)

  function RowKey(r: Row): int { r.id }

  /** `TaskInput`; in an update every field may be absent. */
  datatype TaskInput = TaskInput(title: string, description: Option<string>, dueDate: Option<Schema.Timestamp>,
                                 priority: Option<Schema.Priority>, status: Option<VariantStatus>)

  datatype PartialTaskInput = PartialTaskInput(title: Option<string>, description: Option<string>,
                                               dueDate: Option<Schema.Timestamp>,
                                               priority: Option<Schema.Priority>, status: Option<VariantStatus>)

  /** The wrapped result: `{ success: true, data }` or `{ success: false, error }`. */
  datatype Reply<T> = Succeeded(data: T) | Failed(error: string)

  const CreateFailed := "Failed to create task"
  const UpdateFailed := "Failed to update task"
  const DeleteFailed := "Failed to delete task"
  const FetchAllFailed := "Failed to fetch tasks"
  const FetchOneFailed := "Failed to fetch task"

  /** The row `createTask` inserts: the five input columns, priority medium and status "todo" by default, no owner. */
  function NewRow(id: int, input: TaskInput, now: Schema.Timestamp): (r: Row)
    ensures r.id == id && r.userId.None?
    ensures r.title == input.title && r.description == input.description && r.dueDate == input.dueDate
    ensures input.priority.None? ==> r.priority == Schema.Medium
    ensures input.priority.Some? ==> r.priority == input.priority.value
    ensures input.status.None? ==> r.status == "todo"
    ensures input.status.Some? ==> r.status == VariantStatusName(input.status.value)
    ensures r.createdAt == now && r.updatedAt == now
  {
    Row(id, input.title, input.description, input.dueDate, input.priority.GetOr(Schema.Medium),
        VariantStatusName(input.status.GetOr(Todo)), None, now, now)
  }

  /** The row `updateTask` writes: the fields the input names are replaced, the others kept, `updatedAt` refreshed. */
  function PatchRow(r: Row, input: PartialTaskInput, now: Schema.Timestamp): (p: Row)
    ensures p.id == r.id && p.userId == r.userId && p.createdAt == r.createdAt && p.updatedAt == now
    ensures input.title.None? ==> p.title == r.title
    ensures input.description.None? ==> p.description == r.description
    ensures input.dueDate.None? ==> p.dueDate == r.dueDate
    ensures input.priority.None? ==> p.priority == r.priority
    ensures input.status.None? ==> p.status == r.status
    ensures input.title.Some? ==> p.title == input.title.value
    ensures input.description.Some? ==> p.description == input.description
    ensures input.dueDate.Some? ==> p.dueDate == input.dueDate
    ensures input.priority.Some? ==> p.priority == input.priority.value
    ensures input.status.Some? ==> p.status == VariantStatusName(input.status.value)
  {
    Row(r.id, input.title.GetOr(r.title),
        if input.description.Some? then input.description else r.description,
        if input.dueDate.Some? then input.dueDate else r.dueDate,
        input.priority.GetOr(r.priority),
        if input.status.Some? then VariantStatusName(input.status.value) else r.status,
        r.userId, r.createdAt, now)
  }

  /** An update that names every field leaves nothing of the old row but its id, owner and creation time. */
  lemma FullPatchOverwrites(r: Row, s: Row, input: PartialTaskInput, now: Schema.Timestamp)
    requires r.id == s.id && r.userId == s.userId && r.createdAt == s.createdAt
    requires input.title.Some? && input.description.Some? && input.dueDate.Some?
    requires input.priority.Some? && input.status.Some?
    ensures PatchRow(r, input, now) == PatchRow(s, input, now)
  {
  }

  /** The whole tasks table, shared by every caller. */
  class TaskTable {
    var rows: map<int, Row>
    var nextId: int

    ghost predicate Valid()
      reads this
    {
      Query.KeyedTable(rows, RowKey, nextId) && 1 <= nextId
    }

    constructor ()
      ensures Valid() && rows == map[]
    {
      rows := map[];
      nextId := 1;
    }

    /** `createTask`; `available` is false when the store raises. */
    method CreateTask(input: TaskInput, now: Schema.Timestamp, available: bool) returns (r: Reply<()>)
      requires Valid()
      modifies this
      ensures Valid()
      ensures !available ==> r == Failed(CreateFailed) && unchanged(this)
      ensures available ==> r == Succeeded(()) && old(nextId) !in old(rows)
      ensures available ==> rows == old(rows)[old(nextId) := NewRow(old(nextId), input, now)]
    {
      if !available {
        return Failed(CreateFailed);
      }
      var row := NewRow(nextId, input, now);
      rows := rows[nextId := row];
      nextId := nextId + 1;
      r := Succeeded(());
    }

    /** `updateTask`: selected by id alone; succeeds even when no row has that id. */
    method UpdateTask(id: int, input: PartialTaskInput, now: Schema.Timestamp, available: bool) returns (r: Reply<()>)
      requires Valid()
      modifies this
      ensures Valid()
      ensures !available ==> r == Failed(UpdateFailed) && unchanged(this)
      ensures available ==> r == Succeeded(()) && nextId == old(nextId)
      ensures available && id in old(rows) ==> rows == old(rows)[id := PatchRow(old(rows)[id], input, now)]
      ensures available && id !in old(rows) ==> rows == old(rows)
    {
      if !available {
        return Failed(UpdateFailed);
      }
      if id in rows {
        rows := rows[id := PatchRow(rows[id], input, now)];
      }
      r := Succeeded(());
    }

    /** `deleteTask`: selected by id alone; succeeds even when no row has that id. */
    method DeleteTask(id: int, available: bool) returns (r: Reply<()>)
      requires Valid()
      modifies this
      ensures Valid()
      ensures !available ==> r == Failed(DeleteFailed) && unchanged(this)
      ensures available ==> r == Succeeded(()) && rows == old(rows) - {id} && nextId == old(nextId)
    {
      if !available {
        return Failed(DeleteFailed);
      }
      rows := rows - {id};
      r := Succeeded(());
    }

    /** `getTasks`: every row of every user, each once. */
    method GetTasks(available: bool) returns (r: Reply<seq<Row>>)
      requires Valid()
      ensures !available ==> r == Failed(FetchAllFailed)
      ensures available ==> r.Succeeded? && Sorting.AtMostOnce(r.data)
      ensures available ==> forall x :: x in r.data <==> Query.IsRow(rows, RowKey, x)
    {
      if !available {
        return Failed(FetchAllFailed);
      }
      var all := Query.Select(rows, RowKey, nextId, (x: Row) => true);
      r := Succeeded(all);
    }

    /** `getTask`: the row with that id as `data`, absent when there is none. */
    function GetTask(id: int, available: bool): (r: Reply<Option<Row>>)
      reads this
      ensures !available ==> r == Failed(FetchOneFailed)
      ensures available ==> r.Succeeded? && (r.data.Some? <==> id in rows)
      ensures available && id in rows ==> r.data.value == rows[id]
    {
      if !available then Failed(FetchOneFailed)
      else if id in rows then Succeeded(Some(rows[id]))
      else Succeeded(None)
    }
  }
}
