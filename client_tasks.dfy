/** The task as the browser pages receive it from the REST endpoints: dates are strings. */
module ClientTasks {
  import opened Options
  import opened Schema

  datatype ClientTask = ClientTask(id: int, title: string, description: Option<string>,
                                   priority: Priority, status: Status,
                                   dueDate: Option<string>, projectId: Option<int>)

  /** `!task.dueDate`: no due date, or an empty one. */
  predicate Undated(t: ClientTask) {
    t.dueDate.None? || t.dueDate.value == ""
  }
}
