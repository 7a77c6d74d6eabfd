/**
 * The user-scoped server actions: every operation first resolves the signed-in user
 * (failing with "Not authenticated"), reads only the caller's rows, and refuses to
 * change a row the caller does not own (failing with "Unauthorized").
 */
module ServerActions {
  import opened Options
  import opened Schema
  import Query
  import Sorting

  datatype ActionError = NotAuthenticated | Unauthorized

  /** The message of the error an action throws. */
  function Message(e: ActionError): string {
    match e
    case NotAuthenticated => "Not authenticated"
    case Unauthorized => "Unauthorized"
  }

  /** An action either returns a value or throws. */
  datatype Outcome<T> = Returned(value: T) | Threw(error: ActionError)

  /**
   * The session is the signed-in user's id, already read as a number;
   * `None` stands for a missing session, user or id.
   */
  type Session = Option<int>

  datatype CreateTaskInput = CreateTaskInput(title: string, description: Option<string>,
                                             priority: Priority, status: Status,
                                             dueDate: Option<string>, projectId: Option<int>,
                                             progress: int)

  /**
   * An update names the task and any subset of its fields. For a nullable field,
   * `None` is an omitted key and `Some(None)` an explicit null.
   */
  datatype UpdateTaskInput = UpdateTaskInput(id: int, title: Option<string>,
                                             description: Option<Option<string>>,
                                             priority: Option<Priority>, status: Option<Status>,
                                             dueDate: Option<Option<string>>,
                                             projectId: Option<Option<int>>,
                                             progress: Option<int>)

  datatype CreateProjectInput = CreateProjectInput(name: string, description: Option<string>, color: string)

  datatype UpdateProjectInput = UpdateProjectInput(id: int, name: Option<string>,
                                                   description: Option<Option<string>>,
                                                   color: Option<string>)

  function Flatten<T>(o: Option<Option<T>>): Option<T> {
    if o.Some? then o.value else None
  }

  /** The values `createTask` inserts: the input's columns, the caller as owner, the due date parsed. */
  function NewTaskValues(input: CreateTaskInput, userId: int, parseDate: string -> Timestamp): TaskValues {
    TaskValues(input.title, input.description, Some(input.priority), Some(input.status),
               DueDateFrom(input.dueDate, parseDate), input.projectId, userId, None)
  }

  /** A created task belongs to the caller, carries the input's fields, and starts not completed. */
  lemma CreatedTaskShape(id: int, input: CreateTaskInput, userId: int, now: Timestamp, parseDate: string -> Timestamp)
    ensures var t := TaskRow(id, NewTaskValues(input, userId, parseDate), now);
      && t.id == id && t.userId == userId && !t.isCompleted
      && t.title == input.title && t.description == input.description
      && t.priority == input.priority && t.status == input.status && t.projectId == input.projectId
      && (t.dueDate.None? <==> input.dueDate.None? || input.dueDate == Some(""))
      && t.createdAt == t.updatedAt == now
  {
  }

  /**
   * The row `updateTask` writes: each field the input names is replaced, each one it omits is
   * kept, except the due date, which is always written (null when omitted or empty), and the
   * update time, which becomes `now`.
   */
  function PatchTask(t: Task, input: UpdateTaskInput, now: Timestamp, parseDate: string -> Timestamp): (r: Task)
    ensures r.id == t.id && r.userId == t.userId && r.isCompleted == t.isCompleted && r.createdAt == t.createdAt
    ensures r.updatedAt == now
    ensures r.dueDate == DueDateFrom(Flatten(input.dueDate), parseDate)
    ensures input.title.Some? ==> r.title == input.title.value
    ensures input.description.Some? ==> r.description == input.description.value
    ensures input.projectId.Some? ==> r.projectId == input.projectId.value
    ensures input.priority.Some? ==> r.priority == input.priority.value
    ensures input.status.Some? ==> r.status == input.status.value
    ensures input.title.None? ==> r.title == t.title
    ensures input.description.None? ==> r.description == t.description
    ensures input.projectId.None? ==> r.projectId == t.projectId
    ensures input.priority.None? ==> r.priority == t.priority
    ensures input.status.None? ==> r.status == t.status
  {
    t.(title := input.title.GetOr(t.title),
       description := input.description.GetOr(t.description),
       priority := input.priority.GetOr(t.priority),
       status := input.status.GetOr(t.status),
       projectId := input.projectId.GetOr(t.projectId),
       dueDate := DueDateFrom(Flatten(input.dueDate), parseDate),
       updatedAt := now)
  }

  /** An update naming no field still clears the due date and moves the update time. */
  lemma EmptyPatchClearsDueDate(t: Task, id: int, now: Timestamp, parseDate: string -> Timestamp)
    ensures PatchTask(t, UpdateTaskInput(id, None, None, None, None, None, None, None), now, parseDate)
            == t.(dueDate := None, updatedAt := now)
  {
  }

  /** Applying the same update twice at the same time stores the same row as applying it once. */
  lemma PatchTwice(t: Task, input: UpdateTaskInput, now: Timestamp, parseDate: string -> Timestamp)
    ensures PatchTask(PatchTask(t, input, now, parseDate), input, now, parseDate) == PatchTask(t, input, now, parseDate)
  {
  }

  /** The row `updateProject` writes. */
  function PatchProject(p: Project, input: UpdateProjectInput, now: Timestamp): (r: Project)
    ensures r.id == p.id && r.userId == p.userId && r.createdAt == p.createdAt && r.updatedAt == now
    ensures input.name.Some? ==> r.name == input.name.value
    ensures input.name.None? ==> r.name == p.name
    ensures input.description.Some? ==> r.description == input.description.value
    ensures input.description.None? ==> r.description == p.description
  {
    p.(name := input.name.GetOr(p.name), description := input.description.GetOr(p.description), updatedAt := now)
  }

  /** Every task that references `projectId`, whoever owns it, has its project cleared. */
  function DetachProject(tasks: map<int, Task>, projectId: int): (r: map<int, Task>)
    ensures r.Keys == tasks.Keys
    ensures forall k :: k in r ==> r[k].projectId != Some(projectId)
    ensures forall k :: k in r ==> r[k] == tasks[k].(projectId := r[k].projectId)
    ensures forall k :: k in r && tasks[k].projectId != Some(projectId) ==> r[k] == tasks[k]
  {
    map k | k in tasks :: if tasks[k].projectId == Some(projectId) then tasks[k].(projectId := None) else tasks[k]
  }

  /** Detaching reaches rows of users other than the project's owner. */
  lemma DetachReachesOtherUsers(t: Task, owner: int)
    requires t.projectId.Some? && t.userId != owner
    ensures var after := DetachProject(map[t.id := t], t.projectId.value);
      after[t.id] != t && after[t.id].userId != owner
  {
    var after := DetachProject(map[t.id := t], t.projectId.value);
    assert after[t.id].projectId == None;
  }

  /** `getTasks`: the caller's tasks, every one of them once, ordered by creation time. */
  method GetTasks(db: Database, session: Session) returns (r: Outcome<seq<Task>>)
    requires db.Valid()
    ensures session.None? ==> r == Threw(NotAuthenticated)
    ensures session.Some? ==> r.Returned?
    ensures session.Some? ==> forall t :: t in r.value <==> Query.IsRow(db.tasks, TaskKey, t) && t.userId == session.value
    ensures session.Some? ==> Sorting.AtMostOnce(r.value) && Sorting.Sorted(r.value, ByCreatedAt)
  {
    if session.None? {
      return Threw(NotAuthenticated);
    }
    var userId := session.value;
    CreatedAtOrders();
    var rows := Query.SelectOrdered(db.tasks, TaskKey, db.nextTaskId, (t: Task) => t.userId == userId, ByCreatedAt);
    r := Returned(rows);
  }

  /** `getTask`: the caller's task with that id, nothing when there is none, a throw when it is someone else's. */
  function GetTask(db: Database, session: Session, id: int): (r: Outcome<Option<Task>>)
    reads db
    ensures session.None? ==> r == Threw(NotAuthenticated)
    ensures r == Threw(Unauthorized) <==> session.Some? && id in db.tasks && db.tasks[id].userId != session.value
    ensures r == Returned(None) <==> session.Some? && id !in db.tasks
    ensures r.Returned? && r.value.Some? ==> id in db.tasks && r.value.value == db.tasks[id] && r.value.value.userId == session.value
  {
    if session.None? then Threw(NotAuthenticated)
    else if id !in db.tasks then Returned(None)
    else if db.tasks[id].userId != session.value then Threw(Unauthorized)
    else Returned(Some(db.tasks[id]))
  }

  /** `createTask`: a new row owned by the caller, which the caller can then read back. */
  method CreateTask(db: Database, session: Session, input: CreateTaskInput, now: Timestamp,
                    parseDate: string -> Timestamp) returns (r: Outcome<Task>)
    requires db.Valid()
    modifies db
    ensures db.Valid()
    ensures session.None? ==> r == Threw(NotAuthenticated) && unchanged(db)
    ensures session.Some? ==> r.Returned? && r.value.id !in old(db.tasks)
    ensures session.Some? ==> r.value == TaskRow(r.value.id, NewTaskValues(input, session.value, parseDate), now)
    ensures session.Some? ==> db.tasks == old(db.tasks)[r.value.id := r.value]
    ensures session.Some? ==> db.projects == old(db.projects) && db.users == old(db.users)
    ensures session.Some? ==> GetTask(db, session, r.value.id) == Returned(Some(r.value))
  {
    if session.None? {
      return Threw(NotAuthenticated);
    }
    var row := db.InsertTask(NewTaskValues(input, session.value, parseDate), now);
    r := Returned(row);
  }

  /** `updateTask`: only the caller's existing task is rewritten; nothing else changes. */
  method UpdateTask(db: Database, session: Session, input: UpdateTaskInput, now: Timestamp,
                    parseDate: string -> Timestamp) returns (r: Outcome<Task>)
    requires db.Valid()
    modifies db
    ensures db.Valid()
    ensures session.None? ==> r == Threw(NotAuthenticated) && unchanged(db)
    ensures session.Some? && !(input.id in old(db.tasks) && old(db.tasks)[input.id].userId == session.value) ==>
              r == Threw(Unauthorized) && unchanged(db)
    ensures session.Some? && input.id in old(db.tasks) && old(db.tasks)[input.id].userId == session.value ==>
              && r == Returned(PatchTask(old(db.tasks)[input.id], input, now, parseDate))
              && db.tasks == old(db.tasks)[input.id := r.value]
              && db.projects == old(db.projects) && db.users == old(db.users)
              && db.nextTaskId == old(db.nextTaskId) && db.nextProjectId == old(db.nextProjectId)
  {
    if session.None? {
      return Threw(NotAuthenticated);
    }
    var found := GetTask(db, session, input.id);
    if found.Threw? {
      return Threw(found.error);
    }
    if found.value.None? || found.value.value.userId != session.value {
      return Threw(Unauthorized);
    }
    var row := PatchTask(found.value.value, input, now, parseDate);
    db.tasks := db.tasks[input.id := row];
    r := Returned(row);
  }

  /** `deleteTask`: only the caller's existing task is removed. */
  method DeleteTask(db: Database, session: Session, id: int) returns (r: Outcome<bool>)
    requires db.Valid()
    modifies db
    ensures db.Valid()
    ensures session.None? ==> r == Threw(NotAuthenticated) && unchanged(db)
    ensures session.Some? && !(id in old(db.tasks) && old(db.tasks)[id].userId == session.value) ==>
              r == Threw(Unauthorized) && unchanged(db)
    ensures session.Some? && id in old(db.tasks) && old(db.tasks)[id].userId == session.value ==>
              && r == Returned(true)
              && db.tasks == old(db.tasks) - {id}
              && db.projects == old(db.projects) && db.users == old(db.users)
              && db.nextTaskId == old(db.nextTaskId) && db.nextProjectId == old(db.nextProjectId)
  {
    if session.None? {
      return Threw(NotAuthenticated);
    }
    var found := GetTask(db, session, id);
    if found.Threw? {
      return Threw(found.error);
    }
    if found.value.None? || found.value.value.userId != session.value {
      return Threw(Unauthorized);
    }
    db.tasks := db.tasks - {id};
    r := Returned(true);
  }

  /** `getProjects`: the caller's projects, every one of them once, ordered by creation time. */
  method GetProjects(db: Database, session: Session) returns (r: Outcome<seq<Project>>)
    requires db.Valid()
    ensures session.None? ==> r == Threw(NotAuthenticated)
    ensures session.Some? ==> r.Returned?
    ensures session.Some? ==> forall p :: p in r.value <==> Query.IsRow(db.projects, ProjectKey, p) && p.userId == session.value
    ensures session.Some? ==> Sorting.AtMostOnce(r.value) && Sorting.Sorted(r.value, ProjectsByCreatedAt)
  {
    if session.None? {
      return Threw(NotAuthenticated);
    }
    var userId := session.value;
    CreatedAtOrders();
    var rows := Query.SelectOrdered(db.projects, ProjectKey, db.nextProjectId, (p: Project) => p.userId == userId, ProjectsByCreatedAt);
    r := Returned(rows);
  }

  /** `getProject`: the caller's project with that id, nothing when there is none, a throw when it is someone else's. */
  function GetProject(db: Database, session: Session, id: int): (r: Outcome<Option<Project>>)
    reads db
    ensures session.None? ==> r == Threw(NotAuthenticated)
    ensures r == Threw(Unauthorized) <==> session.Some? && id in db.projects && db.projects[id].userId != session.value
    ensures r == Returned(None) <==> session.Some? && id !in db.projects
    ensures r.Returned? && r.value.Some? ==> id in db.projects && r.value.value == db.projects[id] && r.value.value.userId == session.value
  {
    if session.None? then Threw(NotAuthenticated)
    else if id !in db.projects then Returned(None)
    else if db.projects[id].userId != session.value then Threw(Unauthorized)
    else Returned(Some(db.projects[id]))
  }

  /** `createProject`: a new project owned by the caller; the input's colour has no column and is dropped. */
  method CreateProject(db: Database, session: Session, input: CreateProjectInput, now: Timestamp) returns (r: Outcome<Project>)
    requires db.Valid()
    modifies db
    ensures db.Valid()
    ensures session.None? ==> r == Threw(NotAuthenticated) && unchanged(db)
    ensures session.Some? ==> r.Returned? && r.value.id !in old(db.projects)
    ensures session.Some? ==> r.value == Project(r.value.id, input.name, input.description, session.value, now, now)
    ensures session.Some? ==> db.projects == old(db.projects)[r.value.id := r.value]
    ensures session.Some? ==> db.tasks == old(db.tasks) && db.users == old(db.users)
    ensures session.Some? ==> GetProject(db, session, r.value.id) == Returned(Some(r.value))
  {
    if session.None? {
      return Threw(NotAuthenticated);
    }
    var row := db.InsertProject(ProjectValues(input.name, input.description, session.value), now);
    r := Returned(row);
  }

  /** `updateProject`: only the caller's existing project is rewritten. */
  method UpdateProject(db: Database, session: Session, input: UpdateProjectInput, now: Timestamp) returns (r: Outcome<Project>)
    requires db.Valid()
    modifies db
    ensures db.Valid()
    ensures session.None? ==> r == Threw(NotAuthenticated) && unchanged(db)
    ensures session.Some? && !(input.id in old(db.projects) && old(db.projects)[input.id].userId == session.value) ==>
              r == Threw(Unauthorized) && unchanged(db)
    ensures session.Some? && input.id in old(db.projects) && old(db.projects)[input.id].userId == session.value ==>
              && r == Returned(PatchProject(old(db.projects)[input.id], input, now))
              && db.projects == old(db.projects)[input.id := r.value]
              && db.tasks == old(db.tasks) && db.users == old(db.users)
              && db.nextTaskId == old(db.nextTaskId) && db.nextProjectId == old(db.nextProjectId)
  {
    if session.None? {
      return Threw(NotAuthenticated);
    }
    var found := GetProject(db, session, input.id);
    if found.Threw? {
      return Threw(found.error);
    }
    if found.value.None? || found.value.value.userId != session.value {
      return Threw(Unauthorized);
    }
    var row := PatchProject(found.value.value, input, now);
    db.projects := db.projects[input.id := row];
    r := Returned(row);
  }

  /** `deleteProject`: the caller's project is removed after every task referencing it is detached. */
  method DeleteProject(db: Database, session: Session, id: int) returns (r: Outcome<bool>)
    requires db.Valid()
    modifies db
    ensures db.Valid()
    ensures session.None? ==> r == Threw(NotAuthenticated) && unchanged(db)
    ensures session.Some? && !(id in old(db.projects) && old(db.projects)[id].userId == session.value) ==>
              r == Threw(Unauthorized) && unchanged(db)
    ensures session.Some? && id in old(db.projects) && old(db.projects)[id].userId == session.value ==>
              && r == Returned(true)
              && db.projects == old(db.projects) - {id}
              && db.tasks == DetachProject(old(db.tasks), id)
              && db.users == old(db.users)
              && db.nextTaskId == old(db.nextTaskId) && db.nextProjectId == old(db.nextProjectId)
  {
    if session.None? {
      return Threw(NotAuthenticated);
    }
    var found := GetProject(db, session, id);
    if found.Threw? {
      return Threw(found.error);
    }
    if found.value.None? || found.value.value.userId != session.value {
      return Threw(Unauthorized);
    }
    db.tasks := DetachProject(db.tasks, id);
    db.projects := db.projects - {id};
    r := Returned(true);
  }
}
