/**
 * The relational schema: the priority and status enums, the users, projects and tasks
 * tables with their nullable columns and column defaults, and the in-memory database
 * holding the three tables.
 */
module Schema {
  import opened Options
  import Query
  import Sorting

  datatype Priority = Low | Medium | High
  datatype Status = Pending | InProgress | Completed

  /** Column defaults of the tasks table. */
  const DefaultPriority: Priority := Medium
  const DefaultStatus: Status := Pending
  const DefaultIsCompleted: bool := false

  /** The enum literals as stored. */
  function PriorityName(p: Priority): string {
    match p
    case Low => "low"
    case Medium => "medium"
    case High => "high"
  }

  function StatusName(s: Status): string {
    match s
    case Pending => "pending"
    case InProgress => "in_progress"
    case Completed => "completed"
  }

  /** Reading a stored literal back; `None` for a string outside the enum. */
  function ParsePriority(s: string): Option<Priority> {
    if s == "low" then Some(Low)
    else if s == "medium" then Some(Medium)
    else if s == "high" then Some(High)
    else None
  }

  function ParseStatus(s: string): Option<Status> {
    if s == "pending" then Some(Pending)
    else if s == "in_progress" then Some(InProgress)
    else if s == "completed" then Some(Completed)
    else None
  }

  /** The priority enum's domain is exactly its three literals. */
  lemma PriorityLiterals(s: string, p: Priority)
    ensures ParsePriority(PriorityName(p)) == Some(p)
    ensures ParsePriority(s) == Some(p) <==> s == PriorityName(p)
  {
  }

  /** The status enum's domain is exactly its three literals. */
  lemma StatusLiterals(s: string, st: Status)
    ensures ParseStatus(StatusName(st)) == Some(st)
    ensures ParseStatus(s) == Some(st) <==> s == StatusName(st)
  {
  }

  /** Timestamps are milliseconds since the epoch. */
  type Timestamp = int

  datatype User = User(id: int, email: string, name: string, password: string,
                       createdAt: Timestamp, updatedAt: Timestamp)

  datatype Project = Project(id: int, name: string, description: Option<string>, userId: int,
                             createdAt: Timestamp, updatedAt: Timestamp)

  datatype Task = Task(id: int, title: string, description: Option<string>,
                       priority: Priority, status: Status, dueDate: Option<Timestamp>,
                       projectId: Option<int>, userId: int, isCompleted: bool,
                       createdAt: Timestamp, updatedAt: Timestamp)

  /** The values of an insert into the tasks table; an absent value takes the column default. */
  datatype TaskValues = TaskValues(title: string, description: Option<string>,
                                   priority: Option<Priority>, status: Option<Status>,
                                   dueDate: Option<Timestamp>, projectId: Option<int>,
                                   userId: int, isCompleted: Option<bool>)

  datatype ProjectValues = ProjectValues(name: string, description: Option<string>, userId: int)

  /** The row an insert stores under serial key `id` at time `now`. */
  function TaskRow(id: int, v: TaskValues, now: Timestamp): Task {
    Task(id, v.title, v.description, v.priority.GetOr(DefaultPriority), v.status.GetOr(DefaultStatus),
         v.dueDate, v.projectId, v.userId, v.isCompleted.GetOr(DefaultIsCompleted), now, now)
  }

  function ProjectRow(id: int, v: ProjectValues, now: Timestamp): Project {
    Project(id, v.name, v.description, v.userId, now, now)
  }

  /** An insert that names no priority, status or completion flag gets medium, pending, false, and two equal timestamps. */
  lemma OmittedColumnsTakeDefaults(id: int, v: TaskValues, now: Timestamp)
    requires v.priority.None? && v.status.None? && v.isCompleted.None?
    ensures var t := TaskRow(id, v, now);
      t.priority == Medium && t.status == Pending && !t.isCompleted && t.createdAt == t.updatedAt == now
  {
  }

  /** JavaScript's `text ? new Date(text) : null`: an absent or empty string gives no date. */
  function DueDateFrom(text: Option<string>, parseDate: string -> Timestamp): (d: Option<Timestamp>)
    ensures d.None? <==> text.None? || text.value == ""
    ensures d.Some? ==> d.value == parseDate(text.value)
  {
    if text.Some? && text.value != "" then Some(parseDate(text.value)) else None
  }

  function TaskKey(t: Task): int { t.id }
  function ProjectKey(p: Project): int { p.id }

  /** `orderBy: createdAt`. */
  function ByCreatedAt(a: Task, b: Task): int { a.createdAt - b.createdAt }
  function ProjectsByCreatedAt(a: Project, b: Project): int { a.createdAt - b.createdAt }

  lemma CreatedAtOrders()
    ensures Sorting.TotalPreorder(ByCreatedAt)
    ensures Sorting.TotalPreorder(ProjectsByCreatedAt)
  {
  }

  /** No two users share an email (the unique constraint). */
  ghost predicate UniqueEmails(users: map<int, User>) {
    forall a, b :: a in users && b in users && a != b ==> users[a].email != users[b].email
  }

  /** The three tables, each keyed by its serial primary key. */
  class Database {
    var users: map<int, User>
    var projects: map<int, Project>
    var tasks: map<int, Task>
    var nextProjectId: int
    var nextTaskId: int

    ghost predicate Valid()
      reads this
    {
      && (forall k :: k in users ==> users[k].id == k)
      && UniqueEmails(users)
      && Query.KeyedTable(projects, ProjectKey, nextProjectId)
      && Query.KeyedTable(tasks, TaskKey, nextTaskId)
      && 1 <= nextProjectId && 1 <= nextTaskId
    }

    constructor (users: map<int, User>)
      requires forall k :: k in users ==> users[k].id == k
      requires UniqueEmails(users)
      ensures Valid()
      ensures this.users == users && projects == map[] && tasks == map[]
    {
      this.users := users;
      projects := map[];
      tasks := map[];
      nextProjectId := 1;
      nextTaskId := 1;
    }

    /** `insert(tasks).values(v).returning()`: a fresh serial key, the row stored under it. */
    method InsertTask(v: TaskValues, now: Timestamp) returns (row: Task)
      requires Valid()
      modifies this
      ensures Valid()
      ensures row == TaskRow(old(nextTaskId), v, now) && row.id !in old(tasks)
      ensures tasks == old(tasks)[row.id := row]
      ensures projects == old(projects) && users == old(users) && nextProjectId == old(nextProjectId)
    {
      row := TaskRow(nextTaskId, v, now);
      tasks := tasks[row.id := row];
      nextTaskId := nextTaskId + 1;
    }

    method InsertProject(v: ProjectValues, now: Timestamp) returns (row: Project)
      requires Valid()
      modifies this
      ensures Valid()
      ensures row == ProjectRow(old(nextProjectId), v, now) && row.id !in old(projects)
      ensures projects == old(projects)[row.id := row]
      ensures tasks == old(tasks) && users == old(users) && nextTaskId == old(nextTaskId)
    {
      row := ProjectRow(nextProjectId, v, now);
      projects := projects[row.id := row];
      nextProjectId := nextProjectId + 1;
    }
  }
}
