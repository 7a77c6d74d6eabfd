/**
 * The task REST endpoints behind the authentication guard: GET lists the caller's tasks,
 * optionally within a due-date range; POST validates and inserts; PUT validates a partial
 * body and updates the caller's row; DELETE removes the caller's row. Every write is
 * scoped by both the task id and the caller's user id.
 */
module TasksRoute {
  import opened Options
  import opened Schema
  import opened Http
  import ApiAuth
  import Query
  import Sorting
  import Decimal
  import ServerActions

  /** Validation of one field of the body: absent, present and of the right kind, or rejected. */
  datatype Field<T> = Absent | Valid(value: T) | Invalid

  function ToOption<T>(f: Field<T>): Option<T> {
    if f.Valid? then Some(f.value) else None
  }

  function StringField(fields: map<string, Json>, key: string): Field<string> {
    if key !in fields then Absent
    else if fields[key].JString? then Valid(fields[key].s)
    else Invalid
  }

  function NumberField(fields: map<string, Json>, key: string): Field<int> {
    if key !in fields then Absent
    else if fields[key].JNumber? then Valid(fields[key].n)
    else Invalid
  }

  function PriorityField(fields: map<string, Json>, key: string): Field<Priority> {
    if key !in fields then Absent
    else if fields[key].JString? && ParsePriority(fields[key].s).Some? then Valid(ParsePriority(fields[key].s).value)
    else Invalid
  }

  function StatusField(fields: map<string, Json>, key: string): Field<Status> {
    if key !in fields then Absent
    else if fields[key].JString? && ParseStatus(fields[key].s).Some? then Valid(ParseStatus(fields[key].s).value)
    else Invalid
  }

  /** The data `taskSchema` (or its partial form) lets through; unknown keys are dropped. */
  datatype TaskData = TaskData(title: Option<string>, description: Option<string>,
                               priority: Option<Priority>, status: Option<Status>,
                               dueDate: Option<string>, projectId: Option<int>)

  const TaskKeys: set<string> := {"title", "description", "priority", "status", "dueDate", "projectId"}

  /** `taskSchema.parse` (`partial` false) and `taskSchema.partial().parse` (`partial` true). */
  function ParseTaskData(fields: map<string, Json>, partial: bool): (r: Option<TaskData>)
    ensures r.Some? && !partial ==> r.value.title.Some? && r.value.priority.Some? && r.value.status.Some?
    ensures r.Some? && r.value.title.Some? ==> |r.value.title.value| >= 1
    ensures r.Some? ==> (r.value.title.Some? <==> "title" in fields)
    ensures r.Some? ==> (r.value.priority.Some? <==> "priority" in fields)
    ensures r.Some? ==> (r.value.status.Some? <==> "status" in fields)
    ensures r.Some? && r.value.priority.Some? ==> fields["priority"] == JString(PriorityName(r.value.priority.value))
    ensures r.Some? && r.value.status.Some? ==> fields["status"] == JString(StatusName(r.value.status.value))
    ensures "title" in fields && fields["title"] == JString("") ==> r.None?
    ensures "description" in fields && !fields["description"].JString? ==> r.None?
    ensures "dueDate" in fields && !fields["dueDate"].JString? ==> r.None?
    ensures "projectId" in fields && !fields["projectId"].JNumber? ==> r.None?
  {
    var title := StringField(fields, "title");
    var description := StringField(fields, "description");
    var priority := PriorityField(fields, "priority");
    var status := StatusField(fields, "status");
    var dueDate := StringField(fields, "dueDate");
    var projectId := NumberField(fields, "projectId");
    if title.Invalid? || (title.Valid? && |title.value| < 1) || description.Invalid? || priority.Invalid?
       || status.Invalid? || dueDate.Invalid? || projectId.Invalid? then None
    else if !partial && (title.Absent? || priority.Absent? || status.Absent?) then None
    else Some(TaskData(ToOption(title), ToOption(description), ToOption(priority), ToOption(status),
                       ToOption(dueDate), ToOption(projectId)))
  }

  /** The JSON object that carries exactly the fields a `TaskData` holds. */
  function DataToJson(d: TaskData): map<string, Json> {
    var m0: map<string, Json> := map[];
    var m1 := if d.title.Some? then m0["title" := JString(d.title.value)] else m0;
    var m2 := if d.description.Some? then m1["description" := JString(d.description.value)] else m1;
    var m3 := if d.priority.Some? then m2["priority" := JString(PriorityName(d.priority.value))] else m2;
    var m4 := if d.status.Some? then m3["status" := JString(StatusName(d.status.value))] else m3;
    var m5 := if d.dueDate.Some? then m4["dueDate" := JString(d.dueDate.value)] else m4;
    if d.projectId.Some? then m5["projectId" := JNumber(d.projectId.value)] else m5
  }

  /** Sending back what was let through is let through unchanged, by the partial schema and, when complete, by the full one. */
  lemma ParseDataToJson(d: TaskData, partial: bool)
    requires d.title.Some? ==> |d.title.value| >= 1
    requires !partial ==> d.title.Some? && d.priority.Some? && d.status.Some?
    ensures ParseTaskData(DataToJson(d), partial) == Some(d)
  {
    var m := DataToJson(d);
    assert StringField(m, "title") == if d.title.Some? then Valid(d.title.value) else Absent;
    assert StringField(m, "description") == if d.description.Some? then Valid(d.description.value) else Absent;
    assert d.priority.Some? ==> ParsePriority(PriorityName(d.priority.value)) == Some(d.priority.value) by {
      if d.priority.Some? { PriorityLiterals("", d.priority.value); }
    }
    assert d.status.Some? ==> ParseStatus(StatusName(d.status.value)) == Some(d.status.value) by {
      if d.status.Some? { StatusLiterals("", d.status.value); }
    }
    assert PriorityField(m, "priority") == if d.priority.Some? then Valid(d.priority.value) else Absent;
    assert StatusField(m, "status") == if d.status.Some? then Valid(d.status.value) else Absent;
    assert StringField(m, "dueDate") == if d.dueDate.Some? then Valid(d.dueDate.value) else Absent;
    assert NumberField(m, "projectId") == if d.projectId.Some? then Valid(d.projectId.value) else Absent;
  }

  /** Keys outside the schema, a `userId` among them, make no difference to validation. */
  lemma UnknownKeysIgnored(fields: map<string, Json>, key: string, v: Json, partial: bool)
    requires key !in TaskKeys
    ensures ParseTaskData(fields[key := v], partial) == ParseTaskData(fields, partial)
  {
    var g := fields[key := v];
    assert StringField(g, "title") == StringField(fields, "title");
    assert StringField(g, "description") == StringField(fields, "description");
    assert PriorityField(g, "priority") == PriorityField(fields, "priority");
    assert StatusField(g, "status") == StatusField(fields, "status");
    assert StringField(g, "dueDate") == StringField(fields, "dueDate");
    assert NumberField(g, "projectId") == NumberField(fields, "projectId");
  }

  /** The values POST inserts: the validated data, the caller as owner, the due date parsed or null. */
  function PostValues(d: TaskData, userId: int, parseDate: string -> Timestamp): TaskValues
    requires d.title.Some? && d.priority.Some? && d.status.Some?
  {
    TaskValues(d.title.value, d.description, d.priority, d.status, DueDateFrom(d.dueDate, parseDate),
               d.projectId, userId, None)
  }

  /**
   * Whether the store takes the data's columns: the project id is an `integer` parameter and
   * the title a `varchar(255)`, so a project id outside int4 or a longer title raises.
   */
  predicate ColumnsFit(d: TaskData) {
    (d.projectId.None? || Int4(d.projectId.value)) && (d.title.None? || FitsVarchar255(d.title.value))
  }

  /** PUT sets nothing when the data names no column and its due date is absent or empty. */
  predicate NothingToSet(d: TaskData) {
    d.title.None? && d.description.None? && d.priority.None? && d.status.None? && d.projectId.None?
    && (d.dueDate.None? || d.dueDate == Some(""))
  }

  /**
   * The row PUT writes: each column the data names is replaced, the others are kept;
   * an absent or empty due date leaves the stored one alone, and `updatedAt` is not touched.
   */
  function PutRow(t: Task, d: TaskData, parseDate: string -> Timestamp): (r: Task)
    ensures r.id == t.id && r.userId == t.userId && r.isCompleted == t.isCompleted
    ensures r.createdAt == t.createdAt && r.updatedAt == t.updatedAt
    ensures d.dueDate.None? || d.dueDate == Some("") ==> r.dueDate == t.dueDate
    ensures d.dueDate.Some? && d.dueDate != Some("") ==> r.dueDate == Some(parseDate(d.dueDate.value))
    ensures d.title.Some? ==> r.title == d.title.value
    ensures d.title.None? ==> r.title == t.title
    ensures d.description.Some? ==> r.description == d.description
    ensures d.description.None? ==> r.description == t.description
    ensures d.priority.Some? ==> r.priority == d.priority.value
    ensures d.priority.None? ==> r.priority == t.priority
    ensures d.status.Some? ==> r.status == d.status.value
    ensures d.status.None? ==> r.status == t.status
    ensures d.projectId.Some? ==> r.projectId == d.projectId
    ensures d.projectId.None? ==> r.projectId == t.projectId
    ensures NothingToSet(d) ==> r == t
  {
    t.(title := d.title.GetOr(t.title),
       description := if d.description.Some? then d.description else t.description,
       priority := d.priority.GetOr(t.priority),
       status := d.status.GetOr(t.status),
       dueDate := if d.dueDate.Some? && d.dueDate.value != "" then Some(parseDate(d.dueDate.value)) else t.dueDate,
       projectId := if d.projectId.Some? then d.projectId else t.projectId)
  }

  /**
   * The two update paths disagree: with no due date in the request, the server action
   * clears a stored due date while PUT keeps it.
   */
  lemma UpdatePathsDisagreeOnDueDate(t: Task, now: Timestamp, parseDate: string -> Timestamp)
    requires t.dueDate.Some?
    ensures ServerActions.PatchTask(t, ServerActions.UpdateTaskInput(t.id, Some("x"), None, None, None, None, None, None),
                                    now, parseDate).dueDate == None
    ensures PutRow(t, TaskData(Some("x"), None, None, None, None, None), parseDate).dueDate == t.dueDate
  {
  }

  /** GET's due-date filter applies only when both bounds are given and non-empty. */
  predicate RangeRequested(startDate: Option<string>, endDate: Option<string>) {
    startDate.Some? && startDate.value != "" && endDate.Some? && endDate.value != ""
  }

  /** `between` is inclusive at both ends and never holds for a null due date. */
  predicate Between(due: Option<Timestamp>, lo: Timestamp, hi: Timestamp) {
    due.Some? && lo <= due.value <= hi
  }

  /** Whether GET lists a row of the caller's. */
  predicate Listed(t: Task, userId: int, startDate: Option<string>, endDate: Option<string>,
                   parseDate: string -> Timestamp) {
    t.userId == userId
    && (RangeRequested(startDate, endDate) ==>
          Between(t.dueDate, parseDate(startDate.value), parseDate(endDate.value)))
  }

  /** The GET handler; `available` is false when the store raises. */
  method GetHandler(db: Database, user: ApiAuth.ApiUser, startDate: Option<string>, endDate: Option<string>,
                    parseDate: string -> Timestamp, available: bool) returns (resp: Response)
    requires db.Valid()
    ensures !available ==> resp == ServerErrorJson
    ensures available ==> resp.status == 200 && resp.body.TasksJson? && Sorting.AtMostOnce(resp.body.tasks)
    ensures available ==> forall t :: t in resp.body.tasks <==>
              Query.IsRow(db.tasks, TaskKey, t) && Listed(t, user.id, startDate, endDate, parseDate)
  {
    if !available {
      return ServerErrorJson;
    }
    var rows := Query.Select(db.tasks, TaskKey, db.nextTaskId,
                             (t: Task) => Listed(t, user.id, startDate, endDate, parseDate));
    resp := Response(200, TasksJson(rows));
  }

  /**
   * The POST handler: 500 for a body that is not JSON, 400 for a JSON value that is not an
   * object or an object the schema rejects, 500 when the store raises.
   */
  method PostHandler(db: Database, user: ApiAuth.ApiUser, body: RequestBody, now: Timestamp,
                     parseDate: string -> Timestamp, available: bool) returns (resp: Response)
    requires db.Valid()
    modifies db
    ensures db.Valid()
    ensures body.Malformed? ==> resp == ServerErrorJson && unchanged(db)
    ensures body.NullJson? || body.OtherJson? ==> resp == Response(400, ValidationErrors) && unchanged(db)
    ensures body.Object? && ParseTaskData(body.fields, false).None? ==> resp == Response(400, ValidationErrors) && unchanged(db)
    ensures (body.Object? && ParseTaskData(body.fields, false).Some? &&
             (!available || !ColumnsFit(ParseTaskData(body.fields, false).value))) ==> resp == ServerErrorJson && unchanged(db)
    ensures body.Object? && ParseTaskData(body.fields, false).Some? && available && ColumnsFit(ParseTaskData(body.fields, false).value) ==>
              && resp.status == 200 && resp.body.TaskJson?
              && resp.body.task == TaskRow(resp.body.task.id, PostValues(ParseTaskData(body.fields, false).value, user.id, parseDate), now)
              && resp.body.task.id !in old(db.tasks)
              && db.tasks == old(db.tasks)[resp.body.task.id := resp.body.task]
              && db.projects == old(db.projects) && db.users == old(db.users)
  {
    if body.Malformed? {
      return ServerErrorJson;
    }
    if !body.Object? {
      return Response(400, ValidationErrors);
    }
    var data := ParseTaskData(body.fields, false);
    if data.None? {
      return Response(400, ValidationErrors);
    }
    if !available || !ColumnsFit(data.value) {
      return ServerErrorJson;
    }
    var row := db.InsertTask(PostValues(data.value, user.id, parseDate), now);
    resp := Response(200, TaskJson(row));
  }

  /** The id PUT reads from the body, when it is truthy. */
  function BodyId(fields: map<string, Json>): Option<Json> {
    if "id" in fields && Truthy(fields["id"]) then Some(fields["id"]) else None
  }

  /**
   * The PUT handler. A `null` body cannot be destructured (500); a body that is not an object
   * has no id, and a falsy or missing id is a 400; schema errors are a 400; an id that is not
   * a number or not an int4, a project id that is not an int4, a title over 255 characters,
   * or data that sets no column,
   * is a store error (500); a row that is not the caller's, or does not exist, is a 404 and
   * nothing changes.
   */
  method PutHandler(db: Database, user: ApiAuth.ApiUser, body: RequestBody,
                    parseDate: string -> Timestamp, available: bool) returns (resp: Response)
    requires db.Valid()
    modifies db
    ensures db.Valid()
    ensures resp.status != 200 ==> unchanged(db)
    ensures body.Malformed? || body.NullJson? ==> resp == ServerErrorJson
    ensures body.OtherJson? || (body.Object? && BodyId(body.fields).None?) ==> resp == Response(400, ErrorJson("Task ID is required"))
    ensures body.Object? && BodyId(body.fields).Some? && ParseTaskData(body.fields - {"id"}, true).None? ==>
              resp == Response(400, ValidationErrors)
    ensures resp.status == 404 ==> resp.body == ErrorJson("Task not found")
    ensures resp.status == 200 <==>
              && body.Object? && available
              && BodyId(body.fields).Some? && BodyId(body.fields).value.JNumber? && Int4(BodyId(body.fields).value.n)
              && ParseTaskData(body.fields - {"id"}, true).Some?
              && !NothingToSet(ParseTaskData(body.fields - {"id"}, true).value)
              && ColumnsFit(ParseTaskData(body.fields - {"id"}, true).value)
              && var id := BodyId(body.fields).value.n;
                 id in old(db.tasks) && old(db.tasks)[id].userId == user.id
    ensures resp.status == 200 ==>
              var id := BodyId(body.fields).value.n;
              && resp.body == TaskJson(PutRow(old(db.tasks)[id], ParseTaskData(body.fields - {"id"}, true).value, parseDate))
              && db.tasks == old(db.tasks)[id := resp.body.task]
              && db.projects == old(db.projects) && db.users == old(db.users)
              && db.nextTaskId == old(db.nextTaskId) && db.nextProjectId == old(db.nextProjectId)
  {
    if body.Malformed? || body.NullJson? {
      return ServerErrorJson;
    }
    if body.OtherJson? {
      return Response(400, ErrorJson("Task ID is required"));
    }
    var id := BodyId(body.fields);
    if id.None? {
      return Response(400, ErrorJson("Task ID is required"));
    }
    var data := ParseTaskData(body.fields - {"id"}, true);
    if data.None? {
      return Response(400, ValidationErrors);
    }
    if !id.value.JNumber? || !Int4(id.value.n) || NothingToSet(data.value) || !ColumnsFit(data.value) || !available {
      return ServerErrorJson;
    }
    var key := id.value.n;
    if key in db.tasks && db.tasks[key].userId == user.id {
      var row := PutRow(db.tasks[key], data.value, parseDate);
      db.tasks := db.tasks[key := row];
      resp := Response(200, TaskJson(row));
    } else {
      resp := Response(404, ErrorJson("Task not found"));
    }
  }

  /**
   * The DELETE handler. A missing or empty `id` parameter is a 400; text with no leading
   * integer, or one outside int4, is a store error (500); the caller's row is removed and
   * returned; otherwise 404.
   */
  method DeleteHandler(db: Database, user: ApiAuth.ApiUser, idParam: Option<string>, available: bool)
    returns (resp: Response)
    requires db.Valid()
    modifies db
    ensures db.Valid()
    ensures resp.status != 200 ==> unchanged(db)
    ensures idParam.None? || idParam == Some("") ==> resp == Response(400, ErrorJson("Task ID is required"))
    ensures resp.status == 404 ==> resp.body == ErrorJson("Task not found")
    ensures resp.status == 200 <==>
              && idParam.Some? && idParam.value != "" && available
              && Decimal.ParseInt(idParam.value).Some? && Int4(Decimal.ParseInt(idParam.value).value)
              && var id := Decimal.ParseInt(idParam.value).value;
                 id in old(db.tasks) && old(db.tasks)[id].userId == user.id
    ensures resp.status == 200 ==>
              var id := Decimal.ParseInt(idParam.value).value;
              && resp.body == TaskJson(old(db.tasks)[id])
              && db.tasks == old(db.tasks) - {id}
              && db.projects == old(db.projects) && db.users == old(db.users)
              && db.nextTaskId == old(db.nextTaskId) && db.nextProjectId == old(db.nextProjectId)
  {
    if idParam.None? || idParam.value == "" {
      return Response(400, ErrorJson("Task ID is required"));
    }
    var key := Decimal.ParseInt(idParam.value);
    if key.None? || !Int4(key.value) || !available {
      return ServerErrorJson;
    }
    var id := key.value;
    if id in db.tasks && db.tasks[id].userId == user.id {
      var removed := db.tasks[id];
      db.tasks := db.tasks - {id};
      resp := Response(200, TaskJson(removed));
    } else {
      resp := Response(404, ErrorJson("Task not found"));
    }
  }

  /** `GET` as exported: the guard, then the handler. */
  method Get(db: Database, auth: ApiAuth.Resolution, startDate: Option<string>, endDate: Option<string>,
             parseDate: string -> Timestamp, available: bool) returns (resp: Response)
    requires db.Valid()
    ensures !auth.Resolved? ==> resp == ApiAuth.Guard(auth).response
    ensures auth.Resolved? && available ==> resp.status == 200 && resp.body.TasksJson?
    ensures auth.Resolved? && available ==> forall t :: t in resp.body.tasks ==>
              Query.IsRow(db.tasks, TaskKey, t) && t.userId == auth.user.id
  {
    match ApiAuth.Guard(auth)
    case Reject(r) => resp := r;
    case Admit(u) => resp := GetHandler(db, u, startDate, endDate, parseDate, available);
  }

  /** `POST` as exported. */
  method Post(db: Database, auth: ApiAuth.Resolution, body: RequestBody, now: Timestamp,
              parseDate: string -> Timestamp, available: bool) returns (resp: Response)
    requires db.Valid()
    modifies db
    ensures db.Valid()
    ensures !auth.Resolved? ==> resp == ApiAuth.Guard(auth).response && unchanged(db)
    ensures resp.status == 200 ==> auth.Resolved? && resp.body.TaskJson? && resp.body.task.userId == auth.user.id
  {
    match ApiAuth.Guard(auth)
    case Reject(r) => resp := r;
    case Admit(u) => resp := PostHandler(db, u, body, now, parseDate, available);
  }

  /** `PUT` as exported. */
  method Put(db: Database, auth: ApiAuth.Resolution, body: RequestBody,
             parseDate: string -> Timestamp, available: bool) returns (resp: Response)
    requires db.Valid()
    modifies db
    ensures db.Valid()
    ensures resp.status != 200 ==> unchanged(db)
    ensures !auth.Resolved? ==> resp == ApiAuth.Guard(auth).response
  {
    match ApiAuth.Guard(auth)
    case Reject(r) => resp := r;
    case Admit(u) => resp := PutHandler(db, u, body, parseDate, available);
  }

  /** `DELETE` as exported. */
  method Delete(db: Database, auth: ApiAuth.Resolution, idParam: Option<string>, available: bool)
    returns (resp: Response)
    requires db.Valid()
    modifies db
    ensures db.Valid()
    ensures resp.status != 200 ==> unchanged(db)
    ensures !auth.Resolved? ==> resp == ApiAuth.Guard(auth).response
  {
    match ApiAuth.Guard(auth)
    case Reject(r) => resp := r;
    case Admit(u) => resp := DeleteHandler(db, u, idParam, available);
  }
}
