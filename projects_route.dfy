/**
 * The project REST endpoints. They resolve the signed-in user themselves and answer
 * 401 with a plain-text body before reading the request or the table.
 */
module ProjectsRoute {
  import opened Options
  import opened Schema
  import opened Http
  import ApiAuth
  import Query
  import Sorting

  /** The data `createProjectSchema` lets through. */
  datatype ProjectData = ProjectData(name: string, description: Option<string>)

  function ParseProjectData(fields: map<string, Json>): (r: Option<ProjectData>)
    ensures r.Some? <==>
              && "name" in fields && fields["name"].JString? && |fields["name"].s| >= 1
              && ("description" in fields ==> fields["description"].JString?)
    ensures r.Some? ==> r.value.name == fields["name"].s
    ensures r.Some? ==> (r.value.description.Some? <==> "description" in fields)
    ensures r.Some? && r.value.description.Some? ==> fields["description"] == JString(r.value.description.value)
  {
    if "name" !in fields || !fields["name"].JString? || |fields["name"].s| < 1 then None
    else if "description" !in fields then Some(ProjectData(fields["name"].s, None))
    else if fields["description"].JString? then Some(ProjectData(fields["name"].s, Some(fields["description"].s)))
    else None
  }

  const UnauthorizedText := Response(401, PlainText("Unauthorized"))
  const ServerErrorText := Response(500, PlainText(InternalServerError))

  /**
   * `POST`; the body and the insert may each raise, which is a 500 (a name longer than the
   * column's 255 characters makes the insert raise), and a body that is not a JSON object
   * fails the schema (400).
   */
  method Post(db: Database, auth: ApiAuth.Resolution, body: RequestBody, now: Timestamp, available: bool)
    returns (resp: Response)
    requires db.Valid()
    modifies db
    ensures db.Valid()
    ensures resp.status != 200 ==> unchanged(db)
    ensures auth.NoUser? ==> resp == UnauthorizedText
    ensures auth.ResolveFailed? ==> resp == ServerErrorText
    ensures auth.Resolved? && body.Malformed? ==> resp == ServerErrorText
    ensures auth.Resolved? && (body.NullJson? || body.OtherJson?) ==> resp == Response(400, ValidationErrors)
    ensures auth.Resolved? && body.Object? && ParseProjectData(body.fields).None? ==> resp == Response(400, ValidationErrors)
    ensures (auth.Resolved? && body.Object? && ParseProjectData(body.fields).Some? &&
             !FitsVarchar255(ParseProjectData(body.fields).value.name)) ==> resp == ServerErrorText
    ensures resp.status == 200 <==>
              && auth.Resolved? && body.Object? && ParseProjectData(body.fields).Some? && available
              && FitsVarchar255(ParseProjectData(body.fields).value.name)
    ensures resp.status == 200 ==>
              var data := ParseProjectData(body.fields).value;
              && resp.body.ProjectJson? && resp.body.project.id !in old(db.projects)
              && resp.body.project == Project(resp.body.project.id, data.name, data.description, auth.user.id, now, now)
              && db.projects == old(db.projects)[resp.body.project.id := resp.body.project]
              && db.tasks == old(db.tasks) && db.users == old(db.users)
  {
    match auth
    case NoUser => return UnauthorizedText;
    case ResolveFailed => return ServerErrorText;
    case Resolved(user) =>
      if body.Malformed? {
        return ServerErrorText;
      }
      if !body.Object? {
        return Response(400, ValidationErrors);
      }
      var data := ParseProjectData(body.fields);
      if data.None? {
        return Response(400, ValidationErrors);
      }
      if !available || !FitsVarchar255(data.value.name) {
        return ServerErrorText;
      }
      var row := db.InsertProject(ProjectValues(data.value.name, data.value.description, user.id), now);
      resp := Response(200, ProjectJson(row));
  }

  /** `GET`: exactly the caller's projects, each once. */
  method Get(db: Database, auth: ApiAuth.Resolution, available: bool) returns (resp: Response)
    requires db.Valid()
    ensures auth.NoUser? ==> resp == UnauthorizedText
    ensures auth.ResolveFailed? || (auth.Resolved? && !available) ==> resp == ServerErrorText
    ensures auth.Resolved? && available ==> resp.status == 200 && resp.body.ProjectsJson? && Sorting.AtMostOnce(resp.body.projects)
    ensures auth.Resolved? && available ==> forall p :: p in resp.body.projects <==>
              Query.IsRow(db.projects, ProjectKey, p) && p.userId == auth.user.id
  {
    match auth
    case NoUser => return UnauthorizedText;
    case ResolveFailed => return ServerErrorText;
    case Resolved(user) =>
      if !available {
        return ServerErrorText;
      }
      var rows := Query.Select(db.projects, ProjectKey, db.nextProjectId, (p: Project) => p.userId == user.id);
      resp := Response(200, ProjectsJson(rows));
  }
}
