/**
 * The HTTP vocabulary of the REST handlers: JSON values of a request body,
 * and responses as a status code with a body.
 */
module Http {
  import Schema

  /** A JSON value; the contents of arrays and objects are not needed by any handler. */
  datatype Json = JString(s: string) | JNumber(n: int) | JBool(b: bool) | JNull | JArray | JObject

  /** JavaScript truthiness of a JSON value. */
  function Truthy(j: Json): (t: bool)
    ensures j.JNull? ==> !t
    ensures j.JArray? || j.JObject? ==> t
    ensures j.JString? ==> (t <==> j.s != "")
    ensures j.JNumber? ==> (t <==> j.n != 0)
    ensures j.JBool? ==> t == j.b
  {
    match j
    case JString(s) => s != ""
    case JNumber(n) => n != 0
    case JBool(b) => b
    case JNull => false
    case JArray => true
    case JObject => true
  }

  /**
   * A request body: text that is not JSON, the JSON `null`, another JSON value that is
   * not an object (an array, a string, a number or a boolean), or a JSON object.
   */
  datatype RequestBody = Malformed | NullJson | OtherJson | Object(fields: map<string, Json>)

  /** PostgreSQL's `integer` (int4): the range the id columns accept as a parameter. */
  predicate Int4(n: int) {
    -0x8000_0000 <= n < 0x8000_0000
  }

  /** PostgreSQL's `varchar(255)`, the type of a task's title and a project's name. */
  predicate FitsVarchar255(s: string) {
    |s| <= 255
  }

  datatype Body =
    | ErrorJson(error: string)
    | ValidationErrors
    | TaskJson(task: Schema.Task)
    | TasksJson(tasks: seq<Schema.Task>)
    | ProjectJson(project: Schema.Project)
    | ProjectsJson(projects: seq<Schema.Project>)
    | PlainText(text: string)

  datatype Response = Response(status: int, body: Body)

  const InternalServerError := "Internal Server Error"

  /** `{ error: 'Internal Server Error' }` with status 500. */
  const ServerErrorJson := Response(500, ErrorJson(InternalServerError))
}
