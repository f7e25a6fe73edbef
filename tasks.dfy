/** Values shared by the server and the client: the task row as the server
    returns it, the fields of a request body, JSON values passed through
    unchanged, and the Option and Outcome wrappers. */
module Tasks {

  datatype Option<+T> = None | Some(value: T)

  /** The value of an Option, or a default when it is None (the `x || []` idiom). */
  function GetOr<T>(o: Option<T>, default: T): T {
    match o
    case Some(v) => v
    case None => default
  }

  /** The outcome of an asynchronous call: a value, or the error it was rejected with. */
  datatype Outcome<+T> = Ok(value: T) | Err(error: string)

  /** One row of the `tasks` table. `None` stands for SQL NULL. The
      `embedding` column is not part of this model. */
  datatype Task = Task(
    id: int,
    title: string,
    description: Option<string>,
    status: Option<string>,
    createdAt: int)

  /** One property of a JSON request body: missing (`undefined`), `null`, or a string. */
  datatype Field = Absent | Null | Str(s: string)

  /** JavaScript truthiness of a body property: only a non-empty string is truthy. */
  predicate Truthy(f: Field) {
    f.Str? && f.s != ""
  }

  /** The SQL value a body property is bound to: `undefined` and `null` both become NULL. */
  function Column(f: Field): Option<string> {
    match f
    case Str(s) => Some(s)
    case _ => None
  }

  /** The body of a create or update request: `{title, description, status}`. */
  datatype TaskBody = TaskBody(title: Field, description: Field, status: Field)

  /** A JSON document, as parsed from the embedding process or returned by search. */
  datatype Json =
    | JNull
    | JBool(b: bool)
    | JNumber(n: real)
    | JString(s: string)
    | JArray(items: seq<Json>)
    | JObject(members: seq<(string, Json)>)
}
