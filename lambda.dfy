/** The HTTP envelope every Lambda handler of the cloud deployment shares:
    how a handler reads its request out of an API Gateway event, the
    response it returns, and how its `except` clauses turn an exception
    into a reply. */
module Lambda {
  import opened Python
  import opened Format

  /** A response body: the empty string, or `json.dumps(value)`. */
  datatype Body = Empty | Dumped(value: Json)

  /** The dict a Lambda handler returns: status code, headers and body. */
  datatype Response = Response(statusCode: int, headers: seq<(string, string)>, body: Body)

  /** The text of a response body as it is sent. */
  function BodyText(b: Body): string {
    match b
    case Empty => ""
    case Dumped(v) => Dumps(v)
  }

  /** The request a handler works on: `json.loads(event['body'])` when the
      event's body is a string, the body as it is otherwise, and the event
      itself when it has no body. `loads` stands for `json.loads`, `None`
      being a malformed text. */
  function RequestBody(event: Object, loads: string -> Option<Json>): (r: Result<Json>)
    ensures r.Err? <==> (match Lookup(event, "body")
                         case Some(JString(s)) => loads(s).None?
                         case _ => false)
    ensures r.Err? ==> r.error == JsonDecodeError
    ensures !HasKey(event, "body") ==> r == Ok(JObject(event))
  {
    match Lookup(event, "body")
    case None => Ok(JObject(event))
    case Some(JString(s)) =>
      (match loads(s)
       case Some(v) => Ok(v)
       case None => Err(JsonDecodeError))
    case Some(v) => Ok(v)
  }

  /** The headers of every tool handler's response. */
  const ToolHeaders: seq<(string, string)> :=
    [("Content-Type", "application/json"), ("Access-Control-Allow-Origin", "*")]

  /** A tool handler's response: `statusCode`, the JSON headers and `json.dumps(body)`. */
  function Reply(status: int, body: Object): Response {
    Response(status, ToolHeaders, Dumped(JObject(body)))
  }

  /** A tool handler's error response, whose body is `{"error": message}`. */
  function ErrorReply(status: int, message: string): Response {
    Reply(status, [("error", JString(message))])
  }

  /** The value under `key` in a response whose body is a dumped dict. */
  function Field(r: Response, key: string): Option<Json> {
    if r.body.Dumped? && r.body.value.JObject? then Lookup(r.body.value.members, key) else None
  }

  /** The `except` clauses of a tool handler: malformed JSON is the client's
      fault (400), any other exception is the server's (500). */
  function Catch(r: Result<Response>): Response {
    match r
    case Ok(resp) => resp
    case Err(JsonDecodeError) => ErrorReply(400, "Invalid JSON in request body")
    case Err(_) => ErrorReply(500, "Internal server error")
  }

  /** The message with which every copy of a random tool rejects an empty range. */
  function RangeMessage(lo: Json, hi: Json): string {
    "min value (" + Str(lo) + ") cannot be greater than max value (" + Str(hi) + ")"
  }

  /** The message with which every copy of `get_random_choice` rejects a count it cannot meet without repeats. */
  function UniqueMessage(count: Json, available: int): string {
    "cannot select " + Str(count) + " unique items from " + IntText(available)
    + " choices. Set allow_duplicates=true or reduce count."
  }
}
