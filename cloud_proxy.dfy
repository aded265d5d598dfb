/** The cloud proxy: a local MCP server over stdio that lists the seven
    tools and forwards each call to its REST endpoint, turning whatever
    comes back (a response, a timeout, a network failure) into one text item. */
module CloudProxy {
  import opened Python
  import opened Format
  import opened Mcp

  /** `API_BASE_URL = argv[1].rstrip('/')`: the longest prefix that does not end in '/'. */
  function StripTrailingSlashes(s: string): (t: string)
    ensures |t| <= |s| && t == s[..|t|]
    ensures |t| == 0 || t[|t| - 1] != '/'
    ensures forall i :: |t| <= i < |s| ==> s[i] == '/'
    decreases |s|
  {
    if |s| > 0 && s[|s| - 1] == '/' then StripTrailingSlashes(s[..|s| - 1]) else s
  }

  /** `endpoint_map`: the REST path each tool is served under. */
  const EndpointMap: map<string, string> := map[
    "get_random_number" := "/random/number",
    "get_random_number_list" := "/random/list",
    "get_random_choice" := "/random/choice",
    "math_add" := "/math/add",
    "math_subtract" := "/math/subtract",
    "math_multiply" := "/math/multiply",
    "math_divide" := "/math/divide"]

  /** `f"{API_BASE_URL}{endpoint}"`, the URL a call to a mapped tool is posted to. */
  function Url(baseArgument: string, name: string): (url: string)
    requires name in EndpointMap
    ensures var base := StripTrailingSlashes(baseArgument);
            && url == base + EndpointMap[name]
            && url[|base|] == '/' && (|base| == 0 || url[|base| - 1] != '/')
  {
    var base := StripTrailingSlashes(baseArgument);
    assert EndpointMap[name][0] == '/';
    base + EndpointMap[name]
  }

  /** `arguments or {}`, the JSON body of the request: absent arguments are sent as `{}`. */
  function RequestJson(arguments: Option<Object>): (v: Json)
    ensures v == JObject(if arguments.Some? then arguments.value else [])
  {
    if arguments.Some? && |arguments.value| > 0 then JObject(arguments.value) else JObject([])
  }

  /** How the POST ends, as far as the proxy can see: a response (status,
      `content-type` header or "" when absent, what `response.json()` decodes
      or `None` when the text is no JSON, and the text), a timeout, another
      `httpx.RequestError`, or any other exception, with its message. */
  datatype HttpOutcome =
    | Responded(status: int, contentType: string, decoded: Option<Json>, text: string)
    | TimedOut
    | RequestFailed(message: string)
    | Raised(message: string)

  /** `response.json()`. */
  function ResponseJson(decoded: Option<Json>): (r: Result<Json>)
    ensures r.Ok? <==> decoded.Some?
    ensures r.Ok? ==> r.value == decoded.value
    ensures r.Err? ==> r.error == JsonDecodeError
  {
    match decoded
    case Some(v) => Ok(v)
    case None => Err(JsonDecodeError)
  }

  /** The text `TextContent` refuses when it is not a string, a `ValueError`
      subclass in pydantic. */
  const TextNotAString: string := "1 validation error for TextContent"

  /** The text of a 200 reply: the `expression` as it is, else
      `"Result: {result}"`, else `"Success: " + json.dumps(body)`. */
  function SuccessText(body: Json): (r: Result<string>)
    ensures body.JObject? ==>
              var m := body.members;
              && (HasKey(m, "expression") && Lookup(m, "expression").value.JString? ==>
                    r == Ok(Lookup(m, "expression").value.s))
              && (HasKey(m, "expression") && !Lookup(m, "expression").value.JString? ==>
                    r == Err(ValueError(TextNotAString)))
              && (!HasKey(m, "expression") && HasKey(m, "result") ==>
                    r == Ok("Result: " + Str(Lookup(m, "result").value)))
              && (!HasKey(m, "expression") && !HasKey(m, "result") ==>
                    r == Ok("Success: " + Dumps(body)))
    ensures !IsContainer(body) ==> r == Err(TypeError)
  {
    if !IsContainer(body) then Err(TypeError)
    else if In("expression", body) then
      var expression :- Index(body, "expression");
      if expression.JString? then Ok(expression.s) else Err(ValueError(TextNotAString))
    else if In("result", body) then
      var result :- Index(body, "result");
      Ok("Result: " + Str(result))
    else Ok("Success: " + Dumps(body))
  }

  /** The text of any other status: the decoded body when the content type is
      JSON, else `{"error": text}`, shown as `"Error: {error}"` with
      'Unknown error' when the body has no `error`. */
  function FailureText(contentType: string, decoded: Option<Json>, text: string): (r: Result<string>)
    ensures !StartsWith(contentType, "application/json") ==> r == Ok("Error: " + text)
    ensures StartsWith(contentType, "application/json") ==>
              && (decoded.None? ==> r == Err(JsonDecodeError))
              && (decoded.Some? && decoded.value.JObject? ==>
                    r == Ok("Error: " + Str(LookupOr(decoded.value.members, "error", JString("Unknown error")))))
              && (decoded.Some? && !decoded.value.JObject? ==> r == Err(AttributeError))
  {
    var data :- if StartsWith(contentType, "application/json") then ResponseJson(decoded)
                else Ok(JObject([("error", JString(text))]));
    LookupFirst([("error", JString(text))], 0);
    var error :- Get(data, "error", JString("Unknown error"));
    Ok("Error: " + Str(error))
  }

  /** The one text the proxy shows for an outcome: every exception raised
      while reading the response is caught and shown after "Error: ". */
  function OutcomeText(outcome: HttpOutcome): (text: string)
    ensures outcome.TimedOut? ==> text == "Error: Request timed out"
    ensures outcome.RequestFailed? ==> text == "Error: Network request failed - " + outcome.message
    ensures outcome.Raised? ==> text == "Error: " + outcome.message
    ensures outcome.Responded? && outcome.status == 200 ==>
              match ResponseJson(outcome.decoded)
              case Err(e) => text == "Error: " + Message(e)
              case Ok(body) =>
                match SuccessText(body)
                case Ok(t) => text == t
                case Err(e) => text == "Error: " + Message(e)
    ensures outcome.Responded? && outcome.status != 200 ==>
              match FailureText(outcome.contentType, outcome.decoded, outcome.text)
              case Ok(t) => text == t
              case Err(e) => text == "Error: " + Message(e)
  {
    match outcome
    case TimedOut => "Error: Request timed out"
    case RequestFailed(message) => "Error: Network request failed - " + message
    case Raised(message) => "Error: " + message
    case Responded(status, contentType, decoded, text) =>
      var r := if status == 200 then (match ResponseJson(decoded)
                                      case Ok(body) => SuccessText(body)
                                      case Err(e) => Err(e))
               else FailureText(contentType, decoded, text);
      match r
      case Ok(t) => t
      case Err(e) => "Error: " + Message(e)
  }

  /** The description `handle_list_tools` gives a tool. */
  function Description(k: ToolKind): string {
    match k
    case RandomNumber => "Generate a random number within a specified range (Cloud)"
    case RandomNumberList => "Generate a list of random numbers (Cloud)"
    case RandomChoice => "Pick random item(s) from a provided list of choices (Cloud)"
    case MathAdd => "Add two numbers together (Cloud)"
    case MathSubtract => "Subtract second number from first number (Cloud)"
    case MathMultiply => "Multiply two numbers together (Cloud)"
    case MathDivide => "Divide first number by second number (Cloud)"
  }

  /** The `inputSchema` `handle_list_tools` gives a tool. */
  function InputSchema(k: ToolKind): Json {
    match k
    case RandomNumber =>
      JObject([
        ("type", JString("object")),
        ("properties", JObject([
          ("min", JObject([
            ("type", JString("number")),
            ("description", JString("Minimum value (default: 0)")),
            ("default", JInt(0))])),
          ("max", JObject([
            ("type", JString("number")),
            ("description", JString("Maximum value (default: 100)")),
            ("default", JInt(100))]))])),
        ("additionalProperties", JBool(false))])
    case RandomNumberList =>
      JObject([
        ("type", JString("object")),
        ("properties", JObject([
          ("count", JObject([
            ("type", JString("integer")),
            ("description", JString("Number of random numbers to generate (default: 5)")),
            ("default", JInt(5)),
            ("minimum", JInt(1)),
            ("maximum", JInt(1000))])),
          ("min", JObject([
            ("type", JString("number")),
            ("description", JString("Minimum value for each number (default: 0)")),
            ("default", JInt(0))])),
          ("max", JObject([
            ("type", JString("number")),
            ("description", JString("Maximum value for each number (default: 100)")),
            ("default", JInt(100))]))])),
        ("additionalProperties", JBool(false))])
    case RandomChoice =>
      JObject([
        ("type", JString("object")),
        ("properties", JObject([
          ("choices", JObject([
            ("type", JString("array")),
            ("description", JString("List of items to choose from")),
            ("items", JObject([("type", JArray([JString("string"), JString("number"), JString("boolean")]))])),
            ("minItems", JInt(1))])),
          ("count", JObject([
            ("type", JString("integer")),
            ("description", JString("Number of items to select (default: 1)")),
            ("default", JInt(1)),
            ("minimum", JInt(1))])),
          ("allow_duplicates", JObject([
            ("type", JString("boolean")),
            ("description", JString("Allow selecting the same item multiple times (default: false)")),
            ("default", JBool(false))]))])),
        ("required", JArray([JString("choices")])),
        ("additionalProperties", JBool(false))])
    case MathAdd =>
      JObject([
        ("type", JString("object")),
        ("properties", JObject([
          ("a", JObject([("type", JString("number")), ("description", JString("First number"))])),
          ("b", JObject([("type", JString("number")), ("description", JString("Second number"))]))])),
        ("required", JArray([JString("a"), JString("b")])),
        ("additionalProperties", JBool(false))])
    case MathSubtract =>
      JObject([
        ("type", JString("object")),
        ("properties", JObject([
          ("a", JObject([
            ("type", JString("number")),
            ("description", JString("First number (minuend)"))])),
          ("b", JObject([
            ("type", JString("number")),
            ("description", JString("Second number (subtrahend)"))]))])),
        ("required", JArray([JString("a"), JString("b")])),
        ("additionalProperties", JBool(false))])
    case MathMultiply =>
      JObject([
        ("type", JString("object")),
        ("properties", JObject([
          ("a", JObject([("type", JString("number")), ("description", JString("First number"))])),
          ("b", JObject([("type", JString("number")), ("description", JString("Second number"))]))])),
        ("required", JArray([JString("a"), JString("b")])),
        ("additionalProperties", JBool(false))])
    case MathDivide =>
      JObject([
        ("type", JString("object")),
        ("properties", JObject([
          ("a", JObject([
            ("type", JString("number")),
            ("description", JString("Dividend (number to be divided)"))])),
          ("b", JObject([
            ("type", JString("number")),
            ("description", JString("Divisor (number to divide by)"))]))])),
        ("required", JArray([JString("a"), JString("b")])),
        ("additionalProperties", JBool(false))])
  }

  /** `handle_list_tools`: the seven tools, in listing order. */
  function HandleListTools(): (tools: seq<Tool>)
    ensures Names(tools) == ToolNames()
  {
    seq(|AllTools|, i requires 0 <= i < |AllTools| =>
      Tool(ToolName(AllTools[i]), Description(AllTools[i]), InputSchema(AllTools[i])))
  }

  /** `handle_call_tool`: a name outside `endpoint_map` is answered without
      any request; any other is posted, with `arguments or {}` as its body,
      to the tool's URL, and whatever happens becomes one text item.
      `post` stands for the HTTP exchange. */
  function HandleCallTool(baseArgument: string, name: string, arguments: Option<Object>,
                          post: (string, Json) -> HttpOutcome): (r: seq<TextContent>)
    ensures |r| == 1
    ensures name !in EndpointMap ==> r == TextReply("Unknown tool: " + name)
    ensures name in EndpointMap ==>
              r == TextReply(OutcomeText(post(StripTrailingSlashes(baseArgument) + EndpointMap[name],
                                              JObject(if arguments.Some? then arguments.value else []))))
  {
    if name !in EndpointMap then TextReply("Unknown tool: " + name)
    else TextReply(OutcomeText(post(Url(baseArgument, name), RequestJson(arguments))))
  }
}
