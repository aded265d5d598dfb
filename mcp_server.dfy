/** The cloud MCP server: one Lambda handler that speaks JSON-RPC 2.0 over
    HTTP, routes the MCP methods, and runs the seven tools itself. Failures
    become the error objects of section 5.1 of the JSON-RPC 2.0
    Specification; every reply is an HTTP 200. */
module McpServer {
  import opened Python
  import opened Format
  import opened Random
  import opened Lambda
  import opened Mcp

  /** The headers of a CORS preflight reply. */
  const CorsHeaders: seq<(string, string)> := [
    ("Access-Control-Allow-Origin", "*"),
    ("Access-Control-Allow-Methods", "POST, OPTIONS"),
    ("Access-Control-Allow-Headers", "Content-Type, Authorization")]

  /** The headers of every JSON-RPC reply. */
  const RpcHeaders: seq<(string, string)> := [("Content-Type", "application/json")] + CorsHeaders

  /** Whether a reply carries the JSON-RPC envelope: version "2.0" and an `id`. */
  predicate Envelope(r: Response) {
    Field(r, "jsonrpc") == Some(JString("2.0")) && Field(r, "id").Some?
  }

  /** The `code` and `message` of a reply's `error` object, when both are well formed. */
  function ErrorOf(r: Response): Option<(int, string)> {
    match Field(r, "error")
    case Some(JObject(e)) =>
      (match (Lookup(e, "code"), Lookup(e, "message"))
       case (Some(JInt(code)), Some(JString(message))) => Some((code, message))
       case _ => None)
    case _ => None
  }

  /** A success reply: the envelope with a `result` and no `error`. */
  predicate IsResultReply(r: Response) {
    Envelope(r) && Field(r, "result").Some? && Field(r, "error").None?
  }

  /** An error reply: the envelope with an `error` holding a code and a message, and no `result`. */
  predicate IsErrorReply(r: Response) {
    Envelope(r) && Field(r, "result").None? && ErrorOf(r).Some?
  }

  /** `create_mcp_response`: a success reply to request `id`. */
  function CreateMcpResponse(id: Json, result: Json): (r: Response)
    ensures r.statusCode == 200 && r.headers == RpcHeaders
    ensures IsResultReply(r) && !IsErrorReply(r)
    ensures Field(r, "id") == Some(id) && Field(r, "result") == Some(result)
  {
    var members := [("jsonrpc", JString("2.0")), ("id", id), ("result", result)];
    LookupFirst(members, 1); LookupFirst(members, 2);
    Response(200, RpcHeaders, Dumped(JObject(members)))
  }

  /** `create_mcp_error`: an error reply to request `id`. */
  function CreateMcpError(id: Json, code: int, message: string): (r: Response)
    ensures r.statusCode == 200 && r.headers == RpcHeaders
    ensures IsErrorReply(r) && !IsResultReply(r)
    ensures Field(r, "id") == Some(id) && ErrorOf(r) == Some((code, message))
  {
    var error := [("code", JInt(code)), ("message", JString(message))];
    LookupFirst(error, 1);
    var members := [("jsonrpc", JString("2.0")), ("id", id), ("error", JObject(error))];
    LookupFirst(members, 1); LookupFirst(members, 2);
    Response(200, RpcHeaders, Dumped(JObject(members)))
  }

  /** The `result` of `initialize`, the same whatever the client sent. */
  const InitializeResult: Json := JObject([
    ("protocolVersion", JString("2024-11-05")),
    ("capabilities", JObject([("tools", JObject([]))])),
    ("serverInfo", JObject([("name", JString("seans-tools-cloud")), ("version", JString("1.0.0"))]))])

  /** `initialize` answers protocol version 2024-11-05 and names the server
      `seans-tools-cloud`, version 1.0.0. */
  lemma InitializeAnswer()
    ensures InitializeResult.JObject?
    ensures Lookup(InitializeResult.members, "protocolVersion") == Some(JString("2024-11-05"))
    ensures Lookup(InitializeResult.members, "serverInfo").Some?
    ensures var info := Lookup(InitializeResult.members, "serverInfo").value;
            && info.JObject?
            && Lookup(info.members, "name") == Some(JString("seans-tools-cloud"))
            && Lookup(info.members, "version") == Some(JString("1.0.0"))
  {
    var info := [("name", JString("seans-tools-cloud")), ("version", JString("1.0.0"))];
    LookupFirst(info, 1);
    LookupFirst(InitializeResult.members, 2);
  }

  /** The description `list_tools` gives a tool. */
  function Description(k: ToolKind): string {
    match k
    case RandomNumber => "Generate a random number within a specified range"
    case RandomNumberList => "Generate a list of random numbers"
    case RandomChoice => "Pick random item(s) from a provided list of choices"
    case MathAdd => "Add two numbers together"
    case MathSubtract => "Subtract second number from first number"
    case MathMultiply => "Multiply two numbers together"
    case MathDivide => "Divide first number by second number"
  }

  /** The JSON Schema of a tool's arguments, as `list_tools` gives it. */
  function InputSchema(k: ToolKind): Json {
    match k
    case RandomNumber =>
      JObject([
        ("type", JString("object")),
        ("properties", JObject([
          ("min", JObject([
            ("type", JString("number")),
            ("description", JString("Minimum value (default: 0)")),
            ("default", JInt(0))])),
          ("max", JObject([
            ("type", JString("number")),
            ("description", JString("Maximum value (default: 100)")),
            ("default", JInt(100))]))])),
        ("additionalProperties", JBool(false))])
    case RandomNumberList =>
      JObject([
        ("type", JString("object")),
        ("properties", JObject([
          ("count", JObject([
            ("type", JString("integer")),
            ("description", JString("Number of random numbers to generate (default: 5)")),
            ("default", JInt(5)),
            ("minimum", JInt(1)),
            ("maximum", JInt(1000))])),
          ("min", JObject([
            ("type", JString("number")),
            ("description", JString("Minimum value for each number (default: 0)")),
            ("default", JInt(0))])),
          ("max", JObject([
            ("type", JString("number")),
            ("description", JString("Maximum value for each number (default: 100)")),
            ("default", JInt(100))]))])),
        ("additionalProperties", JBool(false))])
    case RandomChoice =>
      JObject([
        ("type", JString("object")),
        ("properties", JObject([
          ("choices", JObject([
            ("type", JString("array")),
            ("description", JString("List of items to choose from")),
            ("items", JObject([("type", JArray([JString("string"), JString("number"), JString("boolean")]))])),
            ("minItems", JInt(1))])),
          ("count", JObject([
            ("type", JString("integer")),
            ("description", JString("Number of items to select (default: 1)")),
            ("default", JInt(1)),
            ("minimum", JInt(1))])),
          ("allow_duplicates", JObject([
            ("type", JString("boolean")),
            ("description", JString("Allow selecting the same item multiple times (default: false)")),
            ("default", JBool(false))]))])),
        ("required", JArray([JString("choices")])),
        ("additionalProperties", JBool(false))])
    case MathAdd =>
      JObject([
        ("type", JString("object")),
        ("properties", JObject([
          ("a", JObject([("type", JString("number")), ("description", JString("First number"))])),
          ("b", JObject([("type", JString("number")), ("description", JString("Second number"))]))])),
        ("required", JArray([JString("a"), JString("b")])),
        ("additionalProperties", JBool(false))])
    case MathSubtract =>
      JObject([
        ("type", JString("object")),
        ("properties", JObject([
          ("a", JObject([
            ("type", JString("number")),
            ("description", JString("First number (minuend)"))])),
          ("b", JObject([
            ("type", JString("number")),
            ("description", JString("Second number (subtrahend)"))]))])),
        ("required", JArray([JString("a"), JString("b")])),
        ("additionalProperties", JBool(false))])
    case MathMultiply =>
      JObject([
        ("type", JString("object")),
        ("properties", JObject([
          ("a", JObject([("type", JString("number")), ("description", JString("First number"))])),
          ("b", JObject([("type", JString("number")), ("description", JString("Second number"))]))])),
        ("required", JArray([JString("a"), JString("b")])),
        ("additionalProperties", JBool(false))])
    case MathDivide =>
      JObject([
        ("type", JString("object")),
        ("properties", JObject([
          ("a", JObject([
            ("type", JString("number")),
            ("description", JString("Dividend (number to be divided)"))])),
          ("b", JObject([
            ("type", JString("number")),
            ("description", JString("Divisor (number to divide by)"))]))])),
        ("required", JArray([JString("a"), JString("b")])),
        ("additionalProperties", JBool(false))])
  }

  /** A tool's entry in `list_tools`: its name, description and schema. */
  function ToolEntry(k: ToolKind): Json {
    JObject([("name", JString(ToolName(k))), ("description", JString(Description(k))), ("inputSchema", InputSchema(k))])
  }

  /** `list_tools`: the registry of the seven tools, in listing order. */
  function ListTools(): Json {
    JObject([("tools", JArray(seq(|AllTools|, i requires 0 <= i < |AllTools| => ToolEntry(AllTools[i]))))])
  }

  /** `get_random_number` in `call_tool`: `min > max` raises, and a number
      drawn from [min, max] is shown otherwise. */
  function RandomNumberText(args: Object, rand: Stream): (r: Result<string>)
    ensures var lo := LookupOr(args, "min", JInt(0));
            var hi := LookupOr(args, "max", JInt(100));
            && (r.Ok? ==> IsNumber(lo) && IsNumber(hi) && Num(lo) <= Num(hi))
            && (IsNumber(lo) && IsNumber(hi) && Num(lo) > Num(hi) ==> r == Err(ValueError(RangeMessage(lo, hi))))
            && (IsNumber(lo) && IsNumber(hi) && Num(lo) <= Num(hi) ==>
                  r.Ok? && ShowsNumberIn(r.value, "Random number: ", Num(lo), Num(hi)))
            && (r.Err? ==> r.error == TypeError || r.error == ValueError(RangeMessage(lo, hi)))
  {
    var lo := LookupOr(args, "min", JInt(0));
    var hi := LookupOr(args, "max", JInt(100));
    var greater :- Gt(lo, hi);
    if greater then Err(ValueError(RangeMessage(lo, hi)))
    else
      var x :- PyUniform(lo, hi, rand(0));
      Ok("Random number: " + Str(x))
  }

  /** `get_random_number_list` in `call_tool`: the range is checked before
      the count, the count must lie in [1, 1000], and `count` draws are shown. */
  function RandomNumberListText(args: Object, rand: Stream): (r: Result<string>)
    ensures var count := LookupOr(args, "count", JInt(5));
            var lo := LookupOr(args, "min", JInt(0));
            var hi := LookupOr(args, "max", JInt(100));
            && (r.Ok? ==> IsNumber(lo) && IsNumber(hi) && Num(lo) <= Num(hi) && IsInt(count) && 1 <= IntValue(count) <= 1000)
            && (IsNumber(lo) && IsNumber(hi) && Num(lo) > Num(hi) ==> r == Err(ValueError(RangeMessage(lo, hi))))
            && (IsNumber(lo) && IsNumber(hi) && Num(lo) <= Num(hi) && IsNumber(count) && !(1.0 <= Num(count) <= 1000.0) ==>
                  r == Err(ValueError("count must be between 1 and 1000, got " + Str(count))))
            && (IsNumber(lo) && IsNumber(hi) && Num(lo) <= Num(hi) && IsInt(count) && 1 <= IntValue(count) <= 1000 ==>
                  r.Ok? && ShowsNumbersIn(r.value, "Random numbers: ", IntValue(count), Num(lo), Num(hi)))
            && (r.Err? ==> || r.error == TypeError || r.error == ValueError(RangeMessage(lo, hi))
                           || r.error == ValueError("count must be between 1 and 1000, got " + Str(count)))
  {
    var count := LookupOr(args, "count", JInt(5));
    var lo := LookupOr(args, "min", JInt(0));
    var hi := LookupOr(args, "max", JInt(100));
    var greater :- Gt(lo, hi);
    if greater then Err(ValueError(RangeMessage(lo, hi)))
    else if !IsNumber(count) then Err(TypeError)
    else if Num(count) < 1.0 || Num(count) > 1000.0 then
      Err(ValueError("count must be between 1 and 1000, got " + Str(count)))
    else
      var numbers :- PyUniformList(count, lo, hi, rand);
      Ok("Random numbers: " + Str(JArray(numbers)))
  }

  /** `get_random_choice` in `call_tool`: empty or absent choices raise, so
      does a count the choices cannot meet without repeats; one member is
      shown for a count of 1, else `count` draws or a sample. */
  function RandomChoiceText(args: Object, rand: Stream): (r: Result<string>)
    ensures var choices := LookupOr(args, "choices", JNull);
            var count := LookupOr(args, "count", JInt(1));
            var allow := LookupOr(args, "allow_duplicates", JBool(false));
            && (!Truthy(choices) ==> r == Err(ValueError("choices parameter is required and cannot be empty")))
            && (Truthy(choices) && choices.JArray? && IsInt(count) ==>
                  var n := |choices.items|;
                  && (IntValue(count) > n && !Truthy(allow) ==> r == Err(ValueError(UniqueMessage(count, n))))
                  && (IntValue(count) <= n || Truthy(allow) ==> r == ChoiceText(choices, count, allow, rand)))
            && (r.Err? ==> r.error.ValueError? || r.error == TypeError || r.error.KeyError?)
  {
    var choices := LookupOr(args, "choices", JNull);
    var count := LookupOr(args, "count", JInt(1));
    var allow := LookupOr(args, "allow_duplicates", JBool(false));
    if !Truthy(choices) then Err(ValueError("choices parameter is required and cannot be empty"))
    else
      var n :- Len(choices);
      var tooMany :- Gt(count, JInt(n));
      if tooMany && !Truthy(allow) then Err(ValueError(UniqueMessage(count, n)))
      else ChoiceText(choices, count, allow, rand)
  }

  /** The operands of a math tool, `None` when absent. */
  function Operands(args: Object): (Json, Json) {
    (LookupOr(args, "a", JNull), LookupOr(args, "b", JNull))
  }

  /** `math_add` in `call_tool`: an absent or `None` operand raises;
      otherwise the sum is shown as `a + b = sum`. */
  function MathAddText(args: Object): (r: Result<string>)
    ensures var (a, b) := Operands(args);
            && (a.JNull? || b.JNull? ==> r == Err(ValueError("Both 'a' and 'b' parameters are required")))
            && (IsNumber(a) && IsNumber(b) ==> r == Ok(Equation(a, "+", b, Add(a, b).value)))
            && (r.Err? ==> r.error == TypeError || r.error == ValueError("Both 'a' and 'b' parameters are required"))
  {
    var (a, b) := Operands(args);
    if a.JNull? || b.JNull? then Err(ValueError("Both 'a' and 'b' parameters are required"))
    else
      var result :- Add(a, b);
      Ok(Equation(a, "+", b, result))
  }

  /** `math_subtract` in `call_tool`. */
  function MathSubtractText(args: Object): (r: Result<string>)
    ensures var (a, b) := Operands(args);
            && (a.JNull? || b.JNull? ==> r == Err(ValueError("Both 'a' and 'b' parameters are required")))
            && (IsNumber(a) && IsNumber(b) ==> r == Ok(Equation(a, "-", b, Sub(a, b).value)))
            && (!a.JNull? && !b.JNull? && !(IsNumber(a) && IsNumber(b)) ==> r == Err(TypeError))
            && (r.Err? ==> r.error == TypeError || r.error == ValueError("Both 'a' and 'b' parameters are required"))
  {
    var (a, b) := Operands(args);
    if a.JNull? || b.JNull? then Err(ValueError("Both 'a' and 'b' parameters are required"))
    else
      var result :- Sub(a, b);
      Ok(Equation(a, "-", b, result))
  }

  /** The multiplication sign as `call_tool` writes it. */
  const MultiplySymbol: string := "\U{0E23}\U{0097}"

  /** The division sign as `call_tool` writes it. */
  const DivideSymbol: string := "\U{0E23}\U{0E17}"

  /** `math_multiply` in `call_tool`. */
  function MathMultiplyText(args: Object): (r: Result<string>)
    ensures var (a, b) := Operands(args);
            && (a.JNull? || b.JNull? ==> r == Err(ValueError("Both 'a' and 'b' parameters are required")))
            && (IsNumber(a) && IsNumber(b) ==> r == Ok(Equation(a, MultiplySymbol, b, Mul(a, b).value)))
            && (r.Err? ==> r.error == TypeError || r.error == ValueError("Both 'a' and 'b' parameters are required"))
  {
    var (a, b) := Operands(args);
    if a.JNull? || b.JNull? then Err(ValueError("Both 'a' and 'b' parameters are required"))
    else
      var result :- Mul(a, b);
      Ok(Equation(a, MultiplySymbol, b, result))
  }

  /** `math_divide` in `call_tool`: a divisor equal to 0 raises before any division. */
  function MathDivideText(args: Object): (r: Result<string>)
    ensures var (a, b) := Operands(args);
            && (a.JNull? || b.JNull? ==> r == Err(ValueError("Both 'a' and 'b' parameters are required")))
            && (!a.JNull? && EqualsInt(b, 0) ==> r == Err(ValueError("Division by zero is not allowed")))
            && (IsNumber(a) && IsNumber(b) && !EqualsInt(b, 0) ==>
                  r == Ok(Equation(a, DivideSymbol, b, Div(a, b).value)))
            && (r.Err? ==> || r.error == TypeError || r.error == ValueError("Both 'a' and 'b' parameters are required")
                           || r.error == ValueError("Division by zero is not allowed"))
  {
    var (a, b) := Operands(args);
    if a.JNull? || b.JNull? then Err(ValueError("Both 'a' and 'b' parameters are required"))
    else if EqualsInt(b, 0) then Err(ValueError("Division by zero is not allowed"))
    else
      var result :- Div(a, b);
      Ok(Equation(a, DivideSymbol, b, result))
  }

  /** The text a tool shows, or the exception it raises. */
  function ToolText(k: ToolKind, args: Object, rand: Stream): Result<string> {
    match k
    case RandomNumber => RandomNumberText(args, rand)
    case RandomNumberList => RandomNumberListText(args, rand)
    case RandomChoice => RandomChoiceText(args, rand)
    case MathAdd => MathAddText(args)
    case MathSubtract => MathSubtractText(args)
    case MathMultiply => MathMultiplyText(args)
    case MathDivide => MathDivideText(args)
  }

  /** A tool's result: `{'content': [{'type': 'text', 'text': text}]}`. */
  function TextResult(text: string): Json {
    JObject([("content", JArray([JObject([("type", JString("text")), ("text", JString(text))])]))])
  }

  /** `call_tool`: a name outside the seven raises "Unknown tool: {name}";
      every tool starts with `arguments.get`, which only a dict has. */
  function CallTool(name: Json, arguments: Json, rand: Stream): (r: Result<Json>)
    ensures !(name.JString? && KindOf(name.s).Some?) ==> r == Err(ValueError("Unknown tool: " + Str(name)))
    ensures name.JString? && KindOf(name.s).Some? ==>
              && (!arguments.JObject? ==> r == Err(AttributeError))
              && (arguments.JObject? ==>
                    var text := ToolText(KindOf(name.s).value, arguments.members, rand);
                    && (text.Ok? ==> r == Ok(TextResult(text.value)))
                    && (text.Err? ==> r == Err(text.error)))
    ensures r.Err? ==> r.error.ValueError? || r.error == TypeError || r.error == AttributeError || r.error.KeyError?
  {
    if name.JString? && KindOf(name.s).Some? then
      if !arguments.JObject? then Err(AttributeError)
      else
        var text :- ToolText(KindOf(name.s).value, arguments.members, rand);
        Ok(TextResult(text))
    else Err(ValueError("Unknown tool: " + Str(name)))
  }

  /** `list_tools` lists exactly the seven tools, in the order of `AllTools`. */
  lemma ListedTools()
    ensures ListTools().JObject? && |ListTools().members| == 1 && ListTools().members[0].0 == "tools"
    ensures var tools := ListTools().members[0].1;
            && tools.JArray? && |tools.items| == 7
            && forall i :: 0 <= i < 7 ==>
                 tools.items[i].JObject? && Lookup(tools.items[i].members, "name") == Some(JString(ToolName(AllTools[i])))
  {
  }

  /** Every name `list_tools` lists is one `call_tool` routes to its tool;
      every other name is the unknown-tool error. */
  lemma ListedToolsHandled(i: nat)
    requires i < 7
    ensures var tools := ListTools().members[0].1;
            var entry := Lookup(tools.items[i].members, "name").value;
            && entry.JString? && KindOf(entry.s) == Some(AllTools[i])
  {
    ListedTools();
  }

  /** The routing of a parsed message `members` that holds `method`:
      `initialize` and `tools/call` read `params` with `.get`, which raises
      when they are not a dict; an unknown method is answered, not raised. */
  function Dispatch(members: Object, rand: Stream): (r: Result<Response>)
    requires HasKey(members, "method")
    ensures r.Err? ==> r.error != JsonDecodeError
    ensures r.Ok? ==> r.value.statusCode == 200 && r.value.headers == RpcHeaders
    ensures r.Ok? ==> (r.value.body.Empty? <==> Lookup(members, "method").value == JString("initialized"))
    ensures r.Ok? ==> r.value.body.Empty? || IsResultReply(r.value) || IsErrorReply(r.value)
  {
    var rpcMethod := Lookup(members, "method").value;
    var params := LookupOr(members, "params", JObject([]));
    var id := LookupOr(members, "id", JNull);
    if rpcMethod == JString("initialize") then
      if !params.JObject? then Err(AttributeError) else Ok(CreateMcpResponse(id, InitializeResult))
    else if rpcMethod == JString("initialized") then Ok(Response(200, RpcHeaders, Empty))
    else if rpcMethod == JString("tools/list") then Ok(CreateMcpResponse(id, ListTools()))
    else if rpcMethod == JString("tools/call") then
      if !params.JObject? then Err(AttributeError)
      else
        var name := LookupOr(params.members, "name", JNull);
        var arguments := LookupOr(params.members, "arguments", JObject([]));
        var result :- CallTool(name, arguments, rand);
        Ok(CreateMcpResponse(id, result))
    else Ok(CreateMcpError(id, -32601, "Method not found: " + Str(rpcMethod)))
  }

  /** The `method` of a message, its `params` (default `{}`) and its `id` (default `None`). */
  function Method(members: Object): Json requires HasKey(members, "method") { Lookup(members, "method").value }
  function Params(members: Object): Json { LookupOr(members, "params", JObject([])) }
  function Id(members: Object): Json { LookupOr(members, "id", JNull) }

  /** `initialize` answers with the fixed server description, whatever `params` hold,
      as long as they are a dict. */
  lemma DispatchInitialize(members: Object, rand: Stream)
    requires HasKey(members, "method") && Method(members) == JString("initialize")
    ensures !Params(members).JObject? ==> Dispatch(members, rand) == Err(AttributeError)
    ensures Params(members).JObject? ==>
              var r := Dispatch(members, rand);
              && r.Ok? && IsResultReply(r.value) && Field(r.value, "id") == Some(Id(members))
              && Field(r.value, "result") == Some(InitializeResult)
  {
  }

  /** `initialized` is acknowledged with an empty body and no JSON-RPC envelope. */
  lemma DispatchInitialized(members: Object, rand: Stream)
    requires HasKey(members, "method") && Method(members) == JString("initialized")
    ensures Dispatch(members, rand) == Ok(Response(200, RpcHeaders, Empty))
  {
  }

  /** `tools/list` answers with the registry. */
  lemma DispatchToolsList(members: Object, rand: Stream)
    requires HasKey(members, "method") && Method(members) == JString("tools/list")
    ensures var r := Dispatch(members, rand);
            && r.Ok? && IsResultReply(r.value) && Field(r.value, "id") == Some(Id(members))
            && Field(r.value, "result") == Some(ListTools())
  {
  }

  /** `tools/call` answers with the tool's result, or lets its exception escape. */
  lemma DispatchToolsCall(members: Object, rand: Stream)
    requires HasKey(members, "method") && Method(members) == JString("tools/call")
    ensures !Params(members).JObject? ==> Dispatch(members, rand) == Err(AttributeError)
    ensures Params(members).JObject? ==>
              var params := Params(members).members;
              var call := CallTool(LookupOr(params, "name", JNull), LookupOr(params, "arguments", JObject([])), rand);
              var r := Dispatch(members, rand);
              && (call.Ok? ==> r.Ok? && IsResultReply(r.value) && Field(r.value, "id") == Some(Id(members))
                               && Field(r.value, "result") == Some(call.value))
              && (call.Err? ==> r == Err(call.error))
  {
  }

  /** Any other method is answered with -32601, echoing the request's id. */
  lemma DispatchUnknownMethod(members: Object, rand: Stream)
    requires HasKey(members, "method")
    requires !(Method(members) in [JString("initialize"), JString("initialized"), JString("tools/list"), JString("tools/call")])
    ensures var r := Dispatch(members, rand);
            && r.Ok? && ErrorOf(r.value) == Some((-32601, "Method not found: " + Str(Method(members))))
            && Field(r.value, "id") == Some(Id(members))
  {
  }

  /** The body of `lambda_handler`'s `try` block. `'method' in body` raises
      on a body that is no container, and `body['method']` on one that is
      not a dict. */
  function Handle(event: Object, loads: string -> Option<Json>, rand: Stream): Result<Response> {
    if Lookup(event, "httpMethod") == Some(JString("OPTIONS")) then Ok(Response(200, CorsHeaders, Empty))
    else
      var body :- RequestBody(event, loads);
      var hasMethod :- Contains(body, "method");
      if !hasMethod then Ok(CreateMcpError(JNull, -32600, "Invalid Request"))
      else if !body.JObject? then Err(TypeError)
      else Dispatch(body.members, rand)
  }

  /** Whether a request that is no preflight parsed to a dict holding `method`. */
  predicate IsCall(event: Object, loads: string -> Option<Json>) {
    && Lookup(event, "httpMethod") != Some(JString("OPTIONS"))
    && RequestBody(event, loads).Ok? && RequestBody(event, loads).value.JObject?
    && HasKey(RequestBody(event, loads).value.members, "method")
  }

  /** `lambda_handler`: a preflight gets the CORS headers and nothing else;
      every other reply is an HTTP 200 with exactly one of `result` and
      `error`, save the empty acknowledgement of `initialized`. A malformed
      body is -32700 and a body without `method` is -32600, both with a null
      id; an exception while routing is -32603, also with a null id. */
  function LambdaHandler(event: Object, loads: string -> Option<Json>, rand: Stream): (r: Response)
    ensures r.statusCode == 200
    ensures Lookup(event, "httpMethod") == Some(JString("OPTIONS")) ==> r == Response(200, CorsHeaders, Empty)
    ensures Lookup(event, "httpMethod") != Some(JString("OPTIONS")) ==>
              && r.headers == RpcHeaders
              && (r.body.Empty? || IsResultReply(r) || IsErrorReply(r))
              && (RequestBody(event, loads).Err? ==> ErrorOf(r) == Some((-32700, "Parse error")) && Field(r, "id") == Some(JNull))
              && (RequestBody(event, loads).Ok? && IsContainer(RequestBody(event, loads).value)
                  && !In("method", RequestBody(event, loads).value) ==>
                    ErrorOf(r) == Some((-32600, "Invalid Request")) && Field(r, "id") == Some(JNull))
              && (RequestBody(event, loads).Ok? && !IsContainer(RequestBody(event, loads).value) ==>
                    ErrorOf(r) == Some((-32603, "Internal error: " + Message(TypeError))) && Field(r, "id") == Some(JNull))
    ensures IsCall(event, loads) ==>
              var routed := Dispatch(RequestBody(event, loads).value.members, rand);
              && (routed.Ok? ==> r == routed.value)
              && (routed.Err? ==> ErrorOf(r) == Some((-32603, "Internal error: " + Message(routed.error)))
                                  && Field(r, "id") == Some(JNull))
  {
    match Handle(event, loads, rand)
    case Ok(resp) => resp
    case Err(JsonDecodeError) => CreateMcpError(JNull, -32700, "Parse error")
    case Err(e) => CreateMcpError(JNull, -32603, "Internal error: " + Message(e))
  }

  /** A `tools/call` naming no listed tool ends as -32603 "Internal error:
      Unknown tool: {name}" with a null id, not the request's id: the
      `ValueError` of `call_tool` escapes to the outer `except`. */
  lemma UnknownToolIsInternalError(event: Object, loads: string -> Option<Json>, rand: Stream)
    requires IsCall(event, loads)
    requires var members := RequestBody(event, loads).value.members;
             && Method(members) == JString("tools/call") && Params(members).JObject?
             && var name := LookupOr(Params(members).members, "name", JNull);
                !(name.JString? && KindOf(name.s).Some?)
    ensures var members := RequestBody(event, loads).value.members;
            var name := LookupOr(Params(members).members, "name", JNull);
            var r := LambdaHandler(event, loads, rand);
            && ErrorOf(r) == Some((-32603, "Internal error: " + ("Unknown tool: " + Str(name))))
            && Field(r, "id") == Some(JNull)
  {
    var members := RequestBody(event, loads).value.members;
    var params := Params(members).members;
    var name := LookupOr(params, "name", JNull);
    var message := "Unknown tool: " + Str(name);
    assert CallTool(name, LookupOr(params, "arguments", JObject([])), rand) == Err(ValueError(message));
    DispatchToolsCall(members, rand);
    assert Dispatch(members, rand) == Err(ValueError(message));
  }
}
