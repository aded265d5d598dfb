/** The local MCP server that runs over stdio: the same seven tools, with
    every validation failure reported as a text item beginning "Error: "
    instead of an exception. */
module LocalServer {
  import opened Python
  import opened Format
  import opened Random
  import opened Lambda
  import opened Mcp

  /** The description `handle_list_tools` gives a tool. */
  function Description(k: ToolKind): string {
    match k
    case RandomNumber => "Generate a random number within a specified range"
    case RandomNumberList => "Generate a list of random numbers"
    case RandomChoice => "Pick random item(s) from a provided list of choices"
    case MathAdd => "Add two numbers together"
    case MathSubtract => "Subtract second number from first number"
    case MathMultiply => "Multiply two numbers together"
    case MathDivide => "Divide first number by second number"
  }

  /** The `inputSchema` `handle_list_tools` gives a tool. */
  function InputSchema(k: ToolKind): Json {
    match k
    case RandomNumber =>
      JObject([
        ("type", JString("object")),
        ("properties", JObject([
          ("min", JObject([
            ("type", JString("number")),
            ("description", JString("Minimum value (default: 0)")),
            ("default", JInt(0))])),
          ("max", JObject([
            ("type", JString("number")),
            ("description", JString("Maximum value (default: 100)")),
            ("default", JInt(100))]))])),
        ("additionalProperties", JBool(false))])
    case RandomNumberList =>
      JObject([
        ("type", JString("object")),
        ("properties", JObject([
          ("count", JObject([
            ("type", JString("integer")),
            ("description", JString("Number of random numbers to generate (default: 5)")),
            ("default", JInt(5)),
            ("minimum", JInt(1)),
            ("maximum", JInt(1000))])),
          ("min", JObject([
            ("type", JString("number")),
            ("description", JString("Minimum value for each number (default: 0)")),
            ("default", JInt(0))])),
          ("max", JObject([
            ("type", JString("number")),
            ("description", JString("Maximum value for each number (default: 100)")),
            ("default", JInt(100))]))])),
        ("additionalProperties", JBool(false))])
    case RandomChoice =>
      JObject([
        ("type", JString("object")),
        ("properties", JObject([
          ("choices", JObject([
            ("type", JString("array")),
            ("description", JString("List of items to choose from")),
            ("items", JObject([("type", JArray([JString("string"), JString("number"), JString("boolean")]))])),
            ("minItems", JInt(1))])),
          ("count", JObject([
            ("type", JString("integer")),
            ("description", JString("Number of items to select (default: 1)")),
            ("default", JInt(1)),
            ("minimum", JInt(1))])),
          ("allow_duplicates", JObject([
            ("type", JString("boolean")),
            ("description", JString("Allow selecting the same item multiple times (default: false)")),
            ("default", JBool(false))]))])),
        ("required", JArray([JString("choices")])),
        ("additionalProperties", JBool(false))])
    case MathAdd =>
      JObject([
        ("type", JString("object")),
        ("properties", JObject([
          ("a", JObject([("type", JString("number")), ("description", JString("First number"))])),
          ("b", JObject([("type", JString("number")), ("description", JString("Second number"))]))])),
        ("required", JArray([JString("a"), JString("b")])),
        ("additionalProperties", JBool(false))])
    case MathSubtract =>
      JObject([
        ("type", JString("object")),
        ("properties", JObject([
          ("a", JObject([
            ("type", JString("number")),
            ("description", JString("First number (minuend)"))])),
          ("b", JObject([
            ("type", JString("number")),
            ("description", JString("Second number (subtrahend)"))]))])),
        ("required", JArray([JString("a"), JString("b")])),
        ("additionalProperties", JBool(false))])
    case MathMultiply =>
      JObject([
        ("type", JString("object")),
        ("properties", JObject([
          ("a", JObject([("type", JString("number")), ("description", JString("First number"))])),
          ("b", JObject([("type", JString("number")), ("description", JString("Second number"))]))])),
        ("required", JArray([JString("a"), JString("b")])),
        ("additionalProperties", JBool(false))])
    case MathDivide =>
      JObject([
        ("type", JString("object")),
        ("properties", JObject([
          ("a", JObject([
            ("type", JString("number")),
            ("description", JString("Dividend (number to be divided)"))])),
          ("b", JObject([
            ("type", JString("number")),
            ("description", JString("Divisor (number to divide by)"))]))])),
        ("required", JArray([JString("a"), JString("b")])),
        ("additionalProperties", JBool(false))])
  }

  /** `handle_list_tools`: the seven tools, in listing order. */
  function HandleListTools(): (tools: seq<Tool>)
    ensures Names(tools) == ToolNames()
  {
    seq(|AllTools|, i requires 0 <= i < |AllTools| =>
      Tool(ToolName(AllTools[i]), Description(AllTools[i]), InputSchema(AllTools[i])))
  }

  /** The text of a validation failure. */
  function ErrorText(message: string): (t: string)
    ensures StartsWith(t, "Error: ")
  {
    "Error: " + message
  }

  /** `arguments.get(key, default) if arguments else default`: an absent or
      empty `arguments` gives the default. */
  function ArgOr(arguments: Option<Object>, key: string, default: Json): (v: Json)
    ensures arguments.None? || !HasKey(arguments.value, key) ==> v == default
    ensures arguments.Some? && HasKey(arguments.value, key) ==> Lookup(arguments.value, key) == Some(v)
  {
    if arguments.Some? && |arguments.value| > 0 then LookupOr(arguments.value, key, default) else default
  }

  /** `arguments and key in arguments`. */
  predicate Present(arguments: Option<Object>, key: string) {
    arguments.Some? && |arguments.value| > 0 && HasKey(arguments.value, key)
  }

  /** `get_random_number`: `min > max` is reported, and a number drawn from
      [min, max] is shown otherwise. */
  function RandomNumberText(arguments: Option<Object>, rand: Stream): (r: Result<string>)
    ensures var lo := ArgOr(arguments, "min", JInt(0));
            var hi := ArgOr(arguments, "max", JInt(100));
            && (IsNumber(lo) && IsNumber(hi) ==> r.Ok?)
            && (IsNumber(lo) && IsNumber(hi) && Num(lo) > Num(hi) ==> r == Ok(ErrorText(RangeMessage(lo, hi))))
            && (IsNumber(lo) && IsNumber(hi) && Num(lo) <= Num(hi) ==>
                  ShowsNumberIn(r.value, "Random number: ", Num(lo), Num(hi)))
            && (r.Err? ==> r.error == TypeError)
  {
    var lo := ArgOr(arguments, "min", JInt(0));
    var hi := ArgOr(arguments, "max", JInt(100));
    var greater :- Gt(lo, hi);
    if greater then Ok(ErrorText(RangeMessage(lo, hi)))
    else
      var x :- PyUniform(lo, hi, rand(0));
      Ok("Random number: " + Str(x))
  }

  /** `get_random_number_list`: the range is checked before the count, the
      count must lie in [1, 1000], and `count` draws are shown. */
  function RandomNumberListText(arguments: Option<Object>, rand: Stream): (r: Result<string>)
    ensures var count := ArgOr(arguments, "count", JInt(5));
            var lo := ArgOr(arguments, "min", JInt(0));
            var hi := ArgOr(arguments, "max", JInt(100));
            && (IsNumber(lo) && IsNumber(hi) && Num(lo) > Num(hi) ==> r == Ok(ErrorText(RangeMessage(lo, hi))))
            && (IsNumber(lo) && IsNumber(hi) && Num(lo) <= Num(hi) && IsNumber(count) && !(1.0 <= Num(count) <= 1000.0) ==>
                  r == Ok(ErrorText("count must be between 1 and 1000, got " + Str(count))))
            && (IsNumber(lo) && IsNumber(hi) && Num(lo) <= Num(hi) && IsInt(count) && 1 <= IntValue(count) <= 1000 ==>
                  r.Ok? && ShowsNumbersIn(r.value, "Random numbers: ", IntValue(count), Num(lo), Num(hi)))
            && (r.Err? ==> r.error == TypeError)
  {
    var count := ArgOr(arguments, "count", JInt(5));
    var lo := ArgOr(arguments, "min", JInt(0));
    var hi := ArgOr(arguments, "max", JInt(100));
    var greater :- Gt(lo, hi);
    if greater then Ok(ErrorText(RangeMessage(lo, hi)))
    else if !IsNumber(count) then Err(TypeError)
    else if Num(count) < 1.0 || Num(count) > 1000.0 then
      Ok(ErrorText("count must be between 1 and 1000, got " + Str(count)))
    else
      var numbers :- PyUniformList(count, lo, hi, rand);
      Ok("Random numbers: " + Str(JArray(numbers)))
  }

  /** `get_random_choice`: a missing `choices` key, then empty choices, then a
      count the choices cannot meet without repeats are reported, in that
      order; the draw is the one every copy shares. */
  function RandomChoiceText(arguments: Option<Object>, rand: Stream): (r: Result<string>)
    ensures !Present(arguments, "choices") ==> r == Ok(ErrorText("'choices' parameter is required"))
    ensures Present(arguments, "choices") ==>
              var choices := Lookup(arguments.value, "choices").value;
              var count := ArgOr(arguments, "count", JInt(1));
              var allow := ArgOr(arguments, "allow_duplicates", JBool(false));
              && (!Truthy(choices) ==> r == Ok(ErrorText("choices list cannot be empty")))
              && (Truthy(choices) && choices.JArray? && IsInt(count) ==>
                    var n := |choices.items|;
                    && (IntValue(count) > n && !Truthy(allow) ==> r == Ok(ErrorText(UniqueMessage(count, n))))
                    && (IntValue(count) <= n || Truthy(allow) ==> r == ChoiceText(choices, count, allow, rand)))
    ensures r.Err? ==> r.error.ValueError? || r.error == TypeError || r.error.KeyError?
  {
    if !Present(arguments, "choices") then Ok(ErrorText("'choices' parameter is required"))
    else
      var choices := Lookup(arguments.value, "choices").value;
      var count := ArgOr(arguments, "count", JInt(1));
      var allow := ArgOr(arguments, "allow_duplicates", JBool(false));
      if !Truthy(choices) then Ok(ErrorText("choices list cannot be empty"))
      else
        var n :- Len(choices);
        var tooMany :- Gt(count, JInt(n));
        if tooMany && !Truthy(allow) then Ok(ErrorText(UniqueMessage(count, n)))
        else ChoiceText(choices, count, allow, rand)
  }

  /** `arguments["a"]` and `arguments["b"]`, when both keys are present. */
  function Operands(arguments: Option<Object>): (ab: Option<(Json, Json)>)
    ensures ab.Some? <==> Present(arguments, "a") && Present(arguments, "b")
    ensures ab.Some? ==> Lookup(arguments.value, "a") == Some(ab.value.0) && Lookup(arguments.value, "b") == Some(ab.value.1)
  {
    if Present(arguments, "a") && Present(arguments, "b") then
      Some((Lookup(arguments.value, "a").value, Lookup(arguments.value, "b").value))
    else None
  }

  /** The text of a missing operand. */
  const OperandsRequired: string := ErrorText("Both 'a' and 'b' parameters are required")

  /** `math_add`: a missing key is reported; otherwise `a + b = sum` is shown. */
  function MathAddText(arguments: Option<Object>): (r: Result<string>)
    ensures Operands(arguments).None? ==> r == Ok(OperandsRequired)
    ensures Operands(arguments).Some? ==>
              var (a, b) := Operands(arguments).value;
              && (IsNumber(a) && IsNumber(b) ==> r == Ok(Equation(a, "+", b, Add(a, b).value)))
    ensures r.Err? ==> r.error == TypeError
  {
    match Operands(arguments)
    case None => Ok(OperandsRequired)
    case Some((a, b)) =>
      var result :- Add(a, b);
      Ok(Equation(a, "+", b, result))
  }

  /** `math_subtract`. */
  function MathSubtractText(arguments: Option<Object>): (r: Result<string>)
    ensures Operands(arguments).None? ==> r == Ok(OperandsRequired)
    ensures Operands(arguments).Some? ==>
              var (a, b) := Operands(arguments).value;
              && (r.Ok? <==> IsNumber(a) && IsNumber(b))
              && (IsNumber(a) && IsNumber(b) ==> r == Ok(Equation(a, "-", b, Sub(a, b).value)))
    ensures r.Err? ==> r.error == TypeError
  {
    match Operands(arguments)
    case None => Ok(OperandsRequired)
    case Some((a, b)) =>
      var result :- Sub(a, b);
      Ok(Equation(a, "-", b, result))
  }

  /** The multiplication sign `handle_call_tool` writes. */
  const MultiplySymbol: string := "\U{00D7}"

  /** The division sign `handle_call_tool` writes. */
  const DivideSymbol: string := "\U{00F7}"

  /** `math_multiply`. */
  function MathMultiplyText(arguments: Option<Object>): (r: Result<string>)
    ensures Operands(arguments).None? ==> r == Ok(OperandsRequired)
    ensures Operands(arguments).Some? ==>
              var (a, b) := Operands(arguments).value;
              && (IsNumber(a) && IsNumber(b) ==> r == Ok(Equation(a, MultiplySymbol, b, Mul(a, b).value)))
    ensures r.Err? ==> r.error == TypeError
  {
    match Operands(arguments)
    case None => Ok(OperandsRequired)
    case Some((a, b)) =>
      var result :- Mul(a, b);
      Ok(Equation(a, MultiplySymbol, b, result))
  }

  /** `math_divide`: a divisor equal to 0 is reported before any division. */
  function MathDivideText(arguments: Option<Object>): (r: Result<string>)
    ensures Operands(arguments).None? ==> r == Ok(OperandsRequired)
    ensures Operands(arguments).Some? ==>
              var (a, b) := Operands(arguments).value;
              && (EqualsInt(b, 0) ==> r == Ok(ErrorText("Division by zero is not allowed")))
              && (IsNumber(a) && IsNumber(b) && !EqualsInt(b, 0) ==> r == Ok(Equation(a, DivideSymbol, b, Div(a, b).value)))
    ensures r.Err? ==> r.error == TypeError
  {
    match Operands(arguments)
    case None => Ok(OperandsRequired)
    case Some((a, b)) =>
      if EqualsInt(b, 0) then Ok(ErrorText("Division by zero is not allowed"))
      else
        var result :- Div(a, b);
        Ok(Equation(a, DivideSymbol, b, result))
  }

  /** The text a tool shows, or the exception that escapes it. */
  function ToolText(k: ToolKind, arguments: Option<Object>, rand: Stream): Result<string> {
    match k
    case RandomNumber => RandomNumberText(arguments, rand)
    case RandomNumberList => RandomNumberListText(arguments, rand)
    case RandomChoice => RandomChoiceText(arguments, rand)
    case MathAdd => MathAddText(arguments)
    case MathSubtract => MathSubtractText(arguments)
    case MathMultiply => MathMultiplyText(arguments)
    case MathDivide => MathDivideText(arguments)
  }

  /** `handle_call_tool`: one text item for every name; an unknown name is
      reported without the "Error: " prefix. Only an operator applied to a
      value of the wrong type, which the tool does not check, escapes. */
  function HandleCallTool(name: string, arguments: Option<Object>, rand: Stream): (r: Result<seq<TextContent>>)
    ensures r.Ok? ==> |r.value| == 1
    ensures KindOf(name).None? ==> r == Ok(TextReply("Unknown tool: " + name))
    ensures KindOf(name).Some? ==>
              var text := ToolText(KindOf(name).value, arguments, rand);
              && (text.Ok? ==> r == Ok(TextReply(text.value)))
              && (text.Err? ==> r == Err(text.error))
    ensures r.Err? ==> r.error == TypeError || r.error.ValueError? || r.error.KeyError?
  {
    match KindOf(name)
    case None => Ok(TextReply("Unknown tool: " + name))
    case Some(k) =>
      var text :- ToolText(k, arguments, rand);
      Ok(TextReply(text))
  }

  /** Arguments of the types a tool's `inputSchema` asks for, so that no
      operator the tool applies can raise. */
  predicate WellTyped(k: ToolKind, arguments: Option<Object>) {
    match k
    case RandomNumber =>
      IsNumber(ArgOr(arguments, "min", JInt(0))) && IsNumber(ArgOr(arguments, "max", JInt(100)))
    case RandomNumberList =>
      && IsNumber(ArgOr(arguments, "min", JInt(0))) && IsNumber(ArgOr(arguments, "max", JInt(100)))
      && IsInt(ArgOr(arguments, "count", JInt(5)))
    case RandomChoice =>
      Present(arguments, "choices") ==>
        && Lookup(arguments.value, "choices").value.JArray?
        && IsInt(ArgOr(arguments, "count", JInt(1))) && IntValue(ArgOr(arguments, "count", JInt(1))) >= 0
    case _ =>
      Operands(arguments).Some? ==> IsNumber(Operands(arguments).value.0) && IsNumber(Operands(arguments).value.1)
  }

  /** Well-typed arguments never make `handle_call_tool` raise: every
      outcome, failures included, is one text item. */
  lemma WellTypedArgumentsNeverRaise(k: ToolKind, arguments: Option<Object>, rand: Stream)
    requires WellTyped(k, arguments)
    ensures HandleCallTool(ToolName(k), arguments, rand).Ok?
  {
    assert KindOf(ToolName(k)) == Some(k);
    match k
    case RandomChoice =>
      if Present(arguments, "choices") {
        var choices := Lookup(arguments.value, "choices").value;
        var count := ArgOr(arguments, "count", JInt(1));
        if Truthy(choices) && !(IntValue(count) > |choices.items| && !Truthy(ArgOr(arguments, "allow_duplicates", JBool(false)))) {
          assert RandomChoiceText(arguments, rand) == ChoiceText(choices, count, ArgOr(arguments, "allow_duplicates", JBool(false)), rand);
        }
      }
    case _ =>
  }

  /** Without arguments the random tools draw with their defaults (min 0,
      max 100, count 5) and `get_random_choice` asks for its choices. */
  lemma NoArgumentsRandom(arguments: Option<Object>, rand: Stream)
    requires arguments.None? || arguments == Some([])
    ensures var r := HandleCallTool("get_random_number", arguments, rand);
            r.Ok? && ShowsNumberIn(r.value[0].text, "Random number: ", 0.0, 100.0)
    ensures var r := HandleCallTool("get_random_number_list", arguments, rand);
            r.Ok? && ShowsNumbersIn(r.value[0].text, "Random numbers: ", 5, 0.0, 100.0)
    ensures HandleCallTool("get_random_choice", arguments, rand) == Ok(TextReply(ErrorText("'choices' parameter is required")))
  {
    assert KindOf("get_random_number") == Some(RandomNumber);
    assert KindOf("get_random_number_list") == Some(RandomNumberList);
    assert KindOf("get_random_choice") == Some(RandomChoice);
  }

  /** Without arguments every math tool asks for both operands. */
  lemma NoArgumentsMath(arguments: Option<Object>, rand: Stream)
    requires arguments.None? || arguments == Some([])
    ensures HandleCallTool("math_add", arguments, rand) == Ok(TextReply(OperandsRequired))
    ensures HandleCallTool("math_subtract", arguments, rand) == Ok(TextReply(OperandsRequired))
    ensures HandleCallTool("math_multiply", arguments, rand) == Ok(TextReply(OperandsRequired))
    ensures HandleCallTool("math_divide", arguments, rand) == Ok(TextReply(OperandsRequired))
  {
    assert KindOf("math_add") == Some(MathAdd);
    assert KindOf("math_subtract") == Some(MathSubtract);
    assert KindOf("math_multiply") == Some(MathMultiply);
    assert KindOf("math_divide") == Some(MathDivide);
  }
}
