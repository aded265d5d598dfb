/** The types of the `mcp` package that the tool servers build, and the
    seven tools every front end offers. */
module Mcp {
  import opened Python
  import opened Format
  import opened Random

  /** A tool as the servers list it: its name, its description and the JSON
      Schema of its arguments. */
  datatype Tool = Tool(name: string, description: string, inputSchema: Json)

  /** One text item of a tool's reply (`TextContent(type="text", text=...)`). */
  datatype TextContent = TextContent(text: string)

  /** The seven tools, one per name the front ends route. */
  datatype ToolKind =
    | RandomNumber | RandomNumberList | RandomChoice
    | MathAdd | MathSubtract | MathMultiply | MathDivide

  /** The name under which a tool is listed and called. */
  function ToolName(k: ToolKind): string {
    match k
    case RandomNumber => "get_random_number"
    case RandomNumberList => "get_random_number_list"
    case RandomChoice => "get_random_choice"
    case MathAdd => "math_add"
    case MathSubtract => "math_subtract"
    case MathMultiply => "math_multiply"
    case MathDivide => "math_divide"
  }

  /** The tools in the order every listing gives them. */
  const AllTools: seq<ToolKind> :=
    [RandomNumber, RandomNumberList, RandomChoice, MathAdd, MathSubtract, MathMultiply, MathDivide]

  /** The tool a name designates, if any. */
  function KindOf(name: string): (k: Option<ToolKind>)
    ensures k.Some? ==> ToolName(k.value) == name
    ensures k.None? ==> forall t: ToolKind :: ToolName(t) != name
  {
    if name == "get_random_number" then Some(RandomNumber)
    else if name == "get_random_number_list" then Some(RandomNumberList)
    else if name == "get_random_choice" then Some(RandomChoice)
    else if name == "math_add" then Some(MathAdd)
    else if name == "math_subtract" then Some(MathSubtract)
    else if name == "math_multiply" then Some(MathMultiply)
    else if name == "math_divide" then Some(MathDivide)
    else None
  }

  /** Each tool is listed once, and a tool is found again from its name. */
  lemma AllToolsComplete(k: ToolKind)
    ensures k in AllTools && KindOf(ToolName(k)) == Some(k)
    ensures forall i, j :: 0 <= i < j < |AllTools| ==> ToolName(AllTools[i]) != ToolName(AllTools[j])
  {
  }

  /** The names of a listing, in order. */
  function Names(tools: seq<Tool>): (names: seq<string>)
    ensures |names| == |tools|
    ensures forall i :: 0 <= i < |tools| ==> names[i] == tools[i].name
  {
    seq(|tools|, i requires 0 <= i < |tools| => tools[i].name)
  }

  /** The names of the seven tools, in listing order. */
  function ToolNames(): (names: seq<string>)
    ensures |names| == 7
    ensures forall i :: 0 <= i < 7 ==> KindOf(names[i]) == Some(AllTools[i])
  {
    seq(|AllTools|, i requires 0 <= i < |AllTools| => ToolName(AllTools[i]))
  }

  /** A tool's reply of one text item. */
  function TextReply(text: string): (r: seq<TextContent>)
    ensures |r| == 1 && r[0].text == text
  {
    [TextContent(text)]
  }

  /** Whether `prefix` begins `s`. */
  predicate StartsWith(s: string, prefix: string) {
    |prefix| <= |s| && s[..|prefix|] == prefix
  }

  /** Whether `text` is `prefix` followed by a number drawn from [lo, hi]. */
  ghost predicate ShowsNumberIn(text: string, prefix: string, lo: real, hi: real) {
    exists x: real :: lo <= x <= hi && text == prefix + Str(JFloat(x))
  }

  /** Whether `text` is `prefix` followed by a list of `count` numbers drawn from [lo, hi]. */
  ghost predicate ShowsNumbersIn(text: string, prefix: string, count: int, lo: real, hi: real) {
    exists xs: seq<Json> ::
      && |xs| == count
      && (forall i :: 0 <= i < |xs| ==> xs[i].JFloat? && lo <= xs[i].r <= hi)
      && text == prefix + Str(JArray(xs))
  }

  /** Whether `text` is `prefix` followed by one of `items`. */
  ghost predicate ShowsOneOf(text: string, prefix: string, items: seq<Json>) {
    exists x :: x in items && text == prefix + Str(x)
  }

  /** Whether `text` is `prefix` followed by a list of `count` of `items`, repeats allowed. */
  ghost predicate ShowsDrawsFrom(text: string, prefix: string, count: int, items: seq<Json>) {
    exists xs: seq<Json> ::
      && |xs| == count
      && (forall i :: 0 <= i < |xs| ==> xs[i] in items)
      && text == prefix + Str(JArray(xs))
  }

  /** Whether `text` is `prefix` followed by a list of `count` items taken from distinct positions of `items`. */
  ghost predicate ShowsSampleOf(text: string, prefix: string, count: int, items: seq<Json>) {
    exists xs: seq<Json> :: |xs| == count && FromDistinctPositions(xs, items) && text == prefix + Str(JArray(xs))
  }

  /** The drawing step every copy of `get_random_choice` shares once the
      arguments are checked: `random.choice` for a count of one, draws with
      replacement when duplicates are allowed, `random.sample` otherwise,
      shown as "Random choice: " or "Random choices: ". */
  function ChoiceText(choices: Json, count: Json, allow: Json, rand: Stream): (r: Result<string>)
    ensures choices.JArray? && |choices.items| > 0 && IsInt(count) ==>
              var n := |choices.items|;
              && (IntValue(count) == 1 ==> r.Ok? && ShowsOneOf(r.value, "Random choice: ", choices.items))
              && (IntValue(count) != 1 && Truthy(allow) ==>
                    r.Ok? && ShowsDrawsFrom(r.value, "Random choices: ", if IntValue(count) < 0 then 0 else IntValue(count), choices.items))
              && (IntValue(count) != 1 && 0 <= IntValue(count) <= n && !Truthy(allow) ==>
                    r.Ok? && ShowsSampleOf(r.value, "Random choices: ", IntValue(count), choices.items))
              && (IntValue(count) < 0 && !Truthy(allow) ==>
                    r == Err(ValueError("Sample larger than population or is negative")))
    ensures r.Err? ==> r.error.ValueError? || r.error == TypeError || r.error.KeyError? || (r.error == IndexError && !Truthy(choices))
  {
    if EqualsInt(count, 1) then
      var x :- PyChoice(choices, rand(0));
      Ok("Random choice: " + Str(x))
    else if Truthy(allow) then
      var xs :- PyChoices(choices, count, rand);
      Ok("Random choices: " + Str(JArray(xs)))
    else
      var xs :- PySample(choices, count, rand);
      Ok("Random choices: " + Str(JArray(xs)))
  }
}
