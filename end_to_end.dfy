/** The proxy in front of the cloud deployment: what it shows for the
    replies of the tool Lambdas behind API Gateway, set against the local
    server. */
module EndToEnd {
  import opened Python
  import opened Format
  import opened Random
  import opened Lambda
  import opened Mcp
  import LocalServer
  import CloudProxy
  import MathAdd
  import RandomNumber

  /** The value of the first header called `name`, "" when there is none. */
  function HeaderValue(headers: seq<(string, string)>, name: string): (v: string)
    ensures |headers| > 0 && headers[0].0 == name ==> v == headers[0].1
  {
    if |headers| == 0 then ""
    else if headers[0].0 == name then headers[0].1
    else HeaderValue(headers[1..], name)
  }

  /** What the proxy sees of a Lambda handler's response passed on by API
      Gateway: its status, its content type, its body and the body's text. */
  function Gateway(r: Response): (outcome: CloudProxy.HttpOutcome)
    ensures outcome.Responded? && outcome.status == r.statusCode
    ensures r.body.Dumped? ==> outcome.decoded == Some(r.body.value)
  {
    CloudProxy.Responded(r.statusCode, HeaderValue(r.headers, "Content-Type"),
                         if r.body.Dumped? then Some(r.body.value) else None, BodyText(r.body))
  }

  /** The API Gateway event that delivers a posted JSON body to a Lambda handler. */
  function ApiEvent(body: Json): Object {
    [("body", JString(Dumps(body)))]
  }

  /** Whatever a tool handler rejects, the proxy shows its message after "Error: ". */
  lemma ProxyShowsHandlerErrors(status: int, message: string)
    requires status != 200
    ensures CloudProxy.OutcomeText(Gateway(ErrorReply(status, message))) == "Error: " + message
  {
    var members := [("error", JString(message))];
    LookupFirst(members, 0);
    assert StartsWith("application/json", "application/json");
  }

  /** The `math_add` Lambda answers a dict of two numbers with its success reply. */
  lemma AddHandlerReply(arguments: Object, loads: string -> Option<Json>)
    requires HasKey(arguments, "a") && HasKey(arguments, "b")
    requires IsNumber(Lookup(arguments, "a").value) && IsNumber(Lookup(arguments, "b").value)
    requires loads(Dumps(JObject(arguments))) == Some(JObject(arguments))
    ensures var a := Lookup(arguments, "a").value;
            var b := Lookup(arguments, "b").value;
            MathAdd.LambdaHandler(ApiEvent(JObject(arguments)), loads) == MathAdd.Success(a, b, Add(a, b).value)
  {
    var a := Lookup(arguments, "a").value;
    var b := Lookup(arguments, "b").value;
    var event := ApiEvent(JObject(arguments));
    LookupFirst(event, 0);
    assert RequestBody(event, loads) == Ok(JObject(arguments));
    assert In("a", JObject(arguments)) && In("b", JObject(arguments));
  }

  /** The proxy shows the `expression` of a `math_add` success as it is. */
  lemma ProxyShowsAddExpression(a: Json, b: Json, result: Json)
    ensures CloudProxy.OutcomeText(Gateway(MathAdd.Success(a, b, result))) == MathAdd.Expression(a, b, result)
  {
    var r := MathAdd.Success(a, b, result);
    assert Field(r, "operation").Some?;
    assert CloudProxy.SuccessText(r.body.value) == Ok(MathAdd.Expression(a, b, result));
  }

  /** The `math_add` endpoint of the cloud deployment, as the proxy's `post` reaches it. */
  function AddEndpoint(loads: string -> Option<Json>): (string, Json) -> CloudProxy.HttpOutcome {
    (url: string, body: Json) => Gateway(MathAdd.LambdaHandler(ApiEvent(body), loads))
  }

  /** The local server shows the sum of two numbers as `a + b = sum`. */
  lemma LocalAddShows(arguments: Object, rand: Stream)
    requires HasKey(arguments, "a") && HasKey(arguments, "b")
    requires IsNumber(Lookup(arguments, "a").value) && IsNumber(Lookup(arguments, "b").value)
    ensures var a := Lookup(arguments, "a").value;
            var b := Lookup(arguments, "b").value;
            LocalServer.HandleCallTool("math_add", Some(arguments), rand) == Ok(TextReply(MathAdd.Expression(a, b, Add(a, b).value)))
  {
    var a := Lookup(arguments, "a").value;
    var b := Lookup(arguments, "b").value;
    assert LocalServer.Operands(Some(arguments)) == Some((a, b));
    assert KindOf("math_add") == Some(MathAdd);
  }

  /** The proxy, posting to the `math_add` Lambda, shows the Lambda's expression. */
  lemma ProxyAddShows(baseArgument: string, arguments: Object, loads: string -> Option<Json>)
    requires HasKey(arguments, "a") && HasKey(arguments, "b")
    requires IsNumber(Lookup(arguments, "a").value) && IsNumber(Lookup(arguments, "b").value)
    requires loads(Dumps(JObject(arguments))) == Some(JObject(arguments))
    ensures var a := Lookup(arguments, "a").value;
            var b := Lookup(arguments, "b").value;
            CloudProxy.HandleCallTool(baseArgument, "math_add", Some(arguments), AddEndpoint(loads))
              == TextReply(MathAdd.Expression(a, b, Add(a, b).value))
  {
    var a := Lookup(arguments, "a").value;
    var b := Lookup(arguments, "b").value;
    AddHandlerReply(arguments, loads);
    ProxyShowsAddExpression(a, b, Add(a, b).value);
    assert "math_add" in CloudProxy.EndpointMap;
    var url := CloudProxy.StripTrailingSlashes(baseArgument) + CloudProxy.EndpointMap["math_add"];
    assert AddEndpoint(loads)(url, JObject(arguments)) == Gateway(MathAdd.LambdaHandler(ApiEvent(JObject(arguments)), loads));
  }

  /** End to end, `math_add` through the proxy and the `math_add` Lambda shows
      the same text item as the local server, when both operands are numbers
      and `json.loads` reads back what `json.dumps` wrote. */
  lemma ProxyAddMatchesLocal(baseArgument: string, arguments: Object, loads: string -> Option<Json>, rand: Stream)
    requires HasKey(arguments, "a") && HasKey(arguments, "b")
    requires IsNumber(Lookup(arguments, "a").value) && IsNumber(Lookup(arguments, "b").value)
    requires loads(Dumps(JObject(arguments))) == Some(JObject(arguments))
    ensures LocalServer.HandleCallTool("math_add", Some(arguments), rand)
              == Ok(CloudProxy.HandleCallTool(baseArgument, "math_add", Some(arguments), AddEndpoint(loads)))
  {
    LocalAddShows(arguments, rand);
    ProxyAddShows(baseArgument, arguments, loads);
  }

  /** The proxy shows "Result: " and the draw for a `get_random_number` success. */
  lemma ProxyShowsRandomResult(r: Response)
    requires r.statusCode == 200 && Field(r, "result").Some? && Field(r, "expression").None?
    ensures CloudProxy.OutcomeText(Gateway(r)) == "Result: " + Str(Field(r, "result").value)
  {
    assert CloudProxy.SuccessText(r.body.value) == Ok("Result: " + Str(Field(r, "result").value));
  }

  /** The `get_random_number` endpoint of the cloud deployment, as the proxy's `post` reaches it. */
  function RandomNumberEndpoint(loads: string -> Option<Json>, rand: Stream): (string, Json) -> CloudProxy.HttpOutcome {
    (url: string, body: Json) => Gateway(RandomNumber.LambdaHandler(ApiEvent(body), loads, rand))
  }

  /** The `get_random_number` Lambda answers a dict whose bounds form a
      non-empty range with its success reply and one draw. */
  lemma RandomNumberHandlerReply(arguments: Object, loads: string -> Option<Json>, rand: Stream)
    requires |arguments| > 0
    requires loads(Dumps(JObject(arguments))) == Some(JObject(arguments))
    requires IsNumber(LookupOr(arguments, "min", JInt(0))) && IsNumber(LookupOr(arguments, "max", JInt(100)))
    requires Num(LookupOr(arguments, "min", JInt(0))) <= Num(LookupOr(arguments, "max", JInt(100)))
    ensures var lo := LookupOr(arguments, "min", JInt(0));
            var hi := LookupOr(arguments, "max", JInt(100));
            RandomNumber.LambdaHandler(ApiEvent(JObject(arguments)), loads, rand)
              == RandomNumber.Success(lo, hi, Uniform(Num(lo), Num(hi), rand(0)))
  {
    var lo := LookupOr(arguments, "min", JInt(0));
    var hi := LookupOr(arguments, "max", JInt(100));
    var event := ApiEvent(JObject(arguments));
    LookupFirst(event, 0);
    assert RequestBody(event, loads) == Ok(JObject(arguments));
    assert RandomNumber.Bounds(event, loads) == Ok((lo, hi));
    assert RandomNumber.Handle(event, loads, rand) == Ok(RandomNumber.Success(lo, hi, Uniform(Num(lo), Num(hi), rand(0))));
  }

  /** End to end, `get_random_number` through the proxy and its Lambda shows
      "Result: " and a number in [min, max], where the local server shows
      "Random number: " and a number in the same range. */
  lemma ProxyRandomNumberShowsResult(baseArgument: string, arguments: Object, loads: string -> Option<Json>, rand: Stream)
    requires |arguments| > 0
    requires loads(Dumps(JObject(arguments))) == Some(JObject(arguments))
    requires IsNumber(LookupOr(arguments, "min", JInt(0))) && IsNumber(LookupOr(arguments, "max", JInt(100)))
    requires Num(LookupOr(arguments, "min", JInt(0))) <= Num(LookupOr(arguments, "max", JInt(100)))
    ensures var text := CloudProxy.HandleCallTool(baseArgument, "get_random_number", Some(arguments),
                                                  RandomNumberEndpoint(loads, rand))[0].text;
            ShowsNumberIn(text, "Result: ", Num(LookupOr(arguments, "min", JInt(0))), Num(LookupOr(arguments, "max", JInt(100))))
  {
    var lo := LookupOr(arguments, "min", JInt(0));
    var hi := LookupOr(arguments, "max", JInt(100));
    var x := Uniform(Num(lo), Num(hi), rand(0));
    RandomNumberHandlerReply(arguments, loads, rand);
    var r := RandomNumber.Success(lo, hi, x);
    ProxyShowsRandomResult(r);
    assert "get_random_number" in CloudProxy.EndpointMap;
    var url := CloudProxy.StripTrailingSlashes(baseArgument) + CloudProxy.EndpointMap["get_random_number"];
    assert RandomNumberEndpoint(loads, rand)(url, JObject(arguments)) == Gateway(r);
    assert CloudProxy.HandleCallTool(baseArgument, "get_random_number", Some(arguments), RandomNumberEndpoint(loads, rand))
             == TextReply("Result: " + Str(JFloat(x)));
  }
}
