/** The `math_add` Lambda handler: a presence guard, a type guard, the sum
    and its expression text. */
module MathAdd {
  import opened Python
  import opened Format
  import opened Lambda

  /** The reply's `expression`, `f"{a} + {b} = {result}"`. */
  function Expression(a: Json, b: Json, result: Json): string {
    Equation(a, "+", b, result)
  }

  /** The 200 reply: the operation's name, the operands, the sum and its expression. */
  function Success(a: Json, b: Json, result: Json): (r: Response)
    ensures r.statusCode == 200
    ensures Field(r, "operation") == Some(JString("add"))
    ensures Field(r, "a") == Some(a) && Field(r, "b") == Some(b)
    ensures Field(r, "result") == Some(result)
    ensures Field(r, "expression") == Some(JString(Expression(a, b, result)))
  {
    var fields := [("operation", JString("add")), ("a", a), ("b", b), ("result", result),
                   ("expression", JString(Expression(a, b, result)))];
    LookupFirst(fields, 1); LookupFirst(fields, 2); LookupFirst(fields, 3); LookupFirst(fields, 4);
    Reply(200, fields)
  }

  /** The body of the handler's `try` block. `in` raises on a body that is
      no container, and `body['a']` on one that is not a dict. */
  function Handle(event: Object, loads: string -> Option<Json>): Result<Response> {
    var body :- RequestBody(event, loads);
    if !IsContainer(body) then Err(TypeError)
    else if !In("a", body) || !In("b", body) then Ok(ErrorReply(400, "Both 'a' and 'b' parameters are required"))
    else if !body.JObject? then Err(TypeError)
    else
      var a := Lookup(body.members, "a").value;
      var b := Lookup(body.members, "b").value;
      if !IsNumber(a) || !IsNumber(b) then Ok(ErrorReply(400, "Both 'a' and 'b' must be numbers"))
      else Ok(Success(a, b, Add(a, b).value))
  }

  /** Whether the request is a dict that holds both operands. */
  predicate HasOperands(event: Object, loads: string -> Option<Json>) {
    var body := RequestBody(event, loads);
    body.Ok? && body.value.JObject? && HasKey(body.value.members, "a") && HasKey(body.value.members, "b")
  }

  /** `lambda_handler`: the presence guard comes before the type guard, and a
      success carries the sum and the expression that shows it. */
  function LambdaHandler(event: Object, loads: string -> Option<Json>): (r: Response)
    ensures r.statusCode == 200 || r.statusCode == 400 || r.statusCode == 500
    ensures RequestBody(event, loads).Err? ==> r == ErrorReply(400, "Invalid JSON in request body")
    ensures RequestBody(event, loads).Ok? ==>
              var body := RequestBody(event, loads).value;
              && (IsContainer(body) && !(In("a", body) && In("b", body)) ==>
                    r == ErrorReply(400, "Both 'a' and 'b' parameters are required"))
              && (!IsContainer(body) ==> r == ErrorReply(500, "Internal server error"))
              && (r.statusCode == 200 ==> HasOperands(event, loads))
    ensures HasOperands(event, loads) ==>
              var members := RequestBody(event, loads).value.members;
              var a := Lookup(members, "a").value;
              var b := Lookup(members, "b").value;
              && (!(IsNumber(a) && IsNumber(b)) ==> r == ErrorReply(400, "Both 'a' and 'b' must be numbers"))
              && (r.statusCode == 200 <==> IsNumber(a) && IsNumber(b))
              && (r.statusCode == 200 ==>
                    && Field(r, "operation") == Some(JString("add"))
                    && Field(r, "a") == Some(a) && Field(r, "b") == Some(b)
                    && Field(r, "result").Some?
                    && var result := Field(r, "result").value;
                    && IsNumber(result) && Num(result) == Num(a) + Num(b)
                    && (result.JInt? <==> IsInt(a) && IsInt(b))
                    && Field(r, "expression") == Some(JString(Expression(a, b, result))))
  {
    Catch(Handle(event, loads))
  }
}
