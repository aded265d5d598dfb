/** The `get_random_number` Lambda handler: defaults, a type guard, a range
    guard and one uniform draw. */
module RandomNumber {
  import opened Python
  import opened Random
  import opened Lambda

  /** The request's `min` and `max` after defaults: 0 and 100 when the body
      is empty or lacks the key. Both lookups read `body.get(...) if body
      else ...`, so a truthy body that is not a dict fails at the first. */
  function Bounds(event: Object, loads: string -> Option<Json>): (r: Result<(Json, Json)>)
    ensures RequestBody(event, loads).Err? ==> r == Err(JsonDecodeError)
    ensures RequestBody(event, loads).Ok? ==>
              var body := RequestBody(event, loads).value;
              && (!Truthy(body) ==> r == Ok((JInt(0), JInt(100))))
              && (body.JObject? ==> r == Ok((LookupOr(body.members, "min", JInt(0)),
                                              LookupOr(body.members, "max", JInt(100)))))
              && (Truthy(body) && !body.JObject? ==> r == Err(AttributeError))
  {
    var body :- RequestBody(event, loads);
    if !Truthy(body) then Ok((JInt(0), JInt(100)))
    else if !body.JObject? then Err(AttributeError)
    else Ok((LookupOr(body.members, "min", JInt(0)), LookupOr(body.members, "max", JInt(100))))
  }

  /** The 200 reply: the operation's name, the bounds as sent, and the draw. */
  function Success(lo: Json, hi: Json, x: real): (r: Response)
    ensures r.statusCode == 200
    ensures Field(r, "operation") == Some(JString("get_random_number"))
    ensures Field(r, "min") == Some(lo) && Field(r, "max") == Some(hi)
    ensures Field(r, "result") == Some(JFloat(x))
    ensures Field(r, "expression").None?
  {
    var fields := [("operation", JString("get_random_number")), ("min", lo), ("max", hi), ("result", JFloat(x))];
    LookupFirst(fields, 1); LookupFirst(fields, 2); LookupFirst(fields, 3);
    Reply(200, fields)
  }

  /** The body of the handler's `try` block. */
  function Handle(event: Object, loads: string -> Option<Json>, rand: Stream): (r: Result<Response>)
  {
    var (lo, hi) :- Bounds(event, loads);
    if !IsNumber(lo) || !IsNumber(hi) then Ok(ErrorReply(400, "Both 'min' and 'max' must be numbers"))
    else if Num(lo) > Num(hi) then Ok(ErrorReply(400, RangeMessage(lo, hi)))
    else Ok(Success(lo, hi, Uniform(Num(lo), Num(hi), rand(0))))
  }

  /** `lambda_handler`: the first failing guard decides the reply, the type
      guard coming before the range guard; only a non-empty range succeeds. */
  function LambdaHandler(event: Object, loads: string -> Option<Json>, rand: Stream): (r: Response)
    ensures r.statusCode == 200 || r.statusCode == 400 || r.statusCode == 500
    ensures Bounds(event, loads) == Err(JsonDecodeError) ==> r == ErrorReply(400, "Invalid JSON in request body")
    ensures Bounds(event, loads).Err? && Bounds(event, loads).error != JsonDecodeError ==>
              r == ErrorReply(500, "Internal server error")
    ensures Bounds(event, loads).Ok? ==>
              var (lo, hi) := Bounds(event, loads).value;
              && (!(IsNumber(lo) && IsNumber(hi)) ==> r == ErrorReply(400, "Both 'min' and 'max' must be numbers"))
              && (IsNumber(lo) && IsNumber(hi) && Num(lo) > Num(hi) ==> r == ErrorReply(400, RangeMessage(lo, hi)))
              && (r.statusCode == 200 <==> IsNumber(lo) && IsNumber(hi) && Num(lo) <= Num(hi))
    ensures r.statusCode == 200 ==>
              var (lo, hi) := Bounds(event, loads).value;
              && Field(r, "operation") == Some(JString("get_random_number"))
              && Field(r, "min") == Some(lo) && Field(r, "max") == Some(hi)
              && Field(r, "result").Some? && Field(r, "result").value.JFloat?
              && Num(lo) <= Field(r, "result").value.r <= Num(hi)
              && Field(r, "expression").None?
  {
    Catch(Handle(event, loads, rand))
  }
}
