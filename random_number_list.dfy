/** The `get_random_number_list` Lambda handler: defaults, a count guard,
    a type guard, a range guard and `count` uniform draws. */
module RandomNumberList {
  import opened Python
  import opened Random
  import opened Lambda

  /** The request's `count`, `min` and `max` after defaults (5, 0 and 100).
      All three read `body.get(...) if body else ...`, so a truthy body that
      is not a dict fails at the first. */
  function Params(event: Object, loads: string -> Option<Json>): (r: Result<(Json, Json, Json)>)
    ensures RequestBody(event, loads).Err? ==> r == Err(JsonDecodeError)
    ensures RequestBody(event, loads).Ok? ==>
              var body := RequestBody(event, loads).value;
              && (!Truthy(body) ==> r == Ok((JInt(5), JInt(0), JInt(100))))
              && (body.JObject? ==> r == Ok((LookupOr(body.members, "count", JInt(5)),
                                              LookupOr(body.members, "min", JInt(0)),
                                              LookupOr(body.members, "max", JInt(100)))))
              && (Truthy(body) && !body.JObject? ==> r == Err(AttributeError))
  {
    var body :- RequestBody(event, loads);
    if !Truthy(body) then Ok((JInt(5), JInt(0), JInt(100)))
    else if !body.JObject? then Err(AttributeError)
    else Ok((LookupOr(body.members, "count", JInt(5)),
             LookupOr(body.members, "min", JInt(0)),
             LookupOr(body.members, "max", JInt(100))))
  }

  /** `isinstance(count, int) and 1 <= count <= 1000`. */
  predicate CountInRange(count: Json) {
    IsInt(count) && 1 <= IntValue(count) <= 1000
  }

  /** The 200 reply: the operation's name, the parameters as sent, and the draws. */
  function Success(count: Json, lo: Json, hi: Json, numbers: seq<Json>): (r: Response)
    ensures r.statusCode == 200
    ensures Field(r, "operation") == Some(JString("get_random_number_list"))
    ensures Field(r, "count") == Some(count)
    ensures Field(r, "min") == Some(lo) && Field(r, "max") == Some(hi)
    ensures Field(r, "result") == Some(JArray(numbers))
  {
    var fields := [("operation", JString("get_random_number_list")), ("count", count),
                   ("min", lo), ("max", hi), ("result", JArray(numbers))];
    LookupFirst(fields, 1); LookupFirst(fields, 2); LookupFirst(fields, 3); LookupFirst(fields, 4);
    Reply(200, fields)
  }

  /** The body of the handler's `try` block. */
  function Handle(event: Object, loads: string -> Option<Json>, rand: Stream): Result<Response> {
    var (count, lo, hi) :- Params(event, loads);
    if !CountInRange(count) then Ok(ErrorReply(400, "count must be an integer between 1 and 1000"))
    else if !IsNumber(lo) || !IsNumber(hi) then Ok(ErrorReply(400, "Both 'min' and 'max' must be numbers"))
    else if Num(lo) > Num(hi) then Ok(ErrorReply(400, RangeMessage(lo, hi)))
    else Ok(Success(count, lo, hi, PyUniformList(count, lo, hi, rand).value))
  }

  /** `lambda_handler`: the guards run in the order count, type, range, and
      a success holds exactly `count` draws, each within the range. */
  function LambdaHandler(event: Object, loads: string -> Option<Json>, rand: Stream): (r: Response)
    ensures r.statusCode == 200 || r.statusCode == 400 || r.statusCode == 500
    ensures Params(event, loads) == Err(JsonDecodeError) ==> r == ErrorReply(400, "Invalid JSON in request body")
    ensures Params(event, loads).Err? && Params(event, loads).error != JsonDecodeError ==>
              r == ErrorReply(500, "Internal server error")
    ensures Params(event, loads).Ok? ==>
              var (count, lo, hi) := Params(event, loads).value;
              && (!CountInRange(count) ==> r == ErrorReply(400, "count must be an integer between 1 and 1000"))
              && (CountInRange(count) && !(IsNumber(lo) && IsNumber(hi)) ==>
                    r == ErrorReply(400, "Both 'min' and 'max' must be numbers"))
              && (CountInRange(count) && IsNumber(lo) && IsNumber(hi) && Num(lo) > Num(hi) ==>
                    r == ErrorReply(400, RangeMessage(lo, hi)))
              && (r.statusCode == 200 <==>
                    CountInRange(count) && IsNumber(lo) && IsNumber(hi) && Num(lo) <= Num(hi))
    ensures r.statusCode == 200 ==>
              var (count, lo, hi) := Params(event, loads).value;
              && Field(r, "operation") == Some(JString("get_random_number_list"))
              && Field(r, "count") == Some(count)
              && Field(r, "min") == Some(lo) && Field(r, "max") == Some(hi)
              && Field(r, "result").Some? && Field(r, "result").value.JArray?
              && |Field(r, "result").value.items| == IntValue(count)
              && forall i :: 0 <= i < IntValue(count) ==>
                   Field(r, "result").value.items[i].JFloat?
                   && Num(lo) <= Field(r, "result").value.items[i].r <= Num(hi)
  {
    Catch(Handle(event, loads, rand))
  }
}
