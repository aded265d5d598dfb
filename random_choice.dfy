/** The `get_random_choice` Lambda handler: a presence guard, a shape guard,
    a count guard, a uniqueness guard, and one of three ways of drawing. */
module RandomChoice {
  import opened Python
  import opened Random
  import opened Lambda

  /** The request's `count` after its default of 1. */
  function CountOf(members: Object): Json {
    LookupOr(members, "count", JInt(1))
  }

  /** The request's `allow_duplicates` after its default of `False`. */
  function AllowOf(members: Object): Json {
    LookupOr(members, "allow_duplicates", JBool(false))
  }

  /** `isinstance(choices, list) and len(choices) > 0`. */
  predicate NonEmptyList(choices: Json) {
    choices.JArray? && |choices.items| > 0
  }

  /** `isinstance(count, int) and count >= 1`. */
  predicate PositiveInt(count: Json) {
    IsInt(count) && IntValue(count) >= 1
  }

  /** What was drawn: one member when one is asked for, `count` draws with
      replacement when duplicates are allowed, a sample otherwise. */
  function Select(choices: seq<Json>, count: Json, allow: Json, rand: Stream): (result: Json)
    requires |choices| > 0 && PositiveInt(count) && (IntValue(count) <= |choices| || Truthy(allow))
    ensures IntValue(count) == 1 ==> result in choices
    ensures IntValue(count) > 1 && Truthy(allow) ==>
              && result.JArray? && |result.items| == IntValue(count)
              && forall i :: 0 <= i < |result.items| ==> result.items[i] in choices
    ensures IntValue(count) > 1 && !Truthy(allow) ==>
              && result.JArray? && |result.items| == IntValue(count)
              && FromDistinctPositions(result.items, choices)
  {
    if EqualsInt(count, 1) then PyChoice(JArray(choices), rand(0)).value
    else if Truthy(allow) then JArray(PyChoices(JArray(choices), count, rand).value)
    else JArray(PySample(JArray(choices), count, rand).value)
  }

  /** The 200 reply: the operation's name, how many choices there were, the
      parameters as read, and what was drawn. */
  function Success(available: int, count: Json, allow: Json, result: Json): (r: Response)
    ensures r.statusCode == 200
    ensures Field(r, "operation") == Some(JString("get_random_choice"))
    ensures Field(r, "choices_count") == Some(JInt(available))
    ensures Field(r, "count") == Some(count) && Field(r, "allow_duplicates") == Some(allow)
    ensures Field(r, "result") == Some(result)
  {
    var fields := [("operation", JString("get_random_choice")), ("choices_count", JInt(available)),
                   ("count", count), ("allow_duplicates", allow), ("result", result)];
    LookupFirst(fields, 1); LookupFirst(fields, 2); LookupFirst(fields, 3); LookupFirst(fields, 4);
    Reply(200, fields)
  }

  /** The guards after the presence check, over a dict that holds
      `choices`: shape, then count, then uniqueness; the first that fails
      decides the reply, and a request that passes them all gets its draw. */
  function Checked(members: Object, rand: Stream): (r: Response)
    requires HasKey(members, "choices")
    ensures r.statusCode == 200 || r.statusCode == 400
    ensures var choices := Lookup(members, "choices").value;
            var count := CountOf(members);
            var allow := AllowOf(members);
            && (!NonEmptyList(choices) ==> r == ErrorReply(400, "choices must be a non-empty array"))
            && (NonEmptyList(choices) && !PositiveInt(count) ==>
                  r == ErrorReply(400, "count must be a positive integer"))
            && (NonEmptyList(choices) && PositiveInt(count) && IntValue(count) > |choices.items| && !Truthy(allow) ==>
                  r == ErrorReply(400, UniqueMessage(count, |choices.items|)))
            && (r.statusCode == 200 <==>
                  NonEmptyList(choices) && PositiveInt(count) && (IntValue(count) <= |choices.items| || Truthy(allow)))
    ensures r.statusCode == 200 ==>
              var choices := Lookup(members, "choices").value;
              var count := CountOf(members);
              var allow := AllowOf(members);
              && NonEmptyList(choices) && PositiveInt(count)
              && Field(r, "operation") == Some(JString("get_random_choice"))
              && Field(r, "choices_count") == Some(JInt(|choices.items|))
              && Field(r, "count") == Some(count) && Field(r, "allow_duplicates") == Some(allow)
              && Field(r, "result").Some?
              && (IntValue(count) == 1 ==> Field(r, "result").value in choices.items)
              && (IntValue(count) > 1 ==>
                    var result := Field(r, "result").value;
                    && result.JArray? && |result.items| == IntValue(count)
                    && (Truthy(allow) ==> forall i :: 0 <= i < |result.items| ==> result.items[i] in choices.items)
                    && (!Truthy(allow) ==> FromDistinctPositions(result.items, choices.items)))
  {
    var choices := Lookup(members, "choices").value;
    var count := CountOf(members);
    var allow := AllowOf(members);
    if !NonEmptyList(choices) then ErrorReply(400, "choices must be a non-empty array")
    else if !PositiveInt(count) then ErrorReply(400, "count must be a positive integer")
    else if IntValue(count) > |choices.items| && !Truthy(allow) then
      ErrorReply(400, UniqueMessage(count, |choices.items|))
    else Success(|choices.items|, count, allow, Select(choices.items, count, allow, rand))
  }

  /** The body of the handler's `try` block. `'choices' not in body` raises
      on a body that is no container, and `body['choices']` on one that is
      not a dict. */
  function Handle(event: Object, loads: string -> Option<Json>, rand: Stream): Result<Response> {
    var body :- RequestBody(event, loads);
    if !Truthy(body) then Ok(ErrorReply(400, "'choices' parameter is required"))
    else
      var present :- Contains(body, "choices");
      if !present then Ok(ErrorReply(400, "'choices' parameter is required"))
      else if !body.JObject? then Err(TypeError)
      else Ok(Checked(body.members, rand))
  }

  /** Whether the request is a dict that holds `choices`. */
  predicate HasChoices(event: Object, loads: string -> Option<Json>) {
    var body := RequestBody(event, loads);
    body.Ok? && body.value.JObject? && HasKey(body.value.members, "choices")
  }

  /** `lambda_handler`: malformed JSON is answered 400, a request without
      `choices` 400 before anything else is looked at, one that `in` cannot
      test 500; a dict that holds `choices` goes through the remaining guards. */
  function LambdaHandler(event: Object, loads: string -> Option<Json>, rand: Stream): (r: Response)
    ensures r.statusCode == 200 || r.statusCode == 400 || r.statusCode == 500
    ensures RequestBody(event, loads).Err? ==> r == ErrorReply(400, "Invalid JSON in request body")
    ensures RequestBody(event, loads).Ok? ==>
              var body := RequestBody(event, loads).value;
              && (!Truthy(body) || (IsContainer(body) && !In("choices", body)) ==>
                    r == ErrorReply(400, "'choices' parameter is required"))
              && (Truthy(body) && !IsContainer(body) ==> r == ErrorReply(500, "Internal server error"))
    ensures r.statusCode == 200 ==> HasChoices(event, loads)
    ensures HasChoices(event, loads) ==> r == Checked(RequestBody(event, loads).value.members, rand)
  {
    Catch(Handle(event, loads, rand))
  }
}
