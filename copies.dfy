/** Where the local server and the cloud server agree, and where they
    differ, on the same arguments. */
module Copies {
  import opened Python
  import opened Format
  import opened Random
  import opened Mcp
  import opened Lambda
  import McpServer
  import LocalServer

  /** The local text of a call against the cloud server's outcome for the
      same arguments: a shown text is the same, a `ValueError` the cloud
      server raises is the local "Error: " text, and any other exception
      escapes both alike. */
  predicate Mirrors(local: Result<string>, cloud: Result<string>) {
    match cloud
    case Ok(text) => local == Ok(text)
    case Err(ValueError(message)) => local == Ok(LocalServer.ErrorText(message))
    case Err(e) => local == Err(e)
  }

  /** `get_random_number` behaves alike in both servers, given the same draws. */
  lemma RandomNumberCopiesAgree(arguments: Object, rand: Stream)
    ensures Mirrors(LocalServer.RandomNumberText(Some(arguments), rand), McpServer.RandomNumberText(arguments, rand))
  {
    var a := Some(arguments);
    assert LocalServer.ArgOr(a, "min", JInt(0)) == LookupOr(arguments, "min", JInt(0));
    assert LocalServer.ArgOr(a, "max", JInt(100)) == LookupOr(arguments, "max", JInt(100));
  }

  /** `get_random_number_list` behaves alike in both servers, checks and order included. */
  lemma RandomNumberListCopiesAgree(arguments: Object, rand: Stream)
    ensures Mirrors(LocalServer.RandomNumberListText(Some(arguments), rand), McpServer.RandomNumberListText(arguments, rand))
  {
    var a := Some(arguments);
    var count := LookupOr(arguments, "count", JInt(5));
    var lo := LookupOr(arguments, "min", JInt(0));
    var hi := LookupOr(arguments, "max", JInt(100));
    assert LocalServer.ArgOr(a, "count", JInt(5)) == count;
    assert LocalServer.ArgOr(a, "min", JInt(0)) == lo;
    assert LocalServer.ArgOr(a, "max", JInt(100)) == hi;
    var local := LocalServer.RandomNumberListText(a, rand);
    var cloud := McpServer.RandomNumberListText(arguments, rand);
    if Gt(lo, hi).Err? {
      assert local == Err(TypeError) && cloud == Err(TypeError);
    } else if Gt(lo, hi).value {
      assert cloud == Err(ValueError(RangeMessage(lo, hi)));
    } else if !IsNumber(count) {
      assert local == Err(TypeError) && cloud == Err(TypeError);
    } else if Num(count) < 1.0 || Num(count) > 1000.0 {
      assert cloud == Err(ValueError("count must be between 1 and 1000, got " + Str(count)));
    } else {
      assert local == cloud;
    }
  }

  /** `get_random_choice` behaves alike in both servers on a non-empty list
      and a count of at least 0, given the same draws; a missing `choices` is
      reported with different words. */
  lemma RandomChoiceCopiesAgree(arguments: Object, rand: Stream)
    ensures !HasKey(arguments, "choices") ==>
              && LocalServer.RandomChoiceText(Some(arguments), rand) == Ok(LocalServer.ErrorText("'choices' parameter is required"))
              && McpServer.RandomChoiceText(arguments, rand) == Err(ValueError("choices parameter is required and cannot be empty"))
    ensures HasKey(arguments, "choices") ==>
              var choices := Lookup(arguments, "choices").value;
              var count := LookupOr(arguments, "count", JInt(1));
              (choices.JArray? && |choices.items| > 0 && IsInt(count) && IntValue(count) >= 0 ==>
                 Mirrors(LocalServer.RandomChoiceText(Some(arguments), rand), McpServer.RandomChoiceText(arguments, rand)))
  {
    if HasKey(arguments, "choices") {
      var choices := Lookup(arguments, "choices").value;
      var count := LookupOr(arguments, "count", JInt(1));
      var allow := LookupOr(arguments, "allow_duplicates", JBool(false));
      if choices.JArray? && |choices.items| > 0 && IsInt(count) && IntValue(count) >= 0 {
        if IntValue(count) > |choices.items| && !Truthy(allow) {
          UniqueCopiesAgree(arguments, rand);
        } else {
          DrawCopiesAgree(arguments, rand);
        }
      }
    } else {
      assert LookupOr(arguments, "choices", JNull) == JNull;
    }
  }

  /** Both copies read `choices`, `count` and `allow_duplicates` from the same bindings. */
  lemma ChoiceArguments(arguments: Object)
    requires HasKey(arguments, "choices")
    ensures LocalServer.Present(Some(arguments), "choices")
    ensures LookupOr(arguments, "choices", JNull) == Lookup(arguments, "choices").value
    ensures LocalServer.ArgOr(Some(arguments), "count", JInt(1)) == LookupOr(arguments, "count", JInt(1))
    ensures LocalServer.ArgOr(Some(arguments), "allow_duplicates", JBool(false))
            == LookupOr(arguments, "allow_duplicates", JBool(false))
  {
  }

  /** A count larger than the list without duplicates is rejected by both copies with the same message. */
  lemma UniqueCopiesAgree(arguments: Object, rand: Stream)
    requires HasKey(arguments, "choices")
    requires var choices := Lookup(arguments, "choices").value;
             var count := LookupOr(arguments, "count", JInt(1));
             && choices.JArray? && |choices.items| > 0 && IsInt(count)
             && IntValue(count) > |choices.items| && !Truthy(LookupOr(arguments, "allow_duplicates", JBool(false)))
    ensures var choices := Lookup(arguments, "choices").value;
            var message := UniqueMessage(LookupOr(arguments, "count", JInt(1)), |choices.items|);
            && McpServer.RandomChoiceText(arguments, rand) == Err(ValueError(message))
            && LocalServer.RandomChoiceText(Some(arguments), rand) == Ok(LocalServer.ErrorText(message))
  {
    ChoiceArguments(arguments);
    UniqueLocal(arguments, rand);
  }

  /** A step of `RandomChoiceCopiesAgree`: the local server's unique-items report. */
  lemma UniqueLocal(arguments: Object, rand: Stream)
    requires HasKey(arguments, "choices")
    requires var choices := Lookup(arguments, "choices").value;
             var count := LookupOr(arguments, "count", JInt(1));
             && choices.JArray? && |choices.items| > 0 && IsInt(count)
             && IntValue(count) > |choices.items| && !Truthy(LookupOr(arguments, "allow_duplicates", JBool(false)))
    ensures var choices := Lookup(arguments, "choices").value;
            var message := UniqueMessage(LookupOr(arguments, "count", JInt(1)), |choices.items|);
            LocalServer.RandomChoiceText(Some(arguments), rand) == Ok(LocalServer.ErrorText(message))
  {
    ChoiceArguments(arguments);
  }

  /** A count both copies can meet is drawn the same way by both, and the draw succeeds. */
  lemma DrawCopiesAgree(arguments: Object, rand: Stream)
    requires HasKey(arguments, "choices")
    requires var choices := Lookup(arguments, "choices").value;
             var count := LookupOr(arguments, "count", JInt(1));
             var allow := LookupOr(arguments, "allow_duplicates", JBool(false));
             && choices.JArray? && |choices.items| > 0 && IsInt(count) && IntValue(count) >= 0
             && (IntValue(count) <= |choices.items| || Truthy(allow))
    ensures var t := ChoiceText(Lookup(arguments, "choices").value, LookupOr(arguments, "count", JInt(1)),
                                LookupOr(arguments, "allow_duplicates", JBool(false)), rand);
            && t.Ok?
            && McpServer.RandomChoiceText(arguments, rand) == t
            && LocalServer.RandomChoiceText(Some(arguments), rand) == t
  {
    DrawLocal(arguments, rand);
    DrawCloud(arguments, rand);
  }

  /** A step of `RandomChoiceCopiesAgree`: the cloud server's draw, which succeeds. */
  lemma DrawCloud(arguments: Object, rand: Stream)
    requires HasKey(arguments, "choices")
    requires var choices := Lookup(arguments, "choices").value;
             var count := LookupOr(arguments, "count", JInt(1));
             var allow := LookupOr(arguments, "allow_duplicates", JBool(false));
             && choices.JArray? && |choices.items| > 0 && IsInt(count) && IntValue(count) >= 0
             && (IntValue(count) <= |choices.items| || Truthy(allow))
    ensures var t := ChoiceText(Lookup(arguments, "choices").value, LookupOr(arguments, "count", JInt(1)),
                                LookupOr(arguments, "allow_duplicates", JBool(false)), rand);
            t.Ok? && McpServer.RandomChoiceText(arguments, rand) == t
  {
    ChoiceArguments(arguments);
    ChoiceSucceeds(Lookup(arguments, "choices").value, LookupOr(arguments, "count", JInt(1)),
                   LookupOr(arguments, "allow_duplicates", JBool(false)), rand);
  }

  /** The shared drawing step cannot fail on a non-empty list and a count it can meet. */
  lemma ChoiceSucceeds(choices: Json, count: Json, allow: Json, rand: Stream)
    requires choices.JArray? && |choices.items| > 0 && IsInt(count) && IntValue(count) >= 0
    requires IntValue(count) <= |choices.items| || Truthy(allow)
    ensures ChoiceText(choices, count, allow, rand).Ok?
  {
    if IntValue(count) != 1 && !Truthy(allow) {
      assert 0 <= IntValue(count) <= |choices.items|;
    }
  }

  /** A step of `RandomChoiceCopiesAgree`: the local server's draw. */
  lemma DrawLocal(arguments: Object, rand: Stream)
    requires HasKey(arguments, "choices")
    requires var choices := Lookup(arguments, "choices").value;
             var count := LookupOr(arguments, "count", JInt(1));
             var allow := LookupOr(arguments, "allow_duplicates", JBool(false));
             && choices.JArray? && |choices.items| > 0 && IsInt(count) && IntValue(count) >= 0
             && (IntValue(count) <= |choices.items| || Truthy(allow))
    ensures LocalServer.RandomChoiceText(Some(arguments), rand)
            == ChoiceText(Lookup(arguments, "choices").value, LookupOr(arguments, "count", JInt(1)),
                          LookupOr(arguments, "allow_duplicates", JBool(false)), rand)
  {
    ChoiceArguments(arguments);
  }

  /** `math_add` and `math_subtract` show the same text in both servers when
      both operands are numbers. */
  lemma AddSubtractCopiesAgree(arguments: Object)
    requires HasKey(arguments, "a") && HasKey(arguments, "b")
    requires IsNumber(Lookup(arguments, "a").value) && IsNumber(Lookup(arguments, "b").value)
    ensures McpServer.MathAddText(arguments).Ok?
    ensures LocalServer.MathAddText(Some(arguments)) == McpServer.MathAddText(arguments)
    ensures LocalServer.MathSubtractText(Some(arguments)) == McpServer.MathSubtractText(arguments)
  {
    assert LocalServer.Operands(Some(arguments)) == Some(McpServer.Operands(arguments));
  }

  /** Two equations that differ in the first character of their sign differ. */
  lemma {:induction false} EquationsDiffer(a: Json, s1: string, s2: string, b: Json, r1: Json, r2: Json)
    requires |s1| > 0 && |s2| > 0 && s1[0] != s2[0]
    ensures Equation(a, s1, b, r1) != Equation(a, s2, b, r2)
  {
    var k := |Str(a)| + 1;
    var p1 := Str(a) + " " + s1;
    var p2 := Str(a) + " " + s2;
    assert p1[k] == s1[0] && p2[k] == s2[0];
    assert Equation(a, s1, b, r1)[k] == p1[k];
    assert Equation(a, s2, b, r2)[k] == p2[k];
  }

  /** `math_multiply` and `math_divide` show different texts in the two
      servers: the cloud server's mis-encoded signs are not `×` and `÷`. */
  lemma MultiplyDivideCopiesDiffer(arguments: Object)
    requires HasKey(arguments, "a") && HasKey(arguments, "b")
    requires IsNumber(Lookup(arguments, "a").value) && IsNumber(Lookup(arguments, "b").value)
    ensures LocalServer.MathMultiplyText(Some(arguments)).Ok? && McpServer.MathMultiplyText(arguments).Ok?
    ensures LocalServer.MathMultiplyText(Some(arguments)) != McpServer.MathMultiplyText(arguments)
    ensures !EqualsInt(Lookup(arguments, "b").value, 0) ==>
              && LocalServer.MathDivideText(Some(arguments)).Ok? && McpServer.MathDivideText(arguments).Ok?
              && LocalServer.MathDivideText(Some(arguments)) != McpServer.MathDivideText(arguments)
  {
    var (a, b) := McpServer.Operands(arguments);
    assert LocalServer.Operands(Some(arguments)) == Some((a, b));
    EquationsDiffer(a, LocalServer.MultiplySymbol, McpServer.MultiplySymbol, b, Mul(a, b).value, Mul(a, b).value);
    if !EqualsInt(b, 0) {
      EquationsDiffer(a, LocalServer.DivideSymbol, McpServer.DivideSymbol, b, Div(a, b).value, Div(a, b).value);
    }
  }
}
