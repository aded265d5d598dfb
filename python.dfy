/** Python's view of the JSON-like values that flow through every handler:
    the values `json.loads` produces, the operators the handlers apply to
    them (`in`, `[]`, `.get`, `>`, `==`, `+`, `-`, `*`, `/`, `len`,
    truthiness) and the exceptions those operators raise. */
module Python {

  datatype Option<T> = None | Some(value: T)

  /** A value as Python holds it after `json.loads`: `int` and `float` are
      distinct, and a dict keeps its insertion order. */
  datatype Json =
    | JNull
    | JBool(b: bool)
    | JInt(i: int)
    | JFloat(r: real)
    | JString(s: string)
    | JArray(items: seq<Json>)
    | JObject(members: seq<(string, Json)>)

  /** The members of a dict, in insertion order; the first binding of a key is the one read. */
  type Object = seq<(string, Json)>

  /** The exceptions the modelled code can raise or let escape. */
  datatype Exception =
    | ValueError(message: string)
    | TypeError
    | AttributeError
    | KeyError(key: Json)
    | IndexError
    | ZeroDivisionError
    | JsonDecodeError

  datatype Result<T> = Ok(value: T) | Err(error: Exception) {
    predicate IsFailure() { Err? }
    function PropagateFailure<U>(): Result<U> requires Err? { Err(error) }
    function Extract(): T requires Ok? { value }
  }

  /** `key in d` for a dict `d`. */
  predicate HasKey(o: Object, key: string) {
    exists i :: 0 <= i < |o| && o[i].0 == key
  }

  /** `d.get(key)` for a dict `d`: the value of the first binding of `key`. */
  function Lookup(o: Object, key: string): (r: Option<Json>)
    ensures r.Some? <==> HasKey(o, key)
  {
    if |o| == 0 then None
    else if o[0].0 == key then Some(o[0].1)
    else
      var r := Lookup(o[1..], key);
      assert forall i :: 1 <= i < |o| ==> o[i] == o[1..][i - 1];
      r
  }

  /** A binding whose key is not bound earlier is the one `d.get` reads. */
  lemma {:induction false} LookupFirst(o: Object, i: nat)
    requires i < |o| && forall j :: 0 <= j < i ==> o[j].0 != o[i].0
    ensures Lookup(o, o[i].0) == Some(o[i].1)
    decreases i
  {
    if i > 0 {
      assert o[1..][i - 1] == o[i];
      assert forall j :: 0 <= j < i - 1 ==> o[1..][j] == o[j + 1];
      LookupFirst(o[1..], i - 1);
    }
  }

  /** `d.get(key, default)` for a dict `d`. */
  function LookupOr(o: Object, key: string, default: Json): (r: Json)
    ensures HasKey(o, key) ==> Lookup(o, key) == Some(r)
    ensures !HasKey(o, key) ==> r == default
  {
    match Lookup(o, key)
    case Some(v) => v
    case None => default
  }

  /** Python truthiness: `None`, `False`, zero, and empty strings, lists and dicts are false. */
  predicate Truthy(v: Json) {
    match v
    case JNull => false
    case JBool(b) => b
    case JInt(i) => i != 0
    case JFloat(r) => r != 0.0
    case JString(s) => |s| > 0
    case JArray(items) => |items| > 0
    case JObject(members) => |members| > 0
  }

  /** `isinstance(v, (int, float))`; a `bool` is an `int` in Python. */
  predicate IsNumber(v: Json) {
    v.JBool? || v.JInt? || v.JFloat?
  }

  /** `isinstance(v, int)`; a `bool` is an `int` in Python. */
  predicate IsInt(v: Json) {
    v.JBool? || v.JInt?
  }

  /** The numeric value of an `int`, `float` or `bool`. */
  function Num(v: Json): real
    requires IsNumber(v)
  {
    match v
    case JBool(b) => if b then 1.0 else 0.0
    case JInt(i) => i as real
    case JFloat(r) => r
  }

  /** The integer value of an `int` or `bool`. */
  function IntValue(v: Json): int
    requires IsInt(v)
  {
    match v
    case JBool(b) => if b then 1 else 0
    case JInt(i) => i
  }

  /** Whether `s` occurs in `t` starting at position `i`. */
  predicate OccursAt(s: string, t: string, i: int) {
    0 <= i <= |t| - |s| && t[i..i + |s|] == s
  }

  /** Whether `s` occurs in `t` as a contiguous piece (`s in t` on strings). */
  predicate IsSubstring(s: string, t: string) {
    exists i | 0 <= i <= |t| - |s| :: OccursAt(s, t, i)
  }

  /** Whether `in` can test `v`: a dict, a string or a list. */
  predicate IsContainer(v: Json) {
    v.JObject? || v.JString? || v.JArray?
  }

  /** `key in v` for a string `key`: a dict tests its keys, a string its
      substrings, a list its elements. */
  predicate In(key: string, v: Json)
    requires IsContainer(v)
  {
    match v
    case JObject(members) => HasKey(members, key)
    case JString(s) => IsSubstring(key, s)
    case JArray(items) => JString(key) in items
  }

  /** `key in v`, which raises `TypeError` when `v` is not a container. */
  function Contains(v: Json, key: string): (r: Result<bool>)
    ensures r.Ok? <==> IsContainer(v)
    ensures r.Ok? ==> r.value == In(key, v)
    ensures v.JObject? ==> r == Ok(HasKey(v.members, key))
  {
    if IsContainer(v) then Ok(In(key, v)) else Err(TypeError)
  }

  /** `v[key]` for a string `key`. */
  function Index(v: Json, key: string): (r: Result<Json>)
    ensures r.Ok? <==> v.JObject? && HasKey(v.members, key)
    ensures r.Ok? ==> Lookup(v.members, key) == Some(r.value)
  {
    match v
    case JObject(members) =>
      (match Lookup(members, key)
       case Some(x) => Ok(x)
       case None => Err(KeyError(JString(key))))
    case _ => Err(TypeError)
  }

  /** `v.get(key, default)`: only a dict has `.get`. */
  function Get(v: Json, key: string, default: Json): (r: Result<Json>)
    ensures r.Ok? <==> v.JObject?
    ensures r.Ok? ==> r.value == LookupOr(v.members, key, default)
  {
    match v
    case JObject(members) => Ok(LookupOr(members, key, default))
    case _ => Err(AttributeError)
  }

  /** Python's ordering of two strings: lexicographic by code point. */
  predicate StrGreater(s: string, t: string) {
    if |s| == 0 then false
    else if |t| == 0 then true
    else if s[0] != t[0] then s[0] > t[0]
    else StrGreater(s[1..], t[1..])
  }

  /** `x > y`: numbers compare by value, strings lexicographically, and any
      other pairing raises `TypeError`. */
  function Gt(x: Json, y: Json): (r: Result<bool>)
    ensures IsNumber(x) && IsNumber(y) ==> r == Ok(Num(x) > Num(y))
    ensures r.Ok? ==> (IsNumber(x) && IsNumber(y)) || (x.JString? && y.JString?)
  {
    if IsNumber(x) && IsNumber(y) then Ok(Num(x) > Num(y))
    else if x.JString? && y.JString? then Ok(StrGreater(x.s, y.s))
    else Err(TypeError)
  }

  /** `v == n` for an integer literal `n`: only numbers can be equal to it. */
  predicate EqualsInt(v: Json, n: int) {
    IsNumber(v) && Num(v) == n as real
  }

  /** `len(v)`. */
  function Len(v: Json): (r: Result<int>)
    ensures r.Ok? <==> v.JString? || v.JArray? || v.JObject?
    ensures r.Ok? ==> r.value >= 0
  {
    match v
    case JString(s) => Ok(|s|)
    case JArray(items) => Ok(|items|)
    case JObject(members) => Ok(|members|)
    case _ => Err(TypeError)
  }

  /** `x + y`: numeric addition, or concatenation of two strings or two lists. */
  function Add(x: Json, y: Json): (r: Result<Json>)
    ensures IsNumber(x) && IsNumber(y) ==> r.Ok? && IsNumber(r.value) && Num(r.value) == Num(x) + Num(y)
    ensures IsInt(x) && IsInt(y) ==> r.Ok? && r.value.JInt?
  {
    if IsInt(x) && IsInt(y) then Ok(JInt(IntValue(x) + IntValue(y)))
    else if IsNumber(x) && IsNumber(y) then Ok(JFloat(Num(x) + Num(y)))
    else if x.JString? && y.JString? then Ok(JString(x.s + y.s))
    else if x.JArray? && y.JArray? then Ok(JArray(x.items + y.items))
    else Err(TypeError)
  }

  /** `x - y`: only numbers can be subtracted. */
  function Sub(x: Json, y: Json): (r: Result<Json>)
    ensures r.Ok? <==> IsNumber(x) && IsNumber(y)
    ensures r.Ok? ==> IsNumber(r.value) && Num(r.value) == Num(x) - Num(y)
  {
    if IsInt(x) && IsInt(y) then Ok(JInt(IntValue(x) - IntValue(y)))
    else if IsNumber(x) && IsNumber(y) then Ok(JFloat(Num(x) - Num(y)))
    else Err(TypeError)
  }

  /** `s * n` for a sequence `s` and an integer `n`: `s` repeated `n` times, empty when `n <= 0`. */
  function Repeat<T>(s: seq<T>, n: int): (r: seq<T>)
    ensures |r| == if n <= 0 then 0 else |s| * n
    decreases n
  {
    if n <= 0 then [] else s + Repeat(s, n - 1)
  }

  /** `x * y`: numeric multiplication, or repetition of a string or list by an `int`. */
  function Mul(x: Json, y: Json): (r: Result<Json>)
    ensures IsNumber(x) && IsNumber(y) ==> r.Ok? && IsNumber(r.value) && Num(r.value) == Num(x) * Num(y)
  {
    if IsInt(x) && IsInt(y) then Ok(JInt(IntValue(x) * IntValue(y)))
    else if IsNumber(x) && IsNumber(y) then Ok(JFloat(Num(x) * Num(y)))
    else if x.JString? && IsInt(y) then Ok(JString(Repeat(x.s, IntValue(y))))
    else if IsInt(x) && y.JString? then Ok(JString(Repeat(y.s, IntValue(x))))
    else if x.JArray? && IsInt(y) then Ok(JArray(Repeat(x.items, IntValue(y))))
    else if IsInt(x) && y.JArray? then Ok(JArray(Repeat(y.items, IntValue(x))))
    else Err(TypeError)
  }

  /** `x / y`: true division, always a `float`; a zero divisor raises. */
  function Div(x: Json, y: Json): (r: Result<Json>)
    ensures r.Ok? <==> IsNumber(x) && IsNumber(y) && !EqualsInt(y, 0)
    ensures r.Ok? ==> r.value.JFloat? && r.value.r * Num(y) == Num(x)
    ensures IsNumber(x) && EqualsInt(y, 0) ==> r == Err(ZeroDivisionError)
  {
    if IsNumber(x) && IsNumber(y) then
      if Num(y) == 0.0 then Err(ZeroDivisionError) else Ok(JFloat(Num(x) / Num(y)))
    else Err(TypeError)
  }
}
