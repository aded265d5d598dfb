/** The parts of Python's `random` module the tools call, with the random
    source made an input: a call sees the successive values of
    `random.random()` as a stream. */
module Random {
  import opened Python

  /** A value of `random.random()`. */
  type Unit = r: real | 0.0 <= r < 1.0

  /** The successive values of `random.random()` during one call: `rand(i)` is the i-th. */
  type Stream = nat -> Unit

  /** `random.uniform(a, b)`, which CPython computes as `a + (b - a) * random()`. */
  function Uniform(a: real, b: real, u: Unit): (x: real)
    ensures a <= b ==> a <= x <= b
  {
    var x := a + (b - a) * u;
    UniformBounds(a, b, u, x);
    x
  }

  /** `a + (b - a) * u` lies in [a, b] for u in [0, 1]. */
  lemma UniformBounds(a: real, b: real, u: real, x: real)
    requires 0.0 <= u <= 1.0 && x == a + (b - a) * u
    ensures a <= b ==> a <= x <= b
  {
    if a <= b {
      var d := b - a;
      NonNegativeProduct(d, u);
      NonNegativeProduct(d, 1.0 - u);
      var p := d * u;
      var q := d * (1.0 - u);
      assert q == d - p;
      assert 0.0 <= p <= d;
    }
  }

  lemma NonNegativeProduct(x: real, y: real)
    requires x >= 0.0 && y >= 0.0
    ensures x * y >= 0.0
  {
  }

  /** A position below `n` chosen by one draw. This stands for CPython's
      `_randbelow(n)`, which draws from `getrandbits` rather than `random()`:
      it models which position comes out, not how CPython draws it. */
  function Below(n: nat, u: Unit): (j: nat)
    requires n > 0
    ensures j < n
  {
    NonNegativeProduct(u, n as real);
    NonNegativeProduct(1.0 - u, n as real);
    assert (1.0 - u) * n as real == n as real - u * n as real;
    assert (1.0 - u) * n as real > 0.0;
    (u * n as real).Floor
  }

  /** `random.uniform(a, b)` on Python values: the arithmetic raises on anything but numbers. */
  function PyUniform(a: Json, b: Json, u: Unit): (r: Result<Json>)
    ensures r.Ok? <==> IsNumber(a) && IsNumber(b)
    ensures r.Ok? ==> r.value.JFloat? && (Num(a) <= Num(b) ==> Num(a) <= r.value.r <= Num(b))
  {
    if IsNumber(a) && IsNumber(b) then Ok(JFloat(Uniform(Num(a), Num(b), u))) else Err(TypeError)
  }

  /** `[random.uniform(a, b) for _ in range(count)]`: `range` takes only an
      `int`, and no draw is made when the range is empty. */
  function PyUniformList(count: Json, a: Json, b: Json, rand: Stream): (r: Result<seq<Json>>)
    ensures r.Ok? <==> IsInt(count) && (IntValue(count) <= 0 || (IsNumber(a) && IsNumber(b)))
    ensures r.Ok? ==> |r.value| == if IntValue(count) <= 0 then 0 else IntValue(count)
    ensures r.Ok? && IntValue(count) > 0 ==>
              forall i :: 0 <= i < |r.value| ==> r.value[i] == PyUniform(a, b, rand(i)).value
    ensures r.Ok? && IsNumber(a) && IsNumber(b) && Num(a) <= Num(b) ==>
              forall i :: 0 <= i < |r.value| ==> r.value[i].JFloat? && Num(a) <= r.value[i].r <= Num(b)
  {
    if !IsInt(count) then Err(TypeError)
    else if IntValue(count) <= 0 then Ok([])
    else if !(IsNumber(a) && IsNumber(b)) then Err(TypeError)
    else Ok(seq(IntValue(count), i requires 0 <= i => JFloat(Uniform(Num(a), Num(b), rand(i)))))
  }

  /** Whether `random.choice` and `random.sample` can index into `v` (a list or a string). */
  predicate IsSequence(v: Json) {
    v.JArray? || v.JString?
  }

  /** The elements of a list, or the one-character strings of a string. */
  function Items(v: Json): (items: seq<Json>)
    requires IsSequence(v)
    ensures |items| == if v.JArray? then |v.items| else |v.s|
  {
    if v.JArray? then v.items else seq(|v.s|, i requires 0 <= i < |v.s| => JString([v.s[i]]))
  }

  /** `random.choice(population)`, which reads `population[randbelow(len(population))]`:
      an empty population raises `IndexError`, a dict has no integer keys, and
      anything without a length raises `TypeError`. */
  function PyChoice(population: Json, u: Unit): (r: Result<Json>)
    ensures r.Ok? <==> IsSequence(population) && |Items(population)| > 0
    ensures r.Ok? ==> r.value in Items(population)
  {
    match population
    case JArray(items) => if |items| == 0 then Err(IndexError) else Ok(items[Below(|items|, u)])
    case JString(s) =>
      if |s| == 0 then Err(IndexError)
      else
        var j := Below(|s|, u);
        assert Items(population)[j] == JString([s[j]]);
        Ok(JString([s[j]]))
    case JObject(members) =>
      if |members| == 0 then Err(IndexError) else Err(KeyError(JInt(Below(|members|, u))))
    case _ => Err(TypeError)
  }

  /** `[random.choice(population) for _ in range(count)]`: draws with replacement. */
  function PyChoices(population: Json, count: Json, rand: Stream): (r: Result<seq<Json>>)
    ensures r.Ok? <==> IsInt(count) && (IntValue(count) <= 0 || (IsSequence(population) && |Items(population)| > 0))
    ensures r.Ok? ==> |r.value| == if IntValue(count) <= 0 then 0 else IntValue(count)
    ensures r.Ok? ==> forall i :: 0 <= i < |r.value| ==> r.value[i] in Items(population)
  {
    if !IsInt(count) then Err(TypeError)
    else if IntValue(count) <= 0 then Ok([])
    else if !(IsSequence(population) && |Items(population)| > 0) then Err(PyChoice(population, rand(0)).error)
    else
      var picks := seq(IntValue(count), i requires 0 <= i => PyChoice(population, rand(i)).value);
      assert forall i :: 0 <= i < |picks| ==> picks[i] == PyChoice(population, rand(i)).value;
      Ok(picks)
  }

  /** No value occurs twice in `s`. */
  predicate Distinct(s: seq<nat>) {
    forall i, j :: 0 <= i < j < |s| ==> s[i] != s[j]
  }

  /** Removing position `j` the way the pool method does (the last entry fills the gap)
      keeps the other entries, drops the one at `j`, and keeps a distinct pool distinct. */
  lemma {:induction false} FillGap(pool: seq<nat>, j: nat)
    requires j < |pool|
    ensures var rest := pool[j := pool[|pool| - 1]][..|pool| - 1];
            && |rest| == |pool| - 1
            && (forall x :: x in rest ==> x in pool)
            && (Distinct(pool) ==> Distinct(rest) && pool[j] !in rest)
  {
    var last := |pool| - 1;
    var rest := pool[j := pool[last]][..last];
    assert forall i :: 0 <= i < last ==> rest[i] == if i == j then pool[last] else pool[i];
    if Distinct(pool) {
      forall a, b | 0 <= a < b < |rest| ensures rest[a] != rest[b] {
        var pa := if a == j then last else a;
        var pb := if b == j then last else b;
        assert rest[a] == pool[pa] && rest[b] == pool[pb] && pa != pb;
      }
      forall i | 0 <= i < |rest| ensures rest[i] != pool[j] {
        var pi := if i == j then last else i;
        assert rest[i] == pool[pi] && pi != j;
      }
    }
  }

  /** The positions `random.sample` picks, modelled on CPython's pool method:
      each draw takes a position from the pool and moves the pool's last entry
      into its place. CPython switches to a set-based selection for large
      populations; either way the positions are pairwise distinct and in
      range, which is all this model stands for. */
  function PoolPick(pool: seq<nat>, k: nat, rand: Stream, i: nat): (picked: seq<nat>)
    requires k <= |pool|
    ensures |picked| == k
    ensures forall m :: 0 <= m < k ==> picked[m] in pool
    ensures Distinct(pool) ==> Distinct(picked)
    decreases k
  {
    if k == 0 then []
    else
      var j := Below(|pool|, rand(i));
      var rest := pool[j := pool[|pool| - 1]][..|pool| - 1];
      FillGap(pool, j);
      var tail := PoolPick(rest, k - 1, rand, i + 1);
      assert forall m :: 0 <= m < k - 1 ==> ([pool[j]] + tail)[m + 1] == tail[m];
      [pool[j]] + tail
  }

  /** The `k` positions out of `n` that `random.sample` selects: pairwise distinct and in range. */
  function SamplePositions(n: nat, k: nat, rand: Stream): (ps: seq<nat>)
    requires k <= n
    ensures |ps| == k && Distinct(ps)
    ensures forall m :: 0 <= m < k ==> ps[m] < n
  {
    var pool := seq(n, i requires 0 <= i < n => i as nat);
    assert forall x :: x in pool ==> x < n;
    PoolPick(pool, k, rand, 0)
  }

  /** `result[m] == items[ps[m]]` for every `m`, with `ps` pairwise distinct positions of `items`. */
  predicate TakenAt(result: seq<Json>, items: seq<Json>, ps: seq<nat>) {
    && |ps| == |result| && Distinct(ps)
    && forall m :: 0 <= m < |ps| ==> ps[m] < |items| && result[m] == items[ps[m]]
  }

  /** Whether `result` consists of elements from pairwise distinct positions of `items`. */
  ghost predicate FromDistinctPositions(result: seq<Json>, items: seq<Json>) {
    exists ps :: TakenAt(result, items, ps)
  }

  /** `random.sample(population, k)`, as a model of which positions are
      drawn rather than of CPython's drawing code: the population must be a sequence,
      `0 <= k <= len(population)` must hold, and `k` must be an `int`. */
  function PySample(population: Json, k: Json, rand: Stream): (r: Result<seq<Json>>)
    ensures r.Ok? <==> IsSequence(population) && IsInt(k) && 0 <= IntValue(k) <= |Items(population)|
    ensures r.Ok? ==> |r.value| == IntValue(k) && FromDistinctPositions(r.value, Items(population))
    ensures IsSequence(population) && IsNumber(k) && !(0.0 <= Num(k) <= |Items(population)| as real) ==>
              r == Err(ValueError("Sample larger than population or is negative"))
  {
    if !IsSequence(population) then Err(TypeError)
    else
      var items := Items(population);
      if !IsNumber(k) then Err(TypeError)
      else if !(0.0 <= Num(k) <= |items| as real) then
        Err(ValueError("Sample larger than population or is negative"))
      else if !IsInt(k) then Err(TypeError)
      else
        var ps := SamplePositions(|items|, IntValue(k), rand);
        var result := seq(|ps|, m requires 0 <= m < |ps| => items[ps[m]]);
        assert TakenAt(result, items, ps);
        Ok(result)
  }
}
