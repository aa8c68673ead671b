/**
 * Python value semantics shared by the game and model backends: IEEE floats
 * with NaN and the infinities as Python compares them, the builtins `max`,
 * `min` and `int` on such floats, truthiness, and the dictionaries the
 * formatters build, with keys in insertion order.
 */
module PyValues {
  import opened Wrappers

  /** A Python float. */
  datatype Float = Num(value: real) | NaN | Inf(positive: bool)

  /** `x > c`: false for NaN, whatever `c` is. */
  predicate Gt(x: Float, c: real) {
    match x
    case Num(v) => v > c
    case NaN => false
    case Inf(p) => p
  }

  /** `x >= c`. */
  predicate Ge(x: Float, c: real) {
    match x
    case Num(v) => v >= c
    case NaN => false
    case Inf(p) => p
  }

  /** `x < c`. */
  predicate Lt(x: Float, c: real) {
    match x
    case Num(v) => v < c
    case NaN => false
    case Inf(p) => !p
  }

  /** `x <= c`. */
  predicate Le(x: Float, c: real) {
    match x
    case Num(v) => v <= c
    case NaN => false
    case Inf(p) => !p
  }

  /** `max(x, c)`: the builtin keeps its first argument unless a later one compares greater,
      so a NaN first argument survives. */
  function Max(x: Float, c: real): (r: Float)
    ensures !x.NaN? ==> Ge(r, c) && (Ge(x, c) ==> r == x)
    ensures x.NaN? ==> r.NaN?
  {
    if Lt(x, c) then Num(c) else x
  }

  /** `min(x, c)`, with the same first-argument rule as `max`. */
  function Min(x: Float, c: real): (r: Float)
    ensures !x.NaN? ==> Le(r, c) && (Le(x, c) ==> r == x)
    ensures x.NaN? ==> r.NaN?
  {
    if Gt(x, c) then Num(c) else x
  }

  /** Rounding toward zero, which `int()` applies to a float. */
  function Truncate(v: real): (n: int)
    ensures v >= 0.0 ==> n as real <= v < n as real + 1.0
    ensures v < 0.0 ==> n as real - 1.0 < v <= n as real
  {
    if v >= 0.0 then v.Floor else -((-v).Floor)
  }

  /** `int(x)`: `ValueError` for NaN, `OverflowError` for an infinity. */
  function Int(x: Float): (r: Option<int>)
    ensures r.Some? <==> x.Num?
  {
    if x.Num? then Some(Truncate(x.value)) else None
  }

  /** `int(min(max(x, 0), 255))`, the colour-channel idiom of the lifeform classes. */
  function ByteOf(x: Float): Option<int>
  {
    Int(Min(Max(x, 0.0), 255.0))
  }

  /** A colour channel of a value that is not NaN. */
  function Channel(x: Float): (n: int)
    requires !x.NaN?
    ensures 0 <= n <= 255
    ensures ByteOf(x) == Some(n)
  {
    ByteOfRange(x);
    ByteOf(x).value
  }

  /** `(x - low) / span * 255`, the normalisation in front of a channel; the infinities
      keep their sign. */
  function Normalized(x: Float, low: real, span: real): (r: Float)
    requires span > 0.0
    ensures r.NaN? <==> x.NaN?
    ensures x.Num? ==> r.Num? && (x.value <= low <==> r.value <= 0.0)
                            && (x.value >= low + span <==> r.value >= 255.0)
    ensures x.Inf? ==> r == x
  {
    match x
    case Num(v) =>
      ScaleBounds(v - low, span);
      Num((v - low) / span * 255.0)
    case NaN => NaN
    case Inf(p) => Inf(p)
  }

  /** `d / span * 255` crosses 0 and 255 exactly where `d` crosses 0 and `span`. */
  lemma ScaleBounds(d: real, span: real)
    requires span > 0.0
    ensures d <= 0.0 <==> d / span * 255.0 <= 0.0
    ensures d >= span <==> d / span * 255.0 >= 255.0
  {
    var t := d / span;
    assert d == t * span;
    if d >= span {
      assert t >= 1.0;
    }
    if t >= 1.0 {
      assert t * span >= span;
    }
  }

  /** A channel is defined for every value but NaN, lies in [0, 255], saturates at both
      ends and follows the value's order in between. */
  lemma ByteOfRange(x: Float)
    ensures ByteOf(x).Some? <==> !x.NaN?
    ensures ByteOf(x).Some? ==> 0 <= ByteOf(x).value <= 255
    ensures Le(x, 0.0) ==> ByteOf(x) == Some(0)
    ensures Ge(x, 255.0) ==> ByteOf(x) == Some(255)
    ensures x.Num? && 0.0 <= x.value <= 255.0 ==> ByteOf(x) == Some(x.value.Floor)
  {
  }

  /** Channels are monotonic in a finite value. */
  lemma ByteOfMonotonic(u: real, v: real)
    requires u <= v
    ensures ByteOf(Num(u)).value <= ByteOf(Num(v)).value
  {
  }

  /** The errors the modelled code can raise. */
  datatype PyError = ValueError | ZeroDivisionError | AttributeError | TypeError | RuntimeError | IndexError

  /** `str(n)` for a non-negative integer: decimal digits without leading zeros. */
  function Decimal(n: nat): (s: string)
    ensures |s| >= 1
    ensures forall i :: 0 <= i < |s| ==> '0' <= s[i] <= '9'
    ensures s[0] == '0' ==> n == 0
    decreases n
  {
    if n < 10 then [DigitChar(n)] else Decimal(n / 10) + [DigitChar(n % 10)]
  }

  function DigitChar(d: nat): (c: char)
    requires d < 10
    ensures '0' <= c <= '9' && (c == '0' <==> d == 0)
  {
    "0123456789"[d]
  }

  /** The value of a string of decimal digits, as `int(s)` reads it. */
  function DecimalValue(s: string): nat
    requires forall i :: 0 <= i < |s| ==> '0' <= s[i] <= '9'
  {
    if s == [] then 0
    else DecimalValue(s[..|s| - 1]) * 10 + ((s[|s| - 1] as int) - ('0' as int))
  }

  /** Reading the digits back gives the number: `int(str(n)) == n`. */
  lemma {:induction false} DecimalRoundTrip(n: nat)
    ensures DecimalValue(Decimal(n)) == n
    decreases n
  {
    if n >= 10 {
      var s := Decimal(n);
      assert s[..|s| - 1] == Decimal(n / 10);
      DecimalRoundTrip(n / 10);
    }
  }

  /** A Python value as the formatters and the label parser see it; `PyOther` stands for
      any other object. Dictionaries keep their keys in insertion order. */
  datatype Value =
    | PyNone
    | PyBool(b: bool)
    | PyInt(i: int)
    | PyFloat(f: Float)
    | PyStr(s: string)
    | PyDict(items: seq<(string, Value)>)
    | PyOther

  /** Python truthiness: `None`, `False`, zero, the empty string and the empty dict are
      false; NaN, the infinities and other objects are true. */
  predicate Truthy(v: Value) {
    match v
    case PyNone => false
    case PyBool(b) => b
    case PyInt(i) => i != 0
    case PyFloat(f) => !(f.Num? && f.value == 0.0)
    case PyStr(s) => s != ""
    case PyDict(items) => items != []
    case PyOther => true
  }

  /** The keys of an ordered dictionary, in order. */
  function Keys<V>(d: seq<(string, V)>): (ks: seq<string>)
    ensures |ks| == |d|
    ensures forall i :: 0 <= i < |d| ==> ks[i] == d[i].0
  {
    seq(|d|, i requires 0 <= i < |d| => d[i].0)
  }

  /** No key occurs twice: what makes a sequence of pairs a dictionary. */
  ghost predicate IsDict<V>(d: seq<(string, V)>) {
    forall i, j :: 0 <= i < j < |d| ==> d[i].0 != d[j].0
  }

  /** `d[key]`, or `None` (a `KeyError`) when the key is absent. */
  function Lookup<V>(d: seq<(string, V)>, key: string): (r: Option<V>)
    ensures r.None? <==> key !in Keys(d)
    ensures r.Some? ==> (key, r.value) in d
    ensures IsDict(d) ==> forall i :: 0 <= i < |d| && d[i].0 == key ==> r == Some(d[i].1)
  {
    if d == [] then None
    else if d[0].0 == key then Some(d[0].1)
    else
      assert Keys(d) == [d[0].0] + Keys(d[1..]);
      Lookup(d[1..], key)
  }

  /** `v[k1][k2]...`: the value under a path of dictionary keys, or `None` when a step
      is not a dictionary or lacks the key. */
  function Path(v: Value, keys: seq<string>): Option<Value>
    decreases keys
  {
    if keys == [] then Some(v)
    else match v
      case PyDict(items) =>
        (match Lookup(items, keys[0])
         case Some(w) => Path(w, keys[1..])
         case None => None)
      case _ => None
  }

  /** A path into a one-entry dictionary continues in its value. */
  lemma PathOfSingle(k: string, v: Value, keys: seq<string>)
    requires keys != [] && keys[0] == k
    ensures Path(PyDict([(k, v)]), keys) == Path(v, keys[1..])
  {
  }

  /** A path into a two-entry dictionary continues in the value of the key it starts with. */
  lemma PathOfPair(k0: string, v0: Value, k1: string, v1: Value, keys: seq<string>)
    requires keys != [] && k0 != k1
    ensures keys[0] == k0 ==> Path(PyDict([(k0, v0), (k1, v1)]), keys) == Path(v0, keys[1..])
    ensures keys[0] == k1 ==> Path(PyDict([(k0, v0), (k1, v1)]), keys) == Path(v1, keys[1..])
  {
    var items := [(k0, v0), (k1, v1)];
    assert items[1..] == [(k1, v1)];
    if keys[0] == k1 {
      assert Lookup(items, k1) == Lookup([(k1, v1)], k1) == Some(v1);
    }
  }

  /** `t` occurs in `s` at position `i`. */
  predicate OccursAt(s: string, t: string, i: int) {
    0 <= i <= |s| - |t| && s[i..i + |t|] == t
  }

  /** Python's `t in s` on strings. */
  ghost predicate Contains(s: string, t: string) {
    exists i :: OccursAt(s, t, i)
  }

  /** The middle of a concatenation occurs in it. */
  lemma ContainsMiddle(a: string, b: string, c: string)
    ensures Contains(a + b + c, b)
  {
    assert OccursAt(a + b + c, b, |a|);
  }

  /** Regrouping a concatenation, and reading back its first part. */
  lemma Regroup(a: string, b: string, c: string, d: string)
    ensures a + (b + c + d) == (a + b) + c + d
    ensures (a + b + c)[..|a|] == a
  {
  }

  /** A pandas row: numeric cells keyed by column; an absent column is not in the map. */
  type Row = map<string, Float>

  /** `row.get(key, default)`: the stored cell, NaN included, or the default. */
  function Get(row: Row, key: string, default: Float): (r: Float)
    ensures key in row ==> r == row[key]
    ensures key !in row ==> r == default
  {
    if key in row then row[key] else default
  }

  /** `row[key] if not pd.isna(row.get(key)) else default`, and equally the
      `row.get(key, default)` followed by `if pd.isna(x): x = default` of the colour code:
      a missing or NaN cell becomes the default. */
  function Known(row: Row, key: string, default: real): (r: Float)
    ensures !r.NaN?
    ensures key in row && !row[key].NaN? ==> r == row[key]
    ensures key !in row || row[key].NaN? ==> r == Num(default)
  {
    if key in row && !row[key].NaN? then row[key] else Num(default)
  }
}
