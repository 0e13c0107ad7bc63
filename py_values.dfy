/** Python runtime values as the calculator and the unit converter see them,
    and the parts of Python's numeric semantics both of them rely on:
    `isinstance`, the int/float promotion of `+ - *`, true division `/`,
    and the builtins `min`/`max`. Floats are modelled as exact reals. */
module PyValues {

  /** A Python value passed to one of the library's functions. */
  datatype Value =
    | Int(i: int)        // Python int (arbitrary precision)
    | Float(f: real)     // Python float, modelled exactly
    | Bool(b: bool)      // True / False; in Python, bool is a subclass of int
    | Str(s: string)     // Python str
    | Other              // None, lists, dicts and every other object

  /** isinstance(v, int): true of bools too, because bool subclasses int. */
  predicate IsInstanceInt(v: Value) {
    v.Int? || v.Bool?
  }

  /** isinstance(v, float) */
  predicate IsInstanceFloat(v: Value) {
    v.Float?
  }

  /** isinstance(v, bool) */
  predicate IsInstanceBool(v: Value) {
    v.Bool?
  }

  /** `_is_number`: an int or a float, and not a bool. */
  function IsNumber(v: Value): (r: bool)
    ensures r <==> v.Int? || v.Float?
    ensures v.Bool? ==> IsInstanceInt(v) && !r
  {
    (IsInstanceInt(v) || IsInstanceFloat(v)) && !IsInstanceBool(v)
  }

  /** The values that pass `_is_number`. */
  type Number = v: Value | IsNumber(v) witness Int(0)

  /** The mathematical value of a number (`float(v)` for an int is exact here). */
  function ToReal(v: Number): real {
    if v.Int? then v.i as real else v.f
  }

  /** `x + y`: an int when both are ints, otherwise a float. */
  function Plus(x: Number, y: Number): (r: Number)
    ensures ToReal(r) == ToReal(x) + ToReal(y)
    ensures r.Int? <==> x.Int? && y.Int?
  {
    if x.Int? && y.Int? then Int(x.i + y.i) else Float(ToReal(x) + ToReal(y))
  }

  /** `x - y`: an int when both are ints, otherwise a float. */
  function Minus(x: Number, y: Number): (r: Number)
    ensures ToReal(r) == ToReal(x) - ToReal(y)
    ensures r.Int? <==> x.Int? && y.Int?
  {
    if x.Int? && y.Int? then Int(x.i - y.i) else Float(ToReal(x) - ToReal(y))
  }

  /** `x * y`: an int when both are ints, otherwise a float. */
  function Times(x: Number, y: Number): (r: Number)
    ensures ToReal(r) == ToReal(x) * ToReal(y)
    ensures r.Int? <==> x.Int? && y.Int?
  {
    if x.Int? && y.Int? then Int(x.i * y.i) else Float(ToReal(x) * ToReal(y))
  }

  /** `x / y` (true division): always a float, even for two ints. */
  function TrueDiv(x: Number, y: Number): (r: Number)
    requires ToReal(y) != 0.0
    ensures r.Float?
    ensures ToReal(r) * ToReal(y) == ToReal(x)
  {
    Float(ToReal(x) / ToReal(y))
  }

  /** `x < y` between two numbers; Python compares ints and floats exactly. */
  predicate Less(x: Number, y: Number) {
    ToReal(x) < ToReal(y)
  }

  /** The builtin `min(x, y, z)`: scans left to right and replaces the
      current best only by a strictly smaller item, so the first minimal
      argument is returned. */
  function Min3(x: Number, y: Number, z: Number): (r: Number)
    ensures r == x || r == y || r == z
    ensures ToReal(r) <= ToReal(x) && ToReal(r) <= ToReal(y) && ToReal(r) <= ToReal(z)
    ensures r == x || Less(r, x)
    ensures Less(y, x) && !Less(z, y) ==> r == y
  {
    var m := if Less(y, x) then y else x;
    if Less(z, m) then z else m
  }

  /** The builtin `max(x, y, z)`: replaces the current best only by a
      strictly larger item, so the first maximal argument is returned. */
  function Max3(x: Number, y: Number, z: Number): (r: Number)
    ensures r == x || r == y || r == z
    ensures ToReal(x) <= ToReal(r) && ToReal(y) <= ToReal(r) && ToReal(z) <= ToReal(r)
    ensures r == x || Less(x, r)
    ensures Less(x, y) && !Less(y, z) ==> r == y
  {
    var m := if Less(x, y) then y else x;
    if Less(m, z) then z else m
  }

  /** Integer exponentiation `b ** n` for a natural exponent. */
  function IntPow(b: int, n: nat): int {
    if n == 0 then 1 else b * IntPow(b, n - 1)
  }

  /** Real exponentiation `b ** n` for a natural exponent. */
  function RealPow(b: real, n: nat): real {
    if n == 0 then 1.0 else b * RealPow(b, n - 1)
  }

  /** The two exponentiations agree on integer bases. */
  lemma {:induction false} IntPowIsRealPow(b: int, n: nat)
    ensures IntPow(b, n) as real == RealPow(b as real, n)
  {
    if n > 0 {
      IntPowIsRealPow(b, n - 1);
    }
  }
}

/** The error-or-value shape used for Python's exceptions. */
module Results {

  datatype Result<+T, +E> = Ok(value: T) | Err(error: E)

  datatype Option<+T> = None | Some(value: T)

  datatype Outcome<+E> = Pass | Fail(error: E)
}
