/** The calculator: arithmetic behind one shared validation guard.
    Every operation first checks that its arguments are numbers (ints or
    floats, never bools) and fails with ValueError otherwise. */
module Calculator {
  import opened PyValues
  import opened Results

  /** The two exceptions the calculator raises. */
  datatype CalcError = ValueError | ZeroDivisionError

  /** `_require_numbers(*vals)`: passes exactly when every argument is a
      number; otherwise fails with ValueError. */
  function RequireNumbers(vals: seq<Value>): (r: Outcome<CalcError>)
    ensures r.Pass? <==> forall i :: 0 <= i < |vals| ==> IsNumber(vals[i])
    ensures r.Fail? ==> r.error == ValueError
  {
    if vals == [] then Pass
    else if !IsNumber(vals[0]) then Fail(ValueError)
    else RequireNumbers(vals[1..])
  }

  /** The guard on two arguments, as the operations below use it. */
  lemma RequireTwo(x: Value, y: Value)
    ensures RequireNumbers([x, y]).Pass? <==> IsNumber(x) && IsNumber(y)
  {
    assert [x, y][0] == x && [x, y][1] == y;
  }

  /** `fun1(x, y)`: `x + y`. */
  function Add(x: Value, y: Value): (r: Result<Number, CalcError>)
    ensures r.Ok? <==> IsNumber(x) && IsNumber(y)
    ensures r.Err? ==> r.error == ValueError
    ensures r.Ok? ==> ToReal(r.value) == ToReal(x) + ToReal(y)
    ensures r.Ok? ==> (r.value.Int? <==> x.Int? && y.Int?)
  {
    RequireTwo(x, y);
    match RequireNumbers([x, y])
    case Fail(e) => Err(e)
    case Pass => Ok(Plus(x, y))
  }

  /** `fun2(x, y)`: `x - y`. */
  function Subtract(x: Value, y: Value): (r: Result<Number, CalcError>)
    ensures r.Ok? <==> IsNumber(x) && IsNumber(y)
    ensures r.Err? ==> r.error == ValueError
    ensures r.Ok? ==> ToReal(r.value) == ToReal(x) - ToReal(y)
    ensures r.Ok? ==> (r.value.Int? <==> x.Int? && y.Int?)
  {
    RequireTwo(x, y);
    match RequireNumbers([x, y])
    case Fail(e) => Err(e)
    case Pass => Ok(Minus(x, y))
  }

  /** `fun3(x, y)`: `x * y`. */
  function Multiply(x: Value, y: Value): (r: Result<Number, CalcError>)
    ensures r.Ok? <==> IsNumber(x) && IsNumber(y)
    ensures r.Err? ==> r.error == ValueError
    ensures r.Ok? ==> ToReal(r.value) == ToReal(x) * ToReal(y)
    ensures r.Ok? ==> (r.value.Int? <==> x.Int? && y.Int?)
  {
    RequireTwo(x, y);
    match RequireNumbers([x, y])
    case Fail(e) => Err(e)
    case Pass => Ok(Times(x, y))
  }

  /** The keys of the record `fun4` returns. */
  const METRIC_KEYS: set<string> := {"sum", "mean", "min", "max", "range"}

  /** `fun4(x, y, z)`: the dictionary of sum, mean, min, max and range of
      three numbers. */
  function Metrics(x: Value, y: Value, z: Value): (r: Result<map<string, Number>, CalcError>)
    ensures r.Ok? <==> IsNumber(x) && IsNumber(y) && IsNumber(z)
    ensures r.Err? ==> r.error == ValueError
    ensures r.Ok? ==> r.value.Keys == METRIC_KEYS
    ensures r.Ok? ==> ToReal(r.value["sum"]) == ToReal(x) + ToReal(y) + ToReal(z)
    ensures r.Ok? ==> (r.value["sum"].Int? <==> x.Int? && y.Int? && z.Int?)
    ensures r.Ok? ==> r.value["mean"].Float? && ToReal(r.value["mean"]) * 3.0 == ToReal(r.value["sum"])
    ensures r.Ok? ==> r.value["min"] == Min3(x, y, z) && r.value["max"] == Max3(x, y, z)
    ensures r.Ok? ==> ToReal(r.value["range"]) == ToReal(r.value["max"]) - ToReal(r.value["min"]) >= 0.0
    ensures r.Ok? ==> (r.value["range"].Int? <==> r.value["min"].Int? && r.value["max"].Int?)
  {
    var check := RequireNumbers([x, y, z]);
    assert [x, y, z][0] == x && [x, y, z][1] == y && [x, y, z][2] == z;
    match check
    case Fail(e) => Err(e)
    case Pass =>
      var s := Plus(Plus(x, y), z);
      var mn := Min3(x, y, z);
      var mx := Max3(x, y, z);
      Ok(map["sum" := s, "mean" := TrueDiv(s, Int(3)), "min" := mn, "max" := mx, "range" := Minus(mx, mn)])
  }

  /** `min` and `max` of the record are among the inputs and bound all three. */
  lemma MetricsBounds(x: Value, y: Value, z: Value)
    requires Metrics(x, y, z).Ok?
    ensures var m := Metrics(x, y, z).value;
      && (m["min"] == x || m["min"] == y || m["min"] == z)
      && (m["max"] == x || m["max"] == y || m["max"] == z)
      && ToReal(m["min"]) <= ToReal(x) <= ToReal(m["max"])
      && ToReal(m["min"]) <= ToReal(y) <= ToReal(m["max"])
      && ToReal(m["min"]) <= ToReal(z) <= ToReal(m["max"])
  {
  }

  /** `safe_divide(x, y)`: `x / y`, with the type check before the zero check. */
  function SafeDivide(x: Value, y: Value): (r: Result<Number, CalcError>)
    ensures !(IsNumber(x) && IsNumber(y)) ==> r == Err(ValueError)
    ensures IsNumber(x) && IsNumber(y) && ToReal(y) == 0.0 ==> r == Err(ZeroDivisionError)
    ensures r.Ok? <==> IsNumber(x) && IsNumber(y) && ToReal(y) != 0.0
    ensures r.Ok? ==> r.value.Float? && ToReal(r.value) * ToReal(y) == ToReal(x)
  {
    RequireTwo(x, y);
    match RequireNumbers([x, y])
    case Fail(e) => Err(e)
    case Pass =>
      if ToReal(y) == 0.0 then Err(ZeroDivisionError) else Ok(TrueDiv(x, y))
  }

  /** `power(x, y)`: `x ** y`. The guard is modelled exactly, and so is a
      natural-number int exponent; every other exponent is handed to
      `hostPow`, which stands for the host's float `pow`. */
  function Power(x: Value, y: Value, hostPow: (Number, Number) -> Result<Value, CalcError>): (r: Result<Value, CalcError>)
    ensures !(IsNumber(x) && IsNumber(y)) ==> r == Err(ValueError)
    ensures IsNumber(x) && y.Int? && y.i >= 0 ==>
      && r.Ok? && IsNumber(r.value)
      && (r.value.Int? <==> x.Int?)
      && ToReal(r.value) == RealPow(ToReal(x), y.i)
  {
    RequireTwo(x, y);
    match RequireNumbers([x, y])
    case Fail(e) => Err(e)
    case Pass =>
      if y.Int? && y.i >= 0 then
        if x.Int? then
          IntPowIsRealPow(x.i, y.i);
          Ok(Int(IntPow(x.i, y.i)))
        else Ok(Float(RealPow(x.f, y.i)))
      else hostPow(x, y)
  }

  /** The algebraic cross-check between `fun1` and `fun2`:
      `add(x, y) - subtract(x, y) == 2 * y` for all numbers. */
  lemma AddSubtractCrossCheck(x: Value, y: Value)
    requires IsNumber(x) && IsNumber(y)
    ensures Add(x, y).Ok? && Subtract(x, y).Ok?
    ensures ToReal(Add(x, y).value) - ToReal(Subtract(x, y).value) == 2.0 * ToReal(y)
  {
  }

  /** `fun3` is commutative, including the int-or-float type of its result. */
  lemma MultiplyCommutes(x: Value, y: Value)
    ensures Multiply(x, y) == Multiply(y, x)
  {
  }

  /** Bools are never numbers, although Python counts them as ints. */
  lemma BoolsAreRejected(b: bool, y: Value)
    ensures Add(Bool(b), y) == Err(ValueError) && Add(y, Bool(b)) == Err(ValueError)
    ensures SafeDivide(Bool(b), y) == Err(ValueError) && SafeDivide(y, Bool(b)) == Err(ValueError)
  {
  }

  /** The type check precedes the zero check: `safe_divide("x", 0)` is a
      ValueError, not a ZeroDivisionError. */
  lemma SafeDivideChecksTypeFirst(x: Value)
    requires !IsNumber(x)
    ensures SafeDivide(x, Int(0)) == Err(ValueError)
    ensures SafeDivide(x, Float(0.0)) == Err(ValueError)
  {
  }

  /** `fun4(1, 2, 3)` is `{"sum": 6, "mean": 2.0, "min": 1, "max": 3, "range": 2}`. */
  lemma MetricsExample()
    ensures Metrics(Int(1), Int(2), Int(3))
      == Ok(map["sum" := Int(6), "mean" := Float(2.0), "min" := Int(1), "max" := Int(3), "range" := Int(2)])
  {
  }

  /** With a natural exponent, `x ** (n + 1) == x * x ** n`, result type included. */
  lemma {:induction false} PowerStep(x: Value, n: nat, hostPow: (Number, Number) -> Result<Value, CalcError>)
    requires IsNumber(x)
    ensures Power(x, Int(n + 1), hostPow) == Multiply(x, Power(x, Int(n), hostPow).value)
  {
    RequireTwo(x, Int(n));
    RequireTwo(x, Int(n + 1));
    if x.Int? {
      assert IntPow(x.i, n + 1) == x.i * IntPow(x.i, n);
    } else {
      assert RealPow(x.f, n + 1) == x.f * RealPow(x.f, n);
      var p := Power(x, Int(n), hostPow);
      assert p == Ok(Float(RealPow(x.f, n)));
      RequireTwo(x, p.value);
      assert Multiply(x, p.value) == Ok(Times(x, p.value));
      assert Times(x, p.value) == Float(x.f * RealPow(x.f, n));
      assert Power(x, Int(n + 1), hostPow) == Ok(Float(RealPow(x.f, n + 1)));
    }
  }

  /** `x ** 0` is one: the int 1 for an int base, the float 1.0 for a float base. */
  lemma PowerZero(x: Value, hostPow: (Number, Number) -> Result<Value, CalcError>)
    requires IsNumber(x)
    ensures Power(x, Int(0), hostPow) == if x.Int? then Ok(Int(1)) else Ok(Float(1.0))
  {
  }
}
