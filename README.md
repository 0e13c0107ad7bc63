# Calculator and unit converter, modelled in Dafny

This project models two small, stateless Python utility modules and proves properties of the model.

- `src/calculator.py` is a calculator. Its arithmetic (`fun1` add, `fun2` subtract, `fun3` multiply, `fun4` metrics record, `safe_divide`, `power`) sits behind one validation guard, `_require_numbers`. A value is a number when it is an `int` or a `float` and not a `bool`.
- `src/converter.py` is a unit converter. `convert(value, from_unit, to_unit)`:
  1. checks that the value is a number;
  2. resolves each unit name through `_canon`, which does `strip().lower()` and then looks the result up in the alias table `ALIASES`;
  3. checks that both canonical units belong to the same category of the table `UNITS`;
  4. converts through the category's base unit: the source unit's forward function, then the target unit's inverse function.

Both modules are pure, so the model uses datatypes, functions and lemmas only.

Files:

- `py_values.dfy`:
  - module `PyValues`: the Python values the functions receive (`Int`, `Float`, `Bool`, `Str`, anything else). It covers `isinstance` (where `bool` counts as `int`), the int/float promotion of `+ - *`, true division, and `min`/`max` with their first-extreme rule.
  - module `Results`: the result and option types that stand for Python's exceptions.
- `calculator.dfy` (module `Calculator`): the calculator.
- `unit_names.dfy` (module `UnitNames`): `str.strip()` and `str.lower()` on unit names, and their algebra.
- `converter.dfy` (module `Converter`): the alias table, the unit table, `_canon`, `_category` and `convert`. Also the properties of the tables and of `convert`.
- `converter_examples.dfy` (module `ConverterExamples`): the documented and tested conversions as exact equalities, and the three rejected calls.

Modelling choices:

- **Floats are exact reals.** Every conversion is therefore stated as an exact equality, such as `convert(60, "mph", "kph") == 96.56064`, not within a tolerance. `float(value)` of an int is modelled as the int's exact value. Python rounds ints above 2**53 and raises OverflowError from about 2**1024; the model does neither (see "## Left out").
- **Canonical unit codes are the datatype `UnitCode`.** `Converter.Code` gives the source's code string for each ("m", "C", "mL", ...), and `Converter.UnitOfCode` is the unit table's key set as strings. `Converter.CodeIsUnitKey`, `Converter.CodeInjective` and `Converter.AliasValuesAreUnitKeys` state that the code strings and the table keys correspond one to one, and that every alias value is one of those keys.
- **The alias table is `Converter.Aliases`,** a function from a key to an optional code. It is written as a `match` over the same 75 keys with the same values as `ALIASES`.
- **The unit table is the constant map `UNITS`.** It keeps the source's forward and inverse lambdas, with the same constants.
- **Each of `convert`'s raise sites is its own `ConvertError`.** In Python every one of them is a `ValueError`.
- **The "Unsupported unit" branch is unreachable.** `convert` checks that both codes are keys of `UNITS` (`src/converter.py:123-124`). The model keeps that branch, and `Converter.Convert` proves it never fires, because every alias value is a key of `UNITS` (`Converter.AliasValuesAreUnitKeys`).
- **There are seven categories** (`src/converter.py:62-69`): length, mass, temperature, time, speed, volume and area. Their base units are m, kg, K, s, mps, L and sqm (`Converter.BaseUnit`).

## Model

| member | source | states |
|---|---|---|
| PyValues.IsNumber | src/calculator.py:1-2 | `_is_number` (also `src/converter.py:59-60`) holds exactly for ints and floats; a bool is an `isinstance` int yet is rejected |
| PyValues.Plus | src/calculator.py:14 | `x + y` has the mathematical sum as its value and is an int exactly when both operands are ints |
| PyValues.Minus | src/calculator.py:22 | `x - y` has the difference as its value and is an int exactly when both operands are ints |
| PyValues.Times | src/calculator.py:30 | `x * y` has the product as its value and is an int exactly when both operands are ints |
| PyValues.TrueDiv | src/calculator.py:64 | `x / y` is always a float, and multiplying it by `y` gives back `x` |
| PyValues.Min3 | src/calculator.py:46 | `min(x, y, z)` is one of its arguments and is at most each of them. It is the first minimal argument: `x` unless something is strictly smaller than `x`, and `y` when `y < x` and `z` is not smaller than `y` (so `min(5, 1, 1.0)` is the int 1) |
| PyValues.Max3 | src/calculator.py:47 | `max(x, y, z)` is one of its arguments and is at least each of them. It is the first maximal argument: `x` unless something is strictly larger than `x`, and `y` when `y > x` and `z` is not larger than `y` (so `max(0, 3.0, 3)` is the float 3.0) |
| PyValues.IntPowIsRealPow | src/calculator.py:72 | integer `b ** n` and real `b ** n` agree for every int base and natural exponent |
| Calculator.RequireNumbers | src/calculator.py:4-6 | `_require_numbers` passes exactly when every argument is a number, and otherwise fails with ValueError |
| Calculator.Add | src/calculator.py:8-14 | `fun1` succeeds exactly on two numbers with their sum (int iff both are ints); otherwise it raises ValueError |
| Calculator.Subtract | src/calculator.py:16-22 | `fun2` succeeds exactly on two numbers with their difference (int iff both are ints); otherwise it raises ValueError |
| Calculator.Multiply | src/calculator.py:24-30 | `fun3` succeeds exactly on two numbers with their product (int iff both are ints); otherwise it raises ValueError |
| Calculator.Metrics | src/calculator.py:32-54 | `fun4` succeeds exactly on three numbers. The record has exactly the keys sum, mean, min, max and range; `sum == x + y + z`; `mean` is a float with `mean * 3 == sum`; `min` and `max` are Python's `min` and `max` of the three (`Min3`, `Max3`: the first extreme argument, with its own int or float type); `range == max - min >= 0`, and it is an int exactly when `min` and `max` both are |
| Calculator.MetricsBounds | src/calculator.py:44-47 | the record's min and max are each one of the inputs, and `min <= x, y, z <= max` |
| Calculator.MetricsExample | src/calculator.py:32-54 | `fun4(1, 2, 3)` is `{sum: 6, mean: 2.0, min: 1, max: 3, range: 2}` |
| Calculator.AddSubtractCrossCheck | src/calculator.py:8-22 | on numbers, `fun1(x, y) - fun2(x, y) == 2 * y` |
| Calculator.MultiplyCommutes | src/calculator.py:24-30 | `fun3(x, y) == fun3(y, x)` for all values, the error cases and the int/float type of the result included |
| Calculator.BoolsAreRejected | src/calculator.py:1-6 | a bool in either position makes `fun1` and `safe_divide` raise ValueError |
| Calculator.SafeDivide | src/calculator.py:56-64 | non-numbers raise ValueError; otherwise `y == 0` raises ZeroDivisionError; otherwise the result is a float `r` with `r * y == x` |
| Calculator.SafeDivideChecksTypeFirst | src/calculator.py:61-63 | a non-number `x` with `y` equal to 0 or 0.0 raises ValueError, not ZeroDivisionError |
| Calculator.Power | src/calculator.py:66-72 | non-numbers raise ValueError. For a natural int exponent the result is `x ** y` (an int iff `x` is an int) |
| Calculator.PowerZero | src/calculator.py:72 | `x ** 0` is the int 1 for an int base and the float 1.0 for a float base |
| Calculator.PowerStep | src/calculator.py:72 | `power(x, n + 1) == fun3(x, power(x, n))` for natural `n`, result type included |
| UnitNames.LowerChar | src/converter.py:54 | lower-casing one character maps each capital A-Z to the lower-case letter at the same place in the alphabet, leaves every other character unchanged, and keeps whitespace whitespace |
| UnitNames.Lower | src/converter.py:54 | `lower()` keeps the length and lower-cases each character in place |
| UnitNames.StripLeft | src/converter.py:54 | `lstrip()` returns the suffix left after a whitespace-only prefix, and that suffix does not start with whitespace |
| UnitNames.StripRight | src/converter.py:54 | `rstrip()` returns the prefix left before a whitespace-only suffix, and that prefix does not end with whitespace |
| UnitNames.Strip | src/converter.py:54 | `strip()` returns the part of the name between a whitespace-only prefix and a whitespace-only suffix, and that part neither starts nor ends with whitespace |
| UnitNames.Normalize | src/converter.py:54 | the key `strip().lower()` is never longer than the name and is normal: no capitals and no whitespace at its ends |
| UnitNames.StripOfTrimmed | src/converter.py:54 | `strip()` leaves a string alone when it has no whitespace at either end |
| UnitNames.LowerOfLower | src/converter.py:54 | `lower()` leaves a string without capitals alone |
| UnitNames.NormalizeFixesNormal | src/converter.py:54 | `strip().lower()` leaves a string unchanged exactly when it has no capitals and no whitespace at its ends |
| UnitNames.NormalizeIdempotent | src/converter.py:54 | applying `strip().lower()` twice is the same as applying it once |
| UnitNames.LowerStripLeft | src/converter.py:54 | `lstrip` commutes with `lower` |
| UnitNames.LowerStripRight | src/converter.py:54 | `rstrip` commutes with `lower` |
| UnitNames.NormalizeIsStripOfLower | src/converter.py:54 | `s.strip().lower() == s.lower().strip()` |
| UnitNames.LowerIdempotent | src/converter.py:54 | applying `lower()` twice is the same as applying it once |
| UnitNames.NormalizeIgnoresCase | src/converter.py:54 | strings with equal `lower()` normalise to the same key |
| UnitNames.StripLeftSkipsSpace | src/converter.py:54 | `lstrip` skips a whitespace prefix: `(w + t).lstrip() == t.lstrip()` |
| UnitNames.StripRightSkipsSpace | src/converter.py:54 | `rstrip` skips a whitespace suffix: `(t + w).rstrip() == t.rstrip()` |
| UnitNames.StripLeftAppend | src/converter.py:54 | `(t + p).lstrip() == t.lstrip() + p` when `t` holds a non-whitespace character |
| UnitNames.StripLeftOfSpace | src/converter.py:54 | `lstrip` of an all-whitespace string is empty |
| UnitNames.NormalizeIgnoresPadding | src/converter.py:54 | whitespace added around a name does not change its normalised key |
| Converter.Aliases | src/converter.py:13-49 | the alias table: the same 75 keys with the same codes (its properties are the rows `AliasKeysAreNormal`, `AliasValuesAreUnitKeys` and `AliasesReachable`) |
| Converter.UnitOfCode | src/converter.py:70-107 | the unit table's keys as strings: a string names a unit only if that unit's code is that string |
| Converter.CodeIsUnitKey | src/converter.py:70-107 | every unit's code string is a key of the unit table naming that unit |
| Converter.CodeInjective | src/converter.py:70-107 | distinct units have distinct code strings |
| Converter.AliasValuesAreUnitKeys | src/converter.py:13-49 | every value of `ALIASES` is a key of `UNITS`, as a string and as a unit |
| Converter.UnitsComplete | src/converter.py:70-107 | every canonical code, and so every value of the alias table, is a key of `UNITS` |
| Converter.AliasKeysAreNormal | src/converter.py:13-49 | every key of `ALIASES` is already lower-case and has no whitespace at its ends |
| Converter.Canon | src/converter.py:51-57 | a non-string unit fails first. A string resolves to `ALIASES[s.strip().lower()]` when that key exists, and otherwise fails as an unknown unit. Every resolved code is a key of `UNITS` |
| Converter.AliasesReachable | src/converter.py:13-57 | every alias key, passed as written, resolves to its own code |
| Converter.CanonUsesNormalForm | src/converter.py:51-57 | `_canon(s)` depends only on `s.strip().lower()` |
| Converter.CanonIgnoresCase | src/converter.py:54-57 | names that differ only in the case of their letters resolve alike |
| Converter.CanonOfAnyCase | src/converter.py:54-57 | any name whose `lower()` is an alias key resolves to that key's code (e.g. "C", "L", "mL") |
| Converter.CanonIgnoresPadding | src/converter.py:54-57 | whitespace around a name does not change how it resolves |
| Converter.InverseAfterForward | src/converter.py:72-106 | for every unit, `inverse(forward(v)) == v`, the affine Celsius and Fahrenheit pairs included |
| Converter.ForwardAfterInverse | src/converter.py:72-106 | for every unit, `forward(inverse(v)) == v` |
| Converter.ForwardInjective | src/converter.py:72-106 | each forward function is one-to-one |
| Converter.BaseUnit | src/converter.py:62-69 | each category's base unit (m, kg, K, s, mps, L, sqm) is in `UNITS`, in that category, and maps 1 to 1 |
| Converter.BaseUnitIsIdentity | src/converter.py:62-69 | a base unit's forward and inverse functions are both the identity |
| Converter.CategoryOf | src/converter.py:109-110 | `_category(unit)`: the category field of the unit's table entry (its property is the row `CategoryOfBaseUnit`) |
| Converter.CategoryOfBaseUnit | src/converter.py:109-110 | each category is the category of its base unit, and a unit is the base unit of its own category exactly when it maps 1 to 1 |
| Converter.BaseUnitUnique | src/converter.py:70-107 | a unit whose forward function maps 1 to 1 is its category's base unit, so each category has exactly one |
| Converter.ForwardIsAffine | src/converter.py:70-107 | every forward function is `offset + v * scale` with a positive scale |
| Converter.ZeroIsPreserved | src/converter.py:82-86 | forward maps 0 to 0 for every unit except C and F, the two with an offset |
| Converter.ForwardMonotonic | src/converter.py:70-107 | every forward function is strictly increasing |
| Converter.ConvertBetween | src/converter.py:125-130 | after resolution, the result exists exactly when the categories match (else IncompatibleCategories). It maps to the same base-unit value as the input: `forward_t(r) == forward_f(v)` |
| Converter.Convert | src/converter.py:112-130 | checks in order: the value, the source unit, the target unit, then the categories. "Unsupported unit" never happens. A result exists exactly when everything resolves and the categories match, and it satisfies `forward_t(r) == forward_f(value)`. Each failure names its cause: a non-number gives NotANumber, the first unresolved name gives UnknownUnit, and two resolved units of different categories give IncompatibleCategories |
| Converter.UnknownNameIsRejected | src/converter.py:119-121 | a number with a source name that normalises to no alias is rejected as an unknown unit, whatever the target |
| Converter.ConvertOfResolved | src/converter.py:119-130 | with a numeric value and resolved units, `convert` is the category check plus the two-step conversion |
| Converter.ConvertIdentity | src/converter.py:127-130 | `convert(v, U, U) == v` for every resolvable unit |
| Converter.ConvertRoundTrip | src/converter.py:127-130 | `convert(convert(v, U, V), V, U) == v` whenever the first conversion succeeds |
| Converter.ConvertCompose | src/converter.py:127-130 | converting U to V and then V to W equals converting U to W directly |
| Converter.ConvertMonotonic | src/converter.py:127-130 | `convert` preserves order: `x < y` exactly when `convert(x, U, V) < convert(y, U, V)` |
| ConverterExamples.LengthCodesResolve | src/converter.py:15-18 | "m", "km", "mi" and "ft", passed as written, resolve to themselves |
| ConverterExamples.MassCodesResolve | src/converter.py:21-23 | "kg", "g" and "lb" resolve to themselves |
| ConverterExamples.TemperatureCodesResolve | src/converter.py:26-28 | "K", "C" and "F" resolve to themselves, through the lower-case keys "k", "c" and "f" |
| ConverterExamples.TimeCodesResolve | src/converter.py:31-33 | "s", "min" and "h" resolve to themselves |
| ConverterExamples.SpeedCodesResolve | src/converter.py:36-38 | "mps", "kph" and "mph" resolve to themselves |
| ConverterExamples.VolumeCodesResolve | src/converter.py:41-43 | "L", "mL" and "gal" resolve to themselves, through the keys "l" and "ml" |
| ConverterExamples.AreaCodesResolve | src/converter.py:46-48 | "sqm", "sqft" and "acre" resolve to themselves |
| ConverterExamples.CanonOfCode | src/converter.py:13-57 | `_canon(code) == code` for every key of the unit table |
| ConverterExamples.DocumentedConversions | src/converter.py:5-6 | 60 mph is 96.56064 kph and 1 gal is 3.785411784 L, on unit codes |
| ConverterExamples.DocumentedTemperatures | test/test_pytest.py:24-25 | 0 C is 32 F (also the usage line `src/converter.py:7`) and 212 F is 373.15 K, on unit codes |
| ConverterExamples.MilesPerHourToKilometersPerHour | src/converter.py:5 | `convert(60, "mph", "kph") == 96.56064` |
| ConverterExamples.GallonToLiter | src/converter.py:6 | `convert(1, "gal", "L") == 3.785411784` |
| ConverterExamples.CelsiusToFahrenheit | src/converter.py:7 | `convert(0, "C", "F") == 32` |
| ConverterExamples.FahrenheitToKelvin | test/test_pytest.py:25 | `convert(212, "F", "K") == 373.15` |
| ConverterExamples.TemperatureConversions | test/test_pytest.py:26 | 273.15 K is 0 C, on unit codes |
| ConverterExamples.KelvinToCelsius | test/test_pytest.py:26 | `convert(273.15, "K", "C") == 0` |
| ConverterExamples.LengthConversions | test/test_pytest.py:6-10 | the length cases, on unit codes |
| ConverterExamples.KilometerToMeter | test/test_pytest.py:7 | `convert(1, "km", "m") == 1000` |
| ConverterExamples.MileToKilometer | test/test_pytest.py:8 | `convert(1, "mi", "km") == 1.609344` |
| ConverterExamples.FootToMeter | test/test_pytest.py:9 | `convert(10, "ft", "m") == 3.048` |
| ConverterExamples.MassConversions | test/test_pytest.py:15-18 | the mass cases, on unit codes |
| ConverterExamples.KilogramToGram | test/test_pytest.py:16 | `convert(1, "kg", "g") == 1000` |
| ConverterExamples.PoundToKilogram | test/test_pytest.py:17 | `convert(1, "lb", "kg") == 0.45359237` |
| ConverterExamples.TimeConversions | test/test_pytest.py:32-36 | the time cases, on unit codes |
| ConverterExamples.HourToMinute | test/test_pytest.py:33 | `convert(2, "h", "min") == 120` |
| ConverterExamples.MinuteToHour | test/test_pytest.py:34 | `convert(90, "min", "h") == 1.5` |
| ConverterExamples.SecondToMinute | test/test_pytest.py:35 | `convert(30, "s", "min") == 0.5` |
| ConverterExamples.SpeedConversions | test/test_pytest.py:41-45 | the speed cases, on unit codes |
| ConverterExamples.KilometersPerHourToMetersPerSecond | test/test_pytest.py:43 | `convert(100, "kph", "mps")` is exactly 250/9 (the tested 27.7777777778) |
| ConverterExamples.MetersPerSecondToMilesPerHour | test/test_pytest.py:44 | `convert(10, "mps", "mph")` is exactly 31250/1397 (the tested 22.3693629205) |
| ConverterExamples.VolumeConversions | test/test_pytest.py:52 | 500 mL is 0.5 L, on unit codes |
| ConverterExamples.MilliliterToLiter | test/test_pytest.py:52 | `convert(500, "mL", "L") == 0.5` |
| ConverterExamples.AreaConversions | test/test_pytest.py:58-61 | the area cases, on unit codes |
| ConverterExamples.SquareFootToSquareMeter | test/test_pytest.py:59 | `convert(10, "sqft", "sqm") == 0.9290304` |
| ConverterExamples.AcreToSquareMeter | test/test_pytest.py:60 | `convert(1, "acre", "sqm") == 4046.8564224` |
| ConverterExamples.LengthIsNotMass | test/test_pytest.py:67 | metres and kilograms are in different categories |
| ConverterExamples.MeterToKilogramIsRejected | test/test_pytest.py:67 | `convert(1, "m", "kg")` fails with incompatible categories |
| ConverterExamples.NopeIsNoAlias | test/test_pytest.py:68 | "nope" is not a key of `ALIASES` |
| ConverterExamples.NopeIsNormal | test/test_pytest.py:68 | "nope" is its own normalised key |
| ConverterExamples.UnknownUnitIsRejected | test/test_pytest.py:68 | "nope" is not an alias, so `convert(1, "nope", "m")` fails with an unknown unit |
| ConverterExamples.TextValueIsRejected | test/test_pytest.py:69 | `convert("x", "m", "km")` fails on the value, whatever the units |

## Left out

- Floating-point rounding. Floats are exact reals. The tests' `isclose` tolerances are therefore replaced by exact equalities. A float value that is not exactly representable, such as 273.15, is taken at its decimal value.
- Python's arbitrary-precision ints are modelled by Dafny's unbounded `int`. Pure int arithmetic is therefore exact in both. The int-to-float conversions are not modelled faithfully: Python rounds an int above 2**53 to the nearest float and raises OverflowError from about 2**1024. This affects `float(value)` in `convert` (`src/converter.py:129`), mixed int/float `+ - *` in `fun1`-`fun3`, true division in `fun4`'s mean and `safe_divide`, and `float ** int` in `power`. The model returns the exact real result in each of these cases and never raises OverflowError.
- The float values inf and nan. They pass `_is_number` but have no counterpart among the reals, so the model has no such values. With them the source behaves differently from the model: `safe_divide(1.0, inf)` is 0.0, for which `r * y == x` fails, and a nan input breaks `fun4`'s `range >= 0`.
- Calculator.Power: the contract states the result only for natural-number int exponents. Any exponent that is not a non-negative int, a float with an integral value such as `power(2, 2.0)` included, is handed to the `hostPow` parameter. That parameter stands for the host's `pow`, so the result then depends on that foreign routine.
- Float overflow. A float result beyond the largest double is not modelled, because the reals have no such bound. Python raises OverflowError for `power(1e200, 2)`, where `Calculator.Power` promises an Ok result. `fun3(1e200, 1e200)` and `convert(1e308, "km", "m")` return inf, where the model returns the exact real product.
- Full Unicode `str.lower()` and `str.strip()`:
  - `lower` folds only A-Z;
  - `strip` removes a fixed set: the ASCII whitespace, U+001C-U+001F, U+0085 and U+00A0.
  - So, for example, the Kelvin sign U+212A, which Python lower-cases to "k", is not modelled.
  - "°c" and "°f" are unaffected, because "°" has no case.
- Exception classes and message texts:
  - the calculator keeps ValueError and ZeroDivisionError apart;
  - the converter's errors are all ValueError in Python, and the model keeps one constructor per raise site without the message text.
- The test harness code (`test/test_pytest.py`, `test/test_unittest.py`). Its cases appear only as the example lemmas above.
