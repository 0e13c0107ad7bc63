/** The unit converter: alias resolution, the unit table and `convert`.
    A value is converted by mapping it into its category's base unit with the
    source unit's forward function, then out of the base unit with the target
    unit's inverse function. */
module Converter {
  import opened PyValues
  import opened Results
  import opened UnitNames

  /** The canonical unit codes of the unit table (the source's code in brackets). */
  datatype UnitCode =
    | Meter | Kilometer | Mile | Foot                       // m km mi ft
    | Kilogram | Gram | Pound                              // kg g lb
    | Kelvin | Celsius | Fahrenheit                        // K C F
    | Second | Minute | Hour                               // s min h
    | MetersPerSecond | KilometersPerHour | MilesPerHour   // mps kph mph
    | Liter | Milliliter | Gallon                          // L mL gal
    | SquareMeter | SquareFoot | Acre                      // sqm sqft acre

  /** The code string the source uses for each canonical unit: the values of
      `ALIASES` and the keys of `UNITS`. */
  function Code(u: UnitCode): string {
    match u
    case Meter => "m"
    case Kilometer => "km"
    case Mile => "mi"
    case Foot => "ft"
    case Kilogram => "kg"
    case Gram => "g"
    case Pound => "lb"
    case Kelvin => "K"
    case Celsius => "C"
    case Fahrenheit => "F"
    case Second => "s"
    case Minute => "min"
    case Hour => "h"
    case MetersPerSecond => "mps"
    case KilometersPerHour => "kph"
    case MilesPerHour => "mph"
    case Liter => "L"
    case Milliliter => "mL"
    case Gallon => "gal"
    case SquareMeter => "sqm"
    case SquareFoot => "sqft"
    case Acre => "acre"
  }

  /** The unit table's keys as strings: the unit a code string names, if any. */
  function UnitOfCode(key: string): (r: Option<UnitCode>)
    ensures r.Some? ==> Code(r.value) == key
  {
    match key
    case "m" => Some(Meter)
    case "km" => Some(Kilometer)
    case "mi" => Some(Mile)
    case "ft" => Some(Foot)
    case "kg" => Some(Kilogram)
    case "g" => Some(Gram)
    case "lb" => Some(Pound)
    case "K" => Some(Kelvin)
    case "C" => Some(Celsius)
    case "F" => Some(Fahrenheit)
    case "s" => Some(Second)
    case "min" => Some(Minute)
    case "h" => Some(Hour)
    case "mps" => Some(MetersPerSecond)
    case "kph" => Some(KilometersPerHour)
    case "mph" => Some(MilesPerHour)
    case "L" => Some(Liter)
    case "mL" => Some(Milliliter)
    case "gal" => Some(Gallon)
    case "sqm" => Some(SquareMeter)
    case "sqft" => Some(SquareFoot)
    case "acre" => Some(Acre)
    case _ => None
  }

  /** Every unit's code is a key of the unit table and names that unit. */
  lemma CodeIsUnitKey(u: UnitCode)
    ensures UnitOfCode(Code(u)) == Some(u)
  {
  }

  /** Distinct units have distinct codes. */
  lemma CodeInjective(u: UnitCode, w: UnitCode)
    ensures Code(u) == Code(w) <==> u == w
  {
    CodeIsUnitKey(u);
    CodeIsUnitKey(w);
  }

  /** `ALIASES.get(key)`: the alias table, from accepted unit spellings
      (already lower-case and trimmed) to canonical unit codes. */
  function Aliases(key: string): Option<UnitCode> {
    match key
    // length
    case "m" | "meter" | "meters" | "metre" | "metres" => Some(Meter)
    case "km" | "kilometer" | "kilometers" | "kilometre" | "kilometres" => Some(Kilometer)
    case "mi" | "mile" | "miles" => Some(Mile)
    case "ft" | "foot" | "feet" => Some(Foot)
    // mass
    case "kg" | "kilogram" | "kilograms" => Some(Kilogram)
    case "g" | "gram" | "grams" => Some(Gram)
    case "lb" | "lbs" | "pound" | "pounds" => Some(Pound)
    // temperature
    case "c" | "°c" | "celsius" => Some(Celsius)
    case "f" | "°f" | "fahrenheit" => Some(Fahrenheit)
    case "k" | "kelvin" => Some(Kelvin)
    // time
    case "s" | "sec" | "secs" | "second" | "seconds" => Some(Second)
    case "min" | "minute" | "minutes" => Some(Minute)
    case "h" | "hr" | "hour" | "hours" => Some(Hour)
    // speed
    case "mps" | "m/s" => Some(MetersPerSecond)
    case "kph" | "km/h" | "kmh" => Some(KilometersPerHour)
    case "mph" => Some(MilesPerHour)
    // volume (US gallon)
    case "l" | "liter" | "liters" | "litre" | "litres" => Some(Liter)
    case "ml" | "milliliter" | "milliliters" | "millilitre" | "millilitres" => Some(Milliliter)
    case "gal" | "gallon" | "gallons" => Some(Gallon)
    // area
    case "sqm" | "m^2" | "square_meter" | "square_meters" => Some(SquareMeter)
    case "sqft" | "ft^2" | "square_foot" | "square_feet" => Some(SquareFoot)
    case "acre" | "acres" => Some(Acre)
    case _ => None
  }

  /** The physical categories; conversion stays within one. */
  datatype Category = Length | Mass | Temperature | Time | Speed | Volume | Area

  /** A unit: its category, the map into the category's base unit and the
      map back out of it. */
  datatype UnitDef = UnitDef(category: Category, forward: real -> real, inverse: real -> real)

  /** Canonical unit codes to their definitions. Base units: m, kg, K, s,
      mps, L and sqm. */
  const UNITS: map<UnitCode, UnitDef> := map[
    // length
    Meter := UnitDef(Length, v => v, v => v),
    Kilometer := UnitDef(Length, v => v * 1000.0, v => v / 1000.0),
    Mile := UnitDef(Length, v => v * 1609.344, v => v / 1609.344),
    Foot := UnitDef(Length, v => v * 0.3048, v => v / 0.3048),
    // mass
    Kilogram := UnitDef(Mass, v => v, v => v),
    Gram := UnitDef(Mass, v => v * 0.001, v => v / 0.001),
    Pound := UnitDef(Mass, v => v * 0.45359237, v => v / 0.45359237),
    // temperature (base K)
    Kelvin := UnitDef(Temperature, v => v, v => v),
    Celsius := UnitDef(Temperature, v => v + 273.15, v => v - 273.15),
    Fahrenheit := UnitDef(Temperature, v => (v - 32.0) * 5.0 / 9.0 + 273.15, v => (v - 273.15) * 9.0 / 5.0 + 32.0),
    // time
    Second := UnitDef(Time, v => v, v => v),
    Minute := UnitDef(Time, v => v * 60.0, v => v / 60.0),
    Hour := UnitDef(Time, v => v * 3600.0, v => v / 3600.0),
    // speed (base mps)
    MetersPerSecond := UnitDef(Speed, v => v, v => v),
    KilometersPerHour := UnitDef(Speed, v => v * (1000.0 / 3600.0), v => v / (1000.0 / 3600.0)),
    MilesPerHour := UnitDef(Speed, v => v * 0.44704, v => v / 0.44704),
    // volume (US gallon)
    Liter := UnitDef(Volume, v => v, v => v),
    Milliliter := UnitDef(Volume, v => v * 0.001, v => v / 0.001),
    Gallon := UnitDef(Volume, v => v * 3.785411784, v => v / 3.785411784),
    // area
    SquareMeter := UnitDef(Area, v => v, v => v),
    SquareFoot := UnitDef(Area, v => v * 0.09290304, v => v / 0.09290304),
    Acre := UnitDef(Area, v => v * 4046.8564224, v => v / 4046.8564224)
  ]

  /** The ways `convert` can fail; in Python each is a ValueError with its own message. */
  datatype ConvertError =
    | NotANumber              // "Value must be a number (int or float)."
    | UnitNotString           // "Unit must be a string."
    | UnknownUnit             // "Unknown unit: ..."
    | UnsupportedUnit         // "Unsupported unit."
    | IncompatibleCategories  // "Incompatible categories: ... -> ..."

  /** Every canonical code has an entry in the unit table. */
  lemma UnitsComplete()
    ensures forall u: UnitCode :: u in UNITS
  {
    forall u: UnitCode ensures u in UNITS {
      assert || u.Meter? || u.Kilometer? || u.Mile? || u.Foot?
             || u.Kilogram? || u.Gram? || u.Pound?
             || u.Kelvin? || u.Celsius? || u.Fahrenheit?
             || u.Second? || u.Minute? || u.Hour?
             || u.MetersPerSecond? || u.KilometersPerHour? || u.MilesPerHour?
             || u.Liter? || u.Milliliter? || u.Gallon?
             || u.SquareMeter? || u.SquareFoot? || u.Acre?;
    }
  }

  /** `_category(unit)` */
  function CategoryOf(u: UnitCode): Category
    requires u in UNITS
  {
    UNITS[u].category
  }

  /** `_canon(unit)`: a non-string unit is rejected first; a string is
      normalised with `strip().lower()` and looked up in the alias table. */
  function Canon(unit: Value): (r: Result<UnitCode, ConvertError>)
    ensures !unit.Str? ==> r == Err(UnitNotString)
    ensures unit.Str? && r.Ok? ==> Aliases(Normalize(unit.s)) == Some(r.value)
    ensures unit.Str? && r.Err? ==> r.error == UnknownUnit && Aliases(Normalize(unit.s)) == None
    ensures r.Ok? ==> r.value in UNITS
  {
    UnitsComplete();
    if !unit.Str? then Err(UnitNotString)
    else match Aliases(Normalize(unit.s))
      case None => Err(UnknownUnit)
      case Some(u) => Ok(u)
  }

  /** The last two steps of `convert`, once both units have resolved: the
      category check, then the conversion through the base unit. A
      successful result denotes the same quantity as the input: both map to
      the same value in the category's base unit. */
  function ConvertBetween(v: real, f: UnitCode, t: UnitCode): (r: Result<real, ConvertError>)
    requires f in UNITS && t in UNITS
    ensures r.Ok? <==> CategoryOf(f) == CategoryOf(t)
    ensures r.Err? ==> r.error == IncompatibleCategories
    ensures r.Ok? ==> UNITS[t].forward(r.value) == UNITS[f].forward(v)
  {
    if CategoryOf(f) != CategoryOf(t) then Err(IncompatibleCategories)
    else
      var toBase := UNITS[f].forward;
      var fromBase := UNITS[t].inverse;
      var baseVal := toBase(v);
      ForwardAfterInverse(t, baseVal);
      Ok(fromBase(baseVal))
  }

  /** `convert(value, from_unit, to_unit)`. The checks run in the source's
      order: the value, then the source unit, then the target unit, then the
      categories; the "unsupported unit" check in between never fails. */
  function Convert(value: Value, fromUnit: Value, toUnit: Value): (r: Result<real, ConvertError>)
    ensures !IsNumber(value) ==> r == Err(NotANumber)
    ensures IsNumber(value) && Canon(fromUnit).Err? ==> r == Err(Canon(fromUnit).error)
    ensures IsNumber(value) && Canon(fromUnit).Ok? && Canon(toUnit).Err? ==> r == Err(Canon(toUnit).error)
    ensures r != Err(UnsupportedUnit)
    ensures IsNumber(value) && Canon(fromUnit).Ok? && Canon(toUnit).Ok? ==>
      (r.Ok? <==> CategoryOf(Canon(fromUnit).value) == CategoryOf(Canon(toUnit).value))
    ensures IsNumber(value) && Canon(fromUnit).Ok? && Canon(toUnit).Ok? ==>
      (CategoryOf(Canon(fromUnit).value) != CategoryOf(Canon(toUnit).value) ==> r == Err(IncompatibleCategories))
    ensures r.Err? && r.error == IncompatibleCategories ==>
      IsNumber(value) && Canon(fromUnit).Ok? && Canon(toUnit).Ok?
    ensures r.Ok? ==>
      && IsNumber(value) && Canon(fromUnit).Ok? && Canon(toUnit).Ok?
      && UNITS[Canon(toUnit).value].forward(r.value) == UNITS[Canon(fromUnit).value].forward(ToReal(value))
  {
    if !IsNumber(value) then Err(NotANumber)
    else match Canon(fromUnit)
      case Err(e) => Err(e)
      case Ok(f) =>
        match Canon(toUnit)
        case Err(e) => Err(e)
        case Ok(t) =>
          if f !in UNITS || t !in UNITS then Err(UnsupportedUnit)
          else ConvertBetween(ToReal(value), f, t)
  }

  /** Each unit's inverse undoes its forward function, the affine
      temperature pairs included. */
  lemma InverseAfterForward(u: UnitCode, v: real)
    requires u in UNITS
    ensures UNITS[u].inverse(UNITS[u].forward(v)) == v
  {
  }

  /** Each unit's forward function undoes its inverse. */
  lemma ForwardAfterInverse(u: UnitCode, v: real)
    requires u in UNITS
    ensures UNITS[u].forward(UNITS[u].inverse(v)) == v
  {
  }

  // Every key of the alias table is normal. The proof is split by key
  // length only to keep each verification condition small.

  lemma KeysOfLength1Or2AreNormal(key: string)
    requires Aliases(key).Some? && |key| <= 2
    ensures IsNormal(key)
  {
  }

  lemma KeysOfLength3AreNormal(key: string)
    requires Aliases(key).Some? && |key| == 3
    ensures IsNormal(key)
  {
  }

  lemma KeysOfLength4AreNormal(key: string)
    requires Aliases(key).Some? && |key| == 4
    ensures IsNormal(key)
  {
  }

  lemma KeysOfLength5AreNormal(key: string)
    requires Aliases(key).Some? && |key| == 5
    ensures IsNormal(key)
  {
  }

  lemma KeysOfLength6AreNormal(key: string)
    requires Aliases(key).Some? && |key| == 6
    ensures IsNormal(key)
  {
  }

  lemma KeysOfLength7AreNormal(key: string)
    requires Aliases(key).Some? && |key| == 7
    ensures IsNormal(key)
  {
  }

  lemma KeysOfLength8Or9AreNormal(key: string)
    requires Aliases(key).Some? && 8 <= |key| <= 9
    ensures IsNormal(key)
  {
  }

  lemma KeysOfLength10AreNormal(key: string)
    requires Aliases(key).Some? && |key| == 10
    ensures IsNormal(key)
  {
  }

  lemma KeysOfLength11AreNormal(key: string)
    requires Aliases(key).Some? && |key| == 11
    ensures IsNormal(key)
  {
  }

  lemma KeysOfLength12Or13AreNormal(key: string)
    requires Aliases(key).Some? && 12 <= |key|
    ensures IsNormal(key)
  {
  }

  /** Every key of the alias table is already lower-case and trimmed. */
  lemma AliasKeysAreNormal(key: string)
    requires Aliases(key).Some?
    ensures IsNormal(key)
  {
    if |key| <= 2 {
      KeysOfLength1Or2AreNormal(key);
    } else if |key| == 3 {
      KeysOfLength3AreNormal(key);
    } else if |key| == 4 {
      KeysOfLength4AreNormal(key);
    } else if |key| == 5 {
      KeysOfLength5AreNormal(key);
    } else if |key| == 6 {
      KeysOfLength6AreNormal(key);
    } else if |key| == 7 {
      KeysOfLength7AreNormal(key);
    } else if 8 <= |key| <= 9 {
      KeysOfLength8Or9AreNormal(key);
    } else if |key| == 10 {
      KeysOfLength10AreNormal(key);
    } else if |key| == 11 {
      KeysOfLength11AreNormal(key);
    } else {
      KeysOfLength12Or13AreNormal(key);
    }
  }

  /** Every value of the alias table is a key of the unit table: the code
      string it stands for names the same unit there. */
  lemma AliasValuesAreUnitKeys(key: string)
    requires Aliases(key).Some?
    ensures UnitOfCode(Code(Aliases(key).value)) == Aliases(key)
    ensures Aliases(key).value in UNITS
  {
    CodeIsUnitKey(Aliases(key).value);
    UnitsComplete();
  }

  /** Every alias is reachable: looking up its own spelling resolves to its code. */
  lemma AliasesReachable(key: string)
    requires Aliases(key).Some?
    ensures Canon(Str(key)) == Ok(Aliases(key).value)
  {
    AliasKeysAreNormal(key);
    NormalizeFixesNormal(key);
  }

  /** `_canon` depends only on the normalised spelling. */
  lemma CanonUsesNormalForm(s: string)
    ensures Canon(Str(s)) == Canon(Str(Normalize(s)))
  {
    NormalizeIdempotent(s);
  }

  /** Spellings that differ only in letter case resolve alike. */
  lemma CanonIgnoresCase(a: string, b: string)
    requires Lower(a) == Lower(b)
    ensures Canon(Str(a)) == Canon(Str(b))
  {
    NormalizeIgnoresCase(a, b);
  }

  /** Any spelling whose lower-case form is an alias resolves to that
      alias's code, e.g. "C", "Kg" or "mL". */
  lemma CanonOfAnyCase(s: string, key: string)
    requires Lower(s) == key && Aliases(key).Some?
    ensures Canon(Str(s)) == Ok(Aliases(key).value)
  {
    AliasKeysAreNormal(key);
    LowerOfLower(key);
    CanonIgnoresCase(s, key);
    AliasesReachable(key);
  }

  /** Surrounding whitespace does not change how a spelling resolves. */
  lemma CanonIgnoresPadding(pre: string, s: string, post: string)
    requires AllSpace(pre) && AllSpace(post)
    ensures Canon(Str(pre + s + post)) == Canon(Str(s))
  {
    NormalizeIgnoresPadding(pre, s, post);
  }

  /** A number with a source unit name that is no alias is rejected as an
      unknown unit, whatever the target unit. */
  lemma UnknownNameIsRejected(value: Value, fromUnit: Value, toUnit: Value)
    requires IsNumber(value) && fromUnit.Str? && Aliases(Normalize(fromUnit.s)) == None
    ensures Convert(value, fromUnit, toUnit) == Err(UnknownUnit)
  {
  }

  /** Each unit's forward function is one-to-one, so the result of a
      successful `Convert` is the only value with its base-unit image. */
  lemma ForwardInjective(u: UnitCode, a: real, b: real)
    requires u in UNITS
    ensures UNITS[u].forward(a) == UNITS[u].forward(b) <==> a == b
  {
    InverseAfterForward(u, a);
    InverseAfterForward(u, b);
  }

  /** Once both units have resolved, `convert` is `ConvertBetween` on their codes. */
  lemma ConvertOfResolved(value: Value, fromUnit: Value, toUnit: Value, f: UnitCode, t: UnitCode)
    requires IsNumber(value) && Canon(fromUnit) == Ok(f) && Canon(toUnit) == Ok(t)
    ensures f in UNITS && t in UNITS
    ensures Convert(value, fromUnit, toUnit) == ConvertBetween(ToReal(value), f, t)
  {
  }

  /** Converting a unit to itself returns the value unchanged (as a float). */
  lemma ConvertIdentity(value: Value, unit: Value)
    requires IsNumber(value) && Canon(unit).Ok?
    ensures Convert(value, unit, unit) == Ok(ToReal(value))
  {
    ForwardInjective(Canon(unit).value, Convert(value, unit, unit).value, ToReal(value));
  }

  /** Converting there and back returns the original value. */
  lemma ConvertRoundTrip(value: Value, fromUnit: Value, toUnit: Value)
    requires Convert(value, fromUnit, toUnit).Ok?
    ensures Convert(Float(Convert(value, fromUnit, toUnit).value), toUnit, fromUnit) == Ok(ToReal(value))
  {
    var r := Convert(value, fromUnit, toUnit).value;
    var back := Convert(Float(r), toUnit, fromUnit);
    assert back.Ok?;
    ForwardInjective(Canon(fromUnit).value, back.value, ToReal(value));
  }

  /** Converting through an intermediate unit of the same category is the
      same as converting directly. */
  lemma ConvertCompose(value: Value, a: Value, b: Value, c: Value)
    requires Convert(value, a, b).Ok? && Convert(Float(Convert(value, a, b).value), b, c).Ok?
    ensures Convert(Float(Convert(value, a, b).value), b, c) == Convert(value, a, c)
  {
    var r1 := Convert(value, a, b).value;
    var r2 := Convert(Float(r1), b, c);
    var direct := Convert(value, a, c);
    assert direct.Ok?;
    ForwardInjective(Canon(c).value, r2.value, direct.value);
  }

  /** The base unit of each category (forward and inverse are the identity). */
  function BaseUnit(c: Category): (u: UnitCode)
    ensures u in UNITS && UNITS[u].category == c
    ensures UNITS[u].forward(1.0) == 1.0
  {
    match c
    case Length => Meter
    case Mass => Kilogram
    case Temperature => Kelvin
    case Time => Second
    case Speed => MetersPerSecond
    case Volume => Liter
    case Area => SquareMeter
  }

  /** A base unit maps every value to itself, in both directions. */
  lemma BaseUnitIsIdentity(c: Category, v: real)
    ensures UNITS[BaseUnit(c)].forward(v) == v && UNITS[BaseUnit(c)].inverse(v) == v
  {
  }

  /** Each category has exactly one base unit: any unit that leaves 1 unchanged is it. */
  lemma BaseUnitUnique(u: UnitCode)
    requires u in UNITS && UNITS[u].forward(1.0) == 1.0
    ensures u == BaseUnit(UNITS[u].category)
  {
  }

  /** `_category` and `BaseUnit` fit together: every category is the
      category of its base unit, and a unit is the base unit of its own
      category exactly when it maps 1 to 1. */
  lemma CategoryOfBaseUnit(u: UnitCode)
    requires u in UNITS
    ensures CategoryOf(BaseUnit(CategoryOf(u))) == CategoryOf(u)
    ensures BaseUnit(CategoryOf(u)) == u <==> UNITS[u].forward(1.0) == 1.0
  {
    if UNITS[u].forward(1.0) == 1.0 {
      BaseUnitUnique(u);
    }
  }

  /** Where a unit puts 0 in its base unit. */
  function Offset(u: UnitCode): real
    requires u in UNITS
  {
    UNITS[u].forward(0.0)
  }

  /** How much one step of a unit is in its base unit. */
  function Scale(u: UnitCode): real
    requires u in UNITS
  {
    UNITS[u].forward(1.0) - UNITS[u].forward(0.0)
  }

  // The forward functions of one category are affine. The proof is split by
  // category only to keep each verification condition small.

  lemma LengthUnitsAreAffine(u: UnitCode, v: real)
    requires u in {Meter, Kilometer, Mile, Foot}
    ensures u in UNITS && Scale(u) > 0.0
    ensures UNITS[u].forward(v) == Offset(u) + v * Scale(u)
  {
    if u == Meter {
      assert Offset(u) == 0.0 && Scale(u) == 1.0;
    } else if u == Kilometer {
      assert Offset(u) == 0.0 && Scale(u) == 1000.0;
    } else if u == Mile {
      assert Offset(u) == 0.0 && Scale(u) == 1609.344;
    } else {
      assert Offset(u) == 0.0 && Scale(u) == 0.3048;
    }
  }

  lemma MassUnitsAreAffine(u: UnitCode, v: real)
    requires u in {Kilogram, Gram, Pound}
    ensures u in UNITS && Scale(u) > 0.0
    ensures UNITS[u].forward(v) == Offset(u) + v * Scale(u)
  {
    if u == Kilogram {
      assert Offset(u) == 0.0 && Scale(u) == 1.0;
    } else if u == Gram {
      assert Offset(u) == 0.0 && Scale(u) == 0.001;
    } else {
      assert Offset(u) == 0.0 && Scale(u) == 0.45359237;
    }
  }

  lemma TemperatureUnitsAreAffine(u: UnitCode, v: real)
    requires u in {Kelvin, Celsius, Fahrenheit}
    ensures u in UNITS && Scale(u) > 0.0
    ensures UNITS[u].forward(v) == Offset(u) + v * Scale(u)
  {
    if u == Kelvin {
      assert Offset(u) == 0.0 && Scale(u) == 1.0;
    } else if u == Celsius {
      assert Offset(u) == 273.15 && Scale(u) == 1.0;
    } else {
      assert Offset(u) == 273.15 - 32.0 * 5.0 / 9.0 && Scale(u) == 5.0 / 9.0;
    }
  }

  lemma TimeUnitsAreAffine(u: UnitCode, v: real)
    requires u in {Second, Minute, Hour}
    ensures u in UNITS && Scale(u) > 0.0
    ensures UNITS[u].forward(v) == Offset(u) + v * Scale(u)
  {
    if u == Second {
      assert Offset(u) == 0.0 && Scale(u) == 1.0;
    } else if u == Minute {
      assert Offset(u) == 0.0 && Scale(u) == 60.0;
    } else {
      assert Offset(u) == 0.0 && Scale(u) == 3600.0;
    }
  }

  lemma SpeedUnitsAreAffine(u: UnitCode, v: real)
    requires u in {MetersPerSecond, KilometersPerHour, MilesPerHour}
    ensures u in UNITS && Scale(u) > 0.0
    ensures UNITS[u].forward(v) == Offset(u) + v * Scale(u)
  {
    if u == MetersPerSecond {
      assert Offset(u) == 0.0 && Scale(u) == 1.0;
    } else if u == KilometersPerHour {
      assert Offset(u) == 0.0 && Scale(u) == 1000.0 / 3600.0;
    } else {
      assert Offset(u) == 0.0 && Scale(u) == 0.44704;
    }
  }

  lemma VolumeUnitsAreAffine(u: UnitCode, v: real)
    requires u in {Liter, Milliliter, Gallon}
    ensures u in UNITS && Scale(u) > 0.0
    ensures UNITS[u].forward(v) == Offset(u) + v * Scale(u)
  {
    if u == Liter {
      assert Offset(u) == 0.0 && Scale(u) == 1.0;
    } else if u == Milliliter {
      assert Offset(u) == 0.0 && Scale(u) == 0.001;
    } else {
      assert Offset(u) == 0.0 && Scale(u) == 3.785411784;
    }
  }

  lemma AreaUnitsAreAffine(u: UnitCode, v: real)
    requires u in {SquareMeter, SquareFoot, Acre}
    ensures u in UNITS && Scale(u) > 0.0
    ensures UNITS[u].forward(v) == Offset(u) + v * Scale(u)
  {
    if u == SquareMeter {
      assert Offset(u) == 0.0 && Scale(u) == 1.0;
    } else if u == SquareFoot {
      assert Offset(u) == 0.0 && Scale(u) == 0.09290304;
    } else {
      assert Offset(u) == 0.0 && Scale(u) == 4046.8564224;
    }
  }

  /** Every forward function is affine with a positive scale. */
  lemma ForwardIsAffine(u: UnitCode, v: real)
    requires u in UNITS
    ensures Scale(u) > 0.0
    ensures UNITS[u].forward(v) == Offset(u) + v * Scale(u)
  {
    if u in {Meter, Kilometer, Mile, Foot} {
      LengthUnitsAreAffine(u, v);
    } else if u in {Kilogram, Gram, Pound} {
      MassUnitsAreAffine(u, v);
    } else if u in {Kelvin, Celsius, Fahrenheit} {
      TemperatureUnitsAreAffine(u, v);
    } else if u in {Second, Minute, Hour} {
      TimeUnitsAreAffine(u, v);
    } else if u in {MetersPerSecond, KilometersPerHour, MilesPerHour} {
      SpeedUnitsAreAffine(u, v);
    } else if u in {Liter, Milliliter, Gallon} {
      VolumeUnitsAreAffine(u, v);
    } else {
      AreaUnitsAreAffine(u, v);
    }
  }

  /** Zero is zero in the base unit for every unit except Celsius and
      Fahrenheit, whose scales are offset. */
  lemma ZeroIsPreserved(u: UnitCode)
    requires u in UNITS
    ensures UNITS[u].forward(0.0) == 0.0 <==> u != Celsius && u != Fahrenheit
  {
  }

  /** Each unit's forward function is strictly increasing. */
  lemma ForwardMonotonic(u: UnitCode, a: real, b: real)
    requires u in UNITS
    ensures a < b <==> UNITS[u].forward(a) < UNITS[u].forward(b)
  {
    match u
    case Meter =>
    case Kilometer =>
    case Mile =>
    case Foot =>
    case Kilogram =>
    case Gram =>
    case Pound =>
    case Kelvin =>
    case Celsius =>
    case Fahrenheit =>
    case Second =>
    case Minute =>
    case Hour =>
    case MetersPerSecond =>
    case KilometersPerHour =>
    case MilesPerHour =>
    case Liter =>
    case Milliliter =>
    case Gallon =>
    case SquareMeter =>
    case SquareFoot =>
    case Acre =>
  }

  /** `convert` preserves the order of values: a larger input gives a larger result. */
  lemma ConvertMonotonic(x: Value, y: Value, fromUnit: Value, toUnit: Value)
    requires Convert(x, fromUnit, toUnit).Ok? && Convert(y, fromUnit, toUnit).Ok?
    ensures Less(x, y) <==> Convert(x, fromUnit, toUnit).value < Convert(y, fromUnit, toUnit).value
  {
    ForwardMonotonic(Canon(fromUnit).value, ToReal(x), ToReal(y));
    ForwardMonotonic(Canon(toUnit).value, Convert(x, fromUnit, toUnit).value, Convert(y, fromUnit, toUnit).value);
  }
}
