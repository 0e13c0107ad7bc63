/** The worked examples of the converter's documentation and of its test
    suite, as exact equalities over the reals, and its three rejected calls.
    Each example is first stated on unit codes, then on the unit names as
    the caller writes them. */
module ConverterExamples {
  import opened PyValues
  import opened Results
  import opened UnitNames
  import opened Converter

  // Every code of the unit table, passed to `_canon` as written, resolves
  // to itself: its lower-case form is an alias of it. The proof is split by
  // category only to keep each verification condition small.

  lemma LengthCodesResolve()
    ensures Canon(Str("m")) == Ok(Meter)
    ensures Canon(Str("km")) == Ok(Kilometer)
    ensures Canon(Str("mi")) == Ok(Mile)
    ensures Canon(Str("ft")) == Ok(Foot)
  {
    assert Aliases("m") == Some(Meter);
    assert Aliases("km") == Some(Kilometer);
    assert Aliases("mi") == Some(Mile);
    assert Aliases("ft") == Some(Foot);
    AliasesReachable("m");
    AliasesReachable("km");
    AliasesReachable("mi");
    AliasesReachable("ft");
  }

  lemma MassCodesResolve()
    ensures Canon(Str("kg")) == Ok(Kilogram)
    ensures Canon(Str("g")) == Ok(Gram)
    ensures Canon(Str("lb")) == Ok(Pound)
  {
    assert Aliases("kg") == Some(Kilogram);
    assert Aliases("g") == Some(Gram);
    assert Aliases("lb") == Some(Pound);
    AliasesReachable("kg");
    AliasesReachable("g");
    AliasesReachable("lb");
  }

  lemma TemperatureCodesResolve()
    ensures Canon(Str("K")) == Ok(Kelvin)
    ensures Canon(Str("C")) == Ok(Celsius)
    ensures Canon(Str("F")) == Ok(Fahrenheit)
  {
    assert Lower("K") == "k" && Aliases("k") == Some(Kelvin);
    assert Lower("C") == "c" && Aliases("c") == Some(Celsius);
    assert Lower("F") == "f" && Aliases("f") == Some(Fahrenheit);
    CanonOfAnyCase("K", "k");
    CanonOfAnyCase("C", "c");
    CanonOfAnyCase("F", "f");
  }

  lemma TimeCodesResolve()
    ensures Canon(Str("s")) == Ok(Second)
    ensures Canon(Str("min")) == Ok(Minute)
    ensures Canon(Str("h")) == Ok(Hour)
  {
    assert Aliases("s") == Some(Second);
    assert Aliases("min") == Some(Minute);
    assert Aliases("h") == Some(Hour);
    AliasesReachable("s");
    AliasesReachable("min");
    AliasesReachable("h");
  }

  lemma SpeedCodesResolve()
    ensures Canon(Str("mps")) == Ok(MetersPerSecond)
    ensures Canon(Str("kph")) == Ok(KilometersPerHour)
    ensures Canon(Str("mph")) == Ok(MilesPerHour)
  {
    assert Aliases("mps") == Some(MetersPerSecond);
    assert Aliases("kph") == Some(KilometersPerHour);
    assert Aliases("mph") == Some(MilesPerHour);
    AliasesReachable("mps");
    AliasesReachable("kph");
    AliasesReachable("mph");
  }

  lemma VolumeCodesResolve()
    ensures Canon(Str("L")) == Ok(Liter)
    ensures Canon(Str("mL")) == Ok(Milliliter)
    ensures Canon(Str("gal")) == Ok(Gallon)
  {
    assert Lower("L") == "l" && Aliases("l") == Some(Liter);
    assert Lower("mL") == "ml" && Aliases("ml") == Some(Milliliter);
    assert Aliases("gal") == Some(Gallon);
    CanonOfAnyCase("L", "l");
    CanonOfAnyCase("mL", "ml");
    AliasesReachable("gal");
  }

  lemma AreaCodesResolve()
    ensures Canon(Str("sqm")) == Ok(SquareMeter)
    ensures Canon(Str("sqft")) == Ok(SquareFoot)
    ensures Canon(Str("acre")) == Ok(Acre)
  {
    assert Aliases("sqm") == Some(SquareMeter);
    assert Aliases("sqft") == Some(SquareFoot);
    assert Aliases("acre") == Some(Acre);
    AliasesReachable("sqm");
    AliasesReachable("sqft");
    AliasesReachable("acre");
  }

  /** Every code of the unit table resolves to itself. */
  lemma CanonOfCode(u: UnitCode)
    ensures Canon(Str(Code(u))) == Ok(u)
  {
    match u
    case Meter | Kilometer | Mile | Foot => LengthCodesResolve();
    case Kilogram | Gram | Pound => MassCodesResolve();
    case Kelvin | Celsius | Fahrenheit => TemperatureCodesResolve();
    case Second | Minute | Hour => TimeCodesResolve();
    case MetersPerSecond | KilometersPerHour | MilesPerHour => SpeedCodesResolve();
    case Liter | Milliliter | Gallon => VolumeCodesResolve();
    case SquareMeter | SquareFoot | Acre => AreaCodesResolve();
  }

  /** The speed and volume examples of the converter's documentation, in
      terms of unit codes. */
  lemma DocumentedConversions()
    ensures ConvertBetween(60.0, MilesPerHour, KilometersPerHour) == Ok(96.56064)
    ensures ConvertBetween(1.0, Gallon, Liter) == Ok(3.785411784)
  {
  }

  /** The temperature examples of the documentation and the test suite, in
      terms of unit codes. */
  lemma DocumentedTemperatures()
    ensures ConvertBetween(0.0, Celsius, Fahrenheit) == Ok(32.0)
    ensures ConvertBetween(212.0, Fahrenheit, Kelvin) == Ok(373.15)
  {
  }

  /** The length cases of the test suite, in terms of unit codes. */
  lemma LengthConversions()
    ensures ConvertBetween(1.0, Kilometer, Meter) == Ok(1000.0)
    ensures ConvertBetween(1.0, Mile, Kilometer) == Ok(1.609344)
    ensures ConvertBetween(10.0, Foot, Meter) == Ok(3.048)
  {
  }

  /** The mass cases of the test suite, in terms of unit codes. */
  lemma MassConversions()
    ensures ConvertBetween(1.0, Kilogram, Gram) == Ok(1000.0)
    ensures ConvertBetween(1.0, Pound, Kilogram) == Ok(0.45359237)
  {
  }

  /** The temperature case of the test suite not already documented (273.15 K is 0 C). */
  lemma TemperatureConversions()
    ensures ConvertBetween(273.15, Kelvin, Celsius) == Ok(0.0)
  {
  }

  /** The time cases of the test suite, in terms of unit codes. */
  lemma TimeConversions()
    ensures ConvertBetween(2.0, Hour, Minute) == Ok(120.0)
    ensures ConvertBetween(90.0, Minute, Hour) == Ok(1.5)
    ensures ConvertBetween(30.0, Second, Minute) == Ok(0.5)
  {
  }

  /** The speed cases of the test suite, in terms of unit codes. */
  lemma SpeedConversions()
    ensures ConvertBetween(100.0, KilometersPerHour, MetersPerSecond) == Ok(250.0 / 9.0)
    ensures ConvertBetween(10.0, MetersPerSecond, MilesPerHour) == Ok(31250.0 / 1397.0)
  {
  }

  /** The volume case of the test suite not already documented (500 mL is 0.5 L). */
  lemma VolumeConversions()
    ensures ConvertBetween(500.0, Milliliter, Liter) == Ok(0.5)
  {
  }

  /** The area cases of the test suite, in terms of unit codes. */
  lemma AreaConversions()
    ensures ConvertBetween(10.0, SquareFoot, SquareMeter) == Ok(0.9290304)
    ensures ConvertBetween(1.0, Acre, SquareMeter) == Ok(4046.8564224)
  {
  }

  /** `convert(60, "mph", "kph")` is 96.56064. */
  lemma MilesPerHourToKilometersPerHour()
    ensures Convert(Int(60), Str("mph"), Str("kph")) == Ok(96.56064)
  {
    SpeedCodesResolve();
    ConvertOfResolved(Int(60), Str("mph"), Str("kph"), MilesPerHour, KilometersPerHour);
    DocumentedConversions();
  }

  /** `convert(1, "gal", "L")` is 3.785411784. */
  lemma GallonToLiter()
    ensures Convert(Int(1), Str("gal"), Str("L")) == Ok(3.785411784)
  {
    VolumeCodesResolve();
    ConvertOfResolved(Int(1), Str("gal"), Str("L"), Gallon, Liter);
    DocumentedConversions();
  }

  /** `convert(0, "C", "F")` is 32. */
  lemma CelsiusToFahrenheit()
    ensures Convert(Int(0), Str("C"), Str("F")) == Ok(32.0)
  {
    TemperatureCodesResolve();
    ConvertOfResolved(Int(0), Str("C"), Str("F"), Celsius, Fahrenheit);
    DocumentedTemperatures();
  }

  /** `convert(212, "F", "K")` is 373.15. */
  lemma FahrenheitToKelvin()
    ensures Convert(Int(212), Str("F"), Str("K")) == Ok(373.15)
  {
    TemperatureCodesResolve();
    ConvertOfResolved(Int(212), Str("F"), Str("K"), Fahrenheit, Kelvin);
    DocumentedTemperatures();
  }

  /** `convert(273.15, "K", "C")` is 0. */
  lemma KelvinToCelsius()
    ensures Convert(Float(273.15), Str("K"), Str("C")) == Ok(0.0)
  {
    TemperatureCodesResolve();
    ConvertOfResolved(Float(273.15), Str("K"), Str("C"), Kelvin, Celsius);
    TemperatureConversions();
  }

  /** `convert(1, "km", "m")` is 1000. */
  lemma KilometerToMeter()
    ensures Convert(Int(1), Str("km"), Str("m")) == Ok(1000.0)
  {
    LengthCodesResolve();
    ConvertOfResolved(Int(1), Str("km"), Str("m"), Kilometer, Meter);
    LengthConversions();
  }

  /** `convert(1, "mi", "km")` is 1.609344. */
  lemma MileToKilometer()
    ensures Convert(Int(1), Str("mi"), Str("km")) == Ok(1.609344)
  {
    LengthCodesResolve();
    ConvertOfResolved(Int(1), Str("mi"), Str("km"), Mile, Kilometer);
    LengthConversions();
  }

  /** `convert(10, "ft", "m")` is 3.048. */
  lemma FootToMeter()
    ensures Convert(Int(10), Str("ft"), Str("m")) == Ok(3.048)
  {
    LengthCodesResolve();
    ConvertOfResolved(Int(10), Str("ft"), Str("m"), Foot, Meter);
    LengthConversions();
  }

  /** `convert(1, "kg", "g")` is 1000. */
  lemma KilogramToGram()
    ensures Convert(Int(1), Str("kg"), Str("g")) == Ok(1000.0)
  {
    MassCodesResolve();
    ConvertOfResolved(Int(1), Str("kg"), Str("g"), Kilogram, Gram);
    MassConversions();
  }

  /** `convert(1, "lb", "kg")` is 0.45359237. */
  lemma PoundToKilogram()
    ensures Convert(Int(1), Str("lb"), Str("kg")) == Ok(0.45359237)
  {
    MassCodesResolve();
    ConvertOfResolved(Int(1), Str("lb"), Str("kg"), Pound, Kilogram);
    MassConversions();
  }

  /** `convert(2, "h", "min")` is 120. */
  lemma HourToMinute()
    ensures Convert(Int(2), Str("h"), Str("min")) == Ok(120.0)
  {
    TimeCodesResolve();
    ConvertOfResolved(Int(2), Str("h"), Str("min"), Hour, Minute);
    TimeConversions();
  }

  /** `convert(90, "min", "h")` is 1.5. */
  lemma MinuteToHour()
    ensures Convert(Int(90), Str("min"), Str("h")) == Ok(1.5)
  {
    TimeCodesResolve();
    ConvertOfResolved(Int(90), Str("min"), Str("h"), Minute, Hour);
    TimeConversions();
  }

  /** `convert(30, "s", "min")` is 0.5. */
  lemma SecondToMinute()
    ensures Convert(Int(30), Str("s"), Str("min")) == Ok(0.5)
  {
    TimeCodesResolve();
    ConvertOfResolved(Int(30), Str("s"), Str("min"), Second, Minute);
    TimeConversions();
  }

  /** `convert(100, "kph", "mps")` is exactly 250/9 (27.777...). */
  lemma KilometersPerHourToMetersPerSecond()
    ensures Convert(Int(100), Str("kph"), Str("mps")) == Ok(250.0 / 9.0)
  {
    SpeedCodesResolve();
    ConvertOfResolved(Int(100), Str("kph"), Str("mps"), KilometersPerHour, MetersPerSecond);
    SpeedConversions();
  }

  /** `convert(10, "mps", "mph")` is exactly 31250/1397 (22.369...). */
  lemma MetersPerSecondToMilesPerHour()
    ensures Convert(Int(10), Str("mps"), Str("mph")) == Ok(31250.0 / 1397.0)
  {
    SpeedCodesResolve();
    ConvertOfResolved(Int(10), Str("mps"), Str("mph"), MetersPerSecond, MilesPerHour);
    SpeedConversions();
  }

  /** `convert(500, "mL", "L")` is 0.5. */
  lemma MilliliterToLiter()
    ensures Convert(Int(500), Str("mL"), Str("L")) == Ok(0.5)
  {
    VolumeCodesResolve();
    ConvertOfResolved(Int(500), Str("mL"), Str("L"), Milliliter, Liter);
    VolumeConversions();
  }

  /** `convert(10, "sqft", "sqm")` is 0.9290304. */
  lemma SquareFootToSquareMeter()
    ensures Convert(Int(10), Str("sqft"), Str("sqm")) == Ok(0.9290304)
  {
    AreaCodesResolve();
    ConvertOfResolved(Int(10), Str("sqft"), Str("sqm"), SquareFoot, SquareMeter);
    AreaConversions();
  }

  /** `convert(1, "acre", "sqm")` is 4046.8564224. */
  lemma AcreToSquareMeter()
    ensures Convert(Int(1), Str("acre"), Str("sqm")) == Ok(4046.8564224)
  {
    AreaCodesResolve();
    ConvertOfResolved(Int(1), Str("acre"), Str("sqm"), Acre, SquareMeter);
    AreaConversions();
  }

  /** Metres and kilograms are in different categories. */
  lemma LengthIsNotMass()
    ensures ConvertBetween(1.0, Meter, Kilogram) == Err(IncompatibleCategories)
  {
  }

  /** `convert(1, "m", "kg")` is rejected: length and mass differ. */
  lemma MeterToKilogramIsRejected()
    ensures Convert(Int(1), Str("m"), Str("kg")) == Err(IncompatibleCategories)
  {
    LengthCodesResolve();
    MassCodesResolve();
    ConvertOfResolved(Int(1), Str("m"), Str("kg"), Meter, Kilogram);
    LengthIsNotMass();
  }

  /** "nope" is not an alias. */
  lemma NopeIsNoAlias()
    ensures Aliases("nope") == None
  {
  }

  /** "nope" is its own normal form. */
  lemma NopeIsNormal()
    ensures Normalize("nope") == "nope"
  {
    assert IsNormal("nope");
    NormalizeFixesNormal("nope");
  }

  /** "nope" is not an alias, so `convert(1, "nope", "m")` is rejected
      whatever the target unit. */
  lemma UnknownUnitIsRejected(toUnit: Value)
    ensures Convert(Int(1), Str("nope"), toUnit) == Err(UnknownUnit)
  {
    NopeIsNoAlias();
    NopeIsNormal();
    UnknownNameIsRejected(Int(1), Str("nope"), toUnit);
  }

  /** `convert("x", "m", "km")` is rejected before either unit is looked at. */
  lemma TextValueIsRejected(fromUnit: Value, toUnit: Value)
    ensures Convert(Str("x"), fromUnit, toUnit) == Err(NotANumber)
  {
  }
}
