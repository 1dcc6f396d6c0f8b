/** The conversion that the "Convert" button performs, separated from the
    widgets: resolve (category, from unit, to unit, quantity) against the
    conversion table, or fail. */
module Converter {
  import opened ConversionTable
  import opened ResultFormat

  /** The two ways the resolution fails. */
  datatype ConvertError =
    /** The category is not a key of the table: the lookup raises a
        KeyError, which the callback's catch-all handler reports. */
    | UnknownCategory
    /** A unit is not a key of the selected category: "Invalid unit
        selection". */
    | InvalidUnitSelection

  datatype Result = Ok(value: real) | Err(error: ConvertError)

  /** The linear conversion through the base unit: divide by the source
      unit's factor (units per base unit) to reach the base unit, then
      multiply by the target unit's factor. */
  function ViaBase(quantity: real, fromFactor: real, toFactor: real): (r: real)
    requires fromFactor > 0.0
    ensures r * fromFactor == quantity * toFactor
  {
    var baseValue := quantity / fromFactor;
    baseValue * toFactor
  }

  /** Resolve a conversion request in a known category: validate both
      units, then apply the pairwise formula for temperature (or return
      the quantity itself when both units are equal), or convert through
      the base unit for every other category. */
  function ConvertIn(c: Category, fromUnit: string, toUnit: string, quantity: real): (r: Result)
    ensures r.Err? <==> fromUnit !in Units(c) || toUnit !in Units(c)
    ensures r.Err? ==> r.error == InvalidUnitSelection
  {
    if fromUnit !in Units(c) || toUnit !in Units(c) then Err(InvalidUnitSelection)
    else if c == Temperature then
      if fromUnit == toUnit then Ok(quantity)
      else Ok(TempConvert(ParseTempUnit(fromUnit).value, ParseTempUnit(toUnit).value, quantity))
    else
      Ok(ViaBase(quantity, Factor(c, fromUnit), Factor(c, toUnit)))
  }

  /** Resolve a conversion request given the category's name: an unknown
      name fails before any unit is looked at. */
  function Convert(category: string, fromUnit: string, toUnit: string, quantity: real): (r: Result)
    ensures r == Err(UnknownCategory) <==> ParseCategory(category).None?
    ensures r == Err(InvalidUnitSelection) <==>
      ParseCategory(category).Some? &&
      (fromUnit !in Units(ParseCategory(category).value) || toUnit !in Units(ParseCategory(category).value))
  {
    match ParseCategory(category)
    case None => Err(UnknownCategory)
    case Some(c) => ConvertIn(c, fromUnit, toUnit, quantity)
  }

  /** Naming a category of the table resolves in that category. */
  lemma ConvertByName(c: Category, fromUnit: string, toUnit: string, quantity: real)
    ensures Convert(CategoryName(c), fromUnit, toUnit, quantity) == ConvertIn(c, fromUnit, toUnit, quantity)
  {
    CategoriesComplete(c);
  }

  // ----- the conversion through the base unit -----

  /** Converting to the same factor gives back the quantity. */
  lemma ViaBaseIdentity(q: real, f: real)
    requires f > 0.0
    ensures ViaBase(q, f, f) == q
  {
    assert q / f * f == q;
  }

  /** Going there and back again gives back the quantity. */
  lemma ViaBaseRoundTrip(q: real, f: real, g: real)
    requires f > 0.0 && g > 0.0
    ensures ViaBase(ViaBase(q, f, g), g, f) == q
  {
    assert q / f * g / g == q / f;
    assert q / f * f == q;
  }

  /** Two hops through the base unit equal one. */
  lemma ViaBaseCompose(q: real, f: real, g: real, h: real)
    requires f > 0.0 && g > 0.0
    ensures ViaBase(ViaBase(q, f, g), g, h) == ViaBase(q, f, h)
  {
    assert q / f * g / g == q / f;
  }

  /** The result is the quantity times the ratio of the two factors. */
  lemma ViaBaseRatio(q: real, f: real, g: real)
    requires f > 0.0
    ensures ViaBase(q, f, g) == q * (g / f)
  {
    assert q / f == q * (1.0 / f);
  }

  /** Scaling the quantity scales the result; zero stays zero. */
  lemma ViaBaseHomogeneous(q: real, f: real, g: real, k: real)
    requires f > 0.0
    ensures ViaBase(k * q, f, g) == k * ViaBase(q, f, g)
    ensures ViaBase(0.0, f, g) == 0.0
  {
    assert (k * q) / f == k * (q / f);
  }

  /** With a positive target factor the conversion is strictly increasing. */
  lemma ViaBaseIncreasing(x: real, y: real, f: real, g: real)
    requires f > 0.0 && g > 0.0 && x < y
    ensures ViaBase(x, f, g) < ViaBase(y, f, g)
  {
    assert x / f < y / f;
  }

  // ----- properties of the resolution -----

  /** For temperature the explicit equal-units check agrees with the
      diagonal formulas: the result is always the table's formula. */
  lemma ConvertTemperature(a: string, b: string, q: real)
    requires a in Units(Temperature) && b in Units(Temperature)
    ensures ConvertIn(Temperature, a, b, q) == Ok(TempConvert(ParseTempUnit(a).value, ParseTempUnit(b).value, q))
  {
    if a == b {
      TempDiagonal(ParseTempUnit(a).value, q);
    }
  }

  /** Converting a unit to itself returns the quantity unchanged, in every
      category. */
  lemma ConvertIdentity(c: Category, u: string, q: real)
    requires u in Units(c)
    ensures ConvertIn(c, u, u, q) == Ok(q)
  {
    if IsLinear(c) {
      ViaBaseIdentity(q, Factor(c, u));
    }
  }

  /** Round trip: converting a->b and then b->a gives back the quantity,
      in every category. */
  lemma ConvertRoundTrip(c: Category, a: string, b: string, q: real)
    requires a in Units(c) && b in Units(c)
    ensures ConvertIn(c, a, b, q).Ok?
    ensures ConvertIn(c, b, a, ConvertIn(c, a, b, q).value) == Ok(q)
  {
    if c == Temperature {
      ConvertTemperature(a, b, q);
      var r := TempConvert(ParseTempUnit(a).value, ParseTempUnit(b).value, q);
      ConvertTemperature(b, a, r);
      TempInverse(ParseTempUnit(a).value, ParseTempUnit(b).value, q);
    } else {
      ViaBaseRoundTrip(q, Factor(c, a), Factor(c, b));
    }
  }

  /** Conversions compose: a->b followed by b->d is a->d, in every
      category. */
  lemma ConvertCompose(c: Category, a: string, b: string, d: string, q: real)
    requires a in Units(c) && b in Units(c) && d in Units(c)
    ensures ConvertIn(c, a, b, q).Ok?
    ensures ConvertIn(c, b, d, ConvertIn(c, a, b, q).value) == ConvertIn(c, a, d, q)
  {
    if c == Temperature {
      ConvertTemperature(a, b, q);
      var r := TempConvert(ParseTempUnit(a).value, ParseTempUnit(b).value, q);
      ConvertTemperature(b, d, r);
      ConvertTemperature(a, d, q);
      TempCompose(ParseTempUnit(a).value, ParseTempUnit(b).value, ParseTempUnit(d).value, q);
    } else {
      ViaBaseCompose(q, Factor(c, a), Factor(c, b), Factor(c, d));
    }
  }

  /** Linear conversions are homogeneous: scaling the quantity by k
      scales the result by k. */
  lemma ConvertHomogeneous(c: Category, a: string, b: string, q: real, k: real)
    requires IsLinear(c) && a in Units(c) && b in Units(c)
    ensures ConvertIn(c, a, b, q).Ok? && ConvertIn(c, a, b, k * q).Ok?
    ensures ConvertIn(c, a, b, k * q).value == k * ConvertIn(c, a, b, q).value
  {
    HomogeneousLink(ConvertIn(c, a, b, q), ConvertIn(c, a, b, k * q), Factor(c, a), Factor(c, b), q, k);
  }

  lemma HomogeneousLink(r: Result, scaled: Result, f: real, g: real, q: real, k: real)
    requires f > 0.0
    requires r == Ok(ViaBase(q, f, g)) && scaled == Ok(ViaBase(k * q, f, g))
    ensures scaled.value == k * r.value
  {
    ViaBaseHomogeneous(q, f, g, k);
  }

  /** A zero quantity converts to zero in every linear category. */
  lemma ConvertZero(c: Category, a: string, b: string)
    requires IsLinear(c) && a in Units(c) && b in Units(c)
    ensures ConvertIn(c, a, b, 0.0) == Ok(0.0)
  {
    ViaBaseHomogeneous(0.0, Factor(c, a), Factor(c, b), 0.0);
  }

  /** Every conversion is strictly increasing in the quantity. */
  lemma ConvertIncreasing(c: Category, a: string, b: string, x: real, y: real)
    requires a in Units(c) && b in Units(c) && x < y
    ensures ConvertIn(c, a, b, x).Ok? && ConvertIn(c, a, b, y).Ok?
    ensures ConvertIn(c, a, b, x).value < ConvertIn(c, a, b, y).value
  {
    if c == Temperature {
      ConvertTemperature(a, b, x);
      ConvertTemperature(a, b, y);
      TempIncreasing(ParseTempUnit(a).value, ParseTempUnit(b).value, x, y);
    } else {
      ViaBaseIncreasing(x, y, Factor(c, a), Factor(c, b));
    }
  }

  /** The units the menus preselect for a category always resolve. */
  lemma DefaultUnitsConvert(c: Category, q: real)
    ensures Convert(CategoryName(c), DefaultUnits(c).0, DefaultUnits(c).1, q).Ok?
  {
    ConvertByName(c, DefaultUnits(c).0, DefaultUnits(c).1, q);
  }

  // ----- the cases exercised by tests/test_unit_converter.py -----

  /** pytest.approx(actual, rel=1e-4) == expected: the difference is
      within 1e-4 of the actual value's magnitude (or within 1e-12). */
  predicate Approx(actual: real, expected: real)
  {
    Abs(expected - actual) <= 1e-4 * Abs(actual) || Abs(expected - actual) <= 1e-12
  }

  /** Converting between the i-th and j-th declared units of a linear
      category divides by the one declared factor and multiplies by the
      other. */
  lemma DeclaredUnitsConvert(c: Category, i: nat, j: nat, q: real)
    requires IsLinear(c) && i < |LinearTable(c)| && j < |LinearTable(c)|
    ensures Convert(CategoryName(c), LinearTable(c)[i].0, LinearTable(c)[j].0, q)
         == Ok(q / LinearTable(c)[i].1 * LinearTable(c)[j].1)
  {
    FactorOf(c, i);
    FactorOf(c, j);
    ConvertByName(c, LinearTable(c)[i].0, LinearTable(c)[j].0, q);
  }

  lemma LengthExamples()
    ensures Convert("length", "meters", "feet", 1.0) == Ok(3.28084)
    ensures Convert("length", "centimeters", "meters", 100.0) == Ok(1.0)
    ensures Convert("length", "kilometers", "miles", 1.0) == Ok(0.621371)
  {
    DeclaredUnitsConvert(Length, 0, 1, 1.0);
    DeclaredUnitsConvert(Length, 3, 0, 100.0);
    DeclaredUnitsConvert(Length, 4, 5, 1.0);
  }

  /** Ten meters is 32.8084 feet; zero meters is zero feet; ten meters is
      ten meters. */
  lemma MetersExamples()
    ensures Convert("length", "meters", "feet", 10.0) == Ok(32.8084)
    ensures Convert("length", "meters", "feet", 0.0) == Ok(0.0)
    ensures Convert("length", "meters", "meters", 10.0) == Ok(10.0)
  {
    DeclaredUnitsConvert(Length, 0, 1, 10.0);
    DeclaredUnitsConvert(Length, 0, 1, 0.0);
    DeclaredUnitsConvert(Length, 0, 0, 10.0);
  }

  /** feet to meters is 0.3048 only within the tests' tolerance. */
  lemma FeetToMetersExample()
    ensures Convert("length", "feet", "meters", 1.0).Ok?
    ensures Approx(Convert("length", "feet", "meters", 1.0).value, 0.3048)
    ensures Convert("length", "feet", "meters", 1.0) != Ok(0.3048)
  {
    DeclaredUnitsConvert(Length, 1, 0, 1.0);
  }

  lemma WeightExamples()
    ensures Convert("weight", "kilograms", "grams", 1.0) == Ok(1000.0)
    ensures Convert("weight", "grams", "kilograms", 1000.0) == Ok(1.0)
    ensures Convert("weight", "kilograms", "kilograms", 10.0) == Ok(10.0)
  {
    DeclaredUnitsConvert(Weight, 0, 3, 1.0);
    DeclaredUnitsConvert(Weight, 3, 0, 1000.0);
    DeclaredUnitsConvert(Weight, 0, 0, 10.0);
  }

  /** pounds to ounces is 16 only within the tests' tolerance. */
  lemma PoundsToOuncesExample()
    ensures Convert("weight", "pounds", "ounces", 1.0).Ok?
    ensures Approx(Convert("weight", "pounds", "ounces", 1.0).value, 16.0)
    ensures Convert("weight", "pounds", "ounces", 1.0) != Ok(16.0)
  {
    DeclaredUnitsConvert(Weight, 1, 2, 1.0);
  }

  lemma TemperatureExamples()
    ensures Convert("temperature", "celsius", "fahrenheit", 0.0) == Ok(32.0)
    ensures Convert("temperature", "celsius", "fahrenheit", 100.0) == Ok(212.0)
    ensures Convert("temperature", "celsius", "fahrenheit", -40.0) == Ok(-40.0)
    ensures Convert("temperature", "celsius", "kelvin", 0.0) == Ok(273.15)
    ensures Convert("temperature", "celsius", "celsius", 10.0) == Ok(10.0)
  {
    assert ParseCategory("temperature") == Some(Temperature);
  }

  /** A unit name that no category has is rejected, before any factor is
      looked up. */
  lemma InvalidUnitExample()
    ensures Convert("length", "invalid", "meters", 1.0) == Err(InvalidUnitSelection)
  {
    ConvertByName(Length, "invalid", "meters", 1.0);
    assert Lookup(LinearTable(Length), "invalid") == None;
  }

  /** A unit of another category is rejected just the same. */
  lemma ForeignUnitExample()
    ensures Convert("length", "meters", "celsius", 1.0) == Err(InvalidUnitSelection)
  {
    ConvertByName(Length, "meters", "celsius", 1.0);
    assert Lookup(LinearTable(Length), "celsius") == None;
  }

  /** Temperature accepts only its three scales. */
  lemma ForeignTemperatureUnitExample()
    ensures Convert("temperature", "meters", "kelvin", 1.0) == Err(InvalidUnitSelection)
  {
    ConvertByName(Temperature, "meters", "kelvin", 1.0);
    assert ParseTempUnit("meters").None?;
  }

  /** A category name outside the table fails the category lookup. */
  lemma UnknownCategoryExample()
    ensures Convert("nonexistent", "meters", "feet", 1.0) == Err(UnknownCategory)
  {
    assert "nonexistent"[0] != "temperature"[0];
    assert ParseCategory("nonexistent") == None;
  }

  /** The display branch the two scientific-notation test conversions
      take: one millionth of a meter in kilometers (1e-9) is rendered in
      scientific notation, a million meters in kilometers (1000) in fixed
      notation. */
  lemma FormatExamples()
    ensures Convert("length", "meters", "kilometers", 0.000001) == Ok(1e-9)
    ensures Convert("length", "meters", "kilometers", 1000000.0) == Ok(1000.0)
    ensures ChooseNotation(1e-9) == Scientific
    ensures ChooseNotation(1000.0) == Fixed
  {
    DeclaredUnitsConvert(Length, 0, 4, 0.000001);
    DeclaredUnitsConvert(Length, 0, 4, 1000000.0);
  }
}
