/** The constant conversion table of the unit converter: seven linear
    categories whose units carry a scale factor ("units per base unit"),
    and the temperature category whose units are related pairwise by
    affine formulas. Arithmetic is over `real`, so every factor and
    formula, written with decimal literals and rational coefficients, is
    exact here. */
module ConversionTable {

  datatype Option<T> = None | Some(value: T)

  datatype Category = Length | Weight | Temperature | Time | Volume | Speed | Pressure | Area

  /** The three temperature scales of the 3x3 formula table. */
  datatype TempUnit = Celsius | Fahrenheit | Kelvin

  /** The key of a category in the table. */
  function CategoryName(c: Category): string
  {
    match c
    case Length => "length"
    case Weight => "weight"
    case Temperature => "temperature"
    case Time => "time"
    case Volume => "volume"
    case Speed => "speed"
    case Pressure => "pressure"
    case Area => "area"
  }

  /** Looking a category up by its key; None plays the part of the
      KeyError an unknown key raises. */
  function ParseCategory(name: string): (r: Option<Category>)
    ensures r.Some? ==> CategoryName(r.value) == name
    ensures r.None? ==> forall c: Category :: CategoryName(c) != name
  {
    if name == "length" then Some(Length)
    else if name == "weight" then Some(Weight)
    else if name == "temperature" then Some(Temperature)
    else if name == "time" then Some(Time)
    else if name == "volume" then Some(Volume)
    else if name == "speed" then Some(Speed)
    else if name == "pressure" then Some(Pressure)
    else if name == "area" then Some(Area)
    else None
  }

  predicate IsLinear(c: Category)
  {
    c != Temperature
  }

  /** Every category's key parses back to that category. */
  lemma CategoriesComplete(c: Category)
    ensures ParseCategory(CategoryName(c)) == Some(c)
  {
  }

  // ----- linear categories -----

  /** The scale factors of a linear category, in declaration order, as
      (unit name, units per base unit) pairs. */
  function LinearTable(c: Category): (t: seq<(string, real)>)
    requires IsLinear(c)
    ensures |t| >= 2
    ensures t[0].1 == 1.0
    ensures forall i :: 0 <= i < |t| ==> t[i].1 > 0.0
  {
    match c
    case Length =>
      [("meters", 1.0), ("feet", 3.28084), ("inches", 39.3701),
       ("centimeters", 100.0), ("kilometers", 0.001), ("miles", 0.000621371)]
    case Weight =>
      [("kilograms", 1.0), ("pounds", 2.20462), ("ounces", 35.274), ("grams", 1000.0)]
    case Time =>
      [("seconds", 1.0), ("minutes", 1.0 / 60.0), ("hours", 1.0 / 3600.0), ("days", 1.0 / 86400.0)]
    case Volume =>
      [("liters", 1.0), ("gallons", 0.264172), ("fluid ounces", 33.814), ("milliliters", 1000.0)]
    case Speed =>
      [("meters/second", 1.0), ("kilometers/hour", 3.6), ("miles/hour", 2.23694)]
    case Pressure =>
      [("pascals", 1.0), ("bars", 1e-5), ("atmospheres", 9.86923e-6), ("psi", 0.000145038)]
    case Area =>
      [("square meters", 1.0), ("square feet", 10.7639), ("square inches", 1550.0),
       ("square centimeters", 10000.0), ("hectares", 0.0001), ("acres", 0.000247105)]
  }

  /** The keys of an ordered table, in order. */
  function Keys(entries: seq<(string, real)>): (ks: seq<string>)
    ensures |ks| == |entries|
    ensures forall i :: 0 <= i < |entries| ==> ks[i] == entries[i].0
  {
    if entries == [] then [] else [entries[0].0] + Keys(entries[1..])
  }

  /** Dictionary lookup in an ordered table: the value of the first entry
      whose key is `key`, or None when no entry has it. */
  function Lookup(entries: seq<(string, real)>, key: string): (r: Option<real>)
    ensures r.Some? <==> key in Keys(entries)
    ensures r.Some? ==> (key, r.value) in entries
  {
    if entries == [] then None
    else if entries[0].0 == key then Some(entries[0].1)
    else Lookup(entries[1..], key)
  }

  predicate DistinctKeys(entries: seq<(string, real)>)
  {
    forall i, j :: 0 <= i < j < |entries| ==> entries[i].0 != entries[j].0
  }

  /** With distinct keys, the key of the i-th entry finds the i-th value. */
  lemma {:induction false} LookupAt(entries: seq<(string, real)>, i: nat)
    requires DistinctKeys(entries)
    requires i < |entries|
    ensures Lookup(entries, entries[i].0) == Some(entries[i].1)
  {
    if i > 0 {
      assert entries[0].0 != entries[i].0;
      assert entries[1..][i - 1] == entries[i];
      LookupAt(entries[1..], i - 1);
    }
  }

  /** What a linear category's table must satisfy for the converter: at
      least two units, distinct names, the first unit is the base unit
      (factor 1), and every factor is strictly positive. */
  predicate WellFormedLinear(entries: seq<(string, real)>)
  {
    && |entries| >= 2
    && DistinctKeys(entries)
    && entries[0].1 == 1.0
    && forall i :: 0 <= i < |entries| ==> entries[i].1 > 0.0
  }

  lemma LinearTableWellFormed(c: Category)
    requires IsLinear(c)
    ensures WellFormedLinear(LinearTable(c))
  {
    match c
    case Length => LengthAreaWellFormed();
    case Area => LengthAreaWellFormed();
    case Weight => WeightTimeVolumeWellFormed();
    case Time => WeightTimeVolumeWellFormed();
    case Volume => WeightTimeVolumeWellFormed();
    case Speed => SpeedPressureWellFormed();
    case Pressure => SpeedPressureWellFormed();
  }

  lemma LengthAreaWellFormed()
    ensures WellFormedLinear(LinearTable(Length))
    ensures WellFormedLinear(LinearTable(Area))
  {
  }

  lemma WeightTimeVolumeWellFormed()
    ensures WellFormedLinear(LinearTable(Weight))
    ensures WellFormedLinear(LinearTable(Time))
    ensures WellFormedLinear(LinearTable(Volume))
  {
  }

  lemma SpeedPressureWellFormed()
    ensures WellFormedLinear(LinearTable(Speed))
    ensures WellFormedLinear(LinearTable(Pressure))
  {
  }

  // ----- temperature -----

  /** The key of a temperature scale in the table. */
  function TempUnitName(u: TempUnit): string
  {
    match u
    case Celsius => "celsius"
    case Fahrenheit => "fahrenheit"
    case Kelvin => "kelvin"
  }

  const TempUnitNames: seq<string> := ["celsius", "fahrenheit", "kelvin"]

  function ParseTempUnit(name: string): (r: Option<TempUnit>)
    ensures r.Some? <==> name in TempUnitNames
    ensures r.Some? ==> TempUnitName(r.value) == name
  {
    if name == "celsius" then Some(Celsius)
    else if name == "fahrenheit" then Some(Fahrenheit)
    else if name == "kelvin" then Some(Kelvin)
    else None
  }

  /** A temperature on scale `u`, expressed in celsius. */
  function ToCelsius(u: TempUnit, x: real): real
  {
    match u
    case Celsius => x
    case Fahrenheit => (x - 32.0) * 5.0 / 9.0
    case Kelvin => x - 273.15
  }

  /** A temperature in celsius, expressed on scale `u`. */
  function FromCelsius(u: TempUnit, c: real): real
  {
    match u
    case Celsius => c
    case Fahrenheit => c * 9.0 / 5.0 + 32.0
    case Kelvin => c + 273.15
  }

  /** The 3x3 table of temperature formulas. Each of the nine formulas is
      written out separately; together they agree with going through
      celsius. */
  function TempConvert(from: TempUnit, to: TempUnit, x: real): (r: real)
    ensures r == FromCelsius(to, ToCelsius(from, x))
  {
    match (from, to)
    case (Celsius, Fahrenheit) => (x * 9.0 / 5.0) + 32.0
    case (Celsius, Kelvin) => x + 273.15
    case (Celsius, Celsius) => x
    case (Fahrenheit, Celsius) => (x - 32.0) * 5.0 / 9.0
    case (Fahrenheit, Kelvin) => (x - 32.0) * 5.0 / 9.0 + 273.15
    case (Fahrenheit, Fahrenheit) => x
    case (Kelvin, Celsius) => x - 273.15
    case (Kelvin, Fahrenheit) => (x - 273.15) * 9.0 / 5.0 + 32.0
    case (Kelvin, Kelvin) => x
  }

  /** The diagonal formulas leave the temperature unchanged. */
  lemma TempDiagonal(u: TempUnit, x: real)
    ensures TempConvert(u, u, x) == x
  {
  }

  /** Every formula is undone by the formula of the reverse pair
      (fahrenheit->celsius inverts celsius->fahrenheit, kelvin->celsius
      inverts celsius->kelvin, and so on for all nine pairs). */
  lemma TempInverse(a: TempUnit, b: TempUnit, x: real)
    ensures TempConvert(b, a, TempConvert(a, b, x)) == x
  {
  }

  /** The formulas agree with each other: going a->b and then b->c gives
      a->c. In particular fahrenheit->kelvin is fahrenheit->celsius then
      celsius->kelvin, and kelvin->fahrenheit is kelvin->celsius then
      celsius->fahrenheit. */
  lemma TempCompose(a: TempUnit, b: TempUnit, c: TempUnit, x: real)
    ensures TempConvert(b, c, TempConvert(a, b, x)) == TempConvert(a, c, x)
  {
  }

  /** Every formula is strictly increasing: a warmer input gives a warmer
      output on every scale. */
  lemma TempIncreasing(a: TempUnit, b: TempUnit, x: real, y: real)
    requires x < y
    ensures TempConvert(a, b, x) < TempConvert(a, b, y)
  {
  }

  /** The values tests/test_unit_converter.py expects of the formulas. */
  lemma TempExamples()
    ensures TempConvert(Celsius, Fahrenheit, 0.0) == 32.0
    ensures TempConvert(Celsius, Fahrenheit, 100.0) == 212.0
    ensures TempConvert(Celsius, Fahrenheit, -40.0) == -40.0
    ensures TempConvert(Celsius, Kelvin, 0.0) == 273.15
  {
  }

  // ----- the table as the menus see it -----

  /** The unit names of a category in declaration order (the order the
      unit menus list them in). */
  function Units(c: Category): (r: seq<string>)
    ensures |r| >= 2
    ensures forall i, j :: 0 <= i < j < |r| ==> r[i] != r[j]
    ensures IsLinear(c) ==>
      |r| == |LinearTable(c)| && forall i :: 0 <= i < |r| ==> r[i] == LinearTable(c)[i].0
    ensures c == Temperature ==>
      r == [TempUnitName(Celsius), TempUnitName(Fahrenheit), TempUnitName(Kelvin)]
    ensures c == Temperature ==> forall u :: u in r <==> ParseTempUnit(u).Some?
  {
    if c == Temperature then TempUnitNames
    else
      LinearTableWellFormed(c);
      Keys(LinearTable(c))
  }

  /** The scale factor of a unit in a well-formed linear table. */
  function FactorIn(t: seq<(string, real)>, u: string): (r: real)
    requires WellFormedLinear(t) && u in Keys(t)
    ensures r > 0.0
    ensures u == t[0].0 ==> r == 1.0
  {
    if u == t[0].0 then LookupAt(t, 0); Lookup(t, u).value
    else Lookup(t, u).value
  }

  /** The scale factor of a unit of a linear category: positive, and 1 for
      the category's first (base) unit. */
  function Factor(c: Category, u: string): (r: real)
    requires IsLinear(c) && u in Units(c)
    ensures r > 0.0
    ensures u == Units(c)[0] ==> r == 1.0
  {
    LinearTableWellFormed(c);
    FactorIn(LinearTable(c), u)
  }

  /** The i-th unit declared in a linear category is one of its units,
      and its factor is the value declared beside it. */
  lemma FactorOf(c: Category, i: nat)
    requires IsLinear(c) && i < |LinearTable(c)|
    ensures LinearTable(c)[i].0 in Units(c)
    ensures Factor(c, LinearTable(c)[i].0) == LinearTable(c)[i].1
  {
    LinearTableWellFormed(c);
    var t := LinearTable(c);
    assert Keys(t)[i] == t[i].0;
    LookupAt(t, i);
  }

  /** The units update_menus selects when a category is chosen: the first
      as "from" and the second as "to". */
  function DefaultUnits(c: Category): (r: (string, string))
    ensures r.0 in Units(c) && r.1 in Units(c)
    ensures r.0 != r.1
    ensures IsLinear(c) ==> Factor(c, r.0) == 1.0
  {
    (Units(c)[0], Units(c)[1])
  }
}
