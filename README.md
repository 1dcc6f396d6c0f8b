# Unit converter core in Dafny

The model covers the conversion core of a small desktop unit converter. The
window, menus and dialogs are not part of it. The modelled parts are:

- **The conversion table** (`ConversionTable`). It has eight categories.
  - Seven are linear (length, weight, time, volume, speed, pressure, area).
    Each unit has a scale factor, given in "units per base unit". The first
    unit listed is the base unit.
  - Temperature is different. Each ordered pair of celsius, fahrenheit and
    kelvin has its own affine formula.
  - `Units` lists the unit names in declaration order, which is the order
    the menus show. `DefaultUnits` gives the two units the menus preselect
    when a category is chosen.
- **The conversion** (`Converter`). `Convert(category, from, to, quantity)`
  is the part of the "Convert" callback that sits between reading the
  widgets and showing the result. It returns `Ok(value)` or one of two
  errors:
  - `UnknownCategory`: the category lookup raises a `KeyError`, which the
    callback's catch-all handler reports.
  - `InvalidUnitSelection`: a unit is not one of the category's units.

  Otherwise, a temperature conversion returns the quantity itself when both
  units are equal, and applies the pair's formula when they differ. A linear
  conversion divides by the source factor to reach the base unit, then
  multiplies by the target factor (`ViaBase`).
- **The display choice** (`ResultFormat`). A result is shown in scientific
  notation when its magnitude is below 0.001 or above 10000, and in
  four-decimal fixed notation otherwise.

All arithmetic is over `real`. Every factor is a decimal literal or a ratio
such as 1/60, and every temperature formula is affine with rational
coefficients, so the model is exact. Identity, round trip, composition and
homogeneity therefore hold exactly. The program itself only keeps them up to
floating-point rounding.

Three facts about the program shape the model:

- The program never checks that a parsed quantity is finite. Whatever
  `float` accepts is converted, so the model has no error for the quantity
  itself.
- An unknown category and an unknown unit are two distinct errors. An
  unknown category fails at the dictionary lookup that guards unit
  validation (a `KeyError`, reported by the catch-all handler); an unknown
  unit gets the "Invalid unit selection" message.
- Zero falls on the scientific branch. It is not special-cased, and
  `abs(0) < 0.001` holds.

The test file's `convert_units` helper skips the unit-membership check, so
its invalid-unit case raises a `KeyError`. The model follows the callback,
which rejects the same input with "Invalid unit selection"
(`InvalidUnitExample`).

## Model

| member | source | states |
|---|---|---|
| ConversionTable.ParseCategory | src/unit_converter.py:97 | Looking a category key up in the table finds the category with exactly that key; a key no category has finds none (the KeyError). |
| ConversionTable.CategoriesComplete | src/unit_converter.py:11-73 | Every category's key looks up to that same category. |
| ConversionTable.LinearTable | src/unit_converter.py:11-73 | The declared (unit, factor) entries of each linear category, in declaration order: at least two, the first with factor 1, every factor strictly positive. Distinct names are stated by LinearTableWellFormed, and each entry's factor is returned by Factor (FactorOf). |
| ConversionTable.Keys | src/unit_converter.py:139 | The keys of an ordered table: as many as entries, the i-th key belonging to the i-th entry. |
| ConversionTable.Lookup | src/unit_converter.py:109-110 | Dictionary lookup succeeds exactly when the key is among the table's keys, and the value found is one paired with that key. |
| ConversionTable.LookupAt | src/unit_converter.py:109-110 | With distinct keys, looking up the i-th key returns the i-th value. |
| ConversionTable.LinearTableWellFormed | src/unit_converter.py:11-73 | Every linear category has at least two units, distinct unit names, base unit first with factor 1, and only strictly positive factors. |
| ConversionTable.LengthAreaWellFormed | src/unit_converter.py:12-19 | The length and area tables are well formed (at least two units, distinct names, base factor 1, positive factors). |
| ConversionTable.WeightTimeVolumeWellFormed | src/unit_converter.py:20-54 | The weight, time and volume tables are well formed. |
| ConversionTable.SpeedPressureWellFormed | src/unit_converter.py:55-65 | The speed and pressure tables are well formed. |
| ConversionTable.ParseTempUnit | src/unit_converter.py:26-42 | A temperature unit name resolves exactly when it is celsius, fahrenheit or kelvin, and it resolves to the scale with that name. |
| ConversionTable.TempConvert | src/unit_converter.py:27-41 | Each of the nine written formulas equals converting the temperature to celsius and then from celsius to the target scale. Its properties are stated by TempDiagonal, TempInverse, TempCompose, TempIncreasing and TempExamples. |
| ConversionTable.TempDiagonal | src/unit_converter.py:30-40 | The formula from a scale to itself returns the temperature unchanged. |
| ConversionTable.TempInverse | src/unit_converter.py:27-41 | For every pair of scales, the reverse pair's formula undoes the forward formula (fahrenheit->celsius inverts celsius->fahrenheit, kelvin->celsius inverts celsius->kelvin, and so on). |
| ConversionTable.TempCompose | src/unit_converter.py:27-41 | The formulas agree with each other: a->b then b->c equals a->c, so fahrenheit->kelvin is fahrenheit->celsius then celsius->kelvin, and kelvin->fahrenheit is kelvin->celsius then celsius->fahrenheit. |
| ConversionTable.TempIncreasing | src/unit_converter.py:27-41 | Every temperature formula is strictly increasing. |
| ConversionTable.TempExamples | tests/test_unit_converter.py:57-61 | celsius->fahrenheit maps 0 to 32, 100 to 212 and -40 to -40; celsius->kelvin maps 0 to 273.15. |
| ConversionTable.Units | src/unit_converter.py:139-143 | Every category lists at least two units with no name repeated. A linear category's units are exactly its declared keys, in declaration order. The temperature units are celsius, fahrenheit and kelvin in that order, which are exactly the names the formulas know. |
| ConversionTable.FactorIn | src/unit_converter.py:109-110 | A unit's factor in a well-formed table is strictly positive, and it is 1 for the table's first unit. |
| ConversionTable.Factor | src/unit_converter.py:109-116 | Every linear unit's factor is strictly positive, so the division is defined; the first unit of each category has factor 1. |
| ConversionTable.FactorOf | src/unit_converter.py:11-73 | The i-th unit declared in a linear category is one of its units, and its factor is the value declared beside it. |
| ConversionTable.DefaultUnits | src/unit_converter.py:142-143 | The menus' default "from" and "to" units exist in the category and differ; the default "from" unit is the base unit. |
| ResultFormat.Abs | src/unit_converter.py:125 | The absolute value is non-negative and is the number or its negation. |
| ResultFormat.UseScientific | src/unit_converter.py:125 | Scientific notation is chosen exactly when the result is below -10000, strictly between -0.001 and 0.001, or above 10000. Its consequences are stated by ChooseNotation, NotationSymmetric, FixedBandBounds and ZeroIsScientific. |
| ResultFormat.ChooseNotation | src/unit_converter.py:125-128 | A result is rendered in fixed notation exactly when its magnitude is between 0.001 and 10000 inclusive, and in scientific notation otherwise. |
| ResultFormat.NotationSymmetric | src/unit_converter.py:125 | A result and its negation are rendered in the same notation. |
| ResultFormat.FixedBandBounds | src/unit_converter.py:125-128 | 0.001 and 10000 themselves are fixed; 0.0009 and 10000.5 are scientific. |
| ResultFormat.ZeroIsScientific | src/unit_converter.py:125-126 | Zero is rendered in scientific notation. |
| Converter.ConvertIn | src/unit_converter.py:97-122 | In a known category, the conversion fails exactly when a unit is not one of the category's units, and then fails with InvalidUnitSelection. |
| Converter.Convert | src/unit_converter.py:97-122 | By name: an unknown category gives UnknownCategory exactly when the name is not a key of the table; InvalidUnitSelection exactly when the category is known and a unit is not in it; otherwise a result. |
| Converter.ConvertByName | src/unit_converter.py:97 | Naming a category of the table resolves the conversion in that category. |
| Converter.ViaBase | src/unit_converter.py:116-122 | The result stands to the target factor as the quantity stands to the source factor (result times source factor equals quantity times target factor). Its algebra is stated by the ViaBase lemmas below. |
| Converter.ViaBaseIdentity | src/unit_converter.py:116-122 | Dividing by a positive factor and multiplying by the same factor gives back the quantity. |
| Converter.ViaBaseRoundTrip | src/unit_converter.py:116-122 | Converting through the base unit there and back gives back the quantity. |
| Converter.ViaBaseCompose | src/unit_converter.py:116-122 | Two conversions through the base unit equal one direct conversion. |
| Converter.ViaBaseRatio | src/unit_converter.py:116-122 | The two-step result equals the quantity times the ratio of target to source factor. |
| Converter.ViaBaseHomogeneous | src/unit_converter.py:116-122 | Scaling the quantity by k scales the result by k, and zero converts to zero. |
| Converter.ViaBaseIncreasing | src/unit_converter.py:116-122 | With positive factors the conversion is strictly increasing. |
| Converter.ConvertTemperature | src/unit_converter.py:102-106 | For valid temperature units the result is always the pair's formula: the equal-units shortcut agrees with the diagonal formulas. |
| Converter.ConvertIdentity | src/unit_converter.py:102-122 | Converting any unit of any category to itself returns the quantity unchanged. |
| Converter.ConvertRoundTrip | src/unit_converter.py:102-122 | In every category, converting a->b succeeds and converting the result b->a gives back the quantity exactly. |
| Converter.ConvertCompose | src/unit_converter.py:102-122 | In every category, a->b followed by b->d equals a->d. |
| Converter.ConvertHomogeneous | src/unit_converter.py:109-122 | In a linear category, scaling the quantity by k scales the result by k. |
| Converter.ConvertZero | src/unit_converter.py:109-122 | In a linear category, zero converts to zero. |
| Converter.ConvertIncreasing | src/unit_converter.py:102-122 | Every conversion is strictly increasing in the quantity. |
| Converter.DefaultUnitsConvert | src/unit_converter.py:142-143 | The units the menus preselect always convert without error. |
| Converter.DeclaredUnitsConvert | src/unit_converter.py:109-122 | Between the i-th and j-th declared units of a linear category, the result is exactly the quantity divided by the i-th declared factor and multiplied by the j-th. |
| Converter.LengthExamples | tests/test_unit_converter.py:47-51 | 1 meter is 3.28084 feet, 100 centimeters are 1 meter, and 1 kilometer is 0.621371 miles, exactly. |
| Converter.MetersExamples | tests/test_unit_converter.py:76-88 | 10 meters are 32.8084 feet, 0 meters are 0 feet, and 10 meters are 10 meters. |
| Converter.FeetToMetersExample | tests/test_unit_converter.py:49 | 1 foot converts to 0.3048 meters within the tests' relative tolerance of 1e-4, but not exactly. |
| Converter.WeightExamples | tests/test_unit_converter.py:67-84 | 1 kilogram is 1000 grams, 1000 grams are 1 kilogram, and 10 kilograms are 10 kilograms. |
| Converter.PoundsToOuncesExample | tests/test_unit_converter.py:70 | 1 pound converts to 16 ounces within the tests' tolerance, but not exactly. |
| Converter.TemperatureExamples | tests/test_unit_converter.py:57-84 | Through Convert: celsius->fahrenheit maps 0 to 32, 100 to 212 and -40 to -40; celsius->kelvin maps 0 to 273.15; celsius->celsius keeps 10. |
| Converter.InvalidUnitExample | tests/test_unit_converter.py:91-93 | An unknown source unit in length is rejected with InvalidUnitSelection. |
| Converter.ForeignUnitExample | src/unit_converter.py:97-99 | A temperature unit used as a length unit is rejected with InvalidUnitSelection. |
| Converter.ForeignTemperatureUnitExample | src/unit_converter.py:97-99 | A length unit used as a temperature unit is rejected with InvalidUnitSelection. |
| Converter.UnknownCategoryExample | src/unit_converter.py:97 | A category name outside the table gives UnknownCategory. |
| Converter.FormatExamples | tests/test_unit_converter.py:179-197 | One millionth of a meter is 1e-9 kilometers and is shown in scientific notation; a million meters are 1000 kilometers and are shown in fixed notation. |

## Left out

- The Tkinter window, frames, option menus, button, event loop and message
  boxes are user interface. The model returns errors instead of showing
  dialogs, and it leaves out the result label's text.
- Reading the widgets and parsing the quantity with `float` are left out.
  This includes the "Please enter a quantity" and "Please enter a valid
  number" errors. The quantity enters the model as a `real` parameter.
- NaN and infinity have no counterpart. The program accepts
  `float("nan")` and `float("inf")` as quantities and converts them, and a
  large finite quantity can overflow to infinity (`1e308` meters to
  centimeters). A `real` is always finite, so the model covers only finite
  quantities and finite results.
- IEEE-754 rounding and the order of floating-point operations are left
  out. The model is exact over `real`, so 1/60 and 9.86923e-6 are the exact
  rationals. The test expectations are checked exactly, or within the
  tests' own relative tolerance where the floating-point value only
  approximates them.
- The digits printed by the `.4e` and `.4f` formats are not modelled, only
  the choice between them. Decimal rendering of floats is a library
  routine.
- The `callable(...)` branches of the linear conversion are not modelled.
  No linear table entry is a function, so they are never taken.
- The loop that fills the unit menus is not modelled as a loop. It is
  modelled by its outcome: `Units` is the order of the entries, and
  `DefaultUnits` is the first two of them.
- Loading the window icon is file I/O.
- The package metadata file is not part of this model.
- Converter.ConvertHomogeneous: stated only for linear categories, because
  the temperature formulas are affine and not homogeneous.
- Converter.ConvertZero: stated only for linear categories, for the same
  reason (0 celsius is 32 fahrenheit).
