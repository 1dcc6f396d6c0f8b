/** The display policy of the converter: which of the two renderings a
    result gets. Only the choice of branch is modelled; the digits
    themselves come from Python's float formatting. */
module ResultFormat {

  /** Python's abs on a number. */
  function Abs(x: real): (r: real)
    ensures r >= 0.0
    ensures r == x || r == -x
  {
    if x < 0.0 then -x else x
  }

  /** The two renderings: `.4e` (scientific, four mantissa decimals) and
      `.4f` (fixed, four decimals). */
  datatype Notation = Scientific | Fixed

  /** Scientific notation for results very close to zero or very large. */
  predicate UseScientific(r: real): (b: bool)
    ensures b <==> r < -10000.0 || (-0.001 < r && r < 0.001) || 10000.0 < r
  {
    Abs(r) < 0.001 || Abs(r) > 10000.0
  }

  function ChooseNotation(r: real): (n: Notation)
    ensures n == Fixed <==> 0.001 <= r <= 10000.0 || -10000.0 <= r <= -0.001
  {
    if UseScientific(r) then Scientific else Fixed
  }

  /** The choice depends only on the magnitude: a result and its negation
      are rendered the same way. */
  lemma NotationSymmetric(r: real)
    ensures ChooseNotation(-r) == ChooseNotation(r)
  {
  }

  /** The fixed band is closed: its two bounds themselves are rendered in
      fixed notation, and anything just outside them is not. */
  lemma FixedBandBounds()
    ensures ChooseNotation(0.001) == Fixed && ChooseNotation(10000.0) == Fixed
    ensures ChooseNotation(0.0009) == Scientific && ChooseNotation(10000.5) == Scientific
  {
  }

  /** Zero is not treated specially: it lies below the lower threshold and
      is rendered in scientific notation. */
  lemma ZeroIsScientific()
    ensures ChooseNotation(0.0) == Scientific
  {
  }
}
