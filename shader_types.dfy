/** The value types both renderers hand to their shaders: the double-float `df64_t`,
    its complex pair `df64_2`, 32-bit integers, and the Mandelbrot input record. The
    split of a double into two floats is IEEE rounding and is not modelled: every
    conversion goes through a caller-supplied scalar conversion `toDF`. */
module ShaderTypes {
  import opened Complex

  newtype int32 = x: int | -0x8000_0000 <= x < 0x8000_0000

  /** df64_t: a value carried as a high and a low single-precision part. */
  datatype Df64 = Df64(hi: real, lo: real)

  /** df64_2: a complex value whose parts are each a df64_t. */
  datatype Df64Pair = Df64Pair(x: Df64, y: Df64)

  /** df64_2.init: each component goes through the same scalar conversion on its own. */
  function ToDf64Pair(v: Float2, toDF: real -> Df64): (p: Df64Pair)
    ensures p.x == toDF(v.x) && p.y == toDF(v.y)
  {
    Df64Pair(toDF(v.x), toDF(v.y))
  }

  /** The conversion treats both components alike: equal components convert equally,
      whichever side they sit on, and a real value (y == 0) shares its imaginary part
      with the zero pair. */
  lemma ToDf64PairIsComponentwise(a: Float2, b: Float2, toDF: real -> Df64)
    ensures a.x == b.y ==> ToDf64Pair(a, toDF).x == ToDf64Pair(b, toDF).y
    ensures a.y == 0.0 ==> ToDf64Pair(a, toDF).y == ToDf64Pair(Zero, toDF).y
  {
  }

  /** MandelbrotShaderInputs */
  datatype MandelbrotShaderInputs = MandelbrotShaderInputs(
    zoom: Df64,
    cOffset: Df64Pair,
    steps: int32,
    colourCount: int32,
    zInitial: Df64Pair,
    flags: bv32)
}
