/** The screen-saver renderer's older Newton record: it has no epsilon or colour count,
    and draw_newton always builds it from three hard-coded roots, copying only the view
    parameters from the Mandelbrot inputs. */
module MandelbrotRender {
  import opened Complex
  import opened Polynomials
  import opened PolynomialAlgebra
  import opened ShaderTypes

  const FLAG_USE_DOUBLES: bv32 := 1
  const FLAG_DO_JULIA: bv32 := 1 << 2

  /** Both flags are single bits and they do not overlap. */
  lemma FlagsAreDistinctBits()
    ensures FLAG_USE_DOUBLES == 1 && FLAG_DO_JULIA == 4
    ensures FLAG_USE_DOUBLES & (FLAG_USE_DOUBLES - 1) == 0 && FLAG_DO_JULIA & (FLAG_DO_JULIA - 1) == 0
    ensures FLAG_USE_DOUBLES & FLAG_DO_JULIA == 0
  {
  }

  /** NewtonShaderInputs of this generation. */
  datatype NewtonShaderInputs = NewtonShaderInputs(
    zoom: Df64,
    offset: Df64Pair,
    steps: int32,
    flags: bv32,
    f0: Df64Pair, f1: Df64Pair, f2: Df64Pair, f3: Df64Pair,
    df0: Df64Pair, df1: Df64Pair, df2: Df64Pair, df3: Df64Pair,
    r0: Df64Pair, r1: Df64Pair, r2: Df64Pair)

  /** The roots draw_newton always uses: 1, 2 + 5i and 3. */
  function HardCodedRoots(): (roots: seq<Float2>)
    ensures |roots| == 3
  {
    [Float2(1.0, 0.0), Float2(2.0, 5.0), Float2(3.0, 0.0)]
  }

  /** Coefficient k of p·(x - r) is p[k-1] - r·p[k]. */
  lemma FactorAt(p: Polynomial, r: Float2, k: int)
    ensures Coef(Times(p, Factor(r)), k) == ComplexSub(Coef(p, k - 1), ComplexMul(r, Coef(p, k)))
  {
    TimesLinearAt(p, ComplexNeg(r), One, k);
  }

  /** Vieta for two roots: (x - a)(x - b) == ab - (a + b)x + x^2. */
  lemma QuadraticFromRoots(a: Float2, b: Float2)
    ensures var q := FromRootsPrefix([a, b], 2);
      Coef(q, 0) == ComplexMul(a, b) && Coef(q, 1) == ComplexNeg(ComplexAdd(a, b)) && Coef(q, 2) == One &&
      Coef(q, 3) == Zero
  {
    var p := Factor(a);
    assert Coef(p, 0) == ComplexNeg(a) && Coef(p, 1) == One && Coef(p, 2) == Zero && Coef(p, 3) == Zero;
    assert Coef(p, -1) == Zero;
    FactorAt(p, b, 0);
    MulByNegation(b, a);
    ComplexMulCommutes(a, b);
    FactorAt(p, b, 1);
    FactorAt(p, b, 2);
    FactorAt(p, b, 3);
  }

  /** Vieta for three roots: (x - a)(x - b)(x - c) ==
      -abc + (ab + c(a + b))x - (a + b + c)x^2 + x^3, and its derivative. */
  lemma CubicFromRoots(a: Float2, b: Float2, c: Float2)
    ensures var f := FromRoots([a, b, c]);
      Coef(f, 0) == ComplexNeg(ComplexMul(c, ComplexMul(a, b))) &&
      Coef(f, 1) == ComplexAdd(ComplexMul(a, b), ComplexMul(c, ComplexAdd(a, b))) &&
      Coef(f, 2) == ComplexNeg(ComplexAdd(ComplexAdd(a, b), c)) && Coef(f, 3) == One
    ensures var df := Derivative(FromRoots([a, b, c]));
      Coef(df, 0) == Coef(FromRoots([a, b, c]), 1) &&
      Coef(df, 1) == ComplexScale(2.0, Coef(FromRoots([a, b, c]), 2)) &&
      Coef(df, 2) == FromReal(3.0) && Coef(df, 3) == Zero
  {
    var roots := [a, b, c];
    var q := FromRootsPrefix(roots, 2);
    assert FromRootsPrefix(roots, 1) == Factor(a);
    QuadraticFromRoots(a, b);
    assert q == FromRootsPrefix([a, b], 2);
    assert Coef(q, -1) == Zero;
    FactorAt(q, c, 0);
    FactorAt(q, c, 1);
    FactorAt(q, c, 2);
    FactorAt(q, c, 3);
    ComplexMulDistributes(c, a, b);
    MulByNegation(c, ComplexAdd(a, b));
    FromRootsShape(roots, 3);
    DerivativeOfMonic(FromRoots(roots), 3);
  }

  /** The hard-coded cubic: -(6 + 15i) + (11 + 20i)x - (6 + 5i)x^2 + x^3, with
      derivative (11 + 20i) - (12 + 10i)x + 3x^2. */
  lemma HardCodedCubic()
    ensures var f := FromRoots(HardCodedRoots());
      Coef(f, 0) == Float2(-6.0, -15.0) && Coef(f, 1) == Float2(11.0, 20.0) &&
      Coef(f, 2) == Float2(-6.0, -5.0) && Coef(f, 3) == One
    ensures var df := Derivative(FromRoots(HardCodedRoots()));
      Coef(df, 0) == Float2(11.0, 20.0) && Coef(df, 1) == Float2(-12.0, -10.0) &&
      Coef(df, 2) == Float2(3.0, 0.0) && Coef(df, 3) == Zero
  {
    CubicFromRoots(Float2(1.0, 0.0), Float2(2.0, 5.0), Float2(3.0, 0.0));
  }

  /** The record draw_newton sends: zoom, offset (from c_offset), steps and flags from
      the Mandelbrot inputs; everything else from the hard-coded cubic. */
  function DrawNewtonInputs(realInputs: MandelbrotShaderInputs, toDF: real -> Df64): (n: NewtonShaderInputs)
    ensures n.zoom == realInputs.zoom && n.offset == realInputs.cOffset
    ensures n.steps == realInputs.steps && n.flags == realInputs.flags
    ensures n.r0 == ToDf64Pair(Float2(1.0, 0.0), toDF) && n.r1 == ToDf64Pair(Float2(2.0, 5.0), toDF) &&
      n.r2 == ToDf64Pair(Float2(3.0, 0.0), toDF)
    ensures n.f0 == ToDf64Pair(Float2(-6.0, -15.0), toDF) && n.f1 == ToDf64Pair(Float2(11.0, 20.0), toDF) &&
      n.f2 == ToDf64Pair(Float2(-6.0, -5.0), toDF) && n.f3 == ToDf64Pair(Float2(1.0, 0.0), toDF)
    ensures n.df0 == ToDf64Pair(Float2(11.0, 20.0), toDF) && n.df1 == ToDf64Pair(Float2(-12.0, -10.0), toDF) &&
      n.df2 == ToDf64Pair(Float2(3.0, 0.0), toDF) && n.df3 == ToDf64Pair(Float2(0.0, 0.0), toDF)
  {
    var roots := HardCodedRoots();
    FromRootsShape(roots, 3);
    HardCodedCubic();
    var f := FromRoots(roots);
    var df := Derivative(f);
    NewtonShaderInputs(
      realInputs.zoom, realInputs.cOffset, realInputs.steps, realInputs.flags,
      ToDf64Pair(f.coefficients[0], toDF), ToDf64Pair(f.coefficients[1], toDF),
      ToDf64Pair(f.coefficients[2], toDF), ToDf64Pair(f.coefficients[3], toDF),
      ToDf64Pair(df.coefficients[0], toDF), ToDf64Pair(df.coefficients[1], toDF),
      ToDf64Pair(df.coefficients[2], toDF), ToDf64Pair(df.coefficients[3], toDF),
      ToDf64Pair(roots[0], toDF), ToDf64Pair(roots[1], toDF), ToDf64Pair(roots[2], toDF))
  }
}
