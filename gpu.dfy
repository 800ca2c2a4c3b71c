/** The Newton-fractal shader record of the app: its flag bits, the record built from
    a list of roots, and the merge that overlays the view parameters of the Mandelbrot
    record before each Newton draw. */
module Gpu {
  import opened Complex
  import opened Polynomials
  import opened PolynomialAlgebra
  import opened PolynomialEval
  import opened ShaderTypes

  const FLAG_USE_DOUBLES: bv32 := 1
  const FLAG_DO_JULIA: bv32 := 1 << 2
  const FLAG_ROOT_COLOURING: bv32 := 1 << 3

  predicate IsSingleBit(f: bv32) {
    f != 0 && f & (f - 1) == 0
  }

  /** The three flags are single bits, pairwise disjoint, so any two ANDed give 0. */
  lemma FlagsAreDistinctBits()
    ensures IsSingleBit(FLAG_USE_DOUBLES) && IsSingleBit(FLAG_DO_JULIA) && IsSingleBit(FLAG_ROOT_COLOURING)
    ensures FLAG_USE_DOUBLES & FLAG_DO_JULIA == 0
    ensures FLAG_USE_DOUBLES & FLAG_ROOT_COLOURING == 0
    ensures FLAG_DO_JULIA & FLAG_ROOT_COLOURING == 0
    ensures FLAG_USE_DOUBLES == 1 && FLAG_DO_JULIA == 4 && FLAG_ROOT_COLOURING == 8
  {
  }

  /** NewtonShaderInputs: f0..f3 are the coefficients of f, df0..df3 those of f',
      r0..r2 the roots. */
  datatype NewtonShaderInputs = NewtonShaderInputs(
    zoom: Df64,
    offset: Df64Pair,
    steps: int32,
    flags: bv32,
    f0: Df64Pair, f1: Df64Pair, f2: Df64Pair, f3: Df64Pair,
    df0: Df64Pair, df1: Df64Pair, df2: Df64Pair, df3: Df64Pair,
    r0: Df64Pair, r1: Df64Pair, r2: Df64Pair,
    epsilon: Df64,
    colourCount: int32)

  /** The four lowest coefficients of a polynomial, as the record carries them. */
  function LowCoefficients(p: Polynomial): (c: Polynomial)
    ensures |c.coefficients| == 4
    ensures forall k :: 0 <= k < 4 ==> Coef(c, k) == Coef(p, k)
  {
    Polynomial([Coef(p, 0), Coef(p, 1), Coef(p, 2), Coef(p, 3)])
  }

  /** NewtonShaderInputs.create: needs three roots (it reads roots[2]); f and f' come
      from init(roots:) and derivative(). */
  function Create(roots: seq<Float2>, toDF: real -> Df64): (n: NewtonShaderInputs)
    requires |roots| >= 3
    ensures n.zoom == toDF(1.0) && n.offset == ToDf64Pair(Zero, toDF)
    ensures n.steps == 1 && n.flags == 0 && n.colourCount == 3
    ensures n.epsilon == toDF(0.000001)
    ensures n.r0 == ToDf64Pair(roots[0], toDF) && n.r1 == ToDf64Pair(roots[1], toDF) &&
      n.r2 == ToDf64Pair(roots[2], toDF)
    ensures var f := LowCoefficients(FromRoots(roots));
      n.f0 == ToDf64Pair(f.coefficients[0], toDF) && n.f1 == ToDf64Pair(f.coefficients[1], toDF) &&
      n.f2 == ToDf64Pair(f.coefficients[2], toDF) && n.f3 == ToDf64Pair(f.coefficients[3], toDF)
    ensures var df := LowCoefficients(Derivative(FromRoots(roots)));
      n.df0 == ToDf64Pair(df.coefficients[0], toDF) && n.df1 == ToDf64Pair(df.coefficients[1], toDF) &&
      n.df2 == ToDf64Pair(df.coefficients[2], toDF) && n.df3 == ToDf64Pair(df.coefficients[3], toDF)
    ensures |roots| == 3 ==>
      n.f3 == ToDf64Pair(One, toDF) && n.df2 == ToDf64Pair(FromReal(3.0), toDF) && n.df3 == ToDf64Pair(Zero, toDF)
  {
    FromRootsShape(roots, |roots|);
    var f := FromRoots(roots);
    var df := Derivative(f);
    DerivativeOfMonic(f, |roots|);
    NewtonShaderInputs(
      toDF(1.0), ToDf64Pair(Zero, toDF), 1, 0,
      ToDf64Pair(f.coefficients[0], toDF), ToDf64Pair(f.coefficients[1], toDF),
      ToDf64Pair(f.coefficients[2], toDF), ToDf64Pair(f.coefficients[3], toDF),
      ToDf64Pair(df.coefficients[0], toDF), ToDf64Pair(df.coefficients[1], toDF),
      ToDf64Pair(df.coefficients[2], toDF), ToDf64Pair(df.coefficients[3], toDF),
      ToDf64Pair(roots[0], toDF), ToDf64Pair(roots[1], toDF), ToDf64Pair(roots[2], toDF),
      toDF(0.000001), 3)
  }

  /** With three roots the four coefficients sent are the whole cubic: it equals
      init(roots:) under `==` and vanishes at each of the three roots the record also
      carries; and the four derivative coefficients are the whole derivative. */
  lemma CreateSendsWholeCubic(roots: seq<Float2>)
    requires |roots| == 3
    ensures SameCoefficients(LowCoefficients(FromRoots(roots)), FromRoots(roots))
    ensures SameCoefficients(LowCoefficients(Derivative(FromRoots(roots))), Derivative(FromRoots(roots)))
    ensures forall i :: 0 <= i < 3 ==> Eval(LowCoefficients(FromRoots(roots)), roots[i]) == Zero
  {
    var f := FromRoots(roots);
    FromRootsShape(roots, 3);
    DerivativeOfMonic(f, 3);
    var low := LowCoefficients(f);
    assert SameCoefficients(low, f) by {
      forall k ensures Coef(low, k) == Coef(f, k) {
        if k >= 4 {
          assert Coef(f, k) == Zero;
        }
      }
    }
    var dlow := LowCoefficients(Derivative(f));
    assert SameCoefficients(dlow, Derivative(f)) by {
      forall k ensures Coef(dlow, k) == Coef(Derivative(f), k) {
        if k >= 4 {
          assert Coef(Derivative(f), k) == Zero;
        }
      }
    }
    forall i | 0 <= i < 3 ensures Eval(low, roots[i]) == Zero {
      EvalRespectsEquality(low, f, roots[i]);
      RootsAreRoots(roots, i);
    }
  }

  /** The record draw_newton sends: a copy of newton_inputs whose zoom, offset, steps,
      flags and colour count are overwritten, one field at a time, from the Mandelbrot
      inputs (offset from c_offset). */
  method DrawNewtonInputs(newtonInputs: NewtonShaderInputs, realInputs: MandelbrotShaderInputs)
    returns (sent: NewtonShaderInputs)
    ensures sent.zoom == realInputs.zoom && sent.offset == realInputs.cOffset
    ensures sent.steps == realInputs.steps && sent.flags == realInputs.flags
    ensures sent.colourCount == realInputs.colourCount
    ensures sent.f0 == newtonInputs.f0 && sent.f1 == newtonInputs.f1 &&
      sent.f2 == newtonInputs.f2 && sent.f3 == newtonInputs.f3
    ensures sent.df0 == newtonInputs.df0 && sent.df1 == newtonInputs.df1 &&
      sent.df2 == newtonInputs.df2 && sent.df3 == newtonInputs.df3
    ensures sent.r0 == newtonInputs.r0 && sent.r1 == newtonInputs.r1 && sent.r2 == newtonInputs.r2
    ensures sent.epsilon == newtonInputs.epsilon
  {
    var tempNewton := newtonInputs;
    tempNewton := tempNewton.(zoom := realInputs.zoom);
    tempNewton := tempNewton.(offset := realInputs.cOffset);
    tempNewton := tempNewton.(steps := realInputs.steps);
    tempNewton := tempNewton.(flags := realInputs.flags);
    tempNewton := tempNewton.(colourCount := realInputs.colourCount);
    sent := tempNewton;
  }
}
