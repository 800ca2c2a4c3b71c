/** What a coefficient array means: the value of the polynomial at a complex point,
    read off by Horner's rule. The source never evaluates a polynomial on the CPU
    (the shader does, from the coefficients it is sent), so these facts are the
    independent meaning against which `+`, `-`, `*` and init(roots:) are checked:
    the operators act on values, and the polynomial built from roots vanishes at
    every one of them. */
module PolynomialEval {
  import opened Complex
  import opened Polynomials
  import opened PolynomialAlgebra

  /** Coefficients i..n-1 folded by Horner's rule: p[i] + z·(p[i+1] + z·(...)). */
  function EvalFrom(p: Polynomial, i: nat, n: nat, z: Float2): Float2
    decreases n - i
  {
    if i >= n then Zero else ComplexAdd(Coef(p, i), ComplexMul(z, EvalFrom(p, i + 1, n, z)))
  }

  /** The value of p at z. */
  function Eval(p: Polynomial, z: Float2): (v: Float2)
    ensures |p.coefficients| == 0 ==> v == Zero
    ensures z == Zero ==> v == Coef(p, 0)
  {
    EvalFrom(p, 0, |p.coefficients|, z)
  }

  // ---------------------------------------------------------------------------
  // Complex ring identities used by the steps below

  /** The Horner step for a product with the linear factor a + b·x:
      (a + bz)(u + zR) + bv == (au + bv) + z((a + bz)R + bu). */
  lemma LinearHornerStep(a: Float2, b: Float2, z: Float2, r: Float2, u: Float2, v: Float2)
    ensures var w := ComplexAdd(a, ComplexMul(b, z));
      ComplexAdd(ComplexMul(w, ComplexAdd(u, ComplexMul(z, r))), ComplexMul(b, v)) ==
      ComplexAdd(ComplexAdd(ComplexMul(a, u), ComplexMul(b, v)),
                 ComplexMul(z, ComplexAdd(ComplexMul(w, r), ComplexMul(b, u))))
  {
    var bz := ComplexMul(b, z);
    var w := ComplexAdd(a, bz);
    var zr := ComplexMul(z, r);
    ComplexMulDistributes(w, u, zr);
    ComplexMulDistributes(u, a, bz);
    // w·u == a·u + (b·z)·u, and (b·z)·u == z·(b·u)
    ComplexMulCommutes(w, u);
    ComplexMulCommutes(a, u);
    ComplexMulCommutes(bz, u);
    ComplexMulCommutes(b, z);
    ComplexMulAssociates(u, z, b);
    ComplexMulCommutes(u, ComplexMul(z, b));
    ComplexMulAssociates(z, b, u);
    ComplexMulCommutes(ComplexMul(z, b), u);
    assert ComplexMul(w, u) == ComplexAdd(ComplexMul(a, u), ComplexMul(z, ComplexMul(b, u)));
    // w·(z·r) == z·(w·r)
    ComplexMulAssociates(w, z, r);
    ComplexMulCommutes(w, z);
    ComplexMulAssociates(z, w, r);
    assert ComplexMul(w, zr) == ComplexMul(z, ComplexMul(w, r));
    ComplexMulDistributes(z, ComplexMul(w, r), ComplexMul(b, u));
  }

  // ---------------------------------------------------------------------------
  // Evaluation depends only on the coefficients, not on the padding

  lemma {:induction false} EvalFromIgnoresPadding(p: Polynomial, i: nat, n: nat, m: nat, z: Float2)
    requires |p.coefficients| <= n <= m
    ensures EvalFrom(p, i, n, z) == EvalFrom(p, i, m, z)
    decreases m - i
  {
    if i < m {
      EvalFromIgnoresPadding(p, i + 1, n, m, z);
    }
  }

  lemma {:induction false} EvalFromSameCoefficients(p: Polynomial, q: Polynomial, i: nat, n: nat, z: Float2)
    requires SameCoefficients(p, q)
    ensures EvalFrom(p, i, n, z) == EvalFrom(q, i, n, z)
    decreases n - i
  {
    if i < n {
      EvalFromSameCoefficients(p, q, i + 1, n, z);
      assert Coef(p, i) == Coef(q, i);
    }
  }

  /** Evaluating with any bound at or past the length gives the value. */
  lemma EvalWithBound(p: Polynomial, n: nat, z: Float2)
    requires |p.coefficients| <= n
    ensures EvalFrom(p, 0, n, z) == Eval(p, z)
  {
    EvalFromIgnoresPadding(p, 0, |p.coefficients|, n, z);
  }

  /** Polynomials that `==` calls equal have the same value everywhere. */
  lemma EvalRespectsEquality(p: Polynomial, q: Polynomial, z: Float2)
    requires SameCoefficients(p, q)
    ensures Eval(p, z) == Eval(q, z)
  {
    var n := Max(|p.coefficients|, |q.coefficients|);
    EvalWithBound(p, n, z);
    EvalWithBound(q, n, z);
    EvalFromSameCoefficients(p, q, 0, n, z);
  }

  // ---------------------------------------------------------------------------
  // The operators on values

  /** The Horner step for a sum: (u1 + u2) + z(r1 + r2) == (u1 + z·r1) + (u2 + z·r2). */
  lemma SumHornerStep(z: Float2, u1: Float2, r1: Float2, u2: Float2, r2: Float2)
    ensures ComplexAdd(ComplexAdd(u1, u2), ComplexMul(z, ComplexAdd(r1, r2))) ==
      ComplexAdd(ComplexAdd(u1, ComplexMul(z, r1)), ComplexAdd(u2, ComplexMul(z, r2)))
  {
    ComplexMulDistributes(z, r1, r2);
  }

  lemma {:induction false} EvalFromPlus(p: Polynomial, q: Polynomial, i: nat, n: nat, z: Float2)
    ensures EvalFrom(Plus(p, q), i, n, z) == ComplexAdd(EvalFrom(p, i, n, z), EvalFrom(q, i, n, z))
    decreases n - i
  {
    if i < n {
      EvalFromPlus(p, q, i + 1, n, z);
      SumHornerStep(z, Coef(p, i), EvalFrom(p, i + 1, n, z), Coef(q, i), EvalFrom(q, i + 1, n, z));
    }
  }

  /** (p + q)(z) == p(z) + q(z). */
  lemma EvalPlus(p: Polynomial, q: Polynomial, z: Float2)
    ensures Eval(Plus(p, q), z) == ComplexAdd(Eval(p, z), Eval(q, z))
  {
    var n := |Plus(p, q).coefficients|;
    EvalFromPlus(p, q, 0, n, z);
    EvalWithBound(p, n, z);
    EvalWithBound(q, n, z);
  }

  /** -u + z·(-r) == -(u + z·r) */
  lemma NegatedHornerStep(z: Float2, u: Float2, r: Float2)
    ensures ComplexAdd(ComplexNeg(u), ComplexMul(z, ComplexNeg(r))) == ComplexNeg(ComplexAdd(u, ComplexMul(z, r)))
  {
    MulByNegation(z, r);
  }

  /** A polynomial whose every coefficient is negated evaluates to the negated value. */
  lemma {:induction false} EvalFromNegated(s: Polynomial, t: Polynomial, i: nat, n: nat, z: Float2)
    requires forall c :: Coef(s, c) == ComplexNeg(Coef(t, c))
    ensures EvalFrom(s, i, n, z) == ComplexNeg(EvalFrom(t, i, n, z))
    decreases n - i
  {
    if i < n {
      EvalFromNegated(s, t, i + 1, n, z);
      var u, r := Coef(t, i), EvalFrom(t, i + 1, n, z);
      assert EvalFrom(s, i, n, z) == ComplexAdd(ComplexNeg(u), ComplexMul(z, ComplexNeg(r)));
      NegatedHornerStep(z, u, r);
    }
  }

  /** The Horner step for a difference: (u1 - u2) + z(r1 - r2) == (u1 + z·r1) - (u2 + z·r2). */
  lemma DifferenceHornerStep(z: Float2, u1: Float2, r1: Float2, u2: Float2, r2: Float2)
    ensures ComplexAdd(ComplexSub(u1, u2), ComplexMul(z, ComplexSub(r1, r2))) ==
      ComplexSub(ComplexAdd(u1, ComplexMul(z, r1)), ComplexAdd(u2, ComplexMul(z, r2)))
  {
    ComplexMulDistributes(z, r1, ComplexNeg(r2));
    MulByNegation(z, r2);
    assert ComplexSub(r1, r2) == ComplexAdd(r1, ComplexNeg(r2));
  }

  lemma {:induction false} EvalFromDifference(p: Polynomial, q: Polynomial, i: nat, n: nat, z: Float2)
    ensures EvalFrom(Difference(p, q), i, n, z) == ComplexSub(EvalFrom(p, i, n, z), EvalFrom(q, i, n, z))
    decreases n - i
  {
    if i < n {
      EvalFromDifference(p, q, i + 1, n, z);
      var u1, r1, u2, r2 := Coef(p, i), EvalFrom(p, i + 1, n, z), Coef(q, i), EvalFrom(q, i + 1, n, z);
      assert EvalFrom(Difference(p, q), i, n, z) == ComplexAdd(ComplexSub(u1, u2), ComplexMul(z, ComplexSub(r1, r2)));
      DifferenceHornerStep(z, u1, r1, u2, r2);
    }
  }

  /** The intended subtraction acts on values: (p - q)(z) == p(z) - q(z). */
  lemma EvalDifference(p: Polynomial, q: Polynomial, z: Float2)
    ensures Eval(Difference(p, q), z) == ComplexSub(Eval(p, z), Eval(q, z))
  {
    var n := |Difference(p, q).coefficients|;
    EvalFromDifference(p, q, 0, n, z);
    EvalWithBound(p, n, z);
    EvalWithBound(q, n, z);
  }

  /** As written, (p - q)(z) == -(p(z) + q(z)). */
  lemma EvalMinus(p: Polynomial, q: Polynomial, z: Float2)
    ensures Eval(Minus(p, q), z) == ComplexNeg(ComplexAdd(Eval(p, z), Eval(q, z)))
  {
    var n := |Minus(p, q).coefficients|;
    EvalFromNegated(Minus(p, q), Plus(p, q), 0, n, z);
    EvalFromPlus(p, q, 0, n, z);
    EvalWithBound(p, n, z);
    EvalWithBound(q, n, z);
  }

  /** Horner's rule for a q whose coefficients are those of p·[a, b], from index i,
      with n at or past the length of p. */
  lemma {:induction false} EvalFromLinearMultiple(p: Polynomial, q: Polynomial, a: Float2, b: Float2, i: nat, n: nat, z: Float2)
    requires |p.coefficients| <= n && i <= n + 1
    requires forall k :: Coef(q, k) == ComplexAdd(ComplexMul(a, Coef(p, k)), ComplexMul(b, Coef(p, k - 1)))
    ensures EvalFrom(q, i, n + 1, z) ==
      ComplexAdd(ComplexMul(ComplexAdd(a, ComplexMul(b, z)), EvalFrom(p, i, n, z)), ComplexMul(b, Coef(p, i - 1)))
    decreases n + 1 - i
  {
    if i == n + 1 {
      assert Coef(p, i - 1) == Zero;
    } else {
      EvalFromLinearMultiple(p, q, a, b, i + 1, n, z);
      var u, v, r := Coef(p, i), Coef(p, i - 1), EvalFrom(p, i + 1, n, z);
      assert EvalFrom(p, i, n, z) == ComplexAdd(u, ComplexMul(z, r));
      assert Coef(q, i) == ComplexAdd(ComplexMul(a, u), ComplexMul(b, v));
      LinearHornerStep(a, b, z, r, u, v);
    }
  }

  /** (p·[a, b])(z) == (a + b·z)·p(z). */
  lemma EvalTimesLinear(p: Polynomial, a: Float2, b: Float2, z: Float2)
    ensures Eval(Times(p, Polynomial([a, b])), z) == ComplexMul(ComplexAdd(a, ComplexMul(b, z)), Eval(p, z))
  {
    var n := |p.coefficients| + 2;
    TimesLinear(p, a, b);
    EvalFromLinearMultiple(p, Times(p, Polynomial([a, b])), a, b, 0, n, z);
    EvalWithBound(p, n, z);
  }

  /** (p·(x - root))(z) == (z - root)·p(z). */
  lemma EvalTimesFactor(p: Polynomial, root: Float2, z: Float2)
    ensures Eval(Times(p, Factor(root)), z) == ComplexMul(ComplexSub(z, root), Eval(p, z))
  {
    EvalTimesLinear(p, ComplexNeg(root), One, z);
  }

  // ---------------------------------------------------------------------------
  // init(roots:) builds the product of (z - root)

  /** (z - roots[n-1])·...·(z - roots[0]) */
  function RootProduct(roots: seq<Float2>, n: nat, z: Float2): Float2
    requires n <= |roots|
  {
    if n == 0 then One else ComplexMul(ComplexSub(z, roots[n - 1]), RootProduct(roots, n - 1, z))
  }

  lemma {:induction false} EvalFromRootsPrefix(roots: seq<Float2>, n: nat, z: Float2)
    requires 1 <= n <= |roots|
    ensures Eval(FromRootsPrefix(roots, n), z) == RootProduct(roots, n, z)
  {
    if n == 1 {
      assert Eval(Factor(roots[0]), z) == ComplexAdd(ComplexNeg(roots[0]), ComplexMul(z, One));
    } else {
      EvalFromRootsPrefix(roots, n - 1, z);
      EvalTimesFactor(FromRootsPrefix(roots, n - 1), roots[n - 1], z);
    }
  }

  lemma {:induction false} RootProductVanishes(roots: seq<Float2>, n: nat, i: nat)
    requires i < n <= |roots|
    ensures RootProduct(roots, n, roots[i]) == Zero
  {
    if i < n - 1 {
      RootProductVanishes(roots, n - 1, i);
    }
  }

  /** The value of init(roots:) at z is the product of (z - root) over its roots. */
  lemma EvalFromRoots(roots: seq<Float2>, z: Float2)
    requires |roots| >= 2
    ensures Eval(FromRoots(roots), z) == RootProduct(roots, |roots|, z)
  {
    EvalFromRootsPrefix(roots, |roots|, z);
  }

  /** Every root handed to init(roots:) is a root of the polynomial it builds. */
  lemma RootsAreRoots(roots: seq<Float2>, i: nat)
    requires |roots| >= 2 && i < |roots|
    ensures Eval(FromRoots(roots), roots[i]) == Zero
  {
    EvalFromRoots(roots, roots[i]);
    RootProductVanishes(roots, |roots|, i);
  }
}
