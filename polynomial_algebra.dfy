/** Algebraic facts about the polynomial operators: commutativity, the shape of
    products, the linear-factor expansion behind init(roots:), and the laws of the
    padding-tolerant equality. */
module PolynomialAlgebra {
  import opened Complex
  import opened Polynomials

  // ---------------------------------------------------------------------------
  // Addition and subtraction

  lemma PlusCommutes(p: Polynomial, q: Polynomial)
    ensures Plus(p, q) == Plus(q, p)
  {
    var s, t := Plus(p, q), Plus(q, p);
    assert |s.coefficients| == |t.coefficients|;
    forall c | 0 <= c < |s.coefficients| ensures s.coefficients[c] == t.coefficients[c] {
      assert Coef(s, c) == Coef(t, c);
    }
  }

  /** The last entry of a sum is always the zero padding. */
  lemma PlusPadsWithZero(p: Polynomial, q: Polynomial)
    ensures Plus(p, q).coefficients[Max(|p.coefficients|, |q.coefficients|)] == Zero
  {
    var n := Max(|p.coefficients|, |q.coefficients|);
    assert Coef(Plus(p, q), n) == ComplexAdd(Coef(p, n), Coef(q, n));
  }

  /** As written, `a - b` is the negation of `a + b`. */
  lemma MinusIsNegatedPlus(p: Polynomial, q: Polynomial)
    ensures |Minus(p, q).coefficients| == |Plus(p, q).coefficients|
    ensures forall c :: Coef(Minus(p, q), c) == ComplexNeg(Coef(Plus(p, q), c))
  {
  }

  /** `-` as written does not subtract: coefficient c of p - p is -2·p[c]. */
  lemma MinusOfItselfAt(p: Polynomial, c: int)
    ensures Coef(Minus(p, p), c) == ComplexScale(-2.0, Coef(p, c))
  {
  }

  /** ... so p - p is zero under `==` only when p is. */
  lemma MinusOfItself(p: Polynomial)
    ensures SameCoefficients(Minus(p, p), WithDegree(0)) <==> SameCoefficients(p, WithDegree(0))
  {
    var m, zero := Minus(p, p), WithDegree(0);
    if SameCoefficients(m, zero) {
      forall c ensures Coef(p, c) == Coef(zero, c) {
        MinusOfItselfAt(p, c);
        assert Coef(m, c) == Coef(zero, c);
      }
    } else {
      var c :| Coef(m, c) != Coef(zero, c);
      MinusOfItselfAt(p, c);
      assert Coef(p, c) != Coef(zero, c);
    }
  }

  /** The input that shows it: any polynomial with a non-zero constant term, such as
      p = 1, has p - p different from 0 under `==`. */
  lemma MinusOfNonZeroConstant(p: Polynomial)
    requires Coef(p, 0) != Zero
    ensures !SameCoefficients(Minus(p, p), WithDegree(0))
  {
    MinusOfItself(p);
    assert Coef(p, 0) != Coef(WithDegree(0), 0);
  }

  /** The intended subtraction undoes addition: (p + q) - q == p under `==`. */
  lemma DifferenceUndoesPlus(p: Polynomial, q: Polynomial)
    ensures SameCoefficients(Difference(Plus(p, q), q), p)
  {
  }

  /** ... and p - p == 0 under `==`, with p - q == -(q - p). */
  lemma DifferenceOfItself(p: Polynomial, q: Polynomial)
    ensures SameCoefficients(Difference(p, p), WithDegree(0))
    ensures forall c :: Coef(Difference(p, q), c) == ComplexNeg(Coef(Difference(q, p), c))
  {
  }

  // ---------------------------------------------------------------------------
  // Multiplication: closed forms of the double sum

  lemma {:induction false} RowSumClosed(l: seq<Float2>, r: seq<Float2>, i: nat, n: nat, k: int)
    requires i < |l| && n <= |r|
    ensures RowSum(l, r, i, n, k) == if 0 <= k - i < n then ComplexMul(r[k - i], l[i]) else Zero
  {
    if n > 0 {
      RowSumClosed(l, r, i, n - 1, k);
    }
  }

  /** Every row contributes nothing to a coefficient above (m - 1) + (n - 1). */
  lemma {:induction false} GridZeroAbove(l: seq<Float2>, r: seq<Float2>, m: nat, n: nat, k: int)
    requires m <= |l| && n <= |r|
    requires k >= m + n - 1
    ensures Grid(l, r, m, n, k) == Zero
  {
    if m > 0 {
      GridZeroAbove(l, r, m - 1, n, k);
      RowSumClosed(l, r, m - 1, n, k);
    }
  }

  /** `*` leaves every index from l + r - 1 upward zero. */
  lemma TimesZeroTail(p: Polynomial, q: Polynomial)
    ensures forall k :: k >= |p.coefficients| + |q.coefficients| - 1 ==> Coef(Times(p, q), k) == Zero
  {
    var l, r := p.coefficients, q.coefficients;
    forall k | k >= |l| + |r| - 1 ensures Coef(Times(p, q), k) == Zero {
      if k < |l| + |r| + 1 {
        GridZeroAbove(l, r, |l|, |r|, k);
      }
    }
  }

  // ---------------------------------------------------------------------------
  // Multiplication is commutative: exchange the order of the double sum

  /** Contributions of column j (lhs[0..m) against rhs[j]) to coefficient k. */
  function ColSum(l: seq<Float2>, r: seq<Float2>, j: nat, m: nat, k: int): Float2
    requires j < |r| && m <= |l|
  {
    if m == 0 then Zero else ComplexAdd(ColSum(l, r, j, m - 1, k), Term(l, r, m - 1, j, k))
  }

  /** The grid summed column by column. */
  function GridByColumns(l: seq<Float2>, r: seq<Float2>, m: nat, n: nat, k: int): Float2
    requires m <= |l| && n <= |r|
  {
    if n == 0 then Zero else ComplexAdd(GridByColumns(l, r, m, n - 1, k), ColSum(l, r, n - 1, m, k))
  }

  lemma {:induction false} GridNoColumns(l: seq<Float2>, r: seq<Float2>, m: nat, k: int)
    requires m <= |l|
    ensures Grid(l, r, m, 0, k) == Zero
  {
    if m > 0 {
      GridNoColumns(l, r, m - 1, k);
    }
  }

  lemma {:induction false} GridPeelColumn(l: seq<Float2>, r: seq<Float2>, m: nat, n: nat, k: int)
    requires m <= |l| && 1 <= n <= |r|
    ensures Grid(l, r, m, n, k) == ComplexAdd(Grid(l, r, m, n - 1, k), ColSum(l, r, n - 1, m, k))
  {
    if m > 0 {
      GridPeelColumn(l, r, m - 1, n, k);
    }
  }

  lemma {:induction false} GridExchange(l: seq<Float2>, r: seq<Float2>, m: nat, n: nat, k: int)
    requires m <= |l| && n <= |r|
    ensures Grid(l, r, m, n, k) == GridByColumns(l, r, m, n, k)
  {
    if n == 0 {
      GridNoColumns(l, r, m, k);
    } else {
      GridPeelColumn(l, r, m, n, k);
      GridExchange(l, r, m, n - 1, k);
    }
  }

  lemma {:induction false} ColSumIsSwappedRow(l: seq<Float2>, r: seq<Float2>, j: nat, m: nat, k: int)
    requires j < |r| && m <= |l|
    ensures ColSum(l, r, j, m, k) == RowSum(r, l, j, m, k)
  {
    if m > 0 {
      ColSumIsSwappedRow(l, r, j, m - 1, k);
      ComplexMulCommutes(r[j], l[m - 1]);
    }
  }

  lemma {:induction false} GridByColumnsIsSwappedGrid(l: seq<Float2>, r: seq<Float2>, m: nat, n: nat, k: int)
    requires m <= |l| && n <= |r|
    ensures GridByColumns(l, r, m, n, k) == Grid(r, l, n, m, k)
  {
    if n > 0 {
      GridByColumnsIsSwappedGrid(l, r, m, n - 1, k);
      ColSumIsSwappedRow(l, r, n - 1, m, k);
    }
  }

  /** p * q == q * p, exactly, coefficient by coefficient and in length. */
  lemma TimesCommutes(p: Polynomial, q: Polynomial)
    ensures Times(p, q) == Times(q, p)
  {
    var l, r := p.coefficients, q.coefficients;
    var s, t := Times(p, q), Times(q, p);
    forall k | 0 <= k < |s.coefficients| ensures s.coefficients[k] == t.coefficients[k] {
      GridExchange(l, r, |l|, |r|, k);
      GridByColumnsIsSwappedGrid(l, r, |l|, |r|, k);
    }
  }

  // ---------------------------------------------------------------------------
  // Multiplication by a linear factor [a, b]

  /** Coefficient k of lhs * r for a two-entry r, in closed form over rows 0..m. */
  function LinearCoef(l: seq<Float2>, r: seq<Float2>, m: nat, k: int): Float2
    requires m <= |l| && |r| == 2
  {
    ComplexAdd(if 0 <= k < m then ComplexMul(r[0], l[k]) else Zero,
               if 0 <= k - 1 < m then ComplexMul(r[1], l[k - 1]) else Zero)
  }

  lemma LinearCoefStep(l: seq<Float2>, r: seq<Float2>, m: nat, k: int)
    requires 0 < m <= |l| && |r| == 2
    ensures LinearCoef(l, r, m, k) == ComplexAdd(LinearCoef(l, r, m - 1, k), RowSum(l, r, m - 1, |r|, k))
  {
    RowSumClosed(l, r, m - 1, |r|, k);
  }

  lemma {:induction false} GridLinear(l: seq<Float2>, r: seq<Float2>, m: nat, k: int)
    requires m <= |l| && |r| == 2
    ensures Grid(l, r, m, |r|, k) == LinearCoef(l, r, m, k)
  {
    if m > 0 {
      GridLinear(l, r, m - 1, k);
      LinearCoefStep(l, r, m, k);
    }
  }

  /** Coefficient k of p * [a, b] is a·p[k] + b·p[k-1]. */
  lemma TimesLinearAt(p: Polynomial, a: Float2, b: Float2, k: int)
    ensures Coef(Times(p, Polynomial([a, b])), k) ==
      ComplexAdd(ComplexMul(a, Coef(p, k)), ComplexMul(b, Coef(p, k - 1)))
  {
    var l, r := p.coefficients, [a, b];
    if 0 <= k < |l| + 3 {
      GridLinear(l, r, |l|, k);
    }
  }

  lemma TimesLinear(p: Polynomial, a: Float2, b: Float2)
    ensures forall k ::
      Coef(Times(p, Polynomial([a, b])), k) == ComplexAdd(ComplexMul(a, Coef(p, k)), ComplexMul(b, Coef(p, k - 1)))
  {
    forall k ensures Coef(Times(p, Polynomial([a, b])), k) ==
      ComplexAdd(ComplexMul(a, Coef(p, k)), ComplexMul(b, Coef(p, k - 1)))
    {
      TimesLinearAt(p, a, b, k);
    }
  }

  /** Multiplying a polynomial whose top coefficient is 1 at power d by x - root
      puts a 1 at power d + 1. */
  lemma TimesFactorLeading(p: Polynomial, root: Float2, d: nat)
    requires Coef(p, d) == One && Coef(p, d + 1) == Zero
    ensures Coef(Times(p, Factor(root)), d + 1) == One
  {
    TimesLinearAt(p, ComplexNeg(root), One, d + 1);
  }

  /** ... and keeps everything above power d + 1 zero. */
  lemma TimesFactorZeroAbove(p: Polynomial, root: Float2, d: nat)
    requires forall k :: k > d ==> Coef(p, k) == Zero
    ensures forall k :: k > d + 1 ==> Coef(Times(p, Factor(root)), k) == Zero
  {
    forall k | k > d + 1 ensures Coef(Times(p, Factor(root)), k) == Zero {
      TimesLinearAt(p, ComplexNeg(root), One, k);
    }
  }

  /** init(roots:) with n roots: 3n - 1 coefficients, monic of degree n. */
  lemma {:induction false} FromRootsShape(roots: seq<Float2>, n: nat)
    requires 1 <= n <= |roots|
    ensures |FromRootsPrefix(roots, n).coefficients| == 3 * n - 1
    ensures Coef(FromRootsPrefix(roots, n), n) == One
    ensures forall k :: k > n ==> Coef(FromRootsPrefix(roots, n), k) == Zero
  {
    if n > 1 {
      FromRootsShape(roots, n - 1);
      var p := FromRootsPrefix(roots, n - 1);
      TimesFactorLeading(p, roots[n - 1], n - 1);
      TimesFactorZeroAbove(p, roots[n - 1], n - 1);
    }
  }

  /** The derivative of a monic polynomial of degree n >= 1 has n at power n - 1 and
      nothing above it. */
  lemma DerivativeOfMonic(p: Polynomial, n: nat)
    requires |p.coefficients| >= 2 && n >= 1
    requires Coef(p, n) == One
    requires forall k :: k > n ==> Coef(p, k) == Zero
    ensures Coef(Derivative(p), n - 1) == FromReal(n as real)
    ensures forall k :: k >= n ==> Coef(Derivative(p), k) == Zero
  {
    assert Coef(Derivative(p), n - 1) == ComplexScale(n as real, Coef(p, n));
  }

  // ---------------------------------------------------------------------------
  // The padding-tolerant equality

  lemma SameCoefficientsIsEquivalence(p: Polynomial, q: Polynomial, r: Polynomial)
    ensures SameCoefficients(p, p)
    ensures SameCoefficients(p, q) ==> SameCoefficients(q, p)
    ensures SameCoefficients(p, q) && SameCoefficients(q, r) ==> SameCoefficients(p, r)
  {
  }

  /** Appending zero coefficients to either side never changes the outcome of `==`. */
  lemma PaddingIsInvisible(p: Polynomial, q: Polynomial, extra: nat)
    ensures var padded := Polynomial(p.coefficients + seq(extra, _ => Zero));
      SameCoefficients(padded, q) <==> SameCoefficients(p, q)
    ensures var padded := Polynomial(p.coefficients + seq(extra, _ => Zero));
      SameCoefficients(q, padded) <==> SameCoefficients(q, p)
  {
    var padded := Polynomial(p.coefficients + seq(extra, _ => Zero));
    assert forall c :: Coef(padded, c) == Coef(p, c);
  }
}
