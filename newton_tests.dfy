/** The assertions of the polynomial test case, stated as lemmas about the model:
    the product (1 + x)(2 + x)(3 + x), its derivative, and two polynomials built
    from roots, each compared with the padding-tolerant equality. */
module NewtonTests {
  import opened Complex
  import opened Polynomials
  import opened PolynomialAlgebra

  lemma FromTwoReals(u: real, v: real)
    ensures FromReals([u, v]) == Polynomial([FromReal(u), FromReal(v)])
  {
    var p := FromReals([u, v]);
    assert p.coefficients[0] == FromReal(u) && p.coefficients[1] == FromReal(v);
  }

  lemma FromThreeReals(u: real, v: real, w: real)
    ensures FromReals([u, v, w]) == Polynomial([FromReal(u), FromReal(v), FromReal(w)])
  {
    var p := FromReals([u, v, w]);
    assert p.coefficients[0] == FromReal(u) && p.coefficients[1] == FromReal(v);
    assert p.coefficients[2] == FromReal(w);
  }

  lemma FromFourReals(u: real, v: real, w: real, t: real)
    ensures FromReals([u, v, w, t]) == Polynomial([FromReal(u), FromReal(v), FromReal(w), FromReal(t)])
  {
    var p := FromReals([u, v, w, t]);
    assert p.coefficients[0] == FromReal(u) && p.coefficients[1] == FromReal(v);
    assert p.coefficients[2] == FromReal(w) && p.coefficients[3] == FromReal(t);
  }

  /** Multiplying a real polynomial by x + a: coefficient k is a·p[k] + p[k-1]. */
  lemma RealLinearAt(p: Polynomial, a: real, k: int)
    requires forall c :: Coef(p, c).y == 0.0
    ensures Coef(Times(p, Polynomial([FromReal(a), One])), k) == FromReal(a * Coef(p, k).x + Coef(p, k - 1).x)
  {
    TimesLinearAt(p, FromReal(a), One, k);
  }

  /** (1 + x)(2 + x) has the coefficients 2, 3, 1. */
  lemma FirstTwoFactors(k: int)
    ensures Coef(Times(Polynomial([One, One]), Polynomial([FromReal(2.0), One])), k) ==
      Coef(Polynomial([FromReal(2.0), FromReal(3.0), One]), k)
  {
    RealLinearAt(Polynomial([One, One]), 2.0, k);
    if k < 0 {
    } else if k == 0 {
    } else if k == 1 {
    } else if k == 2 {
    } else {
    }
  }

  /** A polynomial equal to 2 + 3x + x^2, times x + 3, has the coefficients 6, 11, 6, 1. */
  lemma ThirdFactor(p: Polynomial, k: int)
    requires forall c :: Coef(p, c) == Coef(Polynomial([FromReal(2.0), FromReal(3.0), One]), c)
    ensures Coef(Times(p, Polynomial([FromReal(3.0), One])), k) ==
      Coef(Polynomial([FromReal(6.0), FromReal(11.0), FromReal(6.0), One]), k)
  {
    var quadratic := Polynomial([FromReal(2.0), FromReal(3.0), One]);
    assert forall c :: Coef(p, c).y == 0.0 by {
      forall c ensures Coef(p, c).y == 0.0 {
        assert Coef(p, c) == Coef(quadratic, c);
      }
    }
    RealLinearAt(p, 3.0, k);
    assert Coef(p, k) == Coef(quadratic, k) && Coef(p, k - 1) == Coef(quadratic, k - 1);
    if k < 0 {
    } else if k == 0 {
    } else if k == 1 {
    } else if k == 2 {
    } else if k == 3 {
    } else {
    }
  }

  /** (1 + x)(2 + x)(3 + x) == 6 + 11x + 6x^2 + x^3 under `==`. */
  lemma ProductOfThreeFactors()
    ensures SameCoefficients(
      Times(Times(FromReals([1.0, 1.0]), FromReals([2.0, 1.0])), FromReals([3.0, 1.0])),
      FromReals([6.0, 11.0, 6.0, 1.0]))
  {
    FromTwoReals(1.0, 1.0);
    FromTwoReals(2.0, 1.0);
    FromTwoReals(3.0, 1.0);
    FromFourReals(6.0, 11.0, 6.0, 1.0);
    var ab := Times(Polynomial([One, One]), Polynomial([FromReal(2.0), One]));
    forall c ensures Coef(ab, c) == Coef(Polynomial([FromReal(2.0), FromReal(3.0), One]), c) {
      FirstTwoFactors(c);
    }
    forall k ensures Coef(Times(ab, Polynomial([FromReal(3.0), One])), k) ==
      Coef(Polynomial([FromReal(6.0), FromReal(11.0), FromReal(6.0), One]), k)
    {
      ThirdFactor(ab, k);
    }
  }

  /** The derivative of that product is 11 + 12x + 3x^2 under `==`. */
  lemma DerivativeOfProduct()
    ensures var abc := Times(Times(FromReals([1.0, 1.0]), FromReals([2.0, 1.0])), FromReals([3.0, 1.0]));
      SameCoefficients(Derivative(abc), FromReals([11.0, 12.0, 3.0]))
  {
    var abc := Times(Times(FromReals([1.0, 1.0]), FromReals([2.0, 1.0])), FromReals([3.0, 1.0]));
    var cubic := Polynomial([FromReal(6.0), FromReal(11.0), FromReal(6.0), One]);
    var expected := Polynomial([FromReal(11.0), FromReal(12.0), FromReal(3.0)]);
    ProductOfThreeFactors();
    FromThreeReals(11.0, 12.0, 3.0);
    FromFourReals(6.0, 11.0, 6.0, 1.0);
    forall k ensures Coef(Derivative(abc), k) == Coef(expected, k) {
      if k >= 0 {
        assert Coef(abc, k + 1) == Coef(cubic, k + 1);
        if k == 0 {
        } else if k == 1 {
        } else if k == 2 {
        } else {
        }
      }
    }
  }

  /** init(roots: [-2, 0]) == x^2 + 2x under `==`. */
  lemma RootsOfQuadratic()
    ensures SameCoefficients(FromRoots([FromReal(-2.0), FromReal(0.0)]), FromReals([0.0, 2.0, 1.0]))
  {
    var roots := [FromReal(-2.0), FromReal(0.0)];
    var first := Polynomial([FromReal(2.0), One]);
    var expected := Polynomial([FromReal(0.0), FromReal(2.0), One]);
    assert Factor(roots[0]) == first && Factor(roots[1]) == Polynomial([FromReal(0.0), One]);
    FromThreeReals(0.0, 2.0, 1.0);
    forall k ensures Coef(FromRoots(roots), k) == Coef(expected, k) {
      RealLinearAt(first, 0.0, k);
      if k < 0 {
      } else if k == 0 {
      } else if k == 1 {
      } else if k == 2 {
      } else {
      }
    }
  }

  /** init(roots: [-1, -2, -3]) == 6 + 11x + 6x^2 + x^3 under `==`. */
  lemma RootsOfCubic()
    ensures SameCoefficients(FromRoots([FromReal(-1.0), FromReal(-2.0), FromReal(-3.0)]), FromReals([6.0, 11.0, 6.0, 1.0]))
  {
    var roots := [FromReal(-1.0), FromReal(-2.0), FromReal(-3.0)];
    var two := FromRootsPrefix(roots, 2);
    assert Factor(roots[0]) == Polynomial([One, One]);
    assert Factor(roots[1]) == Polynomial([FromReal(2.0), One]);
    assert Factor(roots[2]) == Polynomial([FromReal(3.0), One]);
    FromFourReals(6.0, 11.0, 6.0, 1.0);
    forall c ensures Coef(two, c) == Coef(Polynomial([FromReal(2.0), FromReal(3.0), One]), c) {
      FirstTwoFactors(c);
    }
    forall k ensures Coef(FromRoots(roots), k) == Coef(Polynomial([FromReal(6.0), FromReal(11.0), FromReal(6.0), One]), k) {
      ThirdFactor(two, k);
    }
  }
}
