/** The `Polynomial` initialisers and operators as the source runs them: each one
    starts from a zero coefficient buffer and updates it in place inside loops. */
module Newton {
  import opened Complex
  import opened Polynomials

  /** init(coefficients:) */
  method InitCoefficients(values: seq<real>) returns (p: Polynomial)
    ensures p == FromReals(values)
  {
    var coefficients := new Float2[|values|](_ => Zero);
    for c := 0 to |values|
      invariant forall k :: 0 <= k < coefficients.Length ==>
        coefficients[k] == if k < c then FromReal(values[k]) else Zero
    {
      coefficients[c] := ComplexAdd(coefficients[c], FromReal(values[c]));
    }
    p := Polynomial(coefficients[..]);
  }

  /** init(roots:): starts from the factor of roots[0] and multiplies in one factor
      per further root. A single root traps on the range 1...0. */
  method InitRoots(roots: seq<Float2>) returns (p: Polynomial)
    requires |roots| >= 2
    ensures p == FromRoots(roots)
  {
    p := Polynomial([ComplexNeg(roots[0]), One]);
    for i := 1 to |roots|
      invariant p == FromRootsPrefix(roots, i)
    {
      p := Multiply(p, Polynomial([ComplexNeg(roots[i]), One]));
    }
  }

  /** derivative(): needs at least two coefficients (the range 1...count-1). */
  method Differentiate(p: Polynomial) returns (result: Polynomial)
    requires |p.coefficients| >= 2
    ensures result == Derivative(p)
  {
    var n := |p.coefficients|;
    ghost var d := Derivative(p).coefficients;
    var coefficients := new Float2[n](_ => Zero);
    for c := 1 to n
      invariant forall k :: 0 <= k < n ==> coefficients[k] == if k + 1 < c then d[k] else Zero
    {
      var val := p.coefficients[c];
      coefficients[c - 1] := ComplexAdd(coefficients[c - 1], ComplexMul(val, Float2(c as real, 0.0)));
      assert coefficients[c - 1] == d[c - 1];
    }
    result := Polynomial(coefficients[..]);
  }

  /** Operator `+`. */
  method Add(lhs: Polynomial, rhs: Polynomial) returns (result: Polynomial)
    ensures result == Plus(lhs, rhs)
  {
    var n := Max(|lhs.coefficients|, |rhs.coefficients|);
    var coefficients := new Float2[n + 1](_ => Zero);
    for c := 0 to |lhs.coefficients|
      invariant forall k :: 0 <= k <= n ==> coefficients[k] == if k < c then Coef(lhs, k) else Zero
    {
      coefficients[c] := ComplexAdd(coefficients[c], lhs.coefficients[c]);
    }
    for c := 0 to |rhs.coefficients|
      invariant forall k :: 0 <= k <= n ==>
        coefficients[k] == ComplexAdd(Coef(lhs, k), if k < c then Coef(rhs, k) else Zero)
    {
      coefficients[c] := ComplexAdd(coefficients[c], rhs.coefficients[c]);
    }
    result := Polynomial(coefficients[..]);
  }

  /** Operator `-`, as written: both loops subtract. */
  method Subtract(lhs: Polynomial, rhs: Polynomial) returns (result: Polynomial)
    ensures result == Minus(lhs, rhs)
  {
    var n := Max(|lhs.coefficients|, |rhs.coefficients|);
    var coefficients := new Float2[n + 1](_ => Zero);
    for c := 0 to |lhs.coefficients|
      invariant forall k :: 0 <= k <= n ==>
        coefficients[k] == ComplexSub(Zero, if k < c then Coef(lhs, k) else Zero)
    {
      coefficients[c] := ComplexSub(coefficients[c], lhs.coefficients[c]);
    }
    for c := 0 to |rhs.coefficients|
      invariant forall k :: 0 <= k <= n ==>
        coefficients[k] == ComplexSub(ComplexSub(Zero, Coef(lhs, k)), if k < c then Coef(rhs, k) else Zero)
    {
      coefficients[c] := ComplexSub(coefficients[c], rhs.coefficients[c]);
    }
    result := Polynomial(coefficients[..]);
  }

  /** Operator `*`: every pair (lC, rC) adds complex_mul(rVal, lVal) to index rC + lC. */
  method Multiply(lhs: Polynomial, rhs: Polynomial) returns (result: Polynomial)
    ensures result == Times(lhs, rhs)
  {
    var l, r := lhs.coefficients, rhs.coefficients;
    var coefficients := new Float2[|l| + |r| + 1](_ => Zero);
    for lC := 0 to |l|
      invariant forall k :: 0 <= k < coefficients.Length ==> coefficients[k] == Grid(l, r, lC, |r|, k)
    {
      ghost var before := coefficients[..];
      AddRowProducts(coefficients, l, r, lC);
      forall k | 0 <= k < coefficients.Length
        ensures coefficients[k] == Grid(l, r, lC + 1, |r|, k)
      {
        assert before[k] == Grid(l, r, lC, |r|, k);
      }
    }
    assert coefficients[..] == Times(lhs, rhs).coefficients;
    result := Polynomial(coefficients[..]);
  }

  /** The inner loop of `*`: for each rC, complex_mul(rhs[rC], lhs[lC]) is added to
      index rC + lC. */
  method AddRowProducts(coefficients: array<Float2>, l: seq<Float2>, r: seq<Float2>, lC: nat)
    requires lC < |l| && coefficients.Length == |l| + |r| + 1
    modifies coefficients
    ensures forall k :: 0 <= k < coefficients.Length ==>
      coefficients[k] == ComplexAdd(old(coefficients[k]), RowSum(l, r, lC, |r|, k))
  {
    for rC := 0 to |r|
      invariant forall k :: 0 <= k < coefficients.Length ==>
        coefficients[k] == ComplexAdd(old(coefficients[k]), RowSum(l, r, lC, rC, k))
    {
      ghost var before := coefficients[..];
      coefficients[rC + lC] := ComplexAdd(coefficients[rC + lC], ComplexMul(r[rC], l[lC]));
      forall k | 0 <= k < coefficients.Length
        ensures coefficients[k] == ComplexAdd(old(coefficients[k]), RowSum(l, r, lC, rC + 1, k))
      {
        assert before[k] == ComplexAdd(old(coefficients[k]), RowSum(l, r, lC, rC, k));
        RowSumStep(l, r, lC, rC, k);
        if k == rC + lC {
          AddAssociates(old(coefficients[k]), RowSum(l, r, lC, rC, k), ComplexMul(r[rC], l[lC]));
        }
      }
    }
  }

  /** One more column of row i adds its product to index i + n only. */
  lemma RowSumStep(l: seq<Float2>, r: seq<Float2>, i: nat, n: nat, k: int)
    requires i < |l| && n < |r|
    ensures RowSum(l, r, i, n + 1, k) ==
      if k == i + n then ComplexAdd(RowSum(l, r, i, n, k), ComplexMul(r[n], l[i])) else RowSum(l, r, i, n, k)
  {
  }

  lemma AddAssociates(a: Float2, b: Float2, c: Float2)
    ensures ComplexAdd(ComplexAdd(a, b), c) == ComplexAdd(a, ComplexAdd(b, c))
  {
  }

  /** Operator `==`: both operands must be non-empty (the range 0...degreeP1-1). The
      common prefix is compared exactly; the longer side's extra entries must be zero. */
  method Equals(lhs: Polynomial, rhs: Polynomial) returns (equal: bool)
    requires |lhs.coefficients| >= 1 && |rhs.coefficients| >= 1
    ensures equal <==> SameCoefficients(lhs, rhs)
  {
    var l, r := lhs.coefficients, rhs.coefficients;
    var degreeP1 := Min(|l|, |r|);
    for c := 0 to degreeP1
      invariant forall k :: 0 <= k < c ==> l[k] == r[k]
    {
      if l[c] != r[c] {
        assert Coef(lhs, c) != Coef(rhs, c);
        return false;
      }
    }
    if |l| > degreeP1 {
      for c := degreeP1 to |l|
        invariant forall k :: degreeP1 <= k < c ==> l[k] == Zero
      {
        if l[c] != Zero {
          assert Coef(lhs, c) != Coef(rhs, c);
          return false;
        }
      }
    } else if |r| > degreeP1 {
      for c := degreeP1 to |r|
        invariant forall k :: degreeP1 <= k < c ==> r[k] == Zero
      {
        if r[c] != Zero {
          assert Coef(lhs, c) != Coef(rhs, c);
          return false;
        }
      }
    }
    return true;
  }
}
