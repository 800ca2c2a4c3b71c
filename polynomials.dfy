/** The value-level meaning of the `Polynomial` struct: a dense array of complex
    coefficients indexed by power (index 0 is the constant term). Trailing zero
    coefficients are allowed; every operator pads its result with them. */
module Polynomials {
  import opened Complex

  datatype Polynomial = Polynomial(coefficients: seq<Float2>)

  function Max(a: int, b: int): int {
    if a < b then b else a
  }

  function Min(a: int, b: int): int {
    if a < b then a else b
  }

  /** Coefficient of x^c, reading past either end as zero. */
  function Coef(p: Polynomial, c: int): Float2 {
    if 0 <= c < |p.coefficients| then p.coefficients[c] else Zero
  }

  /** init(degree:): degree + 1 zero coefficients. */
  function WithDegree(degree: nat): (p: Polynomial)
    ensures |p.coefficients| == degree + 1
    ensures forall c :: Coef(p, c) == Zero
  {
    Polynomial(seq(degree + 1, _ => Zero))
  }

  /** init(coefficients:): one complex coefficient per real input, imaginary part zero. */
  function FromReals(values: seq<real>): (p: Polynomial)
    ensures |p.coefficients| == |values|
    ensures forall c :: 0 <= c < |values| ==> Coef(p, c).x == values[c]
    ensures forall c :: Coef(p, c).y == 0.0
  {
    Polynomial(seq(|values|, c requires 0 <= c < |values| => FromReal(values[c])))
  }

  /** Operator `+`: the result has max(l, r) + 1 coefficients. */
  function Plus(lhs: Polynomial, rhs: Polynomial): (r: Polynomial)
    ensures |r.coefficients| == Max(|lhs.coefficients|, |rhs.coefficients|) + 1
    ensures forall c :: Coef(r, c) == ComplexAdd(Coef(lhs, c), Coef(rhs, c))
  {
    var n := Max(|lhs.coefficients|, |rhs.coefficients|) + 1;
    Polynomial(seq(n, c => ComplexAdd(Coef(lhs, c), Coef(rhs, c))))
  }

  /** Operator `-` as the source has it: both operands are subtracted from the zero
      buffer, so the result is the negated sum. */
  function Minus(lhs: Polynomial, rhs: Polynomial): (r: Polynomial)
    ensures |r.coefficients| == Max(|lhs.coefficients|, |rhs.coefficients|) + 1
    ensures forall c :: Coef(r, c) == ComplexNeg(ComplexAdd(Coef(lhs, c), Coef(rhs, c)))
  {
    var n := Max(|lhs.coefficients|, |rhs.coefficients|) + 1;
    Polynomial(seq(n, c => ComplexSub(ComplexSub(Zero, Coef(lhs, c)), Coef(rhs, c))))
  }

  /** The subtraction `-` evidently intends: the first loop adding lhs[c] to the zero
      buffer instead of subtracting it, so that the second loop's `-=` leaves
      lhs[c] - rhs[c]. Same length as `-`. */
  function Difference(lhs: Polynomial, rhs: Polynomial): (r: Polynomial)
    ensures |r.coefficients| == Max(|lhs.coefficients|, |rhs.coefficients|) + 1
    ensures forall c :: Coef(r, c) == ComplexSub(Coef(lhs, c), Coef(rhs, c))
  {
    var n := Max(|lhs.coefficients|, |rhs.coefficients|) + 1;
    Polynomial(seq(n, c => ComplexSub(Coef(lhs, c), Coef(rhs, c))))
  }

  /** What the multiplication loop adds to coefficient k when it visits the pair
      (i, j): complex_mul(rhs[j], lhs[i]) lands on index i + j. */
  function Term(l: seq<Float2>, r: seq<Float2>, i: nat, j: nat, k: int): Float2
    requires i < |l| && j < |r|
  {
    if i + j == k then ComplexMul(r[j], l[i]) else Zero
  }

  /** Contributions of row i (lhs[i] against rhs[0..n)) to coefficient k. */
  function RowSum(l: seq<Float2>, r: seq<Float2>, i: nat, n: nat, k: int): Float2
    requires i < |l| && n <= |r|
  {
    if n == 0 then Zero else ComplexAdd(RowSum(l, r, i, n - 1, k), Term(l, r, i, n - 1, k))
  }

  /** Contributions of rows 0..m, each over rhs[0..n), to coefficient k. */
  function Grid(l: seq<Float2>, r: seq<Float2>, m: nat, n: nat, k: int): Float2
    requires m <= |l| && n <= |r|
  {
    if m == 0 then Zero else ComplexAdd(Grid(l, r, m - 1, n, k), RowSum(l, r, m - 1, n, k))
  }

  /** Operator `*`: the convolution of the coefficient arrays, with l + r + 1 entries. */
  function Times(lhs: Polynomial, rhs: Polynomial): (r: Polynomial)
    ensures |r.coefficients| == |lhs.coefficients| + |rhs.coefficients| + 1
  {
    var l, rr := lhs.coefficients, rhs.coefficients;
    Polynomial(seq(|l| + |rr| + 1, k => Grid(l, rr, |l|, |rr|, k)))
  }

  /** derivative(): the result keeps the length; entry c - 1 gets c * coefficient c. */
  function Derivative(p: Polynomial): (d: Polynomial)
    requires |p.coefficients| >= 2
    ensures |d.coefficients| == |p.coefficients|
    ensures forall k :: 0 <= k ==> Coef(d, k) == ComplexScale((k + 1) as real, Coef(p, k + 1))
    ensures Coef(d, |p.coefficients| - 1) == Zero
  {
    var n := |p.coefficients|;
    Polynomial(seq(n, k requires 0 <= k < n =>
      if k + 1 < n then ComplexMul(p.coefficients[k + 1], FromReal((k + 1) as real)) else Zero))
  }

  /** The linear factor x - root, built as the coefficient pair [-root, 1]. */
  function Factor(root: Float2): (f: Polynomial)
    ensures |f.coefficients| == 2
    ensures Coef(f, 0) == ComplexNeg(root) && Coef(f, 1) == One
  {
    Polynomial([ComplexNeg(root), One])
  }

  /** Product of the factors of roots[0..n), multiplied in the order init(roots:) does. */
  function FromRootsPrefix(roots: seq<Float2>, n: nat): Polynomial
    requires 1 <= n <= |roots|
  {
    if n == 1 then Factor(roots[0]) else Times(FromRootsPrefix(roots, n - 1), Factor(roots[n - 1]))
  }

  /** init(roots:) */
  function FromRoots(roots: seq<Float2>): Polynomial
    requires |roots| >= 2
  {
    FromRootsPrefix(roots, |roots|)
  }

  /** The equality the custom `==` decides: the same coefficient at every power,
      trailing entries counting as zero. */
  ghost predicate SameCoefficients(lhs: Polynomial, rhs: Polynomial) {
    forall c :: Coef(lhs, c) == Coef(rhs, c)
  }
}
