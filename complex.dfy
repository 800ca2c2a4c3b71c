/** Complex numbers as the source stores them: a `float2` pair (x = real part,
    y = imaginary part). Float64 is modelled by `real`. */
module Complex {

  datatype Float2 = Float2(x: real, y: real)

  const Zero := Float2(0.0, 0.0)
  const One := Float2(1.0, 0.0)

  /** A real number seen as a complex value, `float2(v, 0.0)`. */
  function FromReal(v: real): Float2 {
    Float2(v, 0.0)
  }

  /** Componentwise `+` of two float2 values. */
  function ComplexAdd(a: Float2, b: Float2): Float2 {
    Float2(a.x + b.x, a.y + b.y)
  }

  /** Componentwise `-` of two float2 values. */
  function ComplexSub(a: Float2, b: Float2): Float2 {
    Float2(a.x - b.x, a.y - b.y)
  }

  /** Unary minus, `-v`. */
  function ComplexNeg(a: Float2): Float2 {
    Float2(-a.x, -a.y)
  }

  /** Scaling by a real number. */
  function ComplexScale(s: real, a: Float2): Float2 {
    Float2(s * a.x, s * a.y)
  }

  /** complex_mul: the complex product, written as the source writes it. */
  function ComplexMul(a: Float2, b: Float2): (r: Float2)
    ensures b == One ==> r == a
    ensures a == One ==> r == b
    ensures a == Zero || b == Zero ==> r == Zero
    ensures b.y == 0.0 ==> r == ComplexScale(b.x, a)
  {
    Float2(a.x * b.x - a.y * b.y, a.x * b.y + b.x * a.y)
  }

  lemma ComplexMulCommutes(a: Float2, b: Float2)
    ensures ComplexMul(a, b) == ComplexMul(b, a)
  {
  }

  lemma ComplexMulDistributes(a: Float2, b: Float2, c: Float2)
    ensures ComplexMul(a, ComplexAdd(b, c)) == ComplexAdd(ComplexMul(a, b), ComplexMul(a, c))
    ensures ComplexMul(ComplexAdd(b, c), a) == ComplexAdd(ComplexMul(b, a), ComplexMul(c, a))
  {
  }

  lemma MulByNegation(a: Float2, b: Float2)
    ensures ComplexMul(a, ComplexNeg(b)) == ComplexNeg(ComplexMul(a, b))
  {
  }

  lemma ComplexMulAssociates(a: Float2, b: Float2, c: Float2)
    ensures ComplexMul(a, ComplexMul(b, c)) == ComplexMul(ComplexMul(a, b), c)
  {
    RealPartAssociates(a.x, a.y, b.x, b.y, c.x, c.y);
    ImaginaryPartAssociates(a.x, a.y, b.x, b.y, c.x, c.y);
  }

  /** The real part of (p + qi)(s + ti)(u + vi), bracketed both ways. */
  lemma RealPartAssociates(p: real, q: real, s: real, t: real, u: real, v: real)
    ensures p * (s * u - t * v) - (s * v + u * t) * q == (p * s - q * t) * u - (p * t + s * q) * v
  {
    Expand3(p, s, u, t, v);
    Expand3(q, s, v, u, t);
  }

  /** The imaginary part of (p + qi)(s + ti)(u + vi), bracketed both ways. */
  lemma ImaginaryPartAssociates(p: real, q: real, s: real, t: real, u: real, v: real)
    ensures p * (s * v + u * t) + (s * u - t * v) * q == (p * s - q * t) * v + u * (p * t + s * q)
  {
    Expand3(p, s, v, u, t);
    Expand3(q, s, u, t, v);
  }

  /** a * (b * c - d * e) == a * b * c - a * d * e, spelled out for the solver. */
  lemma Expand3(a: real, b: real, c: real, d: real, e: real)
    ensures a * (b * c - d * e) == a * b * c - a * d * e
    ensures a * (b * c + d * e) == a * b * c + a * d * e
  {
  }
}
