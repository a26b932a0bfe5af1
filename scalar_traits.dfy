/** scalar_traits: conjugation for real and complex scalars.

    Real scalars are modelled as `int` and complex scalars as Gaussian
    integers, so that every equality below is exact. */
module ScalarTraits {

  /** A complex number with integer parts, standing for std::complex<U>. */
  datatype Gaussian = Gaussian(re: int, im: int)

  /** The primary template: conj is the identity on a real scalar. */
  function RealConj(x: int): (r: int)
  {
    x
  }

  /** The std::complex specialisation: conj is std::conj. */
  function ComplexConj(z: Gaussian): (r: Gaussian)
  {
    Gaussian(z.re, -z.im)
  }

  /** std::complex operator+. */
  function ComplexAdd(a: Gaussian, b: Gaussian): (r: Gaussian)
  {
    Gaussian(a.re + b.re, a.im + b.im)
  }

  /** std::complex operator*. */
  function ComplexMul(a: Gaussian, b: Gaussian): (r: Gaussian)
  {
    Gaussian(a.re * b.re - a.im * b.im, a.re * b.im + a.im * b.re)
  }

  function RealAdd(x: int, y: int): (r: int) { x + y }

  function RealMul(x: int, y: int): (r: int) { x * y }

  /** What the vector templates use of a scalar type and its traits: the
      value-initialised scalar `T()`, the type's own `+` and `*`, and the
      traits' `conj`. A vector instantiated for a scalar type carries this
      record, in place of the template arguments. */
  datatype ScalarOps<!T> = ScalarOps(zero: T, plus: (T, T) -> T, times: (T, T) -> T, conj: T -> T)

  /** scalar_traits<T> for a real T. */
  const RealOps: ScalarOps<int> := ScalarOps(0, RealAdd, RealMul, RealConj)

  /** scalar_traits<std::complex<U>>. */
  const ComplexOps: ScalarOps<Gaussian> := ScalarOps(Gaussian(0, 0), ComplexAdd, ComplexMul, ComplexConj)

  /** For a non-complex scalar, conj changes nothing. */
  lemma RealConjIsIdentity(x: int)
    ensures RealOps.conj(x) == x
  {
  }

  /** For a complex scalar, conj keeps the real part and negates the imaginary part. */
  lemma ComplexConjParts(z: Gaussian)
    ensures ComplexOps.conj(z).re == z.re && ComplexOps.conj(z).im == -z.im
  {
  }

  /** conj is an involution in both specialisations. */
  lemma ConjInvolution(x: int, z: Gaussian)
    ensures RealOps.conj(RealOps.conj(x)) == x
    ensures ComplexOps.conj(ComplexOps.conj(z)) == z
  {
  }

  /** A complex value with zero imaginary part is its own conjugate, in
      agreement with the real specialisation; and only such values are. */
  lemma ComplexConjOfReal(z: Gaussian)
    ensures ComplexOps.conj(z) == z <==> z.im == 0
    ensures z.im == 0 ==> ComplexOps.conj(z) == Gaussian(RealOps.conj(z.re), 0)
  {
  }

  /** conj distributes over complex sums and products. */
  lemma ComplexConjHomomorphism(a: Gaussian, b: Gaussian)
    ensures ComplexConj(ComplexAdd(a, b)) == ComplexAdd(ComplexConj(a), ComplexConj(b))
    ensures ComplexConj(ComplexMul(a, b)) == ComplexMul(ComplexConj(a), ComplexConj(b))
  {
    assert (-a.im) * (-b.im) == a.im * b.im;
    assert a.re * (-b.im) + (-a.im) * b.re == -(a.re * b.im + a.im * b.re);
  }

  /** A scalar times its own conjugate is a non-negative real. */
  lemma ComplexTimesConj(z: Gaussian)
    ensures ComplexMul(z, ComplexConj(z)).im == 0
    ensures ComplexMul(z, ComplexConj(z)).re >= 0
  {
    assert z.re * (-z.im) + z.im * z.re == 0;
    assert z.im * (-z.im) == -(z.im * z.im);
    assert z.re * z.re >= 0 && z.im * z.im >= 0;
  }

  /** Laws of Gaussian arithmetic used by the lemmas about inner products. */
  lemma IntMulAssociative(a: int, b: int, c: int)
    ensures (a * b) * c == a * (b * c)
  {
  }

  lemma IntMulDistributes(a: int, b: int, c: int)
    ensures a * (b + c) == a * b + a * c
  {
  }

  lemma ComplexMulCommutes(a: Gaussian, b: Gaussian)
    ensures ComplexMul(a, b) == ComplexMul(b, a)
  {
    assert a.re * b.re == b.re * a.re && a.im * b.im == b.im * a.im;
    assert a.re * b.im == b.im * a.re && a.im * b.re == b.re * a.im;
  }

  lemma ComplexMulAssociative(a: Gaussian, b: Gaussian, c: Gaussian)
    ensures ComplexMul(ComplexMul(a, b), c) == ComplexMul(a, ComplexMul(b, c))
  {
    var ab := ComplexMul(a, b);
    var bc := ComplexMul(b, c);
    IntMulAssociative(a.re, b.re, c.re);
    IntMulAssociative(a.im, b.im, c.re);
    IntMulAssociative(a.re, b.im, c.im);
    IntMulAssociative(a.im, b.re, c.im);
    IntMulAssociative(a.re, b.re, c.im);
    IntMulAssociative(a.im, b.im, c.im);
    IntMulAssociative(a.re, b.im, c.re);
    IntMulAssociative(a.im, b.re, c.re);
    assert ab.re * c.re == a.re * b.re * c.re - a.im * b.im * c.re;
    assert ab.im * c.im == a.re * b.im * c.im + a.im * b.re * c.im;
    assert ab.re * c.im == a.re * b.re * c.im - a.im * b.im * c.im;
    assert ab.im * c.re == a.re * b.im * c.re + a.im * b.re * c.re;
    assert a.re * bc.re == a.re * (b.re * c.re) - a.re * (b.im * c.im);
    assert a.im * bc.im == a.im * (b.re * c.im) + a.im * (b.im * c.re);
    assert a.re * bc.im == a.re * (b.re * c.im) + a.re * (b.im * c.re);
    assert a.im * bc.re == a.im * (b.re * c.re) - a.im * (b.im * c.im);
  }

  lemma ComplexMulDistributes(a: Gaussian, b: Gaussian, c: Gaussian)
    ensures ComplexMul(a, ComplexAdd(b, c)) == ComplexAdd(ComplexMul(a, b), ComplexMul(a, c))
  {
    IntMulDistributes(a.re, b.re, c.re);
    IntMulDistributes(a.im, b.im, c.im);
    IntMulDistributes(a.re, b.im, c.im);
    IntMulDistributes(a.im, b.re, c.re);
  }

  lemma ComplexMulDistributesRight(a: Gaussian, b: Gaussian, c: Gaussian)
    ensures ComplexMul(ComplexAdd(a, b), c) == ComplexAdd(ComplexMul(a, c), ComplexMul(b, c))
  {
    IntMulDistributes(c.re, a.re, b.re);
    IntMulDistributes(c.im, a.im, b.im);
    IntMulDistributes(c.im, a.re, b.re);
    IntMulDistributes(c.re, a.im, b.im);
  }

  lemma ComplexAddShuffle(a: Gaussian, b: Gaussian, c: Gaussian, d: Gaussian)
    ensures ComplexAdd(ComplexAdd(a, c), ComplexAdd(b, d)) == ComplexAdd(ComplexAdd(a, b), ComplexAdd(c, d))
  {
  }
}
