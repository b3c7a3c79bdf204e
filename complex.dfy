/**
 * The small complex-number type the program defines once per precision
 * (MyComplex_first_float, _second_float, _third_float). Here a single type over
 * exact reals stands for all three: the model makes no claim about rounding.
 */
module ComplexNumbers {

  datatype Complex = Complex(re: real, im: real)

  /** The default-constructed value: both parts zero. */
  const Zero: Complex := Complex(0.0, 0.0)

  /** operator+ : component-wise sum. */
  function Add(a: Complex, b: Complex): (r: Complex)
    ensures r.re - b.re == a.re && r.im - b.im == a.im
  {
    Complex(a.re + b.re, a.im + b.im)
  }

  /** operator* : (a+bi)(c+di) = (ac-bd) + (ad+bc)i. */
  function Mul(a: Complex, b: Complex): Complex
  {
    Complex(a.re * b.re - a.im * b.im, a.re * b.im + a.im * b.re)
  }

  /** Squared() : a^2 - b^2 + 2abi, written as the program writes it. */
  function Squared(z: Complex): Complex
  {
    Complex(z.re * z.re - z.im * z.im, z.re * z.im + z.re * z.im)
  }

  /** Magnitude() : the SQUARED modulus re^2 + im^2 (no square root is taken). */
  function Magnitude(z: Complex): (m: real)
    ensures m >= 0.0
  {
    z.re * z.re + z.im * z.im
  }

  /** Squared agrees with multiplying a value by itself. */
  lemma SquaredIsSelfProduct(z: Complex)
    ensures Squared(z) == Mul(z, z)
  {
    assert z.im * z.re == z.re * z.im;
  }

  /** Add and Mul are commutative, as the formulas of the two operators promise. */
  lemma AddMulCommute(a: Complex, b: Complex)
    ensures Add(a, b) == Add(b, a)
    ensures Mul(a, b) == Mul(b, a)
  {
    assert a.re * b.re == b.re * a.re && a.im * b.im == b.im * a.im;
    assert a.re * b.im == b.im * a.re && a.im * b.re == b.re * a.im;
  }

  /** The squared modulus is multiplicative: |ab|^2 = |a|^2 |b|^2, so Squared squares it. */
  lemma MulMagnitude(a: Complex, b: Complex)
    ensures Magnitude(Mul(a, b)) == Magnitude(a) * Magnitude(b)
    ensures Magnitude(Squared(a)) == Magnitude(a) * Magnitude(a)
  {
    SquaredIsSelfProduct(a);
  }
}
