/**
 * Complex numbers over exact reals: the arithmetic the escape-time map and the
 * sampled plane use (`x + y*1j`, `z*z`, `z + c`, `abs(z)`).
 */
module ComplexNumbers {

  /** A complex number `re + im*1j`, with exact real parts. */
  datatype Complex = Complex(re: real, im: real)

  function Add(a: Complex, b: Complex): Complex
  {
    Complex(a.re + b.re, a.im + b.im)
  }

  /** Product by the FOIL rule: (x + y*1j)*(v + w*1j) = (x*v - y*w) + (x*w + y*v)*1j. */
  function Mul(a: Complex, b: Complex): Complex
  {
    Complex(a.re * b.re - a.im * b.im, a.re * b.im + a.im * b.re)
  }

  /** `z**2`. */
  function Square(z: Complex): Complex
  {
    Mul(z, z)
  }

  /**
   * The squared magnitude `abs(z)**2`. Comparing it with 4 is comparing `abs(z)`
   * with 2, without a square root.
   */
  function NormSq(z: Complex): (r: real)
    ensures r >= 0.0
  {
    z.re * z.re + z.im * z.im
  }
}
