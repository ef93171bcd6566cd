/**
 * The immutable complex number of assets/js/complex.js. Every operation
 * returns a new value; because Dafny datatypes are values, no operation
 * can change its operands.
 */
module ComplexNumbers {

  datatype Complex = Complex(re: real, im: real)

  /** `new Complex(r)`: the imaginary part defaults to 0. */
  function FromReal(r: real): (c: Complex)
    ensures c.re == r && c.im == 0.0
  {
    Complex(r, 0.0)
  }

  const Zero: Complex := FromReal(0.0)
  const One: Complex := FromReal(1.0)
  /** The imaginary unit i. */
  const I: Complex := Complex(0.0, 1.0)

  /** Taking b back off the sum, part by part, gives a. */
  function Add(a: Complex, b: Complex): (r: Complex)
    ensures r.re - b.re == a.re && r.im - b.im == a.im
  {
    Complex(a.re + b.re, a.im + b.im)
  }

  /** 1 is neutral, 0 absorbs, and a real factor scales both parts. */
  function Multiply(a: Complex, b: Complex): (r: Complex)
    ensures b == Complex(1.0, 0.0) ==> r == a
    ensures a == Complex(0.0, 0.0) || b == Complex(0.0, 0.0) ==> r == Complex(0.0, 0.0)
    ensures b.im == 0.0 ==> r == Complex(a.re * b.re, a.im * b.re)
  {
    Complex(a.re * b.re - a.im * b.im, a.re * b.im + a.im * b.re)
  }

  /** `magnitude()` squared: the square root itself is left to the caller. */
  function MagnitudeSquared(a: Complex): (r: real)
    ensures r >= 0.0
  {
    SquareNonnegative(a.re);
    SquareNonnegative(a.im);
    a.re * a.re + a.im * a.im
  }

  /** Dividing both parts by a non-zero real, as a normaliser does. */
  function DivideBy(a: Complex, k: real): (r: Complex)
    requires k != 0.0
    ensures r.re * k == a.re && r.im * k == a.im
  {
    Complex(a.re / k, a.im / k)
  }

  /** Dividing by k and multiplying back by k gives the original value. */
  lemma DivideByInverts(a: Complex, k: real)
    requires k != 0.0
    ensures Multiply(DivideBy(a, k), FromReal(k)) == a
  {
    var r := DivideBy(a, k);
    assert r.re * k == a.re;
    assert r.im * k == a.im;
  }

  lemma AddComponentwise(a: Complex, b: Complex)
    ensures Add(a, b).re == a.re + b.re && Add(a, b).im == a.im + b.im
    ensures Add(a, b) == Add(b, a)
    ensures Add(a, Zero) == a
  {
  }

  lemma MultiplyCommutative(a: Complex, b: Complex)
    ensures Multiply(a, b) == Multiply(b, a)
  {
  }

  lemma MultiplyIdentity(a: Complex)
    ensures Multiply(a, One) == a && Multiply(One, a) == a
    ensures Multiply(a, Zero) == Zero
  {
  }

  lemma MultiplyAssociative(a: Complex, b: Complex, c: Complex)
    ensures Multiply(Multiply(a, b), c) == Multiply(a, Multiply(b, c))
  {
  }

  lemma MultiplyDistributes(a: Complex, b: Complex, c: Complex)
    ensures Multiply(a, Add(b, c)) == Add(Multiply(a, b), Multiply(a, c))
  {
  }

  /** A square is never negative, and positive for every non-zero real. */
  lemma SquareNonnegative(r: real)
    ensures r * r >= 0.0
    ensures r != 0.0 ==> r * r > 0.0
  {
    if r < 0.0 {
      assert r * r == (-r) * (-r);
    }
  }

  /** |a|² is never negative; it is positive for every value but 0 + 0i, and 0 for 0 + 0i. */
  lemma MagnitudeSquaredZeroIff(a: Complex)
    ensures MagnitudeSquared(a) >= 0.0
    ensures a != Zero ==> MagnitudeSquared(a) > 0.0
    ensures a == Zero ==> MagnitudeSquared(a) == 0.0
  {
    var x, y := a.re, a.im;
    SquareNonnegative(x);
    SquareNonnegative(y);
    if x != 0.0 {
      calc {
        MagnitudeSquared(a);
        x * x + y * y;
      >= x * x;
      > 0.0;
      }
    } else if y != 0.0 {
      calc {
        MagnitudeSquared(a);
        x * x + y * y;
      >= y * y;
      > 0.0;
      }
    } else {
      assert a == Zero;
    }
  }

  /** |a·b|² = |a|²·|b|². */
  lemma MagnitudeSquaredMultiplicative(a: Complex, b: Complex)
    ensures MagnitudeSquared(Multiply(a, b)) == MagnitudeSquared(a) * MagnitudeSquared(b)
  {
    var p, q, r, t := a.re, a.im, b.re, b.im;
    calc {
      MagnitudeSquared(Multiply(a, b));
      (p * r - q * t) * (p * r - q * t) + (p * t + q * r) * (p * t + q * r);
      p * p * r * r + q * q * t * t + p * p * t * t + q * q * r * r;
      (p * p + q * q) * (r * r + t * t);
    }
  }

  lemma PositiveProduct(a: real, b: real)
    requires a > 0.0 && b > 0.0
    ensures a * b > 0.0
  {
  }

  /**
   * x·factor, as a function: proofs that carry a product through sums
   * compare `ScaledBy` terms by congruence rather than by non-linear
   * arithmetic.
   */
  function ScaledBy(x: real, factor: real): real
  {
    x * factor
  }

  lemma SquarePositive(k: real)
    requires k != 0.0
    ensures k * k > 0.0
  {
    if k < 0.0 {
      PositiveProduct(-k, -k);
      assert k * k == (-k) * (-k);
    } else {
      PositiveProduct(k, k);
    }
  }

  /** If x·b = b for a positive b, then x = 1. */
  lemma UnitFromScaled(x: real, b: real)
    requires b > 0.0 && ScaledBy(x, b) == b
    ensures x == 1.0
  {
    if x > 1.0 {
      PositiveProduct(x - 1.0, b);
      assert false;
    } else if x < 1.0 {
      PositiveProduct(1.0 - x, b);
      assert false;
    }
  }

  lemma ScaleBack(x: real, k: real)
    requires k != 0.0
    ensures (x / k) * (x / k) * (k * k) == x * x
  {
    calc {
      (x / k) * (x / k) * (k * k);
      ((x / k) * k) * ((x / k) * k);
      x * x;
    }
  }

  /** Dividing by k divides |a|² by k² (kk stands for k²). */
  lemma MagnitudeSquaredDivided(a: Complex, k: real, kk: real)
    requires k != 0.0 && kk == k * k
    ensures ScaledBy(MagnitudeSquared(DivideBy(a, k)), kk) == MagnitudeSquared(a)
  {
    ScaleBack(a.re, k);
    ScaleBack(a.im, k);
    var x, y := a.re / k, a.im / k;
    calc {
      MagnitudeSquared(DivideBy(a, k)) * (k * k);
      (x * x + y * y) * (k * k);
      x * x * (k * k) + y * y * (k * k);
      a.re * a.re + a.im * a.im;
    }
  }
}
