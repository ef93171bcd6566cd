/**
 * The fixed gate matrices of assets/js/quantum-gates.js, and the
 * matrix-vector product that applies one of them to a vector of complex
 * amplitudes (the same map/reduce as the emulator's `applyGate`, over
 * `Complex`). 1/√2 is the parameter `s`, constrained by `IsInvSqrt2`.
 */
module QuantumGates {
  import opened ComplexNumbers

  type Vector = seq<Complex>
  type Matrix = seq<Vector>

  /** `s` stands for 1/√2: positive, and its square is 1/2. */
  predicate IsInvSqrt2(s: real)
  {
    s > 0.0 && s * s == 0.5
  }

  /** Scaling by a real factor. */
  function Scale(k: real, a: Complex): (r: Complex)
    ensures r == Multiply(FromReal(k), a)
  {
    Complex(k * a.re, k * a.im)
  }

  function Negate(a: Complex): (r: Complex)
    ensures Add(a, r) == Zero
  {
    Complex(-a.re, -a.im)
  }

  function Subtract(a: Complex, b: Complex): (r: Complex)
    ensures Add(r, b) == a
  {
    Add(a, Negate(b))
  }

  /** An n×n matrix. */
  predicate IsSquareOf(m: Matrix, n: nat)
  {
    |m| == n && forall i :: 0 <= i < n ==> |m[i]| == n
  }

  /** Equal to its own transpose. */
  predicate Symmetric(m: Matrix)
    requires IsSquareOf(m, |m|)
  {
    forall i, j :: 0 <= i < |m| && 0 <= j < |m| ==> m[i][j] == m[j][i]
  }

  /** Equal to its own conjugate transpose. */
  predicate SelfAdjoint(m: Matrix)
    requires IsSquareOf(m, |m|)
  {
    forall i, j :: 0 <= i < |m| && 0 <= j < |m| ==> m[j][i] == Complex(m[i][j].re, -m[i][j].im)
  }

  function H(s: real): (m: Matrix)
    ensures IsSquareOf(m, 2) && Symmetric(m)
  {
    var sqrt := FromReal(s);
    [[sqrt, sqrt], [sqrt, Multiply(sqrt, FromReal(-1.0))]]
  }

  function X(): (m: Matrix)
    ensures IsSquareOf(m, 2) && Symmetric(m) && SelfAdjoint(m)
  {
    [[FromReal(0.0), FromReal(1.0)],
     [FromReal(1.0), FromReal(0.0)]]
  }

  function Y(): (m: Matrix)
    ensures IsSquareOf(m, 2) && SelfAdjoint(m)
  {
    [[FromReal(0.0), Complex(0.0, -1.0)],
     [Complex(0.0, 1.0), FromReal(0.0)]]
  }

  function Z(): (m: Matrix)
    ensures IsSquareOf(m, 2) && Symmetric(m) && SelfAdjoint(m)
  {
    [[FromReal(1.0), FromReal(0.0)],
     [FromReal(0.0), FromReal(-1.0)]]
  }

  function CNOT(): (m: Matrix)
    ensures IsSquareOf(m, 4) && Symmetric(m) && SelfAdjoint(m)
  {
    [[One, Zero, Zero, Zero],
     [Zero, One, Zero, Zero],
     [Zero, Zero, Zero, One],
     [Zero, Zero, One, Zero]]
  }

  function SWAP(): (m: Matrix)
    ensures IsSquareOf(m, 4) && Symmetric(m) && SelfAdjoint(m)
  {
    [[One, Zero, Zero, Zero],
     [Zero, Zero, One, Zero],
     [Zero, One, Zero, Zero],
     [Zero, Zero, Zero, One]]
  }

  /** `phaseGate(angle)`, given cos(angle) and sin(angle). */
  function PhaseGate(cosAngle: real, sinAngle: real): (m: Matrix)
    ensures IsSquareOf(m, 2) && Symmetric(m)
    ensures sinAngle == 0.0 ==> SelfAdjoint(m)
  {
    [[FromReal(1.0), FromReal(0.0)],
     [FromReal(0.0), Complex(cosAngle, sinAngle)]]
  }

  /** Every row reads only entries the vector has. */
  predicate Fits(m: Matrix, v: Vector)
  {
    forall i :: 0 <= i < |m| ==> |m[i]| <= |v|
  }

  /** `row.reduce((sum, value, j) => sum + value * v[j], 0)`, a left fold from 0. */
  function Dot(row: Vector, v: Vector): Complex
    requires |row| <= |v|
  {
    if |row| == 0 then Zero
    else Add(Dot(row[..|row| - 1], v), Multiply(row[|row| - 1], v[|row| - 1]))
  }

  /** `gate.map(row => Dot(row, v))`. */
  function MatVec(m: Matrix, v: Vector): (r: Vector)
    requires Fits(m, v)
    ensures |r| == |m|
    ensures forall i :: 0 <= i < |m| ==> r[i] == Dot(m[i], v)
  {
    seq(|m|, i requires 0 <= i < |m| => Dot(m[i], v))
  }

  lemma Dot1(row: Vector, v: Vector)
    requires |row| == 1 <= |v|
    ensures Dot(row, v) == Multiply(row[0], v[0])
  {
    assert row[..0] == [];
    AddComponentwise(Multiply(row[0], v[0]), Zero);
  }

  lemma Dot2(row: Vector, v: Vector)
    requires |row| == 2 <= |v|
    ensures Dot(row, v) == Add(Multiply(row[0], v[0]), Multiply(row[1], v[1]))
  {
    Dot1(row[..1], v);
  }

  lemma Dot4(row: Vector, v: Vector)
    requires |row| == 4 <= |v|
    ensures Dot(row, v) == Add(Add(Add(Multiply(row[0], v[0]), Multiply(row[1], v[1])),
                                   Multiply(row[2], v[2])), Multiply(row[3], v[3]))
  {
    assert row[..3][..2] == row[..2];
    Dot2(row[..2], v);
  }

  /** A row that is 1 at column k and 0 elsewhere picks out v[k]. */
  lemma UnitRow4(row: Vector, v: Vector, k: nat)
    requires |row| == 4 <= |v| && k < 4
    requires forall j :: 0 <= j < 4 ==> row[j] == (if j == k then One else Zero)
    ensures Dot(row, v) == v[k]
  {
    Dot4(row, v);
    forall j | 0 <= j < 4
      ensures Multiply(row[j], v[j]) == if j == k then v[k] else Zero
    {
      MultiplyIdentity(v[j]);
      MultiplyCommutative(row[j], v[j]);
    }
  }

  lemma UnitRow2(row: Vector, v: Vector, k: nat)
    requires |row| == 2 <= |v| && k < 2
    requires forall j :: 0 <= j < 2 ==> row[j] == (if j == k then One else Zero)
    ensures Dot(row, v) == v[k]
  {
    Dot2(row, v);
    forall j | 0 <= j < 2
      ensures Multiply(row[j], v[j]) == if j == k then v[k] else Zero
    {
      MultiplyIdentity(v[j]);
      MultiplyCommutative(row[j], v[j]);
    }
  }

  /** H has s in every entry except [1][1], which is −s. */
  lemma HEntries(s: real)
    ensures |H(s)| == 2 && |H(s)[0]| == 2 && |H(s)[1]| == 2
    ensures H(s)[0][0] == FromReal(s) && H(s)[0][1] == FromReal(s)
    ensures H(s)[1][0] == FromReal(s) && H(s)[1][1] == FromReal(-s)
  {
  }

  /** H·(a, b) = (s(a + b), s(a − b)). */
  lemma HApply(s: real, a: Complex, b: Complex)
    ensures MatVec(H(s), [a, b]) == [Scale(s, Add(a, b)), Scale(s, Subtract(a, b))]
  {
    var v := [a, b];
    HEntries(s);
    Dot2(H(s)[0], v);
    Dot2(H(s)[1], v);
    assert Multiply(FromReal(s), a) == Complex(s * a.re, s * a.im);
    assert Multiply(FromReal(s), b) == Complex(s * b.re, s * b.im);
    assert Multiply(FromReal(-s), b) == Complex(-(s * b.re), -(s * b.im));
    assert s * a.re + s * b.re == s * (a.re + b.re);
    assert s * a.im + s * b.im == s * (a.im + b.im);
    assert s * a.re + -(s * b.re) == s * (a.re + -b.re);
    assert s * a.im + -(s * b.im) == s * (a.im + -b.im);
    var r := MatVec(H(s), v);
    assert r[0] == Add(Multiply(FromReal(s), a), Multiply(FromReal(s), b));
    assert r[1] == Add(Multiply(FromReal(s), a), Multiply(FromReal(-s), b));
    assert r[0] == Scale(s, Add(a, b));
    assert r[1] == Scale(s, Subtract(a, b));
  }

  /** With s² = 1/2, H is its own inverse. */
  lemma HSelfInverse(s: real, a: Complex, b: Complex)
    requires IsInvSqrt2(s)
    ensures MatVec(H(s), MatVec(H(s), [a, b])) == [a, b]
  {
    HApply(s, a, b);
    var p, q := Scale(s, Add(a, b)), Scale(s, Subtract(a, b));
    HApply(s, p, q);
    calc {
      s * (p.re + q.re);
      s * (s * (a.re + b.re) + s * (a.re - b.re));
      2.0 * (s * s) * a.re;
      a.re;
    }
    calc {
      s * (p.im + q.im);
      s * (s * (a.im + b.im) + s * (a.im - b.im));
      2.0 * (s * s) * a.im;
      a.im;
    }
    calc {
      s * (p.re + -q.re);
      s * (s * (a.re + b.re) - s * (a.re - b.re));
      2.0 * (s * s) * b.re;
      b.re;
    }
    calc {
      s * (p.im + -q.im);
      s * (s * (a.im + b.im) - s * (a.im - b.im));
      2.0 * (s * s) * b.im;
      b.im;
    }
    assert Scale(s, Add(p, q)) == a;
    assert Scale(s, Subtract(p, q)) == b;
  }

  /** The sum of squared magnitudes of a vector. */
  function Norm2(v: Vector): (r: real)
  {
    if |v| == 0 then 0.0 else Norm2(v[..|v| - 1]) + MagnitudeSquared(v[|v| - 1])
  }

  lemma Norm2Pair(a: Complex, b: Complex)
    ensures Norm2([a, b]) == MagnitudeSquared(a) + MagnitudeSquared(b)
  {
    assert [a, b][..1] == [a];
    assert [a][..0] == [];
    assert Norm2([a]) == 0.0 + MagnitudeSquared(a);
  }

  /** With s² = 1/2, H preserves the total probability |a|² + |b|². */
  /** The real arithmetic behind `HPreservesNorm`: with s² = 1/2 the four squares add up unchanged. */
  lemma HadamardSquares(s: real, x: real, y: real, u: real, w: real)
    requires s * s == 0.5
    ensures (s * (x + u)) * (s * (x + u)) + (s * (y + w)) * (s * (y + w))
          + (s * (x - u)) * (s * (x - u)) + (s * (y - w)) * (s * (y - w))
         == x * x + y * y + u * u + w * w
  {
    calc {
      (s * (x + u)) * (s * (x + u)) + (s * (y + w)) * (s * (y + w))
        + (s * (x - u)) * (s * (x - u)) + (s * (y - w)) * (s * (y - w));
      (s * s) * ((x + u) * (x + u) + (y + w) * (y + w) + (x - u) * (x - u) + (y - w) * (y - w));
      (s * s) * (2.0 * (x * x + y * y + u * u + w * w));
      x * x + y * y + u * u + w * w;
    }
  }

  /** The two outputs of H have, together, the magnitude² of the two inputs. */
  lemma HNormPair(s: real, a: Complex, b: Complex)
    requires IsInvSqrt2(s)
    ensures MagnitudeSquared(Scale(s, Add(a, b))) + MagnitudeSquared(Scale(s, Subtract(a, b)))
         == MagnitudeSquared(a) + MagnitudeSquared(b)
  {
    var x, y, u, w := a.re, a.im, b.re, b.im;
    var p := Complex(s * (x + u), s * (y + w));
    var q := Complex(s * (x - u), s * (y - w));
    assert Scale(s, Add(a, b)) == p;
    assert Scale(s, Subtract(a, b)) == q by {
      assert Negate(b) == Complex(-u, -w);
    }
    HadamardSquares(s, x, y, u, w);
  }

  lemma HPreservesNorm(s: real, a: Complex, b: Complex)
    requires IsInvSqrt2(s)
    ensures Norm2(MatVec(H(s), [a, b])) == Norm2([a, b])
  {
    HApply(s, a, b);
    Norm2Pair(Scale(s, Add(a, b)), Scale(s, Subtract(a, b)));
    Norm2Pair(a, b);
    HNormPair(s, a, b);
  }

  /** X·(a, b) = (b, a), so X applied twice is the identity. */
  lemma XSwaps(a: Complex, b: Complex)
    ensures MatVec(X(), [a, b]) == [b, a]
    ensures MatVec(X(), MatVec(X(), [a, b])) == [a, b]
  {
    UnitRow2(X()[0], [a, b], 1);
    UnitRow2(X()[1], [a, b], 0);
    UnitRow2(X()[0], [b, a], 1);
    UnitRow2(X()[1], [b, a], 0);
  }

  /** Y·(a, b) = (−i·b, i·a). */
  lemma YApply(a: Complex, b: Complex)
    ensures MatVec(Y(), [a, b]) == [Multiply(Complex(0.0, -1.0), b), Multiply(I, a)]
  {
    Dot2(Y()[0], [a, b]);
    Dot2(Y()[1], [a, b]);
  }

  /** Z·(a, b) = (a, −b), so Z applied twice is the identity. */
  lemma ZNegatesSecond(a: Complex, b: Complex)
    ensures MatVec(Z(), [a, b]) == [a, Negate(b)]
    ensures MatVec(Z(), MatVec(Z(), [a, b])) == [a, b]
  {
    Dot2(Z()[0], [a, b]);
    Dot2(Z()[1], [a, b]);
    Dot2(Z()[0], [a, Negate(b)]);
    Dot2(Z()[1], [a, Negate(b)]);
  }

  /** CNOT fixes basis states 0 and 1 and swaps 2 and 3; applied twice it is the identity. */
  lemma CNOTPermutes(a: Complex, b: Complex, c: Complex, d: Complex)
    ensures MatVec(CNOT(), [a, b, c, d]) == [a, b, d, c]
    ensures MatVec(CNOT(), MatVec(CNOT(), [a, b, c, d])) == [a, b, c, d]
  {
    CNOTOnce(a, b, c, d);
    CNOTOnce(a, b, d, c);
  }

  lemma CNOTOnce(a: Complex, b: Complex, c: Complex, d: Complex)
    ensures MatVec(CNOT(), [a, b, c, d]) == [a, b, d, c]
  {
    var v := [a, b, c, d];
    UnitRow4(CNOT()[0], v, 0);
    UnitRow4(CNOT()[1], v, 1);
    UnitRow4(CNOT()[2], v, 3);
    UnitRow4(CNOT()[3], v, 2);
  }

  /** SWAP fixes basis states 0 and 3 and swaps 1 and 2; applied twice it is the identity. */
  lemma SWAPPermutes(a: Complex, b: Complex, c: Complex, d: Complex)
    ensures MatVec(SWAP(), [a, b, c, d]) == [a, c, b, d]
    ensures MatVec(SWAP(), MatVec(SWAP(), [a, b, c, d])) == [a, b, c, d]
  {
    SWAPOnce(a, b, c, d);
    SWAPOnce(a, c, b, d);
  }

  lemma SWAPOnce(a: Complex, b: Complex, c: Complex, d: Complex)
    ensures MatVec(SWAP(), [a, b, c, d]) == [a, c, b, d]
  {
    var v := [a, b, c, d];
    UnitRow4(SWAP()[0], v, 0);
    UnitRow4(SWAP()[1], v, 2);
    UnitRow4(SWAP()[2], v, 1);
    UnitRow4(SWAP()[3], v, 3);
  }

  /** The phase gate leaves amplitude 0 alone and multiplies amplitude 1 by cos θ + i sin θ. */
  lemma PhaseApply(cosAngle: real, sinAngle: real, a: Complex, b: Complex)
    ensures MatVec(PhaseGate(cosAngle, sinAngle), [a, b]) == [a, Multiply(Complex(cosAngle, sinAngle), b)]
  {
    Dot2(PhaseGate(cosAngle, sinAngle)[0], [a, b]);
    Dot2(PhaseGate(cosAngle, sinAngle)[1], [a, b]);
  }
}
