/**
 * Basis indexing as assets/js/entanglement-manager.js does it: an index k
 * is written in binary (`k.toString(2)`), left-padded with '0' to the
 * number of qubits (`padStart(n, '0')`), and character t of that string is
 * qubit t's bit, most significant first. `Bit` is the arithmetic reading
 * of the same digit, and `PaddedDigit` proves that the two agree.
 */
module BinaryIndex {

  function Pow2(n: nat): (r: nat)
    ensures r >= 1
  {
    if n == 0 then 1 else 2 * Pow2(n - 1)
  }

  /** k div 2, by repeated subtraction (kept free of `/` so that unfolding it stays cheap). */
  function Half(k: nat): (h: nat)
    ensures 2 * h <= k
  {
    if k < 2 then 0 else Half(k - 2) + 1
  }

  /** k mod 2. */
  function Parity(k: nat): (p: nat)
    ensures p <= 1
  {
    if k < 2 then k else Parity(k - 2)
  }

  /** Halving and parity split k as 2·⌊k/2⌋ + (k mod 2). */
  lemma {:induction false} HalfParity(k: nat)
    ensures k == 2 * Half(k) + Parity(k)
    ensures Half(k) == k / 2 && Parity(k) == k % 2
  {
    if k >= 2 {
      HalfParity(k - 2);
    }
  }

  /** Halving an even number 2·m gives m and leaves no remainder. */
  lemma {:induction false} HalfOfDouble(m: nat)
    ensures Half(2 * m) == m && Parity(2 * m) == 0
  {
    if m > 0 {
      HalfOfDouble(m - 1);
      assert 2 * m - 2 == 2 * (m - 1);
    }
  }

  /** `Math.log2` of a length, rounded down (exact on powers of two). */
  function Log2(x: nat): (r: nat)
  {
    if x <= 1 then 0 else 1 + Log2(Half(x))
  }

  lemma {:induction false} Log2OfPow2(n: nat)
    ensures Log2(Pow2(n)) == n
  {
    if n > 0 {
      Log2OfPow2(n - 1);
      HalfOfDouble(Pow2(n - 1));
    }
  }

  function DigitChar(d: nat): (c: char)
    requires d <= 1
    ensures c == '0' || c == '1'
  {
    if d == 0 then '0' else '1'
  }

  /** `parseInt` of a single binary digit. */
  function ParseDigit(c: char): (d: nat)
    requires c == '0' || c == '1'
    ensures d <= 1 && DigitChar(d) == c
  {
    if c == '0' then 0 else 1
  }

  /** `k.toString(2)`: the binary numeral, without leading zeros. */
  function ToBinary(k: nat): (s: string)
    ensures |s| >= 1
    ensures forall i :: 0 <= i < |s| ==> s[i] == '0' || s[i] == '1'
  {
    if k < 2 then [DigitChar(k)] else ToBinary(Half(k)) + [DigitChar(Parity(k))]
  }

  /** `s.padStart(n, c)`: c repeated in front of s until it has length n. */
  function PadStart(s: string, n: nat, c: char): (r: string)
    ensures |r| == if |s| >= n then |s| else n
    ensures r[|r| - |s|..] == s
    ensures forall i :: 0 <= i < |r| - |s| ==> r[i] == c
  {
    if |s| >= n then s else seq(n - |s|, _ => c) + s
  }

  /** Binary digit j of k, counting from the least significant (digit 0). */
  function LowBit(k: nat, j: nat): (b: nat)
    ensures b <= 1
  {
    if j == 0 then Parity(k) else LowBit(Half(k), j - 1)
  }

  /** The bit of qubit t in basis index k of an n-qubit register, most significant first. */
  function Bit(k: nat, n: nat, t: nat): (b: nat)
    requires t < n
    ensures b <= 1
  {
    LowBit(k, n - 1 - t)
  }

  lemma {:induction false} ToBinaryShort(k: nat)
    ensures k < Pow2(|ToBinary(k)|)
    ensures |ToBinary(k)| > 1 ==> Pow2(|ToBinary(k)| - 1) <= k
  {
    if k >= 2 {
      ToBinaryShort(Half(k));
      HalfParity(k);
    }
  }

  /** A number below 2^n has at most n binary digits. */
  lemma ToBinaryFits(k: nat, n: nat)
    requires n >= 1 && k < Pow2(n)
    ensures |ToBinary(k)| <= n
  {
    ToBinaryShort(k);
    if |ToBinary(k)| > n {
      Pow2Monotone(n, |ToBinary(k)| - 1);
    }
  }

  lemma {:induction false} Pow2Monotone(a: nat, b: nat)
    requires a <= b
    ensures Pow2(a) <= Pow2(b)
  {
    if a < b {
      Pow2Monotone(a, b - 1);
    }
  }

  /** Character |s|−1−j of `k.toString(2)` is digit j of k. */
  lemma {:induction false} DigitAt(k: nat, j: nat)
    requires j < |ToBinary(k)|
    ensures ToBinary(k)[|ToBinary(k)| - 1 - j] == DigitChar(LowBit(k, j))
  {
    if k >= 2 && j > 0 {
      DigitAt(Half(k), j - 1);
    }
  }

  /** Every digit above the numeral's length is 0. */
  lemma {:induction false} HighBitsZero(k: nat, j: nat)
    requires k < Pow2(j)
    ensures LowBit(k, j) == 0
  {
    if j > 0 {
      HighBitsZero(Half(k), j - 1);
    }
  }

  /** A padded position that falls inside the numeral shows the digit it stands for. */
  lemma PaddedDigitInNumeral(k: nat, n: nat, t: nat)
    requires t < n && |ToBinary(k)| <= n && n - 1 - t < |ToBinary(k)|
    ensures PadStart(ToBinary(k), n, '0')[t] == DigitChar(LowBit(k, n - 1 - t))
  {
    var b := ToBinary(k);
    var r := PadStart(b, n, '0');
    var j := n - 1 - t;
    DigitAt(k, j);
    var i := |b| - 1 - j;
    assert i == t - (|r| - |b|);
    assert r[t] == r[|r| - |b|..][i];
    assert r[t] == b[i];
    assert b[i] == DigitChar(LowBit(k, j));
    assert r[t] == DigitChar(LowBit(k, j));
  }

  /** A padded position in front of the numeral shows '0', and that digit of k is 0. */
  lemma PaddedDigitBeforeNumeral(k: nat, n: nat, t: nat)
    requires t < n && k < Pow2(n) && |ToBinary(k)| <= n - 1 - t
    ensures PadStart(ToBinary(k), n, '0')[t] == DigitChar(LowBit(k, n - 1 - t))
  {
    var b := ToBinary(k);
    var j := n - 1 - t;
    assert PadStart(b, n, '0')[t] == '0';
    ToBinaryShort(k);
    Pow2Monotone(|b|, j);
    HighBitsZero(k, j);
  }

  /**
   * For an index of an n-qubit register, the padded numeral has exactly n
   * characters and its character t is the digit of `Bit(k, n, t)`.
   */
  lemma PaddedDigit(k: nat, n: nat, t: nat)
    requires t < n && k < Pow2(n)
    ensures |PadStart(ToBinary(k), n, '0')| == n
    ensures PadStart(ToBinary(k), n, '0')[t] == DigitChar(Bit(k, n, t))
  {
    ToBinaryFits(k, n);
    assert Bit(k, n, t) == LowBit(k, n - 1 - t);
    if n - 1 - t < |ToBinary(k)| {
      PaddedDigitInNumeral(k, n, t);
    } else {
      PaddedDigitBeforeNumeral(k, n, t);
    }
  }

  /** Index 2^j has a 1 at digit j and index 0 has a 0 there: every bit value occurs. */
  lemma {:induction false} BitWitness(j: nat)
    ensures LowBit(Pow2(j), j) == 1 && LowBit(0, j) == 0
  {
    if j > 0 {
      HalfOfDouble(Pow2(j - 1));
      BitWitness(j - 1);
    }
  }

  /** In a two-qubit register, qubit 0 holds the high bit and qubit 1 the low bit. */
  lemma PairBits(k: nat)
    requires k < 4
    ensures Bit(k, 2, 0) == k / 2 && Bit(k, 2, 1) == k % 2
  {
    HalfParity(k);
    assert LowBit(k, 1) == LowBit(Half(k), 0);
  }
}
