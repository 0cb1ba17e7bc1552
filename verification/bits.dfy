/**
 * Signals as bit sequences, least significant bit first, the way the
 * hardware description builds them: concatenation puts its first operand in
 * the low bits, and a slice `s[lo..hi]` is the bit field `hi-1:lo`.
 */
module Bits {

  type Bits = seq<bool>

  /** A signal of `n` bits, all 0 (the reset value of every register). */
  function Zeros(n: nat): (z: Bits)
    ensures |z| == n
    ensures forall i :: 0 <= i < n ==> !z[i]
  {
    seq(n, _ => false)
  }

  /** The unsigned number a bit sequence stands for. */
  function Value(b: Bits): nat {
    if b == [] then 0 else (if b[0] then 1 else 0) + 2 * Value(b[1..])
  }

  function Pow2(n: nat): (r: nat)
    ensures r >= 1
  {
    if n == 0 then 1 else 2 * Pow2(n - 1)
  }

  /** Concatenation places the second operand above the first. */
  lemma {:induction false} ValueConcat(lo: Bits, hi: Bits)
    ensures Value(lo + hi) == Value(lo) + Pow2(|lo|) * Value(hi)
  {
    if lo == [] {
      assert lo + hi == hi;
    } else {
      assert (lo + hi)[1..] == lo[1..] + hi;
      ValueConcat(lo[1..], hi);
      var b0 := if lo[0] then 1 else 0;
      var a, v, p := Value(lo[1..]), Value(hi), Pow2(|lo| - 1);
      assert Value(lo + hi) == b0 + 2 * (a + p * v);
      assert Value(lo) == b0 + 2 * a && Pow2(|lo|) == 2 * p;
      Distribute(a, p, v);
    }
  }

  lemma Distribute(a: int, p: int, v: int)
    ensures 2 * (a + p * v) == 2 * a + (2 * p) * v
  {
  }

  /** Zero bits on top add nothing: zero extension keeps the value. */
  lemma {:induction false} ValueZeroExtend(b: Bits, n: nat)
    ensures Value(b + Zeros(n)) == Value(b)
  {
    ValueConcat(b, Zeros(n));
    ValueZeros(n);
  }

  lemma {:induction false} ValueZeros(n: nat)
    ensures Value(Zeros(n)) == 0
  {
    if n > 0 {
      assert Zeros(n)[1..] == Zeros(n - 1);
      ValueZeros(n - 1);
    }
  }

  /**
   * Assigning a value to a signal of `n` bits: extra high bits are dropped,
   * missing high bits read 0.
   */
  function Fit(b: Bits, n: nat): (r: Bits)
    ensures |r| == n
    ensures forall k :: 0 <= k < n ==> r[k] == (k < |b| && b[k])
  {
    if n <= |b| then b[..n] else b + Zeros(n - |b|)
  }
}
