/** A 64-bit word as a number, and the shifts and tests used on it. */
module Bits {

  function Pow2(k: nat): (r: nat)
    ensures r > 0
  {
    if k == 0 then 1 else 2 * Pow2(k - 1)
  }

  predicate Bit(w: nat, d: nat) {
    if d == 0 then w % 2 == 1 else Bit(w / 2, d - 1)
  }

  /** `w << k` on 64 bits; a shift past the width gives zero. */
  function ShiftLeft(w: nat, k: nat): nat {
    if k >= 64 then 0 else w * Pow2(k) % Pow2(64)
  }

  /** `w | 1 << d`. */
  function SetBit(w: nat, d: nat): nat {
    if Bit(w, d) then w else w + Pow2(d)
  }

  lemma {:induction false} BitOfZero(d: nat)
    ensures !Bit(0, d)
  {
    if d > 0 { BitOfZero(d - 1); }
  }

  lemma {:induction false} BitOfMultiple(w: nat, k: nat, d: nat)
    ensures Bit(w * Pow2(k), d) <==> d >= k && Bit(w, d - k)
  {
    if k > 0 {
      var y := w * Pow2(k - 1);
      assert w * Pow2(k) == 2 * y;
      if d > 0 { BitOfMultiple(w, k - 1, d - 1); }
    }
  }

  lemma HalfOfRemainder(x: nat, p: nat)
    requires p > 0
    ensures x % (2 * p) / 2 == x / 2 % p && x % (2 * p) % 2 == x % 2
  {
    var q, r := x / (2 * p), x % (2 * p);
    assert x == 2 * (p * q) + r;
    assert x / 2 == p * q + r / 2;
    RemainderOfSum(p, q, r / 2);
  }

  lemma RemainderOfSum(p: nat, q: nat, r: nat)
    requires r < p
    ensures (p * q + r) % p == r
  {
    var s := p * q + r;
    QuotientIsUnique(p, q, r, s / p, s % p);
  }

  lemma QuotientIsUnique(p: nat, q: nat, r: nat, a: nat, b: nat)
    requires r < p && b < p && p * q + r == p * a + b
    ensures q == a && r == b
  {
    assert p * (a - q) == p * a - p * q;
    MultipleIsFar(p, a - q);
  }

  lemma {:induction false} MultipleIsFar(p: nat, k: int)
    ensures k > 0 ==> p * k >= p
    ensures k < 0 ==> p * k + p <= 0
    decreases if k < 0 then -k else k
  {
    if k > 1 { MultipleIsFar(p, k - 1); }
    if k < -1 { MultipleIsFar(p, k + 1); }
  }

  lemma {:induction false} BitOfRemainder(x: nat, m: nat, d: nat)
    requires d < m
    ensures Bit(x % Pow2(m), d) <==> Bit(x, d)
  {
    HalfOfRemainder(x, Pow2(m - 1));
    if d > 0 { BitOfRemainder(x / 2, m - 1, d - 1); }
  }

  lemma BitOfShift(w: nat, k: nat, d: nat)
    requires d < 64
    ensures Bit(ShiftLeft(w, k), d) <==> d >= k && Bit(w, d - k)
  {
    if k >= 64 {
      BitOfZero(d);
    } else {
      BitOfRemainder(w * Pow2(k), 64, d);
      BitOfMultiple(w, k, d);
    }
  }

  lemma {:induction false} BitOfSum(w: nat, j: nat, d: nat)
    requires !Bit(w, j)
    ensures Bit(w + Pow2(j), d) <==> d == j || Bit(w, d)
  {
    if j == 0 {
      assert (w + 1) / 2 == w / 2;
    } else {
      assert (w + Pow2(j)) / 2 == w / 2 + Pow2(j - 1);
      if d > 0 { BitOfSum(w / 2, j - 1, d - 1); }
    }
  }

  lemma {:induction false} SumStaysBelow(w: nat, j: nat, m: nat)
    requires !Bit(w, j) && j < m && w < Pow2(m)
    ensures w + Pow2(j) < Pow2(m)
  {
    var half, low := w / 2, w % 2;
    assert w == 2 * half + low && Pow2(m) == 2 * Pow2(m - 1);
    if j > 0 {
      assert Pow2(j) == 2 * Pow2(j - 1) && half < Pow2(m - 1);
      SumStaysBelow(half, j - 1, m - 1);
    }
  }

  lemma BitOfSetBit(w: nat, j: nat, d: nat)
    ensures Bit(SetBit(w, j), d) <==> d == j || Bit(w, d)
  {
    if !Bit(w, j) { BitOfSum(w, j, d); }
  }
}
