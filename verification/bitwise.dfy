/**
 Python's bitwise operators `&`, `|` and `>>` on non-negative integers.

 Python integers are unbounded, so the operators are defined bit by bit on `nat`
 rather than on a fixed-width bit-vector. The lemmas give the arithmetic meaning of
 the two shapes the MIDI encoder uses: masking with `2^k - 1` keeps the low `k` bits,
 and or-ing a value below `2^k` into a multiple of `2^k` is plain addition.
 */
module Bitwise {

  function Pow2(k: nat): (r: nat)
    ensures r >= 1
  {
    if k == 0 then 1 else 2 * Pow2(k - 1)
  }

  /** Python `a & b` for non-negative operands. */
  function And(a: nat, b: nat): nat
    decreases a
  {
    if a == 0 || b == 0 then 0
    else 2 * And(a / 2, b / 2) + (if a % 2 == 1 && b % 2 == 1 then 1 else 0)
  }

  /** Python `a | b` for non-negative operands. */
  function Or(a: nat, b: nat): nat
    decreases a
  {
    if a == 0 then b
    else if b == 0 then a
    else 2 * Or(a / 2, b / 2) + (if a % 2 == 1 || b % 2 == 1 then 1 else 0)
  }

  /** Python `a >> k` for non-negative `a`: `k` halvings, each dropping the lowest bit. */
  function ShiftRight(a: nat, k: nat): nat
  {
    if k == 0 then a else ShiftRight(a / 2, k - 1)
  }

  lemma MulAtLeast(d: nat, t: nat)
    requires t >= 1
    ensures d * t >= d
  {
  }

  /** Division with remainder is unique. */
  lemma DivModUnique(v: nat, d: nat, q: nat, r: nat)
    requires d >= 1 && r < d && v == d * q + r
    ensures v / d == q && v % d == r
  {
    var q', r' := v / d, v % d;
    assert v == d * q' + r';
    if q' < q {
      MulAtLeast(d, q - q');
    } else if q' > q {
      MulAtLeast(d, q' - q);
    }
  }

  /** Splitting off the lowest bit commutes with dividing by `2p` and reducing modulo `2p`. */
  lemma DivModDouble(v: nat, p: nat)
    requires p >= 1
    ensures v / (2 * p) == (v / 2) / p
    ensures v % (2 * p) == 2 * ((v / 2) % p) + v % 2
  {
    var q, r := v / 2, v % 2;
    var a, b := q / p, q % p;
    assert q == p * a + b;
    assert v == (2 * p) * a + (2 * b + r);
    DivModUnique(v, 2 * p, a, 2 * b + r);
  }

  /** `v & (2^k - 1)` is `v mod 2^k`. */
  lemma {:induction false} AndLowMask(v: nat, k: nat)
    ensures And(v, Pow2(k) - 1) == v % Pow2(k)
    decreases k
  {
    if k == 0 {
      assert Pow2(k) - 1 == 0;
    } else if v == 0 {
    } else {
      var p := Pow2(k - 1);
      var m := Pow2(k) - 1;
      assert m == 2 * p - 1;
      assert m % 2 == 1 && m / 2 == p - 1;
      AndLowMask(v / 2, k - 1);
      assert And(v, m) == 2 * ((v / 2) % p) + (if v % 2 == 1 then 1 else 0);
      DivModDouble(v, p);
    }
  }

  /** `a >> k` is `a div 2^k`. */
  lemma {:induction false} ShiftRightDivides(a: nat, k: nat)
    ensures ShiftRight(a, k) == a / Pow2(k)
    decreases k
  {
    if k > 0 {
      ShiftRightDivides(a / 2, k - 1);
      DivModDouble(a, Pow2(k - 1));
    }
  }

  /** Or-ing `lo < 2^k` into `hi * 2^k` touches disjoint bits, so it adds. */
  lemma {:induction false} OrDisjoint(hi: nat, lo: nat, k: nat)
    requires lo < Pow2(k)
    ensures Or(hi * Pow2(k), lo) == hi * Pow2(k) + lo
    decreases k
  {
    if k == 0 {
      assert lo == 0;
    } else if hi == 0 || lo == 0 {
    } else {
      var p := Pow2(k - 1);
      var a := hi * Pow2(k);
      assert a == 2 * (hi * p);
      assert a % 2 == 0 && a / 2 == hi * p;
      assert lo / 2 < p;
      OrDisjoint(hi, lo / 2, k - 1);
      assert Or(a, lo) == 2 * (hi * p + lo / 2) + lo % 2;
    }
  }
}
