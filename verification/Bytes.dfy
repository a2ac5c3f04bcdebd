/** Bytes, and the bitwise operators of the source on non-negative integers. */
module Bytes {
  newtype Byte = b: int | 0 <= b < 256

  function BitAnd(a: nat, b: nat): nat {
    if a == 0 || b == 0 then 0 else (a % 2) * (b % 2) + 2 * BitAnd(a / 2, b / 2)
  }

  function BitOr(a: nat, b: nat): nat {
    if a == 0 then b else if b == 0 then a
    else (if a % 2 == 1 || b % 2 == 1 then 1 else 0) + 2 * BitOr(a / 2, b / 2)
  }

  function Pow2(k: nat): (p: nat)
    ensures p > 0
  {
    if k == 0 then 1 else 2 * Pow2(k - 1)
  }

  function ShiftLeft(a: nat, k: nat): nat {
    a * Pow2(k)
  }

  /** Masking with k ones is the remainder modulo 2^k. */
  lemma {:induction false} MaskIsRemainder(a: nat, k: nat)
    ensures BitAnd(a, Pow2(k) - 1) == a % Pow2(k)
  {
    if k == 0 {
    } else if a == 0 {
    } else {
      var p := Pow2(k - 1);
      MaskIsRemainder(a / 2, k - 1);
      assert (2 * p - 1) % 2 == 1 && (2 * p - 1) / 2 == p - 1;
      assert k == 1 ==> BitAnd(a / 2, p - 1) == 0;
      HalvedRemainder(a, p);
    }
  }

  lemma HalvedRemainder(a: nat, p: nat)
    requires p > 0
    ensures a % 2 + 2 * ((a / 2) % p) == a % (2 * p)
  {
    var q := (a / 2) / p;
    var r := (a / 2) % p;
    assert a == (2 * p) * q + (2 * r + a % 2) by { assert a / 2 == p * q + r; }
    RemainderUnique(a, 2 * p, q, 2 * r + a % 2);
  }

  lemma RemainderUnique(a: int, m: int, q: int, r: int)
    requires m > 0 && a == m * q + r && 0 <= r < m
    ensures a % m == r
  {
    var d := a / m - q;
    assert d * m == r - a % m;
    if d != 0 { MultipleIsFar(d, m); }
  }

  lemma MultipleIsFar(d: int, m: int)
    requires d != 0 && m > 0
    ensures d * m >= m || d * m <= -m
  {
    if d > 0 { assert d * m >= m; } else { assert d * m <= -m; }
  }

  /** Testing the bit of weight 2^k of a number below 2^(k+1). */
  lemma {:induction false} TopBit(a: nat, k: nat)
    requires a < 2 * Pow2(k)
    ensures BitAnd(a, Pow2(k)) == 0 <==> a < Pow2(k)
  {
    if k == 0 {
      assert a == 1 ==> BitAnd(1, 1) == 1 + 2 * BitAnd(0, 0);
    } else {
      TopBit(a / 2, k - 1);
      assert Pow2(k) % 2 == 0 && Pow2(k) / 2 == Pow2(k - 1);
    }
  }

  /** Or-ing in digits above the bits already there adds them. */
  lemma {:induction false} OrOfShifted(a: nat, v: nat, k: nat)
    requires a < Pow2(k)
    ensures BitOr(a, ShiftLeft(v, k)) == a + ShiftLeft(v, k)
    decreases k
  {
    if a != 0 {
      OrOfShifted(a / 2, v, k - 1);
      ShiftOnce(v, k);
      OrWithEven(a, ShiftLeft(v, k - 1));
    }
  }

  lemma ShiftOnce(v: nat, k: nat)
    requires k > 0
    ensures ShiftLeft(v, k) == 2 * ShiftLeft(v, k - 1)
  {
    var p := Pow2(k - 1);
    assert v * (2 * p) == 2 * (v * p);
  }

  lemma OrWithEven(a: nat, b: nat)
    requires a > 0
    ensures BitOr(a, 2 * b) == a % 2 + 2 * BitOr(a / 2, b)
  {
    var c := 2 * b;
    assert c % 2 == 0 && c / 2 == b;
  }

  lemma Assoc<T>(a: seq<T>, b: seq<T>, c: seq<T>)
    ensures a + (b + c) == (a + b) + c
  {
  }
}
