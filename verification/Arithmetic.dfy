/** The few facts about products, remainders and powers of two that the varint proofs rest on. */
module Arithmetic {
  import opened Bytes

  lemma AtLeast(d: int, n: int)
    requires d >= 1 && n > 0
    ensures d * n >= n
  {
    assert (d - 1) * n >= 0;
  }

  lemma Distribute(a: int, b: int, n: int)
    ensures (a - b) * n == a * n - b * n
  {}

  lemma Below(r: nat, q: nat, p: nat)
    requires r < q && p > 0
    ensures r * p + p <= q * p
  {
    AtLeast(q - r, p);
    Distribute(q, r, p);
  }

  lemma ModUnique(x: int, m: int, n: int, r: int)
    requires n > 0 && x == m * n + r && 0 <= r < n
    ensures x % n == r
  {
    var q, t := x / n, x % n;
    assert x == q * n + t;
    Distribute(q, m, n);
    Distribute(m, q, n);
    if q > m {
      AtLeast(q - m, n);
    } else if q < m {
      AtLeast(m - q, n);
    }
  }

  lemma ModAdds(a: nat, b: nat, n: nat)
    requires n > 0
    ensures (a % n + b) % n == (a + b) % n
  {
    var c := a % n + b;
    Distribute(a / n, -(c / n), n);
    ModUnique(a + b, a / n + c / n, n, c % n);
  }

  /** Truncating a shifted value truncates the value and keeps the shift. */
  lemma ModOfProduct(d: nat, p: nat, q: nat)
    requires p > 0 && q > 0 && q * p > 0
    ensures (d * p) % (q * p) == (d % q) * p
  {
    var m, r := d / q, d % q;
    assert d == m * q + r;
    assert d * p == m * (q * p) + r * p by {
      assert (m * q + r) * p == (m * q) * p + r * p;
      assert (m * q) * p == m * (q * p);
    }
    Below(r, q, p);
    ModUnique(d * p, m, q * p, r * p);
  }

  function Pow2(n: nat): (p: nat)
    ensures p > 0
  {
    if n == 0 then 1 else 2 * Pow2(n - 1)
  }

  lemma {:induction false} Pow2Adds(m: nat, n: nat)
    ensures Pow2(m + n) == Pow2(m) * Pow2(n)
  {
    if m != 0 {
      Pow2Adds(m - 1, n);
      assert Pow2(m + n) == 2 * Pow2(m - 1 + n);
      assert 2 * (Pow2(m - 1) * Pow2(n)) == (2 * Pow2(m - 1)) * Pow2(n);
    }
  }

  lemma {:induction false} Pow2Grows(m: nat, n: nat)
    requires m <= n
    ensures Pow2(m) <= Pow2(n)
  {
    if m < n {
      Pow2Grows(m, n - 1);
    }
  }

  lemma Pow2Values()
    ensures Pow2(7) == 128 && Pow2(31) == TWO_31 && Pow2(32) == TWO_32 && Pow2(63) == TWO_63 && Pow2(64) == TWO_64
  {
    assert Pow2(4) == 16;
    Pow2Adds(4, 3);
    Pow2Adds(4, 4);
    Pow2Adds(8, 8);
    Pow2Adds(16, 16);
    Pow2Adds(32, 31);
    Pow2Adds(16, 15);
    Pow2Adds(32, 32);
  }

  /** `d << s`, before any truncation. */
  function ShiftLeft(d: nat, s: nat): nat {
    if s == 0 then d else 2 * ShiftLeft(d, s - 1)
  }

  lemma {:induction false} ShiftIsProduct(d: nat, s: nat)
    ensures ShiftLeft(d, s) == d * Pow2(s)
  {
    if s != 0 {
      ShiftIsProduct(d, s - 1);
      var p := Pow2(s - 1);
      assert 2 * (d * p) == d * (2 * p);
    }
  }

  /** Bitwise or on unsigned words. */
  function Or(x: nat, y: nat): nat
    decreases x + y
  {
    if x == 0 then y
    else if y == 0 then x
    else 2 * Or(x / 2, y / 2) + (if x % 2 == 1 || y % 2 == 1 then 1 else 0)
  }

  /** Or-ing bits into positions that are still clear is addition. */
  lemma {:induction false} OrIsSum(x: nat, y: nat, s: nat)
    requires x < Pow2(s)
    ensures Or(x, y * Pow2(s)) == x + y * Pow2(s)
  {
    if x != 0 && y != 0 {
      var p := Pow2(s - 1);
      assert y * Pow2(s) == 2 * (y * p);
      assert y * Pow2(s) / 2 == y * p && y * Pow2(s) % 2 == 0;
      OrIsSum(x / 2, y, s - 1);
      assert y * p > 0;
    }
  }

  lemma Pow2Times128(n: nat)
    ensures Pow2(7 * (n + 1)) == 128 * Pow2(7 * n)
    ensures Pow2(0) == 1 && Pow2(7) == 128
  {
    Pow2Values();
    Pow2Adds(7, 7 * n);
  }

  /** The low `bits` bits of `v`: what an unsigned word of that width keeps. */
  function Truncate(v: nat, bits: nat): nat {
    if bits == 0 then 0 else v % 2 + 2 * Truncate(v / 2, bits - 1)
  }

  lemma {:induction false} TruncateIsMod(v: nat, bits: nat)
    ensures Truncate(v, bits) == v % Pow2(bits)
  {
    if bits == 0 {
      ModUnique(v, v, 1, 0);
    } else {
      TruncateIsMod(v / 2, bits - 1);
      var p := Pow2(bits - 1);
      var q, r := (v / 2) / p, (v / 2) % p;
      assert v / 2 == q * p + r;
      assert 2 * (q * p) == q * (2 * p);
      ModUnique(v, q, 2 * p, 2 * r + v % 2);
    }
  }

  lemma {:induction false} TruncateZero(bits: nat)
    ensures Truncate(0, bits) == 0
  {
    if bits != 0 {
      TruncateZero(bits - 1);
    }
  }

  /** Truncating to a wider word first changes nothing. */
  lemma {:induction false} TruncateTwice(v: nat, wide: nat, bits: nat)
    requires bits <= wide
    ensures Truncate(Truncate(v, wide), bits) == Truncate(v, bits)
  {
    if bits != 0 {
      TruncateTwice(v / 2, wide - 1, bits - 1);
    }
  }

  /** The two widths in use. */
  lemma TruncateWidths(v: nat)
    ensures Truncate(v, 32) == v % TWO_32 && Truncate(v, 64) == v % TWO_64
  {
    Pow2Values();
    TruncateIsMod(v, 32);
    TruncateIsMod(v, 64);
  }
}
