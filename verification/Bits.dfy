/** Bitwise operations on naturals, bit by bit, and the facts the models need about them. */
module Bits {
  function Pow2(k: nat): (r: nat)
    ensures r >= 1
  {
    if k == 0 then 1 else 2 * Pow2(k - 1)
  }

  function And(a: nat, b: nat): (r: nat)
    ensures r <= a && r <= b
  {
    if a == 0 || b == 0 then 0
    else 2 * And(a / 2, b / 2) + (if a % 2 == 1 && b % 2 == 1 then 1 else 0)
  }

  function Or(a: nat, b: nat): (r: nat)
    ensures r >= a && r >= b
    decreases a + b
  {
    if a == 0 then b else if b == 0 then a
    else 2 * Or(a / 2, b / 2) + (if a % 2 == 1 || b % 2 == 1 then 1 else 0)
  }

  function Xor(a: nat, b: nat): nat
    decreases a + b
  {
    if a == 0 then b else if b == 0 then a
    else 2 * Xor(a / 2, b / 2) + (if a % 2 != b % 2 then 1 else 0)
  }

  lemma {:induction false} Pow2Adds(j: nat, k: nat)
    ensures Pow2(j + k) == Pow2(j) * Pow2(k)
  {
    if j > 0 {
      Pow2Adds(j - 1, k);
      assert Pow2(j + k) == 2 * Pow2(j - 1 + k);
      assert 2 * (Pow2(j - 1) * Pow2(k)) == (2 * Pow2(j - 1)) * Pow2(k);
    }
  }

  lemma Pow2At64()
    ensures Pow2(64) == 0x1_0000_0000_0000_0000
  {
    assert Pow2(8) == 0x100;
    assert Pow2(16) == 0x1_0000;
    assert Pow2(24) == 0x100_0000;
    assert Pow2(32) == 0x1_0000_0000;
    assert Pow2(40) == 0x100_0000_0000;
    assert Pow2(48) == 0x1_0000_0000_0000;
    assert Pow2(56) == 0x100_0000_0000_0000;
  }

  lemma {:induction false} Pow2Grows(j: nat, k: nat)
    requires j <= k
    ensures Pow2(j) <= Pow2(k)
    decreases k - j
  {
    if j < k {
      Pow2Grows(j + 1, k);
    }
  }

  /** A mask of k ones keeps the residue modulo 2^k. */
  lemma {:induction false} AndMask(x: nat, k: nat)
    ensures And(x, Pow2(k) - 1) == x % Pow2(k)
  {
    if k > 0 {
      var m := Pow2(k - 1);
      AndMask(x / 2, k - 1);
      HalfMod(x, m);
      OddMask(x, m);
    }
  }

  lemma OddMask(x: nat, m: nat)
    requires m >= 1
    ensures And(x, 2 * m - 1) == 2 * And(x / 2, m - 1) + x % 2
  {
    assert (2 * m - 1) / 2 == m - 1 && (2 * m - 1) % 2 == 1;
  }

  lemma HalfMod(x: nat, m: nat)
    requires m >= 1
    ensures x % (2 * m) == 2 * (x / 2 % m) + x % 2
  {
    var q, r := x / 2 / m, x / 2 % m;
    assert x == (2 * m) * q + (2 * r + x % 2) by {
      assert x / 2 == m * q + r;
      assert (2 * m) * q == 2 * (m * q);
    }
    ModUnique(x, 2 * m, q, 2 * r + x % 2);
  }

  lemma ModUnique(x: int, m: int, q: int, r: int)
    requires m > 0 && 0 <= r < m && x == m * q + r
    ensures x / m == q && x % m == r
  {
    var d := q - x / m;
    assert x == m * (x / m) + x % m;
    assert m * d == x % m - r by {
      assert m * q - m * (x / m) == m * d;
    }
    MulGap(m, d);
  }

  lemma MulGap(m: int, d: int)
    requires m > 0
    ensures d > 0 ==> m * d >= m
    ensures d < 0 ==> m * d <= -m
  {
  }

  /** Division cancels a common factor: the residue modulo a divisor of the modulus. */
  lemma ModOfMod(x: int, m: int, c: int)
    requires m > 0 && c > 0
    ensures (x % (m * c)) % m == x % m
  {
    var q, r := x / (m * c), x % (m * c);
    assert m * c > 0;
    assert x == m * (c * q) + r by {
      assert x == (m * c) * q + r;
      assert (m * c) * q == m * (c * q);
    }
    assert x == m * (c * q + r / m) + r % m by {
      assert r == m * (r / m) + r % m;
      assert m * (c * q + r / m) == m * (c * q) + m * (r / m);
    }
    ModUnique(x, m, c * q + r / m, r % m);
  }

  /** Adding a whole multiple of the modulus changes nothing. */
  lemma ModShift(x: int, m: int, q: int)
    requires m > 0
    ensures (x + m * q) % m == x % m
  {
    assert x + m * q == m * (x / m + q) + x % m by {
      assert m * (x / m + q) == m * (x / m) + m * q;
    }
    ModUnique(x + m * q, m, x / m + q, x % m);
  }

  /** Reducing an operand first does not change a residue. */
  lemma AddReduced(a: int, b: int, m: int)
    requires m > 0
    ensures (a % m + b) % m == (a + b) % m
  {
    ModShift(a % m + b, m, a / m);
  }

  lemma {:induction false} XorTwice(a: nat, c: nat)
    ensures Xor(Xor(a, c), c) == a
    decreases a + c
  {
    if a != 0 && c != 0 {
      XorTwice(a / 2, c / 2);
      var x := Xor(a, c);
      assert x / 2 == Xor(a / 2, c / 2) && x % 2 == (if a % 2 != c % 2 then 1 else 0);
    } else if a == 0 && c != 0 {
      XorSelf(c);
    }
  }

  lemma {:induction false} XorSelf(c: nat)
    ensures Xor(c, c) == 0
  {
    if c != 0 {
      XorSelf(c / 2);
    }
  }

  lemma {:induction false} XorHalf(a: nat, b: nat)
    ensures Xor(a, b) / 2 == Xor(a / 2, b / 2)
    ensures Xor(a, b) % 2 == (if a % 2 != b % 2 then 1 else 0)
  {
  }

  /** Logical shift right by k bits. */
  function Shr(x: nat, k: nat): (r: nat)
    ensures r <= x
  {
    if k == 0 then x else Shr(x / 2, k - 1)
  }

  /** Shifting right distributes over exclusive or. */
  lemma {:induction false} XorShr(a: nat, b: nat, k: nat)
    ensures Shr(Xor(a, b), k) == Xor(Shr(a, k), Shr(b, k))
  {
    if k > 0 {
      XorHalf(a, b);
      XorShr(a / 2, b / 2, k - 1);
    }
  }

  lemma DivTwice(x: nat, m: nat)
    requires m > 0
    ensures x / (2 * m) == x / 2 / m
  {
    var q, r := x / 2 / m, x / 2 % m;
    assert x == (2 * m) * q + (2 * r + x % 2) by {
      assert x / 2 == m * q + r;
      assert (2 * m) * q == 2 * (m * q);
    }
    ModUnique(x, 2 * m, q, 2 * r + x % 2);
  }

  lemma {:induction false} XorBound(a: nat, b: nat, k: nat)
    requires a < Pow2(k) && b < Pow2(k)
    ensures Xor(a, b) < Pow2(k)
  {
    if k > 0 {
      XorHalf(a, b);
      XorBound(a / 2, b / 2, k - 1);
    }
  }

  lemma {:induction false} OrBound(a: nat, b: nat, k: nat)
    requires a < Pow2(k) && b < Pow2(k)
    ensures Or(a, b) < Pow2(k)
  {
    if k > 0 && a > 0 && b > 0 {
      OrBound(a / 2, b / 2, k - 1);
    }
  }
}
