/** Bitwise operations on unsigned machine integers, written over the naturals.
    A left shift into a W-bit register is Shl(a, k, W): the bits pushed past bit W are lost. */
module Bits {

  function Pow2(k: nat): (p: nat)
    ensures p > 0
  {
    if k == 0 then 1 else 2 * Pow2(k - 1)
  }

  function Or(a: nat, b: nat): nat {
    if a == 0 then b
    else if b == 0 then a
    else 2 * Or(a / 2, b / 2) + if a % 2 == 1 || b % 2 == 1 then 1 else 0
  }

  function And(a: nat, b: nat): nat {
    if a == 0 || b == 0 then 0
    else 2 * And(a / 2, b / 2) + (a % 2) * (b % 2)
  }

  function Xor(a: nat, b: nat): nat
    decreases a + b
  {
    if a == 0 then b
    else if b == 0 then a
    else 2 * Xor(a / 2, b / 2) + if a % 2 != b % 2 then 1 else 0
  }

  function Shl(a: nat, k: nat, width: nat): nat {
    (a * Pow2(k)) % Pow2(width)
  }

  function Shr(a: nat, k: nat): nat {
    if k == 0 then a else Shr(a / 2, k - 1)
  }

  lemma {:induction false} Pow2Add(a: nat, b: nat)
    ensures Pow2(a + b) == Pow2(a) * Pow2(b)
  {
    if a == 0 {
    } else {
      Pow2Add(a - 1, b);
      assert Pow2(a + b) == 2 * Pow2(a - 1 + b);
    }
  }

  lemma {:induction false} Pow2Monotone(a: nat, b: nat)
    requires a <= b
    ensures Pow2(a) <= Pow2(b)
  {
    if a == b {
    } else {
      Pow2Monotone(a, b - 1);
    }
  }

  // Quotient and remainder are determined by the division equation.
  lemma DivModUnique(n: int, d: int, q: int, r: int)
    requires d > 0 && 0 <= r < d && n == q * d + r
    ensures n / d == q && n % d == r
  {
    var k := n / d - q;
    assert n == (n / d) * d + n % d;
    assert k * d == r - n % d;
    assert k >= 1 ==> k * d >= d;
    assert k <= -1 ==> k * d <= -d;
  }

  // A digit below p in front of one below q.
  lemma BelowNext(f: nat, p: nat, w: nat, q: nat)
    requires f < p && w < q
    ensures f + p * w < p * q
  {
    var above := q - 1 - w;
    assert p * q == p * (w + 1 + above) == p * w + p + p * above;
    assert p * above >= 0;
  }

  // The two's complement of a number modulo an even m, and the number it stands for.
  function TwosComplement(n: int, m: nat): nat
    requires m > 0
  {
    n % m
  }

  function FromTwosComplement(u: nat, m: nat): int { if 2 * u < m then u else u - m }

  lemma TwosComplementRoundTrip(n: int, m: nat)
    requires m > 0 && -(m as int) <= 2 * n < m
    ensures TwosComplement(n, m) < m && FromTwosComplement(TwosComplement(n, m), m) == n
  {
    if n < 0 {
      DivModUnique(n, m, -1, n + m);
    } else {
      DivModUnique(n, m, 0, n);
    }
  }

  lemma HalfOfMultiple(b: nat, k: nat)
    requires k > 0 && b % Pow2(k) == 0
    ensures b % 2 == 0 && (b / 2) % Pow2(k - 1) == 0
  {
    var q := b / Pow2(k);
    assert b == q * Pow2(k);
    assert b == 2 * (q * Pow2(k - 1));
    DivModUnique(b / 2, Pow2(k - 1), q, 0);
  }

  // Fields that occupy disjoint bit ranges are combined by `|` as by `+`.
  lemma {:induction false} OrDisjoint(a: nat, b: nat, k: nat)
    requires a < Pow2(k) && b % Pow2(k) == 0
    ensures Or(a, b) == a + b && Or(b, a) == a + b
  {
    if a == 0 || b == 0 {
    } else {
      HalfOfMultiple(b, k);
      OrDisjoint(a / 2, b / 2, k - 1);
    }
  }

  lemma ModHalf(a: nat, k: nat)
    requires k > 0
    ensures a % Pow2(k) == 2 * ((a / 2) % Pow2(k - 1)) + a % 2
    ensures a / Pow2(k) == (a / 2) / Pow2(k - 1)
  {
    var p := Pow2(k - 1);
    var q, r := (a / 2) / p, (a / 2) % p;
    assert a / 2 == q * p + r;
    assert a == q * (2 * p) + (2 * r + a % 2);
    DivModUnique(a, 2 * p, q, 2 * r + a % 2);
  }

  // Masking with k ones keeps the remainder modulo 2^k.
  lemma {:induction false} AndMask(a: nat, k: nat)
    ensures And(a, Pow2(k) - 1) == a % Pow2(k)
  {
    if k == 0 {
    } else if a == 0 {
    } else {
      assert (Pow2(k) - 1) / 2 == Pow2(k - 1) - 1 && (Pow2(k) - 1) % 2 == 1;
      AndMask(a / 2, k - 1);
      ModHalf(a, k);
      hide Pow2;
    }
  }

  lemma {:induction false} ShrIsDiv(a: nat, k: nat)
    ensures Shr(a, k) == a / Pow2(k)
  {
    if k == 0 {
    } else {
      ShrIsDiv(a / 2, k - 1);
      ModHalf(a, k);
    }
  }

  lemma {:induction false} ShrAdd(a: nat, j: nat, k: nat)
    ensures Shr(a, j + k) == Shr(Shr(a, j), k)
  {
    if j == 0 {
    } else {
      ShrAdd(a / 2, j - 1, k);
    }
  }

  // A field of `width` bits placed at bit `k` above a lower part `low` is read back by shift and mask.
  lemma FieldAt(n: nat, low: nat, field: nat, high: nat, k: nat, width: nat)
    requires low < Pow2(k) && field < Pow2(width)
    requires n == low + (field + high * Pow2(width)) * Pow2(k)
    ensures And(Shr(n, k), Pow2(width) - 1) == field
  {
    var rest := field + high * Pow2(width);
    DivModUnique(n, Pow2(k), rest, low);
    ShrIsDiv(n, k);
    AndMask(rest, width);
    DivModUnique(rest, Pow2(width), high, field);
  }

  // A left shift that pushes no bit out of the register multiplies.
  lemma ShlFits(a: nat, k: nat, width: nat)
    requires a * Pow2(k) < Pow2(width)
    ensures Shl(a, k, width) == a * Pow2(k) && Shl(a, k, width) % Pow2(k) == 0
  {
    DivModUnique(a * Pow2(k), Pow2(width), 0, a * Pow2(k));
    DivModUnique(a * Pow2(k), Pow2(k), a, 0);
  }

  // Testing one bit.
  lemma {:induction false} AndBit(a: nat, k: nat)
    ensures And(a, Pow2(k)) == (if (a / Pow2(k)) % 2 == 1 then Pow2(k) else 0)
  {
    if a == 0 {
    } else if k == 0 {
      assert And(a / 2, 0) == 0;
    } else {
      AndBit(a / 2, k - 1);
      ModHalf(a, k);
    }
  }

  // Clearing one bit that is set.
  lemma {:induction false} XorSetBit(a: nat, k: nat)
    requires (a / Pow2(k)) % 2 == 1
    ensures Xor(a, Pow2(k)) == a - Pow2(k)
  {
    if k == 0 {
      assert Xor(a / 2, 0) == a / 2;
    } else {
      ModHalf(a, k);
      XorSetBit(a / 2, k - 1);
    }
  }

  lemma SmallPowers()
    ensures Pow2(0) == 1 && Pow2(1) == 2 && Pow2(2) == 4 && Pow2(3) == 8 && Pow2(4) == 16
    ensures Pow2(5) == 32 && Pow2(6) == 64 && Pow2(7) == 128 && Pow2(8) == 256
  {
  }

  lemma WordPowers()
    ensures Pow2(16) == 0x1_0000 && Pow2(32) == 0x1_0000_0000 && Pow2(64) == 0x1_0000_0000_0000_0000
  {
    SmallPowers();
    Pow2Add(8, 8);
    Pow2Add(16, 16);
    Pow2Add(32, 32);
  }
}
