/**
 Machine words. The relay computes on u32, u64 and usize values, so the widths,
 the wrap-around and the bit operators are written out here.
 */
module Words {

  const U32_MAX: nat := 0xFFFF_FFFF
  const U64_MODULUS: nat := 0x1_0000_0000_0000_0000

  function Pow2(n: nat): (r: nat)
    ensures r > 0
  {
    if n == 0 then 1 else 2 * Pow2(n - 1)
  }

  lemma {:induction false} Pow2Add(a: nat, b: nat)
    ensures Pow2(a + b) == Pow2(a) * Pow2(b)
  {
    if a == 0 {
    } else {
      Pow2Add(a - 1, b);
      assert a + b - 1 == (a - 1) + b;
      calc {
        Pow2(a + b);
        2 * (Pow2(a - 1) * Pow2(b));
        (2 * Pow2(a - 1)) * Pow2(b);
        Pow2(a) * Pow2(b);
      }
    }
  }

  lemma {:induction false} Pow2Monotone(a: nat, b: nat)
    requires a <= b
    ensures Pow2(a) <= Pow2(b)
    decreases b
  {
    if a < b {
      Pow2Monotone(a, b - 1);
    }
  }

  lemma Pow2Is64()
    ensures Pow2(64) == U64_MODULUS
  {
    assert Pow2(8) == 0x100;
    Pow2Add(8, 8);
    Pow2Add(16, 16);
    Pow2Add(32, 32);
  }

  /** `x << k` on u64. */
  function Shl(x: nat, k: nat): nat
    requires k < 64
  {
    (x * Pow2(k)) % U64_MODULUS
  }

  /** `x >> k` on u64. */
  function Shr(x: nat, k: nat): nat
    requires k < 64
  {
    Div(x, Pow2(k))
  }

  /** `a | b`. */
  function BitOr(a: nat, b: nat): nat {
    if a == 0 then b
    else if b == 0 then a
    else 2 * BitOr(a / 2, b / 2) + (if a % 2 == 1 || b % 2 == 1 then 1 else 0)
  }

  /** Floor division, by repeated subtraction (FloorDivision relates it to `/`). */
  function Div(x: nat, d: nat): nat
    requires d > 0
  {
    if x < d then 0 else 1 + Div(x - d, d)
  }

  lemma {:induction false} DivRemainder(x: nat, d: nat) returns (r: nat)
    requires d > 0
    ensures x == Div(x, d) * d + r && r < d
  {
    if x < d {
      r := x;
    } else {
      r := DivRemainder(x - d, d);
      MulDist(Div(x - d, d), 1, d);
    }
  }

  lemma MulAssoc(a: int, b: int, c: int)
    ensures a * (b * c) == (a * b) * c
  {
  }

  lemma MulSwap(a: int, b: int, c: int)
    ensures a * (b * c) == b * (a * c)
  {
  }

  lemma MulDist(a: int, b: int, c: int)
    ensures (a + b) * c == a * c + b * c
  {
  }

  /** A strictly larger multiple is at least one step further. */
  lemma MultipleStep(a: int, b: int, d: nat)
    requires a < b
    ensures a * d + d <= b * d
  {
    assert b * d - a * d == (b - a) * d;
    assert (b - a) * d == (b - a - 1) * d + d;
    assert (b - a - 1) * d >= 0;
  }

  /** Two representations x = q * d + r with r < d are the same one. */
  lemma QuotientUnique(q: int, r: nat, q': int, r': nat, d: nat)
    requires r < d && r' < d
    requires q * d + r == q' * d + r'
    ensures q == q' && r == r'
  {
    if q < q' {
      MultipleStep(q, q', d);
    } else if q' < q {
      MultipleStep(q', q, d);
    }
  }

  /** The quotient is determined by x = q * d + r with r < d. */
  lemma DivUnique(x: nat, q: nat, d: nat, r: nat)
    requires x == q * d + r && r < d
    ensures Div(x, d) == q
  {
    var r' := DivRemainder(x, d);
    QuotientUnique(q, r, Div(x, d), r', d);
  }

  lemma Halve(x: nat)
    ensures x == 2 * Div(x, 2) + x % 2
  {
    FloorDivision(x, 2);
  }

  lemma MulPositive(a: nat, b: nat)
    requires a > 0 && b > 0
    ensures a * b > 0
  {
  }

  lemma Regroup(q: nat, e: nat, r: nat, d: nat, t: nat)
    requires r < e && t < d
    ensures (q * e + r) * d + t == q * (d * e) + (r * d + t)
    ensures r * d + t < d * e
  {
    MulDist(q * e, r, d);
    MulAssoc(q, e, d);
    MultipleStep(r, e, d);
  }

  lemma FloorDivision(x: nat, d: nat)
    requires d > 0
    ensures Div(x, d) == x / d
  {
    var r := DivRemainder(x, d);
    QuotientUnique(Div(x, d), r, x / d, x % d, d);
  }

  /** Or-ing a value into the zero low bits of another one adds it. */
  lemma {:induction false} OrIntoZeroBits(q: nat, b: nat, k: nat)
    requires b < Pow2(k)
    ensures BitOr(q * Pow2(k), b) == q * Pow2(k) + b
  {
    var a := q * Pow2(k);
    if a == 0 || b == 0 {
    } else {
      assert k > 0;
      var half := q * Pow2(k - 1);
      assert a == 2 * half by {
        assert q * (2 * Pow2(k - 1)) == 2 * (q * Pow2(k - 1));
      }
      assert a / 2 == half && a % 2 == 0;
      assert b / 2 < Pow2(k - 1);
      OrIntoZeroBits(q, b / 2, k - 1);
    }
  }

  /** Counting on a word follows counting without bounds. */
  lemma WordUp(n: nat)
    ensures (n % U64_MODULUS + 1) % U64_MODULUS == (n + 1) % U64_MODULUS
  {
    var q, r := n / U64_MODULUS, n % U64_MODULUS;
    assert n == q * U64_MODULUS + r;
    if r + 1 == U64_MODULUS {
      assert n + 1 == (q + 1) * U64_MODULUS;
    }
  }

  lemma WordDown(n: nat)
    requires n > 0
    ensures (n % U64_MODULUS + (U64_MODULUS - 1)) % U64_MODULUS == (n - 1) % U64_MODULUS
  {
    var q, r := n / U64_MODULUS, n % U64_MODULUS;
    assert n == q * U64_MODULUS + r;
    if r == 0 {
      assert n - 1 == (q - 1) * U64_MODULUS + (U64_MODULUS - 1);
    }
  }
}
