/** What the models share: an option type and fixed-width arithmetic, that is wrap-around of 32-
    and 64-bit registers, powers of two, rounding division and the bitwise AND of two naturals. */
module Hw {
  datatype Option<T> = None | Some(value: T)

  const B32 := 0x1_0000_0000
  const B64 := 0x1_0000_0000_0000_0000

  /** Value kept by a 32-bit register. */
  function W32(x: int): (r: nat)
    ensures r < B32 && (0 <= x < B32 ==> r == x)
  {
    x % B32
  }

  /** Value kept by a 64-bit register. */
  function W64(x: int): (r: nat)
    ensures r < B64 && (0 <= x < B64 ==> r == x)
  {
    x % B64
  }

  function Pow2(n: nat): (p: nat)
    ensures p >= 1
  {
    if n == 0 then 1 else 2 * Pow2(n - 1)
  }

  /** Value of little-endian bytes. */
  function Val(b: seq<nat>): nat { if b == [] then 0 else b[0] + 256 * Val(b[1..]) }

  function Min(a: int, b: int): int { if a <= b then a else b }

  function CeilDiv(a: nat, b: nat): nat
    requires b > 0
  {
    (a + b - 1) / b
  }

  /** Bitwise AND. */
  function And(a: nat, b: nat): nat
    decreases a
  {
    if a == 0 then 0 else 2 * And(a / 2, b / 2) + (if a % 2 == 1 && b % 2 == 1 then 1 else 0)
  }

  /** The bits of x from position n upwards, and the n bits below. */
  function Shr(x: nat, n: nat): nat { if n == 0 then x else Shr(x / 2, n - 1) }
  function Low(x: nat, n: nat): nat { if n == 0 then 0 else x % 2 + 2 * Low(x / 2, n - 1) }

  lemma {:induction false} ZeroBits(n: nat)
    ensures Shr(0, n) == 0 && Low(0, n) == 0
  {
    if n > 0 { ZeroBits(n - 1); }
  }

  lemma {:induction false} ShrLow(x: nat, n: nat)
    ensures x == Shr(x, n) * Pow2(n) + Low(x, n) && Low(x, n) < Pow2(n)
  {
    if n > 0 {
      ShrLow(x / 2, n - 1);
      OneMore(x, Shr(x / 2, n - 1), Pow2(n - 1), Low(x / 2, n - 1));
    }
  }

  lemma OneMore(x: nat, h: nat, p: nat, low: nat)
    requires x / 2 == h * p + low && low < p
    ensures x == h * (2 * p) + (x % 2 + 2 * low) && x % 2 + 2 * low < 2 * p
  {
    var y := h * p;
    assert h * (2 * p) == 2 * y;
    assert x == 2 * (y + low) + x % 2;
  }

  /** A rounding quotient is pinned by the two products around it. */
  lemma CeilDivIs(a: nat, b: nat, q: nat)
    requires b > 0 && q >= 1 && (q - 1) * b < a <= q * b
    ensures CeilDiv(a, b) == q
  {
    var n := a + b - 1;
    assert n == q * b + (a - (q - 1) * b - 1);
    DivIs(n, b, q, a - (q - 1) * b - 1);
  }

  lemma CeilDivBounds(a: nat, b: nat)
    requires b > 0 && a > 0
    ensures CeilDiv(a, b) >= 1 && (CeilDiv(a, b) - 1) * b < a <= CeilDiv(a, b) * b
  {
    var q := CeilDiv(a, b);
    assert a + b - 1 == q * b + (a + b - 1) % b;
    assert (q - 1) * b == q * b - b;
    MulMono(q, 0, b);
  }

  lemma DivIs(n: nat, b: nat, q: nat, r: nat)
    requires r < b && n == q * b + r
    ensures n / b == q && n % b == r
  {
    var k := n / b;
    assert n == k * b + n % b;
    MulMono(k + 1, q, b);
    MulMono(q + 1, k, b);
  }

  /** A product below another one has the smaller factor. */
  lemma MulLess(a: int, b: int, k: nat)
    requires a * k < b * k
    ensures a < b
  {
    MulMono(b, a, k);
  }

  lemma QuotRem(a: nat, b: nat) returns (q: nat, r: nat)
    requires b > 0
    ensures a == q * b + r && r < b && q == a / b && r == a % b
  {
    q, r := a / b, a % b;
  }

  lemma MulMono(a: int, b: int, k: nat)
    ensures a <= b ==> a * k <= b * k
  {
    if a <= b {
      assert b * k == a * k + (b - a) * k;
    }
  }

  /** Wrapping an address twice is the same as wrapping it once. */
  lemma W64Add(x: int, y: int)
    ensures W64(W64(x) + y) == W64(x + y)
  {
  }

  /** Two addresses that agree modulo 2^64 agree inside a page. */
  lemma W64Page(x: nat)
    ensures W64(x) % 4096 == x % 4096
  {
    assert x == (x / B64) * B64 + W64(x);
    var h := (x / B64) * (B64 / 4096);
    assert (x / B64) * B64 == h * 4096;
    ModShift(W64(x), 4096, h);
  }

  lemma ModShift(a: nat, b: nat, k: nat)
    requires b > 0
    ensures (k * b + a) % b == a % b
  {
    DivIs(k * b + a, b, k + a / b, a % b) by {
      assert (k + a / b) * b == k * b + (a / b) * b;
    }
  }
}
