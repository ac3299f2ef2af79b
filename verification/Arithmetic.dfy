/** Division facts used by several components. */
module Arithmetic {

  /** The modulus of the 64-bit unsigned types. */
  const TWO64: nat := 0x1_0000_0000_0000_0000

  lemma MultipleBelow(k: int, m: nat)
    requires -1 * m < k * m < m
    ensures k == 0
  {
  }

  /** Quotient and remainder are unique. */
  lemma ModIs(x: int, m: nat, q: int, r: nat)
    requires m > 0 && x == q * m + r && r < m
    ensures x % m == r && x / m == q
  {
    var k := x / m - q;
    assert k * m == r - x % m;
    MultipleBelow(k, m);
  }

  lemma Congruent(x: int, y: int, m: nat, q: int)
    requires m > 0 && x == y + q * m
    ensures x % m == y % m
  {
    assert x == (y / m + q) * m + y % m;
    ModIs(x, m, y / m + q, y % m);
  }

  /** `((a mod m) + b) mod m`. */
  lemma ModAdd(a: int, b: int, m: nat)
    requires m > 0
    ensures (a % m + b) % m == (a + b) % m
  {
    Congruent(a + b, a % m + b, m, a / m);
  }

  lemma ModAddBoth(a: int, b: int, m: nat)
    requires m > 0
    ensures (a % m + b % m) % m == (a + b) % m
  {
    ModAdd(a, b % m, m);
    ModAdd(b, a, m);
  }

  lemma ScaleMonotone(a: int, b: int, c: nat)
    requires a <= b
    ensures a * c <= b * c
  {
  }
}
