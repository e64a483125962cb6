/** Division facts the slot, ring and table arithmetic of several components share. */
module Arithmetic {

  /** Quotient and remainder are unique. */
  lemma DivModUnique(x: int, q: int, r: int, a: int)
    requires a > 0 && x == q * a + r && 0 <= r < a
    ensures x / a == q && x % a == r
  {
    var q', r' := x / a, x % a;
    DivModDefinition(x, a);
    assert (q - q') * a == r' - r;
    if q > q' {
      ProductAtLeast(q - q', a);
    } else if q < q' {
      assert (q' - q) * a == r - r';
      ProductAtLeast(q' - q, a);
    }
  }

  lemma DivModDefinition(x: int, a: int)
    requires a > 0
    ensures x == (x / a) * a + x % a && 0 <= x % a < a
  {
  }

  lemma ProductAtLeast(k: int, a: int)
    requires k >= 1 && a > 0
    ensures k * a >= a
  {
  }

  lemma AddMultiple(x: int, q: int, a: int)
    requires a > 0
    ensures (q * a + x) % a == x % a && (q * a + x) / a == q + x / a
  {
    DivModDefinition(x, a);
    assert q * a + x == (q + x / a) * a + x % a;
    DivModUnique(q * a + x, q + x / a, x % a, a);
  }

  /** Two numbers less than a modulus apart fall in different classes. */
  lemma ModDistinct(x: int, y: int, a: int)
    requires a > 0 && x < y < x + a
    ensures x % a != y % a
  {
    DivModDefinition(x, a);
    DivModDefinition(y, a);
    if x % a == y % a {
      var k := y / a - x / a;
      assert y - x == k * a;
      if k >= 1 { ProductAtLeast(k, a); } else { NonPositiveProduct(k, a); }
    }
  }

  lemma NonPositiveProduct(k: int, a: int)
    requires k <= 0 && a > 0
    ensures k * a <= 0
  {
  }

  /** Reducing modulo a multiple first changes nothing. */
  lemma ModOfMod(x: int, w: int, a: int)
    requires a > 0 && w > 0 && w % a == 0
    ensures (x % w) % a == x % a
  {
    var q, k := x / w, w / a;
    DivModDefinition(x, w);
    DivModDefinition(w, a);
    assert q * w == q * (k * a) == (q * k) * a;
    AddMultiple(x % w, q * k, a);
  }

  lemma TimesGrows(a: int, b: int, m: int)
    requires a <= b && m >= 0
    ensures a * m <= b * m
  {
  }
}
