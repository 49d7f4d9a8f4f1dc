/** Facts about products, quotients and remainders, one step at a time. */
module Arithmetic {

  lemma Distribute(p: int, a: int, b: int)
    ensures p * (a + b) == p * a + p * b
    ensures p * (a - b) == p * a - p * b
  {
  }

  /** Quotients and products of natural numbers are natural numbers. */
  function Div(n: nat, d: nat): nat
    requires d > 0
  {
    n / d
  }

  function Mul(a: nat, b: nat): nat {
    a * b
  }

  lemma Associate(a: int, b: int, c: int)
    ensures (a * b) * c == a * (b * c)
  {
  }

  lemma ProductNonNegative(a: int, b: int)
    requires a >= 0 && b >= 0
    ensures a * b >= 0
  {
  }

  /** A multiple of `p` smaller than `p` is zero. */
  lemma SmallMultiple(p: int, m: int)
    requires p > 0 && -p < p * m < p
    ensures m == 0
  {
    if m > 0 {
      ProductNonNegative(p, m - 1);
      Distribute(p, m, 1);
    } else if m < 0 {
      ProductNonNegative(p, -m - 1);
      Distribute(p, -m, 1);
      Distribute(p, 0, m);
    }
  }

  lemma Quotient(p: int, k: int, c: int)
    requires 0 <= c < p
    ensures (p * k + c) / p == k && (p * k + c) % p == c
  {
    var n := p * k + c;
    var q, r := n / p, n % p;
    assert n == p * q + r && 0 <= r < p;
    Distribute(p, k, q);
    SmallMultiple(p, k - q);
  }

  lemma Multiple(p: int, k: int)
    requires p > 0
    ensures (p * k) / p == k && (p * k) % p == 0
    ensures (k * p) / p == k && (k * p) % p == 0
  {
    Quotient(p, k, 0);
    assert p * k + 0 == k * p;
  }

  lemma Exact(n: int, p: int)
    requires p > 0 && n % p == 0
    ensures p * (n / p) == n
  {
  }

  lemma Cancel(d: int, x: int, y: int)
    requires d > 0 && d * x == d * y
    ensures x == y
  {
    Distribute(d, x, y);
    SmallMultiple(d, x - y);
  }

  lemma Regroup(a: int, b: int, c: int, d: int)
    ensures (a * b) * (c * d) == (a * c) * (b * d)
  {
    Associate(a, b, c * d);
    Associate(b, c, d);
    Associate(c, b, d);
    Associate(a, c, b * d);
    assert b * c == c * b;
  }

  /** What divides a factor divides the product. */
  lemma FactorDivides(p: int, n: int, w: int)
    requires p > 0 && n % p == 0
    ensures (n * w) % p == 0
  {
    Exact(n, p);
    Associate(p, n / p, w);
    Multiple(p, (n / p) * w);
  }

  lemma ProductMod2(r: int, t: int)
    requires r % 2 != 0 && (r * t) % 2 == 0
    ensures t % 2 == 0
  {
    var x := r / 2;
    assert r == 2 * x + 1;
    Distribute(t, 2 * x, 1);
    assert r * t == 2 * (x * t) + t by {
      Associate(2, x, t);
    }
  }

  lemma Twice5(t: int)
    requires (2 * t) % 5 == 0
    ensures t % 5 == 0
  {
    var k := 2 * t / 5;
    assert t == 5 * (3 * k - t);
  }

  lemma Thrice5(t: int)
    requires (3 * t) % 5 == 0
    ensures t % 5 == 0
  {
    var k := 3 * t / 5;
    assert t == 5 * (2 * k - t);
  }

  lemma Fourfold5(t: int)
    requires (4 * t) % 5 == 0
    ensures t % 5 == 0
  {
    var k := 4 * t / 5;
    assert t == 5 * (4 * k - 3 * t);
  }

  lemma SplitProduct(r: int, t: int, p: int)
    requires p > 0
    ensures r * t == p * ((r / p) * t) + (r % p) * t
  {
    var x, a := r / p, r % p;
    assert r == p * x + a;
    Distribute(t, p * x, a);
    Associate(p, x, t);
  }

  lemma ProductMod5(r: int, t: int)
    requires r % 5 != 0 && (r * t) % 5 == 0
    ensures t % 5 == 0
  {
    SplitProduct(r, t, 5);
    var k, a := (r / 5) * t, r % 5;
    Shift5(k, a * t);
    if a == 2 {
      Twice5(t);
    } else if a == 3 {
      Thrice5(t);
    } else if a == 4 {
      Fourfold5(t);
    }
  }

  lemma Shift5(k: int, c: int)
    ensures (5 * k + c) % 5 == c % 5
  {
  }

  lemma Ten(t: int)
    ensures t % 10 == 0 <==> t % 2 == 0 && t % 5 == 0
  {
    var q, r := t / 10, t % 10;
    assert t == 2 * (5 * q) + r && t == 5 * (2 * q) + r;
  }
}
