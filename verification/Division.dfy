/** Quotients and remainders of sums and products. */
module Division {

  lemma AtLeast(p: nat, k: nat)
    requires k > 0
    ensures p * k >= p
  {
    assert p * k == p + p * (k - 1);
  }

  lemma Unique(p: nat, a: nat, b: nat, c: nat, d: nat)
    requires p * a + b == p * c + d && b < p && d < p
    ensures a == c && b == d
  {
    assert p * c - p * a == p * (c - a) && p * a - p * c == p * (a - c);
    if a < c {
      AtLeast(p, c - a);
    }
    if a > c {
      AtLeast(p, a - c);
    }
  }

  lemma Quotient(p: nat, q: nat, r: nat)
    requires r < p
    ensures (p * q + r) / p == q && (p * q + r) % p == r
  {
    var x := p * q + r;
    Unique(p, x / p, x % p, q, r);
  }
}
