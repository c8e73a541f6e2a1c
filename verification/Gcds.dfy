/** Greatest common divisor by Euclid's algorithm, with Bezout's identity. */
module Gcds {
  import opened Arithmetic

  function Gcd(a: nat, b: nat): (g: nat)
    requires a > 0 || b > 0
    ensures g > 0
    decreases b
  {
    if b == 0 then a else Gcd(b, a % b)
  }

  lemma Regroup(a: int, b: int, c: int)
    ensures a * (b * c) == (a * b) * c == b * (a * c)
  {
  }

  lemma CombineFactors(g: int, p: int, d: int, q: int)
    ensures (g * p) * d + g * q == g * (p * d + q)
  {
    Regroup(g, p, d);
    Distribute(g, p * d, q);
  }

  /** The gcd divides both arguments. */
  lemma {:induction false} GcdDivides(a: nat, b: nat) returns (p: nat, q: nat)
    requires a > 0 || b > 0
    ensures a == Gcd(a, b) * p && b == Gcd(a, b) * q
    decreases b
  {
    if b == 0 {
      p, q := 1, 0;
    } else {
      var p', q' := GcdDivides(b, a % b);
      p, q := p' * (a / b) + q', p';
      Reassemble(a, b);
      CombineFactors(Gcd(a, b), p', a / b, q');
    }
  }

  lemma BezoutStep(b: int, d: int, r: int, u: int, v: int)
    ensures (b * d + r) * v + b * (u - d * v) == b * u + r * v
  {
    Distribute(v, b * d, r);
    Distribute(b, u, d * v);
    Regroup(b, d, v);
  }

  /** The gcd is an integer combination of its arguments. */
  lemma {:induction false} Bezout(a: nat, b: nat) returns (u: int, v: int)
    requires a > 0 || b > 0
    ensures a * u + b * v == Gcd(a, b)
    decreases b
  {
    if b == 0 {
      u, v := 1, 0;
    } else {
      var u', v' := Bezout(b, a % b);
      u, v := v', u' - (a / b) * v';
      Reassemble(a, b);
      BezoutStep(b, a / b, a % b, u', v');
    }
  }

  lemma FactorBelow(g: nat, p: int, j: int)
    requires g > 0 && g * j < g * p
    ensures g * j <= g * p - g
  {
    Distribute(g, p, j);
    PositiveFactor(g, p - j);
    Multiple(g, p - j);
  }

  lemma DifferenceOfMultiples(g: int, q: int, k: int, p: int, w: int)
    ensures (g * q) * k - (g * p) * w == g * (q * k - p * w)
  {
    Regroup(g, q, k);
    Regroup(g, p, w);
    Distribute(g, q * k, p * w);
  }

  /** Remainders of multiples of `t` modulo `d` are multiples of the gcd, so at most `d - gcd`. */
  lemma RemainderBound(d: nat, t: nat, k: nat)
    requires d > 0 && t > 0
    ensures (t * k) % d <= d - Gcd(d, t)
  {
    var g := Gcd(d, t);
    var p, q := GcdDivides(d, t);
    var w := (t * k) / d;
    Reassemble(t * k, d);
    DifferenceOfMultiples(g, q, k, p, w);
    FactorBelow(g, p, q * k - p * w);
  }

  lemma Lifted(d: int, t: int, u: int, v: int, lift: int)
    ensures t * (d * lift - v) == d * (t * lift + u - 1) + d - (d * u + t * v)
  {
    Distribute(t, d * lift, v);
    Regroup(t, d, lift);
    Distribute(d, t * lift, u - 1);
    Distribute(d, u, 1);
  }

  /** And `d - gcd` is such a remainder. */
  lemma LargestRemainder(d: nat, t: nat) returns (k: nat)
    requires d > 0 && t > 0
    ensures (t * k) % d == d - Gcd(d, t)
  {
    var g := Gcd(d, t);
    var u, v := Bezout(d, t);
    var p, _ := GcdDivides(d, t);
    PositiveFactor(g, p);
    Multiple(g, p);
    var lift: nat := Abs(v);
    AtLeast(d, lift);
    k := d * lift - v;
    var w := t * lift + u - 1;
    Lifted(d, t, u, v, lift);
    AtLeast(t, k);
    assert d * w + (d - g) == t * k;
    Distribute(d, w, 1);
    PositiveFactor(d, w + 1);
    Quotient(t * k, d, w, d - g);
  }
}
