/** Integers: division by an unknown divisor, one step at a time. */
module Arithmetic {

  function Abs(n: int): nat { if n < 0 then -n else n }

  function Min(a: nat, b: nat): nat { if a < b then a else b }

  function Max(a: nat, b: nat): nat { if a < b then b else a }

  lemma Distribute(a: int, b: int, c: int)
    ensures a * (b - c) == a * b - a * c
    ensures a * (b + c) == a * b + a * c
  {
  }

  lemma Quotient(n: nat, d: nat, q: nat, r: nat)
    requires r < d && n == d * q + r
    ensures n / d == q && n % d == r
  {
    var q', r' := n / d, n % d;
    assert n == d * q' + r';
    Distribute(d, q', q);
    Distribute(d, q, q');
    if q' > q {
      Multiple(d, q' - q);
    } else if q' < q {
      Multiple(d, q - q');
    }
  }

  lemma Multiple(d: nat, k: nat)
    requires k >= 1
    ensures d * k >= d
  {
    Distribute(d, k - 1, 1);
    assert d * (k - 1) >= 0;
  }

  /** Counting one further moves the quotient exactly when the remainder wraps. */
  lemma DivStep(n: nat, d: nat)
    requires d > 0
    ensures n % d + 1 == d ==> (n + 1) % d == 0 && (n + 1) / d == n / d + 1
    ensures n % d + 1 != d ==> (n + 1) % d == n % d + 1 && (n + 1) / d == n / d
  {
    var q, r := n / d, n % d;
    assert n == d * q + r;
    if r + 1 == d {
      Distribute(d, q, 1);
      Quotient(n + 1, d, q + 1, 0);
    } else {
      Quotient(n + 1, d, q, r + 1);
    }
  }

  lemma AtLeast(d: nat, k: nat)
    requires d > 0
    ensures d * k >= k
  {
    Distribute(k, d - 1, 1);
    assert (d - 1) * k >= 0;
  }

  lemma PositiveFactor(g: nat, k: int)
    requires g > 0 && g * k > 0
    ensures k >= 1
  {
  }

  /** A negative divisor leaves the remainders of its absolute value. */
  lemma ModuloAbs(n: nat, d: int)
    requires d != 0
    ensures n % d == n % Abs(d)
  {
    if d < 0 {
      var q, r := n / d, n % d;
      assert n == d * q + r;
      Distribute(-d, -q, -1);
      assert (-d) * (-q) == d * q;
      PositiveFactor(-d, -q + 1);
      Quotient(n, -d, -q, r);
    }
  }

  lemma ModuloAtMost(n: nat, d: nat)
    requires d > 0
    ensures n % d <= n
  {
    Reassemble(n, d);
    assert d * (n / d) >= 0;
  }

  lemma Reassemble(n: nat, d: nat)
    requires d > 0
    ensures n == d * (n / d) + n % d
  {
  }

  lemma Monotone(a: nat, b: nat, c: nat)
    requires a <= b
    ensures a * c <= b * c
  {
    Distribute(c, b, a);
    assert c * (b - a) >= 0;
  }
}
