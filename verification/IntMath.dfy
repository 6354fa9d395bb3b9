/** Integer square root and binomial coefficients, in 64 bits. */
module IntMath {
  import opened Common
  import opened Slicing

  // ---- square root ----

  ghost predicate Root(n: int, x: int) { x >= 0 && x * x <= n < (x + 1) * (x + 1) }

  lemma Division(n: nat, x: nat) returns (q: nat)
    requires x > 0
    ensures q == n / x && q * x <= n < (q + 1) * x
  {
    q := n / x;
    assert n == x * q + n % x;
  }

  /** One Newton step from `x` does not go below the root. */
  lemma StaysAbove(n: nat, x: nat, q: nat, y: nat)
    requires x > 0 && n < (q + 1) * x && y == (x + q) / 2
    ensures n < (y + 1) * (y + 1)
  {
    var a, b := x, q + 1;
    assert 2 * (y + 1) >= a + b;
    Square(a, b, 2 * (y + 1));
    assert (2 * (y + 1)) * (2 * (y + 1)) == 4 * ((y + 1) * (y + 1));
    assert 4 * (b * a) > 4 * n;
  }

  /** Half a sum is not less than the geometric mean. */
  lemma Square(a: nat, b: nat, s: nat)
    requires s >= a + b
    ensures s * s >= 4 * (b * a)
  {
    assert (a + b) * (a + b) == 4 * (b * a) + (a - b) * (a - b);
    assert (a - b) * (a - b) >= 0 by {
      if a >= b {
        NonNeg(a - b);
      } else {
        NonNeg(b - a);
        assert (a - b) * (a - b) == (b - a) * (b - a);
      }
    }
    MulLe(a + b, s, a + b);
    MulLe(a + b, s, s);
    assert (a + b) * s == s * (a + b);
  }

  lemma NonNeg(d: nat)
    ensures d * d >= 0
  {
  }

  /** Above the root a Newton step goes strictly down. */
  lemma StepsDown(n: nat, x: nat, q: nat)
    requires x > 0 && q * x <= n < x * x
    ensures (x + q) / 2 < x
  {
    if q >= x { MulLe(x, q, x); }
  }

  /** The root, for every `n` but the largest, where `x + 1` wraps. */
  method Isqrt(n: int) returns (r: int)
    requires Int64(n)
    ensures n < 0 ==> r == 0
    ensures n >= 0 ==> (Root(n, r) <==> n != 9223372036854775807)
  {
    if n < 0 { return 0; }
    if n < 2 { return n; }
    var x := n;
    var y := CDiv(Wrap(x + 1), 2);
    if n == MAX {
      var last := Stuck(y);
      assert !Root(n, last);
      return last;
    }
    assert (n + 1) * (n + 1) == n * n + 2 * n + 1;
    MulLe(2, n, n);
    HalfUp(n);
    while y < x
      invariant 0 < x <= n && (x == n || x <= (n + 1) / 2) && n < (x + 1) * (x + 1)
      invariant if x == n then y == (n + 1) / 2 else y == (x + n / x) / 2
      decreases x
    {
      var q := FirstOrNext(n, x, y);
      StaysAbove(n, x, q, y);
      x := y;
      q := Division(n, x);
      Small(n, x, q);
      y := CDiv(Wrap(x + CDiv(n, x)), 2);
    }
    var q := FirstOrNext(n, x, y);
    if x * x > n { StepsDown(n, x, q); }
    return x;
  }

  lemma HalfUp(n: nat)
    requires n >= 2
    ensures 0 < (n + 1) / 2 < n
  {
  }

  /** What `y` was computed from, in the first round and in later ones. */
  lemma FirstOrNext(n: nat, x: nat, y: int) returns (q: nat)
    requires n >= 2 && 0 < x <= n
    requires if x == n then y == (n + 1) / 2 else y == (x + n / x) / 2
    ensures q * x <= n < (q + 1) * x && y == (x + q) / 2 && y > 0
  {
    q := Division(n, x);
    if x == n {
      DivIs(n, n, 1);
    } else if x == 1 {
      DivIs(n, 1, n);
    }
  }

  lemma Small(n: nat, x: nat, q: nat)
    requires n >= 2 && 0 < x <= (n + 1) / 2 && q * x <= n
    ensures x + q <= n + 1
  {
    if x == 1 {
      assert q * 1 == q;
    } else {
      MulLe(2, x, q);
      assert q * x == x * q;
    }
  }

  /** The same loop for the largest input, where it runs once and ends below zero. */
  method Stuck(y0: int) returns (x: int)
    requires y0 == CDiv(Wrap(MAX + 1), 2)
    ensures x < 0
  {
    x := MAX;
    var y := y0;
    assert y == -0x4000_0000_0000_0000;
    x := y;
    y := CDiv(Wrap(x + CDiv(MAX, x)), 2);
    StuckThere(x);
    assert y >= x;
  }

  lemma StuckThere(x: int)
    requires x == -0x4000_0000_0000_0000
    ensures CDiv(Wrap(x + CDiv(MAX, x)), 2) >= x
  {
    DivIs(MAX, -x, 1);
    assert CDiv(MAX, x) == -1;
    DivIs(-(x - 1), 2, 0x2000_0000_0000_0000);
  }

  // ---- binomial coefficients ----

  function Binom(n: nat, k: nat): nat {
    if k == 0 then 1 else if n == 0 then 0 else Binom(n - 1, k - 1) + Binom(n - 1, k)
  }

  lemma {:induction false} BinomOver(n: nat, k: nat)
    requires k > n
    ensures Binom(n, k) == 0
  {
    if n > 0 {
      BinomOver(n - 1, k - 1);
      BinomOver(n - 1, k);
    }
  }

  /** The step of the loop is exact. */
  lemma {:induction false} NextBinom(n: nat, k: nat)
    requires k <= n
    ensures (k + 1) * Binom(n, k + 1) == (n - k) * Binom(n, k)
    decreases n
  {
    if n == k {
      BinomOver(n, k + 1);
      assert (n - k) * Binom(n, k) == 0 * Binom(n, k) == 0;
    } else if k == 0 {
      NextBinom(n - 1, 0);
    } else {
      var a, b, c := Binom(n - 1, k - 1), Binom(n - 1, k), Binom(n - 1, k + 1);
      NextBinom(n - 1, k - 1);
      NextBinom(n - 1, k);
      assert k * b == (n - k) * a;
      assert (k + 1) * c == (n - 1 - k) * b;
      Spread(n, k, a, b, c);
    }
  }

  lemma Spread(n: int, k: int, a: int, b: int, c: int)
    requires k * b == (n - k) * a && (k + 1) * c == (n - 1 - k) * b
    ensures (k + 1) * (b + c) == (n - k) * (a + b)
  {
    assert (k + 1) * (b + c) == k * b + b + (k + 1) * c;
    assert (n - k) * (a + b) == (n - k) * a + (n - 1 - k) * b + b;
  }

  lemma {:induction false} Symmetric(n: nat, k: nat)
    requires k <= n
    ensures Binom(n, k) == Binom(n, n - k)
    decreases n
  {
    if k == n {
      Diagonal(n);
    } else if k > 0 {
      Symmetric(n - 1, k - 1);
      Symmetric(n - 1, k);
    } else {
      Diagonal(n);
    }
  }

  lemma {:induction false} Diagonal(n: nat)
    ensures Binom(n, n) == 1
  {
    if n > 0 {
      Diagonal(n - 1);
      BinomOver(n - 1, n);
    }
  }

  /** Up to the middle the products only grow. */
  lemma {:induction false} ProductsGrow(n: nat, i: nat, k: nat)
    requires 0 < i <= k && 2 * k <= n
    ensures i * Binom(n, i) <= k * Binom(n, k)
    decreases k - i
  {
    if i < k {
      NextBinom(n, i);
      MulLe(i, n - i, Binom(n, i));
      ProductsGrow(n, i + 1, k);
    }
  }

  /** No product leaves 64 bits exactly when the last and largest one does not; then the
      result is the binomial coefficient. */
  method Comb(n: int, k0: int) returns (r: int)
    requires Int64(n) && Int64(k0)
    requires 0 <= k0 <= n ==> var k := if k0 > n - k0 then n - k0 else k0; k * Binom(n, k) <= 9223372036854775807
    ensures r == if n < 0 || k0 < 0 || k0 > n then 0 else Binom(n, k0)
  {
    var k := k0;
    if n < 0 || k < 0 || k > n { return 0; }
    Symmetric(n, k);
    if k > n - k { k := n - k; }
    r := 1;
    var i := 0;
    while i < k
      invariant 0 <= i <= k && r == Binom(n, i)
    {
      NextBinom(n, i);
      ProductsGrow(n, i + 1, k);
      assert r * (n - i) == (i + 1) * Binom(n, i + 1) <= MAX;
      Exact(i + 1, Binom(n, i + 1));
      r := CDiv(r * (n - i), i + 1);
      i := i + 1;
    }
  }

  lemma Exact(p: nat, q: nat)
    requires p > 0
    ensures CDiv(p * q, p) == q
  {
    assert (q + 1) * p == q * p + p;
    NonNegMul(p, q);
    DivIs(p * q, p, q);
  }

  lemma NonNegMul(p: nat, q: nat)
    ensures p * q >= 0
  {
  }
}
