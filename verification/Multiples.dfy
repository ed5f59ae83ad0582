/**
 Multiples of a width, as repeated addition. Offsets of heads and blocks are written with `Times`, so that reasoning
 about them is linear; `TimesIsProduct` says that it is the ordinary product.
 */
module Multiples {
  function Times(n: nat, d: nat): nat
  {
    if n == 0 then 0 else Times(n - 1, d) + d
  }

  lemma {:induction false} TimesIsProduct(n: nat, d: nat)
    ensures Times(n, d) == n * d
  {
    if n > 0 {
      TimesIsProduct(n - 1, d);
      assert n * d == (n - 1) * d + d;
    }
  }

  lemma {:induction false} TimesAdd(a: nat, b: nat, d: nat)
    ensures Times(a + b, d) == Times(a, d) + Times(b, d)
  {
    if b > 0 {
      TimesAdd(a, b - 1, d);
    }
  }

  lemma TimesMono(a: nat, b: nat, d: nat)
    requires a <= b
    ensures Times(a, d) <= Times(b, d)
  {
    TimesAdd(a, b - a, d);
  }

  /** Block `h` of `n` blocks ends within them. */
  lemma TimesEnd(h: nat, n: nat, d: nat)
    requires h < n
    ensures Times(h, d) + d <= Times(n, d)
  {
    TimesMono(h + 1, n, d);
  }

  lemma {:induction false} TimesOne(n: nat)
    ensures Times(n, 1) == n
  {
    if n > 0 {
      TimesOne(n - 1);
    }
  }

  lemma {:induction false} TimesZero(n: nat)
    ensures Times(n, 0) == 0
  {
    if n > 0 {
      TimesZero(n - 1);
    }
  }

  lemma {:induction false} TimesDouble(n: nat, d: nat)
    ensures Times(n, d + d) == Times(n, d) + Times(n, d)
  {
    if n > 0 {
      TimesDouble(n - 1, d);
    }
  }

  lemma {:induction false} TimesCommutes(n: nat, d: nat)
    ensures Times(n, d) == Times(d, n)
  {
    TimesIsProduct(n, d);
    TimesIsProduct(d, n);
  }

  lemma {:induction false} TimesAssociates(a: nat, b: nat, c: nat)
    ensures Times(Times(a, b), c) == Times(a, Times(b, c))
  {
    if a > 0 {
      TimesAssociates(a - 1, b, c);
      TimesAdd(Times(a - 1, b), b, c);
    }
  }

  lemma TimesTwo(a: nat)
    ensures Times(a, 2) == 2 * a
  {
    TimesIsProduct(a, 2);
  }

  /** Division with remainder. */
  lemma {:induction false} DivTimes(n: nat, d: nat)
    requires d > 0
    ensures n == Times(n / d, d) + n % d
  {
    TimesIsProduct(n / d, d);
    assert n == n / d * d + n % d;
  }

  lemma Order(k: nat, j: nat, k': nat, j': nat, d: nat)
    requires j < d && j' < d && Times(k, d) + j == Times(k', d) + j'
    ensures k == k' && j == j'
  {
    if k < k' {
      TimesEnd(k, k', d);
    } else if k' < k {
      TimesEnd(k', k, d);
    }
  }

  lemma TimesDiv(k: nat, j: nat, d: nat)
    requires j < d
    ensures (Times(k, d) + j) / d == k && (Times(k, d) + j) % d == j
  {
    var n := Times(k, d) + j;
    DivTimes(n, d);
    Order(k, j, n / d, n % d, d);
  }

  /** Position of `i` among `n` blocks of width `d`. */
  lemma DivBelow(i: nat, n: nat, d: nat)
    requires i < Times(n, d)
    ensures d > 0 && i / d < n && i == Times(i / d, d) + i % d
  {
    if d == 0 {
      TimesZero(n);
    } else {
      DivTimes(i, d);
      if i / d >= n {
        TimesMono(n, i / d, d);
      }
    }
  }

  /** Quotient and remainder by repeated subtraction. */
  function Quo(n: nat, d: nat): nat
    requires d > 0
  {
    if n < d then 0 else Quo(n - d, d) + 1
  }

  function Rem(n: nat, d: nat): (r: nat)
    requires d > 0
    ensures r < d
  {
    if n < d then n else Rem(n - d, d)
  }

  lemma {:induction false} QuoRem(n: nat, d: nat)
    requires d > 0
    ensures n == Times(Quo(n, d), d) + Rem(n, d)
  {
    if n >= d {
      QuoRem(n - d, d);
    }
  }

  lemma QuoIsDivision(n: nat, d: nat)
    requires d > 0
    ensures Quo(n, d) == n / d && Rem(n, d) == n % d
  {
    QuoRem(n, d);
    TimesDiv(Quo(n, d), Rem(n, d), d);
  }

  lemma QuoOf(k: nat, j: nat, d: nat)
    requires j < d
    ensures Quo(Times(k, d) + j, d) == k && Rem(Times(k, d) + j, d) == j
  {
    var n := Times(k, d) + j;
    QuoRem(n, d);
    Order(k, j, Quo(n, d), Rem(n, d), d);
  }

  lemma QuoBelow(k: nat, n: nat, d: nat)
    requires k < Times(n, d)
    ensures d > 0 && Quo(k, d) < n
  {
    if d == 0 {
      TimesZero(n);
    } else {
      QuoRem(k, d);
      if Quo(k, d) >= n {
        TimesMono(n, Quo(k, d), d);
      }
    }
  }
}
