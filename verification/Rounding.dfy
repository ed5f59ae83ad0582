/** `torch.round`: to the nearest integer, halves to the even one (section 4.3.1 of IEEE 754-2008). */
module Rounding {
  function Round(x: real): int
  {
    var f := x.Floor;
    var d := x - f as real;
    if d < 0.5 || (d == 0.5 && f % 2 == 0) then f else f + 1
  }

  lemma RoundNear(x: real)
    ensures x - 0.5 <= Round(x) as real <= x + 0.5
  {
  }

  /** The nearest integer, or the even one of two. */
  lemma RoundExactly(x: real, n: int)
    ensures Round(x) == n <==>
      -0.5 < x - n as real < 0.5 || (n % 2 == 0 && (x - n as real == 0.5 || x - n as real == -0.5))
  {
  }

  lemma RoundInteger(n: int)
    ensures Round(n as real) == n
  {
  }

  lemma RoundMonotone(x: real, y: real)
    requires x <= y
    ensures Round(x) <= Round(y)
  {
    if x.Floor < y.Floor {
      assert Round(x) <= x.Floor + 1 <= y.Floor <= Round(y);
    } else {
      assert x.Floor == y.Floor;
    }
  }

  /** Between two integers, rounding stays between them. */
  lemma RoundWithin(x: real, lo: int, hi: int)
    requires lo as real <= x <= hi as real
    ensures lo <= Round(x) <= hi
  {
    RoundMonotone(lo as real, x);
    RoundMonotone(x, hi as real);
  }

  function Clamp(n: int, lo: int, hi: int): int
  {
    if n < lo then lo else if n > hi then hi else n
  }
}
