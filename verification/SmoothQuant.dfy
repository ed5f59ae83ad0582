/**
 SmoothQuant (quantization/_smooth_quant.py, and its wiring in quantization/_quantization_state.py): activation and
 weight observers of a linear hold references to each other's per-channel observers, so that both compute the same
 scaling factors from opposite sides.
 */
module SmoothQuant {
  import opened Basics
  import opened LinearAlgebra

  /** `torch.pow`; only that powers of positive numbers are positive matters. */
  type Power = (real, real) -> real

  ghost predicate Positive(pow: Power)
  {
    forall b, e :: b > 0.0 ==> pow(b, e) > 0.0
  }

  // ----- Factors

  /** Largest magnitude per channel, kept away from zero. */
  function Magnitude(lo: real, hi: real): (m: real)
    ensures m > 0.0
  {
    Max(Abs(lo), Abs(hi)) + 0.000001
  }

  /** The factor of one channel on the activation's side. */
  function ActFactor(pow: Power, alpha: real, w: real, x: real): (f: real)
    requires Positive(pow) && w > 0.0 && x > 0.0
  {
    pow(w, 1.0 - alpha) / pow(x, alpha)
  }

  /** The factor of one channel on the weight's side. */
  function WeightFactor(pow: Power, alpha: real, w: real, x: real): (f: real)
    requires Positive(pow) && w > 0.0 && x > 0.0
  {
    pow(x, alpha) / pow(w, 1.0 - alpha)
  }

  lemma InverseRatios(a: real, b: real)
    requires a > 0.0 && b > 0.0
    ensures a / b * (b / a) == 1.0
  {
    assert a / b * b == a;
    assert a / b * (b / a) == a / b * b / a;
  }

  lemma FactorsCancel(pow: Power, alpha: real, w: real, x: real)
    requires Positive(pow) && w > 0.0 && x > 0.0
    ensures ActFactor(pow, alpha, w, x) * WeightFactor(pow, alpha, w, x) == 1.0
  {
    InverseRatios(pow(w, 1.0 - alpha), pow(x, alpha));
  }

  /** The magnitude exceeds every value of the range, by no more than the offset that keeps it from zero. */
  lemma MagnitudeIsLargest(lo: real, hi: real)
    requires lo <= hi
    ensures forall v: real | lo <= v <= hi :: Abs(v) < Magnitude(lo, hi)
    ensures exists v: real | lo <= v <= hi :: Magnitude(lo, hi) == Abs(v) + 0.000001
  {
    assert lo <= lo <= hi && lo <= hi <= hi;
    assert Magnitude(lo, hi) == Abs(lo) + 0.000001 || Magnitude(lo, hi) == Abs(hi) + 0.000001;
  }

  /** Exponents add up. */
  ghost predicate IsPower(pow: Power)
  {
    && Positive(pow) && (forall b :: b > 0.0 ==> pow(b, 1.0) == b)
    && forall b, e, f :: b > 0.0 ==> pow(b, e + f) == pow(b, e) * pow(b, f)
  }

  /** The factors divide the largest product of the channel between both sides: after scaling, the activation's
      magnitude is the share 1 - alpha of both magnitudes and the weight's the share alpha. With alpha one half, they
      are equal. */
  lemma MagnitudesShared(pow: Power, alpha: real, w: real, x: real)
    requires IsPower(pow) && w > 0.0 && x > 0.0
    ensures x * ActFactor(pow, alpha, w, x) == pow(x, 1.0 - alpha) * pow(w, 1.0 - alpha)
    ensures w * WeightFactor(pow, alpha, w, x) == pow(x, alpha) * pow(w, alpha)
    ensures alpha == 0.5 ==> x * ActFactor(pow, alpha, w, x) == w * WeightFactor(pow, alpha, w, x)
  {
    PowerSplits(pow, x, alpha);
    PowerSplits(pow, w, alpha);
    OneShare(x, pow(x, 1.0 - alpha), pow(x, alpha), pow(w, 1.0 - alpha));
    OneShare(w, pow(w, alpha), pow(w, 1.0 - alpha), pow(x, alpha));
  }

  lemma PowerSplits(pow: Power, b: real, e: real)
    requires IsPower(pow) && b > 0.0
    ensures pow(b, e) > 0.0 && pow(b, 1.0 - e) > 0.0
    ensures b == pow(b, 1.0 - e) * pow(b, e) == pow(b, e) * pow(b, 1.0 - e)
  {
    assert pow(b, (1.0 - e) + e) == pow(b, 1.0 - e) * pow(b, e) && (1.0 - e) + e == 1.0;
  }

  lemma OneShare(x: real, a: real, b: real, w: real)
    requires b > 0.0 && x == a * b
    ensures x * (w / b) == a * w
  {
    assert w / b * b == w;
    assert x * (w / b) == a * (b * (w / b));
  }

  // ----- What a linear computes

  function Product(a: real, b: real): real { a * b }

  function Mul(a: Vec, b: Vec): (p: Vec)
    requires |a| == |b|
    ensures |p| == |a| && forall j :: 0 <= j < |a| ==> p[j] == Product(a[j], b[j])
  {
    seq(|a|, j requires 0 <= j < |a| => Product(a[j], b[j]))
  }

  lemma MulFront(a: Vec, b: Vec, n: nat)
    requires |a| == |b| && n <= |a|
    ensures Mul(a, b)[..n] == Mul(a[..n], b[..n])
  {
    var p, q := Mul(a, b)[..n], Mul(a[..n], b[..n]);
    forall j | 0 <= j < n ensures p[j] == q[j] {
      assert p[j] == Product(a[j], b[j]);
    }
  }

  ghost predicate Cancel(s: Vec, f: Vec)
  {
    |s| == |f| && forall j :: 0 <= j < |s| ==> Product(s[j], f[j]) == 1.0
  }

  lemma TermCancels(x: real, s: real, w: real, f: real)
    requires s * f == 1.0
    ensures (x * s) * (w * f) == x * w
  {
    assert (x * s) * (w * f) == (x * w) * (s * f);
  }

  /** Scaling both sides by factors that cancel leaves every dot product unchanged. */
  lemma {:induction false} DotCancel(x: Vec, w: Vec, s: Vec, f: Vec)
    requires |x| == |w| == |s| && Cancel(s, f)
    ensures Dot(Mul(x, s), Mul(w, f)) == Dot(x, w)
  {
    if x != [] {
      var n := |x| - 1;
      DotCancel(x[..n], w[..n], s[..n], f[..n]);
      MulFront(x, s, n);
      MulFront(w, f, n);
      TermCancels(x[n], s[n], w[n], f[n]);
    }
  }

  function Unit(n: nat, k: nat): (u: Vec)
    ensures |u| == n && forall j :: 0 <= j < n ==> u[j] == if j == k then 1.0 else 0.0
  {
    seq(n, j => if j == k then 1.0 else 0.0)
  }

  lemma {:induction false} DotUnit(w: Vec, k: nat, n: nat)
    requires n <= |w|
    ensures Dot(Unit(|w|, k)[..n], w[..n]) == if k < n then w[k] else 0.0
    decreases n
  {
    if n > 0 {
      DotUnit(w, k, n - 1);
      assert Unit(|w|, k)[..n][..n - 1] == Unit(|w|, k)[..n - 1] && w[..n][..n - 1] == w[..n - 1];
    }
  }

  /** Changing the weight alone keeps the output for every activation only if the weight is the same. */
  lemma OneSided(w: Vec, v: Vec)
    requires |w| == |v|
    ensures (forall x: Vec :: |x| == |w| ==> Dot(x, v) == Dot(x, w)) <==> v == w
  {
    if v != w {
      var k :| 0 <= k < |w| && w[k] != v[k];
      DotUnit(w, k, |w|);
      DotUnit(v, k, |w|);
      var u := Unit(|w|, k);
      assert u[..|w|] == u && w[..|w|] == w && v[..|w|] == v;
      assert Dot(u, v) != Dot(u, w);
    }
  }

  lemma {:induction false} DotMoves(x: Vec, s: Vec, w: Vec)
    requires |x| == |s| == |w|
    ensures Dot(Mul(x, s), w) == Dot(x, Mul(w, s))
  {
    if x != [] {
      var n := |x| - 1;
      DotMoves(x[..n], s[..n], w[..n]);
      MulFront(x, s, n);
      MulFront(w, s, n);
      TermMoves(x[n], s[n], w[n]);
    }
  }

  lemma TermMoves(x: real, s: real, w: real)
    ensures (x * s) * w == x * (w * s)
  {
  }

  /** One output channel of a converted linear: the activation scaled by `s`, the weight row by `f`, each only if it is
      quantised. */
  function Converted(x: Vec, w: Vec, s: Vec, f: Vec, actQuantized: bool, weightQuantized: bool): real
    requires |x| == |w| == |s| == |f|
  {
    Dot(if actQuantized then Mul(x, s) else x, if weightQuantized then Mul(w, f) else w)
  }

  /** It is the original output for all activations exactly if both sides are quantised or neither, or if every channel
      has a zero weight or the factor one. */
  lemma KeptExactly(w: Vec, s: Vec, f: Vec, actQuantized: bool, weightQuantized: bool)
    requires |w| == |s| && Cancel(s, f)
    ensures
      (forall x: Vec :: |x| == |w| ==> Converted(x, w, s, f, actQuantized, weightQuantized) == Dot(x, w)) <==>
      actQuantized == weightQuantized || forall j :: 0 <= j < |w| ==> w[j] == 0.0 || f[j] == 1.0
  {
    SameRow(w, s, f, actQuantized, weightQuantized);
    KeptIffSameRow(w, s, f, actQuantized, weightQuantized);
  }

  lemma KeptIffSameRow(w: Vec, s: Vec, f: Vec, actQuantized: bool, weightQuantized: bool)
    requires |w| == |s| && Cancel(s, f)
    ensures
      (forall x: Vec :: |x| == |w| ==> Converted(x, w, s, f, actQuantized, weightQuantized) == Dot(x, w)) <==>
      Effective(w, s, f, actQuantized, weightQuantized) == w
  {
    OneSided(w, Effective(w, s, f, actQuantized, weightQuantized));
    forall x: Vec | |x| == |w|
      ensures Converted(x, w, s, f, actQuantized, weightQuantized)
        == Dot(x, Effective(w, s, f, actQuantized, weightQuantized))
    {
      ConvertedIsEffective(x, w, s, f, actQuantized, weightQuantized);
    }
  }

  lemma ConvertedIsEffective(x: Vec, w: Vec, s: Vec, f: Vec, actQuantized: bool, weightQuantized: bool)
    requires |x| == |w| == |s| && Cancel(s, f)
    ensures Converted(x, w, s, f, actQuantized, weightQuantized)
      == Dot(x, Effective(w, s, f, actQuantized, weightQuantized))
  {
    if actQuantized && weightQuantized {
      DotCancel(x, w, s, f);
    } else if actQuantized {
      DotMoves(x, s, w);
    }
  }

  /** The weight row that would give the same outputs without any scaling. */
  function Effective(w: Vec, s: Vec, f: Vec, actQuantized: bool, weightQuantized: bool): (r: Vec)
    requires |w| == |s| == |f|
    ensures |r| == |w|
  {
    if actQuantized == weightQuantized then w else if actQuantized then Mul(w, s) else Mul(w, f)
  }

  lemma SameRow(w: Vec, s: Vec, f: Vec, actQuantized: bool, weightQuantized: bool)
    requires |w| == |s| && Cancel(s, f)
    ensures Effective(w, s, f, actQuantized, weightQuantized) == w <==>
      actQuantized == weightQuantized || forall j :: 0 <= j < |w| ==> w[j] == 0.0 || f[j] == 1.0
  {
    var r := Effective(w, s, f, actQuantized, weightQuantized);
    if actQuantized != weightQuantized {
      forall j | 0 <= j < |w| ensures r[j] == w[j] <==> w[j] == 0.0 || f[j] == 1.0 {
        SameChannel(w, s, f, actQuantized, weightQuantized, j);
      }
      assert r == w <==> forall j :: 0 <= j < |w| ==> r[j] == w[j];
    }
  }

  lemma SameChannel(w: Vec, s: Vec, f: Vec, actQuantized: bool, weightQuantized: bool, j: nat)
    requires |w| == |s| && Cancel(s, f) && actQuantized != weightQuantized && j < |w|
    ensures Effective(w, s, f, actQuantized, weightQuantized)[j] == w[j] <==> w[j] == 0.0 || f[j] == 1.0
  {
    assert Product(s[j], f[j]) == 1.0;
    SameTerm(w[j], s[j], f[j]);
  }

  lemma SameTerm(w: real, s: real, f: real)
    requires s * f == 1.0
    ensures w * f == w <==> w == 0.0 || f == 1.0
    ensures w * s == w <==> w == 0.0 || f == 1.0
  {
    if w != 0.0 {
      Cancelled(w, f);
      Cancelled(w, s);
    }
  }

  lemma Cancelled(w: real, c: real)
    requires w != 0.0
    ensures w * c == w <==> c == 1.0
  {
    assert w * c == w ==> c == w / w;
  }
}
