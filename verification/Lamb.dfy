/**
 The LAMB optimizer (optim/_lamb.py `Lamb.step`, optim/_functional.py `_lamb_impl`) over the reals. A parameter is the
 vector of its elements; the square root is a parameter of the model.
 */
module Lamb {
  import opened Basics
  import opened LinearAlgebra

  type Root = real -> real

  ghost predicate IsRoot(sqrt: Root)
  {
    forall x :: x >= 0.0 ==> sqrt(x) >= 0.0 && sqrt(x) * sqrt(x) == x
  }

  datatype Config = Config(beta1: real, beta2: real, lr: real, decay: real, eps: real) {
    ghost predicate Valid()
    {
      0.0 <= beta1 < 1.0 && 0.0 <= beta2 < 1.0 && eps > 0.0
    }
  }

  function Power(b: real, n: nat): real
  {
    if n == 0 then 1.0 else Power(b, n - 1) * b
  }

  lemma {:induction false} PowerBelow(b: real, n: nat)
    requires 0.0 <= b < 1.0
    ensures 0.0 <= Power(b, n) <= 1.0 && (n > 0 ==> Power(b, n) < 1.0)
  {
    if n > 0 {
      PowerBelow(b, n - 1);
      FractionTimes(Power(b, n - 1), b);
    }
  }

  lemma PowerStep(b: real, n: nat)
    requires n > 0
    ensures Power(b, n) == Power(b, n - 1) * b
  {
  }

  lemma FractionTimes(p: real, b: real)
    requires 0.0 <= p <= 1.0 && 0.0 <= b
    ensures 0.0 <= p * b <= b
  {
    assert b - p * b == (1.0 - p) * b;
  }

  // ----- Moments

  /** `mul_(beta)` and `add_(g, alpha=1 - beta)` for one element. */
  function Blend(m: real, g: real, beta: real): real
  {
    m * beta + g * (1.0 - beta)
  }

  function Decayed(m: Vec, g: Vec, beta: real): (r: Vec)
    requires |m| == |g|
    ensures |r| == |m| && forall k :: 0 <= k < |m| ==> r[k] == Blend(m[k], g[k], beta)
  {
    seq(|m|, k requires 0 <= k < |m| => Blend(m[k], g[k], beta))
  }

  function Squares(g: Vec): (r: Vec)
    ensures |r| == |g| && forall k :: 0 <= k < |g| ==> r[k] == g[k] * g[k]
  {
    seq(|g|, k requires 0 <= k < |g| => g[k] * g[k])
  }

  /** The running average of one element's gradients. */
  function Average(gs: seq<real>, beta: real): real
  {
    if gs == [] then 0.0 else Blend(Average(gs[..|gs| - 1], beta), gs[|gs| - 1], beta)
  }

  /** The weights of `n` gradients in their running average: the newest has 1 - beta, the others decay. */
  function Weights(beta: real, n: nat): (ws: seq<real>)
    ensures |ws| == n
  {
    if n == 0 then [] else Scale(Weights(beta, n - 1), beta) + [1.0 - beta]
  }

  lemma ScaleFront(v: Vec, c: real)
    requires v != []
    ensures Scale(v, c)[..|v| - 1] == Scale(v[..|v| - 1], c)
  {
    var a, b := Scale(v, c)[..|v| - 1], Scale(v[..|v| - 1], c);
    forall k | 0 <= k < |v| - 1 ensures a[k] == b[k] {
      assert a[k] == v[k] * c;
    }
  }

  lemma {:induction false} DotScale(a: Vec, b: Vec, c: real)
    requires |a| == |b|
    ensures Dot(Scale(a, c), b) == c * Dot(a, b)
  {
    if a != [] {
      var n := |a| - 1;
      DotScale(a[..n], b[..n], c);
      ScaleFront(a, c);
      Distribute(c, Dot(a[..n], b[..n]), a[n], b[n]);
    }
  }

  lemma Distribute(c: real, d: real, x: real, y: real)
    ensures c * d + (x * c) * y == c * (d + x * y)
  {
  }

  lemma {:induction false} SumScale(a: Vec, c: real)
    ensures SumOf(Scale(a, c)) == c * SumOf(a)
  {
    if a != [] {
      SumScale(a[..|a| - 1], c);
      ScaleFront(a, c);
    }
  }

  /** The running average is the weighted sum of all gradients. */
  lemma {:induction false} AverageIsSum(gs: seq<real>, beta: real)
    ensures Average(gs, beta) == Dot(Weights(beta, |gs|), gs)
  {
    if gs != [] {
      var n := |gs| - 1;
      AverageIsSum(gs[..n], beta);
      DotScale(Weights(beta, n), gs[..n], beta);
      assert Weights(beta, n + 1)[..n] == Scale(Weights(beta, n), beta);
    }
  }

  lemma SumSnoc(xs: seq<real>, y: real)
    ensures SumOf(xs + [y]) == SumOf(xs) + y
  {
    assert (xs + [y])[..|xs|] == xs;
  }

  lemma WeightsSum(beta: real, n: nat)
    ensures SumOf(Weights(beta, n)) == 1.0 - Power(beta, n)
  {
    WeightsSumTo(beta, n, Power(beta, n));
  }

  lemma {:induction false} WeightsSumTo(beta: real, n: nat, p: real)
    requires p == Power(beta, n)
    ensures SumOf(Weights(beta, n)) == 1.0 - p
    decreases n
  {
    if n > 0 {
      var older := Power(beta, n - 1);
      WeightsSumTo(beta, n - 1, older);
      PowerStep(beta, n);
      NextWeightsSum(beta, n, older, p);
    }
  }

  lemma NextWeightsSum(beta: real, n: nat, p: real, q: real)
    requires n > 0 && SumOf(Weights(beta, n - 1)) == 1.0 - p && q == p * beta
    ensures SumOf(Weights(beta, n)) == 1.0 - q
  {
    OneMoreWeight(Weights(beta, n - 1), beta, p, q);
  }

  lemma OneMoreWeight(ws: seq<real>, beta: real, p: real, q: real)
    requires SumOf(ws) == 1.0 - p && q == p * beta
    ensures SumOf(Scale(ws, beta) + [1.0 - beta]) == 1.0 - q
  {
    SumScale(ws, beta);
    SumSnoc(Scale(ws, beta), 1.0 - beta);
    ScaledRest(beta, p, SumOf(ws));
  }

  lemma ScaledRest(b: real, p: real, s: real)
    requires s == 1.0 - p
    ensures b * s + (1.0 - b) == 1.0 - p * b
  {
    assert b * s == b - p * b;
  }

  ghost predicate NonNegative(ws: seq<real>)
  {
    forall k :: 0 <= k < |ws| ==> ws[k] >= 0.0
  }

  lemma ScaleNonNegative(ws: seq<real>, c: real)
    requires NonNegative(ws) && c >= 0.0
    ensures NonNegative(Scale(ws, c))
  {
    forall k | 0 <= k < |ws| ensures Scale(ws, c)[k] >= 0.0 {
      ProductNonNegative(ws[k], c);
    }
  }

  lemma ProductNonNegative(a: real, b: real)
    requires a >= 0.0 && b >= 0.0
    ensures a * b >= 0.0
  {
  }

  lemma {:induction false} WeightsNonNegative(beta: real, n: nat)
    requires 0.0 <= beta < 1.0
    ensures NonNegative(Weights(beta, n))
  {
    if n > 0 {
      WeightsNonNegative(beta, n - 1);
      ScaleNonNegative(Weights(beta, n - 1), beta);
    }
  }

  /** Each gradient weighs `beta` times as much as the next one. */
  ghost predicate Geometric(ws: seq<real>, beta: real)
  {
    forall t :: 1 <= t < |ws| ==> ws[t - 1] == ws[t] * beta
  }

  lemma {:induction false} WeightsGeometric(beta: real, n: nat)
    ensures Geometric(Weights(beta, n), beta)
  {
    if n > 0 {
      WeightsGeometric(beta, n - 1);
      LastWeight(beta, n - 1);
      OneMoreGeometric(Weights(beta, n - 1), beta, 1.0 - beta);
    }
  }

  lemma OneMoreGeometric(ws: seq<real>, beta: real, x: real)
    requires Geometric(ws, beta) && (ws != [] ==> ws[|ws| - 1] == x)
    ensures Geometric(Scale(ws, beta) + [x], beta)
  {
    ScaleGeometric(ws, beta, beta);
    if ws != [] {
      assert Scale(ws, beta)[|ws| - 1] == x * beta;
    }
    GeometricSnoc(Scale(ws, beta), beta, x);
  }

  lemma GeometricSnoc(ws: seq<real>, beta: real, x: real)
    requires Geometric(ws, beta) && (ws != [] ==> ws[|ws| - 1] == x * beta)
    ensures Geometric(ws + [x], beta)
  {
  }

  lemma LastWeight(beta: real, n: nat)
    ensures n > 0 ==> Weights(beta, n)[n - 1] == 1.0 - beta
  {
  }

  lemma ScaleGeometric(ws: seq<real>, beta: real, c: real)
    requires Geometric(ws, beta)
    ensures Geometric(Scale(ws, c), beta)
  {
    forall t | 1 <= t < |ws| ensures Scale(ws, c)[t - 1] == Scale(ws, c)[t] * beta {
      Reordered(ws[t], beta, c);
    }
  }

  lemma Reordered(w: real, beta: real, c: real)
    ensures w * beta * c == w * c * beta
  {
  }

  /** The bias-corrected first moment is a convex combination of all gradients seen. */
  lemma CorrectedIsConvex(gs: seq<real>, beta: real) returns (ws: seq<real>)
    requires 0.0 <= beta < 1.0 && gs != []
    ensures Power(beta, |gs|) < 1.0 && |ws| == |gs| && NonNegative(ws) && SumOf(ws) == 1.0 && Geometric(ws, beta)
    ensures Average(gs, beta) / (1.0 - Power(beta, |gs|)) == Dot(ws, gs)
  {
    PowerBelow(beta, |gs|);
    var raw, c := Weights(beta, |gs|), 1.0 - Power(beta, |gs|);
    WeightsSum(beta, |gs|);
    AverageIsSum(gs, beta);
    WeightsNonNegative(beta, |gs|);
    WeightsGeometric(beta, |gs|);
    ws := Normalised(raw, gs, beta, c);
  }

  /** Dividing weights by their sum. */
  lemma Normalised(raw: seq<real>, gs: seq<real>, beta: real, c: real) returns (ws: seq<real>)
    requires Geometric(raw, beta) && NonNegative(raw) && |raw| == |gs| && SumOf(raw) == c > 0.0
    ensures Geometric(ws, beta)
    ensures |ws| == |raw| && NonNegative(ws) && SumOf(ws) == 1.0 && Dot(ws, gs) == Dot(raw, gs) / c
  {
    ws := Scale(raw, 1.0 / c);
    ScaleNonNegative(raw, 1.0 / c);
    ScaleGeometric(raw, beta, 1.0 / c);
    DividedSum(raw, c, 1.0 / c);
    DividedDot(raw, gs, c, 1.0 / c);
  }

  lemma DividedSum(raw: seq<real>, c: real, r: real)
    requires SumOf(raw) == c > 0.0 && r == 1.0 / c
    ensures SumOf(Scale(raw, r)) == 1.0
  {
    SumScale(raw, r);
    InverseTimes(c, SumOf(raw), r);
  }

  lemma DividedDot(raw: seq<real>, gs: seq<real>, c: real, r: real)
    requires |raw| == |gs| && c > 0.0 && r == 1.0 / c
    ensures Dot(Scale(raw, r), gs) == Dot(raw, gs) / c
  {
    var d, e := DotScaled(raw, gs, r);
    ScaledIsDivided(c, d, r, e);
  }

  lemma DotScaled(raw: seq<real>, gs: seq<real>, r: real) returns (d: real, e: real)
    requires |raw| == |gs|
    ensures d == Dot(raw, gs) && e == Dot(Scale(raw, r), gs) && e == r * d
  {
    DotScale(raw, gs, r);
    d, e := Dot(raw, gs), Dot(Scale(raw, r), gs);
  }

  lemma ScaledIsDivided(c: real, d: real, r: real, e: real)
    requires c > 0.0 && r == 1.0 / c && e == r * d
    ensures e == d / c
  {
    InverseTimes(c, d, r);
  }

  lemma InverseTimes(c: real, x: real, r: real)
    requires c > 0.0 && r == 1.0 / c
    ensures r * x == x / c && (x == c ==> r * x == 1.0)
  {
  }

  // ----- One update

  function Minus(a: Vec, b: Vec): (r: Vec)
    requires |a| == |b|
    ensures |r| == |a| && forall k :: 0 <= k < |a| ==> r[k] == a[k] - b[k]
  {
    seq(|a|, k requires 0 <= k < |a| => a[k] - b[k])
  }

  function Plus(a: Vec, b: Vec): (r: Vec)
    requires |a| == |b|
    ensures |r| == |a| && forall k :: 0 <= k < |a| ==> r[k] == a[k] + b[k]
  {
    seq(|a|, k requires 0 <= k < |a| => a[k] + b[k])
  }

  function Norm(sqrt: Root, x: Vec): real { sqrt(Dot(x, x)) }

  /** The state of one parameter. */
  datatype Slot = Slot(step: nat, m: Vec, v: Vec)

  function Corrections(cfg: Config, step: nat): (c: (real, real))
    requires cfg.Valid() && step > 0
    ensures 0.0 < c.0 <= 1.0 && 0.0 < c.1 <= 1.0
  {
    PowerBelow(cfg.beta1, step);
    PowerBelow(cfg.beta2, step);
    (1.0 - Power(cfg.beta1, step), 1.0 - Power(cfg.beta2, step))
  }

  /** The denominator of one element is positive. */
  function Denominator(sqrt: Root, v: real, c: real, eps: real): (d: real)
    requires IsRoot(sqrt) && v >= 0.0 && c > 0.0 && eps > 0.0
    ensures d > 0.0
  {
    QuotientNonNegative(v, c);
    sqrt(v / c) + eps
  }

  lemma QuotientNonNegative(v: real, c: real)
    requires v >= 0.0 && c > 0.0
    ensures v / c >= 0.0
  {
  }

  /** `adam_step` */
  function AdamStep(sqrt: Root, cfg: Config, slot: Slot, param: Vec): (a: Vec)
    requires IsRoot(sqrt) && cfg.Valid() && slot.step > 0 && |slot.m| == |slot.v| == |param| && NonNegative(slot.v)
    ensures |a| == |param|
  {
    var c := Corrections(cfg, slot.step);
    var ratio := seq(|param|, k requires 0 <= k < |param| =>
      slot.m[k] / c.0 / Denominator(sqrt, slot.v[k], c.1, cfg.eps));
    if cfg.decay != 0.0 then Plus(ratio, Scale(param, cfg.decay)) else ratio
  }

  /** `true_ratio` */
  function TrustRatio(sqrt: Root, param: Vec, adam: Vec): real
  {
    var w, a := Norm(sqrt, param), Norm(sqrt, adam);
    if w == 0.0 || a == 0.0 then 1.0 else w / a
  }

  function StepSize(lr: real, ratio: real): real { -lr * ratio }

  function Moved(sqrt: Root, cfg: Config, param: Vec, adam: Vec): (p: Vec)
    requires |param| == |adam|
    ensures |p| == |param|
  {
    Plus(param, Scale(adam, StepSize(cfg.lr, TrustRatio(sqrt, param, adam))))
  }

  lemma {:induction false} SquaredScale(x: Vec, c: real)
    ensures Dot(Scale(x, c), Scale(x, c)) == c * c * Dot(x, x)
  {
    DotScale(x, Scale(x, c), c);
    DotCommutes(x, Scale(x, c));
    DotScale(x, x, c);
    Nested(c, Dot(Scale(x, c), x), Dot(x, x));
  }

  lemma Nested(c: real, d: real, e: real)
    requires d == c * e
    ensures c * d == c * c * e
  {
  }

  lemma {:induction false} DotCommutes(a: Vec, b: Vec)
    requires |a| == |b|
    ensures Dot(a, b) == Dot(b, a)
  {
    if a != [] {
      DotCommutes(a[..|a| - 1], b[..|b| - 1]);
    }
  }

  lemma MoveIsScaled(p: Vec, d: Vec)
    requires |p| == |d|
    ensures Minus(Plus(p, d), p) == d
  {
  }

  /** With both norms nonzero, a parameter moves by lr times its own length, whatever the gradients were. */
  lemma MoveLength(sqrt: Root, cfg: Config, param: Vec, adam: Vec)
    requires IsRoot(sqrt) && |param| == |adam| && Norm(sqrt, param) != 0.0 && Norm(sqrt, adam) != 0.0
    ensures
      var d := Minus(Moved(sqrt, cfg, param, adam), param);
      Dot(d, d) == cfg.lr * cfg.lr * Dot(param, param)
  {
    var c, target := StepOf(sqrt, cfg, param, adam);
    SquaredMove(param, adam, c, target);
  }

  lemma NormOf(sqrt: Root, x: Vec) returns (n: real, nn: real)
    requires IsRoot(sqrt)
    ensures n == Norm(sqrt, x) && nn == Dot(x, x) && n * n == nn
  {
    DotNonNegative(x);
    n, nn := Norm(sqrt, x), Dot(x, x);
  }

  /** The factor of the move, and the squared length it leads to. */
  lemma StepOf(sqrt: Root, cfg: Config, param: Vec, adam: Vec) returns (c: real, target: real)
    requires IsRoot(sqrt) && |param| == |adam| && Norm(sqrt, param) != 0.0 && Norm(sqrt, adam) != 0.0
    ensures Moved(sqrt, cfg, param, adam) == Plus(param, Scale(adam, c))
    ensures c * c * Dot(adam, adam) == target && target == cfg.lr * cfg.lr * Dot(param, param)
  {
    var w, ww := NormOf(sqrt, param);
    var a, aa := NormOf(sqrt, adam);
    var ratio := TrustRatio(sqrt, param, adam);
    c := StepSize(cfg.lr, ratio);
    target := cfg.lr * cfg.lr * ww;
    RatioCancels(cfg.lr, w, a, ratio, c, aa, ww);
  }

  lemma SquaredMove(param: Vec, adam: Vec, c: real, target: real)
    requires |param| == |adam| && c * c * Dot(adam, adam) == target
    ensures
      var d := Minus(Plus(param, Scale(adam, c)), param);
      Dot(d, d) == target
  {
    MoveIsScaled(param, Scale(adam, c));
    SquaredScale(adam, c);
  }

  lemma {:induction false} DotNonNegative(x: Vec)
    ensures Dot(x, x) >= 0.0
  {
    if x != [] {
      DotNonNegative(x[..|x| - 1]);
      SquareNonNegative(x[|x| - 1]);
    }
  }

  lemma SquareNonNegative(x: real)
    ensures x * x >= 0.0
  {
  }

  lemma RatioCancels(lr: real, w: real, a: real, ratio: real, c: real, aa: real, ww: real)
    requires a != 0.0 && ratio == w / a && c == -lr * ratio && a * a == aa && w * w == ww
    ensures c * c * aa == lr * lr * ww
  {
    assert ratio * a == w;
    assert c * a == -(lr * w) by {
      assert c * a == -lr * (ratio * a);
    }
    assert c * c * aa == (c * a) * (c * a);
    assert (lr * w) * (lr * w) == lr * lr * (w * w);
  }

  // ----- Moments of whole runs

  function Zeros(n: nat): (z: Vec)
    ensures |z| == n && forall k :: 0 <= k < n ==> z[k] == 0.0
  {
    seq(n, _ => 0.0)
  }

  ghost predicate AllWide(gs: seq<Vec>, n: nat)
  {
    forall t :: 0 <= t < |gs| ==> |gs[t]| == n
  }

  /** The moment after gradients `gs`. */
  function Moment(gs: seq<Vec>, beta: real, n: nat): (m: Vec)
    requires AllWide(gs, n)
    ensures |m| == n
  {
    if gs == [] then Zeros(n) else Decayed(Moment(gs[..|gs| - 1], beta, n), gs[|gs| - 1], beta)
  }

  /** Each element of the moment is the running average of that element's gradients. */
  lemma {:induction false} MomentAt(gs: seq<Vec>, beta: real, n: nat, k: nat)
    requires AllWide(gs, n) && k < n
    ensures Moment(gs, beta, n)[k] == Average(ColumnAt(gs, k), beta)
  {
    if gs != [] {
      var t := |gs| - 1;
      MomentAt(gs[..t], beta, n, k);
      assert ColumnAt(gs, k)[..t] == ColumnAt(gs[..t], k);
    }
  }

  function AllSquares(gs: seq<Vec>): (r: seq<Vec>)
    ensures |r| == |gs| && forall t :: 0 <= t < |gs| ==> r[t] == Squares(gs[t])
  {
    seq(|gs|, t requires 0 <= t < |gs| => Squares(gs[t]))
  }

  lemma {:induction false} SquareMomentNonNegative(gs: seq<Vec>, beta: real, n: nat)
    requires AllWide(gs, n) && 0.0 <= beta < 1.0
    ensures NonNegative(Moment(AllSquares(gs), beta, n))
  {
    if gs != [] {
      var t := |gs| - 1;
      SquareMomentNonNegative(gs[..t], beta, n);
      assert AllSquares(gs)[..t] == AllSquares(gs[..t]);
      DecayedNonNegative(Moment(AllSquares(gs[..t]), beta, n), gs[t], beta);
    }
  }

  lemma DecayedNonNegative(m: Vec, g: Vec, beta: real)
    requires |m| == |g| && NonNegative(m) && 0.0 <= beta < 1.0
    ensures NonNegative(Decayed(m, Squares(g), beta))
  {
    forall k | 0 <= k < |m| ensures Blend(m[k], g[k] * g[k], beta) >= 0.0 {
      SquareNonNegative(g[k]);
      ProductNonNegative(m[k], beta);
      ProductNonNegative(g[k] * g[k], 1.0 - beta);
    }
  }

  /** A slot is what its parameter's gradients make of it. */
  ghost predicate SlotHolds(cfg: Config, slot: Slot, gs: seq<Vec>, n: nat)
  {
    && AllWide(gs, n) && slot.step == |gs| && slot.m == Moment(gs, cfg.beta1, n)
    && slot.v == Moment(AllSquares(gs), cfg.beta2, n)
  }

  /** In every reachable state, each element of the bias-corrected first moment is a convex combination of all the
      gradients that element has seen. */
  lemma FirstMomentConvex(cfg: Config, slot: Slot, gs: seq<Vec>, n: nat, k: nat) returns (ws: seq<real>)
    requires cfg.Valid() && SlotHolds(cfg, slot, gs, n) && gs != [] && k < n
    ensures |ws| == |gs| && NonNegative(ws) && SumOf(ws) == 1.0 && Geometric(ws, cfg.beta1)
    ensures slot.m[k] / Corrections(cfg, slot.step).0 == Dot(ws, ColumnAt(gs, k))
  {
    MomentAt(gs, cfg.beta1, n, k);
    ws := CorrectedIsConvex(ColumnAt(gs, k), cfg.beta1);
  }

  /** The same for the second moment and the squares of the gradients. */
  lemma SecondMomentConvex(cfg: Config, slot: Slot, gs: seq<Vec>, n: nat, k: nat) returns (ws: seq<real>)
    requires cfg.Valid() && SlotHolds(cfg, slot, gs, n) && gs != [] && k < n
    ensures |ws| == |gs| && NonNegative(ws) && SumOf(ws) == 1.0 && Geometric(ws, cfg.beta2)
    ensures slot.v[k] / Corrections(cfg, slot.step).1 == Dot(ws, SquaresAt(gs, k))
  {
    MomentAt(AllSquares(gs), cfg.beta2, n, k);
    ColumnOfSquares(gs, k);
    ws := CorrectedIsConvex(SquaresAt(gs, k), cfg.beta2);
  }

  lemma ColumnOfSquares(gs: seq<Vec>, k: nat)
    requires forall t :: 0 <= t < |gs| ==> k < |gs[t]|
    ensures ColumnAt(AllSquares(gs), k) == SquaresAt(gs, k)
  {
    forall t | 0 <= t < |gs| ensures AllSquares(gs)[t][k] == SquaresAt(gs, k)[t] {
      assert AllSquares(gs)[t] == Squares(gs[t]);
    }
  }

  /** The squares of one element's gradients. */
  function SquaresAt(gs: seq<Vec>, k: nat): (r: seq<real>)
    requires forall t :: 0 <= t < |gs| ==> k < |gs[t]|
    ensures |r| == |gs|
  {
    seq(|gs|, t requires 0 <= t < |gs| => gs[t][k] * gs[t][k])
  }

  // ----- What an update does to one element

  /** In every reachable state: the mean of the gradients over the root of the mean of their squares plus epsilon, both
      means with weights that sum to one and fall by beta from each gradient to the one before it; plus the decay. */
  lemma AdamIsRatio(sqrt: Root, cfg: Config, slot: Slot, gs: seq<Vec>, param: Vec, k: nat)
    returns (ws: seq<real>, us: seq<real>)
    requires IsRoot(sqrt) && cfg.Valid() && SlotHolds(cfg, slot, gs, |param|) && gs != [] && k < |param|
    ensures |ws| == |gs| && NonNegative(ws) && SumOf(ws) == 1.0 && Geometric(ws, cfg.beta1)
    ensures |us| == |gs| && NonNegative(us) && SumOf(us) == 1.0 && Geometric(us, cfg.beta2)
    ensures NonNegative(slot.v) && sqrt(Dot(us, SquaresAt(gs, k))) + cfg.eps > 0.0
    ensures AdamStep(sqrt, cfg, slot, param)[k] ==
      Dot(ws, ColumnAt(gs, k)) / (sqrt(Dot(us, SquaresAt(gs, k))) + cfg.eps) + cfg.decay * param[k]
  {
    SquareMomentNonNegative(gs, cfg.beta2, |param|);
    ws := FirstMomentConvex(cfg, slot, gs, |param|, k);
    us := SecondMomentConvex(cfg, slot, gs, |param|, k);
    AdamAt(sqrt, cfg, slot, param, k);
  }

  lemma AdamAt(sqrt: Root, cfg: Config, slot: Slot, param: Vec, k: nat)
    requires IsRoot(sqrt) && cfg.Valid() && slot.step > 0 && |slot.m| == |slot.v| == |param| && NonNegative(slot.v)
    requires k < |param|
    ensures
      var c := Corrections(cfg, slot.step);
      sqrt(slot.v[k] / c.1) + cfg.eps > 0.0
      && AdamStep(sqrt, cfg, slot, param)[k] ==
         slot.m[k] / c.0 / (sqrt(slot.v[k] / c.1) + cfg.eps) + cfg.decay * param[k]
  {
    var c := Corrections(cfg, slot.step);
    assert Denominator(sqrt, slot.v[k], c.1, cfg.eps) == sqrt(slot.v[k] / c.1) + cfg.eps;
    if cfg.decay != 0.0 {
      assert Scale(param, cfg.decay)[k] == param[k] * cfg.decay;
    }
  }

  /** After any number of equal gradients, each element's step has the gradient's sign and a size just below one. */
  lemma EqualGradients(sqrt: Root, cfg: Config, slot: Slot, gs: seq<Vec>, param: Vec, k: nat, g: real)
    requires IsRoot(sqrt) && cfg.Valid() && SlotHolds(cfg, slot, gs, |param|) && gs != [] && k < |param|
    requires forall t :: 0 <= t < |gs| ==> gs[t][k] == g
    ensures NonNegative(slot.v)
    ensures AdamStep(sqrt, cfg, slot, param)[k] == g / (Abs(g) + cfg.eps) + cfg.decay * param[k]
  {
    var ws, us := AdamIsRatio(sqrt, cfg, slot, gs, param, k);
    ConstantMean(ws, ColumnAt(gs, k), g);
    SquaresConstant(sqrt, us, gs, k, g);
    EpsilonAdded(g, cfg.eps);
    SameQuotient(Dot(ws, ColumnAt(gs, k)), sqrt(Dot(us, SquaresAt(gs, k))) + cfg.eps, g, Abs(g) + cfg.eps);
  }

  lemma EpsilonAdded(g: real, eps: real)
    requires eps > 0.0
    ensures Abs(g) + eps > 0.0
  {
  }

  lemma SameQuotient(x: real, y: real, x': real, y': real)
    requires x == x' && y == y' > 0.0
    ensures x / y == x' / y'
  {
  }

  lemma SquaresConstant(sqrt: Root, us: seq<real>, gs: seq<Vec>, k: nat, g: real)
    requires IsRoot(sqrt) && |us| == |gs| && SumOf(us) == 1.0
    requires forall t :: 0 <= t < |gs| ==> k < |gs[t]| && gs[t][k] == g
    ensures sqrt(Dot(us, SquaresAt(gs, k))) == Abs(g)
  {
    ConstantMean(us, SquaresAt(gs, k), g * g);
    RootOfSquare(sqrt, g);
  }

  lemma {:induction false} ConstantMean(ws: seq<real>, xs: seq<real>, x: real)
    requires |ws| == |xs| && forall t :: 0 <= t < |xs| ==> xs[t] == x
    ensures Dot(ws, xs) == SumOf(ws) * x
  {
    if ws != [] {
      ConstantMean(ws[..|ws| - 1], xs[..|xs| - 1], x);
    }
  }

  lemma RootOfSquare(sqrt: Root, g: real)
    requires IsRoot(sqrt)
    ensures sqrt(g * g) == Abs(g)
  {
    SquareNonNegative(g);
    var r, a := sqrt(g * g), Abs(g);
    assert r * r == a * a;
    SameRoot(r, a);
  }

  lemma SameRoot(r: real, a: real)
    requires r >= 0.0 && a >= 0.0 && r * r == a * a
    ensures r == a
  {
    if r + a != 0.0 {
      assert (r - a) * (r + a) == 0.0;
      ZeroFactor(r - a, r + a);
    }
  }

  lemma ZeroFactor(x: real, y: real)
    requires x * y == 0.0 && y != 0.0
    ensures x == 0.0
  {
  }

  /** Without decay the step of an element has the sign of its first moment. */
  lemma StepHasMomentSign(sqrt: Root, cfg: Config, slot: Slot, param: Vec, k: nat)
    requires IsRoot(sqrt) && cfg.Valid() && slot.step > 0 && |slot.m| == |slot.v| == |param| && NonNegative(slot.v)
    requires k < |param| && cfg.decay == 0.0
    ensures AdamStep(sqrt, cfg, slot, param)[k] > 0.0 <==> slot.m[k] > 0.0
    ensures AdamStep(sqrt, cfg, slot, param)[k] < 0.0 <==> slot.m[k] < 0.0
  {
    AdamAt(sqrt, cfg, slot, param, k);
    var c := Corrections(cfg, slot.step);
    QuotientSign(slot.m[k], c.0);
    QuotientSign(slot.m[k] / c.0, sqrt(slot.v[k] / c.1) + cfg.eps);
  }

  lemma QuotientSign(x: real, c: real)
    requires c > 0.0
    ensures (x / c > 0.0 <==> x > 0.0) && (x / c < 0.0 <==> x < 0.0)
  {
  }

  /** All elements move against their steps by one common factor: the learning rate times the ratio of the norms of
      parameter and step, or the learning rate itself if one of these is zero. */
  lemma MovesAgainst(sqrt: Root, cfg: Config, param: Vec, adam: Vec) returns (c: real)
    requires IsRoot(sqrt) && |param| == |adam|
    ensures forall k :: 0 <= k < |param| ==> Moved(sqrt, cfg, param, adam)[k] == param[k] - c * adam[k]
    ensures
      if Norm(sqrt, param) == 0.0 || Norm(sqrt, adam) == 0.0 then c == cfg.lr
      else c * Norm(sqrt, adam) == cfg.lr * Norm(sqrt, param)
    ensures cfg.lr >= 0.0 ==> c >= 0.0
    ensures cfg.lr >= 0.0 ==> forall k :: 0 <= k < |param| ==>
      (Moved(sqrt, cfg, param, adam)[k] - param[k]) * adam[k] <= 0.0
  {
    var w, ww := NormOf(sqrt, param);
    var a, aa := NormOf(sqrt, adam);
    var ratio := TrustRatio(sqrt, param, adam);
    c := cfg.lr * ratio;
    DotNonNegative(param);
    DotNonNegative(adam);
    RatioFactor(cfg.lr, w, a, ratio, c);
    forall k | 0 <= k < |param|
      ensures Moved(sqrt, cfg, param, adam)[k] == param[k] - c * adam[k]
      ensures cfg.lr >= 0.0 ==> (Moved(sqrt, cfg, param, adam)[k] - param[k]) * adam[k] <= 0.0
    {
      ElementMoves(param, adam, cfg.lr, ratio, c, k);
    }
  }

  lemma RatioFactor(lr: real, w: real, a: real, ratio: real, c: real)
    requires w >= 0.0 && a >= 0.0 && c == lr * ratio && ratio == if w == 0.0 || a == 0.0 then 1.0 else w / a
    ensures if w == 0.0 || a == 0.0 then c == lr else c * a == lr * w
    ensures lr >= 0.0 ==> c >= 0.0
  {
    if !(w == 0.0 || a == 0.0) {
      assert ratio * a == w;
      assert c * a == lr * (ratio * a);
      QuotientNonNegative(w, a);
      if lr >= 0.0 {
        ProductNonNegative(lr, ratio);
      }
    }
  }

  lemma ElementMoves(param: Vec, adam: Vec, lr: real, ratio: real, c: real, k: nat)
    requires |param| == |adam| && k < |param| && c == lr * ratio && (lr >= 0.0 ==> c >= 0.0)
    ensures
      var p := Plus(param, Scale(adam, StepSize(lr, ratio)))[k];
      p == param[k] - c * adam[k] && (lr >= 0.0 ==> (p - param[k]) * adam[k] <= 0.0)
  {
    var p, x := Plus(param, Scale(adam, StepSize(lr, ratio)))[k], adam[k];
    assert p == param[k] + x * (-lr * ratio);
    assert x * (-lr * ratio) == -(c * x);
    if lr >= 0.0 {
      SquareNonNegative(x);
      ProductNonNegative(c, x * x);
      assert (p - param[k]) * x == -(c * (x * x));
    }
  }

  /** Lazy initialisation and the new step count. */
  function Opened(state: map<nat, Slot>, i: nat, n: nat): (slot: Slot)
    ensures slot.step > 0
  {
    var slot := if i in state then state[i] else Slot(0, Zeros(n), Zeros(n));
    slot.(step := slot.step + 1)
  }

  function Advanced(cfg: Config, slot: Slot, g: Vec): (r: Slot)
    requires |slot.m| == |slot.v| == |g|
    ensures r.step == slot.step && |r.m| == |r.v| == |g|
  {
    slot.(m := Decayed(slot.m, g, cfg.beta1), v := Decayed(slot.v, Squares(g), cfg.beta2))
  }

  /** The state holds the moments of exactly the gradients seen; a parameter without any has no state. */
  ghost predicate StateHolds(cfg: Config, params: seq<Vec>, state: map<nat, Slot>, seen: seq<seq<Vec>>)
  {
    && |seen| == |params|
    && (forall i :: 0 <= i < |params| ==>
          if i in state then seen[i] != [] && SlotHolds(cfg, state[i], seen[i], |params[i]|) else seen[i] == [])
  }

  lemma AdvancedHolds(cfg: Config, state: map<nat, Slot>, i: nat, gs: seq<Vec>, g: Vec, n: nat)
    requires cfg.Valid() && |g| == n
    requires if i in state then gs != [] && SlotHolds(cfg, state[i], gs, n) else gs == []
    ensures |Opened(state, i, n).m| == |Opened(state, i, n).v| == n
    ensures SlotHolds(cfg, Advanced(cfg, Opened(state, i, n), g), gs + [g], n)
    ensures NonNegative(Advanced(cfg, Opened(state, i, n), g).v)
  {
    var all := gs + [g];
    assert all[..|gs|] == gs;
    assert AllSquares(all)[..|gs|] == AllSquares(gs);
    SquareMomentNonNegative(all, cfg.beta2, n);
  }

  function Appended(seen: seq<seq<Vec>>, grads: seq<Option<Vec>>): (r: seq<seq<Vec>>)
    requires |seen| == |grads|
    ensures |r| == |seen|
    ensures forall i :: 0 <= i < |r| ==> r[i] == if grads[i].Some? then seen[i] + [grads[i].value] else seen[i]
  {
    seq(|seen|, i requires 0 <= i < |seen| => if grads[i].Some? then seen[i] + [grads[i].value] else seen[i])
  }

  /** A gradient has the shape of its parameter. */
  ghost predicate Shaped(params: seq<Vec>, grads: seq<Option<Vec>>)
  {
    |grads| == |params| && forall i :: 0 <= i < |params| && grads[i].Some? ==> |grads[i].value| == |params[i]|
  }

  /** The positions that have a gradient, each once. */
  ghost predicate Listed(work: seq<nat>, grads: seq<Option<Vec>>, n: nat)
    requires n <= |grads|
  {
    && (forall w :: 0 <= w < |work| ==> work[w] < n && grads[work[w]].Some?)
    && (forall i :: 0 <= i < n && grads[i].Some? ==> i in work)
    && (forall w, u :: 0 <= w < u < |work| ==> work[w] < work[u])
  }

  /** The first `n` parameters are listed and counted, the other states are as before. */
  ghost predicate Counted(params: seq<Vec>, grads: seq<Option<Vec>>, before: map<nat, Slot>, state: map<nat, Slot>,
                          work: seq<nat>, n: nat)
    requires n <= |params| == |grads|
  {
    && Listed(work, grads, n) && (forall i :: i in state <==> i in before || i in work)
    && (forall i :: i in state && i < |params| && i in work ==> state[i] == Opened(before, i, |params[i]|))
    && (forall i :: i in state && i !in work ==> state[i] == before[i])
  }

  lemma CountNext(params: seq<Vec>, grads: seq<Option<Vec>>, before: map<nat, Slot>, state: map<nat, Slot>,
                  work: seq<nat>, i: nat)
    requires i < |params| == |grads| && Counted(params, grads, before, state, work, i)
    ensures
      if grads[i].Some? then
        Counted(params, grads, before, state[i := Opened(state, i, |params[i]|)], work + [i], i + 1)
      else Counted(params, grads, before, state, work, i + 1)
  {
    assert i !in work;
    assert Opened(state, i, |params[i]|) == Opened(before, i, |params[i]|);
  }

  class Optimizer {
    const cfg: Config
    var params: seq<Vec>
    var state: map<nat, Slot>
    ghost var seen: seq<seq<Vec>>

    constructor (cfg: Config, params: seq<Vec>)
      requires cfg.Valid()
      ensures Valid() && this.cfg == cfg && this.params == params
      ensures forall i :: 0 <= i < |params| ==> seen[i] == []
    {
      this.cfg, this.params, state := cfg, params, map[];
      seen := seq(|params|, _ => []);
    }

    ghost predicate Valid()
      reads this
    {
      cfg.Valid() && StateHolds(cfg, params, state, seen)
    }

    /** The first loop: lists the parameters with gradients, and opens and counts their states. */
    method Collect(grads: seq<Option<Vec>>) returns (work: seq<nat>)
      requires Shaped(params, grads)
      modifies this`state
      ensures Counted(params, grads, old(state), state, work, |params|)
    {
      ghost var before := state;
      work := [];
      for i := 0 to |params|
        invariant Counted(params, grads, before, state, work, i)
      {
        CountNext(params, grads, before, state, work, i);
        if grads[i].Some? {
          work := work + [i];
          state := state[i := Opened(state, i, |params[i]|)];
        }
      }
    }

    /** The second loop (`_lamb_impl`): moments and parameters are updated in place. */
    method Impl(sqrt: Root, grads: seq<Option<Vec>>, work: seq<nat>)
      requires IsRoot(sqrt) && cfg.Valid() && Shaped(params, grads) && Listed(work, grads, |params|)
      requires forall i :: i in work ==> i in state && Ready(cfg, state[i], grads[i].value)
      modifies this`params, this`state
      ensures
        UpTo(old(params), params, old(state), state, Targets(sqrt, cfg, grads, old(params), old(state), work), work)
    {
      ghost var params0, state0 := params, state;
      ghost var targets := Targets(sqrt, cfg, grads, params, state, work);
      for j := 0 to |work|
        invariant UpTo(params0, params, state0, state, targets, work[..j])
      {
        NextListed(work, grads, |params|, j);
        OneMore(params0, params, state0, state, targets, work[..j], work[j]);
        UpdateOne(sqrt, work[j], grads[work[j]].value, targets[work[j]]);
      }
      assert work[..|work|] == work;
    }

    /** The body of the second loop. */
    method UpdateOne(sqrt: Root, i: nat, g: Vec, ghost target: (Slot, Vec))
      requires IsRoot(sqrt) && cfg.Valid() && i < |params| && i in state && |g| == |params[i]|
      requires Ready(cfg, state[i], g)
      requires target == Target(sqrt, cfg, params[i], state[i], g)
      modifies this`params, this`state
      ensures state == old(state)[i := target.0] && params == old(params)[i := target.1]
    {
      var slot := Advanced(cfg, state[i], g);
      var adam := AdamStep(sqrt, cfg, slot, params[i]);
      state := state[i := slot];
      params := params[i := Moved(sqrt, cfg, params[i], adam)];
    }

    /** One step: exactly the parameters with a gradient change, each by its own moments, which afterwards are those of
        one gradient more. */
    method Step(sqrt: Root, grads: seq<Option<Vec>>)
      requires Valid() && IsRoot(sqrt) && Shaped(params, grads)
      modifies this
      ensures Valid() && |params| == |old(params)| && seen == Appended(old(seen), grads)
      ensures forall i :: 0 <= i < |params| && grads[i].None? ==> params[i] == old(params)[i]
      ensures forall i :: 0 <= i < |params| && grads[i].Some? ==>
        i in state && |state[i].m| == |state[i].v| == |old(params)[i]| && state[i].step > 0 && NonNegative(state[i].v)
        && params[i] == Moved(sqrt, cfg, old(params)[i], AdamStep(sqrt, cfg, state[i], old(params)[i]))
    {
      ghost var before := state;
      var work := Collect(grads);
      AllReady(cfg, before, state, params, seen, grads, work);
      ghost var mid, was := state, params;
      Impl(sqrt, grads, work);
      NewStateHolds(sqrt, cfg, was, params, before, mid, state, seen, grads, work);
      seen := Appended(seen, grads);
    }
  }

  /** A slot that can be advanced by gradient `g`. */
  ghost predicate Ready(cfg: Config, slot: Slot, g: Vec)
  {
    slot.step > 0 && |slot.m| == |slot.v| == |g| && NonNegative(Advanced(cfg, slot, g).v)
  }

  /** After the first loop every listed slot can be advanced. */
  lemma AllReady(cfg: Config, before: map<nat, Slot>, mid: map<nat, Slot>, params: seq<Vec>, seen: seq<seq<Vec>>,
                 grads: seq<Option<Vec>>, work: seq<nat>)
    requires cfg.Valid() && StateHolds(cfg, params, before, seen) && Shaped(params, grads)
    requires Counted(params, grads, before, mid, work, |params|)
    ensures forall i :: i in work ==> i in mid && Ready(cfg, mid[i], grads[i].value)
  {
    forall i | i in work ensures i in mid && Ready(cfg, mid[i], grads[i].value) {
      AdvancedHolds(cfg, before, i, seen[i], grads[i].value, |params[i]|);
    }
  }

  /** What the update makes of one slot and its parameter. */
  ghost function Target(sqrt: Root, cfg: Config, param: Vec, slot: Slot, g: Vec): (r: (Slot, Vec))
    requires IsRoot(sqrt) && cfg.Valid() && Ready(cfg, slot, g) && |g| == |param|
    ensures |r.1| == |param|
  {
    var slot' := Advanced(cfg, slot, g);
    (slot', Moved(sqrt, cfg, param, AdamStep(sqrt, cfg, slot', param)))
  }

  ghost function Targets(sqrt: Root, cfg: Config, grads: seq<Option<Vec>>, params: seq<Vec>, state: map<nat, Slot>,
                         work: seq<nat>): (m: map<nat, (Slot, Vec)>)
    requires IsRoot(sqrt) && cfg.Valid() && Shaped(params, grads) && Listed(work, grads, |params|)
    requires forall i :: i in work ==> i in state && Ready(cfg, state[i], grads[i].value)
    ensures forall i :: i in m <==> i in work
    ensures forall i :: i in work ==> m[i] == Target(sqrt, cfg, params[i], state[i], grads[i].value)
  {
    map i | i in work :: Target(sqrt, cfg, params[i], state[i], grads[i].value)
  }

  /** The parameters in `done` have reached their targets, the others are untouched. */
  ghost predicate UpTo(params0: seq<Vec>, params: seq<Vec>, state0: map<nat, Slot>, state: map<nat, Slot>,
                       targets: map<nat, (Slot, Vec)>, done: seq<nat>)
  {
    && |params| == |params0| && state.Keys == state0.Keys
    && (forall i :: 0 <= i < |params| ==> params[i] == if i in done && i in targets then targets[i].1 else params0[i])
    && (forall i :: i in state ==> state[i] == if i in done && i in targets then targets[i].0 else state0[i])
  }

  lemma OneMore(params0: seq<Vec>, params: seq<Vec>, state0: map<nat, Slot>, state: map<nat, Slot>,
                targets: map<nat, (Slot, Vec)>, done: seq<nat>, i: nat)
    requires UpTo(params0, params, state0, state, targets, done) && i in targets && i < |params| && i in state
    requires i !in done
    ensures params[i] == params0[i] && state[i] == state0[i]
    ensures UpTo(params0, params[i := targets[i].1], state0, state[i := targets[i].0], targets, done + [i])
  {
  }

  lemma NextListed(work: seq<nat>, grads: seq<Option<Vec>>, n: nat, j: nat)
    requires n <= |grads| && Listed(work, grads, n) && j < |work|
    ensures work[j] in work && work[j] !in work[..j] && work[..j + 1] == work[..j] + [work[j]]
  {
  }

  lemma NewStateHolds(sqrt: Root, cfg: Config, params: seq<Vec>, params': seq<Vec>, before: map<nat, Slot>,
                      mid: map<nat, Slot>,
                      after: map<nat, Slot>, seen: seq<seq<Vec>>, grads: seq<Option<Vec>>, work: seq<nat>)
    requires IsRoot(sqrt) && cfg.Valid() && StateHolds(cfg, params, before, seen)
    requires Shaped(params, grads)
    requires Counted(params, grads, before, mid, work, |params|)
    requires forall i :: i in work ==> Ready(cfg, mid[i], grads[i].value)
    requires UpTo(params, params', mid, after, Targets(sqrt, cfg, grads, params, mid, work), work)
    ensures StateHolds(cfg, params', after, Appended(seen, grads))
  {
    var seen', targets := Appended(seen, grads), Targets(sqrt, cfg, grads, params, mid, work);
    forall i | 0 <= i < |params|
      ensures if i in after then seen'[i] != [] && SlotHolds(cfg, after[i], seen'[i], |params'[i]|) else seen'[i] == []
    {
      if grads[i].Some? {
        assert i in work;
        assert targets[i] == Target(sqrt, cfg, params[i], mid[i], grads[i].value);
        AdvancedHolds(cfg, before, i, seen[i], grads[i].value, |params[i]|);
      } else {
        assert i !in work;
      }
    }
  }
}
