/**
 Weight-only quantisation of one row (quantization/_quantize_utils.py `quantize_per_channel` and
 `dequantize_per_channel`). The rows of a tensor are independent: each has its own scale and zero point.
 */
module WeightCodec {
  import opened Basics
  import opened Rounding
  import opened Nibbles
  import opened Nf4

  datatype Dtype = INT8 | INT4 | NF4

  predicate FourBit(dtype: Dtype) { dtype != INT8 }

  type Row = seq<real>

  /** The scale of a row and its zero point, which symmetric quantisation usually lacks. */
  datatype QParams = QParams(scale: real, zp: Option<int>)

  /** torch.finfo(torch.float32).eps */
  const EPS: real := 1.0 / 8388608.0

  // ----- Scales and zero points from the data

  /** The smallest element, or zero if all are positive. */
  function LowerEnd(row: Row): (lo: real)
    ensures lo <= 0.0 && forall j :: 0 <= j < |row| ==> lo <= row[j]
  {
    if row == [] then 0.0
    else
      var lo := LowerEnd(row[..|row| - 1]);
      if row[|row| - 1] < lo then row[|row| - 1] else lo
  }

  /** The largest element, or zero if all are negative. */
  function UpperEnd(row: Row): (hi: real)
    ensures hi >= 0.0 && forall j :: 0 <= j < |row| ==> row[j] <= hi
  {
    if row == [] then 0.0
    else
      var hi := UpperEnd(row[..|row| - 1]);
      if row[|row| - 1] > hi then row[|row| - 1] else hi
  }

  /** `get_qparams` when none are given. */
  function ComputedQParams(row: Row, dtype: Dtype, sym: bool): (p: QParams)
    ensures p.scale >= EPS && (p.zp.Some? <==> !sym && dtype != NF4)
  {
    var mins, maxs := LowerEnd(row), UpperEnd(row);
    match dtype
    case INT8 =>
      if sym then QParams(Max(Max(Abs(maxs), Abs(mins)) / 127.0, EPS), None)
      else
        var scale := Max((maxs - mins) / 255.0, EPS);
        QParams(scale, Some(-Round(mins / scale) - 128))
    case INT4 =>
      if sym then QParams(Max(Max(Abs(maxs), Abs(mins)) / 7.0, EPS), None)
      else
        var scale := Max((maxs - mins) / 15.0, EPS);
        QParams(scale, Some(-Round(mins / scale)))
    case NF4 => QParams(Max(Max(Abs(maxs), Abs(mins)), EPS), None)
  }

  // ----- One element

  /** What is added to the rounded quotient; asymmetric quantisation always has a zero point. */
  function AddedOffset(dtype: Dtype, sym: bool, zp: Option<int>): int
  {
    match dtype
    case INT8 => if zp.Some? then zp.value else 0
    case INT4 => if !sym && zp.Some? then zp.value else 8
    case NF4 => 0
  }

  /** What dequantisation subtracts; it only sees whether there are zero points. */
  function RemovedOffset(dtype: Dtype, zp: Option<int>): int
  {
    if zp.Some? then zp.value else if dtype == INT4 then 8 else 0
  }

  function Lowest(dtype: Dtype): int { if dtype == INT8 then -128 else 0 }
  function Highest(dtype: Dtype): int { if dtype == INT8 then 127 else 15 }

  /** The code of a quotient. */
  function CodeOf(q: real, dtype: Dtype, sym: bool, zp: Option<int>): (c: int)
    ensures Lowest(dtype) <= c <= Highest(dtype)
  {
    if dtype == NF4 then Nearest(q)
    else Clamp(Round(q) + AddedOffset(dtype, sym, zp), Lowest(dtype), Highest(dtype))
  }

  /** Multiplication by the inverse scale. */
  function Scaled(x: real, scale: real): real
    requires scale != 0.0
  {
    x * (1.0 / scale)
  }

  function Code(x: real, dtype: Dtype, sym: bool, p: QParams): (c: int)
    requires p.scale != 0.0
    ensures Lowest(dtype) <= c <= Highest(dtype)
  {
    CodeOf(Scaled(x, p.scale), dtype, sym, p.zp)
  }

  function Level(c: int): real { if 0 <= c < 16 then LEVELS[c] else 0.0 }

  function Value(c: int, dtype: Dtype, p: QParams): real
  {
    if dtype == NF4 then Level(c) * p.scale
    else (c - RemovedOffset(dtype, p.zp)) as real * p.scale
  }

  // ----- Error of a round trip

  lemma Quotient(x: real, s: real)
    requires s > 0.0
    ensures x * (1.0 / s) == x / s && x / s * s == x
  {
  }

  lemma QuotientMono(x: real, y: real, s: real)
    requires s > 0.0 && x <= y
    ensures x / s <= y / s
  {
  }

  lemma QuotientBetween(x: real, s: real, n: real)
    requires s > 0.0 && -(n * s) <= x <= n * s
    ensures -n <= x / s <= n
  {
    QuotientMono(x, n * s, s);
    QuotientMono(-(n * s), x, s);
    assert n * s / s == n && -(n * s) / s == -n;
  }

  lemma QuotientRange(lo: real, x: real, s: real, n: real)
    requires s > 0.0 && lo <= x && x - lo <= n * s
    ensures lo / s <= x / s && x / s - lo / s <= n
  {
    QuotientMono(lo, x, s);
    assert x / s - lo / s == (x - lo) / s;
    QuotientMono(x - lo, n * s, s);
    assert n * s / s == n;
  }

  lemma ProductMono(a: real, b: real, s: real)
    requires s > 0.0 && a <= b
    ensures a * s <= b * s
  {
  }

  lemma ProductDifference(a: real, b: real, s: real)
    ensures (a - b) * s == a * s - b * s
  {
  }

  lemma ProductWithin(e: real, b: real, s: real)
    requires s > 0.0 && -b <= e <= b
    ensures -(b * s) <= e * s <= b * s
  {
    ProductMono(e, b, s);
    ProductMono(-b, e, s);
  }

  /** A quotient that is off by at most `b` makes a value that is off by at most `b` scales. */
  lemma ScaledError(v: real, q: real, s: real, x: real, b: real)
    requires s > 0.0 && x == q * s && -b <= v - q <= b
    ensures Abs(v * s - x) <= b * s
  {
    var d, e := v * s - x, v - q;
    ProductWithin(e, b, s);
    ProductDifference(v, q, s);
    assert d == e * s;
    assert -(b * s) <= d <= b * s;
    assert Abs(d) <= b * s;
  }

  lemma CodeOfQuotient(x: real, dtype: Dtype, sym: bool, p: QParams, q: real)
    requires p.scale > 0.0 && q == x / p.scale
    ensures Code(x, dtype, sym, p) == CodeOf(q, dtype, sym, p.zp) && x == q * p.scale
  {
    Quotient(x, p.scale);
    assert Scaled(x, p.scale) == q;
  }

  /** Asymmetric: the sum of quotient and zero point leaves the range by at most one, and only if both were rounded
      from exact halves; then the clamped code is as near as the unclamped one. */
  lemma AsymmetricCode(m: real, q: real, n: nat, lo: int)
    requires m <= 0.0 && m <= q && q - m <= n as real
    ensures
      var c := Clamp(Round(q) - Round(m) + lo, lo, lo + n);
      -0.5 <= (c - lo + Round(m)) as real - q <= 0.5
  {
    RoundNear(q);
    RoundNear(m);
    RoundMonotone(m, q);
  }

  /** The clamp fires only above, by one, on two exact halves. */
  lemma ClampOnHalves(m: real, q: real, n: nat)
    requires m <= 0.0 && m <= q && q - m <= n as real
    ensures 0 <= Round(q) - Round(m) <= n + 1
    ensures Round(q) - Round(m) == n + 1 ==> Round(q) as real == q + 0.5 && Round(m) as real == m - 0.5
  {
    RoundNear(q);
    RoundNear(m);
    RoundMonotone(m, q);
  }

  /** The number of scales a row spans. */
  function Span(dtype: Dtype, sym: bool): (n: int)
    ensures n > 0
  {
    match dtype
    case INT8 => if sym then 127 else 255
    case INT4 => if sym then 7 else 15
    case NF4 => 1
  }

  /** The range lo .. hi lies within the span of the scale, and the zero point belongs to its lower end. */
  ghost predicate Spans(p: QParams, lo: real, hi: real, dtype: Dtype, sym: bool)
  {
    && p.scale > 0.0 && lo <= 0.0 <= hi
    && (if sym then
          p.zp.None? && hi <= Span(dtype, sym) as real * p.scale && -(Span(dtype, sym) as real * p.scale) <= lo
        else
          hi - lo <= Span(dtype, sym) as real * p.scale && p.zp == Some(-Round(lo / p.scale) + Lowest(dtype)))
  }

  lemma ComputedSpans(row: Row, dtype: Dtype, sym: bool)
    requires dtype == NF4 ==> sym
    ensures Spans(ComputedQParams(row, dtype, sym), LowerEnd(row), UpperEnd(row), dtype, sym)
  {
    if sym {
      SymmetricSpans(row, dtype);
    } else {
      AsymmetricSpans(row, dtype);
    }
  }

  lemma SymmetricSpans(row: Row, dtype: Dtype)
    ensures Spans(ComputedQParams(row, dtype, true), LowerEnd(row), UpperEnd(row), dtype, true)
  {
  }

  lemma AsymmetricSpans(row: Row, dtype: Dtype)
    requires dtype != NF4
    ensures Spans(ComputedQParams(row, dtype, false), LowerEnd(row), UpperEnd(row), dtype, false)
  {
    AsymmetricWidth(row, dtype, ComputedQParams(row, dtype, false).scale);
  }

  lemma AsymmetricWidth(row: Row, dtype: Dtype, s: real)
    requires dtype != NF4 && s == ComputedQParams(row, dtype, false).scale
    ensures UpperEnd(row) - LowerEnd(row) <= Span(dtype, false) as real * s
  {
    WidthSpanned(UpperEnd(row) - LowerEnd(row), Span(dtype, false) as real, s);
  }

  lemma WidthSpanned(w: real, n: real, s: real)
    requires n > 0.0 && w / n <= s
    ensures w <= n * s
  {
    assert w / n * n == w;
    ProductMono(w / n, s, n);
  }

  /** Both ends are zero or elements of the row, so they are its extremes with zero. */
  lemma {:induction false} EndsAttained(row: Row)
    ensures LowerEnd(row) == 0.0 || LowerEnd(row) in row
    ensures UpperEnd(row) == 0.0 || UpperEnd(row) in row
  {
    if row != [] {
      EndsAttained(row[..|row| - 1]);
      assert row[|row| - 1] in row;
    }
  }

  /** What the scale has to cover: the larger magnitude of the ends if it is symmetric, their distance otherwise. */
  function Width(row: Row, sym: bool): real
  {
    if sym then Max(UpperEnd(row), -LowerEnd(row)) else UpperEnd(row) - LowerEnd(row)
  }

  /** A scale of at least the float32 epsilon, two to the power of minus 23, whose span holds `width`. */
  ghost predicate Covers(s: real, width: real, n: int)
  {
    s >= 0.00000011920928955078125 && width <= n as real * s
  }

  /** `s` is the least scale that covers `width`, and covers it exactly unless it is the epsilon. */
  ghost predicate IsLeast(s: real, width: real, n: int)
  {
    && Covers(s, width, n) && (forall other: real :: Covers(other, width, n) ==> s <= other)
    && (s == 0.00000011920928955078125 || n as real * s == width)
  }

  /** The computed scale is the least one that covers the row. */
  lemma ScaleIsLeast(row: Row, dtype: Dtype, sym: bool)
    requires dtype == NF4 ==> sym
    ensures IsLeast(ComputedQParams(row, dtype, sym).scale, Width(row, sym), Span(dtype, sym))
  {
    if sym {
      SymmetricScale(row, dtype, Width(row, sym));
    } else {
      AsymmetricScale(row, dtype, Width(row, sym));
    }
    LeastScale(Width(row, sym), Span(dtype, sym), ComputedQParams(row, dtype, sym).scale);
  }

  lemma LeastScale(width: real, n: int, s: real)
    requires n > 0 && s == Max(width / n as real, EPS)
    ensures IsLeast(s, width, n)
  {
    ScaleCovers(width, n as real, s);
    forall other: real | Covers(other, width, n) ensures s <= other {
      WidthWithin(width, n as real, other);
    }
  }

  lemma SymmetricScale(row: Row, dtype: Dtype, width: real)
    requires width == Max(UpperEnd(row), -LowerEnd(row))
    ensures ComputedQParams(row, dtype, true).scale == Max(width / Span(dtype, true) as real, EPS)
  {
    assert Max(Abs(UpperEnd(row)), Abs(LowerEnd(row))) == width;
    match dtype
    case INT8 => assert Span(dtype, true) as real == 127.0;
    case INT4 => assert Span(dtype, true) as real == 7.0;
    case NF4 => assert Span(dtype, true) as real == 1.0;
  }

  lemma AsymmetricScale(row: Row, dtype: Dtype, width: real)
    requires dtype != NF4 && width == UpperEnd(row) - LowerEnd(row)
    ensures ComputedQParams(row, dtype, false).scale == Max(width / Span(dtype, false) as real, EPS)
  {
    match dtype
    case INT8 => assert Span(dtype, false) as real == 255.0;
    case INT4 => assert Span(dtype, false) as real == 15.0;
  }

  lemma ScaleCovers(width: real, n: real, s: real)
    requires n > 0.0 && s == Max(width / n, EPS)
    ensures s >= EPS && width <= n * s && (s == EPS || n * s == width)
  {
    WidthSpanned(width, n, s);
    if s == width / n {
      assert width / n * n == width;
    }
  }

  lemma WidthWithin(w: real, n: real, s: real)
    requires n > 0.0 && w <= n * s
    ensures w / n <= s
  {
    QuotientMono(w, n * s, n);
    assert n * s / n == s;
  }

  /** What the code of a quotient within the span stands for. */
  lemma CodeIsNear(q: real, m: real, dtype: Dtype, sym: bool, zp: Option<int>)
    requires dtype != NF4 && (zp.Some? <==> !sym)
    requires if sym then -Span(dtype, sym) as real <= q <= Span(dtype, sym) as real
             else m <= 0.0 && m <= q && q - m <= Span(dtype, sym) as real && zp.value == -Round(m) + Lowest(dtype)
    ensures -0.5 <= (CodeOf(q, dtype, sym, zp) - RemovedOffset(dtype, zp)) as real - q <= 0.5
  {
    if sym {
      RoundWithin(q, -Span(dtype, sym), Span(dtype, sym));
      RoundNear(q);
    } else {
      AsymmetricCode(m, q, Span(dtype, sym), Lowest(dtype));
    }
  }

  lemma SpannedQuotient(x: real, lo: real, hi: real, dtype: Dtype, sym: bool, p: QParams, q: real)
    requires dtype != NF4 && Spans(p, lo, hi, dtype, sym) && lo <= x <= hi && q == x / p.scale
    ensures -0.5 <= (CodeOf(q, dtype, sym, p.zp) - RemovedOffset(dtype, p.zp)) as real - q <= 0.5
  {
    if sym {
      QuotientBetween(x, p.scale, Span(dtype, sym) as real);
    } else {
      BelowQuotient(x, lo, hi, dtype, p);
    }
    CodeIsNear(q, lo / p.scale, dtype, sym, p.zp);
  }

  lemma BelowQuotient(x: real, lo: real, hi: real, dtype: Dtype, p: QParams)
    requires dtype != NF4 && Spans(p, lo, hi, dtype, false) && lo <= x <= hi
    ensures
      var m, q := lo / p.scale, x / p.scale;
      m <= 0.0 && m <= q && q - m <= Span(dtype, false) as real && p.zp == Some(-Round(m) + Lowest(dtype))
  {
    QuotientRange(lo, x, p.scale, Span(dtype, false) as real);
    QuotientMono(lo, 0.0, p.scale);
  }

  lemma SpannedError(x: real, lo: real, hi: real, dtype: Dtype, sym: bool, p: QParams)
    requires dtype != NF4 && Spans(p, lo, hi, dtype, sym) && lo <= x <= hi
    ensures Abs(Value(Code(x, dtype, sym, p), dtype, p) - x) <= p.scale / 2.0
  {
    var q := x / p.scale;
    SpannedQuotient(x, lo, hi, dtype, sym, p, q);
    CodeOfQuotient(x, dtype, sym, p, q);
    NearValue(CodeOf(q, dtype, sym, p.zp), x, dtype, p, q);
  }

  lemma NearValue(c: int, x: real, dtype: Dtype, p: QParams, q: real)
    requires dtype != NF4 && p.scale > 0.0 && x == q * p.scale
    requires -0.5 <= (c - RemovedOffset(dtype, p.zp)) as real - q <= 0.5
    ensures Abs(Value(c, dtype, p) - x) <= p.scale / 2.0
  {
    ScaledError((c - RemovedOffset(dtype, p.zp)) as real, q, p.scale, x, 0.5);
  }

  /** Symmetric codes use their whole range: unless the scale is the epsilon, the elements with the largest magnitude
      are the full span away from zero. */
  lemma LargestFillsSpan(row: Row, dtype: Dtype, x: real)
    requires dtype != NF4 && (x == Width(row, true) || x == -Width(row, true))
    requires ComputedQParams(row, dtype, true).scale > 0.00000011920928955078125
    ensures
      var p, n := ComputedQParams(row, dtype, true), Span(dtype, true);
      Code(x, dtype, true, p) - RemovedOffset(dtype, p.zp) == if x > 0.0 then n else -n
  {
    var p, n := ComputedQParams(row, dtype, true), Span(dtype, true);
    ScaleIsLeast(row, dtype, true);
    var q := if x > 0.0 then n else -n;
    assert x == q as real * p.scale;
    FullQuotient(q as real, p.scale);
    CodeOfQuotient(x, dtype, true, p, q as real);
    RoundInteger(q);
  }

  lemma FullQuotient(n: real, s: real)
    requires s > 0.0
    ensures n * s / s == n
  {
  }

  /** Asymmetric codes too: the lower end has the lowest code, and the upper end the highest one, or the one below it if
      two exact halves are rounded apart. */
  lemma EndsFillRange(row: Row, dtype: Dtype)
    requires dtype != NF4 && ComputedQParams(row, dtype, false).scale > 0.00000011920928955078125
    ensures
      var p := ComputedQParams(row, dtype, false);
      && Code(LowerEnd(row), dtype, false, p) == Lowest(dtype)
      && Highest(dtype) - 1 <= Code(UpperEnd(row), dtype, false, p)
  {
    var p, lo, hi, n := ComputedQParams(row, dtype, false), LowerEnd(row), UpperEnd(row), Span(dtype, false);
    ScaleIsLeast(row, dtype, false);
    AsymmetricSpans(row, dtype);
    CodeOfQuotient(lo, dtype, false, p, lo / p.scale);
    CodeOfQuotient(hi, dtype, false, p, hi / p.scale);
    WholeSpan(lo, hi, n as real, p.scale);
    RoundNear(lo / p.scale);
    RoundNear(hi / p.scale);
  }

  lemma WholeSpan(lo: real, hi: real, n: real, s: real)
    requires s > 0.0 && n * s == hi - lo
    ensures hi / s - lo / s == n
  {
    assert hi / s - lo / s == (hi - lo) / s;
    FullQuotient(n, s);
  }

  /** INT8 and INT4 with computed scales: every element is reproduced to within half a scale. */
  lemma RoundTripError(row: Row, dtype: Dtype, sym: bool, j: nat)
    requires dtype != NF4 && j < |row|
    ensures
      var p := ComputedQParams(row, dtype, sym);
      Abs(Value(Code(row[j], dtype, sym, p), dtype, p) - row[j]) <= p.scale / 2.0
  {
    ComputedSpans(row, dtype, sym);
    SpannedError(row[j], LowerEnd(row), UpperEnd(row), dtype, sym, ComputedQParams(row, dtype, sym));
  }

  /** Zero is reproduced exactly. */
  lemma ZeroExact(row: Row, dtype: Dtype, sym: bool)
    requires dtype == NF4 ==> sym
    ensures var p := ComputedQParams(row, dtype, sym); Value(Code(0.0, dtype, sym, p), dtype, p) == 0.0
  {
    ComputedSpans(row, dtype, sym);
    SpannedZero(LowerEnd(row), UpperEnd(row), dtype, sym, ComputedQParams(row, dtype, sym));
  }

  lemma SpannedZero(lo: real, hi: real, dtype: Dtype, sym: bool, p: QParams)
    requires (dtype == NF4 ==> sym) && Spans(p, lo, hi, dtype, sym)
    ensures Value(Code(0.0, dtype, sym, p), dtype, p) == 0.0
  {
    assert Scaled(0.0, p.scale) == 0.0;
    RoundInteger(0);
    if dtype == NF4 {
      NearestIs(0.0, 7);
    } else if !sym {
      var n := Span(dtype, sym);
      QuotientRange(lo, 0.0, p.scale, n as real);
      RoundWithin(lo / p.scale, -n, 0);
    }
  }

  // ----- NF4

  /** NF4 divides by the largest magnitude, so every quotient lies in [-1, 1]. */
  lemma Nf4Normalised(row: Row, j: nat)
    requires j < |row|
    ensures -1.0 <= row[j] / ComputedQParams(row, NF4, true).scale <= 1.0
  {
    SymmetricSpans(row, NF4);
    QuotientBetween(row[j], ComputedQParams(row, NF4, true).scale, 1.0);
  }

  lemma Nf4Error(row: Row, j: nat)
    requires j < |row|
    ensures
      var p := ComputedQParams(row, NF4, true);
      Abs(Value(Code(row[j], NF4, true, p), NF4, p) - row[j]) <= 0.152 * p.scale
  {
    Nf4Normalised(row, j);
    Nf4SpannedError(row[j], ComputedQParams(row, NF4, true));
  }

  lemma Nf4SpannedError(x: real, p: QParams)
    requires p.scale > 0.0 && -1.0 <= x / p.scale <= 1.0
    ensures Abs(Value(Code(x, NF4, true, p), NF4, p) - x) <= 0.152 * p.scale
  {
    var q := x / p.scale;
    CodeOfQuotient(x, NF4, true, p, q);
    NearestError(q);
    Nf4Value(q, p);
    ScaledError(Level(Nearest(q)), q, p.scale, x, 0.152);
  }

  lemma Nf4Value(q: real, p: QParams)
    ensures Value(CodeOf(q, NF4, true, p.zp), NF4, p) == Level(Nearest(q)) * p.scale
  {
  }

  /** The bound on the error, in scales. */
  function Tolerance(dtype: Dtype): real { if dtype == NF4 then 0.152 else 0.5 }

  ghost predicate Near(y: real, x: real, dtype: Dtype, scale: real)
  {
    Abs(y - x) <= Tolerance(dtype) * scale
  }

  /** `x`, quantised with `p` and dequantised, comes out near itself. */
  ghost predicate TripNear(x: real, dtype: Dtype, sym: bool, p: QParams)
  {
    p.scale != 0.0 && Near(Value(Code(x, dtype, sym, p), dtype, p), x, dtype, p.scale)
  }

  lemma ComputedNear(row: Row, dtype: Dtype, sym: bool, j: nat, x: real, p: QParams)
    requires (dtype == NF4 ==> sym) && j < |row| && x == row[j] && p == ComputedQParams(row, dtype, sym)
    ensures TripNear(x, dtype, sym, p)
  {
    if dtype == NF4 {
      Nf4Error(row, j);
    } else {
      RoundTripError(row, dtype, sym, j);
    }
  }

  // ----- Quantising again

  /** Quantisation adds what dequantisation subtracts, unless zero points come with symmetric INT4. */
  ghost predicate SameOffset(dtype: Dtype, sym: bool, zp: Option<int>)
  {
    dtype == INT4 && sym && zp.Some? ==> zp.value == 8
  }

  lemma QuotientOfProduct(k: real, s: real)
    requires s > 0.0
    ensures Scaled(k * s, s) == k
  {
    Quotient(k * s, s);
    assert k * s / s == k;
  }

  lemma RecodeNf4(c: nat, p: QParams)
    requires p.scale > 0.0 && c < 16
    ensures Code(Value(c, NF4, p), NF4, true, p) == c
  {
    QuotientOfProduct(Level(c), p.scale);
    LevelNearest(c);
  }

  lemma RecodeInt(c: int, dtype: Dtype, sym: bool, p: QParams, p': QParams)
    requires p.scale == p'.scale > 0.0 && dtype != NF4
    ensures Code(Value(c, dtype, p), dtype, sym, p') ==
      Clamp(c - RemovedOffset(dtype, p.zp) + AddedOffset(dtype, sym, p'.zp), Lowest(dtype), Highest(dtype))
  {
    var k := c - RemovedOffset(dtype, p.zp);
    QuotientOfProduct(k as real, p.scale);
    RoundInteger(k);
    assert Value(c, dtype, p) == k as real * p.scale;
    assert Scaled(Value(c, dtype, p), p.scale) == k as real;
  }

  lemma Recode(c: int, dtype: Dtype, sym: bool, p: QParams)
    requires p.scale > 0.0 && Lowest(dtype) <= c <= Highest(dtype)
    requires (dtype == NF4 ==> sym) && (!sym ==> p.zp.Some?) && SameOffset(dtype, sym, p.zp)
    ensures Code(Value(c, dtype, p), dtype, sym, p) == c
  {
    if dtype == NF4 {
      RecodeNf4(c, p);
    } else {
      RecodeInt(c, dtype, sym, p, p);
    }
  }

  /** Every code survives a second quantisation exactly when the offsets agree. */
  lemma RecodeExactly(dtype: Dtype, sym: bool, p: QParams)
    requires p.scale > 0.0 && (dtype == NF4 ==> sym) && (!sym ==> p.zp.Some?)
    ensures (forall c :: Lowest(dtype) <= c <= Highest(dtype) ==> Code(Value(c, dtype, p), dtype, sym, p) == c)
      <==> SameOffset(dtype, sym, p.zp)
  {
    if SameOffset(dtype, sym, p.zp) {
      forall c | Lowest(dtype) <= c <= Highest(dtype) ensures Code(Value(c, dtype, p), dtype, sym, p) == c {
        Recode(c, dtype, sym, p);
      }
    } else {
      RecodeInt(8, dtype, sym, p, p);
      assert Code(Value(8, dtype, p), dtype, sym, p) != 8;
    }
  }

  // ----- Rows

  function CodeRow(row: Row, dtype: Dtype, sym: bool, p: QParams): (cs: seq<int>)
    requires p.scale != 0.0
    ensures |cs| == |row| && forall j :: 0 <= j < |row| ==> cs[j] == Code(row[j], dtype, sym, p)
  {
    seq(|row|, j requires 0 <= j < |row| => Code(row[j], dtype, sym, p))
  }

  /** All codes are representable. */
  ghost predicate InRange(cs: seq<int>, dtype: Dtype)
  {
    forall j :: 0 <= j < |cs| ==> Lowest(dtype) <= cs[j] <= Highest(dtype)
  }

  /** 4-bit codes are stored two per byte. */
  ghost function Store(cs: seq<int>, dtype: Dtype): seq<int>
    requires InRange(cs, dtype)
  {
    if FourBit(dtype) then PackRow(cs) else cs
  }

  ghost predicate Stored(st: seq<int>, dtype: Dtype)
  {
    FourBit(dtype) ==> forall j :: 0 <= j < |st| ==> 0 <= st[j] < 256
  }

  ghost function Load(st: seq<int>, dtype: Dtype): seq<int>
    requires Stored(st, dtype)
  {
    if FourBit(dtype) then UnpackRow(st) else st
  }

  /** What is stored is read back, followed by the padding of an odd number of 4-bit codes. */
  lemma LoadStored(cs: seq<int>, dtype: Dtype)
    requires InRange(cs, dtype)
    ensures Stored(Store(cs, dtype), dtype)
    ensures
      var back := Load(Store(cs, dtype), dtype);
      back == if FourBit(dtype) && |cs| % 2 == 1 then cs + [0] else cs
  {
    if FourBit(dtype) {
      UnpackPacked(cs);
    }
  }

  function ValueRow(cs: seq<int>, dtype: Dtype, p: QParams): (row: Row)
    ensures |row| == |cs| && forall j :: 0 <= j < |cs| ==> row[j] == Value(cs[j], dtype, p)
  {
    seq(|cs|, j requires 0 <= j < |cs| => Value(cs[j], dtype, p))
  }

  /** `weight_shape` cuts the padding off. */
  function Cut<T>(xs: seq<T>, width: Option<nat>): seq<T>
  {
    if width.Some? && width.value < |xs| then xs[..width.value] else xs
  }

  /** `quantize_per_channel` on one row, after the parameters are known. */
  ghost function Quantize(row: Row, dtype: Dtype, sym: bool, p: QParams): seq<int>
    requires p.scale != 0.0
  {
    Store(CodeRow(row, dtype, sym, p), dtype)
  }

  /** `dequantize_per_channel` on one row; INT8 ignores the width. */
  ghost function Dequantize(st: seq<int>, dtype: Dtype, p: QParams, width: Option<nat>): Row
    requires Stored(st, dtype)
  {
    var row := ValueRow(Load(st, dtype), dtype, p);
    if FourBit(dtype) then Cut(row, width) else row
  }

  /** Every element comes back as the value of its own code, at every width. */
  lemma DequantizeElements(row: Row, dtype: Dtype, sym: bool, p: QParams)
    requires p.scale != 0.0
    ensures Stored(Quantize(row, dtype, sym, p), dtype)
    ensures Dequantize(Quantize(row, dtype, sym, p), dtype, p, Some(|row|)) ==
      ValueRow(CodeRow(row, dtype, sym, p), dtype, p)
  {
    LoadStored(CodeRow(row, dtype, sym, p), dtype);
  }

  /** Quantising what was dequantised gives the same bytes, with and without the padding. */
  lemma Requantize(row: Row, dtype: Dtype, sym: bool, p: QParams, width: Option<nat>)
    requires p.scale > 0.0 && (dtype == NF4 ==> sym) && (!sym ==> p.zp.Some?) && SameOffset(dtype, sym, p.zp)
    requires width.Some? ==> width.value == |row|
    ensures Stored(Quantize(row, dtype, sym, p), dtype)
    ensures
      var st := Quantize(row, dtype, sym, p);
      Quantize(Dequantize(st, dtype, p, width), dtype, sym, p) == st
  {
    var cs := CodeRow(row, dtype, sym, p);
    LoadStored(cs, dtype);
    var padded := FourBit(dtype) && |cs| % 2 == 1 && width.None?;
    var back := if padded then cs + [0] else cs;
    StoredValues(cs, dtype, p, width, back);
    RecodeRow(back, dtype, sym, p);
    if padded {
      assert Padded(cs) == Padded(back);
    }
  }

  lemma StoredValues(cs: seq<int>, dtype: Dtype, p: QParams, width: Option<nat>, back: seq<int>)
    requires InRange(cs, dtype) && (width.Some? ==> width.value == |cs|)
    requires back == if FourBit(dtype) && |cs| % 2 == 1 && width.None? then cs + [0] else cs
    ensures Stored(Store(cs, dtype), dtype) && Dequantize(Store(cs, dtype), dtype, p, width) == ValueRow(back, dtype, p)
  {
    LoadStored(cs, dtype);
  }

  lemma RecodeRow(cs: seq<int>, dtype: Dtype, sym: bool, p: QParams)
    requires p.scale > 0.0 && (dtype == NF4 ==> sym) && (!sym ==> p.zp.Some?) && SameOffset(dtype, sym, p.zp)
    requires InRange(cs, dtype)
    ensures CodeRow(ValueRow(cs, dtype, p), dtype, sym, p) == cs
  {
    forall j | 0 <= j < |cs| ensures Code(Value(cs[j], dtype, p), dtype, sym, p) == cs[j] {
      Recode(cs[j], dtype, sym, p);
    }
  }
}
