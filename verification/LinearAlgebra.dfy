/** Vectors, matrices and linear layers over the reals. */
module LinearAlgebra {
  import opened Basics
  import opened Multiples

  type Vec = seq<real>
  type Matrix = seq<Vec>

  function Dot(a: Vec, b: Vec): real
    requires |a| == |b|
  {
    if |a| == 0 then 0.0
    else Dot(a[..|a| - 1], b[..|b| - 1]) + a[|a| - 1] * b[|b| - 1]
  }

  /** All pieces one after the other. */
  function Flat<T>(pieces: seq<seq<T>>): seq<T>
  {
    if pieces == [] then [] else Flat(pieces[..|pieces| - 1]) + pieces[|pieces| - 1]
  }

  lemma {:induction false} FlatAppend<T>(a: seq<seq<T>>, b: seq<seq<T>>)
    ensures Flat(a + b) == Flat(a) + Flat(b)
    decreases |b|
  {
    if b == [] {
      assert a + b == a;
    } else {
      assert (a + b)[..|a + b| - 1] == a + b[..|b| - 1];
      FlatAppend(a, b[..|b| - 1]);
    }
  }

  /** Piece `i` starts where the pieces before it end. */
  lemma FlatSlice<T>(pieces: seq<seq<T>>, i: nat)
    requires i < |pieces|
    ensures |Flat(pieces[..i])| + |pieces[i]| <= |Flat(pieces)|
    ensures Flat(pieces)[|Flat(pieces[..i])|..|Flat(pieces[..i])| + |pieces[i]|] == pieces[i]
  {
    assert pieces == pieces[..i + 1] + pieces[i + 1..];
    FlatAppend(pieces[..i + 1], pieces[i + 1..]);
    assert pieces[..i + 1][..i] == pieces[..i];
  }

  // ----- Pieces of equal width

  ghost predicate Uniform<T>(pieces: seq<seq<T>>, d: nat)
  {
    forall b :: 0 <= b < |pieces| ==> |pieces[b]| == d
  }

  lemma {:induction false} FlatUniform<T>(pieces: seq<seq<T>>, d: nat)
    requires Uniform(pieces, d)
    ensures |Flat(pieces)| == Times(|pieces|, d)
  {
    if pieces != [] {
      FlatUniform(pieces[..|pieces| - 1], d);
    }
  }

  lemma AppendAt<T>(a: seq<T>, b: seq<T>, i: nat)
    requires i < |a| + |b|
    ensures (a + b)[i] == if i < |a| then a[i] else b[i - |a|]
  {
  }

  /** Element `j` of piece `b` in the flattened list. */
  lemma {:induction false} FlatAt<T>(pieces: seq<seq<T>>, d: nat, b: nat, j: nat)
    requires Uniform(pieces, d) && b < |pieces| && j < d
    ensures |Flat(pieces)| == Times(|pieces|, d)
    ensures Times(b, d) + j < |Flat(pieces)| && Flat(pieces)[Times(b, d) + j] == pieces[b][j]
    decreases |pieces|
  {
    var front, last := pieces[..|pieces| - 1], pieces[|pieces| - 1];
    FlatUniform(front, d);
    TimesEnd(b, |pieces|, d);
    AppendAt(Flat(front), last, Times(b, d) + j);
    if b < |front| {
      FlatAt(front, d, b, j);
    }
  }

  // ----- Dot products over slices

  lemma {:induction false} DotSplit(a: Vec, b: Vec, k: nat)
    requires |a| == |b| && k <= |a|
    ensures Dot(a, b) == Dot(a[..k], b[..k]) + Dot(a[k..], b[k..])
    decreases |a|
  {
    if k == |a| {
      assert a[..k] == a && b[..k] == b;
    } else {
      var n := |a| - 1;
      DotSplit(a[..n], b[..n], k);
      assert a[..n][..k] == a[..k] && b[..n][..k] == b[..k];
      assert a[k..][..n - k] == a[..n][k..] && b[k..][..n - k] == b[..n][k..];
    }
  }

  /** Cut points 0 = bounds[0] <= ... <= bounds[n] = total. */
  ghost predicate Cuts(bounds: seq<nat>, total: nat)
  {
    && |bounds| > 0 && bounds[0] == 0 && bounds[|bounds| - 1] == total
    && (forall r, s :: 0 <= r <= s < |bounds| ==> bounds[r] <= bounds[s])
  }

  /** The piece of `a` that rank `r` holds. */
  function Piece<T>(a: seq<T>, bounds: seq<nat>, r: nat): (p: seq<T>)
    requires Cuts(bounds, |a|) && r + 1 < |bounds|
    ensures |p| == bounds[r + 1] - bounds[r]
  {
    a[bounds[r]..bounds[r + 1]]
  }

  function SumOf(xs: seq<real>): real
  {
    if xs == [] then 0.0 else SumOf(xs[..|xs| - 1]) + xs[|xs| - 1]
  }

  lemma {:induction false} SumAdd(xs: seq<real>, ys: seq<real>, zs: seq<real>)
    requires |xs| == |ys| == |zs| && forall r :: 0 <= r < |zs| ==> zs[r] == xs[r] + ys[r]
    ensures SumOf(zs) == SumOf(xs) + SumOf(ys)
  {
    if zs != [] {
      SumAdd(xs[..|xs| - 1], ys[..|ys| - 1], zs[..|zs| - 1]);
    }
  }

  lemma {:induction false} SumConst(xs: seq<real>, c: real)
    requires forall r :: 0 <= r < |xs| ==> xs[r] == c
    ensures SumOf(xs) == |xs| as real * c
  {
    if xs != [] {
      SumConst(xs[..|xs| - 1], c);
      assert |xs| as real == (|xs| - 1) as real + 1.0;
    }
  }

  /** The dot product of every pair of pieces. */
  function PieceDots(a: Vec, b: Vec, bounds: seq<nat>): (ds: seq<real>)
    requires |a| == |b| && Cuts(bounds, |a|)
    ensures |ds| == |bounds| - 1
  {
    seq(|bounds| - 1, r requires 0 <= r < |bounds| - 1 => Dot(Piece(a, bounds, r), Piece(b, bounds, r)))
  }

  lemma {:induction false} DotPieces(a: Vec, b: Vec, bounds: seq<nat>, n: nat)
    requires |a| == |b| && Cuts(bounds, |a|) && n < |bounds|
    ensures bounds[n] <= |a| && SumOf(PieceDots(a, b, bounds)[..n]) == Dot(a[..bounds[n]], b[..bounds[n]])
  {
    if n > 0 {
      DotPieces(a, b, bounds, n - 1);
      var lo, hi, ds := bounds[n - 1], bounds[n], PieceDots(a, b, bounds);
      assert ds[..n][..n - 1] == ds[..n - 1];
      DotSplit(a[..hi], b[..hi], lo);
      assert a[..hi][..lo] == a[..lo] && b[..hi][..lo] == b[..lo];
      assert a[..hi][lo..] == Piece(a, bounds, n - 1) && b[..hi][lo..] == Piece(b, bounds, n - 1);
    }
  }

  /** The dot products of all pieces add up to the whole dot product. */
  lemma DotAllPieces(a: Vec, b: Vec, bounds: seq<nat>)
    requires |a| == |b| && Cuts(bounds, |a|)
    ensures SumOf(PieceDots(a, b, bounds)) == Dot(a, b)
  {
    var n, ds := |bounds| - 1, PieceDots(a, b, bounds);
    DotPieces(a, b, bounds, n);
    assert ds[..n] == ds && a[..bounds[n]] == a && b[..bounds[n]] == b;
  }

  lemma {:induction false} FlatPieces<T>(a: seq<T>, bounds: seq<nat>, pieces: seq<seq<T>>, n: nat)
    requires Cuts(bounds, |a|) && n < |bounds| && |pieces| == n
    requires forall r :: 0 <= r < n ==> pieces[r] == Piece(a, bounds, r)
    ensures bounds[n] <= |a| && Flat(pieces) == a[..bounds[n]]
  {
    if n > 0 {
      FlatPieces(a, bounds, pieces[..n - 1], n - 1);
    }
  }

  // ----- Linear layers

  /** y = W x + b, with `bias` possibly absent. */
  function Forward(w: Matrix, bias: Option<Vec>, x: Vec): (y: Vec)
    requires forall o :: 0 <= o < |w| ==> |w[o]| == |x|
    requires bias.Some? ==> |bias.value| == |w|
    ensures |y| == |w|
  {
    seq(|w|, o requires 0 <= o < |w| => Dot(w[o], x) + if bias.Some? then bias.value[o] else 0.0)
  }

  /** The columns lo .. hi of a matrix. */
  function Columns(w: Matrix, lo: nat, hi: nat): (c: Matrix)
    requires lo <= hi && forall o :: 0 <= o < |w| ==> hi <= |w[o]|
    ensures |c| == |w| && forall o :: 0 <= o < |w| ==> c[o] == w[o][lo..hi]
  {
    seq(|w|, o requires 0 <= o < |w| => w[o][lo..hi])
  }

  function Scale(v: Vec, c: real): (r: Vec)
    ensures |r| == |v| && forall k :: 0 <= k < |v| ==> r[k] == v[k] * c
  {
    seq(|v|, k requires 0 <= k < |v| => v[k] * c)
  }

  function ColumnAt(outs: seq<Vec>, o: nat): (xs: seq<real>)
    requires forall r :: 0 <= r < |outs| ==> o < |outs[r]|
    ensures |xs| == |outs| && forall r :: 0 <= r < |outs| ==> xs[r] == outs[r][o]
  {
    seq(|outs|, r requires 0 <= r < |outs| => outs[r][o])
  }

  /** Elementwise sum over all ranks (`allreduce_add`). */
  function AllReduce(outs: seq<Vec>, width: nat): (y: Vec)
    requires forall r :: 0 <= r < |outs| ==> |outs[r]| == width
    ensures |y| == width && forall o :: 0 <= o < width ==> y[o] == SumOf(ColumnAt(outs, o))
  {
    seq(width, o requires 0 <= o < width => SumOf(ColumnAt(outs, o)))
  }
}
