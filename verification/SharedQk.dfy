/**
 Value and output projections of attention with shared query/key weights
 (transformers/tensor_parallel.py `shard_value_with_share_qk`, `shard_oproj_with_share_qk`):
 rank `r` holds a run of head ids and the same run half the heads later.
 */
module SharedQk {
  import opened Basics
  import opened LinearAlgebra
  import opened Multiples
  import opened Sharding
  import opened TensorParallel
  import opened ShardedAttention

  /** `v_head_ids` of a rank. */
  function HeadIds(heads: nat, world: nat, rank: nat): (ids: seq<nat>)
    requires world > 0
  {
    var perRank := heads / world;
    Consecutive(Times(rank, perRank) / 2, (perRank + 1) / 2)
      + Consecutive(Times(rank, perRank) / 2 + heads / 2, (perRank + 1) / 2)
  }

  /** The while loop and the extension by half the heads. */
  method CollectHeadIds(heads: nat, world: nat, rank: nat) returns (ids: seq<nat>)
    requires world > 0
    ensures ids == HeadIds(heads, world, rank)
  {
    var perRank := heads / world;
    TimesIsProduct(rank, perRank);
    var q := rank * perRank;
    ghost var first := q;
    ids := [];
    var i := 0;
    while i < perRank
      invariant i == 2 * |ids| <= perRank + 1 && q == first + i
      invariant ids == Consecutive(first / 2, |ids|)
    {
      ids := ids + [q / 2];
      q := q + 2;
      i := i + 2;
    }
    assert |ids| == (perRank + 1) / 2;
    ids := ids + seq(|ids|, k requires 0 <= k < |ids| => ids[k] + heads / 2);
  }

  /** The source's assertion, and an even number of heads per rank. */
  ghost predicate EvenPerRank(heads: nat, world: nat)
  {
    world > 0 && heads % world == 0 && heads / world % 2 == 0
  }

  /** With `p` heads of each half per rank: the two halves have world times p heads. */
  lemma Halves(heads: nat, world: nat, p: nat)
    requires EvenPerRank(heads, world) && p == heads / world / 2
    ensures heads / 2 == Times(world, p) && heads == Times(world, p) + Times(world, p) && heads / world == p + p
  {
    DivTimes(heads, world);
    TimesCommutes(heads / world, world);
    TimesDouble(world, p);
  }

  /** Rank `r` holds the run of `p` heads from r times p, in both halves. */
  lemma EvenIds(heads: nat, world: nat, p: nat, rank: nat)
    requires EvenPerRank(heads, world) && p == heads / world / 2
    ensures HeadIds(heads, world, rank) == Consecutive(Times(rank, p), p) + Consecutive(Times(rank, p) + heads / 2, p)
  {
    Halves(heads, world, p);
    TimesDouble(rank, p);
    HalfOfDouble(p);
    HalfOfDouble(Times(rank, p));
  }

  lemma HalfOfDouble(n: nat)
    ensures (n + n) / 2 == n && (n + n + 1) / 2 == n
  {
  }

  /** Head `h` occurs at position `j` of rank `r`. */
  ghost predicate Holds(heads: nat, world: nat, r: nat, j: nat, h: nat)
    requires world > 0
  {
    r < world && j < |HeadIds(heads, world, r)| && HeadIds(heads, world, r)[j] == h
  }

  ghost predicate Held(heads: nat, world: nat, h: nat)
    requires world > 0
  {
    exists r: nat, j: nat :: Holds(heads, world, r, j, h)
  }

  ghost predicate EachHeadOnce(heads: nat, world: nat)
    requires world > 0
  {
    && (forall h :: 0 <= h < heads ==> Held(heads, world, h))
    && (forall r: nat, j: nat, h: nat :: Holds(heads, world, r, j, h) ==> h < heads)
    && (forall r: nat, j: nat, r': nat, j': nat, h: nat ::
          Holds(heads, world, r, j, h) && Holds(heads, world, r', j', h) ==> r == r' && j == j')
  }

  /** Even heads per rank: over all ranks, every head id occurs exactly once. */
  lemma EvenIsPermutation(heads: nat, world: nat)
    requires EvenPerRank(heads, world)
    ensures EachHeadOnce(heads, world)
  {
    forall h | 0 <= h < heads ensures Held(heads, world, h) {
      EvenHeld(heads, world, h);
    }
    forall r: nat, j: nat, h: nat | Holds(heads, world, r, j, h) ensures h < heads {
      EvenBelow(heads, world, r, j, h);
    }
    forall r: nat, j: nat, r': nat, j': nat, h: nat | Holds(heads, world, r, j, h) && Holds(heads, world, r', j', h)
      ensures r == r' && j == j'
    {
      EvenUnique(heads, world, r, j, r', j', h);
    }
  }

  lemma EvenHeld(heads: nat, world: nat, h: nat)
    requires EvenPerRank(heads, world) && h < heads
    ensures Held(heads, world, h)
  {
    var p, half := heads / world / 2, heads / 2;
    Halves(heads, world, p);
    var k := if h < half then h else h - half;
    QuoBelow(k, world, p);
    QuoRem(k, p);
    RunHolds(heads, world, p, half, Quo(k, p), Rem(k, p));
  }

  lemma RunHolds(heads: nat, world: nat, p: nat, half: nat, r: nat, j: nat)
    requires EvenPerRank(heads, world) && p == heads / world / 2 && half == heads / 2 && r < world && j < p
    ensures Holds(heads, world, r, j, Times(r, p) + j) && Holds(heads, world, r, p + j, Times(r, p) + j + half)
  {
    EvenIds(heads, world, p, r);
  }

  /** Where position `j` of rank `r` lies in its half. */
  lemma EvenPosition(heads: nat, world: nat, p: nat, r: nat, j: nat, h: nat) returns (k: nat)
    requires EvenPerRank(heads, world) && p == heads / world / 2 && Holds(heads, world, r, j, h)
    ensures k < p && Times(r, p) + k < heads / 2
    ensures if h < heads / 2 then h == Times(r, p) + k && j == k else h == Times(r, p) + k + heads / 2 && j == p + k
  {
    Halves(heads, world, p);
    EvenIds(heads, world, p, r);
    k := if j < p then j else j - p;
    TimesEnd(r, world, p);
  }

  lemma EvenBelow(heads: nat, world: nat, r: nat, j: nat, h: nat)
    requires EvenPerRank(heads, world) && Holds(heads, world, r, j, h)
    ensures h < heads
  {
    Halves(heads, world, heads / world / 2);
    var k := EvenPosition(heads, world, heads / world / 2, r, j, h);
  }

  lemma EvenUnique(heads: nat, world: nat, r: nat, j: nat, r': nat, j': nat, h: nat)
    requires EvenPerRank(heads, world) && Holds(heads, world, r, j, h) && Holds(heads, world, r', j', h)
    ensures r == r' && j == j'
  {
    var p := heads / world / 2;
    var k := EvenPosition(heads, world, p, r, j, h);
    var k' := EvenPosition(heads, world, p, r', j', h);
    Order(r, k, r', k', p);
  }

  /** Odd heads per rank on several ranks: ranks 0 and 1 share a head, so the ids are no permutation. */
  lemma OddOverlaps(heads: nat, world: nat)
    requires world > 1 && heads % world == 0 && heads / world % 2 == 1
    ensures !EachHeadOnce(heads, world)
  {
    var n := heads / world;
    assert Times(0, n) / 2 == 0 && Times(1, n) / 2 == n / 2;
    assert Holds(heads, world, 0, n / 2, n / 2);
    assert Holds(heads, world, 1, 0, n / 2);
  }

  // ----- Gathering heads

  /** The heads `ids` of `v`, one after the other. */
  function Gather<T>(v: seq<T>, ids: seq<nat>, d: nat): (g: seq<T>)
    requires forall k :: 0 <= k < |ids| ==> Times(ids[k], d) + d <= |v|
    ensures |g| == Times(|ids|, d)
  {
    var hs := HeadsOf(v, ids, d);
    FlatUniform(hs, d);
    Flat(hs)
  }

  function HeadsOf<T>(v: seq<T>, ids: seq<nat>, d: nat): (hs: seq<seq<T>>)
    requires forall k :: 0 <= k < |ids| ==> Times(ids[k], d) + d <= |v|
    ensures |hs| == |ids| && forall k :: 0 <= k < |ids| ==> hs[k] == Head(v, ids[k], d)
  {
    seq(|ids|, k requires 0 <= k < |ids| => Head(v, ids[k], d))
  }

  function HeadDot(a: Vec, b: Vec, h: nat, d: nat): real
    requires |a| == |b| && Times(h, d) + d <= |a|
  {
    Dot(Head(a, h, d), Head(b, h, d))
  }

  function HeadDots(a: Vec, b: Vec, ids: seq<nat>, d: nat): (ds: seq<real>)
    requires |a| == |b| && forall k :: 0 <= k < |ids| ==> Times(ids[k], d) + d <= |a|
    ensures |ds| == |ids| && forall k :: 0 <= k < |ids| ==> ds[k] == HeadDot(a, b, ids[k], d)
  {
    seq(|ids|, k requires 0 <= k < |ids| => HeadDot(a, b, ids[k], d))
  }

  lemma {:induction false} GatherDot(a: Vec, b: Vec, ids: seq<nat>, d: nat)
    requires |a| == |b| && forall k :: 0 <= k < |ids| ==> Times(ids[k], d) + d <= |a|
    ensures Dot(Gather(a, ids, d), Gather(b, ids, d)) == SumOf(HeadDots(a, b, ids, d))
    decreases |ids|
  {
    if ids != [] {
      var front, last := ids[..|ids| - 1], ids[|ids| - 1];
      GatherDot(a, b, front, d);
      GatherLast(a, ids, d);
      GatherLast(b, ids, d);
      DotAppend(Gather(a, front, d), Head(a, last, d), Gather(b, front, d), Head(b, last, d));
      assert HeadDots(a, b, ids, d)[..|ids| - 1] == HeadDots(a, b, front, d);
    }
  }

  lemma GatherLast<T>(v: seq<T>, ids: seq<nat>, d: nat)
    requires ids != [] && forall k :: 0 <= k < |ids| ==> Times(ids[k], d) + d <= |v|
    ensures Gather(v, ids, d) == Gather(v, ids[..|ids| - 1], d) + Head(v, ids[|ids| - 1], d)
  {
    assert HeadsOf(v, ids, d)[..|ids| - 1] == HeadsOf(v, ids[..|ids| - 1], d);
  }

  lemma DotAppend(a: Vec, a': Vec, b: Vec, b': Vec)
    requires |a| == |b| && |a'| == |b'|
    ensures Dot(a + a', b + b') == Dot(a, b) + Dot(a', b')
  {
    DotSplit(a + a', b + b', |a|);
    assert (a + a')[..|a|] == a && (a + a')[|a|..] == a' && (b + b')[..|a|] == b && (b + b')[|a|..] == b';
  }

  lemma {:induction false} SumAppend(xs: seq<real>, ys: seq<real>)
    ensures SumOf(xs + ys) == SumOf(xs) + SumOf(ys)
    decreases |ys|
  {
    if ys == [] {
      assert xs + ys == xs;
    } else {
      assert (xs + ys)[..|xs + ys| - 1] == xs + ys[..|ys| - 1];
      SumAppend(xs, ys[..|ys| - 1]);
    }
  }

  /** All head products together are the whole dot product. */
  lemma AllHeadDots(a: Vec, b: Vec, heads: nat, d: nat)
    requires |a| == |b| == Times(heads, d)
    ensures forall h :: 0 <= h < heads ==> Times(Consecutive(0, heads)[h], d) + d <= |a|
    ensures SumOf(HeadDots(a, b, Consecutive(0, heads), d)) == Dot(a, b)
  {
    var ids := Consecutive(0, heads);
    GatherAll(a, ids, heads, d);
    GatherAll(b, ids, heads, d);
    GatherDot(a, b, ids, d);
    assert a[..Times(heads, d)] == a && b[..Times(heads, d)] == b;
  }

  lemma {:induction false} GatherAll<T>(v: seq<T>, ids: seq<nat>, heads: nat, d: nat)
    requires |v| == Times(heads, d) && |ids| <= heads && forall k :: 0 <= k < |ids| ==> ids[k] == k
    ensures Times(|ids|, d) <= |v| && forall k :: 0 <= k < |ids| ==> Times(ids[k], d) + d <= |v|
    ensures Gather(v, ids, d) == v[..Times(|ids|, d)]
    decreases |ids|
  {
    TimesMono(|ids|, heads, d);
    forall k | 0 <= k < |ids| ensures Times(ids[k], d) + d <= |v| {
      TimesEnd(k, heads, d);
    }
    if ids == [] {
      assert Gather(v, ids, d) == [];
    } else {
      var n := |ids| - 1;
      GatherAll(v, ids[..n], heads, d);
      GatherLast(v, ids, d);
      assert v[..Times(n, d)] + v[Times(n, d)..Times(n, d) + d] == v[..Times(n, d) + d];
    }
  }

  /** Entry `j` of the `k`-th gathered head. */
  lemma GatherAt<T>(v: seq<T>, ids: seq<nat>, d: nat, k: nat, j: nat)
    requires k < |ids| && j < d && forall k :: 0 <= k < |ids| ==> Times(ids[k], d) + d <= |v|
    ensures Times(k, d) + j < |Gather(v, ids, d)| && Gather(v, ids, d)[Times(k, d) + j] == v[Times(ids[k], d) + j]
  {
    FlatAt(HeadsOf(v, ids, d), d, k, j);
  }

  // ----- The shards of a layer

  ghost predicate Fit(ids: seq<nat>, heads: nat, d: nat)
  {
    forall k :: 0 <= k < |ids| ==> Times(ids[k], d) + d <= Times(heads, d)
  }

  lemma IdsFit(heads: nat, world: nat, r: nat, d: nat)
    requires EvenPerRank(heads, world) && r < world
    ensures Fit(HeadIds(heads, world, r), heads, d)
  {
    var ids := HeadIds(heads, world, r);
    forall k | 0 <= k < |ids| ensures Times(ids[k], d) + d <= Times(heads, d) {
      assert Holds(heads, world, r, k, ids[k]);
      EvenBelow(heads, world, r, k, ids[k]);
      TimesEnd(ids[k], heads, d);
    }
  }

  /** `shard_value_with_share_qk`: the output rows of the heads `ids`, with their bias. */
  function ValueShard(l: Layer, ids: seq<nat>, heads: nat, d: nat): (s: Layer)
    requires l.Valid() && |l.weight| == Times(heads, d) && Fit(ids, heads, d)
    ensures s.inputs == l.inputs && |s.weight| == Times(|ids|, d)
  {
    Layer(Gather(l.weight, ids, d), if l.bias.Some? then Some(Gather(l.bias.value, ids, d)) else None, l.inputs)
  }

  /** A value shard computes the heads `ids` of the full value projection, in their order. */
  lemma ValueShardGathers(l: Layer, ids: seq<nat>, heads: nat, d: nat, x: Vec)
    requires l.Valid() && |l.weight| == Times(heads, d) && Fit(ids, heads, d) && |x| == l.inputs
    ensures ValueShard(l, ids, heads, d).Valid()
    ensures Run(ValueShard(l, ids, heads, d), x) == Gather(Run(l, x), ids, d)
  {
    var s := ValueShard(l, ids, heads, d);
    ValueShardValid(l, ids, heads, d, x);
    forall i: nat | i < |s.weight| ensures Run(s, x)[i] == Gather(Run(l, x), ids, d)[i] {
      ValueRow(l, ids, heads, d, x, i);
    }
  }

  lemma ValueShardValid(l: Layer, ids: seq<nat>, heads: nat, d: nat, x: Vec)
    requires l.Valid() && |l.weight| == Times(heads, d) && Fit(ids, heads, d) && |x| == l.inputs
    ensures ValueShard(l, ids, heads, d).Valid()
  {
    var s := ValueShard(l, ids, heads, d);
    forall i: nat | i < |s.weight| ensures |s.weight[i]| == l.inputs {
      ValueRow(l, ids, heads, d, x, i);
    }
  }

  /** The row of the full layer behind row `i` of the shard. */
  ghost function Source(ids: seq<nat>, heads: nat, d: nat, i: nat): (m: nat)
    requires i < Times(|ids|, d) && Fit(ids, heads, d)
    ensures m < Times(heads, d)
  {
    DivBelow(i, |ids|, d);
    Times(ids[i / d], d) + i % d
  }

  lemma GatherSource<T>(v: seq<T>, ids: seq<nat>, heads: nat, d: nat, i: nat)
    requires i < Times(|ids|, d) && Fit(ids, heads, d) && |v| == Times(heads, d)
    ensures Gather(v, ids, d)[i] == v[Source(ids, heads, d, i)]
  {
    DivBelow(i, |ids|, d);
    GatherAt(v, ids, d, i / d, i % d);
  }

  lemma ValueRow(l: Layer, ids: seq<nat>, heads: nat, d: nat, x: Vec, i: nat)
    requires l.Valid() && |l.weight| == Times(heads, d) && Fit(ids, heads, d) && |x| == l.inputs && i < Times(|ids|, d)
    ensures
      var s := ValueShard(l, ids, heads, d);
      |s.weight[i]| == l.inputs
      && (if s.bias.Some? then s.bias.value[i] else 0.0) + Dot(s.weight[i], x) == Gather(Run(l, x), ids, d)[i]
  {
    GatherSource(l.weight, ids, heads, d, i);
    GatherSource(Run(l, x), ids, heads, d, i);
    if l.bias.Some? {
      GatherSource(l.bias.value, ids, heads, d, i);
    }
  }

  /** With several ranks, `shard_oproj_with_share_qk` assigns the divided bias, a plain tensor, to a registered
      parameter, which `nn.Module` refuses. */
  predicate BiasRefused(l: Layer, world: nat) { world > 1 && l.bias.Some? }

  /** `shard_oproj_with_share_qk`: the input columns of the heads `ids`. */
  function OutShard(l: Layer, ids: seq<nat>, heads: nat, d: nat, world: nat): (s: Try<Layer>)
    requires l.Valid() && l.inputs == Times(heads, d) && Fit(ids, heads, d) && world > 0
    ensures s.Raised? <==> BiasRefused(l, world)
    ensures s.Ok? ==> s.value.Valid() && s.value.inputs == Times(|ids|, d) && |s.value.weight| == |l.weight|
  {
    if BiasRefused(l, world) then Raised
    else
      Ok(Layer(seq(|l.weight|, o requires 0 <= o < |l.weight| => Gather(l.weight[o], ids, d)), l.bias, Times(|ids|, d)))
  }

  // ----- Summing over the ranks

  ghost function PieceSums(fs: seq<real>, bounds: seq<nat>): (ss: seq<real>)
    requires Cuts(bounds, |fs|)
    ensures |ss| == |bounds| - 1 && forall r :: 0 <= r < |ss| ==> ss[r] == SumOf(Piece(fs, bounds, r))
  {
    seq(|bounds| - 1, r requires 0 <= r < |bounds| - 1 => SumOf(Piece(fs, bounds, r)))
  }

  lemma {:induction false} SumPieces(fs: seq<real>, bounds: seq<nat>, n: nat)
    requires Cuts(bounds, |fs|) && n < |bounds|
    ensures bounds[n] <= |fs| && SumOf(PieceSums(fs, bounds)[..n]) == SumOf(fs[..bounds[n]])
  {
    if n > 0 {
      SumPieces(fs, bounds, n - 1);
      var lo, hi, ss := bounds[n - 1], bounds[n], PieceSums(fs, bounds);
      assert ss[..n][..n - 1] == ss[..n - 1];
      SumAppend(fs[..lo], Piece(fs, bounds, n - 1));
      assert fs[..lo] + Piece(fs, bounds, n - 1) == fs[..hi];
    }
  }

  lemma SumAllPieces(fs: seq<real>, bounds: seq<nat>)
    requires Cuts(bounds, |fs|)
    ensures SumOf(PieceSums(fs, bounds)) == SumOf(fs)
  {
    var n, ss := |bounds| - 1, PieceSums(fs, bounds);
    SumPieces(fs, bounds, n);
    assert ss[..n] == ss && fs[..bounds[n]] == fs;
  }

  /** The products of all heads. */
  ghost function AllDots(a: Vec, z: Vec, heads: nat, d: nat): (fs: seq<real>)
    requires |a| == |z| == Times(heads, d)
    ensures |fs| == heads && SumOf(fs) == Dot(a, z)
  {
    AllHeadDots(a, z, heads, d);
    HeadDots(a, z, Consecutive(0, heads), d)
  }

  function Pick(fs: seq<real>, ids: seq<nat>): (xs: seq<real>)
    requires forall k :: 0 <= k < |ids| ==> ids[k] < |fs|
    ensures |xs| == |ids| && forall k :: 0 <= k < |ids| ==> xs[k] == fs[ids[k]]
  {
    seq(|ids|, k requires 0 <= k < |ids| => fs[ids[k]])
  }

  /** The product of the gathered heads is the sum of their single products. */
  lemma GatheredDot(a: Vec, z: Vec, heads: nat, ids: seq<nat>, d: nat)
    requires |a| == |z| == Times(heads, d) && Fit(ids, heads, d) && forall k :: 0 <= k < |ids| ==> ids[k] < heads
    ensures Dot(Gather(a, ids, d), Gather(z, ids, d)) == SumOf(Pick(AllDots(a, z, heads, d), ids))
  {
    GatherDot(a, z, ids, d);
    var fs := AllDots(a, z, heads, d);
    forall k | 0 <= k < |ids| ensures HeadDots(a, z, ids, d)[k] == fs[ids[k]] {
      AllHeadDots(a, z, heads, d);
    }
    assert HeadDots(a, z, ids, d) == Pick(fs, ids);
  }

  /** Rank `r` holds the same run of heads in both halves. */
  ghost predicate HoldsRun(ids: seq<nat>, b: seq<nat>, half: nat, r: nat)
    requires Cuts(b, half) && r + 1 < |b|
  {
    ids == Consecutive(b[r], b[r + 1] - b[r]) + Consecutive(b[r] + half, b[r + 1] - b[r])
  }

  lemma PickRuns(lo: seq<real>, hi: seq<real>, ids: seq<nat>, b: seq<nat>, r: nat)
    requires |lo| == |hi| && Cuts(b, |lo|) && r + 1 < |b| && HoldsRun(ids, b, |lo|, r)
    ensures forall k :: 0 <= k < |ids| ==> ids[k] < |lo| + |hi|
    ensures SumOf(Pick(lo + hi, ids)) == SumOf(Piece(lo, b, r)) + SumOf(Piece(hi, b, r))
  {
    SumAppend(Piece(lo, b, r), Piece(hi, b, r));
    assert Pick(lo + hi, ids) == Piece(lo, b, r) + Piece(hi, b, r);
  }

  /** What rank `r` adds to an output, without the bias: its run of head products in both halves. */
  lemma RankDot(a: Vec, z: Vec, lo: seq<real>, hi: seq<real>, b: seq<nat>, ids: seq<nat>, r: nat, heads: nat, d: nat)
    requires |a| == |z| == Times(heads, d) && AllDots(a, z, heads, d) == lo + hi && |lo| == |hi|
    requires Cuts(b, |lo|) && r + 1 < |b| && HoldsRun(ids, b, |lo|, r) && Fit(ids, heads, d)
    ensures Dot(Gather(a, ids, d), Gather(z, ids, d)) == SumOf(Piece(lo, b, r)) + SumOf(Piece(hi, b, r))
  {
    PickRuns(lo, hi, ids, b, r);
    GatheredDot(a, z, heads, ids, d);
  }

  ghost function OutOutputs(l: Layer, idss: seq<seq<nat>>, heads: nat, d: nat, z: Vec): (outs: seq<Vec>)
    requires |idss| > 0 && !BiasRefused(l, |idss|) && l.Valid() && l.inputs == |z| == Times(heads, d)
    requires forall r :: 0 <= r < |idss| ==> Fit(idss[r], heads, d)
    ensures |outs| == |idss| && forall r :: 0 <= r < |idss| ==> |outs[r]| == |l.weight|
  {
    seq(|idss|, r requires 0 <= r < |idss| =>
      Run(OutShard(l, idss[r], heads, d, |idss|).value, Gather(z, idss[r], d)))
  }

  lemma OutOutputAt(l: Layer, idss: seq<seq<nat>>, heads: nat, d: nat, z: Vec, r: nat, o: nat)
    requires r < |idss| && !BiasRefused(l, |idss|) && l.Valid() && l.inputs == |z| == Times(heads, d) && o < |l.weight|
    requires forall r :: 0 <= r < |idss| ==> Fit(idss[r], heads, d)
    ensures OutOutputs(l, idss, heads, d, z)[r][o] ==
      Dot(Gather(l.weight[o], idss[r], d), Gather(z, idss[r], d)) + BiasShare(l, |idss|, o)
  {
  }

  /** Every rank's contribution to output `o`: its runs in both halves and its share of the bias. */
  ghost predicate Contributions(xs: seq<real>, lo: seq<real>, hi: seq<real>, b: seq<nat>, shares: seq<real>)
    requires Cuts(b, |lo|) && Cuts(b, |hi|)
  {
    |xs| == |shares| == |b| - 1
    && forall r :: 0 <= r < |xs| ==> xs[r] == SumOf(Piece(lo, b, r)) + SumOf(Piece(hi, b, r)) + shares[r]
  }

  lemma OutContributions(
      l: Layer, idss: seq<seq<nat>>, lo: seq<real>, hi: seq<real>, b: seq<nat>, heads: nat, d: nat, z: Vec, o: nat)
    requires |idss| > 0 && !BiasRefused(l, |idss|) && l.Valid() && l.inputs == |z| == Times(heads, d) && o < |l.weight|
    requires forall r :: 0 <= r < |idss| ==> Fit(idss[r], heads, d)
    requires |lo| == |hi| && AllDots(l.weight[o], z, heads, d) == lo + hi
    requires Cuts(b, |lo|) && |b| == |idss| + 1 && forall r :: 0 <= r < |idss| ==> HoldsRun(idss[r], b, |lo|, r)
    ensures Contributions(ColumnAt(OutOutputs(l, idss, heads, d, z), o), lo, hi, b, Shares(l, |idss|, o))
  {
    forall r | 0 <= r < |idss|
      ensures OutOutputs(l, idss, heads, d, z)[r][o] ==
        SumOf(Piece(lo, b, r)) + SumOf(Piece(hi, b, r)) + Shares(l, |idss|, o)[r]
    {
      OutOutputAt(l, idss, heads, d, z, r, o);
      RankDot(l.weight[o], z, lo, hi, b, idss[r], r, heads, d);
    }
  }

  lemma SumHalves(lo: seq<real>, hi: seq<real>, b: seq<nat>, shares: seq<real>, xs: seq<real>)
    requires |lo| == |hi| && Cuts(b, |lo|) && Contributions(xs, lo, hi, b, shares)
    ensures SumOf(xs) == SumOf(lo + hi) + SumOf(shares)
  {
    SumThree(PieceSums(lo, b), PieceSums(hi, b), shares, xs);
    SumAllPieces(lo, b);
    SumAllPieces(hi, b);
    SumAppend(lo, hi);
  }

  lemma {:induction false} SumThree(los: seq<real>, his: seq<real>, shares: seq<real>, xs: seq<real>)
    requires |los| == |his| == |shares| == |xs| && forall r :: 0 <= r < |xs| ==> xs[r] == los[r] + his[r] + shares[r]
    ensures SumOf(xs) == SumOf(los) + SumOf(his) + SumOf(shares)
  {
    if xs != [] {
      var n := |xs| - 1;
      SumThree(los[..n], his[..n], shares[..n], xs[..n]);
    }
  }

  lemma OutReduceAt(l: Layer, idss: seq<seq<nat>>, half: nat, b: seq<nat>, heads: nat, d: nat, z: Vec, o: nat)
    requires |idss| > 0 && !BiasRefused(l, |idss|) && heads == half + half && l.Valid()
    requires l.inputs == |z| == Times(heads, d) && o < |l.weight|
    requires forall r :: 0 <= r < |idss| ==> Fit(idss[r], heads, d)
    requires Cuts(b, half) && |b| == |idss| + 1 && forall r :: 0 <= r < |idss| ==> HoldsRun(idss[r], b, half, r)
    ensures SumOf(ColumnAt(OutOutputs(l, idss, heads, d, z), o)) == Run(l, z)[o]
  {
    var fs := AllDots(l.weight[o], z, heads, d);
    var lo, hi := fs[..half], fs[half..];
    assert lo + hi == fs;
    OutContributions(l, idss, lo, hi, b, heads, d, z, o);
    SumHalves(lo, hi, b, Shares(l, |idss|, o), ColumnAt(OutOutputs(l, idss, heads, d, z), o));
  }

  lemma OutReduce(l: Layer, idss: seq<seq<nat>>, half: nat, b: seq<nat>, heads: nat, d: nat, z: Vec)
    requires |idss| > 0 && !BiasRefused(l, |idss|) && heads == half + half && l.Valid()
    requires l.inputs == |z| == Times(heads, d)
    requires forall r :: 0 <= r < |idss| ==> Fit(idss[r], heads, d)
    requires Cuts(b, half) && |b| == |idss| + 1 && forall r :: 0 <= r < |idss| ==> HoldsRun(idss[r], b, half, r)
    ensures AllReduce(OutOutputs(l, idss, heads, d, z), |l.weight|) == Run(l, z)
  {
    forall o | 0 <= o < |l.weight| ensures SumOf(ColumnAt(OutOutputs(l, idss, heads, d, z), o)) == Run(l, z)[o] {
      OutReduceAt(l, idss, half, b, heads, d, z, o);
    }
  }

  /** The head ids of all ranks. */
  ghost function AllIds(world: nat, heads: nat): (idss: seq<seq<nat>>)
    requires world > 0
    ensures |idss| == world && forall r :: 0 <= r < world ==> idss[r] == HeadIds(heads, world, r)
  {
    seq(world, r requires 0 <= r < world => HeadIds(heads, world, r))
  }

  lemma EvenRuns(heads: nat, world: nat, d: nat) returns (b: seq<nat>)
    requires EvenPerRank(heads, world)
    ensures |b| == world + 1 && Cuts(b, heads / 2) && heads == heads / 2 + heads / 2
    ensures forall r :: 0 <= r < world ==>
      HoldsRun(HeadIds(heads, world, r), b, heads / 2, r) && Fit(HeadIds(heads, world, r), heads, d)
  {
    var c, p := Consecutive(0, world + 1), heads / world / 2;
    Halves(heads, world, p);
    ScaledCuts(c, world, p);
    b := Scaled(c, p);
    forall r | 0 <= r < world
      ensures HoldsRun(HeadIds(heads, world, r), b, heads / 2, r) && Fit(HeadIds(heads, world, r), heads, d)
    {
      EvenRun(heads, world, p, b, r);
      IdsFit(heads, world, r, d);
    }
  }

  lemma EvenRun(heads: nat, world: nat, p: nat, b: seq<nat>, r: nat)
    requires EvenPerRank(heads, world) && p == heads / world / 2 && Cuts(b, heads / 2) && r < world && |b| == world + 1
    requires b[r] == Times(r, p) && b[r + 1] == Times(r + 1, p)
    ensures HoldsRun(HeadIds(heads, world, r), b, heads / 2, r)
  {
    EvenIds(heads, world, p, r);
  }

  /** Even heads per rank: the output projection cannot be sharded exactly if it has a bias and there are several
      ranks; otherwise the sum over all ranks of the output shards, each fed the heads its own value shard produces,
      is the full projection. */
  lemma OutProjectionReduce(l: Layer, heads: nat, world: nat, d: nat, z: Vec)
    requires EvenPerRank(heads, world) && l.Valid() && l.inputs == |z| == Times(heads, d)
    ensures forall r :: 0 <= r < world ==> Fit(AllIds(world, heads)[r], heads, d)
    ensures forall r :: 0 <= r < world ==>
      (OutShard(l, AllIds(world, heads)[r], heads, d, world).Raised? <==> world > 1 && l.bias.Some?)
    ensures !(world > 1 && l.bias.Some?) ==>
      AllReduce(OutOutputs(l, AllIds(world, heads), heads, d, z), |l.weight|) == Run(l, z)
  {
    var b := EvenRuns(heads, world, d);
    if !BiasRefused(l, world) {
      OutReduce(l, AllIds(world, heads), heads / 2, b, heads, d, z);
    }
  }
}
