/**
 Attention sharded by heads (transformers/tensor_parallel.py `shard_weights_by_head`, `shard_mha_weights`):
 every rank holds whole key/value heads together with all query heads that use them.
 */
module ShardedAttention {
  import opened Basics
  import opened LinearAlgebra
  import opened Multiples
  import opened Sharding
  import opened TensorParallel

  /** Attention of one head over all tokens; what it computes does not matter here. */
  type Attend = (seq<Vec>, seq<Vec>, seq<Vec>) -> seq<Vec>

  /** On `tokens` rows of queries, keys and values, one output row of width `d` per token. */
  ghost predicate Shaped(attend: Attend, tokens: nat, d: nat)
  {
    forall q, k, v :: |q| == |k| == |v| == tokens ==>
      |attend(q, k, v)| == tokens && forall t :: 0 <= t < tokens ==> |attend(q, k, v)[t]| == d
  }

  // ----- Heads as slices

  function Head<T>(v: seq<T>, h: nat, d: nat): (p: seq<T>)
    requires Times(h, d) + d <= |v|
    ensures |p| == d
  {
    v[Times(h, d)..Times(h, d) + d]
  }

  /** Head `h` of every token. */
  function HeadRows(outs: seq<Vec>, h: nat, d: nat): (rows: seq<Vec>)
    requires forall t :: 0 <= t < |outs| ==> Times(h, d) + d <= |outs[t]|
    ensures |rows| == |outs| && forall t :: 0 <= t < |outs| ==> rows[t] == Head(outs[t], h, d)
  {
    seq(|outs|, t requires 0 <= t < |outs| => Head(outs[t], h, d))
  }

  ghost predicate Wide(outs: seq<Vec>, tokens: nat, width: nat)
  {
    |outs| == tokens && forall t :: 0 <= t < |outs| ==> |outs[t]| == width
  }

  /** What query head `h` computes with key/value head `kv`. */
  ghost function HeadOut(attend: Attend, q: seq<Vec>, k: seq<Vec>, v: seq<Vec>, h: nat, kv: nat, d: nat): (o: seq<Vec>)
    requires forall t :: 0 <= t < |q| ==> Times(h, d) + d <= |q[t]|
    requires forall t :: 0 <= t < |k| ==> Times(kv, d) + d <= |k[t]|
    requires forall t :: 0 <= t < |v| ==> Times(kv, d) + d <= |v[t]|
  {
    attend(HeadRows(q, h, d), HeadRows(k, kv, d), HeadRows(v, kv, d))
  }

  /** Query head `h` of token `t`; `group` query heads share a key/value head. */
  ghost function TokenHead(attend: Attend, q: seq<Vec>, k: seq<Vec>, v: seq<Vec>, group: nat, d: nat, tokens: nat,
                           heads: nat, kvHeads: nat, h: nat, t: nat): (out: Vec)
    requires group > 0 && heads == Times(kvHeads, group) && Shaped(attend, tokens, d) && t < tokens && h < heads
    requires Wide(q, tokens, Times(heads, d)) && Wide(k, tokens, Times(kvHeads, d))
    requires Wide(v, tokens, Times(kvHeads, d))
    ensures |out| == d
  {
    TimesEnd(h, heads, d);
    DivBelow(h, kvHeads, group);
    TimesEnd(h / group, kvHeads, d);
    HeadOut(attend, q, k, v, h, h / group, d)[t]
  }

  /** The heads of token `t`, one after the other. */
  ghost function TokenHeads(attend: Attend, q: seq<Vec>, k: seq<Vec>, v: seq<Vec>, group: nat, d: nat, tokens: nat,
                            heads: nat, kvHeads: nat, t: nat): (hs: seq<Vec>)
    requires group > 0 && heads == Times(kvHeads, group) && Shaped(attend, tokens, d) && t < tokens
    requires Wide(q, tokens, Times(heads, d)) && Wide(k, tokens, Times(kvHeads, d))
    requires Wide(v, tokens, Times(kvHeads, d))
    ensures |hs| == heads && forall h :: 0 <= h < heads ==> |hs[h]| == d
  {
    seq(heads, h requires 0 <= h < heads => TokenHead(attend, q, k, v, group, d, tokens, heads, kvHeads, h, t))
  }

  // ----- Slices of uniform pieces

  lemma {:induction false} FlatPrefix(pieces: seq<Vec>, d: nat, j: nat)
    requires j <= |pieces| && forall h :: 0 <= h < |pieces| ==> |pieces[h]| == d
    ensures Times(j, d) <= |Flat(pieces)| && Flat(pieces)[..Times(j, d)] == Flat(pieces[..j])
    decreases |pieces|
  {
    FlatUniform(pieces, d);
    TimesMono(j, |pieces|, d);
    if j == |pieces| {
      assert pieces[..j] == pieces;
    } else {
      var front := pieces[..|pieces| - 1];
      FlatPrefix(front, d, j);
      assert front[..j] == pieces[..j];
    }
  }

  lemma SuffixSlice<T>(s: seq<T>, a: seq<T>, b: seq<T>, lo: nat, hi: nat)
    requires hi <= |s| && s[..hi] == a + b && lo == |a|
    ensures lo <= hi && s[lo..hi] == b
  {
    assert s[lo..hi] == s[..hi][lo..];
  }

  lemma FlatTwo(pieces: seq<Vec>, i: nat, j: nat)
    requires i <= j <= |pieces|
    ensures Flat(pieces[..j]) == Flat(pieces[..i]) + Flat(pieces[i..j])
  {
    assert pieces[..j] == pieces[..i] + pieces[i..j];
    FlatAppend(pieces[..i], pieces[i..j]);
  }

  lemma FlatSub(pieces: seq<Vec>, d: nat, i: nat, j: nat)
    requires i <= j <= |pieces| && forall h :: 0 <= h < |pieces| ==> |pieces[h]| == d
    ensures Times(i, d) <= Times(j, d) <= |Flat(pieces)|
    ensures Flat(pieces)[Times(i, d)..Times(j, d)] == Flat(pieces[i..j])
  {
    FlatPrefix(pieces, d, j);
    FlatUniform(pieces[..i], d);
    FlatTwo(pieces, i, j);
    SuffixSlice(Flat(pieces), Flat(pieces[..i]), Flat(pieces[i..j]), Times(i, d), Times(j, d));
  }

  lemma SliceOfSlice<T>(v: seq<T>, a: nat, b: nat, c: nat, e: nat)
    requires a <= b <= |v| && c <= e <= b - a
    ensures v[a..b][c..e] == v[a + c..a + e]
  {
    var x, y := v[a..b][c..e], v[a + c..a + e];
    assert |x| == |y|;
    forall i | 0 <= i < e - c ensures x[i] == y[i] {
      assert x[i] == v[a..b][c + i];
    }
  }

  lemma PieceOffsets(lo: nat, hi: nat, h: nat, d: nat)
    requires lo + h < hi
    ensures Times(lo, d) <= Times(hi, d) && Times(h, d) + d <= Times(hi, d) - Times(lo, d)
    ensures Times(lo + h, d) == Times(lo, d) + Times(h, d)
  {
    TimesMono(lo, hi, d);
    TimesMono(lo + h + 1, hi, d);
    TimesAdd(lo, h, d);
    TimesAdd(lo + h, 1, d);
  }

  /** Head `h` of rank `r`'s piece is head lo + h of the whole. */
  lemma HeadOfPiece(v: Vec, lo: nat, hi: nat, h: nat, d: nat)
    requires lo + h < hi && Times(hi, d) <= |v|
    ensures Times(lo, d) <= Times(hi, d) && Times(h, d) + d <= Times(hi, d) - Times(lo, d)
    ensures Times(lo + h, d) + d <= |v|
    ensures Head(v[Times(lo, d)..Times(hi, d)], h, d) == Head(v, lo + h, d)
  {
    PieceOffsets(lo, hi, h, d);
    SliceOfSlice(v, Times(lo, d), Times(hi, d), Times(h, d), Times(h, d) + d);
  }

  // ----- One rank

  /** The columns of heads lo .. hi for every token. */
  function HeadRange(outs: seq<Vec>, lo: nat, hi: nat, d: nat): (part: seq<Vec>)
    requires Times(lo, d) <= Times(hi, d) && forall t :: 0 <= t < |outs| ==> Times(hi, d) <= |outs[t]|
    ensures |part| == |outs| && forall t :: 0 <= t < |outs| ==> part[t] == outs[t][Times(lo, d)..Times(hi, d)]
  {
    seq(|outs|, t requires 0 <= t < |outs| => outs[t][Times(lo, d)..Times(hi, d)])
  }

  lemma RangeRows(outs: seq<Vec>, tokens: nat, width: nat, lo: nat, hi: nat, h: nat, d: nat)
    requires Wide(outs, tokens, width) && lo + h < hi && Times(hi, d) <= width
    ensures Times(lo, d) <= Times(hi, d) && Times(h, d) + d <= Times(hi, d) - Times(lo, d)
    ensures Times(lo + h, d) + d <= width
    ensures HeadRows(HeadRange(outs, lo, hi, d), h, d) == HeadRows(outs, lo + h, d)
  {
    TimesMono(lo, hi, d);
    TimesMono(lo + h + 1, hi, d);
    TimesAdd(lo, h, d);
    TimesAdd(lo + h, 1, d);
    forall t | 0 <= t < tokens
      ensures Head(HeadRange(outs, lo, hi, d)[t], h, d) == Head(outs[t], lo + h, d)
    {
      HeadOfPiece(outs[t], lo, hi, h, d);
    }
  }

  lemma DivShift(a: nat, h: nat, group: nat)
    requires group > 0
    ensures (Times(a, group) + h) / group == a + h / group
  {
    DivTimes(h, group);
    TimesAdd(a, h / group, group);
    TimesDiv(a + h / group, h % group, group);
  }

  /** The shapes of rank-local projections that hold key/value heads a .. b. */
  lemma RangeWide(outs: seq<Vec>, tokens: nat, heads: nat, lo: nat, hi: nat, d: nat)
    requires Wide(outs, tokens, Times(heads, d)) && lo <= hi <= heads
    ensures Times(lo, d) <= Times(hi, d) <= Times(heads, d)
    ensures Wide(HeadRange(outs, lo, hi, d), tokens, Times(hi - lo, d))
  {
    TimesMono(lo, hi, d);
    TimesMono(hi, heads, d);
    TimesAdd(lo, hi - lo, d);
  }

  /** The query, key and value columns that a rank with key/value heads a .. b computes. */
  ghost predicate RankColumns(lq: seq<Vec>, lk: seq<Vec>, lv: seq<Vec>, q: seq<Vec>, k: seq<Vec>, v: seq<Vec>,
                              d: nat, tokens: nat, heads: nat, kvHeads: nat, a: nat, b: nat, qa: nat, qb: nat)
    requires Wide(q, tokens, Times(heads, d)) && Wide(k, tokens, Times(kvHeads, d))
    requires Wide(v, tokens, Times(kvHeads, d))
  {
    && qa <= qb && a <= b && Times(qa, d) <= Times(qb, d) <= Times(heads, d)
    && Times(a, d) <= Times(b, d) <= Times(kvHeads, d)
    && lq == HeadRange(q, qa, qb, d) && lk == HeadRange(k, a, b, d) && lv == HeadRange(v, a, b, d)
    && Wide(lq, tokens, Times(qb - qa, d)) && Wide(lk, tokens, Times(b - a, d)) && Wide(lv, tokens, Times(b - a, d))
  }

  lemma RankTokenHead(attend: Attend, lq: seq<Vec>, lk: seq<Vec>, lv: seq<Vec>, q: seq<Vec>, k: seq<Vec>, v: seq<Vec>,
                      group: nat, d: nat, tokens: nat, heads: nat, kvHeads: nat, a: nat, b: nat, qa: nat, qb: nat,
                      h: nat, t: nat)
    requires group > 0 && heads == Times(kvHeads, group) && Shaped(attend, tokens, d) && t < tokens && a <= b <= kvHeads
    requires qa == Times(a, group) && qa + h < qb <= heads && qb - qa == Times(b - a, group)
    requires Wide(q, tokens, Times(heads, d)) && Wide(k, tokens, Times(kvHeads, d))
    requires Wide(v, tokens, Times(kvHeads, d))
    requires RankColumns(lq, lk, lv, q, k, v, d, tokens, heads, kvHeads, a, b, qa, qb)
    ensures TokenHead(attend, lq, lk, lv, group, d, tokens, qb - qa, b - a, h, t) ==
      TokenHead(attend, q, k, v, group, d, tokens, heads, kvHeads, qa + h, t)
  {
    DivBelow(h, b - a, group);
    DivShift(a, h, group);
    RankHead(attend, q, k, v, d, tokens, Times(heads, d), Times(kvHeads, d), qa, qb, a, b, h, h / group);
  }

  /** A rank that holds key/value heads a .. b computes exactly the query heads a * group .. b * group. */
  lemma RankHeads(attend: Attend, lq: seq<Vec>, lk: seq<Vec>, lv: seq<Vec>, q: seq<Vec>, k: seq<Vec>, v: seq<Vec>,
                  group: nat, d: nat, tokens: nat, heads: nat, kvHeads: nat, a: nat, b: nat, qa: nat, qb: nat, t: nat)
    requires group > 0 && heads == Times(kvHeads, group) && Shaped(attend, tokens, d) && t < tokens && a <= b <= kvHeads
    requires qa == Times(a, group) && qa <= qb <= heads && qb - qa == Times(b - a, group)
    requires Wide(q, tokens, Times(heads, d)) && Wide(k, tokens, Times(kvHeads, d))
    requires Wide(v, tokens, Times(kvHeads, d))
    requires RankColumns(lq, lk, lv, q, k, v, d, tokens, heads, kvHeads, a, b, qa, qb)
    ensures TokenHeads(attend, lq, lk, lv, group, d, tokens, qb - qa, b - a, t) ==
      TokenHeads(attend, q, k, v, group, d, tokens, heads, kvHeads, t)[qa..qb]
  {
    var mine := TokenHeads(attend, lq, lk, lv, group, d, tokens, qb - qa, b - a, t);
    var all := TokenHeads(attend, q, k, v, group, d, tokens, heads, kvHeads, t);
    forall h | 0 <= h < qb - qa ensures mine[h] == all[qa + h] {
      RankTokenHead(attend, lq, lk, lv, q, k, v, group, d, tokens, heads, kvHeads, a, b, qa, qb, h, t);
    }
    assert mine == all[qa..qb];
  }

  lemma RankHead(attend: Attend, q: seq<Vec>, k: seq<Vec>, v: seq<Vec>, d: nat, tokens: nat, qWidth: nat, kvWidth: nat,
                 qlo: nat, qhi: nat, lo: nat, hi: nat, h: nat, kv: nat)
    requires Wide(q, tokens, qWidth) && Wide(k, tokens, kvWidth) && Wide(v, tokens, kvWidth)
    requires qlo + h < qhi && Times(qhi, d) <= qWidth && lo + kv < hi && Times(hi, d) <= kvWidth
    ensures Times(qlo, d) <= Times(qhi, d) && Times(h, d) + d <= Times(qhi, d) - Times(qlo, d)
    ensures Times(qlo + h, d) + d <= qWidth
    ensures Times(lo, d) <= Times(hi, d) && Times(kv, d) + d <= Times(hi, d) - Times(lo, d)
    ensures Times(lo + kv, d) + d <= kvWidth
    ensures HeadOut(attend, HeadRange(q, qlo, qhi, d), HeadRange(k, lo, hi, d), HeadRange(v, lo, hi, d), h, kv, d)
            == HeadOut(attend, q, k, v, qlo + h, lo + kv, d)
  {
    RangeRows(q, tokens, qWidth, qlo, qhi, h, d);
    RangeRows(k, tokens, kvWidth, lo, hi, kv, d);
    RangeRows(v, tokens, kvWidth, lo, hi, kv, d);
  }

  // ----- The sharded layer

  /** The projections of an attention layer; `group` query heads share one of `kvHeads` key/value heads. */
  datatype Attention = Attention(q: Layer, k: Layer, v: Layer, out: Layer, group: nat, kvHeads: nat, d: nat) {
    ghost predicate Valid()
    {
      && q.Valid() && k.Valid() && v.Valid() && out.Valid() && group > 0
      && q.inputs == k.inputs == v.inputs
      && |q.weight| == Times(Times(kvHeads, group), d) && |k.weight| == |v.weight| == Times(kvHeads, d)
      && out.inputs == Times(Times(kvHeads, group), d)
    }
  }

  function Project(l: Layer, xs: seq<Vec>): (ys: seq<Vec>)
    requires l.Valid() && forall t :: 0 <= t < |xs| ==> |xs[t]| == l.inputs
    ensures |ys| == |xs| && forall t :: 0 <= t < |xs| ==> ys[t] == Run(l, xs[t])
  {
    seq(|xs|, t requires 0 <= t < |xs| => Run(l, xs[t]))
  }

  /** The heads of token `t` in the full layer. */
  ghost function AllHeads(att: Attention, attend: Attend, xs: seq<Vec>, t: nat): (hs: seq<Vec>)
    requires att.Valid() && Shaped(attend, |xs|, att.d) && t < |xs|
    requires forall i :: 0 <= i < |xs| ==> |xs[i]| == att.q.inputs
    ensures |hs| == Times(att.kvHeads, att.group) && forall h :: 0 <= h < |hs| ==> |hs[h]| == att.d
  {
    TokenHeads(attend, Project(att.q, xs), Project(att.k, xs), Project(att.v, xs), att.group, att.d, |xs|,
               Times(att.kvHeads, att.group), att.kvHeads, t)
  }

  /** The full layer's input to the output projection, for token `t`. */
  ghost function FullHeads(att: Attention, attend: Attend, xs: seq<Vec>, t: nat): (o: Vec)
    requires att.Valid() && Shaped(attend, |xs|, att.d) && t < |xs|
    requires forall i :: 0 <= i < |xs| ==> |xs[i]| == att.q.inputs
    ensures |o| == att.out.inputs
  {
    var hs := AllHeads(att, attend, xs, t);
    FlatUniform(hs, att.d);
    Flat(hs)
  }

  /** Cut points in output columns: whole groups of query heads, and whole key/value heads. */
  function QueryCuts(kv: seq<nat>, group: nat, d: nat): seq<nat> { Scaled(Scaled(kv, group), d) }

  lemma HeadCutsPartition(kvHeads: nat, world: nat, group: nat, d: nat)
    requires world > 0
    ensures
      var kv := AllCuts(kvHeads, world, 1);
      Cuts(kv, kvHeads) && Cuts(QueryCuts(kv, group, d), Times(Times(kvHeads, group), d))
      && Cuts(Scaled(kv, d), Times(kvHeads, d))
  {
    CutsPartition(kvHeads, world, 1);
    TimesOne(kvHeads);
    var kv := AllCuts(kvHeads, world, 1);
    ScaledCuts(kv, kvHeads, group);
    ScaledCuts(Scaled(kv, group), Times(kvHeads, group), d);
    ScaledCuts(kv, kvHeads, d);
  }

  ghost predicate Attends(att: Attention, attend: Attend, xs: seq<Vec>, kv: seq<nat>, r: nat, t: nat)
  {
    && att.Valid() && Shaped(attend, |xs|, att.d) && t < |xs| && Cuts(kv, att.kvHeads) && r + 1 < |kv|
    && Cuts(QueryCuts(kv, att.group, att.d), Times(Times(att.kvHeads, att.group), att.d))
    && Cuts(Scaled(kv, att.d), Times(att.kvHeads, att.d))
    && (forall i :: 0 <= i < |xs| ==> |xs[i]| == att.q.inputs)
  }

  /** The heads rank `r` computes for token `t`, with its own shards only. */
  ghost function LocalHeads(att: Attention, attend: Attend, xs: seq<Vec>, kv: seq<nat>, r: nat, t: nat): (hs: seq<Vec>)
    requires Attends(att, attend, xs, kv, r, t)
    ensures |hs| == Times(kv[r + 1] - kv[r], att.group) && forall h :: 0 <= h < |hs| ==> |hs[h]| == att.d
  {
    var qb, kb, mine := QueryCuts(kv, att.group, att.d), Scaled(kv, att.d), kv[r + 1] - kv[r];
    ShardWidths(kv[r], kv[r + 1], att.group, att.d);
    ShardWide(att.q, qb, r, xs, Times(Times(mine, att.group), att.d));
    ShardWide(att.k, kb, r, xs, Times(mine, att.d));
    ShardWide(att.v, kb, r, xs, Times(mine, att.d));
    TokenHeads(attend, Project(ColumnShard(att.q, qb, r), xs), Project(ColumnShard(att.k, kb, r), xs),
               Project(ColumnShard(att.v, kb, r), xs), att.group, att.d, |xs|, Times(mine, att.group), mine, t)
  }

  lemma ShardWide(l: Layer, bounds: seq<nat>, r: nat, xs: seq<Vec>, width: nat)
    requires l.Valid() && Cuts(bounds, |l.weight|) && r + 1 < |bounds| && bounds[r + 1] - bounds[r] == width
    requires forall t :: 0 <= t < |xs| ==> |xs[t]| == l.inputs
    ensures ColumnShard(l, bounds, r).Valid() && ColumnShard(l, bounds, r).inputs == l.inputs
    ensures Wide(Project(ColumnShard(l, bounds, r), xs), |xs|, width)
  {
  }

  /** What rank `r` computes for token `t` before the reduction. */
  ghost function RankOut(att: Attention, attend: Attend, xs: seq<Vec>, kv: seq<nat>, r: nat, t: nat): (y: Vec)
    requires Attends(att, attend, xs, kv, r, t)
    ensures |y| == |att.out.weight|
  {
    var hs := LocalHeads(att, attend, xs, kv, r, t);
    ShardWidths(kv[r], kv[r + 1], att.group, att.d);
    FlatUniform(hs, att.d);
    Run(RowShard(att.out, QueryCuts(kv, att.group, att.d), r), Flat(hs))
  }

  lemma ShardWidths(a: nat, b: nat, group: nat, d: nat)
    requires a <= b
    ensures Times(a, group) <= Times(b, group) && Times(Times(a, group), d) <= Times(Times(b, group), d)
    ensures Times(Times(b, group), d) - Times(Times(a, group), d) == Times(Times(b - a, group), d)
    ensures Times(b, d) - Times(a, d) == Times(b - a, d)
    ensures Times(b, group) - Times(a, group) == Times(b - a, group)
  {
    TimesAdd(a, b - a, group);
    TimesAdd(Times(a, group), Times(b - a, group), d);
    TimesAdd(a, b - a, d);
  }

  /** A projection sharded by heads computes the head range of the full projection. */
  lemma ProjectRange(l: Layer, bounds: seq<nat>, r: nat, xs: seq<Vec>, lo: nat, hi: nat, d: nat)
    requires l.Valid() && Cuts(bounds, |l.weight|) && r + 1 < |bounds| && bounds[r] == Times(lo, d)
    requires bounds[r + 1] == Times(hi, d)
    requires forall t :: 0 <= t < |xs| ==> |xs[t]| == l.inputs
    ensures Times(lo, d) <= Times(hi, d) && Times(hi, d) <= |l.weight|
    ensures Project(ColumnShard(l, bounds, r), xs) == HeadRange(Project(l, xs), lo, hi, d)
  {
    forall t | 0 <= t < |xs|
      ensures Run(ColumnShard(l, bounds, r), xs[t]) == Run(l, xs[t])[Times(lo, d)..Times(hi, d)] {
      ColumnShardPiece(l, bounds, r, xs[t]);
    }
  }

  /** Rank `r` computes its range of the full heads. */
  lemma LocalHeadsAreRange(att: Attention, attend: Attend, xs: seq<Vec>, kv: seq<nat>, r: nat, t: nat)
    requires Attends(att, attend, xs, kv, r, t)
    ensures Times(kv[r], att.group) <= Times(kv[r + 1], att.group) <= Times(att.kvHeads, att.group)
    ensures LocalHeads(att, attend, xs, kv, r, t) ==
      AllHeads(att, attend, xs, t)[Times(kv[r], att.group)..Times(kv[r + 1], att.group)]
  {
    var qc, kc, a, b := QueryCuts(kv, att.group, att.d), Scaled(kv, att.d), kv[r], kv[r + 1];
    var qa, qb, heads := Times(a, att.group), Times(b, att.group), Times(att.kvHeads, att.group);
    TimesMono(b, att.kvHeads, att.group);
    ShardWidths(a, b, att.group, att.d);
    ProjectRange(att.q, qc, r, xs, qa, qb, att.d);
    ProjectRange(att.k, kc, r, xs, a, b, att.d);
    ProjectRange(att.v, kc, r, xs, a, b, att.d);
    var q, k, v := Project(att.q, xs), Project(att.k, xs), Project(att.v, xs);
    var lq, lk, lv := HeadRange(q, qa, qb, att.d), HeadRange(k, a, b, att.d), HeadRange(v, a, b, att.d);
    RangeWide(q, |xs|, heads, qa, qb, att.d);
    RangeWide(k, |xs|, att.kvHeads, a, b, att.d);
    RangeWide(v, |xs|, att.kvHeads, a, b, att.d);
    RankHeads(attend, lq, lk, lv, q, k, v, att.group, att.d, |xs|, heads, att.kvHeads, a, b, qa, qb, t);
  }

  /** Rank `r` feeds its row shard exactly its piece of the full heads. */
  lemma RankOutIsPiece(att: Attention, attend: Attend, xs: seq<Vec>, kv: seq<nat>, r: nat, t: nat)
    requires Attends(att, attend, xs, kv, r, t)
    ensures
      var qb := QueryCuts(kv, att.group, att.d);
      RankOut(att, attend, xs, kv, r, t) == Run(RowShard(att.out, qb, r), Piece(FullHeads(att, attend, xs, t), qb, r))
  {
    LocalHeadsAreRange(att, attend, xs, kv, r, t);
    FlatSub(AllHeads(att, attend, xs, t), att.d, Times(kv[r], att.group), Times(kv[r + 1], att.group));
  }

  /** Sharded attention equals unsharded attention, for every world size and every number of key/value heads. */
  lemma AttentionSharded(att: Attention, attend: Attend, xs: seq<Vec>, world: nat, t: nat)
    requires att.Valid() && Shaped(attend, |xs|, att.d) && t < |xs| && world > 0
    requires forall i :: 0 <= i < |xs| ==> |xs[i]| == att.q.inputs
    ensures
      var kv := AllCuts(att.kvHeads, world, 1);
      (forall r :: 0 <= r < world ==> Attends(att, attend, xs, kv, r, t))
      && AllReduce(seq(world, r requires 0 <= r < world => RankOut(att, attend, xs, kv, r, t)), |att.out.weight|) ==
         Run(att.out, FullHeads(att, attend, xs, t))
  {
    HeadCutsPartition(att.kvHeads, world, att.group, att.d);
    var kv := AllCuts(att.kvHeads, world, 1);
    var qb, heads := QueryCuts(kv, att.group, att.d), FullHeads(att, attend, xs, t);
    var outs := seq(world, r requires 0 <= r < world => RankOut(att, attend, xs, kv, r, t));
    forall r | 0 <= r < world ensures outs[r] == RowOutputs(att.out, qb, heads)[r] {
      RankOutIsPiece(att, attend, xs, kv, r, t);
    }
    assert outs == RowOutputs(att.out, qb, heads);
    RowReduce(att.out, qb, heads);
  }

  lemma HeadColumnStep(a: nat, b: nat, group: nat, d: nat, start: nat, end: nat)
    requires a <= b && start == a * group && end == start + (b - a) * group
    ensures Times(Times(b, group), d) == Times(Times(a, group), d) + (end - start) * d
  {
    TimesIsProduct(b - a, group);
    TimesIsProduct(end - start, d);
    ShardWidths(a, b, group, d);
  }

  /** `cols_per_rank` of `shard_weights_by_head`. */
  method HeadColumns(kv: seq<nat>, group: nat, d: nat, ghost kvHeads: nat) returns (cols: seq<nat>)
    requires Cuts(kv, kvHeads)
    ensures cols == QueryCuts(kv, group, d)
  {
    cols := [0];
    for i := 0 to |kv| - 1
      invariant |cols| == i + 1 && forall r :: 0 <= r <= i ==> cols[r] == QueryCuts(kv, group, d)[r]
    {
      var start := kv[i] * group;
      var end := start + (kv[i + 1] - kv[i]) * group;
      HeadColumnStep(kv[i], kv[i + 1], group, d, start, end);
      cols := cols + [cols[|cols| - 1] + (end - start) * d];
    }
  }

  /** With `heads / kvHeads` query heads per key/value head, the ranks cover all heads iff the division is exact. */
  lemma HeadsCovered(heads: nat, kvHeads: nat, world: nat, d: nat)
    requires world > 0 && kvHeads > 0 && d > 0
    ensures Cuts(QueryCuts(AllCuts(kvHeads, world, 1), heads / kvHeads, d), Times(heads, d)) <==> heads % kvHeads == 0
  {
    var covered := Times(kvHeads, heads / kvHeads);
    HeadCutsPartition(kvHeads, world, heads / kvHeads, d);
    CoveredHeads(heads, kvHeads, covered);
    CutsEnd(QueryCuts(AllCuts(kvHeads, world, 1), heads / kvHeads, d), Times(covered, d), Times(heads, d));
    if covered < heads {
      TimesEnd(covered, heads, d);
    }
  }

  lemma CoveredHeads(heads: nat, kvHeads: nat, covered: nat)
    requires kvHeads > 0 && covered == Times(kvHeads, heads / kvHeads)
    ensures covered <= heads && (covered == heads <==> heads % kvHeads == 0)
  {
    DivTimes(heads, kvHeads);
    TimesCommutes(heads / kvHeads, kvHeads);
  }

  lemma CutsEnd(b: seq<nat>, n: nat, m: nat)
    requires Cuts(b, n)
    ensures Cuts(b, m) <==> n == m
  {
  }

  // ----- A fused qkv projection

  /** Three column ranges, in this order and without overlap. */
  datatype Ranges = Ranges(q0: nat, q1: nat, k0: nat, k1: nat, v0: nat, v1: nat) {
    ghost predicate Within(n: nat) { q0 <= q1 <= k0 <= k1 <= v0 <= v1 <= n }
  }

  function Select<T>(m: seq<T>, c: Ranges): (s: seq<T>)
    requires c.Within(|m|)
    ensures |s| == c.q1 - c.q0 + (c.k1 - c.k0) + (c.v1 - c.v0)
  {
    m[c.q0..c.q1] + m[c.k0..c.k1] + m[c.v0..c.v1]
  }

  /** The columns of query heads q0 .. q1 and key/value heads k0 .. k1 when the output is all query, then all key,
      then all value heads. */
  function HeadRanges(heads: nat, kvHeads: nat, d: nat, q0: nat, q1: nat, k0: nat, k1: nat): Ranges
  {
    Ranges(Times(q0, d), Times(q1, d), Times(heads + k0, d), Times(heads + k1, d), Times(heads + kvHeads + k0, d),
      Times(heads + kvHeads + k1, d))
  }

  lemma HeadRangesWithin(heads: nat, kvHeads: nat, d: nat, q0: nat, q1: nat, k0: nat, k1: nat)
    requires q0 <= q1 <= heads && k0 <= k1 <= kvHeads
    ensures HeadRanges(heads, kvHeads, d, q0, q1, k0, k1).Within(Times(heads + kvHeads + kvHeads, d))
  {
    TimesMono(q0, q1, d);
    TimesMono(q1, heads + k0, d);
    TimesMono(heads + k0, heads + k1, d);
    TimesMono(heads + k1, heads + kvHeads + k0, d);
    TimesMono(heads + kvHeads + k0, heads + kvHeads + k1, d);
    TimesMono(heads + kvHeads + k1, heads + kvHeads + kvHeads, d);
  }

  /** The rows of a rank in a fused projection. */
  function FusedShard(l: Layer, c: Ranges): (s: Layer)
    requires l.Valid() && c.Within(|l.weight|)
    ensures s.Valid() && s.inputs == l.inputs
  {
    Layer(Select(l.weight, c), if l.bias.Some? then Some(Select(l.bias.value, c)) else None, l.inputs)
  }

  /** The fused shard computes the rank's query, key and value columns, in this order. */
  lemma FusedShardOut(l: Layer, c: Ranges, x: Vec)
    requires l.Valid() && c.Within(|l.weight|) && |x| == l.inputs
    ensures Run(FusedShard(l, c), x) == Select(Run(l, x), c)
  {
    var y, z := Run(FusedShard(l, c), x), Select(Run(l, x), c);
    forall i: nat | i < |z| ensures y[i] == z[i] {
      SelectAt(l.weight, c, i);
      SelectAt(Run(l, x), c, i);
      if l.bias.Some? {
        SelectAt(l.bias.value, c, i);
      }
    }
  }

  /** From all query, then all key, then all value columns, the ranges select whole heads of each. */
  lemma SelectsHeads<T>(q: seq<T>, k: seq<T>, v: seq<T>, heads: nat, kvHeads: nat, d: nat, q0: nat, q1: nat, k0: nat,
                        k1: nat)
    requires |q| == Times(heads, d) && |k| == |v| == Times(kvHeads, d) && q0 <= q1 <= heads && k0 <= k1 <= kvHeads
    ensures HeadRanges(heads, kvHeads, d, q0, q1, k0, k1).Within(|q + k + v|)
    ensures Times(q0, d) <= Times(q1, d) <= |q| && Times(k0, d) <= Times(k1, d) <= |k|
    ensures Select(q + k + v, HeadRanges(heads, kvHeads, d, q0, q1, k0, k1)) ==
      q[Times(q0, d)..Times(q1, d)] + k[Times(k0, d)..Times(k1, d)] + v[Times(k0, d)..Times(k1, d)]
  {
    TimesMono(q0, q1, d);
    TimesMono(q1, heads, d);
    TimesMono(k0, k1, d);
    TimesMono(k1, kvHeads, d);
    RangesAre(heads, kvHeads, d, q0, q1, k0, k1);
    SliceParts(q, k, v, Times(q0, d), Times(q1, d), Times(k0, d), Times(k1, d));
  }

  lemma RangesAre(heads: nat, kvHeads: nat, d: nat, q0: nat, q1: nat, k0: nat, k1: nat)
    ensures
      var a, b := Times(heads, d), Times(kvHeads, d);
      HeadRanges(heads, kvHeads, d, q0, q1, k0, k1) ==
        Ranges(Times(q0, d), Times(q1, d), a + Times(k0, d), a + Times(k1, d),
               a + b + Times(k0, d), a + b + Times(k1, d))
  {
    Offset(heads, kvHeads, k0, d);
    Offset(heads, kvHeads, k1, d);
  }

  lemma Offset(heads: nat, kvHeads: nat, k: nat, d: nat)
    ensures Times(heads + k, d) == Times(heads, d) + Times(k, d)
    ensures Times(heads + kvHeads + k, d) == Times(heads, d) + Times(kvHeads, d) + Times(k, d)
  {
    TimesAdd(heads, k, d);
    TimesAdd(heads, kvHeads, d);
    TimesAdd(heads + kvHeads, k, d);
  }

  lemma SliceParts<T>(q: seq<T>, k: seq<T>, v: seq<T>, a: nat, b: nat, c: nat, e: nat)
    requires a <= b <= |q| && c <= e <= |k| == |v|
    ensures (q + k + v)[a..b] == q[a..b] && (q + k + v)[|q| + c..|q| + e] == k[c..e]
    ensures (q + k + v)[|q| + |k| + c..|q| + |k| + e] == v[c..e]
  {
  }

  /** So a rank's shard of a fused projection computes what its shards of the three projections would. */
  lemma FusedShardHeads(l: Layer, q: Layer, k: Layer, v: Layer, heads: nat, kvHeads: nat, d: nat, q0: nat, q1: nat,
                        k0: nat, k1: nat, x: Vec)
    requires l.Valid() && q.Valid() && k.Valid() && v.Valid() && |x| == l.inputs == q.inputs == k.inputs == v.inputs
    requires |q.weight| == Times(heads, d) && |k.weight| == |v.weight| == Times(kvHeads, d)
    requires Run(l, x) == Run(q, x) + Run(k, x) + Run(v, x) && q0 <= q1 <= heads && k0 <= k1 <= kvHeads
    ensures HeadRanges(heads, kvHeads, d, q0, q1, k0, k1).Within(|l.weight|)
    ensures Times(q0, d) <= Times(q1, d) <= |q.weight| && Times(k0, d) <= Times(k1, d) <= |k.weight|
    ensures Run(FusedShard(l, HeadRanges(heads, kvHeads, d, q0, q1, k0, k1)), x) ==
      Run(q, x)[Times(q0, d)..Times(q1, d)] + Run(k, x)[Times(k0, d)..Times(k1, d)]
      + Run(v, x)[Times(k0, d)..Times(k1, d)]
  {
    SelectsHeads(Run(q, x), Run(k, x), Run(v, x), heads, kvHeads, d, q0, q1, k0, k1);
    FusedShardOut(l, HeadRanges(heads, kvHeads, d, q0, q1, k0, k1), x);
  }

  /** The column behind entry `i` of a selection. */
  function Column(c: Ranges, n: nat, i: nat): (k: nat)
    requires c.Within(n) && i < c.q1 - c.q0 + (c.k1 - c.k0) + (c.v1 - c.v0)
    ensures k < n
  {
    var nq, nk := c.q1 - c.q0, c.k1 - c.k0;
    if i < nq then c.q0 + i else if i < nq + nk then c.k0 + (i - nq) else c.v0 + (i - nq - nk)
  }

  lemma SelectAt<T>(m: seq<T>, c: Ranges, i: nat)
    requires c.Within(|m|) && i < |Select(m, c)|
    ensures Select(m, c)[i] == m[Column(c, |m|, i)]
  {
  }
}
