/**
 How a dimension is cut over the ranks (transformers/tensor_parallel.py: the descending loops of
 `shard_weights_by_head`, `shard_weights_by_block`, `TensorParallelConv2d.shard_weights` and `update_heads_info`).
 */
module Sharding {
  import opened LinearAlgebra
  import opened Multiples

  /** The share of the round with counter `i`: the rounds below `rem` get one unit more. */
  function Share(q: nat, rem: nat, i: nat): nat
  {
    if i < rem then q + 1 else q
  }

  /** The cut point before rank `r`; the counter of the rounds runs from world - 1 down to 0. */
  function CutFrom(q: nat, rem: nat, world: nat, unit: nat, r: nat): nat
    requires r <= world
  {
    if r == 0 then 0
    else CutFrom(q, rem, world, unit, r - 1) + Times(Share(q, rem, world - r), unit)
  }

  function CutsFrom(q: nat, rem: nat, world: nat, unit: nat): (b: seq<nat>)
    ensures |b| == world + 1 && forall r :: 0 <= r <= world ==> b[r] == CutFrom(q, rem, world, unit, r)
  {
    seq(world + 1, r requires 0 <= r <= world => CutFrom(q, rem, world, unit, r))
  }

  /** The cut points for `total` units. */
  function AllCuts(total: nat, world: nat, unit: nat): (b: seq<nat>)
    requires world > 0
    ensures |b| == world + 1
  {
    CutsFrom(total / world, total % world, world, unit)
  }

  /** The loop with its growing list of prefix sums. */
  method CutLoop(q: nat, rem: nat, world: nat, unit: nat) returns (bounds: seq<nat>)
    ensures bounds == CutsFrom(q, rem, world, unit)
  {
    ghost var cuts := CutsFrom(q, rem, world, unit);
    bounds := [0];
    for i := world downto 0
      invariant |bounds| == world - i + 1 && bounds == cuts[..world - i + 1]
    {
      var share := q;
      if i < rem {
        share := share + 1;
      }
      TimesIsProduct(share, unit);
      bounds := bounds + [bounds[|bounds| - 1] + share * unit];
    }
  }

  method CutRanks(total: nat, world: nat) returns (bounds: seq<nat>)
    requires world > 0
    ensures bounds == AllCuts(total, world, 1)
  {
    bounds := CutLoop(total / world, total % world, world, 1);
  }

  /** How many of the first `r` ranks get one unit more: only the last `rem` ranks do. */
  function Extras(rem: nat, world: nat, r: nat): nat
  {
    if r + rem > world then r + rem - world else 0
  }

  lemma {:induction false} CutClosed(q: nat, rem: nat, world: nat, unit: nat, r: nat)
    requires r <= world && rem <= world
    ensures CutFrom(q, rem, world, unit, r) == Times(Times(r, q) + Extras(rem, world, r), unit)
  {
    if r > 0 {
      CutClosed(q, rem, world, unit, r - 1);
      TimesAdd(Times(r - 1, q) + Extras(rem, world, r - 1), Share(q, rem, world - r), unit);
    }
  }

  /** An exact partition of total units whose shares differ by at most one unit. */
  lemma CutsPartition(total: nat, world: nat, unit: nat)
    requires world > 0
    ensures Cuts(AllCuts(total, world, unit), Times(total, unit))
    ensures forall r :: 0 <= r < world ==>
      AllCuts(total, world, unit)[r + 1] - AllCuts(total, world, unit)[r] in
        {Times(total / world, unit), Times(total / world + 1, unit)}
  {
    var q, rem := total / world, total % world;
    CutClosed(q, rem, world, unit, world);
    DivTimes(total, world);
    TimesCommutes(q, world);
    forall r, s | 0 <= r <= s <= world ensures CutFrom(q, rem, world, unit, r) <= CutFrom(q, rem, world, unit, s) {
      CutGrows(q, rem, world, unit, r, s);
    }
  }

  lemma {:induction false} CutGrows(q: nat, rem: nat, world: nat, unit: nat, r: nat, s: nat)
    requires r <= s <= world
    ensures CutFrom(q, rem, world, unit, r) <= CutFrom(q, rem, world, unit, s)
    decreases s
  {
    if r < s {
      CutGrows(q, rem, world, unit, r, s - 1);
    }
  }

  /** `cols_per_rank` of `shard_weights_by_block`: whole blocks if the size is a multiple of the block size. */
  function BlockCuts(total: nat, world: nat, block: nat): (b: seq<nat>)
    requires world > 0 && block > 0
    ensures |b| == world + 1
  {
    if total % block == 0 then AllCuts(total / block, world, block) else AllCuts(total, world, 1)
  }

  method CutBlocks(total: nat, world: nat, block: nat) returns (bounds: seq<nat>)
    requires world > 0 && block > 0
    ensures bounds == BlockCuts(total, world, block)
  {
    if total % block == 0 {
      var count := total / block;
      bounds := CutLoop(count / world, count % world, world, block);
    } else {
      bounds := CutRanks(total, world);
    }
  }

  /** Both cases cut 0 .. total exactly; whole blocks stay on one rank. */
  lemma BlockCutsPartition(total: nat, world: nat, block: nat)
    requires world > 0 && block > 0
    ensures Cuts(BlockCuts(total, world, block), total)
    ensures total % block == 0 ==> forall r :: 0 <= r <= world ==> BlockCuts(total, world, block)[r] % block == 0
  {
    if total % block == 0 {
      var count := total / block;
      CutsPartition(count, world, block);
      DivTimes(total, block);
      forall r | 0 <= r <= world ensures BlockCuts(total, world, block)[r] % block == 0 {
        CutClosed(count / world, count % world, world, block, r);
        TimesDiv(Times(r, count / world) + Extras(count % world, world, r), 0, block);
      }
    } else {
      CutsPartition(total, world, 1);
      TimesOne(total);
    }
  }

  /** Every cut point times `c`. */
  function Scaled(bounds: seq<nat>, c: nat): (b: seq<nat>)
    ensures |b| == |bounds| && forall r :: 0 <= r < |b| ==> b[r] == Times(bounds[r], c)
  {
    seq(|bounds|, r requires 0 <= r < |bounds| => Times(bounds[r], c))
  }

  lemma ScaledCuts(bounds: seq<nat>, total: nat, c: nat)
    requires Cuts(bounds, total)
    ensures Cuts(Scaled(bounds, c), Times(total, c))
  {
    forall r, s | 0 <= r <= s < |bounds| ensures Times(bounds[r], c) <= Times(bounds[s], c) {
      TimesMono(bounds[r], bounds[s], c);
    }
  }
}
