/**
 Column- and row-sharded linear layers (transformers/tensor_parallel.py) and the layers built from them.
 Collectives are exact: `allreduce_add` is a sum, `allgather` a concatenation.
 */
module TensorParallel {
  import opened Basics
  import opened LinearAlgebra
  import opened Sharding

  datatype Layer = Layer(weight: Matrix, bias: Option<Vec>, inputs: nat) {
    ghost predicate Valid()
    {
      && (forall o :: 0 <= o < |weight| ==> |weight[o]| == inputs)
      && (bias.Some? ==> |bias.value| == |weight|)
    }
  }

  function Run(l: Layer, x: Vec): (y: Vec)
    requires l.Valid() && |x| == l.inputs
    ensures |y| == |l.weight|
  {
    Forward(l.weight, l.bias, x)
  }

  /** A column shard: the output rows of rank `r`, with their bias. */
  function ColumnShard(l: Layer, bounds: seq<nat>, r: nat): (s: Layer)
    requires l.Valid() && Cuts(bounds, |l.weight|) && r + 1 < |bounds|
    ensures s.Valid() && s.inputs == l.inputs && |s.weight| == bounds[r + 1] - bounds[r]
  {
    Layer(Piece(l.weight, bounds, r),
          if l.bias.Some? then Some(Piece(l.bias.value, bounds, r)) else None, l.inputs)
  }

  /** A row shard: the input columns of rank `r`, with an equal part of the bias. */
  function RowShard(l: Layer, bounds: seq<nat>, r: nat): (s: Layer)
    requires l.Valid() && Cuts(bounds, l.inputs) && r + 1 < |bounds|
    ensures s.Valid() && s.inputs == bounds[r + 1] - bounds[r] && |s.weight| == |l.weight|
  {
    Layer(Columns(l.weight, bounds[r], bounds[r + 1]),
          if l.bias.Some? then Some(Scale(l.bias.value, 1.0 / (|bounds| - 1) as real)) else None,
          bounds[r + 1] - bounds[r])
  }

  /** A column shard computes its piece of the full output. */
  lemma ColumnShardPiece(l: Layer, bounds: seq<nat>, r: nat, x: Vec)
    requires l.Valid() && Cuts(bounds, |l.weight|) && r + 1 < |bounds| && |x| == l.inputs
    ensures Run(ColumnShard(l, bounds, r), x) == Piece(Run(l, x), bounds, r)
  {
  }

  /** What rank `r` contributes when it holds its piece of the input. */
  ghost function RowOutputs(l: Layer, bounds: seq<nat>, x: Vec): (outs: seq<Vec>)
    requires l.Valid() && Cuts(bounds, l.inputs) && |x| == l.inputs
    ensures |outs| == |bounds| - 1 && forall r :: 0 <= r < |outs| ==> |outs[r]| == |l.weight|
  {
    seq(|bounds| - 1, r requires 0 <= r < |bounds| - 1 => Run(RowShard(l, bounds, r), Piece(x, bounds, r)))
  }

  /** The sum over all ranks of a row-sharded layer is the full layer, bias included. */
  lemma RowReduce(l: Layer, bounds: seq<nat>, x: Vec)
    requires l.Valid() && Cuts(bounds, l.inputs) && |x| == l.inputs && |bounds| > 1
    ensures AllReduce(RowOutputs(l, bounds, x), |l.weight|) == Run(l, x)
  {
    forall o | 0 <= o < |l.weight| ensures SumOf(ColumnAt(RowOutputs(l, bounds, x), o)) == Run(l, x)[o] {
      RowReduceAt(l, bounds, x, o);
    }
  }

  function BiasShare(l: Layer, world: nat, o: nat): real
    requires world > 0 && (l.bias.Some? ==> o < |l.bias.value|)
  {
    if l.bias.Some? then l.bias.value[o] * (1.0 / world as real) else 0.0
  }

  lemma BiasShares(l: Layer, world: nat, o: nat)
    requires world > 0 && (l.bias.Some? ==> o < |l.bias.value|)
    ensures world as real * BiasShare(l, world, o) == if l.bias.Some? then l.bias.value[o] else 0.0
  {
  }

  /** Every rank's part of one bias entry; together they are the whole entry. */
  ghost function Shares(l: Layer, world: nat, o: nat): (ss: seq<real>)
    requires world > 0 && (l.bias.Some? ==> o < |l.bias.value|)
    ensures |ss| == world && forall r :: 0 <= r < world ==> ss[r] == BiasShare(l, world, o)
    ensures SumOf(ss) == if l.bias.Some? then l.bias.value[o] else 0.0
  {
    var ss := seq(world, _ => BiasShare(l, world, o));
    SumConst(ss, BiasShare(l, world, o));
    BiasShares(l, world, o);
    ss
  }

  lemma RowReduceAt(l: Layer, bounds: seq<nat>, x: Vec, o: nat)
    requires l.Valid() && Cuts(bounds, l.inputs) && |x| == l.inputs && |bounds| > 1 && o < |l.weight|
    ensures SumOf(ColumnAt(RowOutputs(l, bounds, x), o)) == Run(l, x)[o]
  {
    var xs, n := ColumnAt(RowOutputs(l, bounds, x), o), |bounds| - 1;
    var dots, shares := PieceDots(l.weight[o], x, bounds), Shares(l, n, o);
    forall r | 0 <= r < n ensures xs[r] == dots[r] + shares[r] {
      RowOutputAt(l, bounds, x, r, o);
    }
    SumAdd(dots, shares, xs);
    DotAllPieces(l.weight[o], x, bounds);
  }

  lemma RowOutputAt(l: Layer, bounds: seq<nat>, x: Vec, r: nat, o: nat)
    requires l.Valid() && Cuts(bounds, l.inputs) && |x| == l.inputs && r + 1 < |bounds| && o < |l.weight|
    ensures RowOutputs(l, bounds, x)[r][o] ==
      Dot(Piece(l.weight[o], bounds, r), Piece(x, bounds, r)) + BiasShare(l, |bounds| - 1, o)
  {
    assert RowShard(l, bounds, r).weight[o] == Piece(l.weight[o], bounds, r);
  }

  // ----- MLP

  /** An elementwise activation of two branches (gate and up projection). */
  function Activate(act: (real, real) -> real, g: Vec, u: Vec): (h: Vec)
    requires |g| == |u|
    ensures |h| == |g| && forall k :: 0 <= k < |h| ==> h[k] == act(g[k], u[k])
  {
    seq(|g|, k requires 0 <= k < |g| => act(g[k], u[k]))
  }

  lemma ActivatePiece(act: (real, real) -> real, g: Vec, u: Vec, bounds: seq<nat>, r: nat)
    requires |g| == |u| && Cuts(bounds, |g|) && r + 1 < |bounds|
    ensures Activate(act, Piece(g, bounds, r), Piece(u, bounds, r)) == Piece(Activate(act, g, u), bounds, r)
  {
  }

  /** Rank `r` of a sharded MLP: its columns of both branches, then its rows of the down projection. */
  function MlpRank(gate: Layer, up: Layer, down: Layer, act: (real, real) -> real, bounds: seq<nat>, r: nat,
                   x: Vec): (y: Vec)
    requires gate.Valid() && up.Valid() && down.Valid() && |x| == gate.inputs == up.inputs
    requires |gate.weight| == |up.weight| == down.inputs && Cuts(bounds, down.inputs) && r + 1 < |bounds|
    ensures |y| == |down.weight|
  {
    Run(RowShard(down, bounds, r),
        Activate(act, Run(ColumnShard(gate, bounds, r), x), Run(ColumnShard(up, bounds, r), x)))
  }

  /** The sharded MLP equals the full one for every world size, ragged widths included. */
  lemma MlpSharded(gate: Layer, up: Layer, down: Layer, act: (real, real) -> real, world: nat, x: Vec)
    requires gate.Valid() && up.Valid() && down.Valid() && |x| == gate.inputs == up.inputs
    requires |gate.weight| == |up.weight| == down.inputs && world > 0
    ensures
      var bounds := BlockCuts(down.inputs, world, 64);
      Cuts(bounds, down.inputs)
      && AllReduce(seq(world, r requires 0 <= r < world => MlpRank(gate, up, down, act, bounds, r, x)),
        |down.weight|) ==
         Run(down, Activate(act, Run(gate, x), Run(up, x)))
  {
    var bounds := BlockCuts(down.inputs, world, 64);
    BlockCutsPartition(down.inputs, world, 64);
    var h := Activate(act, Run(gate, x), Run(up, x));
    var outs := seq(world, r requires 0 <= r < world => MlpRank(gate, up, down, act, bounds, r, x));
    forall r | 0 <= r < world ensures outs[r] == RowOutputs(down, bounds, h)[r] {
      ColumnShardPiece(gate, bounds, r, x);
      ColumnShardPiece(up, bounds, r, x);
      ActivatePiece(act, Run(gate, x), Run(up, x), bounds, r);
    }
    assert outs == RowOutputs(down, bounds, h);
    RowReduce(down, bounds, h);
  }

  // ----- LM head

  /** Gather mode: the concatenation of all column shards is the full output. */
  lemma LmHeadGather(l: Layer, world: nat, x: Vec)
    requires l.Valid() && |x| == l.inputs && world > 0
    ensures
      var bounds := BlockCuts(|l.weight|, world, 64);
      Cuts(bounds, |l.weight|)
      && Flat(seq(world, r requires 0 <= r < world => Run(ColumnShard(l, bounds, r), x))) == Run(l, x)
  {
    var bounds := BlockCuts(|l.weight|, world, 64);
    BlockCutsPartition(|l.weight|, world, 64);
    var outs := seq(world, r requires 0 <= r < world => Run(ColumnShard(l, bounds, r), x));
    forall r | 0 <= r < world ensures outs[r] == Piece(Run(l, x), bounds, r) {
      ColumnShardPiece(l, bounds, r, x);
    }
    FlatPieces(Run(l, x), bounds, outs, world);
  }

  /** Reduce mode: every rank slices the replicated input, and the sum is the full output. */
  lemma LmHeadReduce(l: Layer, world: nat, x: Vec)
    requires l.Valid() && |x| == l.inputs && world > 0
    ensures
      var bounds := BlockCuts(l.inputs, world, 64);
      Cuts(bounds, l.inputs)
      && AllReduce(seq(world, r requires 0 <= r < world =>
           Run(RowShard(l, bounds, r), x[bounds[r]..bounds[r + 1]])), |l.weight|) == Run(l, x)
  {
    var bounds := BlockCuts(l.inputs, world, 64);
    BlockCutsPartition(l.inputs, world, 64);
    var outs := seq(world, r requires 0 <= r < world => Run(RowShard(l, bounds, r), x[bounds[r]..bounds[r + 1]]));
    assert outs == RowOutputs(l, bounds, x);
    RowReduce(l, bounds, x);
  }
}
