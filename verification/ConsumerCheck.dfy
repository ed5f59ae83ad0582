/**
 The check whether all consumers of an op quantize its output
 (quantization/_utils.py `_check_after_nodes_all_quantized_give_node`), and exactly when it can be trusted.
 */
module ConsumerCheck {
  import opened Basics
  import opened QuantGraph
  import opened Dataflow

  /** `input_tensor_force_inf_dtype` of every node: a dtype for each tensor argument. */
  type Force = seq<seq<Option<DType>>>

  ghost predicate ForceFits(g: Graph, force: Force)
  {
    |force| == |g.nodes| && forall c :: 0 <= c < |g.nodes| ==> |force[c]| == |g.nodes[c].inputs|
  }

  /** In addition, non-tensors have no dtype. */
  ghost predicate ForceTyped(g: Graph, force: Force)
  {
    ForceFits(g, force) && forall c, k :: 0 <= c < |g.nodes| && 0 <= k < |g.nodes[c].inputs| ==>
      (force[c][k].Some? <==> g.nodes[c].inputs[k].Some?)
  }

  predicate IsQuantizedArg(d: Option<DType>) { d.Some? && Quantized(d.value) }

  predicate AllArgsQuantized(force: Force, c: nat)
    requires c < |force|
  {
    forall k :: 0 <= k < |force[c]| ==> IsQuantizedArg(force[c][k])
  }

  /** `_check_after_nodes_all_quantized_give_node` */
  predicate AfterAllQuantized(g: Graph, force: Force, i: nat)
    requires Traced(g) && |force| == |g.nodes| && i < |g.nodes|
    decreases |g.orig| - Depth(g, i), |Post(g, i)| + 1
  {
    Post(g, i) != [] && PostsQuantized(g, force, i, 0)
  }

  /** The loop of that check from its `j`-th consumer on; an Identity ends it early. */
  predicate PostsQuantized(g: Graph, force: Force, i: nat, j: nat)
    requires Traced(g) && |force| == |g.nodes| && i < |g.nodes| && j <= |Post(g, i)|
    decreases |g.orig| - Depth(g, i), |Post(g, i)| - j
  {
    j == |Post(g, i)| ||
    var next := Post(g, i)[j];
    if g.nodes[next].qconfig.None? then g.nodes[next].kind.Identity? && AfterAllQuantized(g, force, next)
    else AllArgsQuantized(force, next) && PostsQuantized(g, force, i, j + 1)
  }

  /** Every consumer of `p`'s output, also behind Identity nodes, quantizes it. */
  ghost predicate Delivered(g: Graph, force: Force, p: nat)
    requires Traced(g) && IdentitiesAreUnary(g) && p < |g.nodes| && ForceFits(g, force)
  {
    forall c: nat, k: nat | Edge(g, c, k) && Downstream(g, p, Arg(g, c, k)) ::
      PassThrough(g.nodes[c]) || (g.nodes[c].qconfig.Some? && IsQuantizedArg(force[c][k]))
  }

  // ----- What the check looks at

  /** No Identity is among the first `j` consumers of `i`, so the loop can get to the next one. */
  predicate Reaches(g: Graph, i: nat, j: nat)
    requires i < |g.nodes| && j <= |Post(g, i)|
  {
    forall l :: 0 <= l < j ==> !PassThrough(g.nodes[Post(g, i)[l]])
  }

  /** A check of `i` that succeeds has looked at `c`: the consumers up to the first Identity, and those behind it. */
  ghost predicate Inspects(g: Graph, i: nat, c: nat)
    requires Traced(g) && i < |g.nodes|
    decreases |g.orig| - Depth(g, i)
  {
    exists j :: 0 <= j < |Post(g, i)| && Reaches(g, i, j) && InspectsVia(g, i, j, c)
  }

  ghost predicate InspectsVia(g: Graph, i: nat, j: nat, c: nat)
    requires Traced(g) && i < |g.nodes| && j < |Post(g, i)|
    decreases |g.orig| - Depth(g, i), 0
  {
    Post(g, i)[j] == c || (PassThrough(g.nodes[Post(g, i)[j]]) && Inspects(g, Post(g, i)[j], c))
  }

  /** The check can succeed: every consumer it looks at is quantizable and takes tensors only, and Identity nodes
      lead on. */
  ghost predicate CanPass(g: Graph, i: nat)
    requires Traced(g) && i < |g.nodes|
    decreases |g.orig| - Depth(g, i)
  {
    Post(g, i) != [] && forall j :: 0 <= j < |Post(g, i)| && Reaches(g, i, j) ==> PassesAt(g, i, j)
  }

  ghost predicate PassesAt(g: Graph, i: nat, j: nat)
    requires Traced(g) && i < |g.nodes| && j < |Post(g, i)|
    decreases |g.orig| - Depth(g, i), 0
  {
    var n := g.nodes[Post(g, i)[j]];
    if n.qconfig.None? then n.kind.Identity? && CanPass(g, Post(g, i)[j])
    else forall k :: 0 <= k < |n.inputs| ==> n.inputs[k].Some?
  }

  /** Every consumer downstream of `i` is looked at. */
  ghost predicate AllInspected(g: Graph, i: nat)
    requires Traced(g) && IdentitiesAreUnary(g) && i < |g.nodes|
  {
    forall c: nat, k: nat | Edge(g, c, k) && Downstream(g, i, Arg(g, c, k)) && !PassThrough(g.nodes[c]) ::
      Inspects(g, i, c)
  }

  // ----- What a result of the check means

  /** What the loop finds at the consumer with index `j`. */
  ghost predicate GoodAt(g: Graph, force: Force, i: nat, j: nat)
    requires Traced(g) && |force| == |g.nodes| && i < |g.nodes| && j < |Post(g, i)|
  {
    var next := Post(g, i)[j];
    if g.nodes[next].qconfig.None? then g.nodes[next].kind.Identity? && AfterAllQuantized(g, force, next)
    else AllArgsQuantized(force, next)
  }

  lemma LoopGood(g: Graph, force: Force, i: nat, l: nat)
    requires Traced(g) && IdentitiesAreUnary(g) && |force| == |g.nodes| && i < |g.nodes| && l < |Post(g, i)|
    requires PostsQuantized(g, force, i, 0) && Reaches(g, i, l)
    ensures GoodAt(g, force, i, l)
  {
    LoopGetsTo(g, force, i, l);
    LoopStep(g, force, i, l);
  }

  lemma {:induction false} LoopGetsTo(g: Graph, force: Force, i: nat, l: nat)
    requires Traced(g) && IdentitiesAreUnary(g) && |force| == |g.nodes| && i < |g.nodes| && l < |Post(g, i)|
    requires PostsQuantized(g, force, i, 0) && Reaches(g, i, l)
    ensures PostsQuantized(g, force, i, l)
  {
    if l > 0 {
      LoopGetsTo(g, force, i, l - 1);
      LoopStep(g, force, i, l - 1);
    }
  }

  lemma {:induction false} LoopSucceeds(g: Graph, force: Force, i: nat, j: nat)
    requires Traced(g) && IdentitiesAreUnary(g) && |force| == |g.nodes| && i < |g.nodes| && j <= |Post(g, i)|
    requires Reaches(g, i, j)
    requires forall l :: j <= l < |Post(g, i)| && Reaches(g, i, l) ==> GoodAt(g, force, i, l)
    ensures PostsQuantized(g, force, i, j)
    decreases |Post(g, i)| - j
  {
    if j < |Post(g, i)| {
      LoopStep(g, force, i, j);
      if !PassThrough(g.nodes[Post(g, i)[j]]) {
        LoopSucceeds(g, force, i, j + 1);
      }
    }
  }

  lemma LoopStep(g: Graph, force: Force, i: nat, j: nat)
    requires Traced(g) && IdentitiesAreUnary(g) && |force| == |g.nodes| && i < |g.nodes| && j < |Post(g, i)|
    ensures PostsQuantized(g, force, i, j) <==>
      GoodAt(g, force, i, j) && (PassThrough(g.nodes[Post(g, i)[j]]) || PostsQuantized(g, force, i, j + 1))
  {
  }

  /** A check that succeeds is right about every consumer it looked at. */
  lemma {:induction false} InspectedIsQuantized(g: Graph, force: Force, i: nat, c: nat)
    requires Traced(g) && IdentitiesAreUnary(g) && |force| == |g.nodes| && i < |g.nodes|
    requires AfterAllQuantized(g, force, i) && Inspects(g, i, c)
    ensures c < |g.nodes| && (PassThrough(g.nodes[c]) || (g.nodes[c].qconfig.Some? && AllArgsQuantized(force, c)))
    decreases |g.orig| - Depth(g, i)
  {
    var j :| 0 <= j < |Post(g, i)| && Reaches(g, i, j) && InspectsVia(g, i, j, c);
    LoopGood(g, force, i, j);
    if Post(g, i)[j] != c {
      InspectedIsQuantized(g, force, Post(g, i)[j], c);
    }
  }

  /** If it can succeed, it does so as soon as the consumers it looks at quantize. */
  lemma {:induction false} PassesIfInspected(g: Graph, force: Force, i: nat)
    requires Traced(g) && IdentitiesAreUnary(g) && ForceTyped(g, force) && i < |g.nodes| && CanPass(g, i)
    requires forall c: nat, k: nat | Edge(g, c, k) && g.nodes[c].qconfig.Some? && Inspects(g, i, c) ::
      IsQuantizedArg(force[c][k])
    ensures AfterAllQuantized(g, force, i)
    decreases |g.orig| - Depth(g, i)
  {
    forall j | 0 <= j < |Post(g, i)| && Reaches(g, i, j) ensures GoodAt(g, force, i, j) {
      var next := Post(g, i)[j];
      assert PassesAt(g, i, j);
      if PassThrough(g.nodes[next]) {
        forall c: nat, k: nat | Edge(g, c, k) && g.nodes[c].qconfig.Some? && Inspects(g, next, c)
          ensures IsQuantizedArg(force[c][k])
        {
          assert InspectsVia(g, i, j, c);
          assert Inspects(g, i, c);
        }
        PassesIfInspected(g, force, next);
      } else {
        assert InspectsVia(g, i, j, next);
        assert Inspects(g, i, next);
        assert forall k :: 0 <= k < |force[next]| ==> Edge(g, next, k);
      }
    }
    LoopSucceeds(g, force, i, 0);
  }

  lemma {:induction false} PassedCanPass(g: Graph, force: Force, i: nat)
    requires Traced(g) && IdentitiesAreUnary(g) && ForceTyped(g, force) && i < |g.nodes|
    requires AfterAllQuantized(g, force, i)
    ensures CanPass(g, i)
    decreases |g.orig| - Depth(g, i)
  {
    forall j | 0 <= j < |Post(g, i)| && Reaches(g, i, j) ensures PassesAt(g, i, j) {
      var next := Post(g, i)[j];
      LoopGood(g, force, i, j);
      if PassThrough(g.nodes[next]) {
        PassedCanPass(g, force, next);
      } else {
        assert forall k :: 0 <= k < |g.nodes[next].inputs| ==> IsQuantizedArg(force[next][k]);
      }
    }
  }

  /** The check succeeds exactly if it can, and all tensor arguments of the quantizable consumers it looks at are
      quantized. */
  lemma PassesExactly(g: Graph, force: Force, i: nat)
    requires Traced(g) && IdentitiesAreUnary(g) && ForceTyped(g, force) && i < |g.nodes|
    ensures AfterAllQuantized(g, force, i) <==>
      CanPass(g, i)
      && forall c: nat, k: nat | Edge(g, c, k) && g.nodes[c].qconfig.Some? && Inspects(g, i, c) ::
           IsQuantizedArg(force[c][k])
  {
    if AfterAllQuantized(g, force, i) {
      PassedCanPass(g, force, i);
      forall c: nat, k: nat | Edge(g, c, k) && g.nodes[c].qconfig.Some? && Inspects(g, i, c)
        ensures IsQuantizedArg(force[c][k])
      {
        InspectedIsQuantized(g, force, i, c);
      }
    } else if CanPass(g, i)
              && forall c: nat, k: nat | Edge(g, c, k) && g.nodes[c].qconfig.Some? && Inspects(g, i, c) ::
                   IsQuantizedArg(force[c][k]) {
      PassesIfInspected(g, force, i);
    }
  }

  lemma CheckedIsDelivered(g: Graph, force: Force, i: nat)
    requires Traced(g) && IdentitiesAreUnary(g) && i < |g.nodes| && ForceFits(g, force)
    requires AfterAllQuantized(g, force, i) && AllInspected(g, i)
    ensures Delivered(g, force, i)
  {
    forall c: nat, k: nat | Edge(g, c, k) && Downstream(g, i, Arg(g, c, k))
      ensures PassThrough(g.nodes[c]) || (g.nodes[c].qconfig.Some? && IsQuantizedArg(force[c][k]))
    {
      if !PassThrough(g.nodes[c]) {
        InspectedIsQuantized(g, force, i, c);
      }
    }
  }

  /** Every tensor argument is quantized, except those of node `c`. */
  function AllBut(g: Graph, c: nat): (force: Force)
    ensures |force| == |g.nodes| && forall x :: 0 <= x < |g.nodes| ==> |force[x]| == |g.nodes[x].inputs|
  {
    seq(|g.nodes|, x requires 0 <= x < |g.nodes| =>
      seq(|g.nodes[x].inputs|, k requires 0 <= k < |g.nodes[x].inputs| =>
        if g.nodes[x].inputs[k].None? then None else if x == c then Some(Float32) else Some(QInt8)))
  }

  /** The check can be trusted about node `i`, whatever the consumers decided. */
  ghost predicate Trustworthy(g: Graph, i: nat)
    requires Traced(g) && IdentitiesAreUnary(g) && i < |g.nodes|
  {
    forall force | ForceTyped(g, force) && AfterAllQuantized(g, force, i) :: Delivered(g, force, i)
  }

  /** It can be trusted exactly if it looks at every consumer downstream, or never succeeds. */
  lemma TrustworthyExactly(g: Graph, i: nat)
    requires Traced(g) && IdentitiesAreUnary(g) && i < |g.nodes|
    ensures Trustworthy(g, i) <==> (CanPass(g, i) ==> AllInspected(g, i))
  {
    if CanPass(g, i) && Trustworthy(g, i) {
      forall c: nat, k: nat | Edge(g, c, k) && Downstream(g, i, Arg(g, c, k)) && !PassThrough(g.nodes[c])
        ensures Inspects(g, i, c)
      {
        MissedConsumer(g, i, c, k);
      }
    }
    forall force | ForceTyped(g, force) && AfterAllQuantized(g, force, i) && (CanPass(g, i) ==> AllInspected(g, i))
      ensures Delivered(g, force, i)
    {
      PassedCanPass(g, force, i);
      CheckedIsDelivered(g, force, i);
    }
  }

  /** A consumer that is not looked at need not quantize for the check to succeed. */
  lemma MissedConsumer(g: Graph, i: nat, c: nat, k: nat)
    requires Traced(g) && IdentitiesAreUnary(g) && i < |g.nodes| && CanPass(g, i)
    requires Edge(g, c, k) && Downstream(g, i, Arg(g, c, k)) && !PassThrough(g.nodes[c])
    ensures ForceTyped(g, AllBut(g, c))
    ensures !Inspects(g, i, c) ==> AfterAllQuantized(g, AllBut(g, c), i) && !Delivered(g, AllBut(g, c), i)
  {
    AllButTyped(g, c);
    if !Inspects(g, i, c) {
      PassesIfInspected(g, AllBut(g, c), i);
    }
  }

  lemma AllButTyped(g: Graph, c: nat)
    ensures ForceTyped(g, AllBut(g, c))
    ensures forall x, k :: 0 <= x < |g.nodes| && 0 <= k < |g.nodes[x].inputs| && g.nodes[x].inputs[k].Some? ==>
      (IsQuantizedArg(AllBut(g, c)[x][k]) <==> x != c)
  {
  }
}
