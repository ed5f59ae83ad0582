/**
 Edges of the traced graph, and the tensors that are the same data seen through Identity nodes.
 */
module Dataflow {
  import opened Basics
  import opened QuantGraph

  /** Argument `k` of node `c` is a tensor. */
  predicate Edge(g: Graph, c: nat, k: nat)
  {
    c < |g.nodes| && k < |g.nodes[c].inputs| && g.nodes[c].inputs[k].Some?
  }

  function Arg(g: Graph, c: nat, k: nat): (t: TensorId)
    requires Edge(g, c, k)
    ensures Some(t) in g.nodes[c].inputs
    ensures Traced(g) ==> t < |g.orig|
  {
    g.nodes[c].inputs[k].value
  }

  // ----- Tensors seen through Identity nodes

  ghost predicate Produces(g: Graph, p: nat, t: TensorId)
  {
    p < |g.nodes| && t in g.nodes[p].outputs
  }

  /** The tensor whose contents `t` carries: Identity nodes are skipped. */
  ghost function Root(g: Graph, t: TensorId): TensorId
    requires Traced(g) && IdentitiesAreUnary(g)
  {
    if p: nat :| Produces(g, p, t) && PassThrough(g.nodes[p]) then
      assert g.nodes[p].inputs[0] in g.nodes[p].inputs;
      Root(g, g.nodes[p].inputs[0].value)
    else t
  }

  /** `t` carries an output of node `i`, possibly through Identity nodes. */
  ghost predicate Downstream(g: Graph, i: nat, t: TensorId)
    requires Traced(g) && IdentitiesAreUnary(g) && i < |g.nodes|
  {
    t in g.nodes[i].outputs
    || exists p: nat :: Produces(g, p, t) && PassThrough(g.nodes[p])
          && (assert g.nodes[p].inputs[0] in g.nodes[p].inputs; Downstream(g, i, g.nodes[p].inputs[0].value))
  }

  lemma {:induction false} DownstreamOfIdentity(g: Graph, i: nat, m: nat, t: TensorId)
    requires Traced(g) && IdentitiesAreUnary(g) && i < |g.nodes|
    requires m in Post(g, i) && PassThrough(g.nodes[m]) && Downstream(g, m, t)
    ensures Downstream(g, i, t)
    decreases t
  {
    if t in g.nodes[m].outputs {
      assert Produces(g, m, t);
      assert g.nodes[m].inputs[0].value in g.nodes[i].outputs;
      assert g.nodes[m].inputs[0] in g.nodes[m].inputs;
    } else {
      var p: nat :| Produces(g, p, t) && PassThrough(g.nodes[p]) && Downstream(g, m, g.nodes[p].inputs[0].value);
      assert g.nodes[p].inputs[0] in g.nodes[p].inputs;
      DownstreamOfIdentity(g, i, m, g.nodes[p].inputs[0].value);
    }
  }

  /** The recursive walk below a node meets exactly the tensors downstream of it. */
  lemma {:induction false} DownstreamByPost(g: Graph, i: nat, t: TensorId)
    requires Traced(g) && IdentitiesAreUnary(g) && i < |g.nodes|
    ensures Downstream(g, i, t) <==>
      t in g.nodes[i].outputs || exists m :: m in Post(g, i) && PassThrough(g.nodes[m]) && Downstream(g, m, t)
    decreases t
  {
    forall m | m in Post(g, i) && PassThrough(g.nodes[m]) && Downstream(g, m, t)
      ensures Downstream(g, i, t)
    {
      DownstreamOfIdentity(g, i, m, t);
    }
    if Downstream(g, i, t) && t !in g.nodes[i].outputs {
      var p: nat :| Produces(g, p, t) && PassThrough(g.nodes[p]) && Downstream(g, i, g.nodes[p].inputs[0].value);
      var u := g.nodes[p].inputs[0].value;
      assert g.nodes[p].inputs[0] in g.nodes[p].inputs;
      if u in g.nodes[i].outputs {
        assert Feeds(g, i, p) && Downstream(g, p, t);
      } else {
        DownstreamByPost(g, i, u);
        var m :| m in Post(g, i) && PassThrough(g.nodes[m]) && Downstream(g, m, u);
        assert Downstream(g, m, t);
      }
    }
  }

  lemma {:induction false} DownstreamIsRoot(g: Graph, p: nat, t: TensorId)
    requires Traced(g) && IdentitiesAreUnary(g) && p < |g.nodes| && !PassThrough(g.nodes[p])
    ensures Downstream(g, p, t) <==> Root(g, t) in g.nodes[p].outputs
    decreases t
  {
    if q: nat :| Produces(g, q, t) && PassThrough(g.nodes[q]) {
      assert g.nodes[q].inputs[0] in g.nodes[q].inputs;
      DownstreamIsRoot(g, p, g.nodes[q].inputs[0].value);
      assert forall r: nat :: Produces(g, r, t) ==> r == q;
    }
  }
}
