/**
 Rewriting keeps the order of a graph's original nodes.
 */
module ConcatOrder {
  import opened Basics
  import opened LinearAlgebra
  import opened Fx
  import opened ConcatModules
  import opened ConcatRewrite
  import opened ConcatLinear
  import opened ConcatGroups

  /** Original nodes keep their order. */
  ghost predicate Ordered(nodes: seq<FxNode>, n0: nat)
  {
    nodes == [] ||
    (var front, last := nodes[..|nodes| - 1], nodes[|nodes| - 1];
     Ordered(front, n0) && Newer(last.id, Ids(front), n0))
  }

  ghost predicate Newer(n: NodeId, ids: set<NodeId>, n0: nat)
  {
    n < n0 ==> forall id :: id in ids && id < n0 ==> id < n
  }

  lemma OrderedStep(nodes: seq<FxNode>, n: FxNode, n0: nat)
    ensures Ordered(nodes + [n], n0) <==> Ordered(nodes, n0) && Newer(n.id, Ids(nodes), n0)
    ensures Ids(nodes + [n]) == Ids(nodes) + {n.id}
  {
    assert (nodes + [n])[..|nodes + [n]| - 1] == nodes;
  }

  lemma {:induction false} OrderedPrefix(a: seq<FxNode>, b: seq<FxNode>, n0: nat)
    requires Ordered(a + b, n0)
    ensures Ordered(a, n0)
    decreases |b|
  {
    if b == [] {
      assert a + b == a;
    } else {
      assert (a + b)[..|a + b| - 1] == a + b[..|b| - 1];
      OrderedPrefix(a, b[..|b| - 1], n0);
    }
  }

  lemma {:induction false} OrderedPositional(nodes: seq<FxNode>)
    requires Positional(nodes)
    ensures Ordered(nodes, |nodes|) && forall id :: id in Ids(nodes) <==> 0 <= id < |nodes|
  {
    PositionalPrefix(nodes, |nodes|, |nodes|);
    assert nodes[..|nodes|] == nodes;
  }

  lemma {:induction false} PositionalPrefix(nodes: seq<FxNode>, k: nat, n0: nat)
    requires Positional(nodes) && k <= |nodes|
    ensures Ordered(nodes[..k], n0) && forall id :: id in Ids(nodes[..k]) <==> 0 <= id < k
  {
    if k > 0 {
      PositionalPrefix(nodes, k - 1, n0);
      assert nodes[..k][..k - 1] == nodes[..k - 1];
    }
  }

  /** Nodes before position `k` are older originals, nodes after it newer ones. */
  lemma {:induction false} OrderedAround(nodes: seq<FxNode>, n0: nat, j: nat, k: nat)
    requires Ordered(nodes, n0) && j < k < |nodes| && nodes[j].id < n0 && nodes[k].id < n0
    ensures nodes[j].id < nodes[k].id
    decreases |nodes|
  {
    var front := nodes[..|nodes| - 1];
    if k < |nodes| - 1 {
      OrderedAround(front, n0, j, k);
    } else {
      assert front[j] == nodes[j];
      IdsMember(front, nodes[j].id);
    }
  }

  /** The originals of `nodes'` are among those of `nodes`. */
  ghost predicate OldIdsIn(nodes': seq<FxNode>, nodes: seq<FxNode>, n0: nat)
  {
    forall id :: id in Ids(nodes') && id < n0 ==> id in Ids(nodes)
  }

  lemma OrderedRewriteStep(nodes: seq<FxNode>, nodes': seq<FxNode>, n: FxNode, s: Substitution, dropped: set<NodeId>,
                           n0: nat)
    requires Ordered(nodes + [n], n0) && Ordered(nodes', n0) && OldIdsIn(nodes', nodes, n0)
    ensures Ordered(nodes' + Image(n, s, dropped), n0) && OldIdsIn(nodes' + Image(n, s, dropped), nodes + [n], n0)
  {
    OrderedStep(nodes, n, n0);
    if n.id in dropped {
      assert nodes' + Image(n, s, dropped) == nodes';
    } else {
      OrderedStep(nodes', n.(args := SubArgs(s, n.args)), n0);
    }
  }

  /** New nodes do not disturb the order. */
  lemma {:induction false} OrderedNew(pre: seq<FxNode>, added: seq<FxNode>, n0: nat)
    requires Ordered(pre, n0) && forall j :: 0 <= j < |added| ==> added[j].id >= n0
    ensures Ordered(pre + added, n0) && OldIdsIn(pre + added, pre, n0)
    decreases |added|
  {
    if added == [] {
      assert pre + added == pre;
    } else {
      var front, last := added[..|added| - 1], added[|added| - 1];
      OrderedNew(pre, front, n0);
      OrderedStep(pre + front, last, n0);
      assert pre + added == (pre + front) + [last];
    }
  }

  lemma LastOf(pre: seq<FxNode>, pre': seq<FxNode>, b: seq<FxNode>, s: Substitution, dropped: set<NodeId>)
    requires b != []
    ensures pre + b == (pre + b[..|b| - 1]) + [b[|b| - 1]]
    ensures pre' + Rewrite(b, s, dropped) ==
      (pre' + Rewrite(b[..|b| - 1], s, dropped)) + Image(b[|b| - 1], s, dropped)
  {
    assert b == b[..|b| - 1] + [b[|b| - 1]];
    Associate(pre, b[..|b| - 1], [b[|b| - 1]]);
    Associate(pre', Rewrite(b[..|b| - 1], s, dropped), Image(b[|b| - 1], s, dropped));
  }

  lemma Associate(p: seq<FxNode>, q: seq<FxNode>, r: seq<FxNode>)
    ensures p + (q + r) == (p + q) + r
  {
  }

  /** Dropping and redirecting keep the order of the rest. */
  lemma {:induction false} OrderedRewrite(pre: seq<FxNode>, pre': seq<FxNode>, b: seq<FxNode>,
                                          s: Substitution, dropped: set<NodeId>, n0: nat)
    requires Ordered(pre + b, n0) && Ordered(pre', n0) && OldIdsIn(pre', pre, n0)
    ensures Ordered(pre' + Rewrite(b, s, dropped), n0) && OldIdsIn(pre' + Rewrite(b, s, dropped), pre + b, n0)
    decreases |b|
  {
    if b == [] {
      assert pre + b == pre && pre' + Rewrite(b, s, dropped) == pre';
    } else {
      var front, n := b[..|b| - 1], b[|b| - 1];
      LastOf(pre, pre', b, s, dropped);
      OrderedPrefix(pre + front, [n], n0);
      OrderedRewrite(pre, pre', front, s, dropped, n0);
      OrderedRewriteStep(pre + front, pre' + Rewrite(front, s, dropped), n, s, dropped, n0);
    }
  }

  lemma {:induction false} UniqueIds(nodes: seq<FxNode>, j: nat, k: nat)
    requires Topological(nodes) && j < |nodes| && k < |nodes| && nodes[j].id == nodes[k].id
    ensures j == k
    decreases |nodes|
  {
    var front := nodes[..|nodes| - 1];
    if j < |nodes| - 1 && k < |nodes| - 1 {
      UniqueIds(front, j, k);
    } else if j < |nodes| - 1 {
      assert front[j].id == nodes[j].id;
      IdsMember(front, nodes[j].id);
    } else if k < |nodes| - 1 {
      assert front[k].id == nodes[k].id;
      IdsMember(front, nodes[k].id);
    }
  }

  lemma InRest(nodes: seq<FxNode>, n0: nat, p: nat, n: FxNode)
    requires Ordered(nodes, n0) && p < |nodes| && n in nodes && nodes[p].id < n.id < n0
    ensures n in nodes[p + 1..]
  {
    var q :| 0 <= q < |nodes| && nodes[q] == n;
    LaterInGraph(nodes, n0, p, q);
    assert nodes[p + 1..][q - p - 1] == n;
  }

  lemma LaterInGraph(nodes: seq<FxNode>, n0: nat, p: nat, q: nat)
    requires Ordered(nodes, n0) && p < |nodes| && q < |nodes| && nodes[p].id < nodes[q].id < n0
    ensures p < q
  {
    if q < p {
      OrderedAround(nodes, n0, q, p);
    }
  }
}
