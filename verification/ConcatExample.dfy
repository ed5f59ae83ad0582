/**
 A graph whose module `a` is shared: `concat_linear` merges `a(x)` with `b(x)`, and with that changes the values of
 `a(y)` and of the parameter `a.weight`.
 */
module ConcatExample {
  import opened Basics
  import opened LinearAlgebra
  import opened Fx
  import opened ConcatModules
  import opened ConcatRewrite
  import opened ConcatLinear
  import opened ConcatGroups
  import opened ConcatSharing
  import opened ConcatPass

  const TRAITS: Traits := Traits("cpu", "float32", false)
  const X: FxNode := FxNode(0, Placeholder("x"), [])
  const Y: FxNode := FxNode(1, Placeholder("y"), [])
  const A_OF_X: FxNode := FxNode(2, CallModule("a"), [0])
  const B_OF_X: FxNode := FxNode(3, CallModule("b"), [0])
  const A_OF_Y: FxNode := FxNode(4, CallModule("a"), [1])
  const A_WEIGHT: FxNode := FxNode(5, GetAttr("a", "weight"), [])

  /** Linear `a` is called on `x` and on `y`, linear `b` on `x`, and the weight of `a` is read. */
  const SHARED: seq<FxNode> := [X, Y, A_OF_X, B_OF_X, A_OF_Y, A_WEIGHT]

  const MODULES: Modules :=
    map["a" := Linear([[1.0]], 1, TRAITS, None), "b" := Linear([[1.0]], 1, TRAITS, None)]

  /** Nodes that are numbered in order and use smaller numbers only are in execution order. */
  lemma {:induction false} NumberedTopological(nodes: seq<FxNode>, k: nat)
    requires Positional(nodes) && k <= |nodes|
    requires forall j, a :: 0 <= j < |nodes| && a in nodes[j].args ==> a < j
    ensures Topological(nodes[..k]) && forall id :: id in Ids(nodes[..k]) <==> 0 <= id < k
  {
    if k > 0 {
      NumberedTopological(nodes, k - 1);
      assert nodes[..k] == nodes[..k - 1] + [nodes[k - 1]];
      AppendNode(nodes[..k - 1], nodes[k - 1]);
    }
  }

  lemma SharedWellFormed()
    ensures WellFormed(SHARED, MODULES)
  {
    NumberedTopological(SHARED, 6);
    assert SHARED[..6] == SHARED;
  }

  /** The linears on `x` among the first `k` nodes. */
  function Listed(nodes: seq<FxNode>, k: nat, x: NodeId): seq<NodeId>
    requires k <= |nodes|
  {
    if k == 0 then []
    else Listed(nodes, k - 1, x) + if OnInput(nodes[k - 1], MODULES, x) then [nodes[k - 1].id] else []
  }

  lemma {:induction false} GroupIsListed(nodes: seq<FxNode>, k: nat, x: NodeId)
    requires k <= |nodes|
    ensures GroupOf(nodes[..k], MODULES, x) == Listed(nodes, k, x)
  {
    if k > 0 {
      GroupIsListed(nodes, k - 1, x);
      assert nodes[..k] == nodes[..k - 1] + [nodes[k - 1]];
      GroupSnoc(nodes[..k - 1], nodes[k - 1], MODULES, x);
    }
  }

  lemma SharedGroups(x: NodeId)
    ensures GroupOf(SHARED, MODULES, x) == if x == 0 then [2, 3] else if x == 1 then [4] else []
  {
    GroupIsListed(SHARED, 6, x);
    assert SHARED[..6] == SHARED;
    assert Listed(SHARED, 1, x) == [];
    assert Listed(SHARED, 2, x) == [];
    assert Listed(SHARED, 3, x) == if x == 0 then [2] else [];
    assert Listed(SHARED, 4, x) == if x == 0 then [2, 3] else [];
    assert Listed(SHARED, 5, x) == if x == 0 then [2, 3] else if x == 1 then [4] else [];
  }

  lemma SharedFine(x: NodeId)
    requires Positional(SHARED)
    ensures GroupFine(SHARED, MODULES, x)
  {
    SharedGroups(x);
    if x == 0 {
      var base, ids := MODULES["a"], [3];
      assert [2, 3][1..] == ids && ids[..|ids| - 1] == [];
      assert Partners(SHARED, MODULES, base, []) == Ok([]);
      assert Partners(SHARED, MODULES, base, ids) == Ok([] + ids);
    }
  }

  /** The call on `y` and the read weight use the module that is replaced. */
  lemma SharedUses(k: nat)
    requires k == 4 || k == 5
    ensures Spoils(SHARED, MODULES, 2, k)
  {
    SharedGroups(0);
    SharedGroups(1);
    assert Merges(SHARED, MODULES, 0, 3) && |ModuleAt(SHARED, MODULES, 3).weight| > 0;
  }

  lemma SharedVisible(k: nat, i: Interp)
    requires (k == 4 || k == 5) && i.inputs("y") == Tensor([[1.0]]) && Topological(SHARED)
    ensures k in Eval(SHARED, MODULES, i) && Visible(SHARED[k].op, Eval(SHARED, MODULES, i)[k])
  {
    NodeValue(SHARED, 1, MODULES, i);
    NodeValue(SHARED, k, MODULES, i);
  }

  /** The pass succeeds on the graph, and neither value is found again. */
  method RewriteShared(ghost i: Interp) returns (g: FxGraph, ok: bool, ghost rho: Substitution)
    requires i.inputs("y") == Tensor([[1.0]])
    ensures ok && 4 in Ids(SHARED) && 5 in Ids(SHARED) && Sub(rho, 4) in Ids(g.nodes) && Sub(rho, 5) in Ids(g.nodes)
    ensures Eval(g.nodes, g.modules, i)[Sub(rho, 4)] != Eval(SHARED, MODULES, i)[4]
    ensures Eval(g.nodes, g.modules, i)[Sub(rho, 5)] != Eval(SHARED, MODULES, i)[5]
  {
    g := new FxGraph(SHARED, MODULES, 6);
    SharedWellFormed();
    forall x ensures GroupFine(SHARED, MODULES, x) {
      SharedFine(x);
    }
    ok, rho := ConcatLinearPass(g);
    SharedChanges(rho, i, Eval(g.nodes, g.modules, i));
  }

  lemma SharedChanges(rho: Substitution, i: Interp, env: Env)
    requires i.inputs("y") == Tensor([[1.0]]) && Topological(SHARED)
    requires ChangesSpoilt(SHARED, MODULES, rho, Eval(SHARED, MODULES, i), env)
    ensures
      forall k :: 4 <= k <= 5 ==>
        k in Ids(SHARED) && Sub(rho, k) in env && env[Sub(rho, k)] != Eval(SHARED, MODULES, i)[k]
  {
    forall k | 4 <= k <= 5
      ensures k in Ids(SHARED) && Sub(rho, k) in env && env[Sub(rho, k)] != Eval(SHARED, MODULES, i)[k]
    {
      SharedUses(k);
      SharedVisible(k, i);
    }
  }
}
