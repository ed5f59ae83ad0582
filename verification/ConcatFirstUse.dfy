/**
 The first other use of a replaced module in one edit of `concat_linear`: exactly when its value changes.
 */
module ConcatFirstUse {
  import opened Basics
  import opened LinearAlgebra
  import opened Fx
  import opened ConcatModules
  import opened ConcatRewrite
  import opened ConcatLinear
  import opened ConcatOrder
  import opened ConcatSteps
  import opened ConcatSharing

  /** `op` sees from its arguments that `ms` stand concatenated where the first of them stood. */
  ghost predicate Distinguishes(op: FxOp, args: seq<Value>, ms: seq<Module>)
    requires Compatible(ms)
  {
    && MoreOutputs(ms)
    && if op.CallModule? then |args| == 1 && HasWidth(args[0], ms[0].cols) && |args[0].rows| > 0
       else op.GetAttr? && (op.name == "weight" || (op.name == "bias" && ms[0].bias.Some?))
  }

  lemma DistinguishedExactly(op: FxOp, args: seq<Value>, ms: seq<Module>, m: Modules, i: Interp)
    requires Compatible(ms) && (op.CallModule? || op.GetAttr?) && op.target in m && m[op.target] == ms[0]
    ensures Compute(op, args, m[op.target := Concat(ms)], i) != Compute(op, args, m, i) <==> Distinguishes(op, args, ms)
  {
    ConcatGrows(ms);
    if op.CallModule? && |args| == 1 && HasWidth(args[0], ms[0].cols) {
      var was, now := ApplyLinear(ms[0], args[0]).rows, ApplyLinear(Concat(ms), args[0]).rows;
      assert |args[0].rows| == 0 ==> was == now;
      assert |args[0].rows| > 0 ==> |was[0]| == |ms[0].weight| && |now[0]| == |Concat(ms).weight|;
    }
    if op.GetAttr? && op.name == "bias" && ms[0].bias.Some? {
      assert Parameter(ms[0], "bias").rows[0] == ms[0].bias.value.values;
      assert Parameter(Concat(ms), "bias").rows[0] == Concat(ms).bias.value.values;
    }
  }

  /** One group's edit. */
  ghost predicate EditsGroup(nodes: seq<FxNode>, p: nat, layers: seq<FxNode>, x: NodeId, m: Modules, nextId: NodeId)
  {
    && Topological(nodes) && NumberedBelow(nodes, nextId) && p < |nodes|
    && IsGroup(nodes[..p], nodes[p], nodes[p + 1..], layers, x, m) && Compatible(ModulesOf(layers, m))
  }

  /** Node `k` is the first that is no layer but uses the first layer's module. */
  ghost predicate FirstOtherUse(nodes: seq<FxNode>, layers: seq<FxNode>, k: nat)
  {
    && k < |nodes| && |layers| > 0 && layers[0].op.CallModule?
    && Uses(nodes[k], layers[0].op.target) && nodes[k].id !in NodeIds(layers)
    && forall j :: 0 <= j < k && Uses(nodes[j], layers[0].op.target) ==> nodes[j].id in NodeIds(layers)
  }

  /** Its value changes with the edit exactly if the values of its arguments distinguish the modules. */
  lemma FirstUseChangesExactly(nodes: seq<FxNode>, p: nat, layers: seq<FxNode>, x: NodeId, m: Modules, nextId: NodeId,
                               k: nat, i: Interp)
    requires EditsGroup(nodes, p, layers, x, m, nextId) && FirstOtherUse(nodes, layers, k)
    ensures
      var nodes', m', id := EditedAt(nodes, p, layers, m, nextId), EditedModules(layers, m), nodes[k].id;
      && id in Ids(nodes) && id in Ids(nodes')
      && (Eval(nodes', m', i)[id] != Eval(nodes, m, i)[id] <==>
          Distinguishes(nodes[k].op, ArgValues(Eval(nodes, m, i), nodes[k].args), ModulesOf(layers, m)))
  {
    var nodes', m' := EditedAt(nodes, p, layers, m, nextId), EditedModules(layers, m);
    EditedTopological(nodes, p, layers, x, m, nextId);
    NotOther(layers, nodes[k].id);
    var k' := EditKeeps(nodes, p, layers, m, nextId, k);
    NodeValue(nodes, k, m, i);
    NodeValue(nodes', k', m', i);
    SameArguments(nodes, p, layers, x, m, nextId, k, k', i);
    DistinguishedExactly(nodes[k].op, ArgValues(Eval(nodes, m, i), nodes[k].args), ModulesOf(layers, m), m, i);
  }

  lemma EditedTopological(nodes: seq<FxNode>, p: nat, layers: seq<FxNode>, x: NodeId, m: Modules, nextId: NodeId)
    requires EditsGroup(nodes, p, layers, x, m, nextId)
    ensures Topological(EditedAt(nodes, p, layers, m, nextId))
  {
    var gs := Consecutive(nextId + 1, |layers|);
    CutAt(nodes, p);
    FreshIds(nodes, nextId, nextId, gs);
    GroupTopological(nodes[..p], nodes[p], nodes[p + 1..], layers, x, nextId, gs, Channels(ModulesOf(layers, m)), m);
  }

  /** Its arguments have the values they had before. */
  lemma SameArguments(nodes: seq<FxNode>, p: nat, layers: seq<FxNode>, x: NodeId, m: Modules, nextId: NodeId, k: nat,
                      k': nat, i: Interp)
    requires EditsGroup(nodes, p, layers, x, m, nextId) && FirstOtherUse(nodes, layers, k)
    requires Topological(EditedAt(nodes, p, layers, m, nextId)) && k' < |EditedAt(nodes, p, layers, m, nextId)|
    requires EditedAt(nodes, p, layers, m, nextId)[k'].args ==
      if k <= p then nodes[k].args else SubArgs(GroupSub(layers, nextId), nodes[k].args)
    ensures
      var nodes', m' := EditedAt(nodes, p, layers, m, nextId), EditedModules(layers, m);
      ArgValues(Eval(nodes', m', i), nodes'[k'].args) == ArgValues(Eval(nodes, m, i), nodes[k].args)
  {
    var nodes', m' := EditedAt(nodes, p, layers, m, nextId), EditedModules(layers, m);
    CutAt(nodes, k);
    FirstIsLayer(nodes, p, layers, k);
    forall j | 0 <= j < |nodes[k].args|
      ensures Lookup(Eval(nodes', m', i), nodes'[k'].args[j]) == Lookup(Eval(nodes, m, i), nodes[k].args[j])
    {
      ArgumentBefore(nodes, k, j);
      if k < p {
        ArgumentInFront(nodes, p, layers, x, m, nextId, k, nodes[k].args[j], i);
      } else {
        ArgumentBehind(nodes, p, layers, x, m, nextId, k, nodes[k].args[j], i);
      }
    }
  }

  lemma FirstIsLayer(nodes: seq<FxNode>, p: nat, layers: seq<FxNode>, k: nat)
    requires p < |nodes| && |layers| > 0 && layers[0] == nodes[p] && FirstOtherUse(nodes, layers, k)
    ensures k != p
  {
    assert NodeIds(layers)[0] == nodes[p].id;
  }

  lemma ArgumentBefore(nodes: seq<FxNode>, k: nat, j: nat)
    requires Topological(nodes) && k < |nodes| && j < |nodes[k].args|
    ensures nodes[k].args[j] in Ids(nodes[..k])
  {
    CutAt(nodes, k);
    PrefixTopological(nodes[..k] + [nodes[k]], nodes[k + 1..]);
    AppendNode(nodes[..k], nodes[k]);
  }

  /** Before the group nothing moves, and no node uses the module. */
  lemma ArgumentInFront(nodes: seq<FxNode>, p: nat, layers: seq<FxNode>, x: NodeId, m: Modules, nextId: NodeId, k: nat,
                        a: NodeId, i: Interp)
    requires EditsGroup(nodes, p, layers, x, m, nextId) && FirstOtherUse(nodes, layers, k) && k < p
    requires Topological(EditedAt(nodes, p, layers, m, nextId)) && a in Ids(nodes[..k])
    ensures
      Lookup(Eval(EditedAt(nodes, p, layers, m, nextId), EditedModules(layers, m), i), a) ==
        Lookup(Eval(nodes, m, i), a)
  {
    var m' := EditedModules(layers, m);
    forall j | 0 <= j < k ensures SameMeaning(nodes[j], m, m') {
      NoUseInFront(nodes, p, layers, k, j);
    }
    FrontSame(nodes, EditedAt(nodes, p, layers, m, nextId), k, m, m', i, a);
  }

  lemma FrontSame(nodes: seq<FxNode>, nodes': seq<FxNode>, k: nat, m: Modules, m': Modules, i: Interp, a: NodeId)
    requires Topological(nodes) && Topological(nodes') && k <= |nodes| && k <= |nodes'| && nodes[..k] == nodes'[..k]
    requires a in Ids(nodes[..k]) && forall j :: 0 <= j < k ==> SameMeaning(nodes[j], m, m')
    ensures Lookup(Eval(nodes', m', i), a) == Lookup(Eval(nodes, m, i), a)
  {
    var pre := nodes[..k];
    assert nodes == pre + nodes[k..] && nodes' == pre + nodes'[k..];
    EvalPrefix(pre, nodes[k..], m, i, a);
    EvalPrefix(pre, nodes'[k..], m', i, a);
    EvalSameMeaning(pre, m, m', i);
  }

  lemma NoUseInFront(nodes: seq<FxNode>, p: nat, layers: seq<FxNode>, k: nat, j: nat)
    requires Topological(nodes) && p < |nodes| && |layers| > 0 && layers[0] == nodes[p] && j < k < |nodes| && j < p
    requires Around(nodes[..p], nodes[p + 1..], layers) && FirstOtherUse(nodes, layers, k)
    ensures !Uses(nodes[j], layers[0].op.target)
  {
    if Uses(nodes[j], layers[0].op.target) {
      var q :| 0 <= q < |layers| && NodeIds(layers)[q] == nodes[j].id;
      assert nodes[..p][j] == nodes[j];
      if q == 0 {
        UniqueIds(nodes, j, p);
      }
    }
  }

  /** Behind the group, values are kept up to this node. */
  lemma ArgumentBehind(nodes: seq<FxNode>, p: nat, layers: seq<FxNode>, x: NodeId, m: Modules, nextId: NodeId, k: nat,
                       a: NodeId, i: Interp)
    requires EditsGroup(nodes, p, layers, x, m, nextId) && FirstOtherUse(nodes, layers, k) && p < k
    requires Topological(EditedAt(nodes, p, layers, m, nextId)) && a in Ids(nodes[..k])
    ensures
      Lookup(Eval(EditedAt(nodes, p, layers, m, nextId), EditedModules(layers, m), i),
             Sub(GroupSub(layers, nextId), a)) == Lookup(Eval(nodes, m, i), a)
  {
    var s, n := GroupSub(layers, nextId), k - p - 1;
    var pre, pre' := nodes[..k], EditedBefore(nodes, p, layers, m, nextId, n);
    var rest' := Rewrite(nodes[p + 1..][n..], s, Others(layers));
    CutAt(nodes, k);
    assert nodes == pre + nodes[k..];
    EvalPrefix(pre, nodes[k..], m, i, a);
    OnlyLayersBefore(nodes, p, layers, k);
    KeptBefore(nodes, p, layers, x, m, nextId, n, i);
    CutTwice(nodes, p, k);
    EditedSplits(nodes, p, layers, m, nextId, n);
    EvalPrefix(pre', rest', EditedModules(layers, m), i, Sub(s, a));
  }

  /** What the edit makes of the nodes up to `n` behind the group's first one. */
  function EditedBefore(nodes: seq<FxNode>, p: nat, layers: seq<FxNode>, m: Modules, nextId: NodeId, n: nat)
    : seq<FxNode>
    requires p < |nodes| && n <= |nodes[p + 1..]|
    requires forall k :: 0 <= k < |layers| ==> layers[k].op.CallModule? && layers[k].op.target in m
    requires forall k :: 0 <= k < |layers| ==> m[layers[k].op.target].Linear?
  {
    Head(nodes[..p], nodes[p], nextId, Consecutive(nextId + 1, |layers|), Channels(ModulesOf(layers, m)))
      + Rewrite(nodes[p + 1..][..n], GroupSub(layers, nextId), Others(layers))
  }

  lemma EditedSplits(nodes: seq<FxNode>, p: nat, layers: seq<FxNode>, m: Modules, nextId: NodeId, n: nat)
    requires p < |nodes| && n <= |nodes[p + 1..]|
    requires forall k :: 0 <= k < |layers| ==> layers[k].op.CallModule? && layers[k].op.target in m
    requires forall k :: 0 <= k < |layers| ==> m[layers[k].op.target].Linear?
    ensures
      EditedAt(nodes, p, layers, m, nextId) ==
        EditedBefore(nodes, p, layers, m, nextId, n)
        + Rewrite(nodes[p + 1..][n..], GroupSub(layers, nextId), Others(layers))
  {
    var b, s, others := nodes[p + 1..], GroupSub(layers, nextId), Others(layers);
    assert b == b[..n] + b[n..];
    RewriteAppend(b[..n], b[n..], s, others);
    Associate(Head(nodes[..p], nodes[p], nextId, Consecutive(nextId + 1, |layers|), Channels(ModulesOf(layers, m))),
              Rewrite(b[..n], s, others), Rewrite(b[n..], s, others));
  }

  lemma KeptBefore(nodes: seq<FxNode>, p: nat, layers: seq<FxNode>, x: NodeId, m: Modules, nextId: NodeId, n: nat,
                   i: Interp)
    requires EditsGroup(nodes, p, layers, x, m, nextId) && n <= |nodes[p + 1..]|
    requires OnlyLayersUse(nodes[..p], nodes[p], nodes[p + 1..][..n], layers)
    ensures
      Simulates(GroupSub(layers, nextId), Eval(nodes[..p] + [nodes[p]] + nodes[p + 1..][..n], m, i),
                Eval(EditedBefore(nodes, p, layers, m, nextId, n), EditedModules(layers, m), i))
  {
    var gs := Consecutive(nextId + 1, |layers|);
    assert Fresh([nextId] + gs, Ids(nodes)) by {
      FreshIds(nodes, nextId, nextId, gs);
    }
    CutAt(nodes, p);
    PrefixPreserved(nodes[..p], nodes[p], nodes[p + 1..], n, layers, x, nextId, gs, m, i);
  }

  lemma CutTwice(nodes: seq<FxNode>, p: nat, k: nat)
    requires p < k <= |nodes|
    ensures nodes[..k] == nodes[..p] + [nodes[p]] + nodes[p + 1..][..k - p - 1]
  {
  }

  lemma OnlyLayersBefore(nodes: seq<FxNode>, p: nat, layers: seq<FxNode>, k: nat)
    requires Topological(nodes) && p < k < |nodes| && |layers| > 0 && layers[0] == nodes[p]
    requires Around(nodes[..p], nodes[p + 1..], layers) && FirstOtherUse(nodes, layers, k)
    ensures OnlyLayersUse(nodes[..p], nodes[p], nodes[p + 1..][..k - p - 1], layers)
  {
    forall j | 0 <= j < p ensures !Uses(nodes[j], layers[0].op.target) {
      NoUseInFront(nodes, p, layers, k, j);
    }
    forall j | p < j < k && Uses(nodes[j], layers[0].op.target) ensures nodes[j].id in Others(layers) {
      var q :| 0 <= q < |layers| && NodeIds(layers)[q] == nodes[j].id;
      if q == 0 {
        UniqueIds(nodes, j, p);
      }
    }
  }
}
