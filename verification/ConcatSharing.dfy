/**
 What becomes of other uses of a replaced module: a node that calls it, or reads one of its parameters, never gets its
 original value back, whatever later rounds do.
 */
module ConcatSharing {
  import opened Basics
  import opened LinearAlgebra
  import opened Fx
  import opened ConcatModules
  import opened ConcatRewrite
  import opened ConcatLinear
  import opened ConcatGroups
  import opened ConcatOrder
  import opened ConcatSteps

  // ----- Wide nodes

  /** `c` is a split of the pass, and `n` its item with more than `w` columns. */
  ghost predicate SplitsWide(c: FxNode, n: FxNode, n0: nat, w: nat)
  {
    && c.id >= n0 && n.args == [c.id] && c.op.Split? && n.op.GetItem?
    && n.op.index < |c.op.sizes| && c.op.sizes[n.op.index] > w
  }

  /** `n` is the use `op` of a linear with more than `w` outputs. */
  ghost predicate UsesWide(m: Modules, n: FxNode, op: FxOp, w: nat)
  {
    && (op.CallModule? || op.GetAttr?) && n.op == op
    && op.target in m && m[op.target].Linear? && WellShaped(m[op.target]) && |m[op.target].weight| > w
  }

  /** `id` names such a use. */
  ghost predicate UseAt(nodes: seq<FxNode>, m: Modules, id: NodeId, op: FxOp, w: nat)
  {
    exists p :: 0 <= p < |nodes| && nodes[p].id == id && UsesWide(m, nodes[p], op, w)
  }

  /** `id` names such an item. */
  ghost predicate PartAt(nodes: seq<FxNode>, n0: nat, id: NodeId, w: nat)
  {
    id >= n0 && exists p, q ::
      0 <= p < |nodes| && 0 <= q < |nodes| && nodes[p].id == id && SplitsWide(nodes[q], nodes[p], n0, w)
  }

  /** `id` stands for the use `op` of a module with `w` outputs, but names a wider use or a wider part. */
  ghost predicate WideAt(nodes: seq<FxNode>, m: Modules, n0: nat, id: NodeId, op: FxOp, w: nat)
  {
    UseAt(nodes, m, id, op, w) || (op.CallModule? && PartAt(nodes, n0, id, w))
  }

  // ----- Its value

  /** Every node has the value that its op computes from the values of its arguments. */
  lemma NodeValue(nodes: seq<FxNode>, p: nat, m: Modules, i: Interp)
    requires Topological(nodes) && p < |nodes|
    ensures nodes[p].id in Ids(nodes)
    ensures Eval(nodes, m, i)[nodes[p].id] == EvalNode(nodes[p], Eval(nodes, m, i), m, i)
  {
    var pre, n, rest := nodes[..p], nodes[p], nodes[p + 1..];
    CutAt(nodes, p);
    PrefixTopological(pre + [n], rest);
    EvalStep(pre, n, m, i);
    EvalPrefix(pre + [n], rest, m, i, n.id);
    forall k | 0 <= k < |n.args|
      ensures Lookup(Eval(nodes, m, i), n.args[k]) == Lookup(Eval(pre, m, i), n.args[k])
    {
      assert n.args[k] in n.args;
      LaterArgument(pre, n, rest, n.args[k], m, i);
    }
    assert ArgValues(Eval(nodes, m, i), n.args) == ArgValues(Eval(pre, m, i), n.args);
  }

  lemma LaterArgument(pre: seq<FxNode>, n: FxNode, rest: seq<FxNode>, a: NodeId, m: Modules, i: Interp)
    requires Topological(pre + [n] + rest) && a in Ids(pre)
    ensures a in Ids(pre + [n] + rest) && Eval(pre + [n] + rest, m, i)[a] == Eval(pre, m, i)[a]
  {
    assert pre + [n] + rest == pre + ([n] + rest);
    EvalPrefix(pre, [n] + rest, m, i, a);
  }

  /** `v` is no batch of rows with `w` columns. */
  ghost predicate NotOfWidth(v: Value, w: nat)
  {
    v.Tensor? ==> forall r :: 0 <= r < |v.rows| ==> |v.rows[r]| != w
  }

  /** What the use `op` of a module with `w` outputs does not compute. */
  ghost predicate Differs(v: Value, op: FxOp, w: nat)
  {
    if op.CallModule? then NotOfWidth(v, w)
    else if op.GetAttr? && op.name == "weight" then v.Tensor? ==> |v.rows| != w
    else NotOfWidth(v, w)
  }

  lemma WideValue(nodes: seq<FxNode>, m: Modules, i: Interp, n0: nat, id: NodeId, op: FxOp, w: nat)
    requires Topological(nodes) && WideAt(nodes, m, n0, id, op, w)
    ensures id in Ids(nodes) && Differs(Eval(nodes, m, i)[id], op, w)
  {
    if UseAt(nodes, m, id, op, w) {
      var p :| 0 <= p < |nodes| && nodes[p].id == id && UsesWide(m, nodes[p], op, w);
      NodeValue(nodes, p, m, i);
    } else {
      WidePartValue(nodes, m, i, n0, id, w);
    }
  }

  lemma WidePartValue(nodes: seq<FxNode>, m: Modules, i: Interp, n0: nat, id: NodeId, w: nat)
    requires Topological(nodes) && PartAt(nodes, n0, id, w)
    ensures id in Ids(nodes) && NotOfWidth(Eval(nodes, m, i)[id], w)
  {
    var p, q :| 0 <= p < |nodes| && 0 <= q < |nodes| && nodes[p].id == id && SplitsWide(nodes[q], nodes[p], n0, w);
    NodeValue(nodes, p, m, i);
    NodeValue(nodes, q, m, i);
    var t := Eval(nodes, m, i)[nodes[q].id];
    assert ArgValues(Eval(nodes, m, i), nodes[p].args) == [t];
    if t.Tuple? {
      WideItem(nodes[q].op.sizes, ArgValues(Eval(nodes, m, i), nodes[q].args), nodes[p].op.index, m, i, w);
    }
  }

  lemma WideItem(sizes: seq<nat>, args: seq<Value>, k: nat, m: Modules, i: Interp, w: nat)
    requires k < |sizes| && sizes[k] > w && Compute(Split(sizes), args, m, i).Tuple?
    ensures NotOfWidth(Compute(Split(sizes), args, m, i).items[k], w)
  {
    SumPrefix(sizes, k);
    var v := SplitPart(args[0], sizes, k);
    assert forall r :: 0 <= r < |v.rows| ==> |v.rows[r]| == sizes[k];
  }

  /** The value of a call with at least one row, or the value of a parameter. */
  ghost predicate Visible(op: FxOp, v: Value)
  {
    v.Tensor? && (op.CallModule? ==> |v.rows| > 0)
  }

  /** What the original use computes, if it is visible. */
  lemma OriginalValue(nodes: seq<FxNode>, m: Modules, i: Interp, k: nat)
    requires Topological(nodes) && k < |nodes| && (nodes[k].op.CallModule? || nodes[k].op.GetAttr?)
    requires nodes[k].op.target in m && m[nodes[k].op.target].Linear? && WellShaped(m[nodes[k].op.target])
    ensures nodes[k].id in Ids(nodes)
    ensures
      var v := Eval(nodes, m, i)[nodes[k].id];
      Visible(nodes[k].op, v) ==> !Differs(v, nodes[k].op, |m[nodes[k].op.target].weight|)
  {
    NodeValue(nodes, k, m, i);
    var l := m[nodes[k].op.target];
    var v := Eval(nodes, m, i)[nodes[k].id];
    if Visible(nodes[k].op, v) && (nodes[k].op.CallModule? || nodes[k].op.name != "weight") {
      assert |v.rows| > 0 && |v.rows[0]| == |l.weight|;
    }
  }

  // ----- One edit

  lemma {:induction false} RewriteHas(nodes: seq<FxNode>, s: Substitution, dropped: set<NodeId>, k: nat)
    requires k < |nodes| && nodes[k].id !in dropped
    ensures nodes[k].(args := SubArgs(s, nodes[k].args)) in Rewrite(nodes, s, dropped)
    decreases |nodes|
  {
    if k < |nodes| - 1 {
      assert nodes[..|nodes| - 1][k] == nodes[k];
      RewriteHas(nodes[..|nodes| - 1], s, dropped, k);
    }
  }

  lemma {:induction false} ItemsHave(split: NodeId, gs: seq<NodeId>, q: nat)
    requires q < |gs|
    ensures FxNode(gs[q], GetItem(q), [split]) in GetItems(split, gs)
    decreases |gs|
  {
    if q < |gs| - 1 {
      assert gs[..|gs| - 1][q] == gs[q];
      ItemsHave(split, gs[..|gs| - 1], q);
    }
  }

  /** A node that is no other layer keeps id and op; behind the group, its arguments are redirected. */
  lemma EditKeeps(nodes: seq<FxNode>, p: nat, layers: seq<FxNode>, m: Modules, nextId: NodeId, k: nat) returns (k': nat)
    requires p < |nodes| && k < |nodes| && |layers| > 0 && Fresh(NodeIds(layers), {})
    requires forall j :: 0 <= j < |layers| ==> layers[j].op.CallModule? && layers[j].op.target in m
    requires forall j :: 0 <= j < |layers| ==> m[layers[j].op.target].Linear?
    requires nodes[k].id !in Others(layers)
    ensures
      var nodes', s := EditedAt(nodes, p, layers, m, nextId), GroupSub(layers, nextId);
      k' < |nodes'| && nodes'[k'].id == nodes[k].id && nodes'[k'].op == nodes[k].op
      && nodes'[k'].args == if k <= p then nodes[k].args else SubArgs(s, nodes[k].args)
  {
    var s, gs, sizes := GroupSub(layers, nextId), Consecutive(nextId + 1, |layers|), Channels(ModulesOf(layers, m));
    var head := Head(nodes[..p], nodes[p], nextId, gs, sizes);
    if k <= p {
      assert head[k] == nodes[k];
      k' := k;
    } else {
      RewriteHas(nodes[p + 1..], s, Others(layers), k - p - 1);
      var r := Rewrite(nodes[p + 1..], s, Others(layers));
      var q :| 0 <= q < |r| && r[q] == nodes[k].(args := SubArgs(s, nodes[k].args));
      k' := |head| + q;
    }
  }

  /** The getitem of layer `q`. */
  lemma EditAdds(nodes: seq<FxNode>, p: nat, layers: seq<FxNode>, m: Modules, nextId: NodeId, q: nat)
    returns (c: nat, g: nat)
    requires p < |nodes| && q < |layers| && Fresh(NodeIds(layers), {})
    requires forall j :: 0 <= j < |layers| ==> layers[j].op.CallModule? && layers[j].op.target in m
    requires forall j :: 0 <= j < |layers| ==> m[layers[j].op.target].Linear?
    ensures layers[q].id in GroupSub(layers, nextId) && GroupSub(layers, nextId)[layers[q].id] == nextId + 1 + q
    ensures
      var nodes' := EditedAt(nodes, p, layers, m, nextId);
      c < |nodes'| && g < |nodes'| && nodes'[c].id == nextId
      && nodes'[c].op == Split(Channels(ModulesOf(layers, m)))
      && nodes'[g] == FxNode(nextId + 1 + q, GetItem(q), [nextId])
  {
    var gs, sizes := Consecutive(nextId + 1, |layers|), Channels(ModulesOf(layers, m));
    var head := Head(nodes[..p], nodes[p], nextId, gs, sizes);
    var front := nodes[..p] + [nodes[p]] + [FxNode(nextId, Split(sizes), [nodes[p].id])];
    PairsAt(NodeIds(layers), gs, q);
    ItemsHave(nextId, gs, q);
    var k :| 0 <= k < |GetItems(nextId, gs)| && GetItems(nextId, gs)[k] == FxNode(gs[q], GetItem(q), [nextId]);
    c, g := |front| - 1, |front| + k;
    assert head == front + GetItems(nextId, gs);
  }

  /** Modules only grow in one edit. */
  lemma EditGrows(layers: seq<FxNode>, m: Modules, t: string)
    requires |layers| > 0 && forall j :: 0 <= j < |layers| ==> layers[j].op.CallModule? && layers[j].op.target in m
    requires Compatible(ModulesOf(layers, m)) && t in m && m[t].Linear? && WellShaped(m[t])
    ensures
      var m' := EditedModules(layers, m);
      t in m' && m'[t].Linear? && WellShaped(m'[t]) && |m[t].weight| <= |m'[t].weight|
    ensures t == layers[0].op.target && (exists q :: 1 <= q < |layers| && HasOutputs(layers[q], m)) ==>
      |m[t].weight| < |EditedModules(layers, m)[t].weight|
  {
    var ms := ModulesOf(layers, m);
    ConcatShape(ms);
    SumPrefix(Channels(ms), 0);
    assert Channels(ms)[..0] == [];
    forall q | 1 <= q < |layers| && |ms[q].weight| > 0 ensures |ms[0].weight| < Sum(Channels(ms)) {
      SumTwo(Channels(ms), q);
    }
  }

  /** What the edit needs to know about its layers here: they are old, and in the graph. */
  ghost predicate OldLayers(nodes: seq<FxNode>, layers: seq<FxNode>, m: Modules, n0: nat)
  {
    && |layers| > 0 && Fresh(NodeIds(layers), {})
    && (forall j :: 0 <= j < |layers| ==>
          layers[j].op.CallModule? && layers[j].op.target in m && layers[j].id < n0 && layers[j] in nodes)
    && Compatible(ModulesOf(layers, m))
  }

  /** What an edit does to a wide use: a layer becomes a wide part, any other node stays. */
  lemma UseStaysWide(nodes: seq<FxNode>, p: nat, layers: seq<FxNode>, m: Modules, nextId: NodeId, n0: nat, k: nat,
                     op: FxOp, w: nat)
    requires Topological(nodes) && p < |nodes| && k < |nodes| && n0 <= nextId && OldLayers(nodes, layers, m, n0)
    requires UsesWide(m, nodes[k], op, w)
    ensures WideAt(EditedAt(nodes, p, layers, m, nextId), EditedModules(layers, m), n0,
                   Sub(GroupSub(layers, nextId), nodes[k].id), op, w)
  {
    if nodes[k].id in NodeIds(layers) {
      var q :| 0 <= q < |layers| && NodeIds(layers)[q] == nodes[k].id;
      var r :| 0 <= r < |nodes| && nodes[r] == layers[q];
      UniqueIds(nodes, r, k);
      LayerBecomesPart(nodes, p, layers, m, nextId, n0, q, w);
    } else {
      NotOther(layers, nodes[k].id);
      var k' := EditKeeps(nodes, p, layers, m, nextId, k);
      EditGrows(layers, m, op.target);
      assert UsesWide(EditedModules(layers, m), EditedAt(nodes, p, layers, m, nextId)[k'], op, w);
    }
  }

  lemma NotOther(layers: seq<FxNode>, id: NodeId)
    requires id !in NodeIds(layers)
    ensures id !in Others(layers)
  {
    assert forall j :: 0 <= j < |layers| ==> NodeIds(layers)[j] == layers[j].id;
  }

  lemma LayerBecomesPart(nodes: seq<FxNode>, p: nat, layers: seq<FxNode>, m: Modules, nextId: NodeId, n0: nat, q: nat,
                         w: nat)
    requires p < |nodes| && n0 <= nextId && OldLayers(nodes, layers, m, n0) && q < |layers|
    requires |m[layers[q].op.target].weight| > w
    ensures PartAt(EditedAt(nodes, p, layers, m, nextId), n0, Sub(GroupSub(layers, nextId), layers[q].id), w)
  {
    var c, g := EditAdds(nodes, p, layers, m, nextId, q);
    var nodes' := EditedAt(nodes, p, layers, m, nextId);
    assert SplitsWide(nodes'[c], nodes'[g], n0, w);
  }

  /** What an edit does to a wide part of an earlier split. */
  lemma ItemStaysWide(nodes: seq<FxNode>, p: nat, layers: seq<FxNode>, m: Modules, nextId: NodeId, n0: nat, k: nat,
                      q: nat, w: nat)
    requires p < |nodes| && k < |nodes| && q < |nodes| && OldLayers(nodes, layers, m, n0)
    requires nodes[k].id >= n0 && SplitsWide(nodes[q], nodes[k], n0, w)
    ensures PartAt(EditedAt(nodes, p, layers, m, nextId), n0, Sub(GroupSub(layers, nextId), nodes[k].id), w)
  {
    assert forall j :: 0 <= j < |layers| ==> NodeIds(layers)[j] == layers[j].id;
    var k' := EditKeeps(nodes, p, layers, m, nextId, k);
    var q' := EditKeeps(nodes, p, layers, m, nextId, q);
    assert SubArgs(GroupSub(layers, nextId), nodes[k].args) == nodes[k].args;
    var nodes' := EditedAt(nodes, p, layers, m, nextId);
    assert SplitsWide(nodes'[q'], nodes'[k'], n0, w);
  }

  // ----- The invariant of all rounds

  /** The uses that finished groups have spoilt. */
  ghost predicate Widened(nodes0: seq<FxNode>, m0: Modules, nodes: seq<FxNode>, m: Modules, rho: Substitution,
                          done: set<NodeId>)
  {
    forall j: nat, k: nat | Spoils(nodes0, m0, j, k) && nodes0[j].args[0] in done ::
      IsWide(nodes0, m0, nodes, m, rho, k)
  }

  ghost predicate IsWide(nodes0: seq<FxNode>, m0: Modules, nodes: seq<FxNode>, m: Modules, rho: Substitution, k: nat)
  {
    && k < |nodes0| && (nodes0[k].op.CallModule? || nodes0[k].op.GetAttr?) && nodes0[k].op.target in m0
    && m0[nodes0[k].op.target].Linear?
    && WideAt(nodes, m, |nodes0|, Sub(rho, k), nodes0[k].op, |m0[nodes0[k].op.target].weight|)
  }

  /** A use that an earlier group has spoilt stays so. */
  lemma WideStays(nodes0: seq<FxNode>, m0: Modules, nodes: seq<FxNode>, p: nat, layers: seq<FxNode>, m: Modules,
                  nextId: NodeId, rho: Substitution, done: set<NodeId>, x: NodeId, k: nat)
    requires Editable(nodes0, m0, nodes, p, layers, m, nextId, rho, done, x) && IsWide(nodes0, m0, nodes, m, rho, k)
    ensures IsWide(nodes0, m0, EditedAt(nodes, p, layers, m, nextId), EditedModules(layers, m),
                   rho + GroupSub(layers, nextId), k)
  {
    var id, op, w, n0 := Sub(rho, k), nodes0[k].op, |m0[nodes0[k].op.target].weight|, |nodes0|;
    StepRenamed(nodes0, m0, nodes, rho, done, x, layers, nextId);
    ComposeSub(nodes0, m0, rho, GroupSub(layers, nextId), done, x, k);
    LayersOld(nodes0, m0, nodes, x, layers);
    if UseAt(nodes, m, id, op, w) {
      var r :| 0 <= r < |nodes| && nodes[r].id == id && UsesWide(m, nodes[r], op, w);
      UseStaysWide(nodes, p, layers, m, nextId, n0, r, op, w);
    } else {
      var r, q :| 0 <= r < |nodes| && 0 <= q < |nodes| && nodes[r].id == id && SplitsWide(nodes[q], nodes[r], n0, w);
      ItemStaysWide(nodes, p, layers, m, nextId, n0, r, q, w);
    }
  }

  lemma LayersOld(nodes0: seq<FxNode>, m0: Modules, nodes: seq<FxNode>, x: NodeId, layers: seq<FxNode>)
    requires Positional(nodes0) && Chosen(nodes0, m0, nodes, x, layers)
    ensures forall j :: 0 <= j < |layers| ==> layers[j].id < |nodes0| && layers[j] in nodes
  {
    ChosenMembers(nodes0, m0, nodes, x, layers);
    assert forall j :: 0 <= j < |layers| ==> NodeIds(layers)[j] == layers[j].id;
  }

  /** A use that the current group spoils is still in the graph under its own name. */
  lemma SpoiltIsPresent(nodes0: seq<FxNode>, m0: Modules, nodes: seq<FxNode>, m: Modules, rho: Substitution,
                        done: set<NodeId>, x: NodeId, j: nat, k: nat) returns (r: nat)
    requires WellFormed(nodes0, m0) && Invariant(nodes0, m0, nodes, m, rho, done) && IsNext(nodes0, m0, x, done)
    requires Spoils(nodes0, m0, j, k) && nodes0[j].args[0] == x
    ensures k !in rho && r < |nodes| && nodes[r].id == k && nodes[r].op == nodes0[k].op
  {
    if k in rho || k !in Ids(nodes) {
      var y := nodes0[k].args[0];
      assert y in done && StartsBefore(nodes0, m0, y, x);
      assert Merges(nodes0, m0, y, k) ==> nodes0[k].op == nodes0[j].op && MergedBefore(nodes0, m0, k, j);
      assert false;
    }
    IdsMember(nodes, k);
    r :| 0 <= r < |nodes| && nodes[r].id == k;
    assert OriginNode(nodes0, nodes[r], rho);
  }

  /** The current group spoils the other uses of its first module. */
  lemma WidensHere(nodes0: seq<FxNode>, m0: Modules, nodes: seq<FxNode>, p: nat, layers: seq<FxNode>, m: Modules,
                   nextId: NodeId, rho: Substitution, done: set<NodeId>, x: NodeId, j: nat, k: nat)
    requires Editable(nodes0, m0, nodes, p, layers, m, nextId, rho, done, x)
    requires Spoils(nodes0, m0, j, k) && nodes0[j].args[0] == x
    ensures IsWide(nodes0, m0, EditedAt(nodes, p, layers, m, nextId), EditedModules(layers, m),
                   rho + GroupSub(layers, nextId), k)
  {
    var r := SpoiltIsPresent(nodes0, m0, nodes, m, rho, done, x, j, k);
    SpoiltIsNoLayer(nodes0, m0, nodes, x, layers, j, k);
    LayerFacts(nodes0, m0, nodes, m, rho, done, x, layers, 0);
    PartnerWithOutputs(nodes0, m0, nodes, m, rho, done, x, layers, j);
    EditGrows(layers, m, nodes0[k].op.target);
    var r' := EditKeeps(nodes, p, layers, m, nextId, r);
    var nodes', m' := EditedAt(nodes, p, layers, m, nextId), EditedModules(layers, m);
    assert UsesWide(m', nodes'[r'], nodes0[k].op, |m0[nodes0[k].op.target].weight|);
  }

  lemma SpoiltIsNoLayer(nodes0: seq<FxNode>, m0: Modules, nodes: seq<FxNode>, x: NodeId, layers: seq<FxNode>, j: nat,
                        k: nat)
    requires WellFormed(nodes0, m0) && Chosen(nodes0, m0, nodes, x, layers) && |layers| >= 2
    requires Spoils(nodes0, m0, j, k) && nodes0[j].args[0] == x
    ensures j == layers[0].id && k !in NodeIds(layers) && k !in Others(layers)
  {
    ChosenFirst(nodes0, m0, nodes, x, layers);
    forall q | 0 <= q < |layers| ensures layers[q].id != k {
      LayerIsRewritten(nodes0, m0, nodes, x, layers, q);
    }
  }

  predicate HasOutputs(n: FxNode, m: Modules)
  {
    n.op.CallModule? && n.op.target in m && m[n.op.target].Linear? && |m[n.op.target].weight| > 0
  }

  lemma PartnerWithOutputs(nodes0: seq<FxNode>, m0: Modules, nodes: seq<FxNode>, m: Modules, rho: Substitution,
                           done: set<NodeId>, x: NodeId, layers: seq<FxNode>, j: nat)
    requires WellFormed(nodes0, m0) && Invariant(nodes0, m0, nodes, m, rho, done)
    requires Chosen(nodes0, m0, nodes, x, layers) && |layers| >= 2
    requires exists p :: Merges(nodes0, m0, x, p) && |ModuleAt(nodes0, m0, p).weight| > 0
    ensures exists q :: 1 <= q < |layers| && HasOutputs(layers[q], m)
  {
    var p :| Merges(nodes0, m0, x, p) && |ModuleAt(nodes0, m0, p).weight| > 0;
    MergedIsOther(nodes0, m0, nodes, x, layers, p);
    var q :| 1 <= q < |layers| && layers[q].id == p;
    LayerFacts(nodes0, m0, nodes, m, rho, done, x, layers, q);
  }

  lemma StepWidened(nodes0: seq<FxNode>, m0: Modules, nodes: seq<FxNode>, p: nat, layers: seq<FxNode>, m: Modules,
                    nextId: NodeId, rho: Substitution, done: set<NodeId>, x: NodeId)
    requires Editable(nodes0, m0, nodes, p, layers, m, nextId, rho, done, x)
    requires Widened(nodes0, m0, nodes, m, rho, done)
    ensures Widened(nodes0, m0, EditedAt(nodes, p, layers, m, nextId), EditedModules(layers, m),
                    rho + GroupSub(layers, nextId), done + {x})
  {
    forall j: nat, k: nat | Spoils(nodes0, m0, j, k) && nodes0[j].args[0] in done + {x}
      ensures IsWide(nodes0, m0, EditedAt(nodes, p, layers, m, nextId), EditedModules(layers, m),
                     rho + GroupSub(layers, nextId), k)
    {
      if nodes0[j].args[0] == x {
        WidensHere(nodes0, m0, nodes, p, layers, m, nextId, rho, done, x, j, k);
      } else {
        WideStays(nodes0, m0, nodes, p, layers, m, nextId, rho, done, x, k);
      }
    }
  }

  /** A spoilt use never shows its original value again. */
  lemma SpoiltDiffers(nodes0: seq<FxNode>, m0: Modules, nodes: seq<FxNode>, m: Modules, rho: Substitution, i: Interp,
                      k: nat)
    requires WellFormed(nodes0, m0) && Topological(nodes) && IsWide(nodes0, m0, nodes, m, rho, k)
    ensures k in Ids(nodes0) && Sub(rho, k) in Ids(nodes)
    ensures Visible(nodes0[k].op, Eval(nodes0, m0, i)[k]) ==>
      Eval(nodes, m, i)[Sub(rho, k)] != Eval(nodes0, m0, i)[k]
  {
    OriginalValue(nodes0, m0, i, k);
    WideValue(nodes, m, i, |nodes0|, Sub(rho, k), nodes0[k].op, |m0[nodes0[k].op.target].weight|);
  }
}
