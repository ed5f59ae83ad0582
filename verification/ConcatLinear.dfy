/**
 The in-place graph edits of `concatLinearNodes` (fx/concat_linear.py) for one group: insert the split and the
 getitems, redirect the uses, erase the other linears and replace the first one's module.
 */
module ConcatLinear {
  import opened Basics
  import opened LinearAlgebra
  import opened Fx
  import opened ConcatModules
  import opened ConcatRewrite

  // ----- Composing edits

  lemma {:induction false} RewriteAppend(a: seq<FxNode>, b: seq<FxNode>, s: Substitution, dropped: set<NodeId>)
    ensures Rewrite(a + b, s, dropped) == Rewrite(a, s, dropped) + Rewrite(b, s, dropped)
    decreases |b|
  {
    if b == [] {
      assert a + b == a;
    } else {
      var front, n := b[..|b| - 1], b[|b| - 1];
      assert b == front + [n] && a + b == (a + front) + [n];
      RewriteAppend(a, front, s, dropped);
      RewriteSnoc(a + front, n, s, dropped);
      RewriteSnoc(front, n, s, dropped);
    }
  }

  /** Nodes that mention nothing renamed or dropped stay as they are. */
  lemma {:induction false} RewriteIdentity(nodes: seq<FxNode>, s: Substitution, dropped: set<NodeId>)
    requires forall k :: 0 <= k < |nodes| ==>
      nodes[k].id !in dropped && forall j :: 0 <= j < |nodes[k].args| ==> nodes[k].args[j] !in s
    ensures Rewrite(nodes, s, dropped) == nodes
  {
    if nodes != [] {
      var last := nodes[|nodes| - 1];
      RewriteIdentity(nodes[..|nodes| - 1], s, dropped);
      assert SubArgs(s, last.args) == last.args;
    }
  }

  /** Redirecting one more name. */
  lemma {:induction false} RewriteThenReplace(nodes: seq<FxNode>, s: Substitution, dropped: set<NodeId>, a: NodeId,
                                              b: NodeId)
    requires a !in s && forall id :: id in s ==> s[id] != a
    ensures Rewrite(Rewrite(nodes, s, dropped), map[a := b], {}) == Rewrite(nodes, s[a := b], dropped)
  {
    if nodes != [] {
      var front, last := nodes[..|nodes| - 1], nodes[|nodes| - 1];
      RewriteThenReplace(front, s, dropped, a, b);
      if last.id in dropped {
        assert Rewrite(nodes, s, dropped) == Rewrite(front, s, dropped);
      } else {
        assert SubArgs(map[a := b], SubArgs(s, last.args)) == SubArgs(s[a := b], last.args);
        RewriteSnoc(Rewrite(front, s, dropped), last.(args := SubArgs(s, last.args)), map[a := b], {});
      }
    }
  }

  /** Dropping one more node. */
  lemma {:induction false} RewriteThenErase(nodes: seq<FxNode>, s: Substitution, dropped: set<NodeId>, id: NodeId)
    ensures Rewrite(Rewrite(nodes, s, dropped), map[], {id}) == Rewrite(nodes, s, dropped + {id})
  {
    if nodes != [] {
      var front, last := nodes[..|nodes| - 1], nodes[|nodes| - 1];
      RewriteThenErase(front, s, dropped, id);
      if last.id in dropped {
        assert Rewrite(nodes, s, dropped) == Rewrite(front, s, dropped);
      } else {
        var last' := last.(args := SubArgs(s, last.args));
        EmptySub(last'.args);
        RewriteSnoc(Rewrite(front, s, dropped), last', map[], {id});
      }
    }
  }

  lemma EmptySub(args: seq<NodeId>)
    ensures SubArgs(map[], args) == args
  {
  }

  ghost predicate NumberedBelow(nodes: seq<FxNode>, nextId: NodeId)
  {
    forall k :: 0 <= k < |nodes| ==> nodes[k].id < nextId
  }

  /** The graph and module table that the pass edits in place. */
  class FxGraph {
    var nodes: seq<FxNode>
    var modules: Modules
    var nextId: NodeId

    ghost predicate Numbered()
      reads this
    {
      NumberedBelow(nodes, nextId)
    }

    constructor (nodes: seq<FxNode>, modules: Modules, nextId: NodeId)
      ensures this.nodes == nodes && this.modules == modules && this.nextId == nextId
    {
      this.nodes, this.modules, this.nextId := nodes, modules, nextId;
    }

    /** A new node right behind position `k` (`inserting_after` and `call_function`). */
    method InsertAfter(k: nat, op: FxOp, args: seq<NodeId>) returns (id: NodeId)
      requires k < |nodes| && Numbered()
      modifies this`nodes, this`nextId
      ensures id == old(nextId) && nextId == old(nextId) + 1 && Numbered()
      ensures nodes == old(nodes)[..k + 1] + [FxNode(id, op, args)] + old(nodes)[k + 1..]
    {
      id := nextId;
      nodes := nodes[..k + 1] + [FxNode(id, op, args)] + nodes[k + 1..];
      nextId := nextId + 1;
    }

    /** `replace_all_uses_with` */
    method ReplaceAllUses(a: NodeId, b: NodeId)
      modifies this`nodes
      ensures nodes == Rewrite(old(nodes), map[a := b], {})
    {
      var done := [];
      for k := 0 to |nodes|
        invariant done == Rewrite(nodes[..k], map[a := b], {})
      {
        assert nodes[..k + 1][..k] == nodes[..k];
        done := done + [nodes[k].(args := SubArgs(map[a := b], nodes[k].args))];
      }
      assert nodes[..|nodes|] == nodes;
      nodes := done;
    }

    /** `erase_node` */
    method Erase(id: NodeId)
      modifies this`nodes
      ensures nodes == Rewrite(old(nodes), map[], {id})
    {
      var done := [];
      for k := 0 to |nodes|
        invariant done == Rewrite(nodes[..k], map[], {id})
      {
        assert nodes[..k + 1][..k] == nodes[..k];
        assert SubArgs(map[], nodes[k].args) == nodes[k].args;
        if nodes[k].id != id {
          done := done + [nodes[k]];
        }
      }
      assert nodes[..|nodes|] == nodes;
      nodes := done;
    }

    /** The split and the getitems of a group whose first layer sits at position `k`. */
    method InsertSplit(k: nat, sizes: seq<nat>) returns (split: NodeId, gs: seq<NodeId>)
      requires k < |nodes| && Numbered()
      modifies this`nodes, this`nextId
      ensures Numbered() && split == old(nextId) && gs == Consecutive(old(nextId) + 1, |sizes|)
      ensures nextId == old(nextId) + 1 + |sizes|
      ensures nodes == Head(old(nodes)[..k], old(nodes)[k], split, gs, sizes) + old(nodes)[k + 1..]
    {
      var base := nodes[k];
      split := InsertAfter(k, Split(sizes), [base.id]);
      gs := [];
      ghost var a, b := old(nodes)[..k], old(nodes)[k + 1..];
      assert old(nodes)[..k + 1] == a + [base];
      for j := 0 to |sizes|
        invariant Numbered() && |gs| == j && nextId == old(nextId) + 1 + j
        invariant forall l :: 0 <= l < j ==> gs[l] == old(nextId) + 1 + l
        invariant nodes == Head(a, base, split, gs, sizes) + b
      {
        ghost var before := gs;
        var g := InsertAfter(k + 1, GetItem(j), [split]);
        gs := gs + [g];
        assert gs[..j] == before;
        InsertedBehindSplit(a, base, split, before, g, sizes, b);
      }
    }
  
    /** Redirects the uses of every layer to its getitem and erases all layers but the first. */
    method RedirectLayers(layers: seq<FxNode>, gs: seq<NodeId>)
      requires |layers| == |gs| && Fresh(NodeIds(layers), {})
      requires forall j, k :: 0 <= j < |layers| && 0 <= k < |gs| ==> layers[j].id != gs[k]
      modifies this`nodes
      ensures nodes == Rewrite(old(nodes), Pairs(NodeIds(layers), gs), Others(layers))
    {
      ghost var ids := NodeIds(layers);
      assert ids[..|layers|] == ids && gs[..|layers|] == gs && layers[..|layers|] == layers;
      RewriteIdentity(nodes, map[], {});
      assert Pairs(ids[..0], gs[..0]) == map[] && Others(layers[..0]) == {};
      for k := 0 to |layers|
        invariant nodes == Rewrite(old(nodes), Pairs(ids[..k], gs[..k]), Others(layers[..k]))
      {
        RedirectStep(old(nodes), layers, gs, k);
        ReplaceAllUses(layers[k].id, gs[k]);
        if k > 0 {
          Erase(layers[k].id);
        }
      }
    }

    /** The edit for one group whose first layer sits at position `k`. */
    method ConcatGroup(k: nat, layers: seq<FxNode>, ghost x: NodeId)
      requires k < |nodes| && Numbered() && Topological(nodes)
      requires IsGroup(nodes[..k], nodes[k], nodes[k + 1..], layers, x, modules)
      requires Compatible(ModulesOf(layers, modules))
      modifies this
      ensures Numbered() && nextId == old(nextId) + 1 + |layers|
      ensures modules == old(modules)[layers[0].op.target := Concat(ModulesOf(layers, old(modules)))]
      ensures nodes == Edited(old(nodes)[..k], old(nodes)[k], old(nodes)[k + 1..], layers,
                              Channels(ModulesOf(layers, old(modules))), old(nextId))
    {
      var ms := ModulesOf(layers, modules);
      LayerIdsOld(nodes, k, layers, x, modules, nextId);
      GroupEdit(nodes, k, layers, x, Channels(ms), modules, nextId);
      EditNodes(k, layers, Channels(ms));
      modules := modules[layers[0].op.target := Concat(ms)];
    }

    /** The node edits of one group, in the order in which the pass makes them. */
    method EditNodes(k: nat, layers: seq<FxNode>, sizes: seq<nat>)
      requires k < |nodes| && Numbered() && 0 < |layers| == |sizes| && Fresh(NodeIds(layers), {})
      requires forall j :: 0 <= j < |layers| ==> layers[j].id < nextId
      requires k + 1 < |Redirected(nodes[..k], nodes[k], nodes[k + 1..], layers, sizes, nextId)|
      modifies this`nodes, this`nextId
      ensures nextId == old(nextId) + 1 + |sizes|
      ensures
        var r := Redirected(old(nodes)[..k], old(nodes)[k], old(nodes)[k + 1..], layers, sizes, old(nextId));
        nodes == r[..k + 1] + [r[k + 1].(args := [layers[0].id])] + r[k + 2..]
    {
      var split, gs := InsertSplit(k, sizes);
      RedirectLayers(layers, gs);
      UpdateSplit(k, layers[0].id);
    }

    /** `split.update_arg(0, base_node)` for the split behind position `k`. */
    method UpdateSplit(k: nat, base: NodeId)
      requires k + 1 < |nodes|
      modifies this`nodes
      ensures nodes == old(nodes)[..k + 1] + [old(nodes)[k + 1].(args := [base])] + old(nodes)[k + 2..]
    {
      nodes := nodes[k + 1 := nodes[k + 1].(args := [base])];
    }
  }

  /** The names under which a group's values are found after the edit. */
  function GroupSub(layers: seq<FxNode>, nextId: NodeId): Substitution
  {
    Pairs(NodeIds(layers), Consecutive(nextId + 1, |layers|))
  }

  /** The graph after the edit for one group. */
  function Edited(a: seq<FxNode>, base: FxNode, b: seq<FxNode>, layers: seq<FxNode>, sizes: seq<nat>,
                  nextId: NodeId): seq<FxNode>
  {
    Head(a, base, nextId, Consecutive(nextId + 1, |layers|), sizes)
      + Rewrite(b, GroupSub(layers, nextId), Others(layers))
  }

  /** The graph when all uses are redirected and the other layers are erased. */
  function Redirected(a: seq<FxNode>, base: FxNode, b: seq<FxNode>, layers: seq<FxNode>, sizes: seq<nat>,
                      nextId: NodeId)
    : seq<FxNode>
  {
    Rewrite(Head(a, base, nextId, Consecutive(nextId + 1, |layers|), sizes) + b, GroupSub(layers, nextId),
      Others(layers))
  }

  /** The edits of one group fit together. */
  lemma GroupEdit(nodes: seq<FxNode>, k: nat, layers: seq<FxNode>, x: NodeId, sizes: seq<nat>, m: Modules,
                  nextId: NodeId)
    requires k < |nodes| && NumberedBelow(nodes, nextId) && Topological(nodes)
    requires IsGroup(nodes[..k], nodes[k], nodes[k + 1..], layers, x, m)
    requires forall j :: 0 <= j < |layers| ==> layers[j].id < nextId
    ensures
      var r := Redirected(nodes[..k], nodes[k], nodes[k + 1..], layers, sizes, nextId);
      var e := Edited(nodes[..k], nodes[k], nodes[k + 1..], layers, sizes, nextId);
      k + 1 < |r| && r[..k + 1] + [r[k + 1].(args := [layers[0].id])] + r[k + 2..] == e
      && NumberedBelow(e, nextId + 1 + |layers|)
  {
    CutAt(nodes, k);
    EditShape(nodes[..k], nodes[k], nodes[k + 1..], layers, x, sizes, m, nextId);
    EditedNumbered(nodes, k, layers, sizes, nextId);
  }

  /** Restoring the split's argument completes the edit. */
  lemma EditShape(a: seq<FxNode>, base: FxNode, b: seq<FxNode>, layers: seq<FxNode>, x: NodeId, sizes: seq<nat>,
                  m: Modules, nextId: NodeId)
    requires Topological(a + [base] + b) && IsGroup(a, base, b, layers, x, m)
    requires forall j :: 0 <= j < |layers| ==> layers[j].id < nextId
    ensures
      var r := Redirected(a, base, b, layers, sizes, nextId);
      |a| + 1 < |r| && r[..|a| + 1] + [r[|a| + 1].(args := [base.id])] + r[|a| + 2..] ==
        Edited(a, base, b, layers, sizes, nextId)
  {
    var gs, s := Consecutive(nextId + 1, |layers|), GroupSub(layers, nextId);
    RedirectedHead(a, base, b, layers, x, nextId, gs, sizes, m);
    Splice(a, base, FxNode(nextId, Split(sizes), [s[base.id]]), [base.id], GetItems(nextId, gs),
      Rewrite(b, s, Others(layers)));
  }

  lemma Splice(a: seq<FxNode>, base: FxNode, n: FxNode, args: seq<NodeId>, items: seq<FxNode>, rest: seq<FxNode>)
    ensures
      var r := a + [base] + [n] + items + rest;
      |a| + 1 < |r| && r[|a| + 1] == n
      && r[..|a| + 1] + [n.(args := args)] + r[|a| + 2..] == a + [base] + [n.(args := args)] + items + rest
  {
    var r := a + [base] + [n] + items + rest;
    assert r == (a + [base]) + ([n] + items + rest);
    assert r[..|a| + 1] == a + [base];
    assert r[|a| + 2..] == items + rest;
  }

  lemma EditedNumbered(nodes: seq<FxNode>, k: nat, layers: seq<FxNode>, sizes: seq<nat>, nextId: NodeId)
    requires k < |nodes| && NumberedBelow(nodes, nextId)
    ensures NumberedBelow(Edited(nodes[..k], nodes[k], nodes[k + 1..], layers, sizes, nextId), nextId + 1 + |layers|)
  {
    RewriteElements(nodes[k + 1..], GroupSub(layers, nextId), Others(layers));
    ItemElements(nextId, Consecutive(nextId + 1, |layers|));
  }

  /** `r` is a kept node of `nodes` with redirected arguments. */
  ghost predicate ImageOf(nodes: seq<FxNode>, s: Substitution, dropped: set<NodeId>, r: FxNode)
  {
    exists k :: 0 <= k < |nodes| && nodes[k].id !in dropped && r == nodes[k].(args := SubArgs(s, nodes[k].args))
  }

  lemma {:induction false} RewriteElements(nodes: seq<FxNode>, s: Substitution, dropped: set<NodeId>)
    ensures forall j :: 0 <= j < |Rewrite(nodes, s, dropped)| ==>
      ImageOf(nodes, s, dropped, Rewrite(nodes, s, dropped)[j])
  {
    if nodes != [] {
      var front, last := nodes[..|nodes| - 1], nodes[|nodes| - 1];
      RewriteElements(front, s, dropped);
      forall r | ImageOf(front, s, dropped, r) ensures ImageOf(nodes, s, dropped, r) {
        var k :| 0 <= k < |front| && front[k].id !in dropped && r == front[k].(args := SubArgs(s, front[k].args));
        assert nodes[k] == front[k];
      }
      if last.id !in dropped {
        assert ImageOf(nodes, s, dropped, last.(args := SubArgs(s, last.args)));
      }
    }
  }

  lemma {:induction false} ItemElements(split: NodeId, gs: seq<NodeId>)
    ensures forall j :: 0 <= j < |GetItems(split, gs)| ==>
      GetItems(split, gs)[j].id in gs && GetItems(split, gs)[j].op.GetItem?
  {
    if gs != [] {
      ItemElements(split, gs[..|gs| - 1]);
    }
  }

  lemma RedirectStep(nodes: seq<FxNode>, layers: seq<FxNode>, gs: seq<NodeId>, k: nat)
    requires |layers| == |gs| && k < |layers| && Fresh(NodeIds(layers), {})
    requires forall j :: 0 <= j < |gs| ==> layers[k].id != gs[j]
    ensures
      var ids := NodeIds(layers);
      var mid := Rewrite(Rewrite(nodes, Pairs(ids[..k], gs[..k]), Others(layers[..k])), map[layers[k].id := gs[k]], {});
      (if k == 0 then mid else Rewrite(mid, map[], {layers[k].id})) ==
        Rewrite(nodes, Pairs(ids[..k + 1], gs[..k + 1]), Others(layers[..k + 1]))
  {
    var ids := NodeIds(layers);
    var s, dropped := Pairs(ids[..k], gs[..k]), Others(layers[..k]);
    PairsRange(ids[..k], gs[..k], layers[k].id);
    assert layers[k].id !in ids[..k];
    assert ids[..k + 1][..k] == ids[..k] && gs[..k + 1][..k] == gs[..k];
    RewriteThenReplace(nodes, s, dropped, layers[k].id, gs[k]);
    if k == 0 {
      assert Others(layers[..1]) == {};
    } else {
      OthersStep(layers, k);
      RewriteThenErase(nodes, s[layers[k].id := gs[k]], dropped, layers[k].id);
    }
  }

  lemma LayerIdsOld(nodes: seq<FxNode>, k: nat, layers: seq<FxNode>, x: NodeId, m: Modules, nextId: NodeId)
    requires k < |nodes| && IsGroup(nodes[..k], nodes[k], nodes[k + 1..], layers, x, m)
    requires NumberedBelow(nodes, nextId)
    ensures forall j :: 0 <= j < |layers| ==> layers[j].id < nextId
  {
    forall j | 1 <= j < |layers| ensures layers[j].id < nextId {
      var p :| 0 <= p < |nodes[k + 1..]| && nodes[k + 1..][p] == layers[j];
      assert nodes[k + 1 + p] == layers[j];
    }
  }

  lemma FreshIds(nodes: seq<FxNode>, nextId: NodeId, split: NodeId, gs: seq<NodeId>)
    requires NumberedBelow(nodes, nextId)
    requires split == nextId && forall j :: 0 <= j < |gs| ==> gs[j] == nextId + 1 + j
    ensures Fresh([split] + gs, Ids(nodes))
  {
    forall j | 0 <= j < |[split] + gs| ensures ([split] + gs)[j] !in Ids(nodes) {
      IdsMember(nodes, ([split] + gs)[j]);
    }
  }

  /** After the redirection only the split's argument is wrong: it points at its own first item. */
  lemma RedirectedHead(a: seq<FxNode>, base: FxNode, b: seq<FxNode>, layers: seq<FxNode>, x: NodeId,
                       split: NodeId, gs: seq<NodeId>, sizes: seq<nat>, m: Modules)
    requires Topological(a + [base] + b) && IsGroup(a, base, b, layers, x, m) && |gs| == |layers|
    requires forall j :: 0 <= j < |layers| ==> layers[j].id < split
    requires forall j :: 0 <= j < |gs| ==> split < gs[j]
    ensures
      var s := Pairs(NodeIds(layers), gs);
      Rewrite(Head(a, base, split, gs, sizes) + b, s, Others(layers)) ==
        a + [base] + [FxNode(split, Split(sizes), [s[base.id]])] + GetItems(split, gs) + Rewrite(b, s, Others(layers))
  {
    var s, d := Pairs(NodeIds(layers), gs), Others(layers);
    PrefixTopological(a + [base], b);
    HeadNotRenamed(a, base, layers, x, m);
    RewriteIdentity(a + [base], s, d);
    assert base.id in NodeIds(layers) by { assert NodeIds(layers)[0] == base.id; }
    OthersBelow(layers, split);
    ItemsNotRenamed(split, gs, s, d);
    RewriteAppend(Head(a, base, split, gs, sizes), b, s, d);
    RewriteHead(a + [base], base.id, split, gs, sizes, s, d);
  }

  lemma OthersBelow(layers: seq<FxNode>, split: NodeId)
    requires forall j :: 0 <= j < |layers| ==> layers[j].id < split
    ensures (forall id :: id in Others(layers) ==> id < split) && forall id :: id in NodeIds(layers) ==> id < split
  {
  }

  /** Rewriting the split and the getitems behind nodes that stay the same. */
  lemma RewriteHead(front: seq<FxNode>, base: NodeId, split: NodeId, gs: seq<NodeId>, sizes: seq<nat>, s: Substitution,
                    d: set<NodeId>)
    requires Rewrite(front, s, d) == front && Rewrite(GetItems(split, gs), s, d) == GetItems(split, gs)
    requires split !in d && base in s
    ensures Rewrite(front + [FxNode(split, Split(sizes), [base])] + GetItems(split, gs), s, d) ==
      front + [FxNode(split, Split(sizes), [s[base]])] + GetItems(split, gs)
  {
    var cut := FxNode(split, Split(sizes), [base]);
    RewriteAppend(front + [cut], GetItems(split, gs), s, d);
    RewriteSnoc(front, cut, s, d);
    assert SubArgs(s, cut.args) == [s[base]];
  }

  lemma {:induction false} ItemsNotRenamed(split: NodeId, gs: seq<NodeId>, s: Substitution, dropped: set<NodeId>)
    requires split !in s && forall j :: 0 <= j < |gs| ==> gs[j] !in dropped
    ensures Rewrite(GetItems(split, gs), s, dropped) == GetItems(split, gs)
  {
    if gs != [] {
      var n := FxNode(gs[|gs| - 1], GetItem(|gs| - 1), [split]);
      RewriteAppend([n], GetItems(split, gs[..|gs| - 1]), s, dropped);
      ItemsNotRenamed(split, gs[..|gs| - 1], s, dropped);
      RewriteIdentity([n], s, dropped);
    }
  }

  lemma {:induction false} ArgsAreEarlier(nodes: seq<FxNode>, k: nat, arg: NodeId)
    requires Topological(nodes) && k < |nodes| && arg in nodes[k].args
    ensures arg in Ids(nodes)
    decreases |nodes|
  {
    if k < |nodes| - 1 {
      assert nodes[..|nodes| - 1][k] == nodes[k];
      ArgsAreEarlier(nodes[..|nodes| - 1], k, arg);
    }
  }

  lemma HeadNotRenamed(a: seq<FxNode>, base: FxNode, layers: seq<FxNode>, x: NodeId, m: Modules)
    requires Topological(a + [base]) && |layers| > 0 && layers[0] == base && base.args == [x]
    requires Fresh(NodeIds(layers), {})
    requires forall k :: 0 <= k < |a| ==> a[k].id !in Others(layers)
    ensures forall k :: 0 <= k < |a| + 1 ==>
      (a + [base])[k].id !in Others(layers)
      && forall j :: 0 <= j < |(a + [base])[k].args| ==> (a + [base])[k].args[j] !in NodeIds(layers)
  {
    assert (a + [base])[..|a|] == a;
    assert base.id !in Ids(a) && x in base.args && x in Ids(a);
    forall id | id in Ids(a) ensures id !in NodeIds(layers) {
      IdsMember(a, id);
      assert forall l :: 1 <= l < |layers| ==> layers[l].id in Others(layers);
    }
    forall k, j | 0 <= k < |a| && 0 <= j < |a[k].args| ensures a[k].args[j] in Ids(a) {
      ArgsAreEarlier(a, k, a[k].args[j]);
    }
    assert forall l :: 1 <= l < |layers| ==> NodeIds(layers)[l] != NodeIds(layers)[0];
  }

  lemma OthersStep(layers: seq<FxNode>, k: nat)
    requires 0 < k < |layers|
    ensures Others(layers[..k + 1]) == Others(layers[..k]) + {layers[k].id}
  {
    assert forall j :: 1 <= j < k ==> layers[..k + 1][j] == layers[..k][j];
    assert layers[..k + 1][k] == layers[k];
  }

  lemma {:induction false} PairsRange(keys: seq<NodeId>, values: seq<NodeId>, a: NodeId)
    requires |keys| == |values| && a !in values
    ensures forall id :: id in Pairs(keys, values) ==> Pairs(keys, values)[id] != a
  {
    if keys != [] {
      assert a !in values[..|values| - 1];
      PairsRange(keys[..|keys| - 1], values[..|values| - 1], a);
    }
  }

  /** Inserting right behind the split puts the newest getitem first. */
  lemma InsertedBehindSplit(a: seq<FxNode>, base: FxNode, split: NodeId, gs: seq<NodeId>, g: NodeId, sizes: seq<nat>,
                            b: seq<FxNode>)
    ensures
      var nodes, n := Head(a, base, split, gs, sizes) + b, FxNode(g, GetItem(|gs|), [split]);
      |a| + 2 <= |nodes|
      && nodes[..|a| + 2] + [n] + nodes[|a| + 2..] == Head(a, base, split, gs + [g], sizes) + b
  {
    assert (gs + [g])[..|gs|] == gs;
    var front := a + [base] + [FxNode(split, Split(sizes), [base.id])];
    var nodes := front + GetItems(split, gs) + b;
    assert nodes[..|front|] == front && nodes[|front|..] == GetItems(split, gs) + b;
  }
}
