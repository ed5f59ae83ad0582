/**
 What every round of `concat_linear` keeps: the graph stays in order, nodes keep their ops, names and modules develop in
 a known way, and values are kept as long as no shared module is replaced.
 */
module ConcatSteps {
  import opened Basics
  import opened LinearAlgebra
  import opened Fx
  import opened ConcatModules
  import opened ConcatRewrite
  import opened ConcatLinear
  import opened ConcatGroups
  import opened ConcatOrder

  // ----- The invariant between groups

  /** Every surviving original node is the original with redirected arguments; new nodes use no modules. */
  ghost predicate Origin(nodes0: seq<FxNode>, nodes: seq<FxNode>, rho: Substitution)
  {
    forall j :: 0 <= j < |nodes| ==> OriginNode(nodes0, nodes[j], rho)
  }

  ghost predicate OriginNode(nodes0: seq<FxNode>, n: FxNode, rho: Substitution)
  {
    if n.id < |nodes0| then n.op == nodes0[n.id].op && n.args == SubArgs(rho, nodes0[n.id].args)
    else !n.op.CallModule? && !n.op.GetAttr?
  }

  /** The module `now` stands where `was` stood: it has at least as many outputs, and is like it otherwise. */
  ghost predicate Grown(was: Module, now: Module)
  {
    if was.Linear? then
      && now.Linear? && WellShaped(now) && now.cols == was.cols && now.traits == was.traits
      && now.bias.Some? == was.bias.Some? && (now.bias.Some? ==> now.bias.value.traits == was.bias.value.traits)
      && |was.weight| <= |now.weight|
    else now == was
  }

  ghost predicate AllGrown(m0: Modules, m: Modules)
  {
    forall t :: t in m0 ==> t in m && Grown(m0[t], m[t])
  }

  /** Only linears that finished groups rewrite are renamed, to new nodes. */
  ghost predicate Renamed(nodes0: seq<FxNode>, m0: Modules, rho: Substitution, done: set<NodeId>)
  {
    forall id :: id in rho ==>
      && id < |nodes0| && nodes0[id].args != [] && nodes0[id].args[0] in done && |nodes0| <= rho[id]
      && (IsFirst(nodes0, m0, id) || Merges(nodes0, m0, nodes0[id].args[0], id))
  }

  /** Merged linears of finished groups are no longer in the graph. */
  ghost predicate Gone(nodes0: seq<FxNode>, m0: Modules, nodes: seq<FxNode>, done: set<NodeId>)
  {
    forall y, k :: y in done && Merges(nodes0, m0, y, k) ==> k !in Ids(nodes)
  }

  /** All other original nodes are. */
  ghost predicate Stays(nodes0: seq<FxNode>, m0: Modules, nodes: seq<FxNode>, done: set<NodeId>)
  {
    forall k :: 0 <= k < |nodes0| && k !in Ids(nodes) ==>
      nodes0[k].args != [] && nodes0[k].args[0] in done && Merges(nodes0, m0, nodes0[k].args[0], k)
  }

  /** `x` is the input of the next group: the groups that start before it are the finished ones. */
  ghost predicate IsNext(nodes0: seq<FxNode>, m0: Modules, x: NodeId, done: set<NodeId>)
  {
    x !in done && forall y :: y in done <==> StartsBefore(nodes0, m0, y, x)
  }

  ghost predicate Invariant(nodes0: seq<FxNode>, m0: Modules, nodes: seq<FxNode>, m: Modules, rho: Substitution,
                            done: set<NodeId>)
  {
    && Topological(nodes) && Ordered(nodes, |nodes0|) && Origin(nodes0, nodes, rho) && AllGrown(m0, m)
    && Renamed(nodes0, m0, rho, done) && Gone(nodes0, m0, nodes, done) && Stays(nodes0, m0, nodes, done)
  }

  // ----- From ids to a group

  /** The chosen members as they stand in the current graph: the group's first linear, and its partners. */
  ghost predicate Chosen(nodes0: seq<FxNode>, m0: Modules, nodes: seq<FxNode>, x: NodeId, layers: seq<FxNode>)
    requires Positional(nodes0)
  {
    var ids := GroupOf(nodes0, m0, x);
    GroupSorted(nodes0, m0, x);
    && |ids| > 0
    && Partners(nodes0, m0, ModuleAt(nodes0, m0, ids[0]), ids[1..]).Ok?
    && SameIds(layers, [ids[0]] + Partners(nodes0, m0, ModuleAt(nodes0, m0, ids[0]), ids[1..]).value)
    && (forall j :: 0 <= j < |layers| ==> layers[j] in nodes)
  }

  ghost predicate SameIds(layers: seq<FxNode>, ids: seq<NodeId>)
  {
    |layers| == |ids| && forall j :: 0 <= j < |layers| ==> layers[j].id == ids[j]
  }

  /** What the choice means. */
  lemma ChosenMembers(nodes0: seq<FxNode>, m0: Modules, nodes: seq<FxNode>, x: NodeId, layers: seq<FxNode>)
    requires Positional(nodes0) && Chosen(nodes0, m0, nodes, x, layers)
    ensures SortedGroup(nodes0, m0, x, GroupOf(nodes0, m0, x))
    ensures FitMembers(nodes0, m0, GroupOf(nodes0, m0, x), NodeIds(layers))
  {
    GroupSorted(nodes0, m0, x);
    var ids := GroupOf(nodes0, m0, x);
    PartnersAreFit(nodes0, m0, x, ids);
    assert NodeIds(layers) == [ids[0]] + Partners(nodes0, m0, ModuleAt(nodes0, m0, ids[0]), ids[1..]).value;
  }

  lemma LayerFacts(nodes0: seq<FxNode>, m0: Modules, nodes: seq<FxNode>, m: Modules, rho: Substitution,
                   done: set<NodeId>, x: NodeId, layers: seq<FxNode>, j: nat)
    requires WellFormed(nodes0, m0) && Invariant(nodes0, m0, nodes, m, rho, done)
    requires Chosen(nodes0, m0, nodes, x, layers) && j < |layers|
    ensures layers[j].id < |nodes0| && OnInput(nodes0[layers[j].id], m0, x)
    ensures layers[j].op == nodes0[layers[j].id].op && layers[j].args == [Sub(rho, x)]
    ensures layers[j].op.CallModule? && layers[j].op.target in m
    ensures Grown(ModuleAt(nodes0, m0, layers[j].id), m[layers[j].op.target])
  {
    ChosenMembers(nodes0, m0, nodes, x, layers);
    var ids := GroupOf(nodes0, m0, x);
    var q :| 0 <= q < |ids| && ids[q] == layers[j].id;
    assert layers[j] in nodes;
    var p :| 0 <= p < |nodes| && nodes[p] == layers[j];
    assert OriginNode(nodes0, nodes[p], rho);
    assert nodes0[layers[j].id].args == [x];
  }

  /** Comparing grown modules is comparing the originals. */
  lemma GrownCompare(a0: Module, a: Module, b0: Module, b: Module)
    requires a0.Linear? && b0.Linear? && Grown(a0, a) && Grown(b0, b)
    ensures CanConcat(a, b) == CanConcat(a0, b0)
    ensures CanConcat(a0, b0) == Ok(true) ==> b.cols == a.cols && b.bias.Some? == a.bias.Some?
  {
  }

  lemma ChosenCompatible(nodes0: seq<FxNode>, m0: Modules, nodes: seq<FxNode>, m: Modules, rho: Substitution,
                         done: set<NodeId>, x: NodeId, layers: seq<FxNode>)
    requires WellFormed(nodes0, m0) && Invariant(nodes0, m0, nodes, m, rho, done)
    requires Chosen(nodes0, m0, nodes, x, layers)
    ensures forall j :: 0 <= j < |layers| ==> layers[j].op.CallModule? && layers[j].op.target in m
    ensures Compatible(ModulesOf(layers, m))
  {
    ChosenMembers(nodes0, m0, nodes, x, layers);
    LayerFacts(nodes0, m0, nodes, m, rho, done, x, layers, 0);
    forall j | 0 <= j < |layers|
      ensures layers[j].op.CallModule? && layers[j].op.target in m
      ensures
        var l, first := m[layers[j].op.target], m[layers[0].op.target];
        l.Linear? && WellShaped(l) && l.cols == first.cols && l.bias.Some? == first.bias.Some?
    {
      LayerFacts(nodes0, m0, nodes, m, rho, done, x, layers, j);
      if j > 0 {
        GrownCompare(ModuleAt(nodes0, m0, layers[0].id), m[layers[0].op.target],
                     ModuleAt(nodes0, m0, layers[j].id), m[layers[j].op.target]);
      }
    }
  }

  /** The first layer is the first of a rewritten group. */
  lemma ChosenFirst(nodes0: seq<FxNode>, m0: Modules, nodes: seq<FxNode>, x: NodeId, layers: seq<FxNode>)
    requires Positional(nodes0) && Chosen(nodes0, m0, nodes, x, layers) && |layers| >= 2
    ensures layers[0].id < |nodes0| && IsFirst(nodes0, m0, layers[0].id)
  {
    GroupSorted(nodes0, m0, x);
    var ids := GroupOf(nodes0, m0, x);
    assert layers[0].id == ids[0] && OnInput(nodes0[ids[0]], m0, x);
  }

  lemma FittingIsChosen(nodes0: seq<FxNode>, m0: Modules, nodes: seq<FxNode>, x: NodeId, layers: seq<FxNode>, k: nat)
    requires Positional(nodes0) && Chosen(nodes0, m0, nodes, x, layers)
    requires SortedGroup(nodes0, m0, x, GroupOf(nodes0, m0, x)) && k < |GroupOf(nodes0, m0, x)|
    requires CanConcat(ModuleAt(nodes0, m0, GroupOf(nodes0, m0, x)[0]),
      ModuleAt(nodes0, m0, GroupOf(nodes0, m0, x)[k])) == Ok(true)
    ensures exists j :: 0 <= j < |layers| && layers[j].id == GroupOf(nodes0, m0, x)[k]
  {
    var ids := GroupOf(nodes0, m0, x);
    if k == 0 {
      assert layers[0].id == ids[0];
    } else {
      var b, rest := ModuleAt(nodes0, m0, ids[0]), ids[1..];
      assert rest[k - 1] == ids[k];
      PartnersComplete(nodes0, m0, b, rest, k - 1);
      var ps := Partners(nodes0, m0, b, rest).value;
      var j :| 0 <= j < |ps| && ps[j] == ids[k];
      assert layers[j + 1].id == ids[k];
    }
  }

  /** A node that uses the first layer's module is itself one of the layers, if no module is shared. */
  lemma SameTargetIsChosen(nodes0: seq<FxNode>, m0: Modules, nodes: seq<FxNode>, m: Modules, rho: Substitution,
                           done: set<NodeId>, x: NodeId, layers: seq<FxNode>, p: nat)
    requires WellFormed(nodes0, m0) && Unshared(nodes0, m0) && IsNext(nodes0, m0, x, done)
    requires Invariant(nodes0, m0, nodes, m, rho, done) && Chosen(nodes0, m0, nodes, x, layers) && |layers| >= 2
    requires p < |nodes| && layers[0].op.CallModule? && Uses(nodes[p], layers[0].op.target)
    ensures exists j :: 0 <= j < |layers| && layers[j].id == nodes[p].id
  {
    LayerFacts(nodes0, m0, nodes, m, rho, done, x, layers, 0);
    ChosenMembers(nodes0, m0, nodes, x, layers);
    ChosenFirst(nodes0, m0, nodes, x, layers);
    var id, base := nodes[p].id, layers[0].id;
    assert OriginNode(nodes0, nodes[p], rho);
    IdsMember(nodes, id);
    assert Harmless(nodes0, m0, base, id);
    assert !MergedBefore(nodes0, m0, id, base);
    GroupMember(nodes0, m0, x, id);
    var ids := GroupOf(nodes0, m0, x);
    var k :| 0 <= k < |ids| && ids[k] == id;
    assert ModuleAt(nodes0, m0, ids[k]) == ModuleAt(nodes0, m0, ids[0]);
    FittingIsChosen(nodes0, m0, nodes, x, layers, k);
  }

  /** The chosen members form a group around the position of the first one. */
  lemma ChosenIsGroup(nodes0: seq<FxNode>, m0: Modules, nodes: seq<FxNode>, m: Modules, rho: Substitution,
                      done: set<NodeId>, x: NodeId, layers: seq<FxNode>, p: nat)
    requires WellFormed(nodes0, m0) && Invariant(nodes0, m0, nodes, m, rho, done)
    requires Chosen(nodes0, m0, nodes, x, layers) && p < |nodes| && nodes[p] == layers[0]
    ensures IsGroup(nodes[..p], nodes[p], nodes[p + 1..], layers, Sub(rho, x), m)
  {
    ChosenOn(nodes0, m0, nodes, m, rho, done, x, layers);
    ChosenAround(nodes0, m0, nodes, x, layers, p);
    ChosenMembers(nodes0, m0, nodes, x, layers);
    assert forall j :: 0 <= j < |layers| ==> NodeIds(layers)[j] == layers[j].id;
  }

  lemma ChosenOn(nodes0: seq<FxNode>, m0: Modules, nodes: seq<FxNode>, m: Modules, rho: Substitution,
                 done: set<NodeId>, x: NodeId, layers: seq<FxNode>)
    requires WellFormed(nodes0, m0) && Invariant(nodes0, m0, nodes, m, rho, done)
    requires Chosen(nodes0, m0, nodes, x, layers)
    ensures LayersOn(layers, Sub(rho, x), m)
  {
    forall j | 0 <= j < |layers|
      ensures layers[j].args == [Sub(rho, x)] && layers[j].op.CallModule?
      ensures layers[j].op.target in m && m[layers[j].op.target].Linear?
    {
      LayerFacts(nodes0, m0, nodes, m, rho, done, x, layers, j);
    }
  }

  lemma ChosenAround(nodes0: seq<FxNode>, m0: Modules, nodes: seq<FxNode>, x: NodeId, layers: seq<FxNode>, p: nat)
    requires Positional(nodes0) && Topological(nodes) && Ordered(nodes, |nodes0|)
    requires Chosen(nodes0, m0, nodes, x, layers) && p < |nodes| && nodes[p] == layers[0]
    ensures Around(nodes[..p], nodes[p + 1..], layers)
  {
    ChosenMembers(nodes0, m0, nodes, x, layers);
    var a, b := nodes[..p], nodes[p + 1..];
    forall j | 1 <= j < |layers| ensures layers[j] in b {
      LaterLayer(nodes0, m0, nodes, x, layers, p, j);
    }
    forall k | 0 <= k < |a| ensures a[k].id !in Others(layers) {
      NoLayerBefore(nodes0, m0, nodes, x, layers, p, k);
    }
    forall k | 0 <= k < |b| && b[k].id in Others(layers) ensures b[k] in layers {
      OtherIsLayer(nodes, layers, b[k]);
    }
  }

  lemma LaterLayer(nodes0: seq<FxNode>, m0: Modules, nodes: seq<FxNode>, x: NodeId, layers: seq<FxNode>, p: nat, j: nat)
    requires Positional(nodes0) && Ordered(nodes, |nodes0|) && Chosen(nodes0, m0, nodes, x, layers)
    requires p < |nodes| && nodes[p] == layers[0] && 1 <= j < |layers|
    ensures layers[j] in nodes[p + 1..]
  {
    ChosenMembers(nodes0, m0, nodes, x, layers);
    assert NodeIds(layers)[0] < NodeIds(layers)[j];
    InRest(nodes, |nodes0|, p, layers[j]);
  }

  lemma NoLayerBefore(nodes0: seq<FxNode>, m0: Modules, nodes: seq<FxNode>, x: NodeId, layers: seq<FxNode>, p: nat,
                      k: nat)
    requires Positional(nodes0) && Ordered(nodes, |nodes0|) && Chosen(nodes0, m0, nodes, x, layers)
    requires k < p < |nodes| && nodes[p] == layers[0]
    ensures nodes[k].id !in Others(layers)
  {
    ChosenMembers(nodes0, m0, nodes, x, layers);
    assert forall j :: 1 <= j < |layers| ==> NodeIds(layers)[0] < NodeIds(layers)[j] < |nodes0|;
    assert NodeIds(layers)[0] < |nodes0|;
    if nodes[k].id < |nodes0| {
      OrderedAround(nodes, |nodes0|, k, p);
    }
  }

  lemma OtherIsLayer(nodes: seq<FxNode>, layers: seq<FxNode>, n: FxNode)
    requires Topological(nodes) && n in nodes && n.id in Others(layers)
    requires forall j :: 0 <= j < |layers| ==> layers[j] in nodes
    ensures n in layers
  {
    var j :| 1 <= j < |layers| && layers[j].id == n.id;
    assert layers[j] in nodes;
    var q, r :| 0 <= q < |nodes| && 0 <= r < |nodes| && nodes[q] == n && nodes[r] == layers[j];
    UniqueIds(nodes, q, r);
  }

  /** If no module is shared, only the layers use the first one's. */
  lemma OnlyChosenUse(nodes0: seq<FxNode>, m0: Modules, nodes: seq<FxNode>, m: Modules, rho: Substitution,
                      done: set<NodeId>, x: NodeId, layers: seq<FxNode>, p: nat)
    requires WellFormed(nodes0, m0) && Unshared(nodes0, m0) && IsNext(nodes0, m0, x, done)
    requires Invariant(nodes0, m0, nodes, m, rho, done) && Chosen(nodes0, m0, nodes, x, layers) && |layers| >= 2
    requires p < |nodes| && nodes[p] == layers[0] && nodes[p].op.CallModule?
    ensures OnlyLayersUse(nodes[..p], nodes[p], nodes[p + 1..], layers)
  {
    ChosenAround(nodes0, m0, nodes, x, layers, p);
    forall k | 0 <= k < |nodes| && k != p && Uses(nodes[k], nodes[p].op.target)
      ensures nodes[k].id in Others(layers)
    {
      SameTargetIsChosen(nodes0, m0, nodes, m, rho, done, x, layers, k);
      var j :| 0 <= j < |layers| && layers[j].id == nodes[k].id;
      if j == 0 {
        UniqueIds(nodes, p, k);
      }
    }
  }

  // ----- One group keeps the invariant

  /** Composing the renamings: earlier new names are never renamed again. */
  lemma ComposeSub(nodes0: seq<FxNode>, m0: Modules, rho: Substitution, s: Substitution, done: set<NodeId>, x: NodeId,
                   a: NodeId)
    requires Renamed(nodes0, m0, rho, done) && x !in done
    requires forall id :: id in s ==> id < |nodes0| && OnInput(nodes0[id], m0, x)
    ensures Sub(s, Sub(rho, a)) == Sub(rho + s, a)
  {
  }

  lemma ComposeArgs(nodes0: seq<FxNode>, m0: Modules, rho: Substitution, s: Substitution, done: set<NodeId>, x: NodeId,
                    args: seq<NodeId>)
    requires Renamed(nodes0, m0, rho, done) && x !in done
    requires forall id :: id in s ==> id < |nodes0| && OnInput(nodes0[id], m0, x)
    ensures SubArgs(s, SubArgs(rho, args)) == SubArgs(rho + s, args)
  {
    forall k | 0 <= k < |args| ensures Sub(s, Sub(rho, args[k])) == Sub(rho + s, args[k]) {
      ComposeSub(nodes0, m0, rho, s, done, x, args[k]);
    }
  }

  lemma ComposeSimulates(nodes0: seq<FxNode>, m0: Modules, rho: Substitution, s: Substitution, done: set<NodeId>,
                         x: NodeId,
                         env0: Env, env: Env, env': Env)
    requires Renamed(nodes0, m0, rho, done) && x !in done
    requires forall id :: id in s ==> id < |nodes0| && OnInput(nodes0[id], m0, x)
    requires Simulates(rho, env0, env) && Simulates(s, env, env')
    ensures Simulates(rho + s, env0, env')
  {
    forall id | id in env0 ensures Sub(rho + s, id) in env' && env'[Sub(rho + s, id)] == env0[id] {
      ComposeSub(nodes0, m0, rho, s, done, x, id);
    }
  }

  lemma StepRenamed(nodes0: seq<FxNode>, m0: Modules, nodes: seq<FxNode>, rho: Substitution, done: set<NodeId>,
                    x: NodeId, layers: seq<FxNode>, nextId: NodeId)
    requires WellFormed(nodes0, m0) && Renamed(nodes0, m0, rho, done)
    requires Chosen(nodes0, m0, nodes, x, layers) && |layers| >= 2 && |nodes0| <= nextId
    ensures Renamed(nodes0, m0, rho + GroupSub(layers, nextId), done + {x})
    ensures forall id :: id in GroupSub(layers, nextId) ==>
      id < |nodes0| && OnInput(nodes0[id], m0, x) && |nodes0| <= GroupSub(layers, nextId)[id]
  {
    GroupSubRange(layers, nextId);
    forall j | 0 <= j < |layers|
      ensures layers[j].id < |nodes0| && OnInput(nodes0[layers[j].id], m0, x)
      ensures IsFirst(nodes0, m0, layers[j].id) || Merges(nodes0, m0, nodes0[layers[j].id].args[0], layers[j].id)
    {
      LayerIsRewritten(nodes0, m0, nodes, x, layers, j);
    }
  }

  /** The first layer starts its group, the others are merged with it. */
  lemma LayerIsRewritten(nodes0: seq<FxNode>, m0: Modules, nodes: seq<FxNode>, x: NodeId, layers: seq<FxNode>, j: nat)
    requires Positional(nodes0) && Chosen(nodes0, m0, nodes, x, layers) && |layers| >= 2 && j < |layers|
    ensures layers[j].id < |nodes0| && OnInput(nodes0[layers[j].id], m0, x)
    ensures if j == 0 then IsFirst(nodes0, m0, layers[j].id) else Merges(nodes0, m0, x, layers[j].id)
  {
    ChosenMembers(nodes0, m0, nodes, x, layers);
    ChosenFirst(nodes0, m0, nodes, x, layers);
    var ids := GroupOf(nodes0, m0, x);
    assert NodeIds(layers)[0] == layers[0].id && NodeIds(layers)[j] == layers[j].id;
    var q :| 0 <= q < |ids| && ids[q] == layers[j].id;
  }

  lemma {:induction false} GroupSubRange(layers: seq<FxNode>, nextId: NodeId)
    ensures forall id :: id in GroupSub(layers, nextId) ==>
      (exists j :: 0 <= j < |layers| && layers[j].id == id) && nextId < GroupSub(layers, nextId)[id]
  {
    PairsIn(NodeIds(layers), Consecutive(nextId + 1, |layers|));
    var s := GroupSub(layers, nextId);
    forall id | id in s ensures (exists j :: 0 <= j < |layers| && layers[j].id == id) && nextId < s[id] {
      var j :| 0 <= j < |layers| && NodeIds(layers)[j] == id;
      assert layers[j].id == id;
    }
  }

  lemma {:induction false} PairsIn(keys: seq<NodeId>, values: seq<NodeId>)
    requires |keys| == |values|
    ensures forall id :: id in Pairs(keys, values) ==> Pairs(keys, values)[id] in values
  {
    if keys != [] {
      PairsIn(keys[..|keys| - 1], values[..|values| - 1]);
    }
  }

  lemma StepOrdered(a: seq<FxNode>, base: FxNode, b: seq<FxNode>, layers: seq<FxNode>, sizes: seq<nat>, nextId: NodeId,
                    n0: nat)
    requires Ordered(a + [base] + b, n0) && n0 <= nextId
    ensures Ordered(Edited(a, base, b, layers, sizes, nextId), n0)
  {
    var gs := Consecutive(nextId + 1, |layers|);
    var added := [FxNode(nextId, Split(sizes), [base.id])] + GetItems(nextId, gs);
    ItemElements(nextId, gs);
    OrderedPrefix(a + [base], b, n0);
    OrderedNew(a + [base], added, n0);
    assert Head(a, base, nextId, gs, sizes) == a + [base] + added;
    OrderedRewrite(a + [base], a + [base] + added, b, GroupSub(layers, nextId), Others(layers), n0);
  }

  lemma OriginAppend(nodes0: seq<FxNode>, p: seq<FxNode>, q: seq<FxNode>, rho: Substitution)
    requires Origin(nodes0, p, rho) && Origin(nodes0, q, rho)
    ensures Origin(nodes0, p + q, rho)
  {
  }

  lemma OriginSuffix(nodes0: seq<FxNode>, p: seq<FxNode>, q: seq<FxNode>, rho: Substitution)
    requires Origin(nodes0, p + q, rho)
    ensures Origin(nodes0, q, rho)
  {
    assert forall k :: 0 <= k < |q| ==> q[k] == (p + q)[|p| + k];
  }

  lemma ItemsOrigin(nodes0: seq<FxNode>, base: NodeId, sizes: seq<nat>, nextId: NodeId, gs: seq<NodeId>,
                    rho: Substitution)
    requires |nodes0| <= nextId && forall k :: 0 <= k < |gs| ==> gs[k] > nextId
    ensures Origin(nodes0, [FxNode(nextId, Split(sizes), [base])] + GetItems(nextId, gs), rho)
  {
    ItemElements(nextId, gs);
  }

  lemma RewriteOrigin(nodes0: seq<FxNode>, m0: Modules, b: seq<FxNode>, s: Substitution, dropped: set<NodeId>,
                      rho: Substitution, done: set<NodeId>, x: NodeId)
    requires Origin(nodes0, b, rho) && Renamed(nodes0, m0, rho, done) && x !in done
    requires forall id :: id in s ==> id < |nodes0| && OnInput(nodes0[id], m0, x)
    ensures Origin(nodes0, Rewrite(b, s, dropped), rho + s)
  {
    RewriteElements(b, s, dropped);
    forall r | ImageOf(b, s, dropped, r) ensures OriginNode(nodes0, r, rho + s) {
      var k :| 0 <= k < |b| && b[k].id !in dropped && r == b[k].(args := SubArgs(s, b[k].args));
      if r.id < |nodes0| {
        ComposeArgs(nodes0, m0, rho, s, done, x, nodes0[r.id].args);
      }
    }
  }

  lemma StepOrigin(nodes0: seq<FxNode>, m0: Modules, a: seq<FxNode>, base: FxNode, b: seq<FxNode>, layers: seq<FxNode>,
                   y: NodeId, sizes: seq<nat>, m: Modules, nextId: NodeId, rho: Substitution, done: set<NodeId>,
                   x: NodeId)
    requires Origin(nodes0, a + [base] + b, rho) && Renamed(nodes0, m0, rho, done) && x !in done && |nodes0| <= nextId
    requires Topological(a + [base] + b) && IsGroup(a, base, b, layers, y, m)
    requires forall id :: id in GroupSub(layers, nextId) ==> id < |nodes0| && OnInput(nodes0[id], m0, x)
    ensures Origin(nodes0, Edited(a, base, b, layers, sizes, nextId), rho + GroupSub(layers, nextId))
  {
    var s, gs := GroupSub(layers, nextId), Consecutive(nextId + 1, |layers|);
    HeadOrigin(nodes0, m0, a, base, b, layers, y, m, nextId, rho, done, x);
    var items := [FxNode(nextId, Split(sizes), [base.id])] + GetItems(nextId, gs);
    ItemsOrigin(nodes0, base.id, sizes, nextId, gs, rho + s);
    OriginAppend(nodes0, a + [base], items, rho + s);
    OriginSuffix(nodes0, a + [base], b, rho);
    RewriteOrigin(nodes0, m0, b, s, Others(layers), rho, done, x);
    Associate(a + [base], [FxNode(nextId, Split(sizes), [base.id])], GetItems(nextId, gs));
    OriginAppend(nodes0, Head(a, base, nextId, gs, sizes), Rewrite(b, s, Others(layers)), rho + s);
  }

  lemma HeadOrigin(nodes0: seq<FxNode>, m0: Modules, a: seq<FxNode>, base: FxNode, b: seq<FxNode>, layers: seq<FxNode>,
                   y: NodeId, m: Modules, nextId: NodeId, rho: Substitution, done: set<NodeId>, x: NodeId)
    requires Origin(nodes0, a + [base] + b, rho) && Renamed(nodes0, m0, rho, done) && x !in done
    requires Topological(a + [base] + b) && IsGroup(a, base, b, layers, y, m)
    requires forall id :: id in GroupSub(layers, nextId) ==> id < |nodes0| && OnInput(nodes0[id], m0, x)
    ensures Origin(nodes0, a + [base], rho + GroupSub(layers, nextId))
  {
    var s := GroupSub(layers, nextId);
    PrefixTopological(a + [base], b);
    HeadNotRenamed(a, base, layers, y, m);
    forall k | 0 <= k < |a + [base]| ensures OriginNode(nodes0, (a + [base])[k], rho + s) {
      var n := (a + [base])[k];
      assert n == (a + [base] + b)[k];
      if n.id < |nodes0| {
        assert SubArgs(s, n.args) == n.args;
        ComposeArgs(nodes0, m0, rho, s, done, x, nodes0[n.id].args);
      }
    }
  }

  lemma EditedIdSet(a: seq<FxNode>, base: FxNode, b: seq<FxNode>, layers: seq<FxNode>, sizes: seq<nat>, nextId: NodeId)
    ensures Ids(Edited(a, base, b, layers, sizes, nextId)) ==
      Ids(a) + {base.id} + {nextId} + Ids(GetItems(nextId, Consecutive(nextId + 1, |layers|)))
      + (Ids(b) - Others(layers))
    ensures Ids(a + [base] + b) == Ids(a) + {base.id} + Ids(b)
  {
    var s, gs := GroupSub(layers, nextId), Consecutive(nextId + 1, |layers|);
    var cut := FxNode(nextId, Split(sizes), [base.id]);
    OrderedStep(a, base, 0);
    OrderedStep(a + [base], cut, 0);
    IdsAppend(a + [base], b);
    IdsAppend(a + [base] + [cut], GetItems(nextId, gs));
    RewriteIds(b, s, Others(layers));
    IdsAppend(Head(a, base, nextId, gs, sizes), Rewrite(b, s, Others(layers)));
  }

  /** The concatenated module stands where the first layer's module stood. */
  lemma StepGrown(m0: Modules, m: Modules, t: string, ms: seq<Module>)
    requires AllGrown(m0, m) && Compatible(ms) && t in m && m[t] == ms[0]
    ensures AllGrown(m0, m[t := Concat(ms)])
  {
    ConcatShape(ms);
    SumPrefix(Channels(ms), 0);
    assert Channels(ms)[..0] == [];
  }

  /** One group's edit in a graph that satisfies the invariant. */
  ghost predicate Editable(nodes0: seq<FxNode>, m0: Modules, nodes: seq<FxNode>, p: nat, layers: seq<FxNode>,
                           m: Modules, nextId: NodeId, rho: Substitution, done: set<NodeId>, x: NodeId)
  {
    && WellFormed(nodes0, m0) && Invariant(nodes0, m0, nodes, m, rho, done) && IsNext(nodes0, m0, x, done)
    && Chosen(nodes0, m0, nodes, x, layers) && |layers| >= 2 && p < |nodes| && nodes[p] == layers[0]
    && |nodes0| <= nextId && NumberedBelow(nodes, nextId)
    && IsGroup(nodes[..p], nodes[p], nodes[p + 1..], layers, Sub(rho, x), m) && Compatible(ModulesOf(layers, m))
  }

  /** The graph after this edit. */
  function EditedAt(nodes: seq<FxNode>, p: nat, layers: seq<FxNode>, m: Modules, nextId: NodeId): seq<FxNode>
    requires p < |nodes| && forall k :: 0 <= k < |layers| ==> layers[k].op.CallModule? && layers[k].op.target in m
    requires forall k :: 0 <= k < |layers| ==> m[layers[k].op.target].Linear?
  {
    Edited(nodes[..p], nodes[p], nodes[p + 1..], layers, Channels(ModulesOf(layers, m)), nextId)
  }

  /** The module table after it. */
  ghost function EditedModules(layers: seq<FxNode>, m: Modules): Modules
    requires forall k :: 0 <= k < |layers| ==> layers[k].op.CallModule? && layers[k].op.target in m
    requires |layers| > 0 && Compatible(ModulesOf(layers, m))
  {
    m[layers[0].op.target := Concat(ModulesOf(layers, m))]
  }

  lemma StepInvariant(nodes0: seq<FxNode>, m0: Modules, nodes: seq<FxNode>, p: nat, layers: seq<FxNode>, m: Modules,
                      nextId: NodeId, rho: Substitution, done: set<NodeId>, x: NodeId)
    requires Editable(nodes0, m0, nodes, p, layers, m, nextId, rho, done, x)
    ensures Invariant(nodes0, m0, EditedAt(nodes, p, layers, m, nextId), EditedModules(layers, m),
                      rho + GroupSub(layers, nextId), done + {x})
  {
    StepRenamed(nodes0, m0, nodes, rho, done, x, layers, nextId);
    StepGrown(m0, m, layers[0].op.target, ModulesOf(layers, m));
    StepShape(nodes0, m0, nodes, p, layers, m, nextId, rho, done, x);
    StepOld(nodes0, m0, nodes, p, layers, m, nextId, rho, done, x);
  }

  lemma StepShape(nodes0: seq<FxNode>, m0: Modules, nodes: seq<FxNode>, p: nat, layers: seq<FxNode>, m: Modules,
                  nextId: NodeId, rho: Substitution, done: set<NodeId>, x: NodeId)
    requires Editable(nodes0, m0, nodes, p, layers, m, nextId, rho, done, x)
    ensures
      var nodes' := EditedAt(nodes, p, layers, m, nextId);
      Topological(nodes') && Ordered(nodes', |nodes0|) && Origin(nodes0, nodes', rho + GroupSub(layers, nextId))
  {
    var a, base, b, sizes := nodes[..p], nodes[p], nodes[p + 1..], Channels(ModulesOf(layers, m));
    CutAt(nodes, p);
    FreshIds(nodes, nextId, nextId, Consecutive(nextId + 1, |layers|));
    GroupTopological(a, base, b, layers, Sub(rho, x), nextId, Consecutive(nextId + 1, |layers|), sizes, m);
    StepOrdered(a, base, b, layers, sizes, nextId, |nodes0|);
    StepRenamed(nodes0, m0, nodes, rho, done, x, layers, nextId);
    StepOrigin(nodes0, m0, a, base, b, layers, Sub(rho, x), sizes, m, nextId, rho, done, x);
  }

  /** Exactly the merged originals leave the graph. */
  lemma StepOld(nodes0: seq<FxNode>, m0: Modules, nodes: seq<FxNode>, p: nat, layers: seq<FxNode>, m: Modules,
                nextId: NodeId, rho: Substitution, done: set<NodeId>, x: NodeId)
    requires Editable(nodes0, m0, nodes, p, layers, m, nextId, rho, done, x)
    ensures
      var nodes' := EditedAt(nodes, p, layers, m, nextId);
      Gone(nodes0, m0, nodes', done + {x}) && Stays(nodes0, m0, nodes', done + {x})
  {
    StepIds(nodes0, m0, nodes, p, layers, m, nextId, rho, done, x);
    StepGone(nodes0, m0, nodes, Ids(EditedAt(nodes, p, layers, m, nextId)), layers, done, x);
    StepStays(nodes0, m0, nodes, Ids(EditedAt(nodes, p, layers, m, nextId)), layers, done, x);
  }

  lemma StepIds(nodes0: seq<FxNode>, m0: Modules, nodes: seq<FxNode>, p: nat, layers: seq<FxNode>, m: Modules,
                nextId: NodeId, rho: Substitution, done: set<NodeId>, x: NodeId)
    requires Editable(nodes0, m0, nodes, p, layers, m, nextId, rho, done, x)
    ensures DropsOthers(nodes0, Ids(nodes), Ids(EditedAt(nodes, p, layers, m, nextId)), layers)
  {
    forall k | 0 <= k < |nodes0|
      ensures k in Ids(EditedAt(nodes, p, layers, m, nextId)) <==> k in Ids(nodes) && k !in Others(layers)
    {
      EditedOldIds(nodes, p, layers, Channels(ModulesOf(layers, m)), nextId, k);
    }
  }

  /** Of the original ids, exactly the other layers leave. */
  ghost predicate DropsOthers(nodes0: seq<FxNode>, ids: set<NodeId>, ids': set<NodeId>, layers: seq<FxNode>)
  {
    forall k :: 0 <= k < |nodes0| ==> (k in ids' <==> k in ids && k !in Others(layers))
  }

  lemma StepGone(nodes0: seq<FxNode>, m0: Modules, nodes: seq<FxNode>, ids': set<NodeId>, layers: seq<FxNode>,
                 done: set<NodeId>, x: NodeId)
    requires Positional(nodes0) && Chosen(nodes0, m0, nodes, x, layers) && Gone(nodes0, m0, nodes, done)
    requires DropsOthers(nodes0, Ids(nodes), ids', layers)
    ensures forall y, k :: y in done + {x} && Merges(nodes0, m0, y, k) ==> k !in ids'
  {
    forall y, k | y in done + {x} && Merges(nodes0, m0, y, k) ensures k !in ids' {
      if y !in done {
        MergedIsOther(nodes0, m0, nodes, x, layers, k);
      }
    }
  }

  lemma StepStays(nodes0: seq<FxNode>, m0: Modules, nodes: seq<FxNode>, ids': set<NodeId>, layers: seq<FxNode>,
                  done: set<NodeId>, x: NodeId)
    requires Positional(nodes0) && Chosen(nodes0, m0, nodes, x, layers) && |layers| >= 2
    requires Stays(nodes0, m0, nodes, done) && DropsOthers(nodes0, Ids(nodes), ids', layers)
    ensures forall k :: 0 <= k < |nodes0| && k !in ids' ==>
      nodes0[k].args != [] && nodes0[k].args[0] in done + {x} && Merges(nodes0, m0, nodes0[k].args[0], k)
  {
    forall k | 0 <= k < |nodes0| && k in Others(layers)
      ensures nodes0[k].args != [] && nodes0[k].args[0] == x && Merges(nodes0, m0, x, k)
    {
      var j :| 1 <= j < |layers| && layers[j].id == k;
      LayerIsRewritten(nodes0, m0, nodes, x, layers, j);
    }
  }

  /** The edit drops the other layers and no other old id. */
  lemma EditedOldIds(nodes: seq<FxNode>, p: nat, layers: seq<FxNode>, sizes: seq<nat>, nextId: NodeId, id: NodeId)
    requires p < |nodes| && |layers| > 0 && layers[0] == nodes[p] && Fresh(NodeIds(layers), {})
    requires Around(nodes[..p], nodes[p + 1..], layers) && id < nextId
    ensures
      id in Ids(Edited(nodes[..p], nodes[p], nodes[p + 1..], layers, sizes, nextId)) <==>
        id in Ids(nodes) && id !in Others(layers)
  {
    CutAt(nodes, p);
    EditedIdSet(nodes[..p], nodes[p], nodes[p + 1..], layers, sizes, nextId);
    ItemIds(nextId, Consecutive(nextId + 1, |layers|));
    HeadNotOther(nodes[..p], nodes[p], layers, id);
  }

  lemma ItemIds(split: NodeId, gs: seq<NodeId>)
    ensures forall id :: id in Ids(GetItems(split, gs)) ==> id in gs
  {
    ItemElements(split, gs);
    forall id | id in Ids(GetItems(split, gs)) ensures id in gs {
      IdsMember(GetItems(split, gs), id);
    }
  }

  lemma HeadNotOther(a: seq<FxNode>, base: FxNode, layers: seq<FxNode>, id: NodeId)
    requires |layers| > 0 && layers[0] == base && Fresh(NodeIds(layers), {})
    requires forall k :: 0 <= k < |a| ==> a[k].id !in Others(layers)
    ensures id in Ids(a) || id == base.id ==> id !in Others(layers)
  {
    IdsMember(a, id);
    assert NodeIds(layers)[0] == base.id;
    assert forall k :: 1 <= k < |layers| ==> NodeIds(layers)[k] == layers[k].id;
  }

  lemma MergedIsOther(nodes0: seq<FxNode>, m0: Modules, nodes: seq<FxNode>, x: NodeId, layers: seq<FxNode>, k: nat)
    requires Positional(nodes0) && Chosen(nodes0, m0, nodes, x, layers) && Merges(nodes0, m0, x, k)
    ensures k in Others(layers)
  {
    GroupSorted(nodes0, m0, x);
    var ids := GroupOf(nodes0, m0, x);
    var q :| 0 <= q < |ids| && ids[q] == k;
    FittingIsChosen(nodes0, m0, nodes, x, layers, q);
    var j :| 0 <= j < |layers| && layers[j].id == k;
    assert layers[0].id == ids[0];
  }

  /** If no module is shared, the edit keeps every value. */
  lemma StepValues(nodes0: seq<FxNode>, m0: Modules, nodes: seq<FxNode>, p: nat, layers: seq<FxNode>, m: Modules,
                   nextId: NodeId, rho: Substitution, done: set<NodeId>, x: NodeId, i: Interp)
    requires Editable(nodes0, m0, nodes, p, layers, m, nextId, rho, done, x) && Unshared(nodes0, m0)
    requires Simulates(rho, Eval(nodes0, m0, i), Eval(nodes, m, i))
    ensures Simulates(rho + GroupSub(layers, nextId), Eval(nodes0, m0, i),
                      Eval(EditedAt(nodes, p, layers, m, nextId), EditedModules(layers, m), i))
  {
    OnlyChosenUse(nodes0, m0, nodes, m, rho, done, x, layers, p);
    StepRenamed(nodes0, m0, nodes, rho, done, x, layers, nextId);
    EditPreserves(nodes, p, layers, Sub(rho, x), m, nextId, i);
    ComposeSimulates(nodes0, m0, rho, GroupSub(layers, nextId), done, x, Eval(nodes0, m0, i), Eval(nodes, m, i),
                     Eval(EditedAt(nodes, p, layers, m, nextId), EditedModules(layers, m), i));
  }

  /** One group's edit keeps every value. */
  lemma EditPreserves(nodes: seq<FxNode>, p: nat, layers: seq<FxNode>, y: NodeId, m: Modules, nextId: NodeId, i: Interp)
    requires p < |nodes| && Topological(nodes) && NumberedBelow(nodes, nextId)
    requires IsGroup(nodes[..p], nodes[p], nodes[p + 1..], layers, y, m) && Compatible(ModulesOf(layers, m))
    requires OnlyLayersUse(nodes[..p], nodes[p], nodes[p + 1..], layers)
    ensures
      var ms := ModulesOf(layers, m);
      Preserved(nodes, Edited(nodes[..p], nodes[p], nodes[p + 1..], layers, Channels(ms), nextId),
                GroupSub(layers, nextId), m, m[layers[0].op.target := Concat(ms)], i)
  {
    var gs := Consecutive(nextId + 1, |layers|);
    CutAt(nodes, p);
    FreshIds(nodes, nextId, nextId, gs);
    GroupPreserves(nodes[..p], nodes[p], nodes[p + 1..], layers, y, nextId, gs, m, i);
  }
}
