/**
 The graph edit that `concatLinearNodes` (fx/concat_linear.py) makes for one group of linears on the
 same input, and the proof that it preserves every value.
 */
module ConcatRewrite {
  import opened Basics
  import opened LinearAlgebra
  import opened Fx
  import opened ConcatModules

  type Substitution = map<NodeId, NodeId>

  function Sub(s: Substitution, a: NodeId): NodeId
  {
    if a in s then s[a] else a
  }

  function SubArgs(s: Substitution, args: seq<NodeId>): (r: seq<NodeId>)
    ensures |r| == |args| && forall k :: 0 <= k < |args| ==> r[k] == Sub(s, args[k])
  {
    seq(|args|, k requires 0 <= k < |args| => Sub(s, args[k]))
  }

  /** What becomes of one node. */
  function Image(n: FxNode, s: Substitution, dropped: set<NodeId>): seq<FxNode>
  {
    if n.id in dropped then [] else [n.(args := SubArgs(s, n.args))]
  }

  /** Redirects arguments and drops the nodes in `dropped`. */
  function Rewrite(nodes: seq<FxNode>, s: Substitution, dropped: set<NodeId>): seq<FxNode>
  {
    if nodes == [] then []
    else Rewrite(nodes[..|nodes| - 1], s, dropped) + Image(nodes[|nodes| - 1], s, dropped)
  }

  lemma RewriteSnoc(nodes: seq<FxNode>, n: FxNode, s: Substitution, dropped: set<NodeId>)
    ensures Rewrite(nodes + [n], s, dropped) == Rewrite(nodes, s, dropped) + Image(n, s, dropped)
  {
    assert (nodes + [n])[..|nodes + [n]| - 1] == nodes;
  }

  /** Every value of `env` is found in `env'` under its new name. */
  ghost predicate Simulates(s: Substitution, env: Env, env': Env)
  {
    forall id :: id in env ==> Sub(s, id) in env' && env'[Sub(s, id)] == env[id]
  }

  /** `n` computes the same under both module tables. */
  ghost predicate SameMeaning(n: FxNode, m: Modules, m': Modules)
  {
    n.op.CallModule? || n.op.GetAttr? ==>
      (n.op.target in m <==> n.op.target in m') && (n.op.target in m ==> m[n.op.target] == m'[n.op.target])
  }

  lemma {:induction false} EvalSameMeaning(nodes: seq<FxNode>, m: Modules, m': Modules, i: Interp)
    requires forall k :: 0 <= k < |nodes| ==> SameMeaning(nodes[k], m, m')
    ensures Eval(nodes, m, i) == Eval(nodes, m', i)
  {
    if nodes != [] {
      EvalSameMeaning(nodes[..|nodes| - 1], m, m', i);
      assert SameMeaning(nodes[|nodes| - 1], m, m');
    }
  }

  /** Later nodes never change an earlier value. */
  lemma {:induction false} EvalPrefix(a: seq<FxNode>, b: seq<FxNode>, m: Modules, i: Interp, id: NodeId)
    requires Topological(a + b) && id in Ids(a)
    ensures Topological(a) && id in Ids(a + b) && Eval(a + b, m, i)[id] == Eval(a, m, i)[id]
    decreases |b|
  {
    IdsAppend(a, b);
    if b == [] {
      assert a + b == a;
    } else {
      var front := b[..|b| - 1];
      assert a + b == (a + front) + [b[|b| - 1]];
      EvalStep(a + front, b[|b| - 1], m, i);
      IdsAppend(a, front);
      EvalPrefix(a, front, m, i, id);
    }
  }

  // ----- The nodes after the group's input

  /** A dropped node is a linear on `x` whose value is available as `s[n.id]`. */
  ghost predicate Replaced(n: FxNode, s: Substitution, x: NodeId, m: Modules, env: Env, env': Env)
  {
    && n.op.CallModule? && n.args == [x] && n.op.target in m && m[n.op.target].Linear? && n.id in s && x in env
    && s[n.id] in env' && env'[s[n.id]] == ApplyLinear(m[n.op.target], env[x])
  }

  ghost predicate Kept(n: FxNode, s: Substitution, m: Modules, m': Modules, env': Env)
  {
    n.id !in s && n.id !in env' && SameMeaning(n, m, m')
  }

  /** Every node of `suffix` is either replaced or kept. */
  ghost predicate SuffixFits(pre: seq<FxNode>, pre': seq<FxNode>, suffix: seq<FxNode>, s: Substitution,
                             dropped: set<NodeId>, x: NodeId, m: Modules, m': Modules, i: Interp)
  {
    forall k :: 0 <= k < |suffix| ==>
      if suffix[k].id in dropped then Replaced(suffix[k], s, x, m, Eval(pre, m, i), Eval(pre', m', i))
      else Kept(suffix[k], s, m, m', Eval(pre', m', i))
  }

  /** The rewritten graph is in execution order and has every value of the original. */
  ghost predicate Preserved(nodes: seq<FxNode>, nodes': seq<FxNode>, s: Substitution, m: Modules, m': Modules,
                            i: Interp)
  {
    Topological(nodes') && Simulates(s, Eval(nodes, m, i), Eval(nodes', m', i))
  }

  /** Values are preserved along the first `k` nodes of the rest of the graph. */
  lemma {:induction false} SuffixSimulates(
      pre: seq<FxNode>, pre': seq<FxNode>, suffix: seq<FxNode>, k: nat, s: Substitution, dropped: set<NodeId>,
      x: NodeId, m: Modules, m': Modules, i: Interp)
    requires k <= |suffix| && Topological(pre + suffix[..k]) && x in Ids(pre)
    requires SuffixFits(pre, pre', suffix, s, dropped, x, m, m', i) && Preserved(pre, pre', s, m, m', i)
    ensures Preserved(pre + suffix[..k], pre' + Rewrite(suffix[..k], s, dropped), s, m, m', i)
    decreases k
  {
    if k == 0 {
      assert pre + suffix[..0] == pre && pre' + Rewrite(suffix[..0], s, dropped) == pre';
    } else {
      var n := suffix[k - 1];
      NextOf(pre, suffix, k);
      EvalStep(pre + suffix[..k - 1], n, m, i);
      SuffixSimulates(pre, pre', suffix, k - 1, s, dropped, x, m, m', i);
      RewriteStep(pre', suffix, k, s, dropped);
      if n.id in dropped {
        DropStep(pre, pre', suffix[..k - 1], n, Rewrite(suffix[..k - 1], s, dropped), s, x, m, m', i);
      } else {
        KeptIsNew(pre, pre', suffix[..k - 1], n, s, dropped, m', i);
        KeepStep(pre + suffix[..k - 1], pre' + Rewrite(suffix[..k - 1], s, dropped), n, s, m, m', i);
      }
    }
  }

  lemma NextOf(pre: seq<FxNode>, suffix: seq<FxNode>, k: nat)
    requires 0 < k <= |suffix|
    ensures pre + suffix[..k] == (pre + suffix[..k - 1]) + [suffix[k - 1]]
  {
  }

  /** A node and what is around it. */
  lemma CutAt(nodes: seq<FxNode>, p: nat)
    requires p < |nodes|
    ensures nodes == nodes[..p] + [nodes[p]] + nodes[p + 1..]
  {
  }

  lemma RewriteStep(pre': seq<FxNode>, suffix: seq<FxNode>, k: nat, s: Substitution, dropped: set<NodeId>)
    requires 0 < k <= |suffix|
    ensures
      var n, done := suffix[k - 1], pre' + Rewrite(suffix[..k - 1], s, dropped);
      pre' + Rewrite(suffix[..k], s, dropped) ==
        if n.id in dropped then done else done + [n.(args := SubArgs(s, n.args))]
  {
    assert suffix[..k][..k - 1] == suffix[..k - 1];
  }

  lemma DropStep(pre: seq<FxNode>, pre': seq<FxNode>, front: seq<FxNode>, n: FxNode, front': seq<FxNode>,
                 s: Substitution, x: NodeId, m: Modules, m': Modules, i: Interp)
    requires Topological(pre + front + [n]) && x in Ids(pre)
    requires Replaced(n, s, x, m, Eval(pre, m, i), Eval(pre', m', i))
    requires Preserved(pre + front, pre' + front', s, m, m', i)
    ensures Preserved(pre + front + [n], pre' + front', s, m, m', i)
  {
    EvalStep(pre + front, n, m, i);
    EvalPrefix(pre, front, m, i, x);
    EvalPrefix(pre', front', m', i, s[n.id]);
    assert ArgValues(Eval(pre + front, m, i), [x]) == [Eval(pre, m, i)[x]];
  }

  lemma KeepStep(nodes: seq<FxNode>, nodes': seq<FxNode>, n: FxNode, s: Substitution, m: Modules, m': Modules,
                 i: Interp)
    requires Topological(nodes + [n]) && n.id !in Ids(nodes') && n.id !in s && SameMeaning(n, m, m')
    requires Preserved(nodes, nodes', s, m, m', i)
    ensures Preserved(nodes + [n], nodes' + [n.(args := SubArgs(s, n.args))], s, m, m', i)
  {
    var env, env' := Eval(nodes, m, i), Eval(nodes', m', i);
    EvalStep(nodes, n, m, i);
    EvalStep(nodes', n.(args := SubArgs(s, n.args)), m', i);
    KeptArgs(n, s, env, env');
    KeptComputesSame(n, s, env, env', m, m', i);
    KeptSimulates(n.id, s, env, env', EvalNode(n, env, m, i));
  }

  /** One more value under the same name. */
  lemma KeptSimulates(id: NodeId, s: Substitution, env: Env, env': Env, v: Value)
    requires Simulates(s, env, env') && id !in s && id !in env'
    ensures Simulates(s, env[id := v], env'[id := v])
  {
  }

  lemma KeptArgs(n: FxNode, s: Substitution, env: Env, env': Env)
    requires Simulates(s, env, env') && forall a :: a in n.args ==> a in env
    ensures forall a :: a in SubArgs(s, n.args) ==> a in env'
  {
    forall a | a in SubArgs(s, n.args) ensures a in env' {
      var k :| 0 <= k < |n.args| && SubArgs(s, n.args)[k] == a;
      assert n.args[k] in n.args;
    }
  }

  lemma KeptIsNew(pre: seq<FxNode>, pre': seq<FxNode>, front: seq<FxNode>, n: FxNode, s: Substitution,
                  dropped: set<NodeId>, m': Modules, i: Interp)
    requires Topological(pre + front + [n]) && n.id !in Eval(pre', m', i)
    ensures n.id !in Ids(pre' + Rewrite(front, s, dropped))
  {
    EvalStep(pre + front, n, m', i);
    IdsAppend(pre, front);
    IdsAppend(pre', Rewrite(front, s, dropped));
    RewriteIds(front, s, dropped);
  }

  lemma {:induction false} RewriteIds(nodes: seq<FxNode>, s: Substitution, dropped: set<NodeId>)
    ensures Ids(Rewrite(nodes, s, dropped)) == Ids(nodes) - dropped
  {
    if nodes == [] {
      assert Rewrite(nodes, s, dropped) == [];
    } else {
      var front, last := nodes[..|nodes| - 1], nodes[|nodes| - 1];
      RewriteIds(front, s, dropped);
      if last.id in dropped {
        assert Rewrite(nodes, s, dropped) == Rewrite(front, s, dropped);
      } else {
        var r := Rewrite(nodes, s, dropped);
        assert r[..|r| - 1] == Rewrite(front, s, dropped);
      }
    }
  }

  lemma KeptComputesSame(n: FxNode, s: Substitution, env: Env, env': Env, m: Modules, m': Modules, i: Interp)
    requires Simulates(s, env, env') && SameMeaning(n, m, m') && forall a :: a in n.args ==> a in env
    ensures EvalNode(n.(args := SubArgs(s, n.args)), env', m', i) == EvalNode(n, env, m, i)
  {
    var vs, vs' := ArgValues(env, n.args), ArgValues(env', SubArgs(s, n.args));
    forall k | 0 <= k < |n.args| ensures vs[k] == vs'[k] {
      assert n.args[k] in n.args;
    }
    assert vs == vs';
  }

  // ----- The inserted nodes

  /** The getitem nodes as they end up in the graph: each is inserted right behind the split, so the last comes
      first. */
  function GetItems(split: NodeId, gs: seq<NodeId>): seq<FxNode>
  {
    if gs == [] then []
    else [FxNode(gs[|gs| - 1], GetItem(|gs| - 1), [split])] + GetItems(split, gs[..|gs| - 1])
  }

  function ItemOf(v: Value, k: nat): Value
  {
    if v.Tuple? && k < |v.items| then v.items[k] else Undefined
  }

  ghost predicate Fresh(gs: seq<NodeId>, used: set<NodeId>)
  {
    && (forall k :: 0 <= k < |gs| ==> gs[k] !in used)
    && (forall j, k :: 0 <= j < k < |gs| ==> gs[j] != gs[k])
  }

  /** `env'` adds the items of `split` to `env` under the names `gs`, and nothing else. */
  ghost predicate ItemsAdded(env: Env, env': Env, split: NodeId, gs: seq<NodeId>)
  {
    && split in env
    && (forall id :: id in env ==> id in env' && env'[id] == env[id])
    && (forall k :: 0 <= k < |gs| ==> gs[k] in env' && env'[gs[k]] == ItemOf(env[split], k))
    && (forall id :: id in env' ==> id in env || id in gs)
  }

  lemma {:induction false} EvalGetItems(pre: seq<FxNode>, split: NodeId, gs: seq<NodeId>, m: Modules, i: Interp)
    requires Topological(pre) && split in Ids(pre) && Fresh(gs, Ids(pre))
    ensures Topological(pre + GetItems(split, gs))
    ensures ItemsAdded(Eval(pre, m, i), Eval(pre + GetItems(split, gs), m, i), split, gs)
    decreases |gs|
  {
    ItemsTopological(pre, split, gs);
    if gs == [] {
      assert pre + GetItems(split, gs) == pre;
    } else {
      var last := |gs| - 1;
      var n := FxNode(gs[last], GetItem(last), [split]);
      EvalOneItem(pre, split, gs[last], last, m, i);
      FreshFront(gs, Ids(pre));
      EvalGetItems(pre + [n], split, gs[..last], m, i);
      FirstItem(pre, split, gs);
      ItemsStep(Eval(pre, m, i), Eval(pre + [n], m, i), Eval(pre + GetItems(split, gs), m, i), split, gs);
    }
  }

  lemma EvalOneItem(pre: seq<FxNode>, split: NodeId, g: NodeId, k: nat, m: Modules, i: Interp)
    requires Topological(pre) && split in Ids(pre) && g !in Ids(pre)
    ensures
      var n := FxNode(g, GetItem(k), [split]);
      Topological(pre + [n]) && Ids(pre + [n]) == Ids(pre) + {g}
      && Eval(pre + [n], m, i) == Eval(pre, m, i)[g := ItemOf(Eval(pre, m, i)[split], k)]
  {
    EvalStep(pre, FxNode(g, GetItem(k), [split]), m, i);
    assert ArgValues(Eval(pre, m, i), [split]) == [Eval(pre, m, i)[split]];
  }

  lemma FirstItem(pre: seq<FxNode>, split: NodeId, gs: seq<NodeId>)
    requires gs != []
    ensures pre + GetItems(split, gs) ==
      (pre + [FxNode(gs[|gs| - 1], GetItem(|gs| - 1), [split])]) + GetItems(split, gs[..|gs| - 1])
  {
  }

  lemma ItemsStep(env: Env, mid: Env, env': Env, split: NodeId, gs: seq<NodeId>)
    requires gs != [] && Fresh(gs, env.Keys) && split in env
    requires mid == env[gs[|gs| - 1] := ItemOf(env[split], |gs| - 1)]
    requires ItemsAdded(mid, env', split, gs[..|gs| - 1])
    ensures ItemsAdded(env, env', split, gs)
  {
    assert forall k :: 0 <= k < |gs| - 1 ==> gs[..|gs| - 1][k] == gs[k];
  }

  /** `keys[k]` becomes `values[k]`. */
  function Pairs(keys: seq<NodeId>, values: seq<NodeId>): (s: Substitution)
    requires |keys| == |values|
    ensures forall id :: id in s <==> id in keys
  {
    if keys == [] then map[]
    else
      var last := |keys| - 1;
      assert keys == keys[..last] + [keys[last]];
      Pairs(keys[..last], values[..last])[keys[last] := values[last]]
  }

  lemma {:induction false} PairsAt(keys: seq<NodeId>, values: seq<NodeId>, k: nat)
    requires |keys| == |values| && k < |keys| && Fresh(keys, {})
    ensures Pairs(keys, values)[keys[k]] == values[k]
    decreases |keys|
  {
    var last := |keys| - 1;
    var front := keys[..last];
    if k < last {
      assert forall j :: 0 <= j < last ==> front[j] == keys[j];
      PairsAt(front, values[..last], k);
    }
  }

  // ----- One group

  /** The edit for one group: `base` keeps its place and is followed by the split and the getitems. */
  function Head(a: seq<FxNode>, base: FxNode, split: NodeId, gs: seq<NodeId>, sizes: seq<nat>): seq<FxNode>
  {
    a + [base] + [FxNode(split, Split(sizes), [base.id])] + GetItems(split, gs)
  }

  /** Item `k` of the split of the concatenated output is what layer `k` computes. */
  lemma SplitItem(ms: seq<Module>, v: Value, k: nat, m: Modules, i: Interp)
    requires Compatible(ms) && k < |ms|
    ensures ItemOf(Compute(Split(Channels(ms)), [ApplyLinear(Concat(ms), v)], m, i), k) == ApplyLinear(ms[k], v)
  {
    ConcatShape(ms);
    if HasWidth(v, ms[0].cols) {
      ConcatThenSplit(ms, v, k);
    }
  }

  /** `env'` keeps all of `env` and adds what the layers `ms` compute from `x`, under the names `gs`. */
  ghost predicate Delivers(env: Env, env': Env, base: NodeId, x: NodeId, ms: seq<Module>, split: NodeId,
                           gs: seq<NodeId>)
    requires |gs| == |ms| && forall k :: 0 <= k < |ms| ==> ms[k].Linear?
  {
    && x in env && (forall id :: id in env ==> id in env' && env'[id] == env[id])
    && (forall k :: 0 <= k < |gs| ==> gs[k] in env' && env'[gs[k]] == ApplyLinear(ms[k], env[x]))
    && (forall id :: id in env' ==> id in env || id == base || id == split || id in gs)
  }

  /** The concatenated layer in `base`'s place. */
  lemma ConcatValue(a: seq<FxNode>, base: FxNode, x: NodeId, ms: seq<Module>, m: Modules, m': Modules, i: Interp)
    requires Topological(a + [base]) && base.op.CallModule? && base.args == [x] && Compatible(ms)
    requires m' == m[base.op.target := Concat(ms)] && forall k :: 0 <= k < |a| ==> !Uses(a[k], base.op.target)
    ensures x in Ids(a) && Ids(a + [base]) == Ids(a) + {base.id} && base.id !in Ids(a)
    ensures Eval(a + [base], m', i) == Eval(a, m, i)[base.id := ApplyLinear(Concat(ms), Eval(a, m, i)[x])]
  {
    EvalStep(a, base, m', i);
    EvalSameMeaning(a, m, m', i);
    assert x in base.args;
    assert ArgValues(Eval(a, m', i), [x]) == [Eval(a, m, i)[x]];
  }

  /** The split behind it. */
  lemma SplitValue(pre: seq<FxNode>, base: NodeId, cut: FxNode, m: Modules, i: Interp)
    requires Topological(pre) && base in Ids(pre) && cut.op.Split? && cut.args == [base] && cut.id !in Ids(pre)
    ensures Topological(pre + [cut]) && Ids(pre + [cut]) == Ids(pre) + {cut.id}
    ensures Eval(pre + [cut], m, i) == Eval(pre, m, i)[cut.id := Compute(cut.op, [Eval(pre, m, i)[base]], m, i)]
  {
    EvalStep(pre, cut, m, i);
    assert ArgValues(Eval(pre, m, i), [base]) == [Eval(pre, m, i)[base]];
  }

  lemma FreshTail(split: NodeId, gs: seq<NodeId>, used: set<NodeId>)
    requires Fresh([split] + gs, used)
    ensures split !in used && Fresh(gs, used + {split})
  {
    assert ([split] + gs)[0] == split;
    assert forall k :: 0 <= k < |gs| ==> ([split] + gs)[k + 1] == gs[k];
  }

  /** The values right behind the getitems. */
  lemma HeadValues(a: seq<FxNode>, base: FxNode, x: NodeId, ms: seq<Module>, split: NodeId, gs: seq<NodeId>,
                   m: Modules, i: Interp)
    requires Topological(a + [base]) && base.op.CallModule? && base.args == [x]
    requires Compatible(ms) && |gs| == |ms| && Fresh([split] + gs, Ids(a + [base]))
    requires forall k :: 0 <= k < |a| ==> !Uses(a[k], base.op.target)
    ensures
      var m' := m[base.op.target := Concat(ms)];
      && Topological(Head(a, base, split, gs, Channels(ms)))
      && Delivers(Eval(a, m, i), Eval(Head(a, base, split, gs, Channels(ms)), m', i), base.id, x, ms, split, gs)
  {
    var m', v := m[base.op.target := Concat(ms)], ApplyLinear(Concat(ms), Lookup(Eval(a, m, i), x));
    var cut := FxNode(split, Split(Channels(ms)), [base.id]);
    FreshTail(split, gs, Ids(a + [base]));
    ConcatValue(a, base, x, ms, m, m', i);
    SplitValue(a + [base], base.id, cut, m', i);
    EvalGetItems(a + [base] + [cut], split, gs, m', i);
    forall k | 0 <= k < |gs|
      ensures ItemOf(Compute(cut.op, [v], m', i), k) == ApplyLinear(ms[k], Eval(a, m, i)[x])
    {
      SplitItem(ms, Eval(a, m, i)[x], k, m', i);
    }
    ItemsDeliver(Eval(a, m, i), Eval(a + [base] + [cut], m', i), Eval(Head(a, base, split, gs, Channels(ms)), m', i),
                 base.id, v, Compute(cut.op, [v], m', i), x, ms, split, gs);
  }

  lemma ItemsDeliver(env: Env, mid: Env, env': Env, base: NodeId, v: Value, parts: Value, x: NodeId, ms: seq<Module>,
                     split: NodeId, gs: seq<NodeId>)
    requires |gs| == |ms| && (forall k :: 0 <= k < |ms| ==> ms[k].Linear?) && x in env && base !in env && split !in env
    requires base != split && mid == env[base := v][split := parts] && ItemsAdded(mid, env', split, gs)
    requires forall k :: 0 <= k < |gs| ==> ItemOf(parts, k) == ApplyLinear(ms[k], env[x])
    ensures Delivers(env, env', base, x, ms, split, gs)
  {
  }

  function NodeIds(layers: seq<FxNode>): (ids: seq<NodeId>)
    ensures |ids| == |layers| && forall k :: 0 <= k < |layers| ==> ids[k] == layers[k].id
  {
    seq(|layers|, k requires 0 <= k < |layers| => layers[k].id)
  }

  /** All layers except the first, which keeps its node. */
  function Others(layers: seq<FxNode>): set<NodeId>
  {
    set k | 1 <= k < |layers| :: layers[k].id
  }

  /** All layers are linears on `x`. */
  ghost predicate LayersOn(layers: seq<FxNode>, x: NodeId, m: Modules)
  {
    forall k :: 0 <= k < |layers| ==>
      layers[k].op.CallModule? && layers[k].args == [x]
      && layers[k].op.target in m && m[layers[k].op.target].Linear?
  }

  /** The other layers come later. */
  ghost predicate Around(a: seq<FxNode>, b: seq<FxNode>, layers: seq<FxNode>)
  {
    && (forall k :: 1 <= k < |layers| ==> layers[k] in b)
    && (forall k :: 0 <= k < |a| ==> a[k].id !in Others(layers))
    && (forall k :: 0 <= k < |b| ==> (b[k].id in Others(layers) ==> b[k] in layers))
  }

  /** Only layers use `base`'s module. */
  ghost predicate OnlyLayersUse(a: seq<FxNode>, base: FxNode, b: seq<FxNode>, layers: seq<FxNode>)
    requires base.op.CallModule?
  {
    && (forall k :: 0 <= k < |a| ==> !Uses(a[k], base.op.target))
    && (forall k :: 0 <= k < |b| ==> (Uses(b[k], base.op.target) ==> b[k].id in Others(layers)))
  }

  /** `layers` are linears on `x`, `base` the first of them. */
  ghost predicate IsGroup(a: seq<FxNode>, base: FxNode, b: seq<FxNode>, layers: seq<FxNode>, x: NodeId, m: Modules)
  {
    && |layers| > 0 && layers[0] == base && Fresh(NodeIds(layers), {})
    && LayersOn(layers, x, m) && Around(a, b, layers)
  }

  function ModulesOf(layers: seq<FxNode>, m: Modules): (ms: seq<Module>)
    requires forall k :: 0 <= k < |layers| ==> layers[k].op.CallModule? && layers[k].op.target in m
    ensures |ms| == |layers| && forall k :: 0 <= k < |layers| ==> ms[k] == m[layers[k].op.target]
  {
    seq(|layers|, k requires 0 <= k < |layers| => m[layers[k].op.target])
  }

  lemma IdAfter(pre: seq<FxNode>, b: seq<FxNode>, k: nat)
    requires Topological(pre + b) && k < |b|
    ensures b[k].id !in Ids(pre)
    decreases |b|
  {
    var front := b[..|b| - 1];
    assert pre + b == (pre + front) + [b[|b| - 1]];
    assert (pre + b)[..|pre + b| - 1] == pre + front;
    IdsAppend(pre, front);
    if k < |b| - 1 {
      IdAfter(pre, front, k);
    }
  }

  /** The edit for one group preserves every value, whatever the untouched ops mean. */
  lemma GroupPreserves(a: seq<FxNode>, base: FxNode, b: seq<FxNode>, layers: seq<FxNode>, x: NodeId,
                       split: NodeId, gs: seq<NodeId>, m: Modules, i: Interp)
    requires Topological(a + [base] + b) && IsGroup(a, base, b, layers, x, m) && OnlyLayersUse(a, base, b, layers)
    requires Compatible(ModulesOf(layers, m)) && |gs| == |layers| && Fresh([split] + gs, Ids(a + [base] + b))
    ensures
      var ms := ModulesOf(layers, m);
      Preserved(a + [base] + b,
                Head(a, base, split, gs, Channels(ms)) + Rewrite(b, Pairs(NodeIds(layers), gs), Others(layers)),
                Pairs(NodeIds(layers), gs), m, m[base.op.target := Concat(ms)], i)
  {
    assert b[..|b|] == b;
    PrefixPreserved(a, base, b, |b|, layers, x, split, gs, m, i);
  }

  /** Values are kept up to the first node that is no layer but calls `base`'s module. */
  lemma PrefixPreserved(a: seq<FxNode>, base: FxNode, b: seq<FxNode>, n: nat, layers: seq<FxNode>, x: NodeId,
                        split: NodeId, gs: seq<NodeId>, m: Modules, i: Interp)
    requires Topological(a + [base] + b) && IsGroup(a, base, b, layers, x, m) && n <= |b|
    requires OnlyLayersUse(a, base, b[..n], layers)
    requires Compatible(ModulesOf(layers, m)) && |gs| == |layers| && Fresh([split] + gs, Ids(a + [base] + b))
    ensures
      var ms := ModulesOf(layers, m);
      Preserved(a + [base] + b[..n],
                Head(a, base, split, gs, Channels(ms)) + Rewrite(b[..n], Pairs(NodeIds(layers), gs), Others(layers)),
                Pairs(NodeIds(layers), gs), m, m[base.op.target := Concat(ms)], i)
  {
    var ms, s := ModulesOf(layers, m), Pairs(NodeIds(layers), gs);
    var m' := m[base.op.target := Concat(ms)];
    var pre, pre', part := a + [base], Head(a, base, split, gs, Channels(ms)), b[..n];
    assert part[..n] == part;
    IdsAppend(pre, b);
    PrefixTopological(pre, b);
    LayerInput(a, base, x);
    HeadPreserved(a, base, layers, x, split, gs, m, i);
    PrefixFits(a, base, b, n, layers, x, split, gs, m, i);
    PartTopological(pre, b, n);
    SuffixSimulates(pre, pre', part, n, s, Others(layers), x, m, m', i);
  }

  lemma LayerInput(a: seq<FxNode>, base: FxNode, x: NodeId)
    requires Topological(a + [base]) && base.args == [x]
    ensures x in Ids(a + [base])
  {
    assert (a + [base])[..|a|] == a && x in base.args;
  }

  /** Every node of this part is either replaced or kept. */
  lemma PrefixFits(a: seq<FxNode>, base: FxNode, b: seq<FxNode>, n: nat, layers: seq<FxNode>, x: NodeId,
                   split: NodeId, gs: seq<NodeId>, m: Modules, i: Interp)
    requires Topological(a + [base] + b) && Topological(a + [base]) && IsGroup(a, base, b, layers, x, m) && n <= |b|
    requires OnlyLayersUse(a, base, b[..n], layers)
    requires Compatible(ModulesOf(layers, m)) && |gs| == |layers| && Fresh([split] + gs, Ids(a + [base]) + Ids(b))
    ensures
      var ms := ModulesOf(layers, m);
      SuffixFits(a + [base], Head(a, base, split, gs, Channels(ms)), b[..n], Pairs(NodeIds(layers), gs), Others(layers),
                 x, m, m[base.op.target := Concat(ms)], i)
  {
    forall k | 0 <= k < n
      ensures b[k].id !in Ids(a + [base]) && (Uses(b[k], base.op.target) ==> b[k].id in Others(layers))
    {
      IdAfter(a + [base], b, k);
      assert b[..n][k] == b[k];
    }
    forall k | 0 <= k < n { MemberFits(a, base, b, k, layers, x, split, gs, m, i); }
  }

  lemma PartTopological(pre: seq<FxNode>, b: seq<FxNode>, n: nat)
    requires Topological(pre + b) && n <= |b|
    ensures Topological(pre + b[..n])
  {
    assert pre + b == (pre + b[..n]) + b[n..];
    PrefixTopological(pre + b[..n], b[n..]);
  }

  lemma {:induction false} PrefixTopological(a: seq<FxNode>, b: seq<FxNode>)
    requires Topological(a + b)
    ensures Topological(a)
    decreases |b|
  {
    if b == [] {
      assert a + b == a;
    } else {
      assert (a + b)[..|a + b| - 1] == a + b[..|b| - 1];
      PrefixTopological(a, b[..|b| - 1]);
    }
  }

  lemma HeadPreserved(a: seq<FxNode>, base: FxNode, layers: seq<FxNode>, x: NodeId, split: NodeId, gs: seq<NodeId>,
                      m: Modules, i: Interp)
    requires Topological(a + [base]) && |layers| > 0 && layers[0] == base && Fresh(NodeIds(layers), {})
    requires forall k :: 0 <= k < |layers| ==>
      layers[k].op.CallModule? && layers[k].args == [x]
      && layers[k].op.target in m && m[layers[k].op.target].Linear?
    requires forall k :: 0 <= k < |a| ==> !Uses(a[k], base.op.target) && a[k].id !in Others(layers)
    requires Compatible(ModulesOf(layers, m)) && |gs| == |layers| && Fresh([split] + gs, Ids(a + [base]))
    ensures
      var ms := ModulesOf(layers, m);
      Preserved(a + [base], Head(a, base, split, gs, Channels(ms)), Pairs(NodeIds(layers), gs),
                m, m[base.op.target := Concat(ms)], i)
  {
    var ms, s := ModulesOf(layers, m), Pairs(NodeIds(layers), gs);
    HeadValues(a, base, x, ms, split, gs, m, i);
    EvalStep(a, base, m, i);
    PairsAt(NodeIds(layers), gs, 0);
    assert ArgValues(Eval(a, m, i), [x]) == [Eval(a, m, i)[x]];
    BeforeNotRenamed(a, layers, gs);
  }

  lemma BeforeNotRenamed(a: seq<FxNode>, layers: seq<FxNode>, gs: seq<NodeId>)
    requires |layers| > 0 && |gs| == |layers| && layers[0].id !in Ids(a)
    requires forall k :: 0 <= k < |a| ==> a[k].id !in Others(layers)
    ensures forall id :: id in Ids(a) ==> id !in Pairs(NodeIds(layers), gs)
  {
    forall id | id in Ids(a) ensures id !in NodeIds(layers) {
      IdsMember(a, id);
      assert forall k :: 1 <= k < |layers| ==> layers[k].id in Others(layers);
    }
  }

  /** The getitem of layer `j` has the value of its node. */
  lemma MemberReplaced(env: Env, env': Env, pre: Env, base: NodeId, layers: seq<FxNode>, j: nat, x: NodeId,
                       split: NodeId, gs: seq<NodeId>, m: Modules)
    requires LayersOn(layers, x, m) && |gs| == |layers| && Fresh(NodeIds(layers), {}) && j < |layers|
    requires Delivers(env, env', base, x, ModulesOf(layers, m), split, gs) && x in pre && pre[x] == env[x]
    ensures Replaced(layers[j], Pairs(NodeIds(layers), gs), x, m, pre, env')
  {
    PairsAt(NodeIds(layers), gs, j);
  }

  /** A node that is no layer is not renamed, is new behind the getitems, and means the same. */
  lemma MemberKept(env: Env, env': Env, base: FxNode, n: FxNode, layers: seq<FxNode>, x: NodeId,
                   split: NodeId, gs: seq<NodeId>, m: Modules, c: Module)
    requires LayersOn(layers, x, m) && |gs| == |layers|
    requires Delivers(env, env', base.id, x, ModulesOf(layers, m), split, gs)
    requires |layers| > 0 && layers[0] == base && n.id !in Others(layers) && !Uses(n, base.op.target)
    requires n.id !in env && n.id != base.id && n.id != split && n.id !in gs
    ensures Kept(n, Pairs(NodeIds(layers), gs), m, m[base.op.target := c], env')
  {
    assert n.id !in NodeIds(layers);
  }

  lemma MemberFits(a: seq<FxNode>, base: FxNode, b: seq<FxNode>, k: nat, layers: seq<FxNode>, x: NodeId,
                   split: NodeId, gs: seq<NodeId>, m: Modules, i: Interp)
    requires Topological(a + [base]) && IsGroup(a, base, b, layers, x, m) && k < |b|
    requires forall j :: 0 <= j < |a| ==> !Uses(a[j], base.op.target)
    requires Uses(b[k], base.op.target) ==> b[k].id in Others(layers)
    requires Compatible(ModulesOf(layers, m)) && |gs| == |layers| && Fresh([split] + gs, Ids(a + [base]) + Ids(b))
    requires b[k].id !in Ids(a + [base])
    ensures
      var ms, s := ModulesOf(layers, m), Pairs(NodeIds(layers), gs);
      var m' := m[base.op.target := Concat(ms)];
      var env' := Eval(Head(a, base, split, gs, Channels(ms)), m', i);
      if b[k].id in Others(layers) then Replaced(b[k], s, x, m, Eval(a + [base], m, i), env')
      else Kept(b[k], s, m, m', env')
  {
    var ms := ModulesOf(layers, m);
    EvalStep(a, base, m, i);
    HeadValues(a, base, x, ms, split, gs, m, i);
    var env' := Eval(Head(a, base, split, gs, Channels(ms)), m[base.op.target := Concat(ms)], i);
    IdsMember(b, b[k].id);
    if b[k].id in Others(layers) {
      var j :| 0 <= j < |layers| && layers[j] == b[k];
      MemberReplaced(Eval(a, m, i), env', Eval(a + [base], m, i), base.id, layers, j, x, split, gs, m);
    } else {
      FreshTail(split, gs, Ids(a + [base]) + Ids(b));
      MemberKept(Eval(a, m, i), env', base, b[k], layers, x, split, gs, m, Concat(ms));
    }
  }

  // ----- The order alone

  /** Every node of `nodes` has a name in `nodes'`. */
  ghost predicate NamesKept(nodes: seq<FxNode>, nodes': seq<FxNode>, s: Substitution)
  {
    forall id :: id in Ids(nodes) ==> Sub(s, id) in Ids(nodes')
  }

  /** A dropped node has another name already; a kept one is new under its own. */
  ghost predicate NameFits(n: FxNode, nodes': seq<FxNode>, s: Substitution, dropped: set<NodeId>)
  {
    if n.id in dropped then n.id in s && s[n.id] in Ids(nodes') else n.id !in s && n.id !in Ids(nodes')
  }

  /** The rewritten graph is in execution order, whoever uses the modules. */
  lemma {:induction false} RewriteTopological(
      pre: seq<FxNode>, pre': seq<FxNode>, b: seq<FxNode>, s: Substitution, dropped: set<NodeId>)
    requires Topological(pre + b) && Topological(pre') && NamesKept(pre, pre', s)
    requires forall k :: 0 <= k < |b| ==> NameFits(b[k], pre', s, dropped)
    ensures Topological(pre' + Rewrite(b, s, dropped)) && NamesKept(pre + b, pre' + Rewrite(b, s, dropped), s)
    decreases |b|
  {
    if b == [] {
      assert pre + b == pre && pre' + Rewrite(b, s, dropped) == pre';
    } else {
      var front, n := b[..|b| - 1], b[|b| - 1];
      LastNode(pre, pre', b, s, dropped);
      PrefixTopological(pre + front, [n]);
      RewriteTopological(pre, pre', front, s, dropped);
      NameStillFits(pre, pre', front, n, s, dropped);
      ImageTopological(pre + front, pre' + Rewrite(front, s, dropped), n, s, dropped);
    }
  }

  lemma LastNode(pre: seq<FxNode>, pre': seq<FxNode>, b: seq<FxNode>, s: Substitution, dropped: set<NodeId>)
    requires b != []
    ensures pre + b == (pre + b[..|b| - 1]) + [b[|b| - 1]]
    ensures pre' + Rewrite(b, s, dropped) ==
      (pre' + Rewrite(b[..|b| - 1], s, dropped)) + Image(b[|b| - 1], s, dropped)
  {
  }

  lemma NameStillFits(
      pre: seq<FxNode>, pre': seq<FxNode>, front: seq<FxNode>, n: FxNode, s: Substitution, dropped: set<NodeId>)
    requires Topological((pre + front) + [n]) && NameFits(n, pre', s, dropped)
    ensures NameFits(n, pre' + Rewrite(front, s, dropped), s, dropped)
  {
    AppendNode(pre + front, n);
    IdsAppend(pre, front);
    IdsAppend(pre', Rewrite(front, s, dropped));
    RewriteIds(front, s, dropped);
  }

  lemma ImageTopological(nodes: seq<FxNode>, nodes': seq<FxNode>, n: FxNode, s: Substitution, dropped: set<NodeId>)
    requires Topological(nodes + [n]) && Topological(nodes') && NamesKept(nodes, nodes', s)
    requires NameFits(n, nodes', s, dropped)
    ensures Topological(nodes' + Image(n, s, dropped)) && NamesKept(nodes + [n], nodes' + Image(n, s, dropped), s)
  {
    AppendNode(nodes, n);
    if n.id in dropped {
      assert nodes' + Image(n, s, dropped) == nodes';
    } else {
      AppendNode(nodes', n.(args := SubArgs(s, n.args)));
      forall x | x in SubArgs(s, n.args) ensures x in Ids(nodes') {
        var k :| 0 <= k < |n.args| && SubArgs(s, n.args)[k] == x;
        assert n.args[k] in n.args;
      }
    }
  }

  /** A node can be appended if it is new and uses earlier nodes. */
  lemma AppendNode(nodes: seq<FxNode>, n: FxNode)
    ensures Topological(nodes + [n]) <==>
      Topological(nodes) && n.id !in Ids(nodes) && forall a :: a in n.args ==> a in Ids(nodes)
    ensures Ids(nodes + [n]) == Ids(nodes) + {n.id}
  {
    assert (nodes + [n])[..|nodes + [n]| - 1] == nodes;
  }

  lemma HeadTopological(a: seq<FxNode>, base: FxNode, split: NodeId, gs: seq<NodeId>, sizes: seq<nat>)
    requires Topological(a + [base]) && Fresh([split] + gs, Ids(a + [base]))
    ensures Topological(Head(a, base, split, gs, sizes))
    ensures forall id :: id in Ids(Head(a, base, split, gs, sizes)) <==>
      id in Ids(a + [base]) || id == split || id in gs
  {
    var cut := FxNode(split, Split(sizes), [base.id]);
    FreshTail(split, gs, Ids(a + [base]));
    AppendNode(a, base);
    AppendNode(a + [base], cut);
    ItemsTopological(a + [base] + [cut], split, gs);
  }

  lemma {:induction false} ItemsTopological(pre: seq<FxNode>, split: NodeId, gs: seq<NodeId>)
    requires Topological(pre) && split in Ids(pre) && Fresh(gs, Ids(pre))
    ensures Topological(pre + GetItems(split, gs))
    ensures forall id :: id in Ids(pre + GetItems(split, gs)) <==> id in Ids(pre) || id in gs
    decreases |gs|
  {
    if gs == [] {
      assert pre + GetItems(split, gs) == pre;
    } else {
      var n := FxNode(gs[|gs| - 1], GetItem(|gs| - 1), [split]);
      AppendNode(pre, n);
      FreshFront(gs, Ids(pre));
      ItemsTopological(pre + [n], split, gs[..|gs| - 1]);
      FirstItem(pre, split, gs);
    }
  }

  lemma FreshFront(gs: seq<NodeId>, used: set<NodeId>)
    requires gs != [] && Fresh(gs, used)
    ensures Fresh(gs[..|gs| - 1], used + {gs[|gs| - 1]})
    ensures forall id :: id in gs <==> id in gs[..|gs| - 1] || id == gs[|gs| - 1]
  {
    assert gs == gs[..|gs| - 1] + [gs[|gs| - 1]];
  }

  /** One group's edit keeps the execution order, whoever else uses the first layer's module. */
  lemma GroupTopological(a: seq<FxNode>, base: FxNode, b: seq<FxNode>, layers: seq<FxNode>, x: NodeId, split: NodeId,
                         gs: seq<NodeId>, sizes: seq<nat>, m: Modules)
    requires Topological(a + [base] + b) && IsGroup(a, base, b, layers, x, m)
    requires |gs| == |layers| && Fresh([split] + gs, Ids(a + [base] + b))
    ensures Topological(Head(a, base, split, gs, sizes) + Rewrite(b, Pairs(NodeIds(layers), gs), Others(layers)))
  {
    var pre, pre', s := a + [base], Head(a, base, split, gs, sizes), Pairs(NodeIds(layers), gs);
    IdsAppend(pre, b);
    PrefixTopological(pre, b);
    HeadTopological(a, base, split, gs, sizes);
    HeadNamesKept(a, base, layers, split, gs, sizes);
    forall k | 0 <= k < |b| ensures NameFits(b[k], pre', s, Others(layers)) {
      IdAfter(pre, b, k);
      IdsMember(b, b[k].id);
      GroupNameFits(pre, b[k], b, layers, split, gs, pre');
    }
    RewriteTopological(pre, pre', b, s, Others(layers));
  }

  lemma HeadNamesKept(a: seq<FxNode>, base: FxNode, layers: seq<FxNode>, split: NodeId, gs: seq<NodeId>,
                      sizes: seq<nat>)
    requires Topological(a + [base]) && |layers| > 0 && layers[0] == base && Fresh(NodeIds(layers), {})
    requires forall k :: 0 <= k < |a| ==> a[k].id !in Others(layers)
    requires |gs| == |layers| && Fresh([split] + gs, Ids(a + [base]))
    ensures NamesKept(a + [base], Head(a, base, split, gs, sizes), Pairs(NodeIds(layers), gs))
  {
    AppendNode(a, base);
    BeforeNotRenamed(a, layers, gs);
    PairsAt(NodeIds(layers), gs, 0);
    HeadTopological(a, base, split, gs, sizes);
  }

  lemma GroupNameFits(pre: seq<FxNode>, n: FxNode, b: seq<FxNode>, layers: seq<FxNode>, split: NodeId,
                      gs: seq<NodeId>, pre': seq<FxNode>)
    requires n in b && n.id in Ids(b) && n.id !in Ids(pre) && |layers| > 0 && layers[0].id in Ids(pre)
    requires n.id in Others(layers) ==> n in layers
    requires |gs| == |layers| && Fresh(NodeIds(layers), {}) && Fresh([split] + gs, Ids(pre) + Ids(b))
    requires forall id :: id in Ids(pre') <==> id in Ids(pre) || id == split || id in gs
    ensures NameFits(n, pre', Pairs(NodeIds(layers), gs), Others(layers))
  {
    FreshTail(split, gs, Ids(pre) + Ids(b));
    if n.id in Others(layers) {
      var j :| 0 <= j < |layers| && layers[j] == n;
      PairsAt(NodeIds(layers), gs, j);
    }
    assert n.id in NodeIds(layers) ==> exists j :: 0 <= j < |layers| && layers[j].id == n.id;
  }
}
