/**
 How `concat_linear` groups linears by their input, which of them it merges, when it raises, and what it needs of the
 graph to keep its values.
 */
module ConcatGroups {
  import opened Basics
  import opened LinearAlgebra
  import opened Fx
  import opened ConcatModules
  import opened ConcatRewrite
  import opened ConcatLinear

  predicate IsLinear(n: FxNode, m: Modules)
  {
    n.op.CallModule? && n.op.target in m && m[n.op.target].Linear?
  }

  // ----- Collecting

  /** The linears on input `x`, in execution order. */
  function GroupOf(nodes: seq<FxNode>, m: Modules, x: NodeId): seq<NodeId>
  {
    if nodes == [] then []
    else
      var last := nodes[|nodes| - 1];
      GroupOf(nodes[..|nodes| - 1], m, x) + (if OnInput(last, m, x) then [last.id] else [])
  }

  predicate OnInput(n: FxNode, m: Modules, x: NodeId)
  {
    IsLinear(n, m) && n.args != [] && n.args[0] == x
  }

  /** `inputs` lists each input of a linear once, in the order of their first linears, and `groups` has its linears. */
  ghost predicate Grouped(nodes: seq<FxNode>, m: Modules, groups: map<NodeId, seq<NodeId>>, inputs: seq<NodeId>)
  {
    (forall x :: GroupedAt(nodes, m, groups, inputs, x)) && InOrder(nodes, m, inputs)
  }

  ghost predicate GroupedAt(nodes: seq<FxNode>, m: Modules, groups: map<NodeId, seq<NodeId>>, inputs: seq<NodeId>,
                            x: NodeId)
  {
    && (x in inputs <==> GroupOf(nodes, m, x) != []) && (x in groups <==> x in inputs)
    && (x in groups ==> groups[x] == GroupOf(nodes, m, x))
  }

  ghost predicate InOrderAt(nodes: seq<FxNode>, m: Modules, inputs: seq<NodeId>, j: int, k: int)
  {
    0 <= j < k < |inputs| ==> StartsBefore(nodes, m, inputs[j], inputs[k])
  }

  /** Inputs are listed in the order of their first linears. */
  ghost predicate InOrder(nodes: seq<FxNode>, m: Modules, inputs: seq<NodeId>)
  {
    forall j: int, k: int :: InOrderAt(nodes, m, inputs, j, k)
  }

  /** The first linear on `x` comes before the first one on `y`. */
  predicate StartsBefore(nodes: seq<FxNode>, m: Modules, x: NodeId, y: NodeId)
  {
    GroupOf(nodes, m, x) != [] && GroupOf(nodes, m, y) != [] && GroupOf(nodes, m, x)[0] < GroupOf(nodes, m, y)[0]
  }

  /** The round of one linear. */
  function AddLinear(groups: map<NodeId, seq<NodeId>>, inputs: seq<NodeId>, x: NodeId, id: NodeId)
    : (map<NodeId, seq<NodeId>>, seq<NodeId>)
  {
    if x !in groups then (groups[x := [id]], inputs + [x]) else (groups[x := groups[x] + [id]], inputs)
  }

  lemma GroupSnoc(nodes: seq<FxNode>, n: FxNode, m: Modules, x: NodeId)
    ensures GroupOf(nodes + [n], m, x) == GroupOf(nodes, m, x) + if OnInput(n, m, x) then [n.id] else []
  {
    assert (nodes + [n])[..|nodes + [n]| - 1] == nodes;
  }

  lemma GroupedStep(nodes: seq<FxNode>, n: FxNode, m: Modules, groups: map<NodeId, seq<NodeId>>, inputs: seq<NodeId>)
    requires Grouped(nodes, m, groups, inputs) && (IsLinear(n, m) ==> n.args != [])
    requires forall k :: 0 <= k < |nodes| ==> nodes[k].id < n.id
    ensures
      var r := if IsLinear(n, m) then AddLinear(groups, inputs, n.args[0], n.id) else (groups, inputs);
      Grouped(nodes + [n], m, r.0, r.1)
  {
    var r := if IsLinear(n, m) then AddLinear(groups, inputs, n.args[0], n.id) else (groups, inputs);
    forall x ensures GroupedAt(nodes + [n], m, r.0, r.1, x) {
      GroupSnoc(nodes, n, m, x);
      assert GroupedAt(nodes, m, groups, inputs, x);
    }
    forall j, k | 0 <= j < k < |r.1| ensures StartsBefore(nodes + [n], m, r.1[j], r.1[k]) {
      assert InOrderAt(nodes, m, inputs, j, k);
      assert GroupedAt(nodes, m, groups, inputs, r.1[j]) && GroupedAt(nodes, m, groups, inputs, r.1[k]);
      StartsStep(nodes, n, m, r.1[j], r.1[k]);
    }
  }

  lemma StartsStep(nodes: seq<FxNode>, n: FxNode, m: Modules, x: NodeId, y: NodeId)
    requires forall k :: 0 <= k < |nodes| ==> nodes[k].id < n.id
    requires StartsBefore(nodes, m, x, y)
             || (GroupOf(nodes, m, x) != [] && GroupOf(nodes, m, y) == [] && OnInput(n, m, y))
    ensures StartsBefore(nodes + [n], m, x, y)
  {
    GroupSnoc(nodes, n, m, x);
    GroupSnoc(nodes, n, m, y);
    GroupBelow(nodes, m, x, n.id);
  }

  lemma {:induction false} GroupBelow(nodes: seq<FxNode>, m: Modules, x: NodeId, bound: NodeId)
    requires forall k :: 0 <= k < |nodes| ==> nodes[k].id < bound
    ensures forall j :: 0 <= j < |GroupOf(nodes, m, x)| ==> GroupOf(nodes, m, x)[j] < bound
  {
    if nodes != [] {
      GroupBelow(nodes[..|nodes| - 1], m, x, bound);
    }
  }

  /** The body of the loop, after the nodes `seen`. */
  method AddNode(n: FxNode, m: Modules, groups: map<NodeId, seq<NodeId>>, inputs: seq<NodeId>, ghost seen: seq<FxNode>)
    returns (groups': map<NodeId, seq<NodeId>>, inputs': seq<NodeId>)
    requires (IsLinear(n, m) ==> n.args != []) && Grouped(seen, m, groups, inputs)
    requires forall k :: 0 <= k < |seen| ==> seen[k].id < n.id
    ensures Grouped(seen + [n], m, groups', inputs')
  {
    GroupedStep(seen, n, m, groups, inputs);
    groups', inputs' := groups, inputs;
    if IsLinear(n, m) {
      var x := n.args[0];
      if x !in groups {
        groups' := groups[x := [n.id]];
        inputs' := inputs + [x];
      } else {
        groups' := groups[x := groups[x] + [n.id]];
      }
    }
  }

  /** `collectLinearNodes` */
  method Collect(nodes: seq<FxNode>, m: Modules) returns (groups: map<NodeId, seq<NodeId>>, inputs: seq<NodeId>)
    requires forall k :: 0 <= k < |nodes| && IsLinear(nodes[k], m) ==> nodes[k].args != []
    requires Positional(nodes)
    ensures Grouped(nodes, m, groups, inputs)
  {
    groups, inputs := map[], [];
    for k := 0 to |nodes|
      invariant Grouped(nodes[..k], m, groups, inputs)
    {
      groups, inputs := AddNode(nodes[k], m, groups, inputs, nodes[..k]);
      assert nodes[..k + 1] == nodes[..k] + [nodes[k]];
    }
    assert nodes[..|nodes|] == nodes;
  }

  /** Nodes are numbered in execution order. */
  ghost predicate Positional(nodes: seq<FxNode>)
  {
    forall k :: 0 <= k < |nodes| ==> nodes[k].id == k
  }

  lemma {:induction false} GroupMember(nodes: seq<FxNode>, m: Modules, x: NodeId, k: nat)
    requires k < |nodes| && OnInput(nodes[k], m, x)
    ensures nodes[k].id in GroupOf(nodes, m, x)
    decreases |nodes|
  {
    if k < |nodes| - 1 {
      assert nodes[..|nodes| - 1][k] == nodes[k];
      GroupMember(nodes[..|nodes| - 1], m, x, k);
    }
  }

  /** Increasing ids of linears on `x`. */
  ghost predicate SortedGroup(nodes: seq<FxNode>, m: Modules, x: NodeId, ids: seq<NodeId>)
  {
    && (forall k :: 0 <= k < |ids| ==> ids[k] < |nodes| && OnInput(nodes[ids[k]], m, x))
    && (forall j, k :: 0 <= j < k < |ids| ==> ids[j] < ids[k])
  }

  lemma {:induction false} GroupSorted(nodes: seq<FxNode>, m: Modules, x: NodeId)
    requires Positional(nodes)
    ensures SortedGroup(nodes, m, x, GroupOf(nodes, m, x))
  {
    if nodes != [] {
      var front := nodes[..|nodes| - 1];
      GroupSorted(front, m, x);
      assert forall id :: 0 <= id < |front| ==> front[id] == nodes[id];
      var ids := GroupOf(front, m, x);
      assert forall k :: 0 <= k < |ids| ==> ids[k] < |front| && OnInput(nodes[ids[k]], m, x);
    }
  }

  // ----- When the pass raises

  function ModuleAt(nodes: seq<FxNode>, m: Modules, id: NodeId): Module
    requires id < |nodes| && IsLinear(nodes[id], m)
  {
    m[nodes[id].op.target]
  }

  /** The members of a group that are concatenated with its first one; `Raised` if a comparison raises. */
  function Partners(nodes: seq<FxNode>, m: Modules, base: Module, ids: seq<NodeId>): (r: Try<seq<NodeId>>)
    requires base.Linear? && forall k :: 0 <= k < |ids| ==> ids[k] < |nodes| && IsLinear(nodes[ids[k]], m)
  {
    if ids == [] then Ok([])
    else
      var last := ids[|ids| - 1];
      var front :- Partners(nodes, m, base, ids[..|ids| - 1]);
      var fits :- CanConcat(base, ModuleAt(nodes, m, last));
      Ok(if fits then front + [last] else front)
  }

  /** Every group of two or more has a partner for its first member, and no comparison raises. */
  ghost predicate GroupFine(nodes: seq<FxNode>, m: Modules, x: NodeId)
    requires Positional(nodes)
  {
    var ids := GroupOf(nodes, m, x);
    GroupSorted(nodes, m, x);
    if |ids| < 2 then true
    else
      var r := Partners(nodes, m, ModuleAt(nodes, m, ids[0]), ids[1..]);
      r.Ok? && r.value != []
  }

  ghost predicate FineUpTo(nodes: seq<FxNode>, m: Modules, inputs: seq<NodeId>, k: nat)
    requires Positional(nodes) && k <= |inputs|
  {
    forall j {:trigger GroupFine(nodes, m, inputs[j])} :: 0 <= j < k ==> GroupFine(nodes, m, inputs[j])
  }

  /** Partners are members that fit, in the group's order. */
  ghost predicate Fit(nodes: seq<FxNode>, m: Modules, base: Module, ids: seq<NodeId>, ps: seq<NodeId>)
    requires base.Linear?
  {
    && (forall j :: 0 <= j < |ps| ==>
          ps[j] in ids && ps[j] < |nodes| && IsLinear(nodes[ps[j]], m)
          && CanConcat(base, ModuleAt(nodes, m, ps[j])) == Ok(true))
    && (forall j, k :: 0 <= j < k < |ps| ==> ps[j] < ps[k])
  }

  lemma {:induction false} PartnersFit(nodes: seq<FxNode>, m: Modules, base: Module, ids: seq<NodeId>)
    requires base.Linear? && forall k :: 0 <= k < |ids| ==> ids[k] < |nodes| && IsLinear(nodes[ids[k]], m)
    requires Partners(nodes, m, base, ids).Ok? && forall j, k :: 0 <= j < k < |ids| ==> ids[j] < ids[k]
    ensures Fit(nodes, m, base, ids, Partners(nodes, m, base, ids).value)
  {
    if ids != [] {
      var front, last := ids[..|ids| - 1], ids[|ids| - 1];
      PartnersFit(nodes, m, base, front);
      var ps := Partners(nodes, m, base, front).value;
      forall j | 0 <= j < |ps| ensures ps[j] in ids && ps[j] < last {
        var k :| 0 <= k < |front| && front[k] == ps[j];
        assert ids[k] == ps[j];
      }
    }
  }

  lemma {:induction false} PartnersComplete(nodes: seq<FxNode>, m: Modules, base: Module, ids: seq<NodeId>, k: nat)
    requires base.Linear? && forall k :: 0 <= k < |ids| ==> ids[k] < |nodes| && IsLinear(nodes[ids[k]], m)
    requires Partners(nodes, m, base, ids).Ok? && k < |ids| && CanConcat(base, ModuleAt(nodes, m, ids[k])) == Ok(true)
    ensures ids[k] in Partners(nodes, m, base, ids).value
    decreases |ids|
  {
    if k < |ids| - 1 {
      assert ids[..|ids| - 1][k] == ids[k];
      PartnersComplete(nodes, m, base, ids[..|ids| - 1], k);
    }
  }

  lemma {:induction false} PartnersRaised(nodes: seq<FxNode>, m: Modules, base: Module, ids: seq<NodeId>, k: nat)
    requires base.Linear? && forall j :: 0 <= j < |ids| ==> ids[j] < |nodes| && IsLinear(nodes[ids[j]], m)
    requires k <= |ids| && Partners(nodes, m, base, ids[..k]).Raised?
    ensures Partners(nodes, m, base, ids).Raised?
    decreases |ids|
  {
    if k < |ids| {
      assert ids[..|ids| - 1][..k] == ids[..k];
      PartnersRaised(nodes, m, base, ids[..|ids| - 1], k);
    } else {
      assert ids[..k] == ids;
    }
  }

  /** `ids` are members of the group that fit its first one, in order. */
  ghost predicate FitMembers(nodes0: seq<FxNode>, m0: Modules, group: seq<NodeId>, ids: seq<NodeId>)
  {
    && |group| > 0 && |ids| > 0 && ids[0] == group[0] < |nodes0| && IsLinear(nodes0[group[0]], m0)
    && (forall j :: 0 <= j < |ids| ==> ids[j] in group && ids[j] < |nodes0| && IsLinear(nodes0[ids[j]], m0))
    && (forall j :: 1 <= j < |ids| ==>
          CanConcat(ModuleAt(nodes0, m0, group[0]), ModuleAt(nodes0, m0, ids[j])) == Ok(true))
    && (forall j, k :: 0 <= j < k < |ids| ==> ids[j] < ids[k])
  }

  lemma PartnersAreFit(nodes0: seq<FxNode>, m0: Modules, x: NodeId, group: seq<NodeId>)
    requires SortedGroup(nodes0, m0, x, group) && |group| > 0
    requires Partners(nodes0, m0, ModuleAt(nodes0, m0, group[0]), group[1..]).Ok?
    ensures
      FitMembers(nodes0, m0, group, [group[0]] + Partners(nodes0, m0, ModuleAt(nodes0, m0, group[0]), group[1..]).value)
  {
    var base, rest := ModuleAt(nodes0, m0, group[0]), group[1..];
    PartnersFit(nodes0, m0, base, rest);
    var ps := Partners(nodes0, m0, base, rest).value;
    forall j | 0 <= j < |ps| ensures ps[j] in group && group[0] < ps[j] {
      var k :| 0 <= k < |rest| && rest[k] == ps[j];
      assert group[k + 1] == ps[j];
    }
  }

  // ----- What the pass needs

  /** Node `j` is the first linear of a group that the pass rewrites. */
  ghost predicate IsFirst(nodes: seq<FxNode>, m: Modules, j: nat)
    requires j < |nodes|
  {
    IsLinear(nodes[j], m) && nodes[j].args != []
    && |GroupOf(nodes, m, nodes[j].args[0])| >= 2 && GroupOf(nodes, m, nodes[j].args[0])[0] == nodes[j].id
  }

  /** Linear `k` is concatenated with the first linear on `y`. */
  ghost predicate Merges(nodes: seq<FxNode>, m: Modules, y: NodeId, k: nat)
  {
    var ids := GroupOf(nodes, m, y);
    && |ids| >= 2 && k in ids && k != ids[0]
    && k < |nodes| && IsLinear(nodes[k], m) && ids[0] < |nodes| && IsLinear(nodes[ids[0]], m)
    && CanConcat(ModuleAt(nodes, m, ids[0]), ModuleAt(nodes, m, k)) == Ok(true)
  }

  /** Linear `k` is concatenated, and thereby erased, before the group of linear `j` is rewritten. */
  ghost predicate MergedBefore(nodes: seq<FxNode>, m: Modules, k: nat, j: nat)
    requires k < |nodes| && j < |nodes|
  {
    nodes[k].args != [] && nodes[j].args != [] && Merges(nodes, m, nodes[k].args[0], k)
    && StartsBefore(nodes, m, nodes[k].args[0], nodes[j].args[0])
  }

  /** What the pass expects of its input: one positional argument per linear. */
  ghost predicate WellFormed(nodes: seq<FxNode>, m: Modules)
  {
    && Topological(nodes) && Positional(nodes)
    && (forall t :: t in m ==> WellShaped(m[t]))
    && (forall k :: 0 <= k < |nodes| && IsLinear(nodes[k], m) ==> |nodes[k].args| == 1)
  }

  /** Node `k` may use the module of `j`, the first linear of a rewritten group: it is a call on the same input, or one
      that is merged before. */
  ghost predicate Harmless(nodes: seq<FxNode>, m: Modules, j: nat, k: nat)
    requires j < |nodes| && k < |nodes|
  {
    nodes[k].op == nodes[j].op && (nodes[k].args == nodes[j].args || MergedBefore(nodes, m, k, j))
  }

  /** No other node calls the first module of a rewritten group, or reads one of its parameters. */
  ghost predicate Unshared(nodes: seq<FxNode>, m: Modules)
  {
    forall j, k |
      0 <= j < |nodes| && 0 <= k < |nodes| && IsFirst(nodes, m, j) && Uses(nodes[k], nodes[j].op.target) ::
      Harmless(nodes, m, j, k)
  }

  /** `j` starts a rewritten group with a partner that has outputs, and `k` uses its module when it is replaced. */
  ghost predicate Spoils(nodes: seq<FxNode>, m: Modules, j: nat, k: nat)
  {
    && j < |nodes| && k < |nodes| && IsFirst(nodes, m, j) && Uses(nodes[k], nodes[j].op.target)
    && !Harmless(nodes, m, j, k)
    && !(IsFirst(nodes, m, k) && StartsBefore(nodes, m, nodes[k].args[0], nodes[j].args[0]))
    && exists p :: Merges(nodes, m, nodes[j].args[0], p) && |ModuleAt(nodes, m, p).weight| > 0
  }

  /** Every linear has outputs. */
  ghost predicate LinearsHaveOutputs(m: Modules)
  {
    forall t :: t in m && m[t].Linear? ==> |m[t].weight| > 0
  }

  /** If the pass does not raise, a shared module is spoilt. */
  lemma SharedSpoils(nodes: seq<FxNode>, m: Modules) returns (j: nat, k: nat)
    requires WellFormed(nodes, m) && !Unshared(nodes, m) && LinearsHaveOutputs(m) && forall x :: GroupFine(nodes, m, x)
    ensures Spoils(nodes, m, j, k)
  {
    j, k :| 0 <= j < |nodes| && 0 <= k < |nodes| && IsFirst(nodes, m, j) && Uses(nodes[k], nodes[j].op.target)
            && !Harmless(nodes, m, j, k);
    var p := FirstHasPartner(nodes, m, j);
    if IsFirst(nodes, m, k) && StartsBefore(nodes, m, nodes[k].args[0], nodes[j].args[0]) {
      p := FirstHasPartner(nodes, m, k);
      j, k := k, j;
    }
  }

  lemma FirstHasPartner(nodes: seq<FxNode>, m: Modules, j: nat) returns (p: nat)
    requires Positional(nodes) && j < |nodes| && IsFirst(nodes, m, j) && GroupFine(nodes, m, nodes[j].args[0])
    ensures Merges(nodes, m, nodes[j].args[0], p)
  {
    var x := nodes[j].args[0];
    var ids := GroupOf(nodes, m, x);
    GroupSorted(nodes, m, x);
    PartnersAreFit(nodes, m, x, ids);
    var ps := Partners(nodes, m, ModuleAt(nodes, m, ids[0]), ids[1..]).value;
    p := ps[0];
    assert ([ids[0]] + ps)[1] == p;
  }
}
