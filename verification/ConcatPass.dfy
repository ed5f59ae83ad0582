/**
 The whole `concat_linear` pass: collecting the groups and rewriting them one after the other, also when
 the input of a later group is a linear that an earlier group has already replaced.
 */
module ConcatPass {
  import opened Basics
  import opened LinearAlgebra
  import opened Fx
  import opened ConcatModules
  import opened ConcatRewrite
  import opened ConcatLinear
  import opened ConcatGroups
  import opened ConcatOrder
  import opened ConcatSteps
  import opened ConcatSharing

  // ----- Looking nodes up

  method Find(nodes: seq<FxNode>, id: NodeId) returns (k: nat)
    requires id in Ids(nodes)
    ensures k < |nodes| && nodes[k].id == id
  {
    IdsMember(nodes, id);
    k := 0;
    while nodes[k].id != id
      invariant k < |nodes| && exists j :: k <= j < |nodes| && nodes[j].id == id
      decreases |nodes| - k
    {
      k := k + 1;
    }
  }

  // ----- Choosing the layers of a group

  /** Compares the group's first module with that of another member. */
  method Compare(g: FxGraph, first: FxNode, id: NodeId, ghost nodes0: seq<FxNode>, ghost m0: Modules,
                 ghost rho: Substitution, ghost done: set<NodeId>, ghost x: NodeId)
    returns (other: FxNode, fits: Try<bool>)
    requires WellFormed(nodes0, m0) && x !in done
    requires Invariant(nodes0, m0, g.nodes, g.modules, rho, done)
    requires first.id < |nodes0| && OnInput(nodes0[first.id], m0, x) && first in g.nodes
    requires id < |nodes0| && OnInput(nodes0[id], m0, x)
    ensures other in g.nodes && other.id == id
    ensures fits == CanConcat(ModuleAt(nodes0, m0, first.id), ModuleAt(nodes0, m0, id))
  {
    var q := Find(g.nodes, id);
    other := g.nodes[q];
    assert OriginNode(nodes0, first, rho) && OriginNode(nodes0, other, rho);
    GrownCompare(ModuleAt(nodes0, m0, first.id), g.modules[first.op.target],
                 ModuleAt(nodes0, m0, id), g.modules[other.op.target]);
    fits := CanConcat(g.modules[first.op.target], g.modules[other.op.target]);
  }

  /** The nodes of a group that go into the concatenation (`compatible_layers`). */
  method Choose(g: FxGraph, ids: seq<NodeId>, ghost nodes0: seq<FxNode>, ghost m0: Modules, ghost rho: Substitution,
                ghost done: set<NodeId>, ghost x: NodeId)
    returns (r: Try<seq<FxNode>>)
    requires WellFormed(nodes0, m0) && x !in done
    requires Invariant(nodes0, m0, g.nodes, g.modules, rho, done)
    requires ids == GroupOf(nodes0, m0, x) && |ids| > 0 && SortedGroup(nodes0, m0, x, ids)
    ensures r.Ok? <==> Partners(nodes0, m0, ModuleAt(nodes0, m0, ids[0]), ids[1..]).Ok?
    ensures r.Ok? ==> (|r.value| > 1 <==> Partners(nodes0, m0, ModuleAt(nodes0, m0, ids[0]), ids[1..]).value != [])
    ensures r.Ok? ==> Chosen(nodes0, m0, g.nodes, x, r.value)
  {
    ghost var base, rest := ModuleAt(nodes0, m0, ids[0]), ids[1..];
    var p := Find(g.nodes, ids[0]);
    var first := g.nodes[p];
    var layers := [first];
    assert rest[..0] == [];
    for k := 1 to |ids|
      invariant ChosenSoFar(nodes0, m0, g.nodes, ids[0], base, rest[..k - 1], layers)
    {
      NextMemberId(ids, k);
      var next := Consider(g, first, ids[k], layers, nodes0, m0, rho, done, x, rest[..k - 1]);
      if next.Raised? {
        PartnersRaised(nodes0, m0, base, rest, k);
        return Raised;
      }
      layers := next.value;
    }
    AllConsidered(nodes0, m0, g.nodes, x, ids, layers);
    return Ok(layers);
  }

  lemma NextMemberId(ids: seq<NodeId>, k: nat)
    requires 1 <= k < |ids|
    ensures ids[1..][..k] == ids[1..][..k - 1] + [ids[k]]
  {
  }

  lemma AllConsidered(nodes0: seq<FxNode>, m0: Modules, nodes: seq<FxNode>, x: NodeId, ids: seq<NodeId>,
                      layers: seq<FxNode>)
    requires Positional(nodes0) && ids == GroupOf(nodes0, m0, x) && |ids| > 0 && SortedGroup(nodes0, m0, x, ids)
    requires ChosenSoFar(nodes0, m0, nodes, ids[0], ModuleAt(nodes0, m0, ids[0]), ids[1..][..|ids| - 1], layers)
    ensures
      var ps := Partners(nodes0, m0, ModuleAt(nodes0, m0, ids[0]), ids[1..]);
      ps.Ok? && (|layers| > 1 <==> ps.value != []) && Chosen(nodes0, m0, nodes, x, layers)
  {
    assert ids[1..][..|ids| - 1] == ids[1..];
  }

  /** The next member joins `layers` if it fits the first one. */
  method Consider(g: FxGraph, first: FxNode, id: NodeId, layers: seq<FxNode>, ghost nodes0: seq<FxNode>,
                  ghost m0: Modules, ghost rho: Substitution, ghost done: set<NodeId>, ghost x: NodeId,
                  ghost rest: seq<NodeId>)
    returns (next: Try<seq<FxNode>>)
    requires WellFormed(nodes0, m0) && x !in done
    requires Invariant(nodes0, m0, g.nodes, g.modules, rho, done)
    requires first.id < |nodes0| && OnInput(nodes0[first.id], m0, x) && first in g.nodes
    requires id < |nodes0| && OnInput(nodes0[id], m0, x)
    requires forall k :: 0 <= k < |rest| ==> rest[k] < |nodes0| && IsLinear(nodes0[rest[k]], m0)
    requires ChosenSoFar(nodes0, m0, g.nodes, first.id, ModuleAt(nodes0, m0, first.id), rest, layers)
    ensures next.Raised? ==> Partners(nodes0, m0, ModuleAt(nodes0, m0, first.id), rest + [id]).Raised?
    ensures next.Ok? ==>
      ChosenSoFar(nodes0, m0, g.nodes, first.id, ModuleAt(nodes0, m0, first.id), rest + [id], next.value)
  {
    var other, fits := Compare(g, first, id, nodes0, m0, rho, done, x);
    NextPartner(nodes0, m0, g.nodes, first.id, ModuleAt(nodes0, m0, first.id), rest, layers, other);
    if fits.Raised? {
      return Raised;
    }
    return Ok(if fits.value then layers + [other] else layers);
  }

  /** `layers` are the first member and its partners among `rest`. */
  ghost predicate ChosenSoFar(nodes0: seq<FxNode>, m0: Modules, nodes: seq<FxNode>, first: NodeId, base: Module,
                              rest: seq<NodeId>, layers: seq<FxNode>)
    requires base.Linear? && forall k :: 0 <= k < |rest| ==> rest[k] < |nodes0| && IsLinear(nodes0[rest[k]], m0)
  {
    && Partners(nodes0, m0, base, rest).Ok? && SameIds(layers, [first] + Partners(nodes0, m0, base, rest).value)
    && (forall j :: 0 <= j < |layers| ==> layers[j] in nodes)
  }

  lemma NextPartner(nodes0: seq<FxNode>, m0: Modules, nodes: seq<FxNode>, first: NodeId, base: Module,
                    rest: seq<NodeId>, layers: seq<FxNode>, other: FxNode)
    requires base.Linear? && forall k :: 0 <= k < |rest| ==> rest[k] < |nodes0| && IsLinear(nodes0[rest[k]], m0)
    requires ChosenSoFar(nodes0, m0, nodes, first, base, rest, layers)
    requires other in nodes && other.id < |nodes0| && IsLinear(nodes0[other.id], m0)
    ensures
      match CanConcat(base, ModuleAt(nodes0, m0, other.id))
      case Raised => Partners(nodes0, m0, base, rest + [other.id]).Raised?
      case Ok(fits) =>
        ChosenSoFar(nodes0, m0, nodes, first, base, rest + [other.id], if fits then layers + [other] else layers)
  {
    assert (rest + [other.id])[..|rest|] == rest;
  }

  // ----- The rounds

  /** Between two rounds: the invariant, all values as long as no module is shared, and what other uses became. */
  ghost predicate Progress(nodes0: seq<FxNode>, m0: Modules, nodes: seq<FxNode>, m: Modules, nextId: NodeId,
                           rho: Substitution, done: set<NodeId>, i: Interp)
  {
    && |nodes0| <= nextId && NumberedBelow(nodes, nextId) && Invariant(nodes0, m0, nodes, m, rho, done)
    && (Unshared(nodes0, m0) ==> Simulates(rho, Eval(nodes0, m0, i), Eval(nodes, m, i)))
    && Widened(nodes0, m0, nodes, m, rho, done)
  }

  /** Under every meaning of the rest of the graph. */
  ghost predicate AllProgress(nodes0: seq<FxNode>, m0: Modules, nodes: seq<FxNode>, m: Modules, nextId: NodeId,
                              rho: Substitution, done: set<NodeId>)
  {
    forall i: Interp :: Progress(nodes0, m0, nodes, m, nextId, rho, done, i)
  }

  lemma ProgressNow(nodes0: seq<FxNode>, m0: Modules, nodes: seq<FxNode>, m: Modules, nextId: NodeId,
                    rho: Substitution, done: set<NodeId>)
    requires AllProgress(nodes0, m0, nodes, m, nextId, rho, done)
    ensures |nodes0| <= nextId && NumberedBelow(nodes, nextId) && Invariant(nodes0, m0, nodes, m, rho, done)
    ensures Widened(nodes0, m0, nodes, m, rho, done)
  {
    var i := Interp(_ => Undefined, (_, _) => Undefined, (_, _) => Undefined);
    assert Progress(nodes0, m0, nodes, m, nextId, rho, done, i);
  }

  /** `concat_linear`. `ok` is false exactly when some group makes the pass raise. Otherwise the new graph is in order,
      and `rho` says under which name each original value is looked for; only linears are renamed. If no module of a
      rewritten group's first linear is shared, every value is found there; a spoilt use never is, if it is visible. */
  method ConcatLinearPass(g: FxGraph) returns (ok: bool, ghost rho: Substitution)
    requires WellFormed(g.nodes, g.modules) && g.nextId == |g.nodes|
    modifies g
    ensures ok <==> forall x :: GroupFine(old(g.nodes), old(g.modules), x)
    ensures ok ==> Topological(g.nodes)
    ensures RenamedLinears(old(g.nodes), old(g.modules), rho)
    ensures ok && Unshared(old(g.nodes), old(g.modules)) ==> forall i: Interp ::
      Simulates(rho, Eval(old(g.nodes), old(g.modules), i), Eval(g.nodes, g.modules, i))
    ensures ok ==> forall i: Interp ::
      ChangesSpoilt(old(g.nodes), old(g.modules), rho, Eval(old(g.nodes), old(g.modules), i),
                    Eval(g.nodes, g.modules, i))
    ensures ok ==> forall i: Interp :: AllVisible(old(g.nodes), old(g.modules), i) ==>
      (Simulates(rho, Eval(old(g.nodes), old(g.modules), i), Eval(g.nodes, g.modules, i)) <==>
       Unshared(old(g.nodes), old(g.modules)))
  {
    ghost var nodes0, m0 := g.nodes, g.modules;
    var groups, inputs := Collect(g.nodes, g.modules);
    FirstRound(nodes0, m0, inputs);
    ok, rho := RewriteGroups(g, groups, inputs, nodes0, m0);
    AllFine(nodes0, m0, groups, inputs);
    if ok {
      LastRound(nodes0, m0, g.nodes, g.modules, g.nextId, groups, inputs, rho);
    }
  }

  lemma FirstRound(nodes0: seq<FxNode>, m0: Modules, inputs: seq<NodeId>)
    requires WellFormed(nodes0, m0)
    ensures Round(nodes0, m0, nodes0, m0, |nodes0|, inputs, 0, map[])
  {
    assert Members(inputs, 0) == {};
    forall i: Interp ensures Progress(nodes0, m0, nodes0, m0, |nodes0|, map[], {}, i) {
      InitialProgress(nodes0, m0, i);
    }
  }

  lemma LastRound(nodes0: seq<FxNode>, m0: Modules, nodes: seq<FxNode>, m: Modules, nextId: NodeId,
                  groups: map<NodeId, seq<NodeId>>, inputs: seq<NodeId>, rho: Substitution)
    requires WellFormed(nodes0, m0) && Grouped(nodes0, m0, groups, inputs)
    requires forall x :: GroupFine(nodes0, m0, x)
    requires Round(nodes0, m0, nodes, m, nextId, inputs, |inputs|, rho)
    ensures Topological(nodes) && RenamedLinears(nodes0, m0, rho)
    ensures forall i: Interp :: Unshared(nodes0, m0) ==> Simulates(rho, Eval(nodes0, m0, i), Eval(nodes, m, i))
    ensures forall i: Interp :: ChangesSpoilt(nodes0, m0, rho, Eval(nodes0, m0, i), Eval(nodes, m, i))
    ensures forall i: Interp :: AllVisible(nodes0, m0, i) ==>
      (Simulates(rho, Eval(nodes0, m0, i), Eval(nodes, m, i)) <==> Unshared(nodes0, m0))
  {
    ProgressNow(nodes0, m0, nodes, m, nextId, rho, Members(inputs, |inputs|));
    RenamedAreLinears(nodes0, m0, rho, Members(inputs, |inputs|));
    forall i: Interp
      ensures Unshared(nodes0, m0) ==> Simulates(rho, Eval(nodes0, m0, i), Eval(nodes, m, i))
      ensures ChangesSpoilt(nodes0, m0, rho, Eval(nodes0, m0, i), Eval(nodes, m, i))
      ensures AllVisible(nodes0, m0, i) ==>
        (Simulates(rho, Eval(nodes0, m0, i), Eval(nodes, m, i)) <==> Unshared(nodes0, m0))
    {
      LastValues(nodes0, m0, nodes, m, nextId, groups, inputs, rho, i);
    }
  }

  lemma LastValues(nodes0: seq<FxNode>, m0: Modules, nodes: seq<FxNode>, m: Modules, nextId: NodeId,
                   groups: map<NodeId, seq<NodeId>>, inputs: seq<NodeId>, rho: Substitution, i: Interp)
    requires WellFormed(nodes0, m0) && Grouped(nodes0, m0, groups, inputs)
    requires forall x :: GroupFine(nodes0, m0, x)
    requires AllProgress(nodes0, m0, nodes, m, nextId, rho, Members(inputs, |inputs|))
    ensures Unshared(nodes0, m0) ==> Simulates(rho, Eval(nodes0, m0, i), Eval(nodes, m, i))
    ensures ChangesSpoilt(nodes0, m0, rho, Eval(nodes0, m0, i), Eval(nodes, m, i))
    ensures AllVisible(nodes0, m0, i) ==>
      (Simulates(rho, Eval(nodes0, m0, i), Eval(nodes, m, i)) <==> Unshared(nodes0, m0))
  {
    assert Progress(nodes0, m0, nodes, m, nextId, rho, Members(inputs, |inputs|), i);
    SpoiltChange(nodes0, m0, nodes, m, rho, groups, inputs, i);
    KeptOnlyIfUnshared(nodes0, m0, rho, i, Eval(nodes, m, i));
  }

  lemma RenamedAreLinears(nodes0: seq<FxNode>, m0: Modules, rho: Substitution, done: set<NodeId>)
    requires Renamed(nodes0, m0, rho, done)
    ensures RenamedLinears(nodes0, m0, rho)
  {
  }

  /** Every visible spoilt use has another value than before. */
  ghost predicate ChangesSpoilt(nodes0: seq<FxNode>, m0: Modules, rho: Substitution, env0: Env, env: Env)
  {
    forall j: nat, k: nat | Spoils(nodes0, m0, j, k) && k in env0 && Visible(nodes0[k].op, env0[k]) ::
      Sub(rho, k) in env && env[Sub(rho, k)] != env0[k]
  }

  lemma SpoiltChange(nodes0: seq<FxNode>, m0: Modules, nodes: seq<FxNode>, m: Modules, rho: Substitution,
                     groups: map<NodeId, seq<NodeId>>, inputs: seq<NodeId>, i: Interp)
    requires WellFormed(nodes0, m0) && Topological(nodes) && Grouped(nodes0, m0, groups, inputs)
    requires Widened(nodes0, m0, nodes, m, rho, Members(inputs, |inputs|))
    ensures ChangesSpoilt(nodes0, m0, rho, Eval(nodes0, m0, i), Eval(nodes, m, i))
  {
    forall j: nat, k: nat | Spoils(nodes0, m0, j, k) && k in Ids(nodes0)
                            && Visible(nodes0[k].op, Eval(nodes0, m0, i)[k])
      ensures Sub(rho, k) in Ids(nodes) && Eval(nodes, m, i)[Sub(rho, k)] != Eval(nodes0, m0, i)[k]
    {
      assert GroupedAt(nodes0, m0, groups, inputs, nodes0[j].args[0]);
      assert nodes0[j].args[0] in Members(inputs, |inputs|);
      SpoiltDiffers(nodes0, m0, nodes, m, rho, i, k);
    }
  }

  /** Linears have outputs, and whatever uses the first module of a rewritten group has a visible value. */
  ghost predicate AllVisible(nodes: seq<FxNode>, m: Modules, i: Interp)
  {
    && LinearsHaveOutputs(m)
    && forall j: nat, k: nat | j < |nodes| && k < |nodes| && IsFirst(nodes, m, j)
                               && Uses(nodes[k], nodes[j].op.target) ::
         k in Eval(nodes, m, i) && Visible(nodes[k].op, Eval(nodes, m, i)[k])
  }

  /** Then values are kept only if no module is shared. */
  lemma KeptOnlyIfUnshared(nodes0: seq<FxNode>, m0: Modules, rho: Substitution, i: Interp, env: Env)
    requires WellFormed(nodes0, m0) && forall x :: GroupFine(nodes0, m0, x)
    requires ChangesSpoilt(nodes0, m0, rho, Eval(nodes0, m0, i), env)
    ensures AllVisible(nodes0, m0, i) && Simulates(rho, Eval(nodes0, m0, i), env) ==> Unshared(nodes0, m0)
  {
    if AllVisible(nodes0, m0, i) && !Unshared(nodes0, m0) {
      var j, k := SharedSpoils(nodes0, m0);
      assert k in Eval(nodes0, m0, i);
    }
  }

  lemma AllFine(nodes0: seq<FxNode>, m0: Modules, groups: map<NodeId, seq<NodeId>>, inputs: seq<NodeId>)
    requires Positional(nodes0) && Grouped(nodes0, m0, groups, inputs)
    ensures (forall x :: GroupFine(nodes0, m0, x)) <==> FineUpTo(nodes0, m0, inputs, |inputs|)
  {
    if FineUpTo(nodes0, m0, inputs, |inputs|) {
      forall x ensures GroupFine(nodes0, m0, x) {
        assert GroupedAt(nodes0, m0, groups, inputs, x);
        if x in inputs {
          var k :| 0 <= k < |inputs| && inputs[k] == x;
        }
      }
    }
  }

  /** The loop over all collected inputs. */
  method RewriteGroups(g: FxGraph, groups: map<NodeId, seq<NodeId>>, inputs: seq<NodeId>,
                       ghost nodes0: seq<FxNode>, ghost m0: Modules)
    returns (ok: bool, ghost rho: Substitution)
    requires WellFormed(nodes0, m0) && Grouped(nodes0, m0, groups, inputs)
    requires Round(nodes0, m0, g.nodes, g.modules, g.nextId, inputs, 0, map[])
    modifies g
    ensures ok ==> Round(nodes0, m0, g.nodes, g.modules, g.nextId, inputs, |inputs|, rho)
    ensures !ok ==> !FineUpTo(nodes0, m0, inputs, |inputs|) && RenamedLinears(nodes0, m0, rho)
  {
    rho := map[];
    for k := 0 to |inputs|
      invariant Round(nodes0, m0, g.nodes, g.modules, g.nextId, inputs, k, rho)
    {
      ok, rho := RewriteNext(g, groups, inputs, k, nodes0, m0, rho);
      if !ok {
        return;
      }
    }
    ok := true;
  }

  /** The state after `k` rounds. */
  ghost predicate Round(nodes0: seq<FxNode>, m0: Modules, nodes: seq<FxNode>, m: Modules, nextId: NodeId,
                        inputs: seq<NodeId>, k: nat, rho: Substitution)
    requires Positional(nodes0)
  {
    k <= |inputs| && FineUpTo(nodes0, m0, inputs, k)
    && AllProgress(nodes0, m0, nodes, m, nextId, rho, Members(inputs, k))
  }

  method RewriteNext(g: FxGraph, groups: map<NodeId, seq<NodeId>>, inputs: seq<NodeId>, k: nat,
                     ghost nodes0: seq<FxNode>, ghost m0: Modules, ghost rho: Substitution)
    returns (ok: bool, ghost rho': Substitution)
    requires WellFormed(nodes0, m0) && Grouped(nodes0, m0, groups, inputs) && k < |inputs|
    requires Round(nodes0, m0, g.nodes, g.modules, g.nextId, inputs, k, rho)
    modifies g
    ensures ok ==> Round(nodes0, m0, g.nodes, g.modules, g.nextId, inputs, k + 1, rho')
    ensures !ok ==> !FineUpTo(nodes0, m0, inputs, |inputs|) && RenamedLinears(nodes0, m0, rho')
  {
    NextMember(nodes0, m0, groups, inputs, k);
    ok, rho' := RewriteGroup(g, groups[inputs[k]], nodes0, m0, rho, Members(inputs, k), inputs[k]);
  }

  /** Only linears are renamed. */
  ghost predicate RenamedLinears(nodes0: seq<FxNode>, m0: Modules, rho: Substitution)
  {
    forall id :: id in rho ==> id < |nodes0| && IsLinear(nodes0[id], m0)
  }

  /** The first `k` inputs. */
  ghost function Members(xs: seq<NodeId>, k: nat): set<NodeId>
    requires k <= |xs|
  {
    set j | 0 <= j < k :: xs[j]
  }

  lemma NextMember(nodes0: seq<FxNode>, m0: Modules, groups: map<NodeId, seq<NodeId>>, xs: seq<NodeId>, k: nat)
    requires Grouped(nodes0, m0, groups, xs) && k < |xs|
    ensures xs[k] in groups && groups[xs[k]] == GroupOf(nodes0, m0, xs[k])
    ensures IsNext(nodes0, m0, xs[k], Members(xs, k)) && Members(xs, k + 1) == Members(xs, k) + {xs[k]}
  {
    assert GroupedAt(nodes0, m0, groups, xs, xs[k]);
    forall j | 0 <= j < |xs| ensures j < k <==> StartsBefore(nodes0, m0, xs[j], xs[k]) {
      assert InOrderAt(nodes0, m0, xs, j, k);
      if j > k {
        assert InOrderAt(nodes0, m0, xs, k, j);
      }
    }
    forall y ensures y in Members(xs, k) <==> StartsBefore(nodes0, m0, y, xs[k]) {
      if StartsBefore(nodes0, m0, y, xs[k]) {
        assert GroupedAt(nodes0, m0, groups, xs, y);
        var j :| 0 <= j < |xs| && xs[j] == y;
      }
    }
  }

  lemma InitialProgress(nodes0: seq<FxNode>, m0: Modules, i: Interp)
    requires WellFormed(nodes0, m0)
    ensures Progress(nodes0, m0, nodes0, m0, |nodes0|, map[], {}, i)
  {
    OrderedPositional(nodes0);
    forall k | 0 <= k < |nodes0| ensures OriginNode(nodes0, nodes0[k], map[]) {
      assert SubArgs(map[], nodes0[k].args) == nodes0[k].args;
    }
  }

  /** One round of the pass: `fine` unless the group makes it raise. */
  method RewriteGroup(g: FxGraph, ids: seq<NodeId>, ghost nodes0: seq<FxNode>, ghost m0: Modules,
                      ghost rho: Substitution, ghost done: set<NodeId>, ghost x: NodeId)
    returns (fine: bool, ghost rho': Substitution)
    requires WellFormed(nodes0, m0) && IsNext(nodes0, m0, x, done) && ids == GroupOf(nodes0, m0, x)
    requires AllProgress(nodes0, m0, g.nodes, g.modules, g.nextId, rho, done)
    modifies g
    ensures fine <==> GroupFine(nodes0, m0, x)
    ensures fine ==> AllProgress(nodes0, m0, g.nodes, g.modules, g.nextId, rho', done + {x})
    ensures !fine ==> RenamedLinears(nodes0, m0, rho')
  {
    rho' := rho;
    ProgressNow(nodes0, m0, g.nodes, g.modules, g.nextId, rho, done);
    RenamedAreLinears(nodes0, m0, rho, done);
    GroupSorted(nodes0, m0, x);
    if |ids| >= 2 {
      var choice := Choose(g, ids, nodes0, m0, rho, done, x);
      if choice.Raised? || |choice.value| < 2 {
        return false, rho;
      }
      assert GroupFine(nodes0, m0, x);
      var p := Find(g.nodes, ids[0]);
      rho' := ConcatChosen(g, p, choice.value, nodes0, m0, rho, done, x);
    } else {
      SingleRound(nodes0, m0, g.nodes, g.modules, g.nextId, rho, done, x);
    }
    return true, rho';
  }

  /** A group of one linear is left alone; it spoils nothing. */
  lemma SingleRound(nodes0: seq<FxNode>, m0: Modules, nodes: seq<FxNode>, m: Modules, nextId: NodeId,
                    rho: Substitution, done: set<NodeId>, x: NodeId)
    requires AllProgress(nodes0, m0, nodes, m, nextId, rho, done) && |GroupOf(nodes0, m0, x)| < 2
    ensures AllProgress(nodes0, m0, nodes, m, nextId, rho, done + {x})
  {
    ProgressNow(nodes0, m0, nodes, m, nextId, rho, done);
    SingleNames(nodes0, m0, nodes, rho, done, x);
    SingleWidened(nodes0, m0, nodes, m, rho, done, x);
    forall i: Interp ensures Progress(nodes0, m0, nodes, m, nextId, rho, done + {x}, i) {
      assert Progress(nodes0, m0, nodes, m, nextId, rho, done, i);
    }
  }

  lemma SingleNames(nodes0: seq<FxNode>, m0: Modules, nodes: seq<FxNode>, rho: Substitution, done: set<NodeId>,
                    x: NodeId)
    requires |GroupOf(nodes0, m0, x)| < 2
    requires Renamed(nodes0, m0, rho, done) && Gone(nodes0, m0, nodes, done) && Stays(nodes0, m0, nodes, done)
    ensures Renamed(nodes0, m0, rho, done + {x})
    ensures Gone(nodes0, m0, nodes, done + {x}) && Stays(nodes0, m0, nodes, done + {x})
  {
    assert forall k :: !Merges(nodes0, m0, x, k);
  }

  lemma SingleWidened(nodes0: seq<FxNode>, m0: Modules, nodes: seq<FxNode>, m: Modules, rho: Substitution,
                      done: set<NodeId>, x: NodeId)
    requires Widened(nodes0, m0, nodes, m, rho, done) && |GroupOf(nodes0, m0, x)| < 2
    ensures Widened(nodes0, m0, nodes, m, rho, done + {x})
  {
    forall j: nat, k: nat | Spoils(nodes0, m0, j, k) && nodes0[j].args[0] in done + {x}
      ensures IsWide(nodes0, m0, nodes, m, rho, k)
    {
      assert nodes0[j].args[0] != x;
    }
  }

  /** One group of the pass. */
  method ConcatChosen(g: FxGraph, p: nat, layers: seq<FxNode>, ghost nodes0: seq<FxNode>, ghost m0: Modules,
                      ghost rho: Substitution, ghost done: set<NodeId>, ghost x: NodeId)
    returns (ghost rho': Substitution)
    requires WellFormed(nodes0, m0) && IsNext(nodes0, m0, x, done)
    requires AllProgress(nodes0, m0, g.nodes, g.modules, g.nextId, rho, done)
    requires Chosen(nodes0, m0, g.nodes, x, layers) && |layers| >= 2 && p < |g.nodes| && g.nodes[p].id == layers[0].id
    modifies g
    ensures AllProgress(nodes0, m0, g.nodes, g.modules, g.nextId, rho', done + {x})
  {
    ghost var nodes, m, nextId := g.nodes, g.modules, g.nextId;
    ProgressNow(nodes0, m0, nodes, m, nextId, rho, done);
    assert nodes[p] == layers[0] by {
      assert layers[0] in nodes;
      var q :| 0 <= q < |nodes| && nodes[q] == layers[0];
      UniqueIds(nodes, p, q);
    }
    ChosenIsGroup(nodes0, m0, nodes, m, rho, done, x, layers, p);
    ChosenCompatible(nodes0, m0, nodes, m, rho, done, x, layers);
    g.ConcatGroup(p, layers, Sub(rho, x));
    rho' := rho + GroupSub(layers, nextId);
    StepProgress(nodes0, m0, nodes, p, layers, m, nextId, rho, done, x, g.nextId);
  }

  /** One group's edit keeps the progress so far. */
  lemma StepProgress(nodes0: seq<FxNode>, m0: Modules, nodes: seq<FxNode>, p: nat, layers: seq<FxNode>, m: Modules,
                     nextId: NodeId, rho: Substitution, done: set<NodeId>, x: NodeId, nextId': NodeId)
    requires Editable(nodes0, m0, nodes, p, layers, m, nextId, rho, done, x)
    requires AllProgress(nodes0, m0, nodes, m, nextId, rho, done) && nextId <= nextId'
    requires NumberedBelow(EditedAt(nodes, p, layers, m, nextId), nextId')
    ensures AllProgress(nodes0, m0, EditedAt(nodes, p, layers, m, nextId), EditedModules(layers, m), nextId',
                        rho + GroupSub(layers, nextId), done + {x})
  {
    var nodes', m', rho' := EditedAt(nodes, p, layers, m, nextId), EditedModules(layers, m),
                            rho + GroupSub(layers, nextId);
    ProgressNow(nodes0, m0, nodes, m, nextId, rho, done);
    StepInvariant(nodes0, m0, nodes, p, layers, m, nextId, rho, done, x);
    StepWidened(nodes0, m0, nodes, p, layers, m, nextId, rho, done, x);
    forall i: Interp ensures Progress(nodes0, m0, nodes', m', nextId', rho', done + {x}, i) {
      assert Progress(nodes0, m0, nodes, m, nextId, rho, done, i);
      if Unshared(nodes0, m0) {
        StepValues(nodes0, m0, nodes, p, layers, m, nextId, rho, done, x, i);
      }
    }
  }
}
