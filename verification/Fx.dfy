/**
 torch.fx graphs as `concat_linear` sees them: a list of nodes in execution order and a table of
 modules, with an evaluator that gives every node its value.
 */
module Fx {
  import opened Basics
  import opened LinearAlgebra

  type NodeId = nat

  /** Device, dtype and requires_grad of a parameter tensor. */
  datatype Traits = Traits(device: string, dtype: string, requiresGrad: bool)

  datatype Bias = Bias(values: Vec, traits: Traits)

  /** nn.Linear (`cols` is in_features), or any other module. */
  datatype Module = Linear(weight: Matrix, cols: nat, traits: Traits, bias: Option<Bias>) | OtherModule(name: string)

  ghost predicate WellShaped(m: Module)
  {
    m.Linear? ==>
      (forall o :: 0 <= o < |m.weight| ==> |m.weight[o]| == m.cols)
      && (m.bias.Some? ==> |m.bias.value.values| == |m.weight|)
  }

  datatype FxOp =
    | Placeholder(name: string)
    | CallModule(target: string)
    | GetAttr(target: string, name: string)    // attribute `name` of module `target`
    | CallFunction(name: string)
    | Split(sizes: seq<nat>)       // torch.split along the last dimension
    | GetItem(index: nat)
    | Output

  datatype FxNode = FxNode(id: NodeId, op: FxOp, args: seq<NodeId>)

  /** A tensor is the list of its rows along the last dimension. `Undefined` is a failed evaluation. */
  datatype Value = Tensor(rows: seq<Vec>) | Tuple(items: seq<Value>) | Undefined

  /** The meaning of everything the pass does not touch; `attr` is for modules that are no linears. */
  datatype Interp = Interp(
    inputs: string -> Value, call: (string, seq<Value>) -> Value, attr: (string, string) -> Value)

  type Modules = map<string, Module>

  /** `n` calls module `target` or reads one of its attributes. */
  predicate Uses(n: FxNode, target: string)
  {
    (n.op.CallModule? || n.op.GetAttr?) && n.op.target == target
  }

  // ----- Evaluation

  function LinearRow(m: Module, x: Vec): (y: Vec)
    requires m.Linear? && |x| == m.cols && WellShaped(m)
    ensures |y| == |m.weight|
  {
    seq(|m.weight|, o requires 0 <= o < |m.weight| =>
      Dot(m.weight[o], x) + if m.bias.Some? then m.bias.value.values[o] else 0.0)
  }

  ghost predicate HasWidth(v: Value, width: nat)
  {
    v.Tensor? && forall r :: 0 <= r < |v.rows| ==> |v.rows[r]| == width
  }

  ghost function ApplyLinear(m: Module, x: Value): Value
    requires m.Linear?
  {
    if WellShaped(m) && HasWidth(x, m.cols) then
      Tensor(seq(|x.rows|, r requires 0 <= r < |x.rows| => LinearRow(m, x.rows[r])))
    else Undefined
  }

  /** A parameter of a linear; a bias is one row. */
  function Parameter(m: Module, name: string): Value
    requires m.Linear?
  {
    if name == "weight" then Tensor(m.weight)
    else if name == "bias" && m.bias.Some? then Tensor([m.bias.value.values])
    else Undefined
  }

  function Sum(sizes: seq<nat>): nat
  {
    if sizes == [] then 0 else Sum(sizes[..|sizes| - 1]) + sizes[|sizes| - 1]
  }

  ghost function SplitPart(x: Value, sizes: seq<nat>, k: nat): Value
    requires k < |sizes| && HasWidth(x, Sum(sizes))
  {
    SumPrefix(sizes, k);
    Tensor(seq(|x.rows|, r requires 0 <= r < |x.rows| => x.rows[r][Sum(sizes[..k])..Sum(sizes[..k]) + sizes[k]]))
  }

  lemma {:induction false} SumPrefix(sizes: seq<nat>, k: nat)
    requires k < |sizes|
    ensures Sum(sizes[..k]) + sizes[k] <= Sum(sizes)
    decreases |sizes|
  {
    if k == |sizes| - 1 {
    } else {
      assert sizes[..|sizes| - 1][..k] == sizes[..k];
      SumPrefix(sizes[..|sizes| - 1], k);
    }
  }

  type Env = map<NodeId, Value>

  function Lookup(env: Env, id: NodeId): Value
  {
    if id in env then env[id] else Undefined
  }

  function ArgValues(env: Env, args: seq<NodeId>): (vs: seq<Value>)
    ensures |vs| == |args| && forall k :: 0 <= k < |args| ==> vs[k] == Lookup(env, args[k])
  {
    seq(|args|, k requires 0 <= k < |args| => Lookup(env, args[k]))
  }

  /** What an op computes from its argument values. */
  ghost function Compute(op: FxOp, args: seq<Value>, modules: Modules, i: Interp): Value
  {
    match op
    case Placeholder(name) => i.inputs(name)
    case CallModule(target) =>
      if target in modules && modules[target].Linear? then
        if |args| == 1 then ApplyLinear(modules[target], args[0]) else Undefined
      else if target in modules then i.call(modules[target].name, args)
      else Undefined
    case GetAttr(target, name) =>
      if target in modules && modules[target].Linear? then Parameter(modules[target], name) else i.attr(target, name)
    case CallFunction(name) => i.call(name, args)
    case Split(sizes) =>
      if |args| == 1 && HasWidth(args[0], Sum(sizes)) then
        Tuple(seq(|sizes|, k requires 0 <= k < |sizes| => SplitPart(args[0], sizes, k)))
      else Undefined
    case GetItem(index) =>
      if |args| == 1 && args[0].Tuple? && index < |args[0].items| then args[0].items[index] else Undefined
    case Output => Tuple(args)
  }

  ghost function EvalNode(n: FxNode, env: Env, modules: Modules, i: Interp): Value
  {
    Compute(n.op, ArgValues(env, n.args), modules, i)
  }

  /** The value of every node, in execution order. */
  ghost function Eval(nodes: seq<FxNode>, modules: Modules, i: Interp): (env: Env)
    ensures env.Keys == Ids(nodes)
  {
    if nodes == [] then map[]
    else
      var env := Eval(nodes[..|nodes| - 1], modules, i);
      env[nodes[|nodes| - 1].id := EvalNode(nodes[|nodes| - 1], env, modules, i)]
  }

  function Ids(nodes: seq<FxNode>): set<NodeId>
  {
    if nodes == [] then {} else Ids(nodes[..|nodes| - 1]) + {nodes[|nodes| - 1].id}
  }

  /** Every node is new and uses only earlier nodes. */
  ghost predicate Topological(nodes: seq<FxNode>)
  {
    nodes == [] ||
    (var front, last := nodes[..|nodes| - 1], nodes[|nodes| - 1];
     Topological(front) && last.id !in Ids(front) && forall a :: a in last.args ==> a in Ids(front))
  }

  lemma {:induction false} IdsAppend(a: seq<FxNode>, b: seq<FxNode>)
    ensures Ids(a + b) == Ids(a) + Ids(b)
    decreases |b|
  {
    if b == [] {
      assert a + b == a;
    } else {
      assert (a + b)[..|a + b| - 1] == a + b[..|b| - 1];
      IdsAppend(a, b[..|b| - 1]);
    }
  }

  lemma {:induction false} IdsMember(nodes: seq<FxNode>, id: NodeId)
    ensures id in Ids(nodes) <==> exists k :: 0 <= k < |nodes| && nodes[k].id == id
  {
    if nodes != [] {
      var front := nodes[..|nodes| - 1];
      IdsMember(front, id);
      if k :| 0 <= k < |front| && front[k].id == id {
        assert nodes[k].id == id;
      }
    }
  }

  lemma EvalStep(nodes: seq<FxNode>, n: FxNode, modules: Modules, i: Interp)
    ensures Eval(nodes + [n], modules, i) ==
      Eval(nodes, modules, i)[n.id := EvalNode(n, Eval(nodes, modules, i), modules, i)]
    ensures Topological(nodes + [n]) <==>
      Topological(nodes) && n.id !in Ids(nodes) && forall a :: a in n.args ==> a in Ids(nodes)
    ensures Ids(nodes + [n]) == Ids(nodes) + {n.id}
  {
    assert (nodes + [n])[..|nodes + [n]| - 1] == nodes;
  }
}
