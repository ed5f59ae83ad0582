/**
 The dataflow graph that the quantization passes work on: one node per recorded op,
 rebuilt from the tensor ids that the first call assigned
 (quantization/_utils.py, `Node` and `convert_quant_state_map_to_nodes`).
 */
module QuantGraph {
  import opened Basics

  datatype DType = Float32 | QInt8 | QUInt8 | OtherDType(tag: nat)

  predicate Quantized(d: DType) { d.QInt8? || d.QUInt8? }

  /** The dtypes of a qconfig's activation and weight observers. */
  datatype QConfig = QConfig(activation: DType, weight: DType)

  /** Op types, up to the op lists that the recipe distinguishes. */
  datatype OpType =
    | FunctionalConv           // F.conv*, which are the same functions as torch.conv*
    | ConvModule
    | FunctionalLinear         // F.linear, which is torch._C._nn.linear
    | LinearModule
    | MatMul                   // matmul and bmm
    | Add
    | AddInplace
    | ReluFunction
    | ReluModule
    | EltwiseNoQ               // hardtanh, elu, silu, gelu, relu_, ...
    | Sigmoid
    | Mul
    | Pool
    | FlattenMethod            // torch.Tensor.flatten
    | Flatten                  // torch.flatten, nn.Flatten
    | Identity
    | OtherOp

  const CONV_OPS: set<OpType> := {FunctionalConv, ConvModule}
  const CONV_GEMM_OPS: set<OpType> := {FunctionalConv, ConvModule, FunctionalLinear, LinearModule, MatMul}
  const CONV_GEMM_FS: set<OpType> := {FunctionalConv, FunctionalLinear}
  const CONV_LINEAR_OPS: set<OpType> := {FunctionalConv, FunctionalLinear}
  const ADD_OPS: set<OpType> := {Add}
  const ADD_INPLACE_OPS: set<OpType> := {AddInplace}
  const ELT_WISE_Q_OPS: set<OpType> := {ReluFunction, ReluModule}
  const ELT_WISE_NOQ_OPS: set<OpType> := {ReluModule, EltwiseNoQ, Sigmoid}
  const INT8_INT8_OPS: set<OpType> := {Pool, ReluFunction, ReluModule, FlattenMethod, Flatten}
  const SYNC_OPS: set<OpType> := {Pool, FlattenMethod, Flatten}

  /** One recorded op. `owner` is the module whose quantization state recorded it; a non-tensor argument is
      recorded as `None`. A module that is activated again adds its outputs to the ops of its first activation;
      `slots[a]` is the position of `outputs[a]` among the tensors that its own activation returned. */
  datatype Node = Node(
    kind: OpType, isModule: bool, owner: nat,
    inputs: seq<Option<TensorId>>, outputs: seq<TensorId>, slots: seq<nat>, qconfig: Option<QConfig>)

  /** `orig[t]` is the dtype that tensor `t` had while tracing. */
  datatype Graph = Graph(nodes: seq<Node>, orig: seq<DType>)

  /** What a first call leaves behind: known ids, outputs newer than inputs, one producer per id. */
  ghost predicate Traced(g: Graph)
  {
    && (forall i, t :: 0 <= i < |g.nodes| && Some(t) in g.nodes[i].inputs ==> t < |g.orig|)
    && (forall i, t :: 0 <= i < |g.nodes| && t in g.nodes[i].outputs ==> t < |g.orig|)
    && (forall i, t, o :: 0 <= i < |g.nodes| && Some(t) in g.nodes[i].inputs && o in g.nodes[i].outputs ==> t < o)
    && (forall i, j, o :: 0 <= i < |g.nodes| && 0 <= j < |g.nodes| && o in g.nodes[i].outputs && o in g.nodes[j].outputs
          ==> i == j)
    && (forall i, a, b :: 0 <= i < |g.nodes| && 0 <= a < b < |g.nodes[i].outputs|
          ==> g.nodes[i].outputs[a] != g.nodes[i].outputs[b])
    && (forall i :: 0 <= i < |g.nodes| ==> SlotsFit(g.nodes[i]))
  }

  /** Every output has a slot, and the output that its slot names was recorded no later. */
  predicate SlotsFit(n: Node)
  {
    |n.slots| == |n.outputs| && forall a :: 0 <= a < |n.slots| ==> n.slots[a] <= a
  }

  predicate PassThrough(n: Node) { n.kind.Identity? && n.qconfig.None? }

  /** nn.Identity takes one tensor and returns one, and is never quantizable. */
  ghost predicate IdentitiesAreUnary(g: Graph)
  {
    forall i :: 0 <= i < |g.nodes| && g.nodes[i].kind.Identity? ==>
      g.nodes[i].qconfig.None? && |g.nodes[i].inputs| == 1
      && (g.nodes[i].outputs != [] ==> g.nodes[i].inputs[0].Some?)
  }

  /** One more than the newest input id: strictly larger for consumers than for producers. */
  function Newest(inputs: seq<Option<TensorId>>): (m: nat)
    ensures forall t :: Some(t) in inputs ==> t < m
    ensures m > 0 ==> Some(m - 1) in inputs
  {
    if inputs == [] then 0
    else
      var rest := Newest(inputs[1..]);
      assert inputs == [inputs[0]] + inputs[1..];
      if inputs[0].Some? && inputs[0].value >= rest then inputs[0].value + 1 else rest
  }

  function Depth(g: Graph, i: nat): nat
    requires i < |g.nodes|
  {
    Newest(g.nodes[i].inputs)
  }

  // ----- Connections between nodes

  ghost predicate Feeds(g: Graph, producer: nat, consumer: nat)
    requires producer < |g.nodes| && consumer < |g.nodes|
  {
    exists t :: t in g.nodes[producer].outputs && Some(t) in g.nodes[consumer].inputs
  }

  /** `n` once per input that one of `outputs` provides. */
  function InputMatches(inputs: seq<Option<TensorId>>, outputs: seq<TensorId>, n: nat): (r: seq<nat>)
    ensures |r| <= |inputs| && forall x :: x in r ==> x == n
    ensures n in r <==> exists t :: t in outputs && Some(t) in inputs
  {
    if inputs == [] then []
    else
      var last := inputs[|inputs| - 1];
      var front := inputs[..|inputs| - 1];
      assert inputs == front + [last];
      InputMatches(front, outputs, n) + (if last.Some? && last.value in outputs then [n] else [])
  }

  /** `n` once per output that `inputs` mentions. */
  function OutputMatches(outputs: seq<TensorId>, inputs: seq<Option<TensorId>>, n: nat): (r: seq<nat>)
    ensures forall x :: x in r ==> x == n
    ensures n in r <==> exists t :: t in outputs && Some(t) in inputs
  {
    if outputs == [] then []
    else
      var last := outputs[|outputs| - 1];
      var front := outputs[..|outputs| - 1];
      assert outputs == front + [last];
      OutputMatches(front, inputs, n) + (if Some(last) in inputs then [n] else [])
  }

  function PreUpTo(g: Graph, i: nat, n: nat): (r: seq<nat>)
    requires i < |g.nodes| && n <= |g.nodes|
    ensures forall p: nat :: p in r <==> p < n && Feeds(g, p, i)
  {
    if n == 0 then []
    else PreUpTo(g, i, n - 1) + InputMatches(g.nodes[i].inputs, g.nodes[n - 1].outputs, n - 1)
  }

  function PostUpTo(g: Graph, i: nat, n: nat): (r: seq<nat>)
    requires i < |g.nodes| && n <= |g.nodes|
    ensures forall p: nat :: p in r <==> p < n && Feeds(g, i, p)
  {
    if n == 0 then []
    else PostUpTo(g, i, n - 1) + OutputMatches(g.nodes[i].outputs, g.nodes[n - 1].inputs, n - 1)
  }

  /** `node.pre_nodes`: in node order, a producer once per input it provides. */
  function Pre(g: Graph, i: nat): (r: seq<nat>)
    requires i < |g.nodes|
    ensures forall p: nat :: p in r <==> p < |g.nodes| && Feeds(g, p, i)
    ensures forall k :: 0 <= k < |r| ==> r[k] < |g.nodes|
    ensures Traced(g) ==> forall p :: p in r ==> Depth(g, p) < Depth(g, i)
    ensures Traced(g) ==> forall k :: 0 <= k < |r| ==> Depth(g, r[k]) < Depth(g, i)
  {
    var r := PreUpTo(g, i, |g.nodes|);
    assert forall k :: 0 <= k < |r| ==> r[k] in r;
    assert Traced(g) ==> forall p :: p in r ==> Depth(g, p) < Depth(g, i) by {
      forall p | Traced(g) && p in r ensures Depth(g, p) < Depth(g, i) { FeedsDeeper(g, p, i); }
    }
    r
  }

  /** `node.post_nodes`: in node order, a consumer once per output it uses. */
  function Post(g: Graph, i: nat): (r: seq<nat>)
    requires i < |g.nodes|
    ensures forall p: nat :: p in r <==> p < |g.nodes| && Feeds(g, i, p)
    ensures forall k :: 0 <= k < |r| ==> r[k] < |g.nodes|
    ensures Traced(g) ==> forall p :: p in r ==> Depth(g, i) < Depth(g, p) <= |g.orig|
    ensures Traced(g) ==> forall k :: 0 <= k < |r| ==> Depth(g, i) < Depth(g, r[k]) <= |g.orig|
  {
    var r := PostUpTo(g, i, |g.nodes|);
    assert forall k :: 0 <= k < |r| ==> r[k] in r;
    assert Traced(g) ==> forall p :: p in r ==> Depth(g, i) < Depth(g, p) <= |g.orig| by {
      forall p | Traced(g) && p in r ensures Depth(g, i) < Depth(g, p) <= |g.orig| { FeedsDeeper(g, i, p); }
    }
    r
  }

  /** The graph is acyclic: every edge goes to a strictly deeper node. */
  lemma FeedsDeeper(g: Graph, producer: nat, consumer: nat)
    requires Traced(g) && producer < |g.nodes| && consumer < |g.nodes|
    requires Feeds(g, producer, consumer)
    ensures Depth(g, producer) < Depth(g, consumer) <= |g.orig|
  {
    var t :| t in g.nodes[producer].outputs && Some(t) in g.nodes[consumer].inputs;
    if Depth(g, producer) > 0 {
      assert Some((Depth(g, producer) - 1) as nat) in g.nodes[producer].inputs;
    }
  }

  /** One round of the connection loops: what node `n` adds to `cur`'s edge lists. */
  method MatchNodes(cur: Node, n: Node, index: nat) returns (before: seq<nat>, after: seq<nat>)
    ensures before == InputMatches(cur.inputs, n.outputs, index)
    ensures after == OutputMatches(cur.outputs, n.inputs, index)
  {
    before, after := [], [];
    for k := 0 to |cur.inputs|
      invariant before == InputMatches(cur.inputs[..k], n.outputs, index)
    {
      NextInput(cur.inputs, n.outputs, index, k);
      if cur.inputs[k].Some? && cur.inputs[k].value in n.outputs {
        before := before + [index];
      }
    }
    assert cur.inputs[..|cur.inputs|] == cur.inputs;
    for k := 0 to |cur.outputs|
      invariant after == OutputMatches(cur.outputs[..k], n.inputs, index)
    {
      NextOutput(cur.outputs, n.inputs, index, k);
      if Some(cur.outputs[k]) in n.inputs {
        after := after + [index];
      }
    }
    assert cur.outputs[..|cur.outputs|] == cur.outputs;
  }

  lemma NextInput(inputs: seq<Option<TensorId>>, outputs: seq<TensorId>, n: nat, k: nat)
    requires k < |inputs|
    ensures InputMatches(inputs[..k + 1], outputs, n) == InputMatches(inputs[..k], outputs, n)
      + (if inputs[k].Some? && inputs[k].value in outputs then [n] else [])
  {
    assert inputs[..k + 1][..k] == inputs[..k];
  }

  lemma NextOutput(outputs: seq<TensorId>, inputs: seq<Option<TensorId>>, n: nat, k: nat)
    requires k < |outputs|
    ensures OutputMatches(outputs[..k + 1], inputs, n) == OutputMatches(outputs[..k], inputs, n)
      + (if Some(outputs[k]) in inputs then [n] else [])
  {
    assert outputs[..k + 1][..k] == outputs[..k];
  }

  /** The nested connection loops compute exactly the edge lists above. */
  method ConnectNodes(g: Graph) returns (pre: seq<seq<nat>>, post: seq<seq<nat>>)
    ensures |pre| == |post| == |g.nodes|
    ensures forall i :: 0 <= i < |g.nodes| ==> pre[i] == Pre(g, i) && post[i] == Post(g, i)
  {
    pre, post := [], [];
    for cur := 0 to |g.nodes|
      invariant |pre| == |post| == cur
      invariant forall i :: 0 <= i < cur ==> pre[i] == Pre(g, i) && post[i] == Post(g, i)
    {
      var before, after := [], [];
      for n := 0 to |g.nodes|
        invariant before == PreUpTo(g, cur, n) && after == PostUpTo(g, cur, n)
      {
        var b, a := MatchNodes(g.nodes[cur], g.nodes[n], n);
        before, after := before + b, after + a;
      }
      pre, post := pre + [before], post + [after];
    }
  }
}
