/**
 The default quantization recipe (quantization/_recipe.py `get_default_recipe`,
 quantization/_utils.py `set_node_output_quantized`) and what the converted model then does
 with it (quantization/_quantization_state_utils.py `get_input_args_quant_dequant_info`,
 quantization/_quantization_state.py `op_convert_after_hook`).

 `QTensorInfo` objects are shared between every node that mentions them; here `inf` holds one
 cell per tensor id, so a write through one node is seen by all.
 */
module Recipe {
  import opened Basics
  import opened QuantGraph
  import opened FusionPatterns
  import opened FusionMeaning
  import opened Dataflow
  import opened ConsumerCheck

  // ----- Observed tensors

  /** `get_input_observed_arg_idxs` */
  predicate ObservedArg(n: Node, k: nat)
  {
    if n.isModule then k == 0 else if n.kind in CONV_LINEAR_OPS then k <= 1 else true
  }

  predicate ObservesInput(n: Node, k: nat)
  {
    n.qconfig.Some? && k < |n.inputs| && n.inputs[k].Some? && ObservedArg(n, k)
  }

  /** A module observes its input, a functional conv or linear its input and its weight but never its bias, any other op
      all its tensors. */
  lemma ObservesExactly(n: Node, k: nat)
    ensures ObservesInput(n, k) <==>
      && n.qconfig.Some? && k < |n.inputs| && n.inputs[k].Some?
      && (n.isModule ==> k == 0) && (n.kind.FunctionalConv? || n.kind.FunctionalLinear? ==> k <= 1)
  {
  }

  predicate ObservesOutput(n: Node)
  {
    n.qconfig.Some? && n.kind in INT8_INT8_OPS
  }

  /** The output is observed for pools, relus and flattens, as functions and as modules. */
  lemma ObservesOutputExactly(n: Node)
    ensures ObservesOutput(n) <==>
      n.qconfig.Some? && (n.kind.Pool? || n.kind.ReluFunction? || n.kind.ReluModule? || n.kind.FlattenMethod?
                          || n.kind.Flatten?)
  {
  }

  ghost predicate ObservedBy(n: Node, t: TensorId)
  {
    (exists k :: 0 <= k < |n.inputs| && ObservesInput(n, k) && n.inputs[k] == Some(t))
    || (ObservesOutput(n) && t in n.outputs)
  }

  /** `tensor_id_to_scale_zp` of module `m` has a key for `t`. */
  ghost predicate HasScale(g: Graph, m: nat, t: TensorId)
  {
    exists i :: 0 <= i < |g.nodes| && g.nodes[i].owner == m && ObservedBy(g.nodes[i], t)
  }

  /** The scale tables hold exactly the observed ids (one table per module). */
  ghost predicate Calibrated(g: Graph, scales: seq<set<TensorId>>)
  {
    && (forall i :: 0 <= i < |g.nodes| ==> g.nodes[i].owner < |scales|)
    && (forall m, t :: 0 <= m < |scales| ==> (t in scales[m] <==> HasScale(g, m, t)))
  }

  /** The observers inserted for one node (`insert_observers`). */
  method ObserveNode(n: Node, known: set<TensorId>) returns (ids: set<TensorId>)
    ensures forall t :: t in ids <==> t in known || ObservedBy(n, t)
  {
    ids := known;
    for k := 0 to |n.inputs|
      invariant forall t :: t in ids <==>
        t in known || exists j :: 0 <= j < k && ObservesInput(n, j) && n.inputs[j] == Some(t)
    {
      if ObservesInput(n, k) {
        ids := ids + {n.inputs[k].value};
      }
    }
    if ObservesOutput(n) {
      ids := ids + (set t | t in n.outputs);
    }
  }

  method Calibrate(g: Graph, modules: nat) returns (scales: seq<set<TensorId>>)
    requires forall i :: 0 <= i < |g.nodes| ==> g.nodes[i].owner < modules
    ensures |scales| == modules && Calibrated(g, scales)
  {
    scales := seq(modules, _ => {});
    for i := 0 to |g.nodes|
      invariant |scales| == modules
      invariant forall m, t :: 0 <= m < modules ==>
        (t in scales[m] <==> exists j :: 0 <= j < i && g.nodes[j].owner == m && ObservedBy(g.nodes[j], t))
    {
      var m := g.nodes[i].owner;
      var ids := ObserveNode(g.nodes[i], scales[m]);
      scales := scales[m := ids];
    }
  }

  // ----- Marks: everything the recipe writes

  datatype Marks = Marks(inf: seq<DType>, force: Force, insertAfter: seq<seq<bool>>)

  ghost predicate Fits(g: Graph, m: Marks)
  {
    && |m.inf| == |g.orig| && ForceFits(g, m.force) && |m.insertAfter| == |g.nodes|
    && (forall i :: 0 <= i < |g.nodes| ==> |m.insertAfter[i]| == |g.nodes[i].outputs|)
  }

  // ----- What the converted model does with the marks

  /** `get_input_args_quant_dequant_info`: the dtype for argument `k`, which overrides the shared one if they differ. */
  function ArgDtype(force: Option<DType>, inf: DType): (d: Option<DType>)
    ensures d == force
  {
    if force != Some(inf) then force else Some(inf)
  }

  ghost predicate ConsumerQuantizes(g: Graph, scales: seq<set<TensorId>>, m: Marks, c: nat, k: nat)
    requires Fits(g, m) && Traced(g) && Edge(g, c, k) && g.nodes[c].owner < |scales|
  {
    var t := Arg(g, c, k);
    var d := ArgDtype(m.force[c][k], m.inf[t]);
    t in scales[g.nodes[c].owner] && g.orig[t] == Float32 && d.Some? && Quantized(d.value)
  }

  /** `op_convert_after_hook` fake-quantizes the tensor that tracing recorded as output `a` of node `p`. It looks up
      the entry of the tensor's position in its own activation. */
  ghost predicate OutputQuantized(g: Graph, scales: seq<set<TensorId>>, m: Marks, p: nat, a: nat)
    requires Fits(g, m) && Traced(g) && p < |g.nodes| && a < |g.nodes[p].outputs| && g.nodes[p].owner < |scales|
  {
    var slot := (assert SlotsFit(g.nodes[p]); g.nodes[p].slots[a]);
    var t := g.nodes[p].outputs[slot];
    assert t in g.nodes[p].outputs;
    g.nodes[p].qconfig.Some? && t in scales[g.nodes[p].owner] && Quantized(m.inf[t]) && m.insertAfter[p][slot]
  }

  /** How many fake quants tensor `t` has gone through since the op that computed it. */
  ghost function Received(g: Graph, scales: seq<set<TensorId>>, m: Marks, t: TensorId): nat
    requires Fits(g, m) && Traced(g) && Calibrated(g, scales) && IdentitiesAreUnary(g)
  {
    if p: nat, a: nat :| p < |g.nodes| && a < |g.nodes[p].outputs| && g.nodes[p].outputs[a] == t then
      if PassThrough(g.nodes[p]) then
        assert g.nodes[p].inputs[0] in g.nodes[p].inputs;
        assert t in g.nodes[p].outputs;
        Received(g, scales, m, g.nodes[p].inputs[0].value)
      else if OutputQuantized(g, scales, m, p, a) then 1 else 0
    else 0
  }

  /** How many fake quants the tensor `t` has gone through when `c` computes with it as its argument `k`. If `c`'s
      module is activated again, `t` need not be the recorded argument, but `c` still follows its record. */
  ghost function AppliedTo(g: Graph, scales: seq<set<TensorId>>, m: Marks, c: nat, k: nat, t: TensorId): nat
    requires Fits(g, m) && Traced(g) && Calibrated(g, scales) && IdentitiesAreUnary(g)
    requires Edge(g, c, k)
  {
    (if ConsumerQuantizes(g, scales, m, c, k) then 1 else 0) + Received(g, scales, m, t)
  }

  /** The same for the recorded argument. */
  ghost function Applied(g: Graph, scales: seq<set<TensorId>>, m: Marks, c: nat, k: nat): nat
    requires Fits(g, m) && Traced(g) && Calibrated(g, scales) && IdentitiesAreUnary(g)
    requires Edge(g, c, k)
  {
    AppliedTo(g, scales, m, c, k, Arg(g, c, k))
  }

  // ----- Pass 3: who quantizes an int8 op's output

  /** `t` carries an output of one of `ops`, possibly through Identity nodes. */
  ghost predicate FromAny(g: Graph, ops: set<nat>, t: TensorId)
    requires Traced(g) && IdentitiesAreUnary(g)
  {
    exists p :: p in ops && p < |g.nodes| && Root(g, t) in g.nodes[p].outputs
  }

  /** What `force` becomes when the ops `fired` quantize their own outputs: everything that reads them stops. */
  ghost function Settled(g: Graph, force: Force, fired: set<nat>): (r: Force)
    requires Traced(g) && IdentitiesAreUnary(g) && ForceFits(g, force)
    ensures ForceFits(g, r)
  {
    seq(|g.nodes|, c requires 0 <= c < |g.nodes| =>
      seq(|g.nodes[c].inputs|, k requires 0 <= k < |g.nodes[c].inputs| =>
        if Edge(g, c, k) && g.nodes[c].qconfig.Some? && FromAny(g, fired, Arg(g, c, k)) then Some(g.orig[Arg(g, c, k)])
        else force[c][k]))
  }

  /** An int8-only op whose input is quantized and whose consumers do not all quantize. */
  ghost predicate MustFire(g: Graph, force: Force, p: nat)
    requires Traced(g) && ForceFits(g, force) && p < |g.nodes|
  {
    ObservesOutput(g.nodes[p]) && |force[p]| > 0 && IsQuantizedArg(force[p][0]) && !AfterAllQuantized(g, force, p)
  }

  /** If the plan is `force`, `p` ends up quantizing its own output: it must when its turn comes. */
  ghost predicate Fires(g: Graph, force: Force, p: nat)
    requires Traced(g) && IdentitiesAreUnary(g) && ForceFits(g, force) && p < |g.nodes|
    decreases p, 2
  {
    MustFire(g, ForceBefore(g, force, p), p)
  }

  /** What `p` finds when its turn comes: the plan, without the arguments that earlier ops quantize themselves. */
  ghost function ForceBefore(g: Graph, force: Force, p: nat): (now: Force)
    requires Traced(g) && IdentitiesAreUnary(g) && ForceFits(g, force) && p <= |g.nodes|
    ensures ForceFits(g, now)
    decreases p, 1
  {
    Settled(g, force, Firing(g, force, p))
  }

  /** The ops among the first `n` nodes that fire. */
  ghost function Firing(g: Graph, force: Force, n: nat): (ops: set<nat>)
    requires Traced(g) && IdentitiesAreUnary(g) && ForceFits(g, force) && n <= |g.nodes|
    decreases n, 0
  {
    set p: nat | p < n && Fires(g, force, p)
  }

  lemma SettledTyped(g: Graph, force: Force, fired: set<nat>)
    requires Traced(g) && IdentitiesAreUnary(g) && ForceTyped(g, force)
    ensures ForceTyped(g, Settled(g, force, fired))
  {
  }

  /** An op quantizes its own output exactly if it cannot leave int8, its input is quantized when its turn comes, and
      the check of its consumers cannot succeed or looks at a consumer that does not quantize one of its arguments. */
  lemma FiresExactly(g: Graph, force: Force, p: nat)
    requires Traced(g) && IdentitiesAreUnary(g) && ForceTyped(g, force) && p < |g.nodes|
    ensures Fires(g, force, p) <==>
      var now := ForceBefore(g, force, p);
      ObservesOutput(g.nodes[p]) && |now[p]| > 0 && IsQuantizedArg(now[p][0])
      && (!CanPass(g, p)
          || exists c: nat, k: nat :: Edge(g, c, k) && g.nodes[c].qconfig.Some? && Inspects(g, p, c)
               && !IsQuantizedArg(now[c][k]))
  {
    SettledTyped(g, force, Firing(g, force, p));
    PassesExactly(g, ForceBefore(g, force, p), p);
  }

  /** Then its input was planned to be quantized, too. */
  lemma FiresOnlyIfPlanned(g: Graph, force: Force, p: nat)
    requires Traced(g) && IdentitiesAreUnary(g) && ForceTyped(g, force) && NonFloatKept(g, force)
    requires p < |g.nodes| && Fires(g, force, p)
    ensures |force[p]| > 0 && IsQuantizedArg(force[p][0])
  {
    SettledKeeps(g, force, Firing(g, force, p), p, 0);
  }

  lemma SettledKeeps(g: Graph, force: Force, fired: set<nat>, c: nat, k: nat)
    requires Traced(g) && IdentitiesAreUnary(g) && ForceTyped(g, force) && NonFloatKept(g, force)
    requires c < |g.nodes| && k < |g.nodes[c].inputs| && IsQuantizedArg(Settled(g, force, fired)[c][k])
    ensures IsQuantizedArg(force[c][k])
  {
  }

  /** Only float32 tensors are ever planned away from their original dtype. */
  ghost predicate NonFloatKept(g: Graph, force: Force)
    requires Traced(g) && ForceFits(g, force)
  {
    forall c: nat, k: nat | Edge(g, c, k) ::
      g.orig[Arg(g, c, k)] != Float32 ==> force[c][k] == Some(g.orig[Arg(g, c, k)])
  }

  ghost predicate Fired(g: Graph, m: Marks, p: nat)
  {
    p < |g.nodes| && ObservesOutput(g.nodes[p]) && p < |m.insertAfter| && |m.insertAfter[p]| > 0 && m.insertAfter[p][0]
  }

  /** An op inserts a fake quant only with its first result, with a quantized dtype there, and only if it is
      int8-only. */
  ghost predicate OutputsSettled(g: Graph, b: Marks)
    requires Traced(g) && Fits(g, b)
  {
    && (forall p, k :: 0 <= p < |g.nodes| && 0 <= k < |b.insertAfter[p]| && b.insertAfter[p][k] ==>
          k == 0 && ObservesOutput(g.nodes[p]))
    && (forall p: nat :: Fired(g, b, p) ==>
          (assert g.nodes[p].outputs[0] in g.nodes[p].outputs; Quantized(b.inf[g.nodes[p].outputs[0]])))
  }

  /** An int8-only op that quantizes its own input also has its output quantized, by itself or by all consumers. */
  ghost predicate Int8Closed(g: Graph, b: Marks, upTo: nat)
    requires Traced(g) && IdentitiesAreUnary(g) && Fits(g, b) && upTo <= |g.nodes|
  {
    forall p | 0 <= p < upTo && ObservesOutput(g.nodes[p]) && AllInspected(g, p) && !Fired(g, b, p)
               && |b.force[p]| > 0 && IsQuantizedArg(b.force[p][0]) ::
      Delivered(g, b.force, p)
  }

  // ----- Counting fake quants

  /** `t` is the first result of an activation of node `p`. */
  ghost predicate FirstResult(g: Graph, p: nat, t: TensorId)
    requires Traced(g)
  {
    p < |g.nodes| && exists a :: 0 <= a < |g.nodes[p].outputs| && g.nodes[p].outputs[a] == t
                                 && (assert SlotsFit(g.nodes[p]); g.nodes[p].slots[a] == 0)
  }

  lemma {:induction false} ReceivedFromRoot(g: Graph, scales: seq<set<TensorId>>, m: Marks, t: TensorId)
    requires Fits(g, m) && Traced(g) && Calibrated(g, scales) && IdentitiesAreUnary(g) && OutputsSettled(g, m)
    ensures Received(g, scales, m, t) ==
      if exists p: nat :: Fired(g, m, p) && FirstResult(g, p, Root(g, t)) then 1 else 0
    decreases t
  {
    if q: nat :| Produces(g, q, t) && PassThrough(g.nodes[q]) {
      ReceivedThrough(g, scales, m, t, q);
      ReceivedFromRoot(g, scales, m, g.nodes[q].inputs[0].value);
    } else {
      ReceivedHere(g, scales, m, t);
    }
  }

  /** An Identity hands its argument on. */
  lemma ReceivedThrough(g: Graph, scales: seq<set<TensorId>>, m: Marks, t: TensorId, q: nat)
    requires Fits(g, m) && Traced(g) && Calibrated(g, scales) && IdentitiesAreUnary(g)
    requires Produces(g, q, t) && PassThrough(g.nodes[q])
    ensures
      var s := g.nodes[q].inputs[0].value;
      s < t && Received(g, scales, m, t) == Received(g, scales, m, s) && Root(g, t) == Root(g, s)
  {
    assert g.nodes[q].inputs[0] in g.nodes[q].inputs;
    assert forall r: nat :: Produces(g, r, t) ==> r == q;
    assert exists a: nat :: a < |g.nodes[q].outputs| && g.nodes[q].outputs[a] == t;
    assert forall p: nat, a: nat | p < |g.nodes| && a < |g.nodes[p].outputs| && g.nodes[p].outputs[a] == t ::
        Produces(g, p, t);
  }

  lemma ReceivedHere(g: Graph, scales: seq<set<TensorId>>, m: Marks, t: TensorId)
    requires Fits(g, m) && Traced(g) && Calibrated(g, scales) && IdentitiesAreUnary(g) && OutputsSettled(g, m)
    requires forall q: nat :: Produces(g, q, t) ==> !PassThrough(g.nodes[q])
    ensures Received(g, scales, m, t) == if exists p: nat :: Fired(g, m, p) && FirstResult(g, p, t) then 1 else 0
  {
    forall p: nat, a: nat | p < |g.nodes| && a < |g.nodes[p].outputs| && g.nodes[p].outputs[a] == t
      ensures Produces(g, p, t)
      ensures OutputQuantized(g, scales, m, p, a) <==> Fired(g, m, p) && FirstResult(g, p, t)
    {
      QuantizedIfFirst(g, scales, m, p, a);
    }
    forall p: nat, q: nat | Produces(g, p, t) && Produces(g, q, t) ensures p == q {
    }
  }

  lemma QuantizedIfFirst(g: Graph, scales: seq<set<TensorId>>, m: Marks, p: nat, a: nat)
    requires Fits(g, m) && Traced(g) && Calibrated(g, scales) && OutputsSettled(g, m)
    requires p < |g.nodes| && a < |g.nodes[p].outputs|
    ensures OutputQuantized(g, scales, m, p, a) <==> Fired(g, m, p) && FirstResult(g, p, g.nodes[p].outputs[a])
  {
    assert SlotsFit(g.nodes[p]);
    if Fired(g, m, p) && g.nodes[p].slots[a] == 0 {
      var first := g.nodes[p].outputs[0];
      assert first in g.nodes[p].outputs;
      assert ObservedBy(g.nodes[p], first) && HasScale(g, g.nodes[p].owner, first);
    }
    if OutputQuantized(g, scales, m, p, a) {
      assert Fired(g, m, p);
    }
  }

  /** `t` carries a result of an activation of one of `ops` that is not its first one. */
  ghost predicate FromLaterResult(g: Graph, ops: set<nat>, t: TensorId)
    requires Traced(g) && IdentitiesAreUnary(g)
  {
    FromAny(g, ops, t) && forall p :: p in ops ==> !FirstResult(g, p, Root(g, t))
  }

  ghost predicate FromFirstResult(g: Graph, ops: set<nat>, t: TensorId)
    requires Traced(g) && IdentitiesAreUnary(g)
  {
    exists p :: p in ops && FirstResult(g, p, Root(g, t))
  }

  /** The ops that quantize their own outputs are exactly `ops`. */
  ghost predicate FiredOps(g: Graph, m: Marks, ops: set<nat>)
  {
    forall p: nat :: Fired(g, m, p) <==> p in ops
  }

  /** A consumer that planned to quantize its argument computes with one fake quant on any tensor `t` if `t` and the
      recorded argument agree about coming from an op that quantizes its own output. */
  lemma ArgumentQuantizedOnce(
      g: Graph, scales: seq<set<TensorId>>, force: Force, b: Marks, ops: set<nat>, c: nat, k: nat, t: TensorId)
    requires Traced(g) && IdentitiesAreUnary(g) && Calibrated(g, scales) && Fits(g, b) && ForceFits(g, force)
    requires b.force == Settled(g, force, ops) && FiredOps(g, b, ops) && OutputsSettled(g, b)
    requires Edge(g, c, k) && g.nodes[c].qconfig.Some? && Plans(g, scales, force, c, k)
    ensures AppliedTo(g, scales, b, c, k, t) == 1 <==>
      (FromFirstResult(g, ops, t) <==> FromAny(g, ops, Arg(g, c, k)))
  {
    ReceivedFromRoot(g, scales, b, t);
  }

  /** The consumer would quantize its argument itself under the plan `force`. */
  ghost predicate Plans(g: Graph, scales: seq<set<TensorId>>, force: Force, c: nat, k: nat)
    requires Traced(g) && ForceFits(g, force) && Edge(g, c, k) && g.nodes[c].owner < |scales|
  {
    Arg(g, c, k) in scales[g.nodes[c].owner] && g.orig[Arg(g, c, k)] == Float32 && IsQuantizedArg(force[c][k])
  }

  /** No recorded argument is fake-quantized twice, and a planned one misses its fake quant only if it carries a later
      result of an op that quantizes its own output. */
  lemma EdgeQuantizedOnce(
      g: Graph, scales: seq<set<TensorId>>, force: Force, b: Marks, ops: set<nat>, c: nat, k: nat)
    requires Traced(g) && IdentitiesAreUnary(g) && Calibrated(g, scales) && Fits(g, b) && ForceFits(g, force)
    requires b.force == Settled(g, force, ops) && FiredOps(g, b, ops) && OutputsSettled(g, b)
    requires Edge(g, c, k) && g.nodes[c].qconfig.Some?
    ensures Applied(g, scales, b, c, k) <= 1
    ensures Plans(g, scales, force, c, k) ==>
      (Applied(g, scales, b, c, k) == 1 <==> !FromLaterResult(g, ops, Arg(g, c, k)))
  {
    FirstIsAny(g, ops, Arg(g, c, k));
    NeverTwice(g, scales, force, b, ops, c, k);
    if Plans(g, scales, force, c, k) {
      ArgumentQuantizedOnce(g, scales, force, b, ops, c, k, Arg(g, c, k));
    }
  }

  lemma NeverTwice(
      g: Graph, scales: seq<set<TensorId>>, force: Force, b: Marks, ops: set<nat>, c: nat, k: nat)
    requires Traced(g) && IdentitiesAreUnary(g) && Calibrated(g, scales) && Fits(g, b) && ForceFits(g, force)
    requires b.force == Settled(g, force, ops) && FiredOps(g, b, ops) && OutputsSettled(g, b)
    requires Edge(g, c, k) && g.nodes[c].qconfig.Some?
    ensures Applied(g, scales, b, c, k) <= 1
  {
    ReceivedFromRoot(g, scales, b, Arg(g, c, k));
    FirstIsAny(g, ops, Arg(g, c, k));
  }

  lemma FirstIsAny(g: Graph, ops: set<nat>, t: TensorId)
    requires Traced(g) && IdentitiesAreUnary(g)
    ensures FromFirstResult(g, ops, t) ==> FromAny(g, ops, t)
    ensures FromLaterResult(g, ops, t) <==> FromAny(g, ops, t) && !FromFirstResult(g, ops, t)
  {
    forall p | p in ops && FirstResult(g, p, Root(g, t)) ensures Root(g, t) in g.nodes[p].outputs {
    }
  }

  /** The dtype a quantizable node plans for its argument `k` before any optimization (`_default_recipe_init`). */
  function Planned(g: Graph, scales: seq<set<TensorId>>, c: nat, k: nat): Option<DType>
    requires Traced(g) && c < |g.nodes| && k < |g.nodes[c].inputs| && g.nodes[c].owner < |scales|
  {
    var n := g.nodes[c];
    if n.inputs[k].None? then None
    else
      var t := Arg(g, c, k);
      if n.qconfig.Some? && g.orig[t] == Float32 && t in scales[n.owner] then
        Some(if n.kind in CONV_GEMM_FS && k == 1 then n.qconfig.value.weight else n.qconfig.value.activation)
      else Some(g.orig[t])
  }

  /** The plan after optimization: the reset arguments fall back to their original dtype. */
  function Optimized(g: Graph, scales: seq<set<TensorId>>, c: nat, k: nat): Option<DType>
    requires Traced(g) && c < |g.nodes| && k < |g.nodes[c].inputs| && g.nodes[c].owner < |scales|
  {
    var r := Resets(g, c);
    if r.Ok? && k in r.value then Some(g.orig[Arg(g, c, k)]) else Planned(g, scales, c, k)
  }

  /** The dtype a quantizable op wants for its argument `k`. */
  function WantedDtype(n: Node, k: nat): DType
    requires n.qconfig.Some?
  {
    if k == 1 && (n.kind.FunctionalConv? || n.kind.FunctionalLinear?) then n.qconfig.value.weight
    else n.qconfig.value.activation
  }

  /** The quantizable op `c` observes its float32 argument `k`, or another op of the module does, and the argument keeps
      its fake quant in the optimization step. */
  ghost predicate KeepsQuant(g: Graph, scales: seq<set<TensorId>>, c: nat, k: nat)
    requires Traced(g) && Edge(g, c, k) && g.nodes[c].owner < |scales|
  {
    && g.nodes[c].qconfig.Some? && HasScale(g, g.nodes[c].owner, Arg(g, c, k)) && g.orig[Arg(g, c, k)] == Float32
    && !Loses(g, c, k)
  }

  /** If no walk raises, exactly these arguments are planned to be quantized, with the dtype the op wants; all others
      have their original dtype. */
  lemma OptimizedExactly(g: Graph, scales: seq<set<TensorId>>, c: nat, k: nat)
    requires Traced(g) && IdentitiesAreUnary(g) && Calibrated(g, scales) && Edge(g, c, k) && Resets(g, c).Ok?
    ensures Optimized(g, scales, c, k) ==
      Some(if KeepsQuant(g, scales, c, k) then WantedDtype(g.nodes[c], k) else g.orig[Arg(g, c, k)])
  {
    ResetsExactly(g, c, k);
  }

  class RecipeState {
    const g: Graph
    const scales: seq<set<TensorId>>
    var inf: seq<DType>
    var force: Force
    var insertAfter: seq<seq<bool>>

    ghost predicate Valid()
      reads this
    {
      Traced(g) && IdentitiesAreUnary(g) && Calibrated(g, scales) && Fits(g, Snapshot())
    }

    ghost function Snapshot(): Marks
      reads this
    {
      Marks(inf, force, insertAfter)
    }

    /** The marks as tracing leaves them: original dtypes and no output fake quants. */
    constructor (g: Graph, scales: seq<set<TensorId>>)
      requires Traced(g) && IdentitiesAreUnary(g) && Calibrated(g, scales)
      ensures this.g == g && this.scales == scales && Valid()
      ensures inf == g.orig
      ensures forall c, k :: 0 <= c < |g.nodes| && 0 <= k < |g.nodes[c].inputs| ==>
        force[c][k] == if g.nodes[c].inputs[k].Some? then Some(g.orig[Arg(g, c, k)]) else None
      ensures forall c, k :: 0 <= c < |g.nodes| && 0 <= k < |insertAfter[c]| ==> !insertAfter[c][k]
    {
      this.g, this.scales := g, scales;
      inf := g.orig;
      force := seq(|g.nodes|, c requires 0 <= c < |g.nodes| =>
        seq(|g.nodes[c].inputs|, k requires 0 <= k < |g.nodes[c].inputs| =>
          if g.nodes[c].inputs[k].Some? then Some(g.orig[Arg(g, c, k)]) else None));
      insertAfter := seq(|g.nodes|, c requires 0 <= c < |g.nodes| => seq(|g.nodes[c].outputs|, _ => false));
    }

    /** `_default_recipe_init` */
    method Init()
      requires Valid()
      requires forall c, k :: 0 <= c < |g.nodes| && 0 <= k < |g.nodes[c].inputs| ==>
        force[c][k] == if g.nodes[c].inputs[k].Some? then Some(g.orig[Arg(g, c, k)]) else None
      modifies this`inf, this`force
      ensures Valid()
      ensures forall c, k :: 0 <= c < |g.nodes| && 0 <= k < |g.nodes[c].inputs| ==>
        force[c][k] == Planned(g, scales, c, k)
      ensures forall t :: 0 <= t < |inf| ==> inf[t] == old(inf[t]) || g.orig[t] == Float32
    {
      for c := 0 to |g.nodes|
        invariant Fits(g, Snapshot())
        invariant forall i, k :: 0 <= i < |g.nodes| && 0 <= k < |g.nodes[i].inputs| ==>
          force[i][k] == if i < c then Planned(g, scales, i, k)
                         else if g.nodes[i].inputs[k].Some? then Some(g.orig[Arg(g, i, k)]) else None
        invariant forall t :: 0 <= t < |inf| ==> inf[t] == old(inf[t]) || g.orig[t] == Float32
      {
        if g.nodes[c].qconfig.Some? {
          InitNode(c);
        }
      }
    }

    method InitNode(c: nat)
      requires Valid() && c < |g.nodes| && g.nodes[c].qconfig.Some?
      requires forall k :: 0 <= k < |g.nodes[c].inputs| ==>
        force[c][k] == if g.nodes[c].inputs[k].Some? then Some(g.orig[Arg(g, c, k)]) else None
      modifies this`inf, this`force
      ensures Valid()
      ensures forall k :: 0 <= k < |g.nodes[c].inputs| ==> force[c][k] == Planned(g, scales, c, k)
      ensures forall i :: 0 <= i < |g.nodes| && i != c ==> force[i] == old(force[i])
      ensures forall t :: 0 <= t < |inf| ==> inf[t] == old(inf[t]) || g.orig[t] == Float32
    {
      var n := g.nodes[c];
      for k := 0 to |n.inputs|
        invariant Fits(g, Snapshot())
        invariant forall j :: 0 <= j < |n.inputs| ==>
          force[c][j] == if j < k then Planned(g, scales, c, j)
                         else if n.inputs[j].Some? then Some(g.orig[Arg(g, c, j)]) else None
        invariant forall i :: 0 <= i < |g.nodes| && i != c ==> force[i] == old(force[i])
        invariant forall t :: 0 <= t < |inf| ==> inf[t] == old(inf[t]) || g.orig[t] == Float32
      {
        InitArg(c, k);
      }
    }

    /** The body of the loop for argument `k`. */
    method InitArg(c: nat, k: nat)
      requires Traced(g) && Fits(g, Snapshot()) && c < |g.nodes| && g.nodes[c].qconfig.Some?
      requires k < |g.nodes[c].inputs| && g.nodes[c].owner < |scales|
      requires force[c][k] == if g.nodes[c].inputs[k].Some? then Some(g.orig[Arg(g, c, k)]) else None
      modifies this`inf, this`force
      ensures Fits(g, Snapshot()) && force == old(force)[c := old(force)[c][k := Planned(g, scales, c, k)]]
      ensures forall t :: 0 <= t < |inf| ==> inf[t] == old(inf[t]) || g.orig[t] == Float32
    {
      var n := g.nodes[c];
      assert force[c][k := force[c][k]] == force[c] && force[c := force[c]] == force;
      if n.inputs[k].Some? {
        var t := Arg(g, c, k);
        if g.orig[t] == Float32 && t in scales[n.owner] {
          var qc := n.qconfig.value;
          WriteArg(c, k, if n.kind in CONV_GEMM_FS && k == 1 then qc.weight else qc.activation);
        }
      }
    }

    /** Writes `d` for argument `k` of `c`, in the shared info and in `c`'s own list. */
    method WriteArg(c: nat, k: nat, d: DType)
      requires Traced(g) && Fits(g, Snapshot()) && Edge(g, c, k)
      modifies this`inf, this`force
      ensures Fits(g, Snapshot())
      ensures inf == old(inf)[Arg(g, c, k) := d]
      ensures force == old(force)[c := old(force)[c][k := Some(d)]]
    {
      inf := inf[Arg(g, c, k) := d];
      force := force[c := force[c][k := Some(d)]];
    }

    /** The second step of `get_default_recipe`; `ok` is false when a fusion walk raises. */
    method Optimize() returns (ok: bool)
      requires Valid()
      requires forall c, k :: 0 <= c < |g.nodes| && 0 <= k < |g.nodes[c].inputs| ==>
        force[c][k] == Planned(g, scales, c, k)
      modifies this`inf, this`force
      ensures Valid()
      ensures ok <==> forall c :: 0 <= c < |g.nodes| ==> Resets(g, c).Ok?
      ensures ok ==> forall c, k :: 0 <= c < |g.nodes| && 0 <= k < |g.nodes[c].inputs| ==>
        force[c][k] == Optimized(g, scales, c, k)
      ensures ok ==> forall c: nat, k: nat | Edge(g, c, k) ::
        force[c][k] == Some(if KeepsQuant(g, scales, c, k) then WantedDtype(g.nodes[c], k) else g.orig[Arg(g, c, k)])
      ensures forall t :: 0 <= t < |inf| ==> inf[t] == old(inf[t]) || inf[t] == g.orig[t]
    {
      for c := 0 to |g.nodes|
        invariant Fits(g, Snapshot())
        invariant forall i :: 0 <= i < c ==> Resets(g, i).Ok?
        invariant forall i, k :: 0 <= i < |g.nodes| && 0 <= k < |g.nodes[i].inputs| ==>
          force[i][k] == if i < c then Optimized(g, scales, i, k) else Planned(g, scales, i, k)
        invariant forall t :: 0 <= t < |inf| ==> inf[t] == old(inf[t]) || inf[t] == g.orig[t]
      {
        var r := Resets(g, c);
        if r.Raised? {
          return false;
        }
        ResetArgs(c, r.value);
      }
      forall c: nat, k: nat | Edge(g, c, k)
        ensures Optimized(g, scales, c, k) ==
          Some(if KeepsQuant(g, scales, c, k) then WantedDtype(g.nodes[c], k) else g.orig[Arg(g, c, k)])
      {
        OptimizedExactly(g, scales, c, k);
      }
      return true;
    }

    /** Writes the original dtype to the given arguments of `c`, in the shared info and in `c`'s own list. */
    method ResetArgs(c: nat, resets: set<nat>)
      requires Valid() && c < |g.nodes|
      requires forall k :: k in resets ==> Edge(g, c, k)
      modifies this`inf, this`force
      ensures Valid()
      ensures forall k :: 0 <= k < |g.nodes[c].inputs| ==>
        force[c][k] == if k in resets then Some(g.orig[Arg(g, c, k)]) else old(force[c][k])
      ensures forall i :: 0 <= i < |g.nodes| && i != c ==> force[i] == old(force[i])
      ensures forall t :: 0 <= t < |inf| ==>
        inf[t] == if exists k :: k in resets && Arg(g, c, k) == t then g.orig[t] else old(inf[t])
    {
      for k := 0 to |g.nodes[c].inputs|
        invariant Fits(g, Snapshot())
        invariant forall j :: 0 <= j < |g.nodes[c].inputs| ==>
          force[c][j] == if j < k && j in resets then Some(g.orig[Arg(g, c, j)]) else old(force[c][j])
        invariant forall i :: 0 <= i < |g.nodes| && i != c ==> force[i] == old(force[i])
        invariant forall t :: 0 <= t < |inf| ==>
          inf[t] == if exists j :: 0 <= j < k && j in resets && Arg(g, c, j) == t then g.orig[t] else old(inf[t])
      {
        if k in resets {
          WriteArg(c, k, g.orig[Arg(g, c, k)]);
        }
      }
    }
  
    /** `_reset_post_node_input_infos`: consumers of `i`, also behind Identity nodes, stop quantizing its outputs. */
    method ResetPost(i: nat)
      requires Traced(g) && IdentitiesAreUnary(g) && Fits(g, Snapshot()) && i < |g.nodes|
      modifies this`force
      ensures Fits(g, Snapshot())
      ensures ResetBelow(g, old(force), force, i)
      decreases |g.orig| - Depth(g, i), 1
    {
      var post := Post(g, i);
      for j := 0 to |post|
        invariant Fits(g, Snapshot())
        invariant forall c: nat, k: nat | c < |g.nodes| && k < |g.nodes[c].inputs| ::
          force[c][k] == if Edge(g, c, k) && g.nodes[c].qconfig.Some? && ResetBy(g, i, j, c, Arg(g, c, k))
                         then Some(g.orig[Arg(g, c, k)]) else old(force[c][k])
      {
        ResetOne(i, j);
      }
      forall c: nat, k: nat | Edge(g, c, k) && g.nodes[c].qconfig.Some?
        ensures ResetBy(g, i, |post|, c, Arg(g, c, k)) <==> Downstream(g, i, Arg(g, c, k))
      {
        ResetByAll(g, i, c, Arg(g, c, k));
      }
    }

    /** The `j`-th consumer of `i`, or everything behind it if it is an Identity. */
    method ResetOne(i: nat, j: nat)
      requires Traced(g) && IdentitiesAreUnary(g) && Fits(g, Snapshot()) && i < |g.nodes| && j < |Post(g, i)|
      modifies this`force
      ensures Fits(g, Snapshot())
      ensures forall c: nat, k: nat | c < |g.nodes| && k < |g.nodes[c].inputs| ::
        force[c][k] == if Edge(g, c, k) && g.nodes[c].qconfig.Some? && ResetVia(g, i, j, c, Arg(g, c, k))
                       then Some(g.orig[Arg(g, c, k)]) else old(force[c][k])
      decreases |g.orig| - Depth(g, i), 0
    {
      var post := Post(g, i);
      assert post[j] in post;
      if g.nodes[post[j]].qconfig.Some? {
        ResetConsumer(post[j], g.nodes[i].outputs);
      } else if g.nodes[post[j]].kind.Identity? {
        ResetPost(post[j]);
      }
    }

    method ResetConsumer(c: nat, outputs: seq<TensorId>)
      requires Traced(g) && Fits(g, Snapshot()) && c < |g.nodes|
      modifies this`force
      ensures Fits(g, Snapshot())
      ensures forall k :: 0 <= k < |g.nodes[c].inputs| ==>
        force[c][k] == if Edge(g, c, k) && Arg(g, c, k) in outputs then Some(g.orig[Arg(g, c, k)]) else old(force[c][k])
      ensures forall x :: 0 <= x < |g.nodes| && x != c ==> force[x] == old(force[x])
    {
      for k := 0 to |g.nodes[c].inputs|
        invariant Fits(g, Snapshot())
        invariant forall j :: 0 <= j < |g.nodes[c].inputs| ==>
          force[c][j] == if j < k && Edge(g, c, j) && Arg(g, c, j) in outputs
                         then Some(g.orig[Arg(g, c, j)]) else old(force[c][j])
        invariant forall x :: 0 <= x < |g.nodes| && x != c ==> force[x] == old(force[x])
      {
        if Edge(g, c, k) && Arg(g, c, k) in outputs {
          force := force[c := force[c][k := Some(g.orig[Arg(g, c, k)])]];
        }
      }
    }
  
    /** `set_node_output_quantized`; `ok` is false when an int8-only node has no input or output to look at. */
    method SetNodeOutputQuantized() returns (ok: bool)
      requires Valid() && NonFloatKept(g, force)
      requires forall c, k :: 0 <= c < |g.nodes| && 0 <= k < |insertAfter[c]| ==> !insertAfter[c][k]
      modifies this`inf, this`force, this`insertAfter
      ensures Valid()
      ensures ok <==> AllHaveEnds(g, old(force), |g.nodes|)
      ensures ok ==> Progress(g, old(force), Snapshot(), |g.nodes|)
    {
      StartProgress(g, Snapshot());
      for p := 0 to |g.nodes|
        invariant Fits(g, Snapshot()) && Progress(g, old(force), Snapshot(), p)
        invariant AllHaveEnds(g, old(force), p)
      {
        ok := SettleNode(p, old(force));
        if !ok {
          return;
        }
      }
      return true;
    }

    /** The turn of node `p`. */
    method SettleNode(p: nat, ghost planned: Force) returns (ok: bool)
      requires Traced(g) && IdentitiesAreUnary(g) && ForceFits(g, planned) && Fits(g, Snapshot()) && p < |g.nodes|
      requires Progress(g, planned, Snapshot(), p) && AllHaveEnds(g, planned, p)
      modifies this`inf, this`force, this`insertAfter
      ensures Fits(g, Snapshot()) && (ok <==> HasEnds(g, planned, p)) && (ok <==> AllHaveEnds(g, planned, p + 1))
      ensures !ok ==> !AllHaveEnds(g, planned, |g.nodes|)
      ensures ok ==> Progress(g, planned, Snapshot(), p + 1)
    {
      NextHasEnds(g, planned, p);
      var n := g.nodes[p];
      assert Fires(g, planned, p) <==> MustFire(g, force, p);
      if ObservesOutput(n) {
        var postQuantized := AfterAllQuantized(g, force, p);
        if n.inputs == [] {
          return false;
        }
        if IsQuantizedArg(force[p][0]) && !postQuantized {
          if n.outputs == [] {
            return false;
          }
          Fire(p, planned);
          return true;
        }
      }
      StayKeepsProgress(g, planned, Snapshot(), p);
      return true;
    }

    /** Node `p` quantizes its first output itself, with the dtype of its input. */
    method Fire(p: nat, ghost planned: Force)
      requires Traced(g) && IdentitiesAreUnary(g) && ForceFits(g, planned) && Fits(g, Snapshot()) && p < |g.nodes|
      requires Progress(g, planned, Snapshot(), p) && MustFire(g, force, p)
      requires |g.nodes[p].outputs| > 0
      modifies this`inf, this`force, this`insertAfter
      ensures Fits(g, Snapshot()) && Progress(g, planned, Snapshot(), p + 1)
    {
      ghost var before := Snapshot();
      var t := g.nodes[p].outputs[0];
      assert t in g.nodes[p].outputs;
      inf := inf[t := force[p][0].value];
      insertAfter := insertAfter[p := insertAfter[p][0 := true]];
      ResetPost(p);
      FireKeepsProgress(g, planned, before, Snapshot(), p);
    }

    /** `get_default_recipe` on freshly traced nodes. */
    method GetDefaultRecipe() returns (ok: bool)
      requires Valid() && StaticQConfigs(g)
      requires forall c, k :: 0 <= c < |g.nodes| && 0 <= k < |g.nodes[c].inputs| ==>
        force[c][k] == if g.nodes[c].inputs[k].Some? then Some(g.orig[Arg(g, c, k)]) else None
      requires forall c, k :: 0 <= c < |g.nodes| && 0 <= k < |insertAfter[c]| ==> !insertAfter[c][k]
      modifies this`inf, this`force, this`insertAfter
      ensures Valid()
      ensures ok <==> Succeeds(g, scales)
      ensures ok ==> RecipeGuarantee(g, scales, Snapshot())
    {
      Init();
      ok := Optimize();
      if !ok {
        return false;
      }
      assert force == Plan(g, scales) by {
        assert forall c :: 0 <= c < |g.nodes| ==> force[c] == Plan(g, scales)[c];
      }
      PlanKeepsNonFloat(g, scales);
      ok := SetNodeOutputQuantized();
      if ok {
        RecipeHolds(g, scales, Snapshot());
      }
    }

    /** `get_input_args_quant_dequant_info`: one entry per argument, `None` for a non-tensor. */
    method ArgQuantInfos(c: nat) returns (needed: seq<Option<bool>>)
      requires Valid() && c < |g.nodes|
      ensures |needed| == |g.nodes[c].inputs|
      ensures forall k :: 0 <= k < |needed| ==>
        needed[k] == if Edge(g, c, k) then Some(ConsumerQuantizes(g, scales, Snapshot(), c, k)) else None
    {
      needed := [];
      for k := 0 to |g.nodes[c].inputs|
        invariant |needed| == k
        invariant forall j :: 0 <= j < k ==>
          needed[j] == if Edge(g, c, j) then Some(ConsumerQuantizes(g, scales, Snapshot(), c, j)) else None
      {
        if g.nodes[c].inputs[k].None? {
          needed := needed + [None];
        } else {
          var t := Arg(g, c, k);
          if t in scales[g.nodes[c].owner] {
            var d := Some(inf[t]);
            if force[c][k] != d {
              d := force[c][k];
            }
            needed := needed + [Some(g.orig[t] == Float32 && IsQuantizedArg(d))];
          } else {
            needed := needed + [Some(false)];
          }
        }
      }
    }
  }

  /** The loop invariant of pass 3 after the first `p` nodes. */
  ghost predicate Progress(g: Graph, planned: Force, m: Marks, p: nat)
    requires Traced(g) && IdentitiesAreUnary(g) && ForceFits(g, planned) && Fits(g, m) && p <= |g.nodes|
  {
    && NonFloatKept(g, m.force) && m.force == ForceBefore(g, planned, p) && FiredOps(g, m, Firing(g, planned, p))
    && OutputsSettled(g, m) && Int8Closed(g, m, p)
  }

  /** An int8-only op has an argument to look at, and a result to mark if it fires. */
  ghost predicate HasEnds(g: Graph, force: Force, p: nat)
    requires Traced(g) && IdentitiesAreUnary(g) && ForceFits(g, force) && p < |g.nodes|
  {
    ObservesOutput(g.nodes[p]) ==> g.nodes[p].inputs != [] && (Fires(g, force, p) ==> g.nodes[p].outputs != [])
  }

  ghost predicate AllHaveEnds(g: Graph, force: Force, n: nat)
    requires Traced(g) && IdentitiesAreUnary(g) && ForceFits(g, force) && n <= |g.nodes|
  {
    forall p :: 0 <= p < n ==> HasEnds(g, force, p)
  }

  lemma NextHasEnds(g: Graph, force: Force, p: nat)
    requires Traced(g) && IdentitiesAreUnary(g) && ForceFits(g, force) && p < |g.nodes| && AllHaveEnds(g, force, p)
    ensures AllHaveEnds(g, force, p + 1) <==> HasEnds(g, force, p)
    ensures !HasEnds(g, force, p) ==> !AllHaveEnds(g, force, |g.nodes|)
  {
  }

  lemma StartProgress(g: Graph, m: Marks)
    requires Traced(g) && IdentitiesAreUnary(g) && Fits(g, m) && NonFloatKept(g, m.force)
    requires forall c, k :: 0 <= c < |g.nodes| && 0 <= k < |m.insertAfter[c]| ==> !m.insertAfter[c][k]
    ensures Progress(g, m.force, m, 0)
  {
    NothingFired(g, m.force);
  }

  lemma NothingFired(g: Graph, force: Force)
    requires Traced(g) && IdentitiesAreUnary(g) && ForceFits(g, force)
    ensures Firing(g, force, 0) == {} && ForceBefore(g, force, 0) == force
  {
    var r := Settled(g, force, {});
    assert forall t: TensorId :: !FromAny(g, {}, t);
    forall c | 0 <= c < |g.nodes| ensures r[c] == force[c] {
    }
  }

  lemma NextFiring(g: Graph, force: Force, p: nat)
    requires Traced(g) && IdentitiesAreUnary(g) && ForceFits(g, force) && p < |g.nodes|
    ensures Firing(g, force, p + 1) == if Fires(g, force, p) then Firing(g, force, p) + {p} else Firing(g, force, p)
  {
  }

  /** An op that does not fire leaves everything as it is, and its output is delivered if its input is quantized. */
  lemma StayKeepsProgress(g: Graph, planned: Force, m: Marks, p: nat)
    requires Traced(g) && IdentitiesAreUnary(g) && ForceFits(g, planned) && Fits(g, m) && p < |g.nodes|
    requires Progress(g, planned, m, p) && !MustFire(g, m.force, p)
    ensures Progress(g, planned, m, p + 1)
  {
    NextFiring(g, planned, p);
    assert !Fires(g, planned, p);
    StayKeepsClosed(g, m, p);
  }

  lemma StayKeepsClosed(g: Graph, m: Marks, p: nat)
    requires Traced(g) && IdentitiesAreUnary(g) && Fits(g, m) && p < |g.nodes|
    requires Int8Closed(g, m, p) && !MustFire(g, m.force, p)
    ensures Int8Closed(g, m, p + 1)
  {
    if ObservesOutput(g.nodes[p]) && AllInspected(g, p) && |m.force[p]| > 0 && IsQuantizedArg(m.force[p][0]) {
      CheckedIsDelivered(g, m.force, p);
    }
  }

  lemma FireKeepsProgress(g: Graph, planned: Force, m: Marks, m': Marks, p: nat)
    requires Traced(g) && IdentitiesAreUnary(g) && ForceFits(g, planned) && Fits(g, m) && Fits(g, m')
    requires p < |g.nodes| && |g.nodes[p].outputs| > 0 && Progress(g, planned, m, p) && MustFire(g, m.force, p)
    requires (assert g.nodes[p].outputs[0] in g.nodes[p].outputs;
              m'.inf == m.inf[g.nodes[p].outputs[0] := m.force[p][0].value])
    requires m'.insertAfter == m.insertAfter[p := m.insertAfter[p][0 := true]]
    requires ResetBelow(g, m.force, m'.force, p)
    ensures Progress(g, planned, m', p + 1)
  {
    NextFiring(g, planned, p);
    FiredOneMore(g, m, m', p);
    SettleOneMore(g, planned, Firing(g, planned, p), m.force, m'.force, p);
    FireKeepsOutputs(g, m, m', p);
    FireKeepsClosed(g, m, m', p);
  }

  lemma FireKeepsOutputs(g: Graph, m: Marks, m': Marks, p: nat)
    requires Traced(g) && IdentitiesAreUnary(g) && Fits(g, m) && Fits(g, m')
    requires p < |g.nodes| && |g.nodes[p].outputs| > 0 && ObservesOutput(g.nodes[p])
    requires NonFloatKept(g, m.force) && OutputsSettled(g, m) && |m.force[p]| > 0 && IsQuantizedArg(m.force[p][0])
    requires (assert g.nodes[p].outputs[0] in g.nodes[p].outputs;
              m'.inf == m.inf[g.nodes[p].outputs[0] := m.force[p][0].value])
    requires m'.insertAfter == m.insertAfter[p := m.insertAfter[p][0 := true]]
    requires ResetBelow(g, m.force, m'.force, p)
    ensures OutputsSettled(g, m') && NonFloatKept(g, m'.force)
  {
    FiredOneMore(g, m, m', p);
    forall q: nat | Fired(g, m', q)
      ensures g.nodes[q].outputs[0] in g.nodes[q].outputs && Quantized(m'.inf[g.nodes[q].outputs[0]])
    {
    }
  }

  /** What `ResetPost` does below `p`. */
  ghost predicate ResetBelow(g: Graph, before: Force, after: Force, p: nat)
    requires Traced(g) && IdentitiesAreUnary(g) && ForceFits(g, before) && ForceFits(g, after) && p < |g.nodes|
  {
    forall c: nat, k: nat | c < |g.nodes| && k < |g.nodes[c].inputs| ::
      after[c][k] == if Edge(g, c, k) && g.nodes[c].qconfig.Some? && Downstream(g, p, Arg(g, c, k))
                     then Some(g.orig[Arg(g, c, k)]) else before[c][k]
  }

  lemma FiredOneMore(g: Graph, m: Marks, m': Marks, p: nat)
    requires Fits(g, m) && p < |g.nodes| && |g.nodes[p].outputs| > 0 && ObservesOutput(g.nodes[p])
    requires m'.insertAfter == m.insertAfter[p := m.insertAfter[p][0 := true]]
    ensures forall q: nat :: Fired(g, m', q) <==> Fired(g, m, q) || q == p
  {
  }

  lemma SettleOneMore(g: Graph, planned: Force, fired: set<nat>, before: Force, after: Force, p: nat)
    requires Traced(g) && IdentitiesAreUnary(g) && p < |g.nodes| && ObservesOutput(g.nodes[p])
    requires ForceFits(g, planned) && ForceFits(g, before) && ForceFits(g, after)
    requires before == Settled(g, planned, fired) && ResetBelow(g, before, after, p)
    ensures after == Settled(g, planned, fired + {p})
  {
    forall t: TensorId ensures FromAny(g, fired + {p}, t) <==> FromAny(g, fired, t) || Downstream(g, p, t) {
      DownstreamIsRoot(g, p, t);
    }
    var r := Settled(g, planned, fired + {p});
    forall c | 0 <= c < |g.nodes| ensures after[c] == r[c] {
      forall k | 0 <= k < |g.nodes[c].inputs| ensures after[c][k] == r[c][k] {
      }
    }
  }

  lemma FireKeepsClosed(g: Graph, m: Marks, m': Marks, p: nat)
    requires Traced(g) && IdentitiesAreUnary(g) && Fits(g, m) && Fits(g, m') && p < |g.nodes|
    requires ObservesOutput(g.nodes[p]) && NonFloatKept(g, m.force) && Int8Closed(g, m, p) && Fired(g, m', p)
    requires forall q: nat :: Fired(g, m', q) <==> Fired(g, m, q) || q == p
    requires ResetBelow(g, m.force, m'.force, p)
    ensures Int8Closed(g, m', p + 1)
  {
    forall q: nat | q < p + 1 && ObservesOutput(g.nodes[q]) && AllInspected(g, q) && !Fired(g, m', q)
                    && |m'.force[q]| > 0 && IsQuantizedArg(m'.force[q][0])
      ensures Delivered(g, m'.force, q)
    {
      assert q != p;
      assert IsQuantizedArg(m.force[q][0]);
      assert Delivered(g, m.force, q);
      forall c: nat, k: nat | Edge(g, c, k) && Downstream(g, q, Arg(g, c, k))
        ensures PassThrough(g.nodes[c]) || (g.nodes[c].qconfig.Some? && IsQuantizedArg(m'.force[c][k]))
      {
        DownstreamIsRoot(g, p, Arg(g, c, k));
        DownstreamIsRoot(g, q, Arg(g, c, k));
      }
    }
  }

  /** Static quantization: every qconfig quantizes activations and weights. */
  ghost predicate StaticQConfigs(g: Graph)
  {
    forall i :: 0 <= i < |g.nodes| && g.nodes[i].qconfig.Some? ==>
      Quantized(g.nodes[i].qconfig.value.activation) && Quantized(g.nodes[i].qconfig.value.weight)
  }

  /** Argument `k` of node `c` is an observed float32 tensor of a conv or gemm op. */
  ghost predicate ConvGemmInput(g: Graph, c: nat, k: nat)
    requires Traced(g)
  {
    Edge(g, c, k) && ObservesInput(g.nodes[c], k) && g.nodes[c].kind in CONV_GEMM_OPS && g.orig[Arg(g, c, k)] == Float32
  }

  /** The plan after optimization, for all arguments. */
  function Plan(g: Graph, scales: seq<set<TensorId>>): (force: Force)
    requires Traced(g) && forall i :: 0 <= i < |g.nodes| ==> g.nodes[i].owner < |scales|
    ensures |force| == |g.nodes| && forall c :: 0 <= c < |g.nodes| ==> |force[c]| == |g.nodes[c].inputs|
  {
    seq(|g.nodes|, c requires 0 <= c < |g.nodes| =>
      seq(|g.nodes[c].inputs|, k requires 0 <= k < |g.nodes[c].inputs| => Optimized(g, scales, c, k)))
  }

  lemma PlanKeepsNonFloat(g: Graph, scales: seq<set<TensorId>>)
    requires Traced(g) && forall i :: 0 <= i < |g.nodes| ==> g.nodes[i].owner < |scales|
    ensures NonFloatKept(g, Plan(g, scales)) && ForceTyped(g, Plan(g, scales))
  {
  }

  /** The ops that quantize their own outputs. */
  ghost function SelfQuantizing(g: Graph, scales: seq<set<TensorId>>): set<nat>
    requires Traced(g) && IdentitiesAreUnary(g) && Calibrated(g, scales)
  {
    Firing(g, Plan(g, scales), |g.nodes|)
  }

  /** No op raises in the second step, and none in the third. */
  ghost predicate Succeeds(g: Graph, scales: seq<set<TensorId>>)
    requires Traced(g) && IdentitiesAreUnary(g) && Calibrated(g, scales)
  {
    (forall c :: 0 <= c < |g.nodes| ==> Resets(g, c).Ok?) && AllHaveEnds(g, Plan(g, scales), |g.nodes|)
  }

  /** Ops have the tensor arguments that the recipe indexes, and int8-only ops have results. */
  ghost predicate OpsComplete(g: Graph)
  {
    forall c :: 0 <= c < |g.nodes| ==>
      ArgsPresent(g.nodes[c]) && (ObservesOutput(g.nodes[c]) ==> g.nodes[c].outputs != [])
  }

  /** Then the recipe succeeds exactly if no fusion walk is blocked; without a mirrored swish none is. */
  lemma SucceedsExactly(g: Graph, scales: seq<set<TensorId>>)
    requires Traced(g) && IdentitiesAreUnary(g) && Calibrated(g, scales) && OpsComplete(g)
    ensures Succeeds(g, scales) <==> forall c :: 0 <= c < |g.nodes| ==> !Blocked(g, c)
    ensures NoMirroredSwish(g) ==> Succeeds(g, scales)
  {
    EndsComplete(g, Plan(g, scales));
    WalksExactly(g);
  }

  lemma EndsComplete(g: Graph, force: Force)
    requires Traced(g) && IdentitiesAreUnary(g) && ForceFits(g, force) && OpsComplete(g)
    ensures AllHaveEnds(g, force, |g.nodes|)
  {
    forall p | 0 <= p < |g.nodes| ensures HasEnds(g, force, p) {
      assert ArgsPresent(g.nodes[p]);
    }
  }

  /** What `get_default_recipe` guarantees about the converted model. */
  ghost predicate RecipeGuarantee(g: Graph, scales: seq<set<TensorId>>, m: Marks)
    requires Traced(g) && IdentitiesAreUnary(g) && Calibrated(g, scales) && Fits(g, m)
  {
    // exactly these ops quantize their own outputs
    && FiredOps(g, m, SelfQuantizing(g, scales))
    // a quantizable op quantizes exactly those arguments that keep their fake quant in the optimization step and come
    // from none of these ops
    && (forall c: nat, k: nat | Edge(g, c, k) && g.nodes[c].qconfig.Some? ::
          && (ConsumerQuantizes(g, scales, m, c, k) <==>
              KeepsQuant(g, scales, c, k) && !FromAny(g, SelfQuantizing(g, scales), Arg(g, c, k)))
          && (ConsumerQuantizes(g, scales, m, c, k) ==> m.force[c][k] == Some(WantedDtype(g.nodes[c], k))))
    // no argument of a quantizable op is fake-quantized twice
    && (forall c: nat, k: nat | Edge(g, c, k) && g.nodes[c].qconfig.Some? :: Applied(g, scales, m, c, k) <= 1)
    // a conv or gemm argument is fake-quantized exactly once, unless it is a later result of one of these ops
    && (forall c: nat, k: nat | ConvGemmInput(g, c, k) ::
          Applied(g, scales, m, c, k) == 1 <==> !FromLaterResult(g, SelfQuantizing(g, scales), Arg(g, c, k)))
    // whatever tensor a conv or gemm gets in a later activation, it is fake-quantized exactly once if and only if this
    // tensor and the recorded argument agree about coming from one of these ops
    && (forall c: nat, k: nat, t: TensorId | ConvGemmInput(g, c, k) ::
          AppliedTo(g, scales, m, c, k, t) == 1 <==>
            (FromFirstResult(g, SelfQuantizing(g, scales), t) <==>
             FromAny(g, SelfQuantizing(g, scales), Arg(g, c, k))))
    // an op that cannot leave int8 has a quantized output whenever it quantizes its input
    && Int8Closed(g, m, |g.nodes|)
  }

  lemma QuantizesExactly(g: Graph, scales: seq<set<TensorId>>, b: Marks, ops: set<nat>, c: nat, k: nat)
    requires Traced(g) && IdentitiesAreUnary(g) && Calibrated(g, scales) && StaticQConfigs(g) && Fits(g, b)
    requires b.force == Settled(g, Plan(g, scales), ops) && Edge(g, c, k) && g.nodes[c].qconfig.Some?
    requires Resets(g, c).Ok?
    ensures ConsumerQuantizes(g, scales, b, c, k) <==> KeepsQuant(g, scales, c, k) && !FromAny(g, ops, Arg(g, c, k))
    ensures ConsumerQuantizes(g, scales, b, c, k) ==> b.force[c][k] == Some(WantedDtype(g.nodes[c], k))
  {
    OptimizedExactly(g, scales, c, k);
  }

  lemma RecipeHolds(g: Graph, scales: seq<set<TensorId>>, b: Marks)
    requires Traced(g) && IdentitiesAreUnary(g) && Calibrated(g, scales) && StaticQConfigs(g) && Fits(g, b)
    requires b.force == ForceBefore(g, Plan(g, scales), |g.nodes|) && FiredOps(g, b, SelfQuantizing(g, scales))
    requires OutputsSettled(g, b) && Int8Closed(g, b, |g.nodes|) && Succeeds(g, scales)
    ensures RecipeGuarantee(g, scales, b)
  {
    var force, ops := Plan(g, scales), SelfQuantizing(g, scales);
    forall c: nat, k: nat | Edge(g, c, k) && g.nodes[c].qconfig.Some?
      ensures ConsumerQuantizes(g, scales, b, c, k) <==>
        KeepsQuant(g, scales, c, k) && !FromAny(g, ops, Arg(g, c, k))
      ensures ConsumerQuantizes(g, scales, b, c, k) ==> b.force[c][k] == Some(WantedDtype(g.nodes[c], k))
    {
      QuantizesExactly(g, scales, b, ops, c, k);
    }
    forall c: nat, k: nat | Edge(g, c, k) && g.nodes[c].qconfig.Some?
      ensures Applied(g, scales, b, c, k) <= 1
    {
      EdgeQuantizedOnce(g, scales, force, b, ops, c, k);
    }
    forall c: nat, k: nat | ConvGemmInput(g, c, k)
      ensures Applied(g, scales, b, c, k) == 1 <==> !FromLaterResult(g, ops, Arg(g, c, k))
    {
      ConvGemmPlans(g, scales, c, k);
      EdgeQuantizedOnce(g, scales, force, b, ops, c, k);
    }
    forall c: nat, k: nat, t: TensorId | ConvGemmInput(g, c, k)
      ensures AppliedTo(g, scales, b, c, k, t) == 1 <==>
        (FromFirstResult(g, ops, t) <==> FromAny(g, ops, Arg(g, c, k)))
    {
      ConvGemmPlans(g, scales, c, k);
      ArgumentQuantizedOnce(g, scales, force, b, ops, c, k, t);
    }
  }

  /** The optimization never touches a conv or gemm argument. */
  lemma ConvGemmPlans(g: Graph, scales: seq<set<TensorId>>, c: nat, k: nat)
    requires Traced(g) && Calibrated(g, scales) && StaticQConfigs(g) && ConvGemmInput(g, c, k)
    ensures Plans(g, scales, Plan(g, scales), c, k)
  {
    assert ObservedBy(g.nodes[c], Arg(g, c, k));
    assert HasScale(g, g.nodes[c].owner, Arg(g, c, k));
  }

  /** `t` is a result of an activation of an int8-only op that is not its first one; this can be read off the traced
      graph. */
  ghost predicate LaterResult(g: Graph, t: TensorId)
    requires Traced(g)
  {
    exists p: nat, a: nat :: p < |g.nodes| && ObservesOutput(g.nodes[p]) && a < |g.nodes[p].outputs|
      && g.nodes[p].outputs[a] == t && (assert SlotsFit(g.nodes[p]); g.nodes[p].slots[a] > 0)
  }

  /** An observed float32 input of a conv or gemm op that is no later result is fake-quantized exactly once. */
  lemma ExactlyOnce(g: Graph, scales: seq<set<TensorId>>, m: Marks, c: nat, k: nat)
    requires Traced(g) && IdentitiesAreUnary(g) && Calibrated(g, scales) && Fits(g, m) && RecipeGuarantee(g, scales, m)
    requires ConvGemmInput(g, c, k) && !LaterResult(g, Root(g, Arg(g, c, k)))
    ensures Applied(g, scales, m, c, k) == 1
  {
    var ops, t := SelfQuantizing(g, scales), Root(g, Arg(g, c, k));
    if p :| p in ops && p < |g.nodes| && t in g.nodes[p].outputs {
      var a :| 0 <= a < |g.nodes[p].outputs| && g.nodes[p].outputs[a] == t;
      assert SlotsFit(g.nodes[p]) && Fired(g, m, p);
      assert FirstResult(g, p, t);
    }
  }

  /** What PyTorch's ops return: pooling, relu and flatten return one float32 tensor, and pooling perhaps integer
      indices behind it; an Identity returns what it gets. */
  ghost predicate TorchResults(g: Graph)
    requires Traced(g)
  {
    && (forall p, a :: 0 <= p < |g.nodes| && ObservesOutput(g.nodes[p]) && 0 <= a < |g.nodes[p].outputs|
                       && (assert SlotsFit(g.nodes[p]); g.nodes[p].slots[a] > 0) ==>
          (assert g.nodes[p].outputs[a] in g.nodes[p].outputs; g.orig[g.nodes[p].outputs[a]] != Float32))
    && (forall p, t :: 0 <= p < |g.nodes| && PassThrough(g.nodes[p]) && t in g.nodes[p].outputs ==>
          forall u :: Some(u) in g.nodes[p].inputs ==> g.orig[u] == g.orig[t])
  }

  lemma {:induction false} RootDtype(g: Graph, t: TensorId)
    requires Traced(g) && IdentitiesAreUnary(g) && TorchResults(g) && t < |g.orig|
    ensures Root(g, t) < |g.orig| && g.orig[Root(g, t)] == g.orig[t]
    decreases t
  {
    if p: nat :| Produces(g, p, t) && PassThrough(g.nodes[p]) {
      assert g.nodes[p].inputs[0] in g.nodes[p].inputs;
      assert forall r: nat :: Produces(g, r, t) ==> r == p;
      RootDtype(g, g.nodes[p].inputs[0].value);
    }
  }

  /** So every observed float32 input of every conv or gemm op is fake-quantized exactly once, also if a pooling op
      returns indices and if modules are activated several times. */
  lemma AlwaysExactlyOnce(g: Graph, scales: seq<set<TensorId>>, m: Marks, c: nat, k: nat)
    requires Traced(g) && IdentitiesAreUnary(g) && Calibrated(g, scales) && Fits(g, m) && RecipeGuarantee(g, scales, m)
    requires TorchResults(g) && ConvGemmInput(g, c, k)
    ensures Applied(g, scales, m, c, k) == 1
  {
    RootDtype(g, Arg(g, c, k));
    ExactlyOnce(g, scales, m, c, k);
  }

  /** All consumers together see exactly the tensors downstream. */
  lemma ResetByAll(g: Graph, i: nat, c: nat, t: TensorId)
    requires Traced(g) && IdentitiesAreUnary(g) && i < |g.nodes| && c < |g.nodes| && Some(t) in g.nodes[c].inputs
    ensures ResetBy(g, i, |Post(g, i)|, c, t) <==> Downstream(g, i, t)
  {
    DownstreamByPost(g, i, t);
    if t in g.nodes[i].outputs {
      assert Feeds(g, i, c);
      var l :| 0 <= l < |Post(g, i)| && Post(g, i)[l] == c;
      assert ResetVia(g, i, l, c, t);
    }
    if m :| m in Post(g, i) && PassThrough(g.nodes[m]) && Downstream(g, m, t) {
      var l :| 0 <= l < |Post(g, i)| && Post(g, i)[l] == m;
      assert ResetVia(g, i, l, c, t);
    }
  }

  /** The part of the reset that the first `j` consumers of node `i` have seen. */
  ghost predicate ResetBy(g: Graph, i: nat, j: nat, c: nat, t: TensorId)
    requires Traced(g) && IdentitiesAreUnary(g) && i < |g.nodes| && j <= |Post(g, i)|
  {
    exists l :: 0 <= l < j && ResetVia(g, i, l, c, t)
  }

  /** The part that the `l`-th consumer sees. */
  ghost predicate ResetVia(g: Graph, i: nat, l: nat, c: nat, t: TensorId)
    requires Traced(g) && IdentitiesAreUnary(g) && i < |g.nodes| && l < |Post(g, i)|
  {
    assert Post(g, i)[l] in Post(g, i);
    var m := Post(g, i)[l];
    (m == c && t in g.nodes[i].outputs) || (PassThrough(g.nodes[m]) && Downstream(g, m, t))
  }
}
