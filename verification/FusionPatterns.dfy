/**
 The pure graph walks of quantization/_recipe.py that look for fusion partners and for
 quantizable producers. Every walk follows `pre_nodes` upwards, so it terminates on any
 traced graph. `Raised` stands for the exceptions the walks can raise.
 */
module FusionPatterns {
  import opened Basics
  import opened QuantGraph

  function KindOf(g: Graph, i: nat): OpType
    requires i < |g.nodes|
  {
    g.nodes[i].kind
  }

  /** A multiplication whose first producer is a sigmoid and whose second is a conv or gemm: for this operand order
      the source reads an attribute that nodes do not have. */
  predicate MirroredSwish(g: Graph, i: nat)
    requires i < |g.nodes|
  {
    KindOf(g, i).Mul? && |Pre(g, i)| == 2
    && KindOf(g, Pre(g, i)[0]).Sigmoid? && KindOf(g, Pre(g, i)[1]) in CONV_GEMM_OPS
  }

  /** `i` multiplies a conv or gemm with its own sigmoid, in this order, and both feed nothing else. */
  predicate CompletesSwish(g: Graph, i: nat)
    requires i < |g.nodes|
  {
    KindOf(g, i).Mul? && |Pre(g, i)| == 2 &&
    var p, s := Pre(g, i)[0], Pre(g, i)[1];
    KindOf(g, p) in CONV_GEMM_OPS && KindOf(g, s).Sigmoid? && |Post(g, p)| == 2 && |Post(g, s)| == 1 && s in Post(g, p)
  }

  /** `_find_conv_or_gemm_swish_fusion_node` */
  function FindSwish(g: Graph, i: nat): (r: Try<Option<nat>>)
    requires i < |g.nodes|
    ensures r.Raised? <==> MirroredSwish(g, i)
    ensures r.Ok? ==> r.value == if CompletesSwish(g, i) then Some(Pre(g, i)[0]) else None
  {
    var pre := Pre(g, i);
    if KindOf(g, i).Mul? && |pre| == 2 then
      if KindOf(g, pre[0]) in CONV_GEMM_OPS && KindOf(g, pre[1]).Sigmoid? then
        if |Post(g, pre[0])| == 2 && |Post(g, pre[1])| == 1 && pre[1] in Post(g, pre[0]) then Ok(Some(pre[0]))
        else Ok(None)
      else if KindOf(g, pre[1]) in CONV_GEMM_OPS && KindOf(g, pre[0]).Sigmoid? then Raised
      else Ok(None)
    else Ok(None)
  }

  /** `i`'s first producer is one of `ops`. */
  predicate FirstProducerIn(g: Graph, i: nat, ops: set<OpType>)
    requires i < |g.nodes|
  {
    Pre(g, i) != [] && KindOf(g, Pre(g, i)[0]) in ops
  }

  /** The op at which the walk through fusable element-wise ops and Identity nodes above `i` ends. */
  function EltwiseTop(g: Graph, i: nat, ops: set<OpType>): (e: nat)
    requires Traced(g) && i < |g.nodes|
    ensures e < |g.nodes| && Depth(g, e) <= Depth(g, i)
    decreases Depth(g, i)
  {
    var pre := Pre(g, i);
    if pre == [] || FirstProducerIn(g, i, ops) then i
    else
      var p := pre[0];
      if KindOf(g, p) in {Identity} + ELT_WISE_Q_OPS + ELT_WISE_NOQ_OPS && |Post(g, p)| == 1 && Pre(g, p) != [] then
        EltwiseTop(g, Pre(g, p)[0], ops)
      else i
  }

  /** `e`'s first producer is one of `ops` but has other consumers too, and `e` feeds a mirrored swish. */
  predicate TopRaises(g: Graph, e: nat, ops: set<OpType>)
    requires e < |g.nodes|
  {
    FirstProducerIn(g, e, ops) && |Post(g, Pre(g, e)[0])| != 1 && |Post(g, e)| == 1 && MirroredSwish(g, Post(g, e)[0])
  }

  /** `e`'s first producer is one of `ops` and feeds nothing else, or completes a swish. */
  predicate TopFuses(g: Graph, e: nat, ops: set<OpType>)
    requires e < |g.nodes|
  {
    FirstProducerIn(g, e, ops)
    && (|Post(g, Pre(g, e)[0])| == 1 || (|Post(g, e)| == 1 && CompletesSwish(g, Post(g, e)[0])))
  }

  /** What the walk answers where it ends. */
  function FusedAt(g: Graph, e: nat, ops: set<OpType>): (r: Try<Option<nat>>)
    requires e < |g.nodes|
    ensures r.Raised? <==> TopRaises(g, e, ops)
    ensures r.Ok? ==> r.value == if TopFuses(g, e, ops) then Some(Pre(g, e)[0]) else None
  {
    if !FirstProducerIn(g, e, ops) then Ok(None)
    else
      var p := Pre(g, e)[0];
      if |Post(g, p)| == 1 then Ok(Some(p))
      else if |Post(g, e)| == 1 then
        var swish :- FindSwish(g, Post(g, e)[0]);
        Ok(if swish.Some? then Some(p) else None)
      else Ok(None)
  }

  /** `_find_fused_node_with_cur_elt_wise` */
  function FindFusedEltwise(g: Graph, i: nat, ops: set<OpType>): (r: Try<Option<nat>>)
    requires Traced(g) && i < |g.nodes|
    ensures r == FusedAt(g, EltwiseTop(g, i, ops), ops)
    ensures r.Ok? && r.value.Some? ==> r.value.value < |g.nodes|
    decreases Depth(g, i)
  {
    var pre := Pre(g, i);
    if pre == [] || KindOf(g, pre[0]) in ops then FusedAt(g, i, ops)
    else
      var p := pre[0];
      if KindOf(g, p) in {Identity} + ELT_WISE_Q_OPS + ELT_WISE_NOQ_OPS && |Post(g, p)| == 1 && Pre(g, p) != [] then
        FindFusedEltwise(g, Pre(g, p)[0], ops)
      else Ok(None)
  }

  /** `p` feeds one op only and is a quantizable op of `ops`, or an Identity behind such an op. */
  predicate LeadsTo(g: Graph, p: nat, ops: set<OpType>)
    requires Traced(g) && p < |g.nodes|
    decreases Depth(g, p)
  {
    |Post(g, p)| == 1 &&
    ((KindOf(g, p) in ops && g.nodes[p].qconfig.Some?)
     || (KindOf(g, p).Identity? && Pre(g, p) != []
         && LeadsTo(g, Pre(g, p)[0], ops)))
  }

  /** A producer that ends the search for a fusable operand of an addition, whatever it leads to. */
  predicate Decides(g: Graph, p: nat)
    requires p < |g.nodes|
  {
    KindOf(g, p).Identity? && |Post(g, p)| == 1 && Pre(g, p) != []
  }

  /** `_find_fused_node_with_cur_add`: the direct producer, possibly an Identity, that leads to the fused op. */
  function FindFusedAdd(g: Graph, i: nat, ops: set<OpType>): (r: Option<nat>)
    requires Traced(g) && i < |g.nodes|
    ensures r.Some? ==> r.value < |g.nodes| && Feeds(g, r.value, i)
    decreases Depth(g, i)
  {
    var pre := Pre(g, i);
    if pre == [] then None
    else
      if KindOf(g, pre[0]) in ops && |Post(g, pre[0])| == 1 && g.nodes[pre[0]].qconfig.Some? then Some(pre[0])
      else if KindOf(g, pre[0]).Identity? && |Post(g, pre[0])| == 1 && Pre(g, pre[0]) != [] then
        if FindFusedAdd(g, pre[0], ops).Some? then Some(pre[0]) else None
      else if |pre| == 2 then
        if KindOf(g, pre[1]) in ops && |Post(g, pre[1])| == 1 && g.nodes[pre[1]].qconfig.Some? then Some(pre[1])
        else if KindOf(g, pre[1]).Identity? && |Post(g, pre[1])| == 1 && Pre(g, pre[1]) != [] then
          if FindFusedAdd(g, pre[1], ops).Some? then Some(pre[1]) else None
        else None
      else None
  }

  /** It finds the first of two producers that leads to one of `ops`; a first producer that is an Identity decides
      alone. */
  lemma {:induction false} FusedAddExactly(g: Graph, i: nat, ops: set<OpType>)
    requires Traced(g) && IdentitiesAreUnary(g) && i < |g.nodes| && Identity !in ops
    ensures FindFusedAdd(g, i, ops) ==
      if Pre(g, i) != [] && LeadsTo(g, Pre(g, i)[0], ops) then Some(Pre(g, i)[0])
      else if |Pre(g, i)| == 2 && !Decides(g, Pre(g, i)[0]) && LeadsTo(g, Pre(g, i)[1], ops) then Some(Pre(g, i)[1])
      else None
    decreases Depth(g, i)
  {
    var pre := Pre(g, i);
    if pre != [] && Decides(g, pre[0]) {
      IdentityLeads(g, pre[0], ops);
    } else if |pre| == 2 && Decides(g, pre[1]) {
      IdentityLeads(g, pre[1], ops);
    }
  }

  lemma {:induction false} IdentityLeads(g: Graph, p: nat, ops: set<OpType>)
    requires Traced(g) && IdentitiesAreUnary(g) && p < |g.nodes| && Identity !in ops && Decides(g, p)
    ensures FindFusedAdd(g, p, ops).Some? <==> LeadsTo(g, Pre(g, p)[0], ops)
    decreases Depth(g, p)
  {
    UnaryIdentity(g, p);
    if Decides(g, Pre(g, p)[0]) {
      IdentityLeads(g, Pre(g, p)[0], ops);
    }
  }

  /** An Identity has at most one producer. */
  lemma UnaryIdentity(g: Graph, i: nat)
    requires Traced(g) && IdentitiesAreUnary(g) && i < |g.nodes| && KindOf(g, i).Identity?
    ensures |Pre(g, i)| <= 1
  {
    SingleInputUpTo(g, i, |g.nodes|);
  }

  lemma {:induction false} SingleInputUpTo(g: Graph, i: nat, n: nat)
    requires Traced(g) && i < |g.nodes| && |g.nodes[i].inputs| <= 1 && n <= |g.nodes|
    ensures |PreUpTo(g, i, n)| <= 1
  {
    if n > 0 {
      SingleInputUpTo(g, i, n - 1);
      var r := PreUpTo(g, i, n - 1);
      if r != [] {
        assert r[0] in r;
        var t :| t in g.nodes[r[0]].outputs && Some(t) in g.nodes[i].inputs;
        assert g.nodes[i].inputs == [Some(t)];
        assert t !in g.nodes[n - 1].outputs;
        assert n - 1 !in InputMatches(g.nodes[i].inputs, g.nodes[n - 1].outputs, n - 1);
      }
    }
  }

  function SwishQuantizable(g: Graph, i: nat): (r: Try<bool>)
    requires i < |g.nodes|
    ensures r.Raised? <==> MirroredSwish(g, i)
    ensures r.Ok? ==> (r.value <==> CompletesSwish(g, i) && g.nodes[Pre(g, i)[0]].qconfig.Some?)
  {
    var swish :- FindSwish(g, i);
    Ok(swish.Some? && g.nodes[swish.value].qconfig.Some?)
  }

  const FUSABLE_OPS: set<OpType> :=
    {FunctionalConv, ConvModule, FunctionalLinear, LinearModule, MatMul, Add, AddInplace}

  /** The op that a chain of Identity nodes ending at `i` starts from. */
  function BehindIdentities(g: Graph, i: nat): (r: nat)
    requires Traced(g) && i < |g.nodes|
    ensures r < |g.nodes| && (KindOf(g, r).Identity? ==> Pre(g, r) == [])
    decreases Depth(g, i)
  {
    if !KindOf(g, i).Identity? || Pre(g, i) == [] then i
    else
      BehindIdentities(g, Pre(g, i)[0])
  }

  /** An unquantized op that is a mirrored swish, or an element-wise op whose walk ends at one. */
  predicate HereRaises(g: Graph, i: nat)
    requires Traced(g) && i < |g.nodes|
  {
    g.nodes[i].qconfig.None?
    && if KindOf(g, i) in ELT_WISE_NOQ_OPS then TopRaises(g, EltwiseTop(g, i, FUSABLE_OPS), FUSABLE_OPS)
       else MirroredSwish(g, i)
  }

  /** `_check_has_quantizable_node_before_node` for an unquantized element-wise op. */
  function EltwiseHere(g: Graph, i: nat): (r: Try<bool>)
    requires Traced(g) && i < |g.nodes| && KindOf(g, i) in ELT_WISE_NOQ_OPS
    ensures r.Raised? <==> TopRaises(g, EltwiseTop(g, i, FUSABLE_OPS), FUSABLE_OPS)
  {
    assert !KindOf(g, i).Mul?;
    var fused :- FindFusedEltwise(g, i, FUSABLE_OPS);
    if fused.None? then SwishQuantizable(g, i) else Ok(PartnerAnswer(g, i, fused.value))
  }

  /** What the op `p` that an element-wise op `i` fuses with says about `i`. */
  predicate PartnerAnswer(g: Graph, i: nat, p: nat)
    requires Traced(g) && i < |g.nodes| && p < |g.nodes|
  {
    if KindOf(g, p) in ADD_INPLACE_OPS then
      var add := FindFusedAdd(g, i, CONV_GEMM_OPS);
      add.Some? && g.nodes[add.value].qconfig.Some?
    else g.nodes[p].qconfig.Some?
  }

  /** `_check_has_quantizable_node_before_node` for an op that is no Identity. */
  function QuantizableHere(g: Graph, i: nat): (r: Try<bool>)
    requires Traced(g) && i < |g.nodes|
    ensures r.Raised? <==> HereRaises(g, i)
    ensures g.nodes[i].qconfig.Some? ==> r == Ok(true)
  {
    if g.nodes[i].qconfig.Some? then Ok(true)
    else if Pre(g, i) == [] then Ok(false)
    else if KindOf(g, i) in ELT_WISE_NOQ_OPS then EltwiseHere(g, i)
    else if KindOf(g, i) in ADD_INPLACE_OPS then
      var add := FindFusedAdd(g, i, CONV_GEMM_OPS);
      if add.Some? && g.nodes[add.value].qconfig.Some? then Ok(true) else SwishQuantizable(g, i)
    else SwishQuantizable(g, i)
  }

  /** `_check_has_quantizable_node_before_node`: raises exactly if the op behind the Identity nodes does. */
  function QuantizableBefore(g: Graph, i: nat): (r: Try<bool>)
    requires Traced(g) && i < |g.nodes|
    ensures r == if KindOf(g, BehindIdentities(g, i)).Identity? then Ok(false)
                 else QuantizableHere(g, BehindIdentities(g, i))
    decreases Depth(g, i)
  {
    var pre := Pre(g, i);
    if KindOf(g, i).Identity? then
      if pre == [] then Ok(false)
      else
        QuantizableBefore(g, pre[0])
    else QuantizableHere(g, i)
  }

  /** `_check_has_quantizable_node_after_node` */
  predicate QuantizableAfter(g: Graph, i: nat)
    requires i < |g.nodes|
  {
    Post(g, i) != [] && forall k :: 0 <= k < |Post(g, i)| ==> g.nodes[Post(g, i)[k]].qconfig.Some?
  }

  // ----- The optimization step: which inputs of a node lose their fake quant

  function AllInputs(n: Node): set<nat> { set k: nat {:trigger n.inputs[k]} | k < |n.inputs| }

  /** Every listed input is a recorded tensor; otherwise Python raises on `None` or a missing index. */
  function ResetInputs(n: Node, resets: set<nat>): (r: Try<set<nat>>)
    ensures r.Ok? ==> r.value == resets && forall k :: k in resets ==> k < |n.inputs| && n.inputs[k].Some?
  {
    if forall k :: k in resets ==> k < |n.inputs| && n.inputs[k].Some? then Ok(resets) else Raised
  }

  predicate OutputOf(g: Graph, i: nat, k: nat, p: nat)
    requires i < |g.nodes| && p < |g.nodes| && k < |g.nodes[i].inputs|
  {
    g.nodes[i].inputs[k].Some? && g.nodes[i].inputs[k].value in g.nodes[p].outputs
  }

  /** `reset_input_inf_dtype_to_orig_dtype`: the operand that does not come from the fused conv. */
  function ResetOther(g: Graph, i: nat, k: nat): (r: Try<set<nat>>)
    requires Traced(g) && i < |g.nodes| && k < |g.nodes[i].inputs|
    ensures r.Ok? ==> r.value <= {k} && (k in r.value ==> g.nodes[i].inputs[k].Some?)
  {
    var pre := Pre(g, i);
    if g.nodes[i].inputs[k].None? then Ok({})
    else if pre == [] then Raised
    else if OutputOf(g, i, k, pre[0]) then
      if k >= |pre| then Raised else OtherAnswer(k, QuantizableBefore(g, pre[k]))
    else if |pre| == 2 && OutputOf(g, i, k, pre[1]) then OtherAnswer(k, QuantizableBefore(g, pre[1]))
    else Ok({k})
  }

  function OtherAnswer(k: nat, before: Try<bool>): (r: Try<set<nat>>)
    ensures r.Raised? <==> before.Raised?
    ensures r.Ok? ==> r.value <= {k}
  {
    var quantizable :- before;
    Ok(if quantizable then {} else {k})
  }

  /** The resets around operand `own`, which comes from the fused conv or gemm, and the operand `other`; `conv` says
      that the fused op is a conv, and `after` that only quantizable ops follow. */
  function ResetFused(g: Graph, i: nat, own: nat, other: nat, conv: bool, after: bool): (r: Try<set<nat>>)
    requires Traced(g) && i < |g.nodes| && own < |g.nodes[i].inputs| && g.nodes[i].inputs[own].Some?
    ensures r.Ok? ==> own in r.value && r.value <= {own, other}
    ensures r.Ok? ==> forall k :: k in r.value ==> k < |g.nodes[i].inputs| && g.nodes[i].inputs[k].Some?
  {
    if conv && after then Ok({own})
    else if other >= |g.nodes[i].inputs| then Raised
    else if !conv then Ok(if g.nodes[i].inputs[other].Some? then {own, other} else {own})
    else
      var more :- ResetOther(g, i, other);
      Ok({own} + more)
  }

  /** `_add_recipe` */
  function AddResets(g: Graph, i: nat): (r: Try<set<nat>>)
    requires Traced(g) && i < |g.nodes|
    ensures r.Ok? ==> forall k :: k in r.value ==> k < |g.nodes[i].inputs| && g.nodes[i].inputs[k].Some?
  {
    AddAnswer(g, i, FindFusedAdd(g, i, CONV_GEMM_OPS), FindFusedAdd(g, i, CONV_OPS).Some?, QuantizableAfter(g, i))
  }

  function AddAnswer(g: Graph, i: nat, gemm: Option<nat>, conv: bool, after: bool): (r: Try<set<nat>>)
    requires Traced(g) && i < |g.nodes| && (gemm.Some? ==> gemm.value < |g.nodes|)
    ensures r.Ok? ==> forall k :: k in r.value ==> k < |g.nodes[i].inputs| && g.nodes[i].inputs[k].Some?
  {
    var n := g.nodes[i];
    var pre := Pre(g, i);
    if gemm.None? then
      if pre == [] then ResetInputs(n, AllInputs(n))
      else if |pre| == 2 then
        PairAnswer(n, KindOf(g, pre[0]) in ADD_OPS && KindOf(g, pre[1]) in ADD_OPS,
                   QuantizableBefore(g, pre[0]), QuantizableBefore(g, pre[1]))
      else PairAnswer(n, false, QuantizableBefore(g, pre[0]), Ok(false))
    else if n.inputs == [] then Raised
    else if OutputOf(g, i, 0, gemm.value) then ResetFused(g, i, 0, 1, conv, after)
    else if |n.inputs| < 2 then Raised
    else if OutputOf(g, i, 1, gemm.value) then ResetFused(g, i, 1, 0, conv, after)
    else Ok({})
  }

  /** Both operands are reset unless quantizable ops are before both, or if both come from additions. */
  function PairAnswer(n: Node, bothAdds: bool, first: Try<bool>, second: Try<bool>): (r: Try<set<nat>>)
    ensures (forall k :: 0 <= k < |n.inputs| ==> n.inputs[k].Some?) ==> (r.Raised? <==> first.Raised? || second.Raised?)
    ensures r.Ok? ==> forall k :: k in r.value ==> k < |n.inputs| && n.inputs[k].Some?
  {
    var a :- first;
    var b :- second;
    if !(a && b) || bothAdds then ResetInputs(n, AllInputs(n)) else Ok({})
  }

  /** The second step of `get_default_recipe` for a relu: its input is reset if it fuses with the op before it, or if
      no quantizable op is before it. */
  function EltwiseResets(g: Graph, i: nat): (r: Try<set<nat>>)
    requires Traced(g) && i < |g.nodes|
    ensures r.Ok? ==> r.value == {} || (r.value == {0} && |g.nodes[i].inputs| > 0 && g.nodes[i].inputs[0].Some?)
  {
    if Pre(g, i) == [] then ResetInputs(g.nodes[i], {0})
    else EltwiseAnswer(g.nodes[i], FindFusedEltwise(g, i, FUSABLE_OPS), QuantizableBefore(g, Pre(g, i)[0]))
  }

  /** `before` is looked at only if nothing fuses. */
  function EltwiseAnswer(n: Node, fused: Try<Option<nat>>, before: Try<bool>): (r: Try<set<nat>>)
    ensures |n.inputs| > 0 && n.inputs[0].Some? ==>
      (r.Raised? <==> fused.Raised? || (fused.value.None? && before.Raised?))
    ensures r.Ok? ==> r.value == {} || (r.value == {0} && |n.inputs| > 0 && n.inputs[0].Some?)
  {
    var partner :- fused;
    if partner.Some? then ResetInputs(n, {0})
    else
      var quantizable :- before;
      if quantizable then Ok({}) else ResetInputs(n, {0})
  }

  /** The same for pooling and flatten ops: the input is reset if no quantizable op is before it, or for a flatten
      method that an unquantized op follows. */
  function ShapeResets(g: Graph, i: nat): (r: Try<set<nat>>)
    requires Traced(g) && i < |g.nodes|
    ensures r.Ok? ==> r.value == {} || (r.value == {0} && |g.nodes[i].inputs| > 0 && g.nodes[i].inputs[0].Some?)
  {
    if KindOf(g, i).FlattenMethod? && !QuantizableAfter(g, i) then ResetInputs(g.nodes[i], {0})
    else PoolResets(g, i)
  }

  /** Quantized if what is before it is. */
  function PoolResets(g: Graph, i: nat): (r: Try<set<nat>>)
    requires Traced(g) && i < |g.nodes|
    ensures r.Ok? ==> r.value == {} || (r.value == {0} && |g.nodes[i].inputs| > 0 && g.nodes[i].inputs[0].Some?)
  {
    if Pre(g, i) == [] then ResetInputs(g.nodes[i], {0})
    else if |Pre(g, i)| == 1 then
      var before :- QuantizableBefore(g, Pre(g, i)[0]);
      if before then Ok({}) else ResetInputs(g.nodes[i], {0})
    else Ok({})
  }

  /** The dispatch of `get_default_recipe`'s second step for one quantizable node. */
  function Resets(g: Graph, i: nat): (r: Try<set<nat>>)
    requires Traced(g) && i < |g.nodes|
    ensures r.Ok? ==> forall k :: k in r.value ==> k < |g.nodes[i].inputs| && g.nodes[i].inputs[k].Some?
    ensures g.nodes[i].qconfig.None? || g.nodes[i].kind in CONV_GEMM_OPS ==> r == Ok({})
  {
    var n := g.nodes[i];
    if n.qconfig.None? || n.kind in CONV_GEMM_OPS then Ok({})
    else if n.kind in ADD_OPS then AddResets(g, i)
    else if n.kind in ELT_WISE_Q_OPS then EltwiseResets(g, i)
    else ShapeResets(g, i)
  }

  // ----- When the optimization step raises

  /** The arguments that the optimization step indexes are tensors: both operands of an addition, and the first
      argument of the other ops. */
  predicate ArgsPresent(n: Node)
  {
    n.qconfig.Some? && n.kind !in CONV_GEMM_OPS ==>
      |n.inputs| >= (if n.kind.Add? then 2 else 1) && n.inputs[0].Some?
      && (n.kind.Add? ==> forall k :: 0 <= k < |n.inputs| ==> n.inputs[k].Some?)
  }

  /** Asking whether a quantizable op is before `p` raises: the op behind the Identity nodes is a mirrored swish,
      or an element-wise op whose walk ends at one. */
  predicate AskRaises(g: Graph, p: nat)
    requires Traced(g) && p < |g.nodes|
  {
    HereRaises(g, BehindIdentities(g, p))
  }

  lemma WalkRaises(g: Graph, p: nat)
    requires Traced(g) && p < |g.nodes|
    ensures QuantizableBefore(g, p).Raised? <==> AskRaises(g, p)
  {
  }

  lemma MirroredRaises(g: Graph, p: nat)
    requires Traced(g) && p < |g.nodes| && g.nodes[p].qconfig.None? && MirroredSwish(g, p)
    ensures AskRaises(g, p)
  {
    assert KindOf(g, p) == Mul && Mul !in ELT_WISE_NOQ_OPS;
    assert BehindIdentities(g, p) == p;
  }

  /** The question about operand `k` of an addition raises. */
  predicate OperandBlocked(g: Graph, i: nat, k: nat)
    requires Traced(g) && i < |g.nodes| && k < |g.nodes[i].inputs|
  {
    var pre := Pre(g, i);
    pre != []
    && if OutputOf(g, i, k, pre[0]) then k < |pre| && AskRaises(g, pre[k])
       else |pre| == 2 && OutputOf(g, i, k, pre[1]) && AskRaises(g, pre[1])
  }

  /** For an addition that fuses with a conv and is not followed by quantizable ops only, the question about its other
      operand; for one that fuses with nothing, the question about one of its producers. */
  predicate AddBlocked(g: Graph, i: nat, gemm: Option<nat>, conv: bool, after: bool)
    requires Traced(g) && i < |g.nodes| && |g.nodes[i].inputs| >= 2 && (gemm.Some? ==> gemm.value < |g.nodes|)
  {
    var pre := Pre(g, i);
    if gemm.None? then pre != [] && (AskRaises(g, pre[0]) || (|pre| == 2 && AskRaises(g, pre[1])))
    else if !conv || after then false
    else if OutputOf(g, i, 0, gemm.value) then OperandBlocked(g, i, 1)
    else OutputOf(g, i, 1, gemm.value) && OperandBlocked(g, i, 0)
  }

  predicate EltwiseBlocked(g: Graph, i: nat)
    requires Traced(g) && i < |g.nodes|
  {
    var e := EltwiseTop(g, i, FUSABLE_OPS);
    Pre(g, i) != []
    && (TopRaises(g, e, FUSABLE_OPS) || (!TopFuses(g, e, FUSABLE_OPS) && AskRaises(g, Pre(g, i)[0])))
  }

  predicate ShapeBlocked(g: Graph, i: nat)
    requires Traced(g) && i < |g.nodes|
  {
    |Pre(g, i)| == 1 && (KindOf(g, i).FlattenMethod? ==> QuantizableAfter(g, i)) && AskRaises(g, Pre(g, i)[0])
  }

  /** A walk that the optimization step starts at `i` meets a mirrored swish. */
  predicate Blocked(g: Graph, i: nat)
    requires Traced(g) && i < |g.nodes| && ArgsPresent(g.nodes[i])
  {
    var n := g.nodes[i];
    n.qconfig.Some? && n.kind !in CONV_GEMM_OPS
    && if n.kind.Add? then
         AddBlocked(g, i, FindFusedAdd(g, i, CONV_GEMM_OPS), FindFusedAdd(g, i, CONV_OPS).Some?, QuantizableAfter(g, i))
       else if n.kind in ELT_WISE_Q_OPS then EltwiseBlocked(g, i)
       else ShapeBlocked(g, i)
  }

  lemma OperandRaises(g: Graph, i: nat, own: nat, other: nat, p: nat)
    requires Traced(g) && i < |g.nodes| && |g.nodes[i].inputs| >= 2 && p < |g.nodes|
    requires (own == 0 && other == 1) || (own == 1 && other == 0)
    requires OutputOf(g, i, own, p) && g.nodes[i].inputs[other].Some?
    ensures ResetOther(g, i, other).Raised? <==> OperandBlocked(g, i, other)
  {
    var pre := Pre(g, i);
    OtherListed(g, i, own, other, p);
    if OutputOf(g, i, other, pre[0]) {
      WalkRaises(g, pre[other]);
    } else if |pre| == 2 {
      WalkRaises(g, pre[1]);
    }
  }

  /** The index with which the other operand's producer is looked up is in range. */
  lemma OtherListed(g: Graph, i: nat, own: nat, other: nat, p: nat)
    requires Traced(g) && i < |g.nodes| && |g.nodes[i].inputs| >= 2 && p < |g.nodes|
    requires (own == 0 && other == 1) || (own == 1 && other == 0)
    requires OutputOf(g, i, own, p)
    ensures Pre(g, i) != [] && (OutputOf(g, i, other, Pre(g, i)[0]) ==> other < |Pre(g, i)|)
  {
    assert Feeds(g, p, i);
    if other == 1 && OutputOf(g, i, 1, Pre(g, i)[0]) {
      TwoProducers(g, i, p, Pre(g, i)[0]);
    }
  }

  lemma AddRaises(g: Graph, i: nat, gemm: Option<nat>, conv: bool, after: bool)
    requires Traced(g) && i < |g.nodes| && |g.nodes[i].inputs| >= 2 && (gemm.Some? ==> gemm.value < |g.nodes|)
    requires forall k :: 0 <= k < |g.nodes[i].inputs| ==> g.nodes[i].inputs[k].Some?
    ensures AddAnswer(g, i, gemm, conv, after).Raised? <==> AddBlocked(g, i, gemm, conv, after)
  {
    if gemm.None? {
      UnfusedAddRaises(g, i, conv, after);
    } else if OutputOf(g, i, 0, gemm.value) {
      OperandRaises(g, i, 0, 1, gemm.value);
    } else if OutputOf(g, i, 1, gemm.value) {
      OperandRaises(g, i, 1, 0, gemm.value);
    }
  }

  lemma UnfusedAddRaises(g: Graph, i: nat, conv: bool, after: bool)
    requires Traced(g) && i < |g.nodes| && |g.nodes[i].inputs| >= 2
    requires forall k :: 0 <= k < |g.nodes[i].inputs| ==> g.nodes[i].inputs[k].Some?
    ensures AddAnswer(g, i, None, conv, after).Raised? <==> AddBlocked(g, i, None, conv, after)
  {
    var pre := Pre(g, i);
    if pre != [] {
      WalkRaises(g, pre[0]);
      if |pre| == 2 {
        WalkRaises(g, pre[1]);
      }
    }
  }

  lemma EltwiseRaises(g: Graph, i: nat)
    requires Traced(g) && i < |g.nodes| && |g.nodes[i].inputs| > 0 && g.nodes[i].inputs[0].Some?
    ensures EltwiseResets(g, i).Raised? <==> EltwiseBlocked(g, i)
  {
    if Pre(g, i) != [] {
      WalkRaises(g, Pre(g, i)[0]);
    }
  }

  lemma ShapeRaises(g: Graph, i: nat)
    requires Traced(g) && i < |g.nodes| && |g.nodes[i].inputs| > 0 && g.nodes[i].inputs[0].Some?
    ensures ShapeResets(g, i).Raised? <==> ShapeBlocked(g, i)
  {
    PoolRaises(g, i);
  }

  lemma PoolRaises(g: Graph, i: nat)
    requires Traced(g) && i < |g.nodes| && |g.nodes[i].inputs| > 0 && g.nodes[i].inputs[0].Some?
    ensures PoolResets(g, i).Raised? <==> |Pre(g, i)| == 1 && AskRaises(g, Pre(g, i)[0])
  {
    if Pre(g, i) != [] {
      WalkRaises(g, Pre(g, i)[0]);
    }
  }

  /** For an op whose arguments are tensors, the optimization step raises exactly if one of its walks is blocked. */
  lemma ResetsRaise(g: Graph, i: nat)
    requires Traced(g) && i < |g.nodes| && ArgsPresent(g.nodes[i])
    ensures Resets(g, i).Raised? <==> Blocked(g, i)
  {
    var n := g.nodes[i];
    if n.qconfig.Some? && n.kind !in CONV_GEMM_OPS {
      if n.kind.Add? {
        AddRaises(g, i, FindFusedAdd(g, i, CONV_GEMM_OPS), FindFusedAdd(g, i, CONV_OPS).Some?, QuantizableAfter(g, i));
      } else if n.kind in ELT_WISE_Q_OPS {
        EltwiseRaises(g, i);
      } else {
        ShapeRaises(g, i);
      }
    }
  }

  /** No multiplication has a sigmoid and a conv or gemm as producers, in this order. */
  ghost predicate NoMirroredSwish(g: Graph)
  {
    forall i :: 0 <= i < |g.nodes| ==> !MirroredSwish(g, i)
  }

  /** For all ops together. */
  lemma WalksExactly(g: Graph)
    requires Traced(g) && forall i :: 0 <= i < |g.nodes| ==> ArgsPresent(g.nodes[i])
    ensures (forall i :: 0 <= i < |g.nodes| ==> Resets(g, i).Ok?) <==> forall i :: 0 <= i < |g.nodes| ==> !Blocked(g, i)
    ensures NoMirroredSwish(g) ==> forall i :: 0 <= i < |g.nodes| ==> !Blocked(g, i)
  {
    forall i | 0 <= i < |g.nodes| ensures Resets(g, i).Ok? <==> !Blocked(g, i) {
      ResetsRaise(g, i);
    }
    forall i | 0 <= i < |g.nodes| && NoMirroredSwish(g) ensures !Blocked(g, i) {
      NothingBlocked(g, i);
    }
  }

  /** Then no walk is blocked. */
  lemma NothingBlocked(g: Graph, i: nat)
    requires Traced(g) && i < |g.nodes| && ArgsPresent(g.nodes[i]) && NoMirroredSwish(g)
    ensures !Blocked(g, i)
  {
    var n := g.nodes[i];
    if n.qconfig.Some? && n.kind !in CONV_GEMM_OPS {
      if n.kind.Add? {
        AddUnblocked(g, i, FindFusedAdd(g, i, CONV_GEMM_OPS), FindFusedAdd(g, i, CONV_OPS).Some?,
          QuantizableAfter(g, i));
      } else if Pre(g, i) != [] {
        NoAskRaises(g, Pre(g, i)[0]);
        NoTopRaises(g, EltwiseTop(g, i, FUSABLE_OPS), FUSABLE_OPS);
      }
    }
  }

  lemma AddUnblocked(g: Graph, i: nat, gemm: Option<nat>, conv: bool, after: bool)
    requires Traced(g) && i < |g.nodes| && |g.nodes[i].inputs| >= 2 && (gemm.Some? ==> gemm.value < |g.nodes|)
    requires NoMirroredSwish(g)
    ensures !AddBlocked(g, i, gemm, conv, after)
  {
    var pre := Pre(g, i);
    if pre != [] {
      NoAskRaises(g, pre[0]);
    }
    if |pre| >= 2 {
      NoAskRaises(g, pre[1]);
    }
  }

  lemma NoTopRaises(g: Graph, e: nat, ops: set<OpType>)
    requires e < |g.nodes| && NoMirroredSwish(g)
    ensures !TopRaises(g, e, ops)
  {
  }

  lemma NoAskRaises(g: Graph, p: nat)
    requires Traced(g) && p < |g.nodes| && NoMirroredSwish(g)
    ensures !AskRaises(g, p)
  {
  }

  /** If both operands have producers, both are listed. */
  lemma TwoProducers(g: Graph, i: nat, p: nat, q: nat)
    requires Traced(g) && i < |g.nodes| && p < |g.nodes| && q < |g.nodes| && |g.nodes[i].inputs| >= 2
    requires OutputOf(g, i, 0, p) && OutputOf(g, i, 1, q)
    ensures |Pre(g, i)| >= 2
  {
    assert Feeds(g, p, i) && Feeds(g, q, i);
    if p == q {
      BothMatch(g.nodes[i].inputs, g.nodes[p].outputs, p);
      ListedUpTo(g, i, p, |g.nodes|);
    } else {
      TwoMembers(Pre(g, i), p, q);
    }
  }

  lemma TwoMembers(s: seq<nat>, p: nat, q: nat)
    requires p in s && q in s && p != q
    ensures |s| >= 2
  {
  }

  lemma {:induction false} BothMatch(inputs: seq<Option<TensorId>>, outputs: seq<TensorId>, n: nat)
    requires |inputs| >= 2 && inputs[0].Some? && inputs[1].Some?
    requires inputs[0].value in outputs && inputs[1].value in outputs
    ensures |InputMatches(inputs, outputs, n)| >= 2
    decreases |inputs|
  {
    if |inputs| > 2 {
      BothMatch(inputs[..|inputs| - 1], outputs, n);
    } else {
      assert inputs[..1][..0] == [];
      assert |InputMatches(inputs[..1], outputs, n)| == 1;
    }
  }

  lemma {:induction false} ListedUpTo(g: Graph, i: nat, p: nat, n: nat)
    requires i < |g.nodes| && p < n <= |g.nodes|
    ensures |PreUpTo(g, i, n)| >= |InputMatches(g.nodes[i].inputs, g.nodes[p].outputs, p)|
  {
    assert PreUpTo(g, i, n) ==
      PreUpTo(g, i, n - 1) + InputMatches(g.nodes[i].inputs, g.nodes[n - 1].outputs, n - 1);
    if p < n - 1 {
      ListedUpTo(g, i, p, n - 1);
    }
  }
}
