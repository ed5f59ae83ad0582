/**
 What the fusion walks mean on the graph, said without them: which ops fuse, before which ops a quantizable op stands,
 and therefore exactly which arguments lose their fake quant in the optimization step.
 */
module FusionMeaning {
  import opened Basics
  import opened QuantGraph
  import opened FusionPatterns

  // ----- Element-wise fusion

  /** `e` reads an element-wise op or Identity that feeds nothing else, and that in turn reads `e'`. */
  ghost predicate Linked(g: Graph, e: nat, e': nat, ops: set<OpType>)
    requires e < |g.nodes|
  {
    Pre(g, e) != [] &&
    var link := Pre(g, e)[0];
    && KindOf(g, link) in {Identity} + ELT_WISE_Q_OPS + ELT_WISE_NOQ_OPS && KindOf(g, link) !in ops
    && |Post(g, link)| == 1 && Pre(g, link) != [] && e' == Pre(g, link)[0]
  }

  /** `e` reads `p`, one of `ops`, which feeds nothing else, or `e` feeds only the product of a swish. */
  ghost predicate Absorbs(g: Graph, e: nat, p: nat, ops: set<OpType>)
    requires e < |g.nodes|
  {
    && Pre(g, e) != [] && p == Pre(g, e)[0] && KindOf(g, p) in ops
    && (|Post(g, p)| == 1 || (|Post(g, e)| == 1 && CompletesSwish(g, Post(g, e)[0])))
  }

  /** `i` fuses with `p`, directly or through a chain of element-wise ops. */
  ghost predicate FusesWith(g: Graph, i: nat, p: nat, ops: set<OpType>)
    requires Traced(g) && i < |g.nodes|
    decreases Depth(g, i)
  {
    Absorbs(g, i, p, ops)
    || exists e: nat :: Linked(g, i, e, ops) && FusesWith(g, e, p, ops)
  }

  lemma LinkedTop(g: Graph, i: nat, e: nat, ops: set<OpType>)
    requires Traced(g) && i < |g.nodes| && Linked(g, i, e, ops)
    ensures e < |g.nodes| && Depth(g, e) < Depth(g, i) && EltwiseTop(g, i, ops) == EltwiseTop(g, e, ops)
    ensures forall p :: !Absorbs(g, i, p, ops)
  {
  }

  lemma UnlinkedTop(g: Graph, i: nat, ops: set<OpType>)
    requires Traced(g) && i < |g.nodes| && forall e: nat :: !Linked(g, i, e, ops)
    ensures EltwiseTop(g, i, ops) == i
  {
    if Pre(g, i) != [] && Pre(g, Pre(g, i)[0]) != [] {
      assert !Linked(g, i, Pre(g, Pre(g, i)[0])[0], ops);
    }
  }

  /** A chain ends where the walk does. */
  lemma {:induction false} FusesAtTop(g: Graph, i: nat, p: nat, ops: set<OpType>)
    requires Traced(g) && i < |g.nodes|
    ensures FusesWith(g, i, p, ops) <==> Absorbs(g, EltwiseTop(g, i, ops), p, ops)
    decreases Depth(g, i)
  {
    if e: nat :| Linked(g, i, e, ops) {
      LinkedTop(g, i, e, ops);
      FusesAtTop(g, e, p, ops);
    } else {
      UnlinkedTop(g, i, ops);
    }
  }

  /** The walk finds the partner, unless it raises. */
  lemma FusedMeans(g: Graph, i: nat, ops: set<OpType>)
    requires Traced(g) && i < |g.nodes| && FindFusedEltwise(g, i, ops).Ok?
    ensures forall p: nat :: FusesWith(g, i, p, ops) <==> FindFusedEltwise(g, i, ops).value == Some(p)
  {
    var e := EltwiseTop(g, i, ops);
    forall p: nat ensures FusesWith(g, i, p, ops) <==> FusedAt(g, e, ops).value == Some(p) {
      FusesAtTop(g, i, p, ops);
    }
  }

  // ----- Additions

  /** The first of two producers of an addition that leads to one of `ops`; an Identity listed first decides alone. */
  ghost predicate AddsTo(g: Graph, i: nat, p: nat, ops: set<OpType>)
    requires Traced(g)
  {
    && i < |g.nodes| && Pre(g, i) != [] && p < |g.nodes| && LeadsTo(g, p, ops)
    && (p == Pre(g, i)[0]
        || (|Pre(g, i)| == 2 && p == Pre(g, i)[1] && !Decides(g, Pre(g, i)[0]) && !LeadsTo(g, Pre(g, i)[0], ops)))
  }

  lemma AddMeans(g: Graph, i: nat, ops: set<OpType>)
    requires Traced(g) && IdentitiesAreUnary(g) && i < |g.nodes| && Identity !in ops
    ensures forall p: nat :: AddsTo(g, i, p, ops) <==> FindFusedAdd(g, i, ops) == Some(p)
  {
    FusedAddExactly(g, i, ops);
  }

  ghost predicate AddsToConv(g: Graph, i: nat)
    requires Traced(g)
  {
    exists p: nat :: AddsTo(g, i, p, CONV_OPS)
  }

  ghost predicate AddsToGemm(g: Graph, i: nat)
    requires Traced(g)
  {
    exists p: nat :: AddsTo(g, i, p, CONV_GEMM_OPS)
  }

  ghost predicate AddsToQuantized(g: Graph, i: nat)
    requires Traced(g)
  {
    exists p: nat :: AddsTo(g, i, p, CONV_GEMM_OPS) && g.nodes[p].qconfig.Some?
  }

  // ----- A quantizable op before an op

  /** The element-wise op `i` fuses with a quantized partner. If this is an in-place addition, the source asks whether
      the element-wise op itself could be a fused addition. */
  ghost predicate EltwiseCompletes(g: Graph, i: nat)
    requires Traced(g) && i < |g.nodes|
  {
    exists p: nat :: p < |g.nodes| && FusesWith(g, i, p, FUSABLE_OPS) && PartnerQuantized(g, i, p)
  }

  ghost predicate PartnerQuantized(g: Graph, i: nat, p: nat)
    requires Traced(g) && i < |g.nodes| && p < |g.nodes|
  {
    if KindOf(g, p).AddInplace? then AddsToQuantized(g, i) else g.nodes[p].qconfig.Some?
  }

  /** The unquantized op `i` completes a fusion with a quantized partner: as an element-wise op, as an in-place
      addition, or as the product of a swish. */
  ghost predicate CompletesFusion(g: Graph, i: nat)
    requires Traced(g) && i < |g.nodes|
  {
    || (KindOf(g, i) in ELT_WISE_NOQ_OPS && EltwiseCompletes(g, i))
    || (KindOf(g, i).AddInplace? && AddsToQuantized(g, i))
    || (CompletesSwish(g, i) && g.nodes[Pre(g, i)[0]].qconfig.Some?)
  }

  ghost predicate Quantizable(g: Graph, i: nat)
    requires Traced(g) && i < |g.nodes|
  {
    !KindOf(g, i).Identity? && (g.nodes[i].qconfig.Some? || CompletesFusion(g, i))
  }

  /** `i` is quantizable, or an Identity behind such an op. */
  ghost predicate QuantizableThrough(g: Graph, i: nat)
    requires Traced(g) && i < |g.nodes|
    decreases Depth(g, i)
  {
    Quantizable(g, i)
    || (KindOf(g, i).Identity?
        && exists p: nat :: p < |g.nodes| && Feeds(g, p, i) && (FeedsDeeper(g, p, i); QuantizableThrough(g, p)))
  }

  lemma EltwiseMeans(g: Graph, i: nat)
    requires Traced(g) && IdentitiesAreUnary(g) && i < |g.nodes| && KindOf(g, i) in ELT_WISE_NOQ_OPS
    requires EltwiseHere(g, i).Ok?
    ensures EltwiseHere(g, i).value <==> CompletesFusion(g, i)
  {
    var fused := FindFusedEltwise(g, i, FUSABLE_OPS).value;
    EltwiseValue(g, i, fused);
    OnlyEltwise(g, i);
    PartnerMeans(g, i, fused);
    if fused.Some? {
      AnswerMeans(g, i, fused.value);
    }
  }

  lemma EltwiseValue(g: Graph, i: nat, fused: Option<nat>)
    requires Traced(g) && i < |g.nodes| && KindOf(g, i) in ELT_WISE_NOQ_OPS
    requires FindFusedEltwise(g, i, FUSABLE_OPS) == Ok(fused)
    ensures fused.Some? ==> fused.value < |g.nodes|
    ensures EltwiseHere(g, i) == Ok(fused.Some? && PartnerAnswer(g, i, fused.value))
  {
    NoProduct(g, i);
  }

  lemma NoProduct(g: Graph, i: nat)
    requires i < |g.nodes| && KindOf(g, i) in ELT_WISE_NOQ_OPS
    ensures !KindOf(g, i).Mul? && !KindOf(g, i).AddInplace? && SwishQuantizable(g, i) == Ok(false)
  {
  }

  lemma OnlyEltwise(g: Graph, i: nat)
    requires Traced(g) && i < |g.nodes| && KindOf(g, i) in ELT_WISE_NOQ_OPS
    ensures CompletesFusion(g, i) <==> EltwiseCompletes(g, i)
  {
    NoProduct(g, i);
  }

  lemma AnswerMeans(g: Graph, i: nat, p: nat)
    requires Traced(g) && IdentitiesAreUnary(g) && i < |g.nodes| && p < |g.nodes|
    ensures PartnerAnswer(g, i, p) <==> PartnerQuantized(g, i, p)
  {
    AddMeans(g, i, CONV_GEMM_OPS);
  }

  lemma PartnerMeans(g: Graph, i: nat, fused: Option<nat>)
    requires Traced(g) && i < |g.nodes| && FindFusedEltwise(g, i, FUSABLE_OPS) == Ok(fused)
    ensures fused.Some? ==> fused.value < |g.nodes|
    ensures EltwiseCompletes(g, i) <==> fused.Some? && PartnerQuantized(g, i, fused.value)
  {
    FusedMeans(g, i, FUSABLE_OPS);
  }

  /** The answer for an op that is no Identity. */
  lemma HereMeans(g: Graph, i: nat)
    requires Traced(g) && IdentitiesAreUnary(g) && i < |g.nodes| && !KindOf(g, i).Identity? && QuantizableHere(g, i).Ok?
    ensures QuantizableHere(g, i).value <==> Quantizable(g, i)
  {
    if g.nodes[i].qconfig.None? && Pre(g, i) != [] {
      if KindOf(g, i) in ELT_WISE_NOQ_OPS {
        EltwiseMeans(g, i);
      } else {
        AddMeans(g, i, CONV_GEMM_OPS);
      }
    }
  }

  lemma {:induction false} ThroughMeans(g: Graph, i: nat)
    requires Traced(g) && IdentitiesAreUnary(g) && i < |g.nodes|
    ensures QuantizableThrough(g, i) <==> Quantizable(g, BehindIdentities(g, i))
    decreases Depth(g, i)
  {
    if KindOf(g, i).Identity? {
      OnlyProducer(g, i);
      if Pre(g, i) != [] {
        ThroughMeans(g, Pre(g, i)[0]);
      }
    }
  }

  lemma OnlyProducer(g: Graph, i: nat)
    requires Traced(g) && IdentitiesAreUnary(g) && i < |g.nodes| && KindOf(g, i).Identity?
    ensures forall p: nat :: p < |g.nodes| && Feeds(g, p, i) <==> Pre(g, i) != [] && p == Pre(g, i)[0]
  {
    UnaryIdentity(g, i);
    if Pre(g, i) != [] {
      assert Pre(g, i)[0] in Pre(g, i);
    }
    forall p: nat | p < |g.nodes| && Feeds(g, p, i) ensures Pre(g, i) != [] && p == Pre(g, i)[0] {
      assert p in Pre(g, i);
    }
  }

  /** The whole question, unless it raises. */
  lemma BeforeMeans(g: Graph, i: nat)
    requires Traced(g) && IdentitiesAreUnary(g) && i < |g.nodes| && QuantizableBefore(g, i).Ok?
    ensures QuantizableBefore(g, i).value <==> QuantizableThrough(g, i)
  {
    ThroughMeans(g, i);
    if !KindOf(g, BehindIdentities(g, i)).Identity? {
      HereMeans(g, BehindIdentities(g, i));
    }
  }

  // ----- Which arguments lose their fake quant

  /** A relu reads no op of the model, or one that it fuses with, or one that no quantizable op stands before. */
  ghost predicate ReluLoses(g: Graph, i: nat)
    requires Traced(g) && i < |g.nodes|
  {
    Pre(g, i) == [] || (exists p: nat :: FusesWith(g, i, p, FUSABLE_OPS)) || !QuantizableThrough(g, Pre(g, i)[0])
  }

  /** Something follows, and only quantizable ops. */
  ghost predicate FeedsQuantizable(g: Graph, i: nat)
    requires i < |g.nodes|
  {
    && (exists c: nat :: c < |g.nodes| && Feeds(g, i, c))
    && forall c: nat :: c < |g.nodes| && Feeds(g, i, c) ==> g.nodes[c].qconfig.Some?
  }

  /** A pooling or flatten op has one producer that no quantizable op stands before, or none at all. A flatten method
      also loses its fake quant if something else than quantizable ops follows. */
  ghost predicate ShapeLoses(g: Graph, i: nat)
    requires Traced(g) && i < |g.nodes|
  {
    || (KindOf(g, i).FlattenMethod? && !FeedsQuantizable(g, i))
    || Pre(g, i) == [] || (|Pre(g, i)| == 1 && !QuantizableThrough(g, Pre(g, i)[0]))
  }

  /** The op that the source asks about operand `k` of an addition: the first operand's producer; but for the second
      operand the second producer in the list, also if it is the first one in the list that computes the operand. */
  ghost predicate Asks(g: Graph, i: nat, k: nat, q: nat)
    requires i < |g.nodes| && k < |g.nodes[i].inputs|
  {
    var pre := Pre(g, i);
    if k == 0 then q in pre[..if |pre| <= 2 then |pre| else 1] && OutputOf(g, i, 0, q)
    else |pre| > k && q == pre[k] && (OutputOf(g, i, k, pre[0]) || (|pre| == 2 && OutputOf(g, i, k, pre[1])))
  }

  /** No quantizable op is found in front of operand `k`. */
  ghost predicate NothingAsked(g: Graph, i: nat, k: nat)
    requires Traced(g) && i < |g.nodes| && k < |g.nodes[i].inputs|
  {
    forall q: nat :: q < |g.nodes| && Asks(g, i, k, q) ==> !QuantizableThrough(g, q)
  }

  /** The operand `k` beside the fused conv or gemm: no conv is fused, or something else than quantizable ops follows
      and the op asked about the operand is not quantizable. */
  ghost predicate OtherLoses(g: Graph, i: nat, k: nat)
    requires Traced(g) && i < |g.nodes| && k < |g.nodes[i].inputs|
  {
    g.nodes[i].inputs[k].Some? &&
    (!AddsToConv(g, i) || (!FeedsQuantizable(g, i) && NothingAsked(g, i, k)))
  }

  /** The operand `own` of the addition comes from `p`; the first operand counts if both do. */
  ghost predicate OwnOperand(g: Graph, i: nat, own: nat, p: nat)
    requires i < |g.nodes| && p < |g.nodes|
  {
    own <= 1 && own < |g.nodes[i].inputs| && OutputOf(g, i, own, p) && (own == 1 ==> !OutputOf(g, i, 0, p))
  }

  /** An addition that fuses with `p` loses the fake quant of the operand from `p`, and possibly that of the other. */
  ghost predicate FusedAddLoses(g: Graph, i: nat, p: nat, k: nat)
    requires Traced(g) && i < |g.nodes| && p < |g.nodes| && k < |g.nodes[i].inputs|
  {
    exists own: nat :: OwnOperand(g, i, own, p) && (k == own || (k == 1 - own && OtherLoses(g, i, k)))
  }

  /** One that fuses with nothing keeps its fake quants only if both operands have quantizable ops before them and do
      not both come from additions. */
  ghost predicate PlainAddKeeps(g: Graph, i: nat)
    requires Traced(g) && i < |g.nodes|
  {
    && |Pre(g, i)| == 2 && QuantizableThrough(g, Pre(g, i)[0]) && QuantizableThrough(g, Pre(g, i)[1])
    && !(KindOf(g, Pre(g, i)[0]).Add? && KindOf(g, Pre(g, i)[1]).Add?)
  }

  ghost predicate AddLoses(g: Graph, i: nat, k: nat)
    requires Traced(g) && i < |g.nodes| && k < |g.nodes[i].inputs|
  {
    if AddsToGemm(g, i) then exists p: nat :: AddsTo(g, i, p, CONV_GEMM_OPS) && FusedAddLoses(g, i, p, k)
    else !PlainAddKeeps(g, i)
  }

  predicate IsRelu(n: Node) { n.kind.ReluFunction? || n.kind.ReluModule? }

  /** Argument `k` of node `i` loses its fake quant in the optimization step. */
  ghost predicate Loses(g: Graph, i: nat, k: nat)
    requires Traced(g) && i < |g.nodes| && k < |g.nodes[i].inputs|
  {
    var n := g.nodes[i];
    && n.qconfig.Some? && n.kind !in CONV_GEMM_OPS
    && if n.kind.Add? then AddLoses(g, i, k)
       else k == 0 && if IsRelu(n) then ReluLoses(g, i) else ShapeLoses(g, i)
  }

  lemma AfterMeans(g: Graph, i: nat)
    requires i < |g.nodes|
    ensures QuantizableAfter(g, i) <==> FeedsQuantizable(g, i)
  {
    var post := Post(g, i);
    if post != [] {
      assert post[0] in post;
    }
    forall c: nat | c < |g.nodes| && Feeds(g, i, c) ensures exists k :: 0 <= k < |post| && post[k] == c {
      assert c in post;
    }
    forall k | 0 <= k < |post| ensures Feeds(g, i, post[k]) {
      assert post[k] in post;
    }
  }

  lemma ReluResets(g: Graph, i: nat)
    requires Traced(g) && IdentitiesAreUnary(g) && i < |g.nodes| && EltwiseResets(g, i).Ok?
    ensures 0 in EltwiseResets(g, i).value <==> ReluLoses(g, i)
  {
    if Pre(g, i) != [] {
      FusedMeans(g, i, FUSABLE_OPS);
      if FindFusedEltwise(g, i, FUSABLE_OPS).value.None? {
        BeforeMeans(g, Pre(g, i)[0]);
      }
    }
  }

  lemma PoolOrFlattenResets(g: Graph, i: nat)
    requires Traced(g) && IdentitiesAreUnary(g) && i < |g.nodes| && ShapeResets(g, i).Ok?
    ensures 0 in ShapeResets(g, i).value <==> ShapeLoses(g, i)
  {
    AfterMeans(g, i);
    if !(KindOf(g, i).FlattenMethod? && !QuantizableAfter(g, i)) && |Pre(g, i)| == 1 {
      BeforeMeans(g, Pre(g, i)[0]);
    }
  }

  /** What the source asks, and what it concludes. */
  lemma AskedAnswer(g: Graph, i: nat, k: nat, q: nat)
    requires Traced(g) && IdentitiesAreUnary(g) && i < |g.nodes| && k <= 1 && k < |g.nodes[i].inputs|
    requires q < |g.nodes| && Asks(g, i, k, q) && OtherAnswer(k, QuantizableBefore(g, q)).Ok?
    ensures k in OtherAnswer(k, QuantizableBefore(g, q)).value <==> NothingAsked(g, i, k)
  {
    BeforeMeans(g, q);
    OneAsked(g, i, k, q);
  }

  lemma OneAsked(g: Graph, i: nat, k: nat, q: nat)
    requires Traced(g) && i < |g.nodes| && k < |g.nodes[i].inputs| && q < |g.nodes| && Asks(g, i, k, q)
    ensures forall p: nat :: p < |g.nodes| && Asks(g, i, k, p) ==> p == q
  {
  }

  lemma OtherOperand(g: Graph, i: nat, k: nat)
    requires Traced(g) && IdentitiesAreUnary(g) && i < |g.nodes| && k <= 1 && k < |g.nodes[i].inputs|
    requires ResetOther(g, i, k).Ok? && g.nodes[i].inputs[k].Some?
    ensures k in ResetOther(g, i, k).value <==> NothingAsked(g, i, k)
  {
    var pre := Pre(g, i);
    if OutputOf(g, i, k, pre[0]) {
      AsksFirst(g, i, k);
      AskedAnswer(g, i, k, pre[k]);
    } else if |pre| == 2 && OutputOf(g, i, k, pre[1]) {
      AsksSecond(g, i, k);
      AskedAnswer(g, i, k, pre[1]);
    } else {
      AsksNone(g, i, k);
    }
  }

  lemma AsksFirst(g: Graph, i: nat, k: nat)
    requires i < |g.nodes| && k <= 1 && k < |g.nodes[i].inputs| && k < |Pre(g, i)| && OutputOf(g, i, k, Pre(g, i)[0])
    ensures Asks(g, i, k, Pre(g, i)[k])
  {
    if k == 0 {
      var short := Pre(g, i)[..if |Pre(g, i)| <= 2 then |Pre(g, i)| else 1];
      assert short[0] == Pre(g, i)[0];
    }
  }

  lemma AsksSecond(g: Graph, i: nat, k: nat)
    requires i < |g.nodes| && k <= 1 && k < |g.nodes[i].inputs| && |Pre(g, i)| == 2 && OutputOf(g, i, k, Pre(g, i)[1])
    ensures Asks(g, i, k, Pre(g, i)[1])
  {
    if k == 0 {
      assert Pre(g, i)[..2][1] == Pre(g, i)[1];
    }
  }

  lemma AsksNone(g: Graph, i: nat, k: nat)
    requires i < |g.nodes| && k <= 1 && k < |g.nodes[i].inputs| && Pre(g, i) != []
    requires !OutputOf(g, i, k, Pre(g, i)[0]) && (|Pre(g, i)| == 2 ==> !OutputOf(g, i, k, Pre(g, i)[1]))
    ensures forall q: nat :: q < |g.nodes| ==> !Asks(g, i, k, q)
  {
  }

  lemma FusedResets(g: Graph, i: nat, own: nat, other: nat, conv: bool, after: bool, k: nat)
    requires Traced(g) && IdentitiesAreUnary(g) && i < |g.nodes| && own + other == 1 && own < |g.nodes[i].inputs|
    requires g.nodes[i].inputs[own].Some? && conv == AddsToConv(g, i) && after == QuantizableAfter(g, i)
    requires ResetFused(g, i, own, other, conv, after).Ok? && k < |g.nodes[i].inputs|
    ensures k in ResetFused(g, i, own, other, conv, after).value <==>
      k == own || (k == other && OtherLoses(g, i, k))
  {
    if other < |g.nodes[i].inputs| {
      OtherLost(g, i, own, other, conv, after);
      FusedValue(g, i, own, other, conv, after, OtherLoses(g, i, other));
    }
  }

  lemma OtherLost(g: Graph, i: nat, own: nat, other: nat, conv: bool, after: bool)
    requires Traced(g) && IdentitiesAreUnary(g) && i < |g.nodes| && own + other == 1 && |g.nodes[i].inputs| >= 2
    requires g.nodes[i].inputs[own].Some? && conv == AddsToConv(g, i) && after == QuantizableAfter(g, i)
    requires ResetFused(g, i, own, other, conv, after).Ok?
    ensures OtherLoses(g, i, other) <==>
      g.nodes[i].inputs[other].Some? && (!conv || (!after && other in ResetOther(g, i, other).value))
  {
    AfterMeans(g, i);
    if conv && !after {
      OtherSettled(g, i, other);
    }
  }

  /** What the resets around operand `own` come to, if `lost` says what becomes of the other operand. */
  lemma FusedValue(g: Graph, i: nat, own: nat, other: nat, conv: bool, after: bool, lost: bool)
    requires Traced(g) && i < |g.nodes| && own + other == 1 && |g.nodes[i].inputs| >= 2 && g.nodes[i].inputs[own].Some?
    requires ResetFused(g, i, own, other, conv, after).Ok?
    requires lost <==> g.nodes[i].inputs[other].Some? && (!conv || (!after && other in ResetOther(g, i, other).value))
    ensures forall k :: 0 <= k < |g.nodes[i].inputs| ==>
      (k in ResetFused(g, i, own, other, conv, after).value <==> k == own || (k == other && lost))
  {
  }

  lemma OtherSettled(g: Graph, i: nat, k: nat)
    requires Traced(g) && IdentitiesAreUnary(g) && i < |g.nodes| && k <= 1 && k < |g.nodes[i].inputs|
    requires ResetOther(g, i, k).Ok?
    ensures k in ResetOther(g, i, k).value <==> g.nodes[i].inputs[k].Some? && NothingAsked(g, i, k)
  {
    if g.nodes[i].inputs[k].Some? {
      OtherOperand(g, i, k);
    }
  }

  lemma PairMeans(n: Node, bothAdds: bool, first: Try<bool>, second: Try<bool>)
    requires PairAnswer(n, bothAdds, first, second).Ok?
    ensures first.Ok? && second.Ok? && forall k :: 0 <= k < |n.inputs| ==>
      (k in PairAnswer(n, bothAdds, first, second).value <==> !(first.value && second.value && !bothAdds))
  {
  }

  lemma PlainResets(g: Graph, i: nat, conv: bool, after: bool)
    requires Traced(g) && IdentitiesAreUnary(g) && i < |g.nodes| && AddAnswer(g, i, None, conv, after).Ok?
    ensures forall k :: 0 <= k < |g.nodes[i].inputs| ==>
      (k in AddAnswer(g, i, None, conv, after).value <==> !PlainAddKeeps(g, i))
  {
    if |Pre(g, i)| == 2 {
      PairResets(g, i, conv, after);
    } else if Pre(g, i) != [] {
      PairMeans(g.nodes[i], false, QuantizableBefore(g, Pre(g, i)[0]), Ok(false));
    }
  }

  lemma PairResets(g: Graph, i: nat, conv: bool, after: bool)
    requires Traced(g) && IdentitiesAreUnary(g) && i < |g.nodes| && |Pre(g, i)| == 2
    requires AddAnswer(g, i, None, conv, after).Ok?
    ensures forall k :: 0 <= k < |g.nodes[i].inputs| ==>
      (k in AddAnswer(g, i, None, conv, after).value <==> !PlainAddKeeps(g, i))
  {
    var p, q := Pre(g, i)[0], Pre(g, i)[1];
    var adds := KindOf(g, p).Add? && KindOf(g, q).Add?;
    PlainIs(g, i, conv, after);
    PairMeans(g.nodes[i], adds, QuantizableBefore(g, p), QuantizableBefore(g, q));
    BeforeMeans(g, p);
    BeforeMeans(g, q);
  }

  lemma PlainIs(g: Graph, i: nat, conv: bool, after: bool)
    requires Traced(g) && i < |g.nodes| && |Pre(g, i)| == 2
    ensures
      var p, q := Pre(g, i)[0], Pre(g, i)[1];
      AddAnswer(g, i, None, conv, after) ==
        PairAnswer(g.nodes[i], KindOf(g, p).Add? && KindOf(g, q).Add?, QuantizableBefore(g, p), QuantizableBefore(g, q))
  {
  }

  /** An addition that fuses with `p`. */
  lemma FusedAnswer(g: Graph, i: nat, p: nat, k: nat)
    requires Traced(g) && IdentitiesAreUnary(g) && i < |g.nodes| && k < |g.nodes[i].inputs| && p < |g.nodes|
    requires AddAnswer(g, i, Some(p), AddsToConv(g, i), QuantizableAfter(g, i)).Ok?
    ensures k in AddAnswer(g, i, Some(p), AddsToConv(g, i), QuantizableAfter(g, i)).value <==> FusedAddLoses(g, i, p, k)
  {
    var conv := AddsToConv(g, i);
    if own: nat :| OwnOperand(g, i, own, p) {
      FusedIs(g, i, p, own, conv, QuantizableAfter(g, i));
      FusedResets(g, i, own, 1 - own, conv, QuantizableAfter(g, i), k);
      OneOwn(g, i, own, p, k);
    } else {
      assert !OwnOperand(g, i, 0, p) && !OwnOperand(g, i, 1, p);
    }
  }

  lemma FusedIs(g: Graph, i: nat, p: nat, own: nat, conv: bool, after: bool)
    requires Traced(g) && i < |g.nodes| && p < |g.nodes| && OwnOperand(g, i, own, p)
    ensures AddAnswer(g, i, Some(p), conv, after) == ResetFused(g, i, own, 1 - own, conv, after)
  {
  }

  lemma OneOwn(g: Graph, i: nat, own: nat, p: nat, k: nat)
    requires Traced(g) && i < |g.nodes| && p < |g.nodes| && k < |g.nodes[i].inputs| && OwnOperand(g, i, own, p)
    ensures FusedAddLoses(g, i, p, k) <==> k == own || (k == 1 - own && OtherLoses(g, i, k))
  {
    assert forall other: nat :: OwnOperand(g, i, other, p) ==> other == own;
  }

  lemma ConvMeans(g: Graph, i: nat)
    requires Traced(g) && IdentitiesAreUnary(g) && i < |g.nodes|
    ensures FindFusedAdd(g, i, CONV_OPS).Some? <==> AddsToConv(g, i)
  {
    AddMeans(g, i, CONV_OPS);
    var r := FindFusedAdd(g, i, CONV_OPS);
    if r.Some? {
      assert AddsTo(g, i, r.value, CONV_OPS);
    }
  }

  lemma AddResetsMeans(g: Graph, i: nat, k: nat)
    requires Traced(g) && IdentitiesAreUnary(g) && i < |g.nodes| && AddResets(g, i).Ok? && k < |g.nodes[i].inputs|
    ensures k in AddResets(g, i).value <==> AddLoses(g, i, k)
  {
    var gemm := FindFusedAdd(g, i, CONV_GEMM_OPS);
    PartnerAdds(g, i, k);
    ConvMeans(g, i);
    if gemm.None? {
      PlainResets(g, i, FindFusedAdd(g, i, CONV_OPS).Some?, QuantizableAfter(g, i));
    } else {
      FusedAnswer(g, i, gemm.value, k);
    }
  }

  lemma PartnerAdds(g: Graph, i: nat, k: nat)
    requires Traced(g) && IdentitiesAreUnary(g) && i < |g.nodes| && k < |g.nodes[i].inputs|
    ensures
      var gemm := FindFusedAdd(g, i, CONV_GEMM_OPS);
      AddLoses(g, i, k) <==> if gemm.Some? then FusedAddLoses(g, i, gemm.value, k) else !PlainAddKeeps(g, i)
  {
    AddMeans(g, i, CONV_GEMM_OPS);
    PartnerIs(g, i, k, FindFusedAdd(g, i, CONV_GEMM_OPS));
  }

  lemma PartnerIs(g: Graph, i: nat, k: nat, gemm: Option<nat>)
    requires Traced(g) && i < |g.nodes| && k < |g.nodes[i].inputs| && (gemm.Some? ==> gemm.value < |g.nodes|)
    requires forall p: nat :: AddsTo(g, i, p, CONV_GEMM_OPS) <==> gemm == Some(p)
    ensures AddLoses(g, i, k) <==> if gemm.Some? then FusedAddLoses(g, i, gemm.value, k) else !PlainAddKeeps(g, i)
  {
    if gemm.Some? {
      assert AddsTo(g, i, gemm.value, CONV_GEMM_OPS);
    }
  }

  /** If the optimization step does not raise, it takes the fake quant from exactly these arguments. */
  lemma ResetsExactly(g: Graph, i: nat, k: nat)
    requires Traced(g) && IdentitiesAreUnary(g) && i < |g.nodes| && k < |g.nodes[i].inputs| && Resets(g, i).Ok?
    ensures k in Resets(g, i).value <==> Loses(g, i, k)
  {
    var n := g.nodes[i];
    if n.qconfig.Some? && n.kind !in CONV_GEMM_OPS {
      Kinds(n);
      if n.kind.Add? {
        AddDispatch(g, i);
        AddLosing(g, i, k);
        AddResetsMeans(g, i, k);
      } else if IsRelu(n) {
        ReluDispatch(g, i);
        ReluLosing(g, i, k);
        ReluResets(g, i);
      } else {
        ShapeDispatch(g, i);
        ShapeLosing(g, i, k);
        PoolOrFlattenResets(g, i);
      }
    }
  }

  lemma Kinds(n: Node)
    ensures n.kind in ADD_OPS <==> n.kind.Add?
    ensures n.kind in ELT_WISE_Q_OPS <==> IsRelu(n)
  {
  }

  lemma AddDispatch(g: Graph, i: nat)
    requires Traced(g) && i < |g.nodes| && g.nodes[i].qconfig.Some?
    requires g.nodes[i].kind !in CONV_GEMM_OPS && g.nodes[i].kind in ADD_OPS
    ensures Resets(g, i) == AddResets(g, i)
  {
  }

  lemma ReluDispatch(g: Graph, i: nat)
    requires Traced(g) && i < |g.nodes| && g.nodes[i].qconfig.Some?
    requires g.nodes[i].kind !in CONV_GEMM_OPS && g.nodes[i].kind !in ADD_OPS && g.nodes[i].kind in ELT_WISE_Q_OPS
    ensures Resets(g, i) == EltwiseResets(g, i)
  {
  }

  lemma ShapeDispatch(g: Graph, i: nat)
    requires Traced(g) && i < |g.nodes| && g.nodes[i].qconfig.Some?
    requires g.nodes[i].kind !in CONV_GEMM_OPS && g.nodes[i].kind !in ADD_OPS && g.nodes[i].kind !in ELT_WISE_Q_OPS
    ensures Resets(g, i) == ShapeResets(g, i)
  {
  }

  lemma AddLosing(g: Graph, i: nat, k: nat)
    requires Traced(g) && i < |g.nodes| && k < |g.nodes[i].inputs| && g.nodes[i].qconfig.Some?
    requires g.nodes[i].kind !in CONV_GEMM_OPS && g.nodes[i].kind.Add?
    ensures Loses(g, i, k) <==> AddLoses(g, i, k)
  {
  }

  lemma ReluLosing(g: Graph, i: nat, k: nat)
    requires Traced(g) && i < |g.nodes| && k < |g.nodes[i].inputs| && g.nodes[i].qconfig.Some?
    requires g.nodes[i].kind !in CONV_GEMM_OPS && !g.nodes[i].kind.Add? && IsRelu(g.nodes[i])
    ensures Loses(g, i, k) <==> k == 0 && ReluLoses(g, i)
  {
  }

  lemma ShapeLosing(g: Graph, i: nat, k: nat)
    requires Traced(g) && i < |g.nodes| && k < |g.nodes[i].inputs| && g.nodes[i].qconfig.Some?
    requires g.nodes[i].kind !in CONV_GEMM_OPS && !g.nodes[i].kind.Add? && !IsRelu(g.nodes[i])
    ensures Loses(g, i, k) <==> k == 0 && ShapeLoses(g, i)
  {
  }

  // ----- Where the walks ask the wrong op

  /** A quantizable op stands before the op that computes operand `k`. */
  ghost predicate OperandQuantizable(g: Graph, i: nat, k: nat)
    requires Traced(g) && i < |g.nodes| && k < |g.nodes[i].inputs|
  {
    exists q: nat :: q < |g.nodes| && OutputOf(g, i, k, q) && QuantizableThrough(g, q)
  }

  /** The second operand's producer is listed first, and does not compute the first operand too. */
  ghost predicate ListedFirst(g: Graph, i: nat)
    requires i < |g.nodes| && |g.nodes[i].inputs| >= 2
  {
    |Pre(g, i)| == 2 && OutputOf(g, i, 1, Pre(g, i)[0]) && !OutputOf(g, i, 1, Pre(g, i)[1])
  }

  /** For an addition with two producers in its list, the op asked about an operand computes this operand exactly unless
      the operand is the second one and its producer is listed first: then the other producer is asked. */
  lemma AsksOwnProducer(g: Graph, i: nat, k: nat, q: nat)
    requires Traced(g) && i < |g.nodes| && |g.nodes[i].inputs| >= 2 && k <= 1 && |Pre(g, i)| == 2
    requires q < |g.nodes| && Asks(g, i, k, q)
    ensures OutputOf(g, i, k, q) <==> !(k == 1 && ListedFirst(g, i))
  {
  }

  /** So otherwise the other operand of a fused addition is treated by what stands before itself. */
  lemma AskedIsOperand(g: Graph, i: nat, k: nat)
    requires Traced(g) && i < |g.nodes| && |g.nodes[i].inputs| >= 2 && k <= 1 && |Pre(g, i)| == 2
    requires !(k == 1 && ListedFirst(g, i))
    ensures NothingAsked(g, i, k) <==> !OperandQuantizable(g, i, k)
  {
    forall q: nat | q < |g.nodes| && OutputOf(g, i, k, q) ensures Asks(g, i, k, q) {
      ProducerListed(g, i, k, q);
    }
    forall q: nat | q < |g.nodes| && Asks(g, i, k, q) ensures OutputOf(g, i, k, q) {
      AsksOwnProducer(g, i, k, q);
    }
  }

  lemma ProducerListed(g: Graph, i: nat, k: nat, q: nat)
    requires Traced(g) && i < |g.nodes| && |g.nodes[i].inputs| >= 2 && k <= 1 && |Pre(g, i)| == 2
    requires !(k == 1 && ListedFirst(g, i)) && q < |g.nodes| && OutputOf(g, i, k, q)
    ensures Asks(g, i, k, q)
  {
    var pre := Pre(g, i);
    FirstOrSecond(g, i, k, q);
    if k == 0 {
      assert pre[..2] == pre;
    } else {
      OneProducer(g, i, 1, pre[0], pre[1]);
    }
  }

  lemma FirstOrSecond(g: Graph, i: nat, k: nat, q: nat)
    requires i < |g.nodes| && k < |g.nodes[i].inputs| && q < |g.nodes| && OutputOf(g, i, k, q) && |Pre(g, i)| == 2
    ensures q == Pre(g, i)[0] || q == Pre(g, i)[1]
  {
    assert Feeds(g, q, i);
    assert q in Pre(g, i);
  }

  /** A tensor has one producer. */
  lemma OneProducer(g: Graph, i: nat, k: nat, p: nat, q: nat)
    requires Traced(g) && i < |g.nodes| && k < |g.nodes[i].inputs| && p < |g.nodes| && q < |g.nodes|
    ensures OutputOf(g, i, k, p) && OutputOf(g, i, k, q) ==> p == q
  {
  }

  /** An unquantized op listed first computes the second operand of an addition that fuses with the conv listed second:
      whatever follows, the operand keeps its fake quant. */
  lemma EarlierOperandKept(g: Graph, i: nat, op: nat, conv: nat)
    requires Traced(g) && IdentitiesAreUnary(g) && i < |g.nodes| && op < |g.nodes| && conv < |g.nodes|
    requires g.nodes[i].kind.Add? && |g.nodes[i].inputs| >= 2 && Pre(g, i) == [op, conv]
    requires OutputOf(g, i, 1, op) && OutputOf(g, i, 0, conv) && !OutputOf(g, i, 0, op)
    requires KindOf(g, op).OtherOp? && KindOf(g, conv) in CONV_OPS && Post(g, conv) == [i]
    requires g.nodes[op].qconfig.None? && g.nodes[conv].qconfig.Some?
    ensures !OperandQuantizable(g, i, 1) && !Loses(g, i, 1)
  {
    OtherIsNothing(g, i, op);
    SecondLeads(g, conv, i);
    SecondFuses(g, i, op, conv, CONV_OPS);
    SecondFuses(g, i, op, conv, CONV_GEMM_OPS);
    AsksSecondProducer(g, i, op, conv);
    SecondPartner(g, i, conv);
    if g.nodes[i].qconfig.Some? {
      AddLosing(g, i, 1);
    }
  }

  /** If the op asked about the second operand is quantizable, a fused conv does not take this operand's fake quant. */
  lemma SecondPartner(g: Graph, i: nat, conv: nat)
    requires Traced(g) && IdentitiesAreUnary(g) && i < |g.nodes| && conv < |g.nodes| && |g.nodes[i].inputs| >= 2
    requires AddsTo(g, i, conv, CONV_OPS) && AddsTo(g, i, conv, CONV_GEMM_OPS) && OutputOf(g, i, 0, conv)
    requires !NothingAsked(g, i, 1)
    ensures !AddLoses(g, i, 1)
  {
    assert AddsToConv(g, i) && OwnOperand(g, i, 0, conv);
    assert !OtherLoses(g, i, 1);
    OneOwn(g, i, 0, conv, 1);
    AddMeans(g, i, CONV_GEMM_OPS);
    PartnerIs(g, i, 1, Some(conv));
  }

  lemma AsksSecondProducer(g: Graph, i: nat, op: nat, conv: nat)
    requires Traced(g) && i < |g.nodes| && op < |g.nodes| && conv < |g.nodes| && |g.nodes[i].inputs| >= 2
    requires Pre(g, i) == [op, conv] && OutputOf(g, i, 1, op) && QuantizableThrough(g, conv)
    ensures !NothingAsked(g, i, 1)
  {
    assert Asks(g, i, 1, conv);
  }

  lemma SecondLeads(g: Graph, conv: nat, i: nat)
    requires Traced(g) && conv < |g.nodes| && KindOf(g, conv) in CONV_OPS && Post(g, conv) == [i]
    requires g.nodes[conv].qconfig.Some?
    ensures LeadsTo(g, conv, CONV_OPS) && LeadsTo(g, conv, CONV_GEMM_OPS) && QuantizableThrough(g, conv)
  {
    assert KindOf(g, conv) in CONV_GEMM_OPS;
    assert Quantizable(g, conv);
  }

  lemma SecondFuses(g: Graph, i: nat, op: nat, conv: nat, ops: set<OpType>)
    requires Traced(g) && i < |g.nodes| && op < |g.nodes| && conv < |g.nodes| && Pre(g, i) == [op, conv]
    requires LeadsTo(g, conv, ops) && !LeadsTo(g, op, ops) && !Decides(g, op)
    ensures AddsTo(g, i, conv, ops)
  {
  }

  lemma OtherIsNothing(g: Graph, i: nat, op: nat)
    requires Traced(g) && i < |g.nodes| && op < |g.nodes| && |g.nodes[i].inputs| >= 2 && OutputOf(g, i, 1, op)
    requires KindOf(g, op).OtherOp? && g.nodes[op].qconfig.None?
    ensures !QuantizableThrough(g, op) && !LeadsTo(g, op, CONV_OPS) && !LeadsTo(g, op, CONV_GEMM_OPS)
    ensures !Decides(g, op) && !OperandQuantizable(g, i, 1)
  {
    assert KindOf(g, op) !in ELT_WISE_NOQ_OPS;
    forall q: nat | q < |g.nodes| && OutputOf(g, i, 1, q) ensures q == op {
    }
  }

  /** An unquantized element-wise op right behind an in-place addition never counts as quantizable, even if the addition
      itself completes a fusion with a quantized conv or gemm: the source asks about the wrong op. */
  lemma InplaceAddForgotten(g: Graph, i: nat, add: nat)
    requires Traced(g) && i < |g.nodes| && add < |g.nodes| && KindOf(g, i) in ELT_WISE_NOQ_OPS
    requires g.nodes[i].qconfig.None? && Pre(g, i) == [add] && KindOf(g, add).AddInplace?
    ensures !Quantizable(g, i)
  {
    NoProduct(g, i);
    forall p: nat | FusesWith(g, i, p, FUSABLE_OPS) ensures p == add {
      assert forall e: nat :: !Linked(g, i, e, FUSABLE_OPS);
    }
    assert !LeadsTo(g, add, CONV_GEMM_OPS);
  }
}
