/**
 First calls whose traces show where the recipe's guarantees end. Every graph here is what a `Tracer` records.
 */
module RecipeCounterexamples {
  import opened Basics
  import opened QuantGraph
  import opened TraceIds
  import opened FusionPatterns
  import opened FusionMeaning
  import opened Dataflow
  import opened ConsumerCheck
  import opened Recipe

  const QC: QConfig := QConfig(QUInt8, QInt8)

  // ----- Recording a first call op by op

  function Floats(objects: seq<TensorObject>): (vs: seq<Value>)
    ensures |vs| == |objects| && forall k :: 0 <= k < |vs| ==> vs[k] == Tensor(objects[k], Float32)
  {
    seq(|objects|, k requires 0 <= k < |objects| => Tensor(objects[k], Float32))
  }

  lemma {:induction false} KnownStay(args: seq<Value>, info: map<TensorObject, TensorId>, first: nat)
    requires forall k :: 0 <= k < |args| && args[k].Tensor? ==> args[k].obj in info
    ensures Labelled(args, info, first) == info && NewDtypes(args, info, first) == []
  {
    if args != [] {
      KnownStay(args[..|args| - 1], info, first);
    }
  }

  lemma OneResult(out: TensorObject, info: map<TensorObject, TensorId>, first: nat)
    ensures Dtypes([Tensor(out, Float32)]) == [Float32]
    ensures Relabelled([Tensor(out, Float32)], info, first) == info[out := first]
  {
    assert [Tensor(out, Float32)][..0] == [];
  }

  /** `n` is what an op records that reads `args` and returns the tensor `id`. */
  predicate Records(n: Node, m: nat, args: seq<TensorObject>, info: map<TensorObject, TensorId>, id: TensorId)
  {
    && n.owner == m && n.outputs == [id] && n.slots == [0] && (n.qconfig.None? || n.qconfig == Some(QC))
    && |n.inputs| == |args| && forall k :: 0 <= k < |args| ==> args[k] in info && n.inputs[k] == Some(info[args[k]])
  }

  /** A new op of module `m` with all its hooks. */
  method RunOp(t: Tracer, m: nat, n: Node, args: seq<TensorObject>, out: TensorObject)
    requires t.Valid() && m < |t.states| && Records(n, m, args, t.info, |t.orig|)
    requires n.qconfig.Some? ==> t.states[m].idx == |t.states[m].seen|
    modifies t
    ensures t.Valid() && t.orig == old(t.orig) + [Float32] && t.info == old(t.info)[out := |old(t.orig)|]
    ensures t.states == old(t.states)[m := Ran(old(t.states[m]), n)]
  {
    RanIsRecorded(t.states[m], n, |t.orig|);
    BeginOp(t, m, n, args);
    OneResult(out, t.info, |t.orig|);
    t.AfterOp(m, [Tensor(out, Float32)], n.qconfig.Some?);
    if n.qconfig.Some? {
      t.MarkComplete(m);
    }
  }

  /** The hook before an op whose arguments have ids. */
  method BeginOp(t: Tracer, m: nat, n: Node, args: seq<TensorObject>)
    requires t.Valid() && m < |t.states| && n.owner == m && (n.qconfig.None? || n.qconfig == Some(QC))
    requires |n.inputs| == |args|
    requires forall k :: 0 <= k < |args| ==> args[k] in t.info && n.inputs[k] == Some(t.info[args[k]])
    modifies t
    ensures t.Valid() && t.orig == old(t.orig) && t.info == old(t.info)
    ensures t.states ==
      old(t.states)[m := Begun(old(t.states[m]), n.(outputs := [], slots := []), n.qconfig.Some?)]
  {
    KnownStay(Floats(args), t.info, |t.orig|);
    var ids := t.BeforeOp(m, n.kind, n.isModule, Floats(args), Some(QC), n.qconfig.Some?);
    assert ids == n.inputs;
  }

  function Ran(s: Recorded, n: Node): Recorded
  {
    if n.qconfig.None? then s.(nonq := s.nonq + [n]) else Recorded(s.idx + 1, s.seen + [n], s.nonq)
  }

  lemma RanIsRecorded(s: Recorded, n: Node, id: TensorId)
    requires n.outputs == [id] && n.slots == [0] && (n.qconfig.Some? ==> s.idx == |s.seen|)
    ensures HasCurrent(Begun(s, n.(outputs := [], slots := []), n.qconfig.Some?), n.qconfig.Some?)
    ensures var r := WithOutputs(Begun(s, n.(outputs := [], slots := []), n.qconfig.Some?), n.qconfig.Some?, id, 1);
            Ran(s, n) == if n.qconfig.Some? then r.(idx := r.idx + 1) else r
  {
    var start := n.(outputs := [], slots := []);
    assert Consecutive(id, 1) == [id] && Consecutive(0, 1) == [0];
    assert n == start.(outputs := [] + [id], slots := [] + [0]);
    if n.qconfig.None? {
      assert (s.nonq + [start])[|s.nonq| := n] == s.nonq + [n];
    } else {
      assert (s.seen + [start])[|s.seen| := n] == s.seen + [n];
    }
  }

  /** A fresh tracer for two modules that has seen the model's input, tensor object 0. */
  method Start() returns (t: Tracer)
    ensures fresh(t) && t.Valid() && t.orig == [Float32] && t.info == map[0 := 0]
    ensures t.states == [Recorded(0, [], []), Recorded(0, [], [])]
  {
    t := new Tracer(2);
    var id := t.Identify(Tensor(0, Float32));
  }

  lemma TwoModules(a: Recorded, b: Recorded)
    ensures NodesOf([a, b]) == (a.seen + a.nonq) + (b.seen + b.nonq)
  {
    assert [a, b][..1] == [a] && [a][..0] == [];
    assert NodesOf([a]) == a.seen + a.nonq;
  }

  // ----- A consumer that the check does not look at

  const EARLY_CONV: Node := Node(ConvModule, true, 0, [Some(0)], [1], [0], Some(QC))
  const EARLY_POOL: Node := Node(Pool, true, 0, [Some(1)], [2], [0], Some(QC))
  const EARLY_NEXT: Node := Node(ConvModule, true, 0, [Some(4)], [5], [0], Some(QC))
  const EARLY_SKIP: Node := Node(Identity, true, 0, [Some(2)], [4], [0], None)
  const EARLY_SIDE: Node := Node(OtherOp, false, 1, [Some(2)], [3], [0], None)

  /** conv -> pool -> Identity -> conv, where a submodule applied an unquantized op to the pool's result first. The
      Identity returns its argument, so this object then carries a new id. */
  ghost predicate IsEarly(g: Graph)
  {
    |g.nodes| == 5 && g.nodes[0] == EARLY_CONV && g.nodes[1] == EARLY_POOL && g.nodes[2] == EARLY_NEXT
    && g.nodes[3] == EARLY_SKIP && g.nodes[4] == EARLY_SIDE && IsFloat(g)
  }

  ghost predicate IsFloat(g: Graph)
  {
    forall t :: 0 <= t < |g.orig| ==> g.orig[t] == Float32
  }

  method TraceEarly() returns (t: Tracer)
    ensures fresh(t) && t.Valid() && IsEarly(t.Trace())
  {
    t := TraceEarlySide();
    RunOp(t, 0, EARLY_SKIP, [2], 2);
    RunOp(t, 0, EARLY_NEXT, [2], 4);
    EarlyNodes(t.states, t.orig);
  }

  /** The submodule runs before the Identity. */
  method TraceEarlySide() returns (t: Tracer)
    ensures fresh(t) && t.Valid() && t.orig == [Float32, Float32, Float32, Float32]
    ensures t.info == map[0 := 0, 1 := 1, 2 := 2, 3 := 3]
    ensures t.states == [Recorded(2, [EARLY_CONV, EARLY_POOL], []), Recorded(0, [], [EARLY_SIDE])]
  {
    t := TraceConvPool();
    t.ResetToNewCall(1);
    assert t.states[1] == Recorded(0, [], []);
    RunOp(t, 1, EARLY_SIDE, [2], 3);
    assert t.states[1].nonq == [EARLY_SIDE];
  }

  lemma {:induction false} EarlyNodes(states: seq<Recorded>, orig: seq<DType>)
    requires |states| == 2 && states[0].seen == [EARLY_CONV, EARLY_POOL] + [EARLY_NEXT]
    requires states[0].nonq == [] + [EARLY_SKIP]
    requires states[1].seen == [] && states[1].nonq == [EARLY_SIDE]
    requires forall t :: 0 <= t < |orig| ==> orig[t] == Float32
    ensures IsEarly(Graph(NodesOf(states), orig))
  {
    assert states == [states[0], states[1]];
    TwoModules(states[0], states[1]);
  }

  /** The first two ops. */
  method TraceConvPool() returns (t: Tracer)
    ensures fresh(t) && t.Valid() && t.orig == [Float32, Float32, Float32] && t.info == map[0 := 0, 1 := 1, 2 := 2]
    ensures t.states == [Recorded(2, [EARLY_CONV, EARLY_POOL], []), Recorded(0, [], [])]
  {
    t := Start();
    RunOp(t, 0, EARLY_CONV, [0], 1);
    RunOp(t, 0, EARLY_POOL, [1], 2);
    assert t.states[0].seen == [EARLY_CONV, EARLY_POOL];
  }

  /** One round of the connection loops for nodes with one input and one output. */
  lemma NextPost(g: Graph, i: nat, n: nat, o: TensorId, t: TensorId)
    requires i < |g.nodes| && n < |g.nodes| && g.nodes[i].outputs == [o] && g.nodes[n].inputs == [Some(t)]
    ensures PostUpTo(g, i, n + 1) == PostUpTo(g, i, n) + if o == t then [n] else []
  {
    assert [o][..0] == [];
    assert OutputMatches([o], [Some(t)], n) == [] + if Some(o) in [Some(t)] then [n] else [];
  }

  lemma NextPre(g: Graph, i: nat, n: nat, t: TensorId, o: TensorId)
    requires i < |g.nodes| && n < |g.nodes| && g.nodes[i].inputs == [Some(t)] && g.nodes[n].outputs == [o]
    ensures PreUpTo(g, i, n + 1) == PreUpTo(g, i, n) + if o == t then [n] else []
  {
    assert [Some(t)][..0] == [];
  }

  lemma EarlyPoolPosts(g: Graph)
    requires IsEarly(g)
    ensures Post(g, 1) == [3, 4]
  {
    NextPost(g, 1, 0, 2, 0);
    NextPost(g, 1, 1, 2, 1);
    NextPost(g, 1, 2, 2, 4);
    NextPost(g, 1, 3, 2, 2);
    NextPost(g, 1, 4, 2, 2);
  }

  lemma EarlySkipPosts(g: Graph)
    requires IsEarly(g)
    ensures Post(g, 3) == [2]
  {
    NextPost(g, 3, 0, 4, 0);
    NextPost(g, 3, 1, 4, 1);
    NextPost(g, 3, 2, 4, 4);
    NextPost(g, 3, 3, 4, 2);
    NextPost(g, 3, 4, 4, 2);
  }

  /** An Identity `m` that leads to a quantizable op `c` is listed before an unquantized consumer `d` of `i`. */
  ghost predicate ListedBehindIdentity(g: Graph, i: nat, m: nat, c: nat, d: nat)
  {
    && i < |g.nodes| && m < |g.nodes| && c < |g.nodes| && d < |g.nodes|
    && Post(g, i) == [m, d] && PassThrough(g.nodes[m]) && Post(g, m) == [c] && c != d
    && g.nodes[c].qconfig.Some? && (forall k :: 0 <= k < |g.nodes[c].inputs| ==> g.nodes[c].inputs[k].Some?)
    && Unquantized(g.nodes[d])
  }

  predicate Unquantized(n: Node) { n.qconfig.None? && !n.kind.Identity? }

  lemma PassesThroughIdentity(g: Graph, i: nat, m: nat, c: nat, d: nat)
    requires Traced(g) && IdentitiesAreUnary(g) && ListedBehindIdentity(g, i, m, c, d)
    ensures CanPass(g, i)
  {
    OnlyConsumerPasses(g, m, c);
    assert PassesAt(g, i, 0) && !Reaches(g, i, 1);
  }

  lemma OnlyConsumerPasses(g: Graph, m: nat, c: nat)
    requires Traced(g) && m < |g.nodes| && c < |g.nodes| && Post(g, m) == [c] && g.nodes[c].qconfig.Some?
    requires forall k :: 0 <= k < |g.nodes[c].inputs| ==> g.nodes[c].inputs[k].Some?
    ensures CanPass(g, m)
  {
    assert PassesAt(g, m, 0);
  }

  lemma SkipsBehindIdentity(g: Graph, i: nat, m: nat, c: nat, d: nat)
    requires Traced(g) && IdentitiesAreUnary(g) && ListedBehindIdentity(g, i, m, c, d)
    ensures !Inspects(g, i, d)
  {
    IdentitySkips(g, i, m, c, d);
    assert !InspectsVia(g, i, 0, d) && !Reaches(g, i, 1);
  }

  /** Behind the Identity, the check looks at its consumer only. */
  lemma IdentitySkips(g: Graph, i: nat, m: nat, c: nat, d: nat)
    requires Traced(g) && IdentitiesAreUnary(g) && ListedBehindIdentity(g, i, m, c, d)
    ensures !Inspects(g, m, d)
  {
    assert forall j :: 0 <= j < |Post(g, m)| ==> !InspectsVia(g, m, j, d);
  }

  /** Then the check of `i` can succeed and never looks at `d`. */
  lemma EarlyReturn(g: Graph, i: nat, m: nat, c: nat, d: nat)
    requires Traced(g) && IdentitiesAreUnary(g) && ListedBehindIdentity(g, i, m, c, d)
    ensures !Trustworthy(g, i)
  {
    PassesThroughIdentity(g, i, m, c, d);
    SkipsBehindIdentity(g, i, m, c, d);
    assert d in Post(g, i);
    var t :| t in g.nodes[i].outputs && Some(t) in g.nodes[d].inputs;
    var k :| 0 <= k < |g.nodes[d].inputs| && g.nodes[d].inputs[k] == Some(t);
    assert Edge(g, d, k) && Downstream(g, i, Arg(g, d, k));
    TrustworthyExactly(g, i);
  }

  /** So the pool's check can succeed although the submodule's op does not quantize. */
  lemma EarlyReturnMissesConsumer(g: Graph)
    requires IsEarly(g) && Traced(g) && IdentitiesAreUnary(g)
    ensures !Trustworthy(g, 1)
  {
    EarlyShape(g);
    EarlyReturn(g, 1, 3, 2, 4);
  }

  lemma EarlyShape(g: Graph)
    requires IsEarly(g)
    ensures ListedBehindIdentity(g, 1, 3, 2, 4)
  {
    EarlyPoolPosts(g);
    EarlySkipPosts(g);
  }

  // ----- A module that is activated again

  const AGAIN_SIDE: Node := Node(OtherOp, false, 0, [Some(2)], [4], [0], None)
  const AGAIN_ONCE: Node := Node(ConvModule, true, 1, [Some(2)], [3], [0], Some(QC))
  const AGAIN_TWICE: Node := Node(ConvModule, true, 1, [Some(2)], [3, 5], [0, 0], Some(QC))

  /** conv -> pool -> submodule with a conv, and pool -> unquantized op -> the same submodule once more. */
  ghost predicate IsAgain(g: Graph)
  {
    |g.nodes| == 4 && g.nodes[0] == EARLY_CONV && g.nodes[1] == EARLY_POOL && g.nodes[2] == AGAIN_SIDE
    && g.nodes[3] == AGAIN_TWICE && IsFloat(g)
  }

  method TraceAgain() returns (t: Tracer)
    ensures fresh(t) && t.Valid() && IsAgain(t.Trace())
  {
    t := TraceAgainOnce();
    t.ResetToNewCall(1);
    RunAgain(t, 1, [4], 5);
    AgainNodes(t.states, t.orig);
  }

  method TraceAgainOnce() returns (t: Tracer)
    ensures fresh(t) && t.Valid() && t.orig == [Float32, Float32, Float32, Float32, Float32] && 4 in t.info
    ensures t.states == [Recorded(2, [EARLY_CONV, EARLY_POOL], [AGAIN_SIDE]), Recorded(1, [AGAIN_ONCE], [])]
  {
    t := TraceConvPool();
    t.ResetToNewCall(1);
    assert t.states[1] == Recorded(0, [], []);
    RunOp(t, 1, AGAIN_ONCE, [2], 3);
    RunOp(t, 0, AGAIN_SIDE, [2], 4);
    assert t.states[1].seen == [AGAIN_ONCE] && t.states[0].nonq == [AGAIN_SIDE];
  }

  lemma {:induction false} AgainNodes(states: seq<Recorded>, orig: seq<DType>)
    requires |states| == 2 && states[0].seen == [EARLY_CONV, EARLY_POOL] && states[0].nonq == [AGAIN_SIDE]
    requires states[1].seen == [AGAIN_ONCE][0 := AddOutput([AGAIN_ONCE][0], 5, 0)] && states[1].nonq == []
    requires forall t :: 0 <= t < |orig| ==> orig[t] == Float32
    ensures IsAgain(Graph(NodesOf(states), orig))
  {
    assert states == [states[0], states[1]];
    assert AddOutput(AGAIN_ONCE, 5, 0) == AGAIN_TWICE;
    TwoModules(states[0], states[1]);
  }

  /** An op of a module's later activation, which reads `args` instead of its recorded arguments, adds its result to
      the record of the first one. */
  method RunAgain(t: Tracer, m: nat, args: seq<TensorObject>, out: TensorObject)
    requires t.Valid() && m < |t.states| && t.states[m].idx < |t.states[m].seen|
    requires forall k :: 0 <= k < |args| ==> args[k] in t.info
    modifies t
    ensures t.Valid() && t.orig == old(t.orig) + [Float32] && t.info == old(t.info)[out := |old(t.orig)|]
    ensures t.states == old(t.states)[m := Repeated(old(t.states[m]), |old(t.orig)|)]
  {
    var s := t.states[m];
    var again := Node(s.seen[s.idx].kind, s.seen[s.idx].isModule, m,
                      seq(|args|, k requires 0 <= k < |args| && args[k] in t.info reads t => Some(t.info[args[k]])),
                      [], [], Some(QC));
    BeginOp(t, m, again, args);
    OneResult(out, t.info, |t.orig|);
    RepeatedIsRecorded(t.states[m], |t.orig|);
    t.AfterOp(m, [Tensor(out, Float32)], true);
    t.MarkComplete(m);
  }

  function Repeated(s: Recorded, id: TensorId): Recorded
    requires s.idx < |s.seen|
  {
    s.(idx := s.idx + 1, seen := s.seen[s.idx := AddOutput(s.seen[s.idx], id, 0)])
  }

  lemma RepeatedIsRecorded(s: Recorded, id: TensorId)
    requires s.idx < |s.seen|
    ensures var r := WithOutputs(s, true, id, 1); Repeated(s, id) == r.(idx := r.idx + 1)
  {
    assert Consecutive(id, 1) == [id] && Consecutive(0, 1) == [0];
  }

  /** No Identity in the graph: every tensor is its own root. */
  lemma AgainRoots(g: Graph, t: TensorId)
    requires IsAgain(g) && Traced(g) && IdentitiesAreUnary(g)
    ensures Root(g, t) == t
  {
    assert forall p: nat :: p < |g.nodes| ==> !PassThrough(g.nodes[p]);
  }

  lemma AgainEdges(g: Graph)
    requires IsAgain(g)
    ensures Pre(g, 1) == [0] && Post(g, 1) != [] && Post(g, 1)[0] == 2
  {
    NextPre(g, 1, 0, 1, 1);
    NextPre(g, 1, 1, 1, 2);
    NextPre(g, 1, 2, 1, 4);
    assert InputMatches([Some(1)], [3, 5], 3) == [] by {
      assert [Some(1)][..0] == [];
    }
    NextPost(g, 1, 0, 2, 0);
    NextPost(g, 1, 1, 2, 1);
    NextPost(g, 1, 2, 2, 2);
    NextPost(g, 1, 3, 2, 2);
  }

  /** A pool behind a quantizable op that is no Identity plans to quantize its float32 input. */
  lemma PoolPlans(g: Graph, scales: seq<set<TensorId>>, i: nat, p: nat)
    requires Traced(g) && Calibrated(g, scales) && i < |g.nodes| && p < |g.nodes| && Pre(g, i) == [p]
    requires g.nodes[i].kind.Pool? && g.nodes[i].qconfig.Some? && Edge(g, i, 0) && g.orig[Arg(g, i, 0)] == Float32
    requires g.nodes[p].qconfig.Some? && !g.nodes[p].kind.Identity?
    ensures Plan(g, scales)[i][0] == Some(g.nodes[i].qconfig.value.activation)
  {
    PoolKeepsInput(g, i, p);
    assert ObservesInput(g.nodes[i], 0);
    assert ObservedBy(g.nodes[i], Arg(g, i, 0));
    assert HasScale(g, g.nodes[i].owner, Arg(g, i, 0));
  }

  lemma PoolKeepsInput(g: Graph, i: nat, p: nat)
    requires Traced(g) && i < |g.nodes| && p < |g.nodes| && Pre(g, i) == [p] && g.nodes[i].kind.Pool?
    requires g.nodes[p].qconfig.Some? && !g.nodes[p].kind.Identity?
    ensures g.nodes[i].qconfig.Some? ==> Resets(g, i) == Ok({})
  {
    assert QuantizableBefore(g, p) == Ok(true);
    assert ShapeResets(g, i) == Ok({});
    assert Pool !in CONV_GEMM_OPS && Pool !in ADD_OPS && Pool !in ELT_WISE_Q_OPS;
  }

  /** It quantizes its own output if its first consumer is an unquantized op and no op listed before it fires. */
  lemma PoolFires(g: Graph, scales: seq<set<TensorId>>, i: nat)
    requires Traced(g) && IdentitiesAreUnary(g) && Calibrated(g, scales) && i < |g.nodes|
    requires ObservesOutput(g.nodes[i]) && g.nodes[i].inputs != [] && IsQuantizedArg(Plan(g, scales)[i][0])
    requires forall q :: 0 <= q < i ==> !ObservesOutput(g.nodes[q])
    requires Post(g, i) != [] && Unquantized(g.nodes[Post(g, i)[0]])
    ensures i in SelfQuantizing(g, scales)
  {
    var plan := Plan(g, scales);
    assert Firing(g, plan, i) == {};
    SettledByNone(g, plan);
    assert !PostsQuantized(g, plan, i, 0);
    assert Fires(g, plan, i);
  }

  lemma SettledByNone(g: Graph, force: Force)
    requires Traced(g) && IdentitiesAreUnary(g) && ForceFits(g, force)
    ensures Settled(g, force, {}) == force
  {
    NothingFired(g, force);
  }

  lemma AgainPoolFires(g: Graph, scales: seq<set<TensorId>>)
    requires IsAgain(g) && Traced(g) && IdentitiesAreUnary(g) && Calibrated(g, scales)
    ensures 1 in SelfQuantizing(g, scales)
  {
    AgainEdges(g);
    PoolPlans(g, scales, 1, 0);
    AgainKinds();
    NoneBefore(g);
    PoolFires(g, scales, 1);
  }

  lemma NoneBefore(g: Graph)
    requires IsAgain(g)
    ensures forall q :: 0 <= q < 1 ==> !ObservesOutput(g.nodes[q])
  {
    AgainKinds();
  }

  lemma AgainKinds()
    ensures !ObservesOutput(EARLY_CONV) && ObservesOutput(EARLY_POOL) && Unquantized(AGAIN_SIDE)
  {
  }

  /** A conv that reads a self-quantizing op first, and in a later activation something else, misses a fake quant. */
  lemma LaterActivation(
      g: Graph, scales: seq<set<TensorId>>, m: Marks, p: nat, c: nat, k: nat, t: TensorId)
    requires Traced(g) && IdentitiesAreUnary(g) && Calibrated(g, scales) && Fits(g, m) && RecipeGuarantee(g, scales, m)
    requires ConvGemmInput(g, c, k) && p in SelfQuantizing(g, scales) && p < |g.nodes|
    requires Root(g, Arg(g, c, k)) in g.nodes[p].outputs
    requires forall q: nat :: q < |g.nodes| && ObservesOutput(g.nodes[q]) ==> Root(g, t) !in g.nodes[q].outputs
    ensures AppliedTo(g, scales, m, c, k, t) != 1
  {
    assert FromAny(g, SelfQuantizing(g, scales), Arg(g, c, k));
    NoFirstResult(g, scales, m, t);
    GuaranteedAt(g, scales, m, c, k, t);
  }

  lemma NoFirstResult(g: Graph, scales: seq<set<TensorId>>, m: Marks, t: TensorId)
    requires Traced(g) && IdentitiesAreUnary(g) && Calibrated(g, scales) && Fits(g, m) && RecipeGuarantee(g, scales, m)
    requires forall q: nat :: q < |g.nodes| && ObservesOutput(g.nodes[q]) ==> Root(g, t) !in g.nodes[q].outputs
    ensures !FromFirstResult(g, SelfQuantizing(g, scales), t)
  {
    forall q | q in SelfQuantizing(g, scales) ensures !FirstResult(g, q, Root(g, t)) {
      assert Fired(g, m, q);
    }
  }

  lemma GuaranteedAt(g: Graph, scales: seq<set<TensorId>>, m: Marks, c: nat, k: nat, t: TensorId)
    requires Traced(g) && IdentitiesAreUnary(g) && Calibrated(g, scales) && Fits(g, m) && RecipeGuarantee(g, scales, m)
    requires ConvGemmInput(g, c, k)
    ensures AppliedTo(g, scales, m, c, k, t) == 1 <==>
      (FromFirstResult(g, SelfQuantizing(g, scales), t) <==> FromAny(g, SelfQuantizing(g, scales), Arg(g, c, k)))
  {
  }

  /** The conv's recorded argument is fake-quantized once, but what it gets in its second activation is not. */
  lemma SecondActivationLosesQuant(g: Graph, scales: seq<set<TensorId>>, m: Marks)
    requires IsAgain(g) && Traced(g) && IdentitiesAreUnary(g) && Calibrated(g, scales) && Fits(g, m)
    requires RecipeGuarantee(g, scales, m)
    ensures ConvGemmInput(g, 3, 0) && AppliedTo(g, scales, m, 3, 0, 4) != 1
  {
    AgainPoolFires(g, scales);
    AgainRoots(g, 2);
    AgainRoots(g, 4);
    assert Edge(g, 3, 0) && Arg(g, 3, 0) == 2 && 2 in g.nodes[1].outputs;
    LaterActivation(g, scales, m, 1, 3, 0, 4);
  }

  // ----- A fusion walk that raises

  const MIRROR_POOL: Node := Node(Pool, true, 0, [Some(3)], [4], [0], Some(QC))
  const MIRROR_SIGMOID: Node := Node(Sigmoid, false, 0, [Some(1)], [2], [0], None)
  const MIRROR_MUL: Node := Node(Mul, false, 0, [Some(1), Some(2)], [3], [0], None)
  const MIRROR_CONV: Node := Node(ConvModule, true, 1, [Some(0)], [1], [0], Some(QC))

  /** A submodule's conv, whose result is multiplied with its own sigmoid and then pooled. The submodule is listed
      last, so the sigmoid is listed before the conv. */
  ghost predicate IsMirror(g: Graph)
  {
    |g.nodes| == 4 && g.nodes[0] == MIRROR_POOL && g.nodes[1] == MIRROR_SIGMOID && g.nodes[2] == MIRROR_MUL
    && g.nodes[3] == MIRROR_CONV && IsFloat(g)
  }

  method TraceMirror() returns (t: Tracer)
    ensures fresh(t) && t.Valid() && IsMirror(t.Trace())
  {
    t := TraceConvSigmoid();
    RunOp(t, 0, MIRROR_MUL, [1, 2], 3);
    RunOp(t, 0, MIRROR_POOL, [3], 4);
    MirrorNodes(t.states, t.orig);
  }

  lemma {:induction false} MirrorNodes(states: seq<Recorded>, orig: seq<DType>)
    requires |states| == 2 && states[0].seen == [] + [MIRROR_POOL] && states[0].nonq == [MIRROR_SIGMOID] + [MIRROR_MUL]
    requires states[1].seen == [MIRROR_CONV] && states[1].nonq == []
    requires forall t :: 0 <= t < |orig| ==> orig[t] == Float32
    ensures IsMirror(Graph(NodesOf(states), orig))
  {
    assert states == [states[0], states[1]];
    TwoModules(states[0], states[1]);
  }

  method TraceConvSigmoid() returns (t: Tracer)
    ensures fresh(t) && t.Valid() && t.orig == [Float32, Float32, Float32] && t.info == map[0 := 0, 1 := 1, 2 := 2]
    ensures t.states == [Recorded(0, [], [MIRROR_SIGMOID]), Recorded(1, [MIRROR_CONV], [])]
  {
    t := Start();
    RunOp(t, 1, MIRROR_CONV, [0], 1);
    RunOp(t, 0, MIRROR_SIGMOID, [1], 2);
    assert t.states[1].seen == [MIRROR_CONV] && t.states[0].nonq == [MIRROR_SIGMOID];
  }

  lemma MirrorEdges(g: Graph)
    requires IsMirror(g)
    ensures Pre(g, 0) == [2]
  {
    NextPre(g, 0, 0, 3, 4);
    NextPre(g, 0, 1, 3, 2);
    NextPre(g, 0, 2, 3, 3);
    NextPre(g, 0, 3, 3, 1);
  }

  lemma MirrorOperands(g: Graph)
    requires IsMirror(g)
    ensures Pre(g, 2) == [1, 3]
  {
    NextPreOfTwo(g, 2, 0, 1, 2, 4);
    NextPreOfTwo(g, 2, 1, 1, 2, 2);
    NextPreOfTwo(g, 2, 2, 1, 2, 3);
    NextPreOfTwo(g, 2, 3, 1, 2, 1);
  }

  lemma NextPreOfTwo(g: Graph, i: nat, n: nat, t: TensorId, u: TensorId, o: TensorId)
    requires i < |g.nodes| && n < |g.nodes| && g.nodes[i].inputs == [Some(t), Some(u)] && g.nodes[n].outputs == [o]
    requires t != u
    ensures PreUpTo(g, i, n + 1) == PreUpTo(g, i, n) + if o == t || o == u then [n] else []
  {
    assert [Some(t), Some(u)][..1] == [Some(t)] && [Some(t)][..0] == [];
    assert InputMatches([Some(t)], [o], n) == if o == t then [n] else [];
  }

  /** The walk from the pool meets a sigmoid listed before the conv, and the recipe fails. */
  lemma MirrorRaises(g: Graph)
    requires IsMirror(g) && Traced(g)
    ensures MirroredSwish(g, 2) && Blocked(g, 0) && Resets(g, 0).Raised?
  {
    MirrorEdges(g);
    MirrorOperands(g);
    PoolBlocked(g, 0, 2);
    ResetsRaise(g, 0);
  }

  /** A mirrored swish right before a pool blocks it. */
  lemma PoolBlocked(g: Graph, i: nat, p: nat)
    requires Traced(g) && i < |g.nodes| && p < |g.nodes| && Pre(g, i) == [p] && ArgsPresent(g.nodes[i])
    requires g.nodes[i].kind == Pool && g.nodes[i].qconfig.Some? && g.nodes[p].qconfig.None? && MirroredSwish(g, p)
    ensures Blocked(g, i)
  {
    PoolIsShape(g, i);
    MirroredRaises(g, p);
  }

  lemma PoolIsShape(g: Graph, i: nat)
    requires Traced(g) && i < |g.nodes| && ArgsPresent(g.nodes[i]) && g.nodes[i].kind == Pool
    requires g.nodes[i].qconfig.Some?
    ensures Blocked(g, i) <==> |Pre(g, i)| == 1 && AskRaises(g, Pre(g, i)[0])
  {
    assert Pool !in CONV_GEMM_OPS && Pool !in ELT_WISE_Q_OPS;
  }

  // ----- An addition whose second operand was computed first

  const ASKED_ADD: Node := Node(Add, false, 0, [Some(2), Some(1)], [3], [0], Some(QC))
  const ASKED_OP: Node := Node(OtherOp, false, 0, [Some(0)], [1], [0], None)
  const ASKED_CONV: Node := Node(ConvModule, true, 1, [Some(0)], [2], [0], Some(QC))

  /** The model adds an unquantized op's result to that of a submodule's conv. */
  ghost predicate IsAsked(g: Graph)
  {
    |g.nodes| == 3 && g.nodes[0] == ASKED_ADD && g.nodes[1] == ASKED_OP && g.nodes[2] == ASKED_CONV && IsFloat(g)
  }

  method TraceAsked() returns (t: Tracer)
    ensures fresh(t) && t.Valid() && IsAsked(t.Trace())
  {
    t := TraceAskedOperands();
    RunOp(t, 0, ASKED_ADD, [2, 1], 3);
    AskedNodes(t.states, t.orig);
  }

  method TraceAskedOperands() returns (t: Tracer)
    ensures fresh(t) && t.Valid() && t.orig == [Float32, Float32, Float32] && t.info == map[0 := 0, 1 := 1, 2 := 2]
    ensures t.states == [Recorded(0, [], [ASKED_OP]), Recorded(1, [ASKED_CONV], [])]
  {
    t := Start();
    RunOp(t, 0, ASKED_OP, [0], 1);
    RunOp(t, 1, ASKED_CONV, [0], 2);
    assert t.states[1].seen == [ASKED_CONV] && t.states[0].nonq == [ASKED_OP];
  }

  lemma {:induction false} AskedNodes(states: seq<Recorded>, orig: seq<DType>)
    requires |states| == 2 && states[0].seen == [] + [ASKED_ADD] && states[0].nonq == [ASKED_OP]
    requires states[1].seen == [ASKED_CONV] && states[1].nonq == []
    requires forall t :: 0 <= t < |orig| ==> orig[t] == Float32
    ensures IsAsked(Graph(NodesOf(states), orig))
  {
    assert states == [states[0], states[1]];
    TwoModules(states[0], states[1]);
  }

  lemma AskedEdges(g: Graph)
    requires IsAsked(g)
    ensures Pre(g, 0) == [1, 2] && Post(g, 2) == [0]
  {
    NextPreOfTwo(g, 0, 0, 2, 1, 3);
    NextPreOfTwo(g, 0, 1, 2, 1, 1);
    NextPreOfTwo(g, 0, 2, 2, 1, 2);
    AskedPost(g);
  }

  lemma AskedPost(g: Graph)
    requires IsAsked(g)
    ensures Post(g, 2) == [0]
  {
    assert [2][..0] == [];
    assert PostUpTo(g, 2, 1) == PostUpTo(g, 2, 0) + OutputMatches([2], [Some(2), Some(1)], 0);
    NextPost(g, 2, 1, 2, 0);
    NextPost(g, 2, 2, 2, 0);
  }

  /** The addition fuses with the conv, and although an unquantized op computes its other operand, and nothing follows,
      this operand keeps its fake quant. */
  lemma AskedKeepsQuant(g: Graph, scales: seq<set<TensorId>>)
    requires IsAsked(g) && Traced(g) && IdentitiesAreUnary(g) && Calibrated(g, scales)
    ensures Edge(g, 0, 1) && KeepsQuant(g, scales, 0, 1) && !OperandQuantizable(g, 0, 1)
  {
    AskedEdges(g);
    EarlierOperandKept(g, 0, 1, 2);
    assert ObservesInput(g.nodes[0], 1) && g.nodes[0].inputs[1] == Some(1);
    assert ObservedBy(g.nodes[0], 1);
  }
}
