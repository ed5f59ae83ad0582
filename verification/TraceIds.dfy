/**
 Tensor ids during the first call (quantization/_quantization_state.py, the `first_call_*` hooks).

 A tensor object carries at most one `_qtensor_info`; `info` maps objects to the id stored there.
 An in-place op returns one of its inputs, so recording its output overwrites that attribute.
 */
module TraceIds {
  import opened Basics
  import opened QuantGraph

  /** Python object identity of a tensor. */
  type TensorObject = nat

  datatype Value = Tensor(obj: TensorObject, dtype: DType) | NonTensor

  /** What one module's quantization state has recorded. */
  datatype Recorded = Recorded(idx: nat, seen: seq<Node>, nonq: seq<Node>)

  /** The nodes in the order of `convert_quant_state_map_to_nodes`: module by module, quantizable ops first. */
  function NodesOf(states: seq<Recorded>): seq<Node>
  {
    if states == [] then []
    else
      var last := states[|states| - 1];
      NodesOf(states[..|states| - 1]) + (last.seen + last.nonq)
  }

  lemma {:induction false} NodesAppend(a: seq<Recorded>, b: seq<Recorded>)
    ensures NodesOf(a + b) == NodesOf(a) + NodesOf(b)
    decreases |b|
  {
    if b == [] {
      assert a + b == a;
    } else {
      assert (a + b)[..|a + b| - 1] == a + b[..|b| - 1];
      NodesAppend(a, b[..|b| - 1]);
    }
  }

  /** The nodes around module `m`'s own. */
  lemma NodesAround(states: seq<Recorded>, m: nat, s: Recorded)
    requires m < |states|
    ensures NodesOf(states[m := s]) == NodesOf(states[..m]) + (s.seen + s.nonq) + NodesOf(states[m + 1..])
  {
    var changed := states[m := s];
    assert changed == (states[..m] + [s]) + states[m + 1..];
    NodesAppend(states[..m] + [s], states[m + 1..]);
    NodesAppend(states[..m], [s]);
    assert [s][..0] == [];
    assert NodesOf([s]) == s.seen + s.nonq;
  }

  /** A new op whose inputs are known keeps the graph a trace. */
  lemma InsertKeepsTraced(a: seq<Node>, b: seq<Node>, n: Node, orig: seq<DType>)
    requires Traced(Graph(a + b, orig)) && n.outputs == [] && n.slots == []
    requires forall t :: Some(t) in n.inputs ==> t < |orig|
    ensures Traced(Graph(a + [n] + b, orig))
  {
    var g, g' := Graph(a + b, orig), Graph(a + [n] + b, orig);
    assert g'.nodes[|a|] == n;
    assert forall i :: 0 <= i < |a| ==> g'.nodes[i] == g.nodes[i];
    assert forall i :: |a| < i < |g'.nodes| ==> g'.nodes[i] == g.nodes[i - 1];
    InsertedIsTraced(g, g', |a|);
  }

  lemma InsertedIsTraced(g: Graph, g': Graph, k: nat)
    requires Traced(g) && k < |g'.nodes| == |g.nodes| + 1 && g'.orig == g.orig
    requires g'.nodes[k].outputs == [] && g'.nodes[k].slots == []
    requires forall t :: Some(t) in g'.nodes[k].inputs ==> t < |g.orig|
    requires forall i :: 0 <= i < k ==> g'.nodes[i] == g.nodes[i]
    requires forall i :: k < i < |g'.nodes| ==> g'.nodes[i] == g.nodes[i - 1]
    ensures Traced(g')
  {
    assert SlotsFit(g'.nodes[k]);
    forall i, j, o | 0 <= i < |g'.nodes| && 0 <= j < |g'.nodes| && o in g'.nodes[i].outputs && o in g'.nodes[j].outputs
      ensures i == j
    {
      var i', j' := if i < k then i else i - 1, if j < k then j else j - 1;
      assert g'.nodes[i] == g.nodes[i'] && g'.nodes[j] == g.nodes[j'];
    }
  }

  /** Appending a brand-new id to some op's outputs keeps the graph a trace. */
  lemma OutputKeepsTraced(a: seq<Node>, b: seq<Node>, n: Node, orig: seq<DType>, slot: nat, d: DType)
    requires Traced(Graph(a + [n] + b, orig)) && slot <= |n.outputs|
    ensures Traced(Graph(a + [AddOutput(n, |orig|, slot)] + b, orig + [d]))
  {
    var n' := AddOutput(n, |orig|, slot);
    var g, g' := Graph(a + [n] + b, orig), Graph(a + [n'] + b, orig + [d]);
    assert g.nodes[|a|] == n && g'.nodes[|a|] == n';
    assert forall i :: 0 <= i < |g'.nodes| && i != |a| ==> g'.nodes[i] == g.nodes[i];
    OutputAdded(g, g', |a|, slot, d);
  }

  lemma OutputAdded(g: Graph, g': Graph, k: nat, slot: nat, d: DType)
    requires Traced(g) && k < |g'.nodes| == |g.nodes| && g'.orig == g.orig + [d] && slot <= |g.nodes[k].outputs|
    requires g'.nodes[k] == AddOutput(g.nodes[k], |g.orig|, slot)
    requires forall i :: 0 <= i < |g.nodes| && i != k ==> g'.nodes[i] == g.nodes[i]
    ensures Traced(g')
  {
    var n, n' := g.nodes[k], g'.nodes[k];
    assert SlotsFit(n);
    forall x | 0 <= x < |n.outputs| ensures n'.outputs[x] == n.outputs[x] < |g.orig| {
      assert n.outputs[x] in n.outputs;
    }
  }

  lemma GrowKeepsTraced(nodes: seq<Node>, orig: seq<DType>, d: DType)
    requires Traced(Graph(nodes, orig))
    ensures Traced(Graph(nodes, orig + [d]))
  {
  }

  function AddOutput(n: Node, id: TensorId, slot: nat): Node
  {
    n.(outputs := n.outputs + [id], slots := n.slots + [slot])
  }

  /** The op that ran last in a module: the current quantizable one, or the newest unquantizable one. */
  predicate HasCurrent(s: Recorded, quantizable: bool)
  {
    if quantizable then s.idx < |s.seen| else s.nonq != []
  }

  function Current(s: Recorded, quantizable: bool): Node
    requires HasCurrent(s, quantizable)
  {
    if quantizable then s.seen[s.idx] else s.nonq[|s.nonq| - 1]
  }

  function WithOutput(s: Recorded, quantizable: bool, id: TensorId, slot: nat): Recorded
    requires HasCurrent(s, quantizable)
  {
    WithCurrent(s, quantizable, AddOutput(Current(s, quantizable), id, slot))
  }

  /** The op that is recorded before it runs. */
  function Started(
      m: nat, kind: OpType, isModule: bool, ids: seq<Option<TensorId>>, qconfig: Option<QConfig>,
      quantizable: bool): Node
  {
    Node(kind, isModule, m, ids, [], [], if quantizable then qconfig else None)
  }

  function Begun(s: Recorded, n: Node, quantizable: bool): Recorded
  {
    if !quantizable then s.(nonq := s.nonq + [n])
    else if s.idx == |s.seen| then s.(seen := s.seen + [n])
    else s
  }

  /** `ids` are the ids of the arguments: the ones they had, or new ones. */
  predicate Identified(
      args: seq<Value>, ids: seq<Option<TensorId>>, before: map<TensorObject, TensorId>,
      after: map<TensorObject, TensorId>)
  {
    && |ids| == |args|
    && (forall o :: o in before ==> o in after && after[o] == before[o])
    && (forall k :: 0 <= k < |args| ==>
          if args[k].Tensor? then args[k].obj in after && ids[k] == Some(after[args[k].obj]) else ids[k] == None)
  }

  /** The dtypes of the tensors among `args` that have no id yet, each once. */
  function NewDtypes(args: seq<Value>, info: map<TensorObject, TensorId>, first: nat): seq<DType>
  {
    if args == [] then []
    else
      var last, front := args[|args| - 1], args[..|args| - 1];
      NewDtypes(front, info, first)
        + (if last.Tensor? && last.obj !in Labelled(front, info, first) then [last.dtype] else [])
  }

  /** Tensors without an id get the ids `first`, `first + 1`, ...; all others keep theirs. */
  function Labelled(args: seq<Value>, info: map<TensorObject, TensorId>, first: nat): map<TensorObject, TensorId>
  {
    if args == [] then info
    else
      var last, front := args[|args| - 1], args[..|args| - 1];
      var before := Labelled(front, info, first);
      if last.Tensor? && last.obj !in before then before[last.obj := first + |NewDtypes(front, info, first)|]
      else before
  }

  lemma NextArgument(args: seq<Value>, k: nat, info: map<TensorObject, TensorId>, first: nat)
    requires k < |args|
    ensures NewDtypes(args[..k + 1], info, first) == NewDtypes(args[..k], info, first)
      + (if args[k].Tensor? && args[k].obj !in Labelled(args[..k], info, first) then [args[k].dtype] else [])
    ensures Labelled(args[..k + 1], info, first) ==
      if args[k].Tensor? && args[k].obj !in Labelled(args[..k], info, first)
      then Labelled(args[..k], info, first)[args[k].obj := first + |NewDtypes(args[..k], info, first)|]
      else Labelled(args[..k], info, first)
  {
    assert args[..k + 1][..k] == args[..k];
  }

  /** The first `k` arguments are identified. */
  ghost predicate ArgumentsDone(
      args: seq<Value>, k: nat, orig0: seq<DType>, info0: map<TensorObject, TensorId>,
      orig: seq<DType>, info: map<TensorObject, TensorId>, ids: seq<Option<TensorId>>)
  {
    && k <= |args| && Identified(args[..k], ids, info0, info)
    && orig == orig0 + NewDtypes(args[..k], info0, |orig0|) && info == Labelled(args[..k], info0, |orig0|)
  }

  lemma NextArgumentDone(
      args: seq<Value>, k: nat, orig0: seq<DType>, info0: map<TensorObject, TensorId>,
      orig: seq<DType>, info: map<TensorObject, TensorId>, ids: seq<Option<TensorId>>)
    requires k < |args| && ArgumentsDone(args, k, orig0, info0, orig, info, ids)
    ensures if args[k].Tensor? && args[k].obj !in info
            then ArgumentsDone(args, k + 1, orig0, info0, orig + [args[k].dtype], info[args[k].obj := |orig|],
                               ids + [Some(|orig|)])
            else ArgumentsDone(args, k + 1, orig0, info0, orig, info,
                               ids + [if args[k].Tensor? then Some(info[args[k].obj]) else None])
  {
    NextArgument(args, k, info0, |orig0|);
  }

  /** The dtypes of the tensors among `vs`. */
  function Dtypes(vs: seq<Value>): (r: seq<DType>)
    ensures |r| <= |vs|
  {
    if vs == [] then []
    else
      var last := vs[|vs| - 1];
      Dtypes(vs[..|vs| - 1]) + (if last.Tensor? then [last.dtype] else [])
  }

  /** The tensors among `vs` carry the ids `first`, `first + 1`, ... */
  function Relabelled(vs: seq<Value>, info: map<TensorObject, TensorId>, first: nat): map<TensorObject, TensorId>
  {
    if vs == [] then info
    else
      var last, front := vs[|vs| - 1], vs[..|vs| - 1];
      var before := Relabelled(front, info, first);
      if last.Tensor? then before[last.obj := first + |Dtypes(front)|] else before
  }

  lemma {:induction false} RelabelledFresh(vs: seq<Value>, info: map<TensorObject, TensorId>, first: nat)
    ensures forall k :: 0 <= k < |vs| && vs[k].Tensor? ==>
      vs[k].obj in Relabelled(vs, info, first) && first <= Relabelled(vs, info, first)[vs[k].obj]
    ensures forall o :: o in info ==> o in Relabelled(vs, info, first)
  {
    if vs != [] {
      RelabelledFresh(vs[..|vs| - 1], info, first);
    }
  }

  lemma NextTensor(vs: seq<Value>, k: nat, info: map<TensorObject, TensorId>, first: nat)
    requires k < |vs|
    ensures Dtypes(vs[..k + 1]) == Dtypes(vs[..k]) + (if vs[k].Tensor? then [vs[k].dtype] else [])
    ensures Relabelled(vs[..k + 1], info, first) ==
      if vs[k].Tensor? then Relabelled(vs[..k], info, first)[vs[k].obj := first + |Dtypes(vs[..k])|]
      else Relabelled(vs[..k], info, first)
  {
    assert vs[..k + 1][..k] == vs[..k];
  }

  /** The first `k` elements of an op's output are recorded, `slot` of them tensors. */
  ghost predicate OutputsDone(
      vs: seq<Value>, k: nat, orig0: seq<DType>, info0: map<TensorObject, TensorId>,
      orig: seq<DType>, info: map<TensorObject, TensorId>, slot: nat)
  {
    && k <= |vs| && slot == |Dtypes(vs[..k])|
    && orig == orig0 + Dtypes(vs[..k]) && info == Relabelled(vs[..k], info0, |orig0|)
  }

  /** Module `m`'s current op has the last `slot` ids as its outputs. */
  ghost predicate StateDone(states0: seq<Recorded>, m: nat, quantizable: bool, states: seq<Recorded>, n: nat, slot: nat)
    requires m < |states0| && HasCurrent(states0[m], quantizable)
  {
    slot <= n && states == states0[m := WithOutputs(states0[m], quantizable, n - slot, slot)]
  }

  lemma StateStep(states0: seq<Recorded>, m: nat, quantizable: bool, before: seq<Recorded>, states: seq<Recorded>,
                  n: nat, slot: nat, next: nat)
    requires m < |states0| && HasCurrent(states0[m], quantizable)
    requires StateDone(states0, m, quantizable, before, n, slot) && slot <= next
    requires states == before[m := WithOutputs(states0[m], quantizable, n - slot, next)]
    ensures StateDone(states0, m, quantizable, states, n + next - slot, next)
  {
    UpdateTwice(states0, m, before[m], states[m]);
  }

  lemma NextOutputDone(
      vs: seq<Value>, k: nat, orig0: seq<DType>, info0: map<TensorObject, TensorId>,
      orig: seq<DType>, info: map<TensorObject, TensorId>, slot: nat,
      orig': seq<DType>, info': map<TensorObject, TensorId>, slot': nat)
    requires k < |vs| && OutputsDone(vs, k, orig0, info0, orig, info, slot)
    requires slot' == if vs[k].Tensor? then slot + 1 else slot
    requires orig' == if vs[k].Tensor? then orig + [vs[k].dtype] else orig
    requires info' == if vs[k].Tensor? then info[vs[k].obj := |orig|] else info
    ensures OutputsDone(vs, k + 1, orig0, info0, orig', info', slot') && |orig'| == |orig| + slot' - slot
  {
    NextTensor(vs, k, info0, |orig0|);
  }

  /** The op that ran last in a module becomes `n`. */
  function WithCurrent(s: Recorded, quantizable: bool, n: Node): (r: Recorded)
    requires HasCurrent(s, quantizable)
    ensures HasCurrent(r, quantizable) && Current(r, quantizable) == n
  {
    if quantizable then s.(seen := s.seen[s.idx := n]) else s.(nonq := s.nonq[|s.nonq| - 1 := n])
  }

  /** An activation that returned `n` tensors: fresh ids from `first` on, in the slots 0, 1, ... */
  function WithOutputs(s: Recorded, quantizable: bool, first: nat, n: nat): (r: Recorded)
    requires HasCurrent(s, quantizable)
    ensures HasCurrent(r, quantizable)
  {
    var op := Current(s, quantizable);
    WithCurrent(s, quantizable,
                op.(outputs := op.outputs + Consecutive(first, n), slots := op.slots + Consecutive(0, n)))
  }

  lemma NoOutputs(s: Recorded, quantizable: bool, first: nat)
    requires HasCurrent(s, quantizable)
    ensures WithOutputs(s, quantizable, first, 0) == s
  {
    var op := Current(s, quantizable);
    assert op.outputs + Consecutive(first, 0) == op.outputs && op.slots + Consecutive(0, 0) == op.slots;
  }

  lemma OneMoreOutput(s: Recorded, quantizable: bool, first: nat, n: nat)
    requires HasCurrent(s, quantizable)
    ensures |Current(WithOutputs(s, quantizable, first, n), quantizable).outputs| >= n
    ensures WithOutput(WithOutputs(s, quantizable, first, n), quantizable, first + n, n)
      == WithOutputs(s, quantizable, first, n + 1)
  {
    assert Consecutive(first, n + 1) == Consecutive(first, n) + [first + n];
    assert Consecutive(0, n + 1) == Consecutive(0, n) + [n];
    var op := Current(s, quantizable);
    assert op.outputs + Consecutive(first, n) + [first + n] == op.outputs + Consecutive(first, n + 1);
    assert op.slots + Consecutive(0, n) + [n] == op.slots + Consecutive(0, n + 1);
  }

  lemma NewNonQ(states: seq<Recorded>, m: nat, n: Node, orig: seq<DType>)
    requires m < |states| && Traced(Graph(NodesOf(states), orig)) && n.outputs == [] && n.slots == []
    requires forall t :: Some(t) in n.inputs ==> t < |orig|
    ensures Traced(Graph(NodesOf(states[m := states[m].(nonq := states[m].nonq + [n])]), orig))
  {
    var s, a, b := states[m], NodesOf(states[..m]), NodesOf(states[m + 1..]);
    assert states == states[m := s];
    NodesAround(states, m, s);
    InsertKeepsTraced(a + (s.seen + s.nonq), b, n, orig);
    NodesAround(states, m, s.(nonq := s.nonq + [n]));
    InsertedLast(a, s.seen, s.nonq, n, b);
  }

  lemma NewSeen(states: seq<Recorded>, m: nat, n: Node, orig: seq<DType>)
    requires m < |states| && Traced(Graph(NodesOf(states), orig)) && n.outputs == [] && n.slots == []
    requires forall t :: Some(t) in n.inputs ==> t < |orig|
    ensures Traced(Graph(NodesOf(states[m := states[m].(seen := states[m].seen + [n])]), orig))
  {
    var s, a, b := states[m], NodesOf(states[..m]), NodesOf(states[m + 1..]);
    assert states == states[m := s];
    NodesAround(states, m, s);
    Regroup(a, s.seen, s.nonq, b);
    InsertKeepsTraced(a + s.seen, s.nonq + b, n, orig);
    NodesAround(states, m, s.(seen := s.seen + [n]));
    InsertedInside(a, s.seen, n, s.nonq, b);
  }

  lemma OutputTraced(
      states: seq<Recorded>, m: nat, quantizable: bool, orig: seq<DType>, slot: nat, d: DType)
    requires m < |states| && Traced(Graph(NodesOf(states), orig)) && HasCurrent(states[m], quantizable)
    requires slot <= |Current(states[m], quantizable).outputs|
    ensures Traced(Graph(NodesOf(states[m := WithOutput(states[m], quantizable, |orig|, slot)]), orig + [d]))
  {
    var s, a, b := states[m], NodesOf(states[..m]), NodesOf(states[m + 1..]);
    assert states == states[m := s];
    NodesAround(states, m, s);
    NodesAround(states, m, WithOutput(s, quantizable, |orig|, slot));
    Regroup(a, s.seen, s.nonq, b);
    if quantizable {
      UpdateKeepsTraced(a, s.seen, s.nonq + b, s.idx, orig, slot, d);
      Regroup(a, s.seen[s.idx := AddOutput(s.seen[s.idx], |orig|, slot)], s.nonq, b);
    } else {
      UpdateKeepsTraced(a + s.seen, s.nonq, b, |s.nonq| - 1, orig, slot, d);
      Regroup(a, s.seen, s.nonq[|s.nonq| - 1 := AddOutput(s.nonq[|s.nonq| - 1], |orig|, slot)], b);
    }
  }

  lemma UpdateTwice(states: seq<Recorded>, m: nat, a: Recorded, b: Recorded)
    requires m < |states|
    ensures states[m := a][m := b] == states[m := b]
  {
  }

  lemma InsertedInside(a: seq<Node>, x: seq<Node>, n: Node, y: seq<Node>, b: seq<Node>)
    ensures (a + x) + [n] + (y + b) == a + ((x + [n]) + y) + b
  {
  }

  lemma InsertedLast(a: seq<Node>, x: seq<Node>, y: seq<Node>, n: Node, b: seq<Node>)
    ensures a + (x + y) + [n] + b == a + (x + (y + [n])) + b
  {
  }

  lemma Regroup(a: seq<Node>, x: seq<Node>, y: seq<Node>, b: seq<Node>)
    ensures a + (x + y) + b == a + x + (y + b) == (a + x) + y + b
  {
  }

  lemma UpdateKeepsTraced(
      a: seq<Node>, x: seq<Node>, b: seq<Node>, i: nat, orig: seq<DType>, slot: nat, d: DType)
    requires i < |x| && Traced(Graph(a + x + b, orig)) && slot <= |x[i].outputs|
    ensures Traced(Graph(a + x[i := AddOutput(x[i], |orig|, slot)] + b, orig + [d]))
  {
    var n := AddOutput(x[i], |orig|, slot);
    assert a + x + b == (a + x[..i]) + [x[i]] + (x[i + 1..] + b);
    OutputKeepsTraced(a + x[..i], x[i + 1..] + b, x[i], orig, slot, d);
    assert a + x[i := n] + b == (a + x[..i]) + [n] + (x[i + 1..] + b);
  }

  class Tracer {
    var orig: seq<DType>                        // one QTensorInfo per id; |orig| is qtensor_id[0]
    var info: map<TensorObject, TensorId>       // the _qtensor_info attribute of tensor objects
    var states: seq<Recorded>                   // one AutoQuantizationState per module

    /** The traced graph as the passes will see it. */
    ghost function Trace(): Graph
      reads this
    {
      Graph(NodesOf(states), orig)
    }

    ghost predicate Valid()
      reads this
    {
      && Traced(Trace())
      && (forall o :: o in info ==> info[o] < |orig|)
      && (forall m :: 0 <= m < |states| ==> states[m].idx <= |states[m].seen|)
    }

    constructor (modules: nat)
      ensures Valid() && |states| == modules && info == map[] && orig == []
      ensures forall m :: 0 <= m < modules ==> states[m] == Recorded(0, [], [])
    {
      orig, info := [], map[];
      states := seq(modules, _ => Recorded(0, [], []));
      new;
      NodesEmpty(states);
    }

    /** A tensor without an id gets the next one. */
    method Identify(v: Value) returns (id: Option<TensorId>)
      requires Valid()
      modifies this`orig, this`info
      ensures Valid()
      ensures v.NonTensor? ==> id == None && info == old(info) && orig == old(orig)
      ensures v.Tensor? ==> v.obj in info && id == Some(info[v.obj])
      ensures v.Tensor? && v.obj in old(info) ==> info == old(info) && orig == old(orig)
      ensures v.Tensor? && v.obj !in old(info) ==>
        info == old(info)[v.obj := |old(orig)|] && orig == old(orig) + [v.dtype]
    {
      if v.NonTensor? {
        return None;
      }
      if v.obj !in info {
        GrowKeepsTraced(NodesOf(states), orig, v.dtype);
        info := info[v.obj := |orig|];
        orig := orig + [v.dtype];
      }
      return Some(info[v.obj]);
    }

    method IdentifyAll(args: seq<Value>) returns (ids: seq<Option<TensorId>>)
      requires Valid()
      modifies this`orig, this`info
      ensures Valid() && Identified(args, ids, old(info), info) && (forall t :: Some(t) in ids ==> t < |orig|)
      ensures orig == old(orig) + NewDtypes(args, old(info), |old(orig)|)
      ensures info == Labelled(args, old(info), |old(orig)|)
    {
      ids := [];
      for k := 0 to |args|
        invariant Valid() && ArgumentsDone(args, k, old(orig), old(info), orig, info, ids)
      {
        NextArgumentDone(args, k, old(orig), old(info), orig, info, ids);
        var id := Identify(args[k]);
        ids := ids + [id];
      }
      assert args[..|args|] == args;
    }

    /** `first_call_op_prepare_before_hook`: the inputs get ids, and a new op is recorded with them and no outputs.
        An op of a module that is activated again is already recorded. */
    method BeforeOp(m: nat, kind: OpType, isModule: bool, args: seq<Value>, qconfig: Option<QConfig>, quantizable: bool)
      returns (ids: seq<Option<TensorId>>)
      requires Valid() && m < |states|
      modifies this
      ensures Valid()
      ensures Identified(args, ids, old(info), info) && info == Labelled(args, old(info), |old(orig)|)
      ensures orig == old(orig) + NewDtypes(args, old(info), |old(orig)|)
      ensures states == old(states)[m := Begun(old(states[m]), Started(m, kind, isModule, ids, qconfig, quantizable),
                                               quantizable)]
    {
      ids := IdentifyAll(args);
      var s, n := states[m], Started(m, kind, isModule, ids, qconfig, quantizable);
      if !quantizable {
        NewNonQ(states, m, n, orig);
        states := states[m := s.(nonq := s.nonq + [n])];
      } else if s.idx == |s.seen| {
        NewSeen(states, m, n, orig);
        states := states[m := s.(seen := s.seen + [n])];
      }
    }

    /** `first_call_op_prepare_after_hook` for one output tensor: a fresh id, also if the tensor already had one. */
    method RecordOutput(m: nat, v: Value, slot: nat, quantizable: bool)
      requires Valid() && m < |states| && v.Tensor?
      requires HasCurrent(states[m], quantizable) && slot <= |Current(states[m], quantizable).outputs|
      modifies this
      ensures Valid() && |states| == old(|states|)
      ensures orig == old(orig) + [v.dtype] && info == old(info)[v.obj := |old(orig)|]
      ensures states == old(states)[m := WithOutput(old(states[m]), quantizable, |old(orig)|, slot)]
    {
      OutputTraced(states, m, quantizable, orig, slot, v.dtype);
      states := states[m := WithOutput(states[m], quantizable, |orig|, slot)];
      info := info[v.obj := |orig|];
      orig := orig + [v.dtype];
    }

    /** `first_call_op_prepare_after_hook`: every tensor in the output gets the next id, in order. */
    method AfterOp(m: nat, outputs: seq<Value>, quantizable: bool)
      requires Valid() && m < |states| && HasCurrent(states[m], quantizable)
      modifies this
      ensures Valid()
      ensures orig == old(orig) + Dtypes(outputs) && info == Relabelled(outputs, old(info), |old(orig)|)
      ensures states == old(states)[m := WithOutputs(old(states[m]), quantizable, |old(orig)|, |Dtypes(outputs)|)]
    {
      var slot := 0;
      NoOutputs(states[m], quantizable, |orig|);
      for k := 0 to |outputs|
        invariant Valid() && OutputsDone(outputs, k, old(orig), old(info), orig, info, slot)
        invariant StateDone(old(states), m, quantizable, states, |orig|, slot)
      {
        slot := NextOutput(m, outputs, k, slot, quantizable, old(states), old(orig), old(info));
      }
      assert outputs[..|outputs|] == outputs;
    }

    /** The body of the loop. */
    method NextOutput(m: nat, outputs: seq<Value>, k: nat, slot: nat, quantizable: bool, ghost states0: seq<Recorded>,
                      ghost orig0: seq<DType>, ghost info0: map<nat, TensorId>) returns (next: nat)
      requires Valid() && m < |states0| && HasCurrent(states0[m], quantizable) && k < |outputs|
      requires OutputsDone(outputs, k, orig0, info0, orig, info, slot)
      requires StateDone(states0, m, quantizable, states, |orig|, slot)
      modifies this
      ensures Valid() && OutputsDone(outputs, k + 1, orig0, info0, orig, info, next)
      ensures StateDone(states0, m, quantizable, states, |orig|, next)
    {
      ghost var before := states;
      next := RecordElement(m, outputs[k], slot, quantizable, states0[m]);
      NextOutputDone(outputs, k, orig0, info0, old(orig), old(info), slot, orig, info, next);
      StateStep(states0, m, quantizable, before, states, |old(orig)|, slot, next);
    }

    /** One element of the output; `slot` counts the tensors before it. */
    method RecordElement(m: nat, v: Value, slot: nat, quantizable: bool, ghost start: Recorded) returns (next: nat)
      requires Valid() && m < |states| && HasCurrent(start, quantizable) && slot <= |orig|
      requires states[m] == WithOutputs(start, quantizable, |orig| - slot, slot)
      modifies this
      ensures Valid() && next == if v.Tensor? then slot + 1 else slot
      ensures orig == if v.Tensor? then old(orig) + [v.dtype] else old(orig)
      ensures info == if v.Tensor? then old(info)[v.obj := |old(orig)|] else old(info)
      ensures states == old(states)[m := WithOutputs(start, quantizable, |old(orig)| - slot, next)]
    {
      next := slot;
      OneMoreOutput(start, quantizable, |orig| - slot, slot);
      if v.Tensor? {
        RecordOutput(m, v, slot, quantizable);
        next := slot + 1;
      }
    }

    /** `mark_cur_op_complete` */
    method MarkComplete(m: nat)
      requires Valid() && m < |states| && states[m].idx < |states[m].seen|
      modifies this`states
      ensures Valid() && states == old(states)[m := old(states[m]).(idx := old(states[m].idx) + 1)]
      ensures Trace() == old(Trace())
    {
      SetIdx(m, states[m].idx + 1);
    }

    /** `reset_to_new_call` */
    method ResetToNewCall(m: nat)
      requires Valid() && m < |states|
      modifies this`states
      ensures Valid() && states == old(states)[m := old(states[m]).(idx := 0)] && Trace() == old(Trace())
    {
      SetIdx(m, 0);
    }

    method SetIdx(m: nat, i: nat)
      requires Valid() && m < |states| && i <= |states[m].seen|
      modifies this`states
      ensures Valid() && states == old(states)[m := old(states[m]).(idx := i)] && Trace() == old(Trace())
    {
      NodesAround(states, m, states[m]);
      assert states[m := states[m]] == states;
      NodesAround(states, m, states[m].(idx := i));
      states := states[m := states[m].(idx := i)];
    }
  }

  lemma {:induction false} NodesEmpty(states: seq<Recorded>)
    requires forall m :: 0 <= m < |states| ==> states[m].seen == [] && states[m].nonq == []
    ensures NodesOf(states) == []
  {
    if states != [] {
      NodesEmpty(states[..|states| - 1]);
    }
  }
}
