/**
 `sync_pool_and_lstm_input_output_scale_zp` (quantization/_utils.py): a pooling op must not change the
 scale, so all outputs in a tree of pool and flatten ops get the scale of the tree root's input.
 LSTM is not part of this model.
 */
module PoolSync {
  import opened Basics
  import opened QuantGraph
  import opened Recipe

  datatype ScaleZp = ScaleZp(scale: real, zeroPoint: int)

  type ScaleTable = map<TensorId, ScaleZp>

  predicate IsSync(g: Graph, i: nat)
    requires i < |g.nodes|
  {
    g.nodes[i].kind in SYNC_OPS
  }

  /** The trees grow through pools and flattens; an Identity node ends them. */
  lemma TreeOps(g: Graph, i: nat)
    requires i < |g.nodes|
    ensures IsSync(g, i) <==> g.nodes[i].kind.Pool? || g.nodes[i].kind.FlattenMethod? || g.nodes[i].kind.Flatten?
  {
  }

  /** Pool and flatten ops have one tensor input. */
  ghost predicate SingleInput(g: Graph)
  {
    forall i :: 0 <= i < |g.nodes| && IsSync(g, i) ==> |Pre(g, i)| <= 1
  }

  predicate StepsUp(g: Graph, i: nat)
    requires i < |g.nodes|
  {
    |Pre(g, i)| == 1 && IsSync(g, Pre(g, i)[0])
  }

  function Parent(g: Graph, i: nat): (p: nat)
    requires i < |g.nodes| && StepsUp(g, i)
    ensures p < |g.nodes| && Feeds(g, p, i) && IsSync(g, p) && (Traced(g) ==> Depth(g, p) < Depth(g, i))
  {
    assert Pre(g, i)[0] in Pre(g, i);
    Pre(g, i)[0]
  }

  /** The first pool or flatten op above `i`. */
  function TreeRoot(g: Graph, i: nat): (r: nat)
    requires Traced(g) && i < |g.nodes|
    ensures r < |g.nodes| && !StepsUp(g, r)
    ensures IsSync(g, i) ==> IsSync(g, r)
    decreases Depth(g, i)
  {
    if StepsUp(g, i) then TreeRoot(g, Parent(g, i)) else i
  }

  method FindTreeRoot(g: Graph, i: nat) returns (r: nat)
    requires Traced(g) && i < |g.nodes|
    ensures r == TreeRoot(g, i)
  {
    r := i;
    while StepsUp(g, r)
      invariant r < |g.nodes| && TreeRoot(g, r) == TreeRoot(g, i)
      decreases Depth(g, r)
    {
      r := Parent(g, r);
    }
  }

  /** `d` is reached from `i` by following pool and flatten consumers. */
  ghost predicate Below(g: Graph, i: nat, d: nat)
    requires Traced(g) && i < |g.nodes|
    decreases |g.orig| - Depth(g, i)
  {
    exists n :: n in Post(g, i) && IsSync(g, n) && (n == d || Below(g, n, d))
  }

  lemma ChildSharesRoot(g: Graph, i: nat, n: nat)
    requires Traced(g) && SingleInput(g) && i < |g.nodes| && n in Post(g, i) && IsSync(g, i) && IsSync(g, n)
    ensures TreeRoot(g, n) == TreeRoot(g, i)
  {
    assert i in Pre(g, n);
    assert Pre(g, n)[0] == i;
    assert StepsUp(g, n) && Parent(g, n) == i;
  }

  lemma {:induction false} BelowSharesRoot(g: Graph, i: nat, d: nat)
    requires Traced(g) && SingleInput(g) && i < |g.nodes| && IsSync(g, i) && Below(g, i, d)
    ensures d < |g.nodes| && IsSync(g, d) && TreeRoot(g, d) == TreeRoot(g, i)
    decreases |g.orig| - Depth(g, i)
  {
    var n :| n in Post(g, i) && IsSync(g, n) && (n == d || Below(g, n, d));
    ChildSharesRoot(g, i, n);
    if n != d {
      BelowSharesRoot(g, n, d);
    }
  }

  lemma {:induction false} BelowTransitive(g: Graph, i: nat, n: nat, d: nat)
    requires Traced(g) && i < |g.nodes| && n < |g.nodes| && d < |g.nodes|
    requires Below(g, i, n) && d in Post(g, n) && IsSync(g, d)
    ensures Below(g, i, d)
    decreases |g.orig| - Depth(g, i)
  {
    var m :| m in Post(g, i) && IsSync(g, m) && (m == n || Below(g, m, n));
    if m != n {
      BelowTransitive(g, m, n, d);
    } else {
      assert Below(g, n, d);
    }
  }

  /** Every pool or flatten op is its tree's root or below it. */
  lemma {:induction false} RootReaches(g: Graph, d: nat)
    requires Traced(g) && d < |g.nodes| && IsSync(g, d)
    ensures d == TreeRoot(g, d) || Below(g, TreeRoot(g, d), d)
    decreases Depth(g, d)
  {
    if StepsUp(g, d) {
      var p := Parent(g, d);
      RootReaches(g, p);
      assert d in Post(g, p);
      if p != TreeRoot(g, d) {
        BelowTransitive(g, TreeRoot(g, d), p, d);
      }
    }
  }

  /** `d`'s output id is one of those the walk from `i` collects. */
  ghost predicate OutputBelow(g: Graph, i: nat, t: TensorId)
    requires Traced(g) && i < |g.nodes|
  {
    exists d :: 0 <= d < |g.nodes| && Below(g, i, d) && g.nodes[d].outputs != [] && g.nodes[d].outputs[0] == t
  }

  /** Every op that the walk from `i` meets has an output to read. */
  ghost predicate ReadableBelow(g: Graph, i: nat)
    requires Traced(g) && i < |g.nodes|
  {
    forall d :: 0 <= d < |g.nodes| && Below(g, i, d) ==> g.nodes[d].outputs != []
  }

  /** `_find_sync_op_from_given_node`; `ok` is false when an op below has no output to read. */
  method CollectBelow(g: Graph, i: nat, ids: seq<TensorId>) returns (ok: bool, r: seq<TensorId>)
    requires Traced(g) && i < |g.nodes|
    ensures ok <==> ReadableBelow(g, i)
    ensures ok ==> forall t :: t in r <==> t in ids || OutputBelow(g, i, t)
    decreases |g.orig| - Depth(g, i), 1
  {
    r := ids;
    for j := 0 to |Post(g, i)|
      invariant CollectedUpTo(g, i, j, ids, r)
    {
      ghost var before := r;
      ok, r := CollectVia(g, i, j, r);
      if !ok {
        ReadableExactly(g, i);
        return;
      }
      CollectedNext(g, i, j, ids, before, r);
    }
    ok := true;
    CollectedAtEnd(g, i, ids, r);
  }

  /** The first `j` consumers of `i` can be read, and `r` has what they contribute. */
  ghost predicate CollectedUpTo(g: Graph, i: nat, j: nat, ids: seq<TensorId>, r: seq<TensorId>)
    requires Traced(g) && i < |g.nodes|
  {
    j <= |Post(g, i)| && (forall l :: 0 <= l < j ==> ReadableVia(g, i, l)) && Collected(g, i, j, ids, r)
  }

  lemma CollectedNext(g: Graph, i: nat, j: nat, ids: seq<TensorId>, before: seq<TensorId>, r: seq<TensorId>)
    requires Traced(g) && i < |g.nodes| && j < |Post(g, i)| && CollectedUpTo(g, i, j, ids, before)
    requires ReadableVia(g, i, j) && forall t :: t in r <==> t in before || CollectedFrom(g, i, j, t)
    ensures CollectedUpTo(g, i, j + 1, ids, r)
  {
    NextCollected(g, i, j, ids, before, r);
  }

  lemma CollectedAtEnd(g: Graph, i: nat, ids: seq<TensorId>, r: seq<TensorId>)
    requires Traced(g) && i < |g.nodes| && CollectedUpTo(g, i, |Post(g, i)|, ids, r)
    ensures ReadableBelow(g, i) && forall t :: t in r <==> t in ids || OutputBelow(g, i, t)
  {
    ReadableExactly(g, i);
    AllCollected(g, i, ids, r);
  }

  /** `r` adds to `ids` what the first `j` consumers of `i` contribute. */
  ghost predicate Collected(g: Graph, i: nat, j: nat, ids: seq<TensorId>, r: seq<TensorId>)
    requires Traced(g) && i < |g.nodes| && j <= |Post(g, i)|
  {
    forall t :: t in r <==> t in ids || CollectedBy(g, i, j, t)
  }

  /** The `j`-th consumer of `i` and everything below it. */
  method CollectVia(g: Graph, i: nat, j: nat, ids: seq<TensorId>) returns (ok: bool, r: seq<TensorId>)
    requires Traced(g) && i < |g.nodes| && j < |Post(g, i)|
    ensures ok <==> ReadableVia(g, i, j)
    ensures ok ==> forall t :: t in r <==> t in ids || CollectedFrom(g, i, j, t)
    decreases |g.orig| - Depth(g, i), 0
  {
    ok, r := true, ids;
    var next := Post(g, i)[j];
    if IsSync(g, next) {
      if g.nodes[next].outputs == [] {
        return false, r;
      }
      ok, r := CollectBelow(g, next, r + [g.nodes[next].outputs[0]]);
    }
  }

  lemma AllCollected(g: Graph, i: nat, ids: seq<TensorId>, r: seq<TensorId>)
    requires Traced(g) && i < |g.nodes| && Collected(g, i, |Post(g, i)|, ids, r)
    ensures forall t :: t in r <==> t in ids || OutputBelow(g, i, t)
  {
    forall t ensures CollectedBy(g, i, |Post(g, i)|, t) <==> OutputBelow(g, i, t) {
      CollectedAll(g, i, t);
    }
  }

  lemma NextCollected(g: Graph, i: nat, j: nat, ids: seq<TensorId>, before: seq<TensorId>, r: seq<TensorId>)
    requires Traced(g) && i < |g.nodes| && j < |Post(g, i)| && Collected(g, i, j, ids, before)
    requires forall t :: t in r <==> t in before || CollectedFrom(g, i, j, t)
    ensures Collected(g, i, j + 1, ids, r)
  {
    forall t ensures CollectedBy(g, i, j + 1, t) <==> CollectedBy(g, i, j, t) || CollectedFrom(g, i, j, t) {
      assert CollectedFrom(g, i, j, t) ==> CollectedBy(g, i, j + 1, t);
    }
  }

  /** The same for the `l`-th consumer and what is below it. */
  ghost predicate ReadableVia(g: Graph, i: nat, l: nat)
    requires Traced(g) && i < |g.nodes| && l < |Post(g, i)|
  {
    var n := Post(g, i)[l];
    IsSync(g, n) ==> g.nodes[n].outputs != [] && ReadableBelow(g, n)
  }

  lemma ReadableExactly(g: Graph, i: nat)
    requires Traced(g) && i < |g.nodes|
    ensures ReadableBelow(g, i) <==> forall l :: 0 <= l < |Post(g, i)| ==> ReadableVia(g, i, l)
  {
    if ReadableBelow(g, i) {
      forall l | 0 <= l < |Post(g, i)| ensures ReadableVia(g, i, l) {
        var n := Post(g, i)[l];
        assert n in Post(g, i);
        if IsSync(g, n) {
          assert Below(g, i, n);
          assert forall d :: 0 <= d < |g.nodes| && Below(g, n, d) ==> Below(g, i, d);
        }
      }
    } else {
      var d :| 0 <= d < |g.nodes| && Below(g, i, d) && g.nodes[d].outputs == [];
      var n :| n in Post(g, i) && IsSync(g, n) && (n == d || Below(g, n, d));
      var l :| 0 <= l < |Post(g, i)| && Post(g, i)[l] == n;
      assert !ReadableVia(g, i, l);
    }
  }

  /** What the first `j` consumers of `i` contribute. */
  ghost predicate CollectedBy(g: Graph, i: nat, j: nat, t: TensorId)
    requires Traced(g) && i < |g.nodes| && j <= |Post(g, i)|
  {
    exists l :: 0 <= l < j && CollectedFrom(g, i, l, t)
  }

  ghost predicate CollectedFrom(g: Graph, i: nat, l: nat, t: TensorId)
    requires Traced(g) && i < |g.nodes| && l < |Post(g, i)|
  {
    var n := Post(g, i)[l];
    IsSync(g, n) && ((g.nodes[n].outputs != [] && g.nodes[n].outputs[0] == t) || OutputBelow(g, n, t))
  }

  lemma CollectedAll(g: Graph, i: nat, t: TensorId)
    requires Traced(g) && i < |g.nodes|
    ensures CollectedBy(g, i, |Post(g, i)|, t) <==> OutputBelow(g, i, t)
  {
    if OutputBelow(g, i, t) {
      var l := BelowIsCollected(g, i, t);
    }
    if l :| 0 <= l < |Post(g, i)| && CollectedFrom(g, i, l, t) {
      CollectedIsBelow(g, i, l, t);
    }
  }

  lemma BelowIsCollected(g: Graph, i: nat, t: TensorId) returns (l: nat)
    requires Traced(g) && i < |g.nodes| && OutputBelow(g, i, t)
    ensures l < |Post(g, i)| && CollectedFrom(g, i, l, t)
  {
    var d :| 0 <= d < |g.nodes| && Below(g, i, d) && g.nodes[d].outputs != [] && g.nodes[d].outputs[0] == t;
    var n :| n in Post(g, i) && IsSync(g, n) && (n == d || Below(g, n, d));
    l :| 0 <= l < |Post(g, i)| && Post(g, i)[l] == n;
    assert n != d ==> OutputBelow(g, n, t);
  }

  lemma CollectedIsBelow(g: Graph, i: nat, l: nat, t: TensorId)
    requires Traced(g) && i < |g.nodes| && l < |Post(g, i)| && CollectedFrom(g, i, l, t)
    ensures OutputBelow(g, i, t)
  {
    assert Post(g, i)[l] in Post(g, i);
    var n := Post(g, i)[l];
    if g.nodes[n].outputs != [] && g.nodes[n].outputs[0] == t {
      assert Below(g, i, n);
    } else {
      var d :| 0 <= d < |g.nodes| && Below(g, n, d) && g.nodes[d].outputs != [] && g.nodes[d].outputs[0] == t;
      assert Below(g, i, d);
    }
  }

  // ----- The synchronization pass

  /** `d` is a pool or flatten op and `t` is its first output. */
  ghost predicate SyncOutput(g: Graph, d: nat, t: TensorId)
  {
    d < |g.nodes| && IsSync(g, d) && g.nodes[d].outputs != [] && g.nodes[d].outputs[0] == t
  }

  /** The ids that one synchronization from root `r` writes: the first outputs of `r`'s whole tree. */
  lemma TreeOutputs(g: Graph, r: nat, t: TensorId)
    requires Traced(g) && SingleInput(g) && r < |g.nodes| && IsSync(g, r) && TreeRoot(g, r) == r
    requires g.nodes[r].outputs != []
    ensures t == g.nodes[r].outputs[0] || OutputBelow(g, r, t) <==>
      exists d: nat :: SyncOutput(g, d, t) && TreeRoot(g, d) == r
  {
    if t == g.nodes[r].outputs[0] {
      assert SyncOutput(g, r, t);
    }
    if OutputBelow(g, r, t) {
      var d :| 0 <= d < |g.nodes| && Below(g, r, d) && g.nodes[d].outputs != [] && g.nodes[d].outputs[0] == t;
      BelowSharesRoot(g, r, d);
      assert SyncOutput(g, d, t);
    }
    if d: nat :| SyncOutput(g, d, t) && TreeRoot(g, d) == r {
      RootReaches(g, d);
    }
  }

  /** `node.input_scale_zero` and `node.output_scale_zero`, captured when the nodes were created. */
  function Captured(table: ScaleTable, ids: set<TensorId>): ScaleTable
  {
    map t | t in table && t in ids :: table[t]
  }

  function InputIds(n: Node): set<TensorId>
  {
    set k | 0 <= k < |n.inputs| && n.inputs[k].Some? :: n.inputs[k].value
  }

  /** A pool that starts a synchronization. */
  predicate Starts(g: Graph, tables: seq<ScaleTable>, p: nat)
    requires p < |g.nodes| && g.nodes[p].owner < |tables|
  {
    var n := g.nodes[p];
    n.qconfig.Some? && n.kind.Pool?
    && Captured(tables[n.owner], InputIds(n)) != Captured(tables[n.owner], set t | t in n.outputs)
  }

  /** The scale of the root's first input, as captured; reading it raises when it is missing. */
  function RootScale(g: Graph, tables: seq<ScaleTable>, r: nat): Try<ScaleZp>
    requires r < |g.nodes| && g.nodes[r].owner < |tables|
  {
    var n := g.nodes[r];
    if n.qconfig.Some? && n.inputs != [] && n.inputs[0].Some? && n.inputs[0].value in tables[n.owner]
    then Ok(tables[n.owner][n.inputs[0].value]) else Raised
  }

  /** What a synchronization of the tree under `r` reads is there: the root's scale and every first output. */
  ghost predicate Readable(g: Graph, tables: seq<ScaleTable>, r: nat)
    requires Traced(g) && r < |g.nodes| && g.nodes[r].owner < |tables|
  {
    g.nodes[r].outputs != [] && RootScale(g, tables, r).Ok? && ReadableBelow(g, r)
  }

  /** The first `upTo` nodes only start synchronizations that can be carried out. */
  ghost predicate AllReadable(g: Graph, tables: seq<ScaleTable>, upTo: nat)
    requires Traced(g) && upTo <= |g.nodes| && forall i :: 0 <= i < |g.nodes| ==> g.nodes[i].owner < |tables|
  {
    forall p :: 0 <= p < upTo && Starts(g, tables, p) ==> Readable(g, tables, TreeRoot(g, p))
  }

  lemma NextReadable(g: Graph, tables: seq<ScaleTable>, p: nat)
    requires Traced(g) && p < |g.nodes| && forall i :: 0 <= i < |g.nodes| ==> g.nodes[i].owner < |tables|
    requires AllReadable(g, tables, p)
    ensures AllReadable(g, tables, p + 1) <==> (Starts(g, tables, p) ==> Readable(g, tables, TreeRoot(g, p)))
    ensures AllReadable(g, tables, |g.nodes|) ==> AllReadable(g, tables, p + 1)
  {
  }

  /** One of the first `upTo` nodes starts a synchronization of the tree under `r`. */
  ghost predicate TreeStarted(g: Graph, tables: seq<ScaleTable>, r: nat, upTo: nat)
    requires Traced(g) && upTo <= |g.nodes| && forall i :: 0 <= i < |g.nodes| ==> g.nodes[i].owner < |tables|
  {
    exists p :: 0 <= p < upTo && Starts(g, tables, p) && TreeRoot(g, p) == r
  }

  /** Every table after the first `upTo` nodes, in terms of the captured tables. */
  ghost predicate Synced(g: Graph, captured: seq<ScaleTable>, tables: seq<ScaleTable>, upTo: nat)
    requires Traced(g) && upTo <= |g.nodes| && forall i :: 0 <= i < |g.nodes| ==> g.nodes[i].owner < |captured|
  {
    && |tables| == |captured|
    && (forall m :: 0 <= m < |tables| ==> tables[m].Keys == captured[m].Keys)
    && (forall m, t :: 0 <= m < |tables| && t in captured[m] ==>
          SyncedCell(g, captured, t, captured[m][t], tables[m][t], upTo))
  }

  /** An output in a started tree carries the scale of the root's input; everything else is as before. */
  ghost predicate SyncedCell(g: Graph, captured: seq<ScaleTable>, t: TensorId, was: ScaleZp, now: ScaleZp, upTo: nat)
    requires Traced(g) && upTo <= |g.nodes| && forall i :: 0 <= i < |g.nodes| ==> g.nodes[i].owner < |captured|
  {
    && (forall d: nat | SyncOutput(g, d, t) && TreeStarted(g, captured, TreeRoot(g, d), upTo) ::
          Ok(now) == RootScale(g, captured, TreeRoot(g, d)))
    && ((forall d: nat | SyncOutput(g, d, t) :: !TreeStarted(g, captured, TreeRoot(g, d), upTo)) ==> now == was)
  }

  class ScaleSync {
    const g: Graph
    const captured: seq<ScaleTable>
    var tables: seq<ScaleTable>

    constructor (g: Graph, tables: seq<ScaleTable>)
      ensures this.g == g && this.captured == tables && this.tables == tables
    {
      this.g, this.captured, this.tables := g, tables, tables;
    }

    /** The whole pass; whatever the node order, every tree with a starting pool ends with its root's scale. */
    method Sync() returns (ok: bool)
      requires Traced(g) && SingleInput(g) && tables == captured
      requires forall i :: 0 <= i < |g.nodes| ==> g.nodes[i].owner < |captured|
      modifies this`tables
      ensures ok <==> AllReadable(g, captured, |g.nodes|)
      ensures ok ==> Synced(g, captured, tables, |g.nodes|)
    {
      NothingStarted(g, captured);
      for p := 0 to |g.nodes|
        invariant Synced(g, captured, tables, p) && AllReadable(g, captured, p)
      {
        ok := Visit(p);
        if !ok {
          return;
        }
      }
      ok := true;
    }

    /** One round: a starting pool gives its tree the scale of the root's input. */
    method Visit(p: nat) returns (ok: bool)
      requires Traced(g) && SingleInput(g) && p < |g.nodes|
      requires forall i :: 0 <= i < |g.nodes| ==> g.nodes[i].owner < |captured|
      requires Synced(g, captured, tables, p) && AllReadable(g, captured, p)
      modifies this`tables
      ensures ok <==> (Starts(g, captured, p) ==> Readable(g, captured, TreeRoot(g, p)))
      ensures ok <==> AllReadable(g, captured, p + 1)
      ensures !ok ==> !AllReadable(g, captured, |g.nodes|)
      ensures ok ==> Synced(g, captured, tables, p + 1)
    {
      NextReadable(g, captured, p);
      if !Starts(g, captured, p) {
        SkipStep(g, captured, tables, p);
        return true;
      }
      ok := SyncTree(p);
    }

    /** The round of a starting pool. */
    method SyncTree(p: nat) returns (ok: bool)
      requires Traced(g) && SingleInput(g) && p < |g.nodes|
      requires forall i :: 0 <= i < |g.nodes| ==> g.nodes[i].owner < |captured|
      requires Synced(g, captured, tables, p) && Starts(g, captured, p)
      modifies this`tables
      ensures ok <==> Readable(g, captured, TreeRoot(g, p))
      ensures ok ==> Synced(g, captured, tables, p + 1)
    {
      ghost var before := tables;
      var r := FindTreeRoot(g, p);
      if g.nodes[r].outputs == [] || RootScale(g, captured, r).Raised? {
        return false;
      }
      var fine, ids := CollectBelow(g, r, [g.nodes[r].outputs[0]]);
      if !fine {
        return false;
      }
      WriteScale(ids, RootScale(g, captured, r).value);
      SyncStep(g, captured, before, tables, p, r, ids);
      return true;
    }

    /** `_sync_scale_zp_given_id` for each collected id: every table that knows the id is overwritten. */
    method WriteScale(ids: seq<TensorId>, scale: ScaleZp)
      modifies this`tables
      ensures Overwritten(old(tables), tables, ids, scale)
    {
      for k := 0 to |ids|
        invariant Overwritten(old(tables), tables, ids[..k], scale)
      {
        var id := ids[k];
        ghost var mid := tables;
        for m := 0 to |tables|
          invariant |tables| == |mid|
          invariant forall x :: 0 <= x < |tables| ==>
            tables[x] == if x < m && id in mid[x] then mid[x][id := scale] else mid[x]
        {
          if id in tables[m] {
            tables := tables[m := tables[m][id := scale]];
          }
        }
        assert ids[..k + 1] == ids[..k] + [id];
      }
      assert ids[..|ids|] == ids;
    }
  }

  ghost predicate Overwritten(before: seq<ScaleTable>, after: seq<ScaleTable>, ids: seq<TensorId>, scale: ScaleZp)
  {
    && |after| == |before|
    && (forall m :: 0 <= m < |after| ==> after[m].Keys == before[m].Keys)
    && (forall m, t :: 0 <= m < |after| && t in before[m] ==> after[m][t] == if t in ids then scale else before[m][t])
  }

  lemma NothingStarted(g: Graph, captured: seq<ScaleTable>)
    requires Traced(g) && forall i :: 0 <= i < |g.nodes| ==> g.nodes[i].owner < |captured|
    ensures Synced(g, captured, captured, 0)
  {
  }

  lemma SkipStep(g: Graph, captured: seq<ScaleTable>, tables: seq<ScaleTable>, p: nat)
    requires Traced(g) && p < |g.nodes| && forall i :: 0 <= i < |g.nodes| ==> g.nodes[i].owner < |captured|
    requires !Starts(g, captured, p) && Synced(g, captured, tables, p)
    ensures Synced(g, captured, tables, p + 1)
  {
    forall m, t | 0 <= m < |tables| && t in captured[m]
      ensures SyncedCell(g, captured, t, captured[m][t], tables[m][t], p + 1)
    {
      forall d: nat | SyncOutput(g, d, t)
        ensures TreeStarted(g, captured, TreeRoot(g, d), p + 1) <==> TreeStarted(g, captured, TreeRoot(g, d), p)
      {
        StartedSkip(g, captured, TreeRoot(g, d), p);
      }
    }
  }

  lemma StartedSkip(g: Graph, captured: seq<ScaleTable>, x: nat, p: nat)
    requires Traced(g) && p < |g.nodes| && forall i :: 0 <= i < |g.nodes| ==> g.nodes[i].owner < |captured|
    requires !Starts(g, captured, p)
    ensures TreeStarted(g, captured, x, p + 1) <==> TreeStarted(g, captured, x, p)
  {
  }

  /** Pool `p` starts a synchronization from root `r`, which writes exactly `ids`. */
  ghost predicate SyncRound(g: Graph, captured: seq<ScaleTable>, before: seq<ScaleTable>, after: seq<ScaleTable>,
                            p: nat, r: nat, ids: seq<TensorId>)
    requires Traced(g) && forall i :: 0 <= i < |g.nodes| ==> g.nodes[i].owner < |captured|
  {
    && p < |g.nodes| && r == TreeRoot(g, p) == TreeRoot(g, r) && IsSync(g, r)
    && Starts(g, captured, p) && Synced(g, captured, before, p)
    && g.nodes[r].outputs != [] && RootScale(g, captured, r).Ok?
    && (forall t :: t in ids <==> t in [g.nodes[r].outputs[0]] || OutputBelow(g, r, t))
    && Overwritten(before, after, ids, RootScale(g, captured, r).value)
  }

  lemma SyncStep(g: Graph, captured: seq<ScaleTable>, before: seq<ScaleTable>, after: seq<ScaleTable>,
                 p: nat, r: nat, ids: seq<TensorId>)
    requires Traced(g) && SingleInput(g) && forall i :: 0 <= i < |g.nodes| ==> g.nodes[i].owner < |captured|
    requires SyncRound(g, captured, before, after, p, r, ids)
    ensures Synced(g, captured, after, p + 1)
  {
    forall m, t | 0 <= m < |after| && t in captured[m]
      ensures SyncedCell(g, captured, t, captured[m][t], after[m][t], p + 1)
    {
      SyncCellStep(g, captured, before, after, p, r, ids, m, t);
    }
  }

  lemma SyncCellStep(g: Graph, captured: seq<ScaleTable>, before: seq<ScaleTable>, after: seq<ScaleTable>,
                     p: nat, r: nat, ids: seq<TensorId>, m: nat, t: TensorId)
    requires Traced(g) && SingleInput(g) && forall i :: 0 <= i < |g.nodes| ==> g.nodes[i].owner < |captured|
    requires SyncRound(g, captured, before, after, p, r, ids)
    requires m < |after| && t in captured[m]
    ensures t in after[m] && SyncedCell(g, captured, t, captured[m][t], after[m][t], p + 1)
  {
    TreeOutputs(g, r, t);
    CellStep(g, captured, t, captured[m][t], before[m][t], after[m][t], p, r, t in ids);
  }

  lemma CellStep(g: Graph, captured: seq<ScaleTable>, t: TensorId, was: ScaleZp, before: ScaleZp, after: ScaleZp,
                 p: nat, r: nat, written: bool)
    requires Traced(g) && p < |g.nodes| && r == TreeRoot(g, p)
    requires forall i :: 0 <= i < |g.nodes| ==> g.nodes[i].owner < |captured|
    requires Starts(g, captured, p) && RootScale(g, captured, r).Ok?
    requires written <==> exists d: nat :: SyncOutput(g, d, t) && TreeRoot(g, d) == r
    requires after == if written then RootScale(g, captured, r).value else before
    requires SyncedCell(g, captured, t, was, before, p)
    ensures SyncedCell(g, captured, t, was, after, p + 1)
  {
    assert TreeStarted(g, captured, r, p + 1);
    forall d: nat | SyncOutput(g, d, t) && TreeStarted(g, captured, TreeRoot(g, d), p + 1)
      ensures Ok(after) == RootScale(g, captured, TreeRoot(g, d))
    {
      OneProducer(g, d, t);
      if TreeRoot(g, d) != r {
        StartedBefore(g, captured, TreeRoot(g, d), p);
      }
    }
    if forall d: nat | SyncOutput(g, d, t) :: !TreeStarted(g, captured, TreeRoot(g, d), p + 1) {
      forall d: nat | SyncOutput(g, d, t) ensures !TreeStarted(g, captured, TreeRoot(g, d), p) {
        if TreeStarted(g, captured, TreeRoot(g, d), p) {
          StartedStays(g, captured, TreeRoot(g, d), p);
        }
      }
    }
  }

  lemma OneProducer(g: Graph, d: nat, t: TensorId)
    requires Traced(g) && SyncOutput(g, d, t)
    ensures forall e: nat :: SyncOutput(g, e, t) ==> e == d
  {
    forall e: nat | SyncOutput(g, e, t) ensures e == d {
      assert t in g.nodes[d].outputs && t in g.nodes[e].outputs;
    }
  }

  lemma StartedStays(g: Graph, captured: seq<ScaleTable>, x: nat, p: nat)
    requires Traced(g) && p < |g.nodes| && forall i :: 0 <= i < |g.nodes| ==> g.nodes[i].owner < |captured|
    requires TreeStarted(g, captured, x, p)
    ensures TreeStarted(g, captured, x, p + 1)
  {
  }

  lemma StartedBefore(g: Graph, captured: seq<ScaleTable>, x: nat, p: nat)
    requires Traced(g) && p < |g.nodes| && forall i :: 0 <= i < |g.nodes| ==> g.nodes[i].owner < |captured|
    requires TreeStarted(g, captured, x, p + 1) && x != TreeRoot(g, p)
    ensures TreeStarted(g, captured, x, p)
  {
  }

  // ----- Calibrated tables

  /** The tables hold the observed ids of their modules. */
  ghost predicate CalibratedTables(g: Graph, tables: seq<ScaleTable>)
  {
    Calibrated(g, seq(|tables|, m requires 0 <= m < |tables| => tables[m].Keys))
  }

  /** The tree under `r` contains a quantizable pool. */
  ghost predicate HasPool(g: Graph, r: nat)
    requires Traced(g)
  {
    exists p :: 0 <= p < |g.nodes| && g.nodes[p].qconfig.Some? && g.nodes[p].kind.Pool? && TreeRoot(g, p) == r
  }

  /** Among the ops that returned something, exactly the quantizable pools start a synchronization: their input and
      output are different tensors, so their captured scales are never the same dictionary. */
  lemma PoolStarts(g: Graph, tables: seq<ScaleTable>, p: nat)
    requires Traced(g) && CalibratedTables(g, tables) && p < |g.nodes| && g.nodes[p].outputs != []
    ensures Starts(g, tables, p) <==> g.nodes[p].qconfig.Some? && g.nodes[p].kind == Pool
  {
    var n := g.nodes[p];
    var t := n.outputs[0];
    if n.qconfig.Some? && n.kind == Pool {
      assert t in n.outputs;
      assert ObservesOutput(n) && ObservedBy(n, t) && HasScale(g, n.owner, t);
      assert t in tables[n.owner];
      assert forall x :: x in InputIds(n) ==> Some(x) in n.inputs;
      assert t in Captured(tables[n.owner], set x | x in n.outputs);
    }
  }

  /** The scale of a quantizable root with a tensor as first argument is in its table. */
  lemma RootHasScale(g: Graph, tables: seq<ScaleTable>, r: nat)
    requires Traced(g) && CalibratedTables(g, tables) && r < |g.nodes|
    ensures RootScale(g, tables, r).Ok? <==>
      g.nodes[r].qconfig.Some? && g.nodes[r].inputs != [] && g.nodes[r].inputs[0].Some?
  {
    var n := g.nodes[r];
    if n.qconfig.Some? && n.inputs != [] && n.inputs[0].Some? {
      assert ObservesInput(n, 0) && ObservedBy(n, n.inputs[0].value) && HasScale(g, n.owner, n.inputs[0].value);
    }
  }

  /** So after the pass, in every tree that contains a quantizable pool, each stored scale of an op's first output is
      the scale of the root's input. */
  lemma PoolTreesSynced(g: Graph, captured: seq<ScaleTable>, tables: seq<ScaleTable>, m: nat, d: nat)
    requires Traced(g) && CalibratedTables(g, captured) && Synced(g, captured, tables, |g.nodes|)
    requires forall p :: 0 <= p < |g.nodes| && g.nodes[p].kind == Pool ==> g.nodes[p].outputs != []
    requires d < |g.nodes| && IsSync(g, d) && g.nodes[d].outputs != [] && HasPool(g, TreeRoot(g, d))
    requires m < |tables| && g.nodes[d].outputs[0] in tables[m]
    ensures
      var root := g.nodes[TreeRoot(g, d)];
      && root.inputs != [] && root.inputs[0].Some? && root.inputs[0].value in captured[root.owner]
      && tables[m][g.nodes[d].outputs[0]] == captured[root.owner][root.inputs[0].value]
  {
    PoolTreeStarted(g, captured, TreeRoot(g, d));
    StartedTreeSynced(g, captured, tables, m, d);
  }

  lemma StartedTreeSynced(g: Graph, captured: seq<ScaleTable>, tables: seq<ScaleTable>, m: nat, d: nat)
    requires Traced(g) && forall i :: 0 <= i < |g.nodes| ==> g.nodes[i].owner < |captured|
    requires Synced(g, captured, tables, |g.nodes|)
    requires d < |g.nodes| && IsSync(g, d) && g.nodes[d].outputs != []
    requires TreeStarted(g, captured, TreeRoot(g, d), |g.nodes|)
    requires m < |tables| && g.nodes[d].outputs[0] in tables[m]
    ensures Ok(tables[m][g.nodes[d].outputs[0]]) == RootScale(g, captured, TreeRoot(g, d))
  {
    var t := g.nodes[d].outputs[0];
    assert t in captured[m];
    CellOfTree(g, captured, t, captured[m][t], tables[m][t], d);
  }

  lemma CellOfTree(g: Graph, captured: seq<ScaleTable>, t: TensorId, was: ScaleZp, now: ScaleZp, d: nat)
    requires Traced(g) && forall i :: 0 <= i < |g.nodes| ==> g.nodes[i].owner < |captured|
    requires SyncedCell(g, captured, t, was, now, |g.nodes|) && SyncOutput(g, d, t)
    requires TreeStarted(g, captured, TreeRoot(g, d), |g.nodes|)
    ensures Ok(now) == RootScale(g, captured, TreeRoot(g, d))
  {
  }

  lemma PoolTreeStarted(g: Graph, captured: seq<ScaleTable>, r: nat)
    requires Traced(g) && CalibratedTables(g, captured) && HasPool(g, r)
    requires forall p :: 0 <= p < |g.nodes| && g.nodes[p].kind == Pool ==> g.nodes[p].outputs != []
    ensures TreeStarted(g, captured, r, |g.nodes|)
  {
    var p :| 0 <= p < |g.nodes| && g.nodes[p].qconfig.Some? && g.nodes[p].kind.Pool? && TreeRoot(g, p) == r;
    PoolStarts(g, captured, p);
  }
}
