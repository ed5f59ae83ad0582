/**
 How SmoothQuant observers are wired to each other while a model is traced (`_maybe_insert_input_observers`), how the
 factors are attached to the model, and which of them each linear applies when it is converted. Per-channel observers
 are shared by reference: a reference is an index into the list of all of them.
 */
module SmoothWiring {
  import opened Basics
  import opened LinearAlgebra
  import opened SmoothQuant

  type OpIdx = nat
  type Ref = nat

  /** A per-channel min/max observer. */
  datatype Channel = Channel(ran: bool, mins: Vec, maxs: Vec) {
    function At(j: nat): real
      requires j < |mins| && j < |maxs|
    {
      Magnitude(mins[j], maxs[j])
    }

    ghost predicate Wide(n: nat) { |mins| == |maxs| == n }
  }

  datatype ActObserver = ActObserver(
    ic: Ref, weightObs: Option<map<OpIdx, Ref>>, enabled: bool, factors: map<OpIdx, Vec>)

  datatype WeightObserver = WeightObserver(ic: Ref, act: Option<Ref>, enabled: bool, factors: Option<Vec>)

  // ----- Factors of two observers

  /** Both observers have seen the same number of channels. */
  ghost predicate SameWidth(w: Channel, x: Channel)
  {
    w.Wide(|x.mins|) && x.Wide(|x.mins|)
  }

  function ActFactors(pow: Power, alpha: real, w: Channel, x: Channel): (f: Vec)
    requires Positive(pow) && SameWidth(w, x)
    ensures |f| == |x.mins| && forall j :: 0 <= j < |f| ==> f[j] == ActFactor(pow, alpha, w.At(j), x.At(j))
  {
    seq(|x.mins|, j requires 0 <= j < |x.mins| => ActFactor(pow, alpha, w.At(j), x.At(j)))
  }

  function WeightFactors(pow: Power, alpha: real, w: Channel, x: Channel): (f: Vec)
    requires Positive(pow) && SameWidth(w, x)
    ensures |f| == |x.mins| && forall j :: 0 <= j < |f| ==> f[j] == WeightFactor(pow, alpha, w.At(j), x.At(j))
  {
    seq(|x.mins|, j requires 0 <= j < |x.mins| => WeightFactor(pow, alpha, w.At(j), x.At(j)))
  }

  lemma SameObserversCancel(pow: Power, alpha: real, w: Channel, x: Channel)
    requires Positive(pow) && SameWidth(w, x)
    ensures Cancel(ActFactors(pow, alpha, w, x), WeightFactors(pow, alpha, w, x))
  {
    var s, f := ActFactors(pow, alpha, w, x), WeightFactors(pow, alpha, w, x);
    forall j | 0 <= j < |s| ensures Product(s[j], f[j]) == 1.0 {
      FactorsCancel(pow, alpha, w.At(j), x.At(j));
    }
  }

  // ----- Wiring

  /** Linear `i` and its activation's observer point at each other's per-channel observers. */
  ghost predicate Wired(share: bool, i: OpIdx, w: WeightObserver, x: ActObserver)
  {
    && w.act == Some(x.ic) && w.enabled && x.enabled && x.weightObs.Some?
    && (if share then forall k :: k in x.weightObs.value ==> x.weightObs.value[k] == w.ic
        else i in x.weightObs.value && x.weightObs.value[i] == w.ic)
  }

  /** An activation's observer knows linears that read this activation; just one of them if weights share. */
  ghost predicate Knows(share: bool, t: TensorId, x: ActObserver, inputs: map<OpIdx, TensorId>)
  {
    x.enabled == x.weightObs.Some? && x.factors == map[]
    && (x.weightObs.Some? ==>
          x.weightObs.value != map[] && (share ==> |x.weightObs.value| == 1)
          && forall k :: k in x.weightObs.value ==> k in inputs && inputs[k] == t)
  }

  /** All linears are wired; `inputs` has the activation of every linear. */
  ghost predicate AllWired(share: bool, acts: map<TensorId, ActObserver>, weights: map<OpIdx, WeightObserver>,
                           inputs: map<OpIdx, TensorId>)
  {
    && (forall i :: i in weights <==> i in inputs)
    && (forall i :: i in weights ==> inputs[i] in acts && Wired(share, i, weights[i], acts[inputs[i]]))
    && (forall t :: t in acts ==> Knows(share, t, acts[t], inputs))
  }

  /** All references are good. */
  ghost predicate Bound(n: nat, acts: map<TensorId, ActObserver>, weights: map<OpIdx, WeightObserver>)
  {
    (forall t :: t in acts ==> acts[t].ic < n) && (forall i :: i in weights ==> weights[i].ic < n)
  }

  lemma SingleKey<T>(m: map<OpIdx, T>, k: OpIdx)
    requires |m| == 1 && k in m
    ensures forall l :: l in m ==> l == k
  {
    var rest := m.Keys - {k};
    assert m.Keys == rest + {k};
    assert |rest| == 0;
  }

  /** How one more linear changes its activation's observer: the entry it adds, if any. */
  ghost predicate WiredStep(share: bool, i: OpIdx, x: ActObserver, x': ActObserver, w: WeightObserver)
  {
    && x'.ic == x.ic && x'.factors == x.factors && x'.enabled && w.act == Some(x.ic) && w.enabled
    && (if x.weightObs.None? then x'.weightObs == Some(map[i := w.ic])
        else if share then
          x'.weightObs == x.weightObs && exists k :: k in x.weightObs.value && w.ic == x.weightObs.value[k]
        else x'.weightObs == Some(x.weightObs.value[i := w.ic]))
  }

  lemma OneMoreWired(share: bool, acts: map<TensorId, ActObserver>, weights: map<OpIdx, WeightObserver>,
                     inputs: map<OpIdx, TensorId>, i: OpIdx, t: TensorId, x': ActObserver, w: WeightObserver)
    requires AllWired(share, acts, weights, inputs) && i !in weights && t in acts && WiredStep(share, i, acts[t], x', w)
    ensures AllWired(share, acts[t := x'], weights[i := w], inputs[i := t])
  {
    var acts', weights', inputs' := acts[t := x'], weights[i := w], inputs[i := t];
    forall u | u in acts' ensures Knows(share, u, acts'[u], inputs') {
      assert Knows(share, t, acts[t], inputs);
      if u == t {
        StepKnows(share, t, acts[t], x', inputs, i, w);
      } else {
        assert Knows(share, u, acts[u], inputs);
      }
    }
    forall j | j in weights' ensures inputs'[j] in acts' && Wired(share, j, weights'[j], acts'[inputs'[j]]) {
      StillWired(share, acts, weights, inputs, i, t, x', w, j);
    }
  }

  lemma StillWired(share: bool, acts: map<TensorId, ActObserver>, weights: map<OpIdx, WeightObserver>,
                   inputs: map<OpIdx, TensorId>, i: OpIdx, t: TensorId, x': ActObserver, w: WeightObserver, j: OpIdx)
    requires AllWired(share, acts, weights, inputs) && i !in weights && t in acts && WiredStep(share, i, acts[t], x', w)
    requires j in weights || j == i
    ensures
      var acts', weights', inputs' := acts[t := x'], weights[i := w], inputs[i := t];
      inputs'[j] in acts' && Wired(share, j, weights'[j], acts'[inputs'[j]])
  {
    assert Knows(share, t, acts[t], inputs);
    if j == i {
      NewWired(share, i, acts[t], x', w, t, inputs);
    } else if inputs[j] == t {
      assert Wired(share, j, weights[j], acts[t]);
      OldWired(share, i, j, acts[t], x', w, weights[j], t, inputs);
    }
  }

  lemma OneMoreBound(share: bool, acts: map<TensorId, ActObserver>, weights: map<OpIdx, WeightObserver>,
                     inputs: map<OpIdx, TensorId>, i: OpIdx, t: TensorId, x': ActObserver, w: WeightObserver, n: nat)
    requires AllWired(share, acts, weights, inputs) && Bound(n, acts, weights) && t in acts
    requires WiredStep(share, i, acts[t], x', w)
    requires w.ic == n || (acts[t].weightObs.Some? && w.ic in acts[t].weightObs.value.Values)
    ensures Bound(n + 1, acts[t := x'], weights[i := w])
  {
    if acts[t].weightObs.Some? && w.ic in acts[t].weightObs.value.Values {
      var k :| k in acts[t].weightObs.value && acts[t].weightObs.value[k] == w.ic;
      assert Knows(share, t, acts[t], inputs);
      assert Wired(share, k, weights[k], acts[t]);
    }
  }

  lemma OneMoreLinked(share: bool, acts: map<TensorId, ActObserver>, weights: map<OpIdx, WeightObserver>,
                      inputs: map<OpIdx, TensorId>, i: OpIdx, t: TensorId, x': ActObserver, w: WeightObserver, n: nat)
    requires AllWired(share, acts, weights, inputs) && Bound(n, acts, weights) && i !in weights && t in acts
    requires WiredStep(share, i, acts[t], x', w)
    requires w.ic == n || (acts[t].weightObs.Some? && w.ic in acts[t].weightObs.value.Values)
    ensures AllWired(share, acts[t := x'], weights[i := w], inputs[i := t])
    ensures Bound(n + 1, acts[t := x'], weights[i := w])
  {
    OneMoreWired(share, acts, weights, inputs, i, t, x', w);
    OneMoreBound(share, acts, weights, inputs, i, t, x', w, n);
  }

  lemma StepKnows(share: bool, t: TensorId, x: ActObserver, x': ActObserver, inputs: map<OpIdx, TensorId>, i: OpIdx,
                  w: WeightObserver)
    requires Knows(share, t, x, inputs) && i !in inputs && WiredStep(share, i, x, x', w)
    ensures Knows(share, t, x', inputs[i := t])
  {
    assert i in map[i := w.ic];
    assert i in x'.weightObs.value || x'.weightObs == x.weightObs;
  }

  lemma NewWired(share: bool, i: OpIdx, x: ActObserver, x': ActObserver, w: WeightObserver, t: TensorId,
                 inputs: map<OpIdx, TensorId>)
    requires Knows(share, t, x, inputs) && WiredStep(share, i, x, x', w)
    ensures Wired(share, i, w, x')
  {
    if x.weightObs.Some? && share {
      var k :| k in x.weightObs.value && w.ic == x.weightObs.value[k];
      SingleKey(x.weightObs.value, k);
    }
  }

  lemma OldWired(share: bool, i: OpIdx, j: OpIdx, x: ActObserver, x': ActObserver, w: WeightObserver, v: WeightObserver,
                 t: TensorId, inputs: map<OpIdx, TensorId>)
    requires Knows(share, t, x, inputs) && WiredStep(share, i, x, x', w) && Wired(share, j, v, x) && j != i
    ensures Wired(share, j, v, x')
  {
  }

  /** The observers of a traced module. `share` is `share_weight_observers`. */
  class QuantState {
    const share: bool
    const alpha: real
    var channels: seq<Channel>
    var acts: map<TensorId, ActObserver>
    var weights: map<OpIdx, WeightObserver>
    ghost var inputs: map<OpIdx, TensorId>

    constructor (share: bool, alpha: real)
      ensures Valid() && this.share == share && this.alpha == alpha && inputs == map[]
    {
      this.share, this.alpha := share, alpha;
      channels, acts, weights, inputs := [], map[], map[], map[];
    }

    ghost predicate Valid()
      reads this
    {
      AllWired(share, acts, weights, inputs) && Bound(|channels|, acts, weights)
    }

    method NewChannel() returns (r: Ref)
      modifies this`channels
      ensures r == |old(channels)| && channels == old(channels) + [Channel(false, [], [])]
    {
      r := |channels|;
      channels := channels + [Channel(false, [], [])];
    }

    /** The observer of activation `t`, made if there is none. */
    method InsertInput(t: TensorId) returns (found: bool)
      requires Valid()
      modifies this`channels, this`acts
      ensures Valid() && found == (t in old(acts)) && t in acts && |old(channels)| <= |channels|
      ensures acts == if found then old(acts) else old(acts)[t := acts[t]]
      ensures !found ==> acts[t].weightObs.None? && !acts[t].enabled
    {
      found := t in acts;
      if !found {
        var ic := NewChannel();
        acts := acts[t := ActObserver(ic, None, false, map[])];
      }
    }

    /** Wires a new weight observer with per-channel observer `ic` to an activation's observer. */
    method Wire(i: OpIdx, x: ActObserver, ic: Ref) returns (x': ActObserver, w: WeightObserver)
      requires x.weightObs.Some? ==> x.weightObs.value != map[]
      ensures WiredStep(share, i, x, x', w) && (w.ic == ic || (x.weightObs.Some? && w.ic in x.weightObs.value.Values))
    {
      w := WeightObserver(ic, Some(x.ic), true, None);
      x' := x.(enabled := true);
      if x.weightObs.None? {
        x' := x'.(weightObs := Some(map[i := w.ic]));
      } else if share {
        var k :| k in x.weightObs.value;
        w := w.(ic := x.weightObs.value[k]);
      } else {
        x' := x'.(weightObs := Some(x.weightObs.value[i := w.ic]));
      }
    }

    /** A linear, the `i`-th op, on activation `t`. */
    method InsertLinear(i: OpIdx, t: TensorId)
      requires Valid() && i !in weights
      modifies this
      ensures Valid() && inputs == old(inputs)[i := t] && i in weights
      ensures forall j :: j in old(weights) ==> j in weights && weights[j] == old(weights)[j]
    {
      var found := InsertInput(t);
      var ic := NewChannel();
      assert Knows(share, t, acts[t], inputs);
      var x, w := Wire(i, acts[t], ic);
      OneMoreLinked(share, acts, weights, inputs, i, t, x, w, ic);
      acts := acts[t := x];
      weights := weights[i := w];
      inputs := inputs[i := t];
    }

    /** An observer sees the extremes of one more tensor. */
    method Observe(r: Ref, lo: Vec, hi: Vec)
      requires Valid() && r < |channels| && |lo| == |hi| && (channels[r].ran ==> channels[r].Wide(|lo|))
      modifies this`channels
      ensures Valid() && channels == old(channels)[r := Seen(old(channels)[r], lo, hi)]
    {
      channels := channels[r := Seen(channels[r], lo, hi)];
    }

    /** `attach_scale_zp_values_to_model`: the factors of all activations, then those of all weights. */
    method Attach(pow: Power)
      requires Valid() && Positive(pow) && Calibrated(channels, acts, weights, inputs)
      modifies this`acts, this`weights
      ensures forall i :: i in weights <==> i in inputs
      ensures forall i :: i in weights ==> inputs[i] in acts && Balanced(i, acts[inputs[i]], weights[i])
    {
      ghost var acts0, weights0 := acts, weights;
      KnownWidths(share, channels, acts, weights, inputs);
      WiredComputable(share, channels, acts, weights, inputs);
      acts := CalculateActs(pow, alpha, channels, acts);
      weights := CalculateWeights(pow, alpha, channels, weights);
      AllBalanced(share, pow, alpha, channels, acts0, weights0, inputs, acts, weights);
    }

    /** `_map_smooth_quant_info_to_idx`: the activation factors of an op on `args`, those of its last observed argument;
        none if that one is no linear's activation. */
    method MapFactors(args: seq<Arg>) returns (fs: Option<map<OpIdx, Vec>>)
      ensures (forall k :: 0 <= k < |args| ==> !Observed(acts, args[k])) ==> fs.None?
      ensures forall k: nat :: LastObserved(acts, args, |args|, k) ==> fs == FactorsOf(acts[args[k].id])
    {
      fs := None;
      for k := 0 to |args|
        invariant (forall j :: 0 <= j < k ==> !Observed(acts, args[j])) ==> fs.None?
        invariant forall j: nat :: LastObserved(acts, args, k, j) ==> fs == FactorsOf(acts[args[j].id])
      {
        assert forall j: nat :: LastObserved(acts, args, k + 1, j) && j < k ==> LastObserved(acts, args, k, j);
        if args[k].Tensor? && args[k].id in acts {
          fs := FactorsOf(acts[args[k].id]);
        }
      }
    }

    /** `op_convert_before_hook` of op `i`. `firstQuantized` says that its first argument is to be quantised. The
        factors may be those of any argument, but always multiply the first one; and as they leave quantisation
        parameters for one argument only, an op with more arguments raises. */
    method ConvertInput(i: OpIdx, args: seq<Arg>, firstQuantized: bool) returns (r: Try<seq<Arg>>)
      requires firstQuantized ==> |args| > 0 && args[0].Tensor?
      ensures !(firstQuantized && HasFactors(acts, args)) ==> r == Ok(args)
      ensures firstQuantized && HasFactors(acts, args) && |args| > 1 ==> r.Raised?
      ensures firstQuantized && HasFactors(acts, args) && |args| == 1 ==>
        args[0].id in acts &&
        var fs := acts[args[0].id].factors;
        && (r.Raised? <==> fs == map[] || (|fs| > 1 && (i !in fs || !Fits(args[0].row, fs[i])))
                           || (|fs| == 1 && forall s :: s in fs.Values ==> !Fits(args[0].row, s)))
        && (r.Ok? ==> exists s :: MaySelect(fs, i, s) && Fits(args[0].row, s)
                                  && r.value == [Tensor(args[0].id, Broadcast(args[0].row, s))])
    {
      var mapped := MapFactors(args);
      MappedExactly(acts, args, mapped);
      if mapped.None? || !firstQuantized {
        return Ok(args);
      }
      var fs := mapped.value;
      if fs == map[] || (|fs| > 1 && i !in fs) {
        return Raised;
      }
      var k := i;
      if |fs| <= 1 {
        k :| k in fs;
        SingleKey(fs, k);
      }
      assert MaySelect(fs, i, fs[k]);
      if !Fits(args[0].row, fs[k]) {
        return Raised;
      }
      var first := Tensor(args[0].id, Broadcast(args[0].row, fs[k]));
      if |args| > 1 {
        return Raised;
      }
      return Ok([first]);
    }

    /** `op_weight_convert_before_hook` on one row of linear `i`'s weight. */
    method ConvertWeight(i: OpIdx, row: Vec, quantized: bool) returns (row': Vec)
      requires i in weights && (weights[i].factors.Some? ==> |weights[i].factors.value| == |row|)
      ensures row' == if quantized && weights[i].factors.Some? then Mul(row, weights[i].factors.value) else row
    {
      row' := row;
      if quantized && weights[i].factors.Some? {
        row' := Mul(row, weights[i].factors.value);
      }
    }

    /** What linear `i` computes in one output channel before anything is quantised: nothing raises, and each side is
        scaled if it is quantised, by factors that cancel. If only the weight is, as when the producer of the
        activation quantises it, the activation meets the scaled weight unscaled. */
    method ConvertLinear(i: OpIdx, t: TensorId, a: Vec, row: Vec, actQuantized: bool, weightQuantized: bool)
      returns (y: Try<real>)
      requires i in weights && t in acts && Balanced(i, acts[t], weights[i]) && acts[t].enabled
      requires |a| == |row| == |weights[i].factors.value|
      requires forall k :: k in acts[t].factors ==> |acts[t].factors[k]| == |a|
      ensures y.Ok? && exists s ::
        Scales(acts[t].factors, i, s, weights[i].factors.value, |a|)
        && y.value == Converted(a, row, s, weights[i].factors.value, actQuantized, weightQuantized)
      ensures actQuantized == weightQuantized ==> y.value == Dot(a, row)
    {
      ghost var fs, f := acts[t].factors, weights[i].factors.value;
      assert LastObserved(acts, [Tensor(t, a)], 1, 0);
      var r := ConvertInput(i, [Tensor(t, a)], actQuantized);
      var row' := ConvertWeight(i, row, weightQuantized);
      if r.Raised? {
        return Raised;
      }
      ghost var s: Vec;
      if actQuantized {
        s :| MaySelect(fs, i, s) && Fits(a, s) && r.value == [Tensor(t, Broadcast(a, s))];
      } else {
        s := SomeFactor(fs, i);
      }
      assert Scales(fs, i, s, f, |a|);
      if actQuantized && weightQuantized {
        DotCancel(a, row, s, f);
      }
      return Ok(Dot(r.value[0].row, row'));
    }
  }

  // ----- The arguments of an op

  /** An argument of an op, flattened: one row of a tensor, or anything else. */
  datatype Arg = Tensor(id: TensorId, row: Vec) | NoTensor

  ghost predicate Observed(acts: map<TensorId, ActObserver>, arg: Arg)
  {
    arg.Tensor? && arg.id in acts
  }

  /** Argument `k` is the last observed one of the first `n`. */
  ghost predicate LastObserved(acts: map<TensorId, ActObserver>, args: seq<Arg>, n: nat, k: nat)
  {
    k < n <= |args| && Observed(acts, args[k]) && forall j :: k < j < n ==> !Observed(acts, args[j])
  }

  /** `get_scaling_factors` */
  function FactorsOf(x: ActObserver): Option<map<OpIdx, Vec>>
  {
    if x.enabled then Some(x.factors) else None
  }

  /** The last observed argument is a linear's activation. */
  ghost predicate HasFactors(acts: map<TensorId, ActObserver>, args: seq<Arg>)
  {
    exists k: nat :: LastObserved(acts, args, |args|, k) && acts[args[k].id].enabled
  }

  lemma MappedExactly(acts: map<TensorId, ActObserver>, args: seq<Arg>, fs: Option<map<OpIdx, Vec>>)
    requires (forall k :: 0 <= k < |args| ==> !Observed(acts, args[k])) ==> fs.None?
    requires forall k: nat :: LastObserved(acts, args, |args|, k) ==> fs == FactorsOf(acts[args[k].id])
    ensures fs.Some? <==> HasFactors(acts, args)
    ensures |args| == 1 && fs.Some? ==> Observed(acts, args[0]) && fs.value == acts[args[0].id].factors
  {
    if k :| 0 <= k < |args| && Observed(acts, args[k]) {
      var last := FindLast(acts, args, k);
      assert LastObserved(acts, args, |args|, last);
    }
  }

  lemma {:induction false} FindLast(acts: map<TensorId, ActObserver>, args: seq<Arg>, k: nat) returns (last: nat)
    requires k < |args| && Observed(acts, args[k])
    ensures LastObserved(acts, args, |args|, last)
    decreases |args| - k
  {
    last := k;
    if j :| k < j < |args| && Observed(acts, args[j]) {
      last := FindLast(acts, args, j);
    }
  }

  /** A row and a factor that can be multiplied. */
  predicate Fits(row: Vec, s: Vec)
  {
    |row| == |s| || |row| == 1 || |s| == 1
  }

  /** `torch.mul` of a row and a factor. */
  function Broadcast(row: Vec, s: Vec): (p: Vec)
    requires Fits(row, s)
    ensures |row| == |s| ==> p == Mul(row, s)
    ensures |s| == 1 ==> |p| == |row| && forall j :: 0 <= j < |row| ==> p[j] == Product(row[j], s[0])
    ensures |row| == 1 ==> |p| == |s| && forall j :: 0 <= j < |s| ==> p[j] == Product(row[0], s[j])
  {
    if |row| == |s| then Mul(row, s)
    else if |s| == 1 then seq(|row|, j requires 0 <= j < |row| => Product(row[j], s[0]))
    else seq(|s|, j requires 0 <= j < |s| => Product(row[0], s[j]))
  }

  ghost function SomeFactor(factors: map<OpIdx, Vec>, i: OpIdx): (s: Vec)
    requires factors != map[] && (|factors| > 1 ==> i in factors)
    ensures MaySelect(factors, i, s) && s in factors.Values
  {
    if |factors| > 1 then factors[i] else var k :| k in factors; factors[k]
  }

  /** `s` is a factor that linear `i` may select, and cancels the weight factor `f`. */
  ghost predicate Scales(factors: map<OpIdx, Vec>, i: OpIdx, s: Vec, f: Vec, width: nat)
  {
    |s| == width && MaySelect(factors, i, s) && Cancel(s, f)
  }

  // ----- Calibration

  /** Running extremes per channel. */
  function Seen(c: Channel, lo: Vec, hi: Vec): (r: Channel)
    requires |lo| == |hi| && (c.ran ==> c.Wide(|lo|))
    ensures r.ran && r.Wide(|lo|)
    ensures forall j :: 0 <= j < |lo| ==> r.mins[j] <= lo[j] && hi[j] <= r.maxs[j]
    ensures c.ran ==> forall j :: 0 <= j < |lo| ==> r.mins[j] <= c.mins[j] && c.maxs[j] <= r.maxs[j]
    ensures forall j :: 0 <= j < |lo| ==> r.mins[j] == lo[j] || (c.ran && r.mins[j] == c.mins[j])
    ensures forall j :: 0 <= j < |lo| ==> r.maxs[j] == hi[j] || (c.ran && r.maxs[j] == c.maxs[j])
  {
    if c.ran then
      Channel(true, seq(|lo|, j requires 0 <= j < |lo| => Min(c.mins[j], lo[j])),
              seq(|lo|, j requires 0 <= j < |lo| => Max(c.maxs[j], hi[j])))
    else Channel(true, lo, hi)
  }

  /** Every linear's weight and activation have the same channels. */
  ghost predicate Calibrated(channels: seq<Channel>, acts: map<TensorId, ActObserver>,
                             weights: map<OpIdx, WeightObserver>,
                             inputs: map<OpIdx, TensorId>)
    requires Bound(|channels|, acts, weights)
  {
    forall i :: i in weights && i in inputs && inputs[i] in acts ==>
      SameWidth(channels[weights[i].ic], channels[acts[inputs[i]].ic])
  }

  // ----- Factors

  /** Every per-channel observer that `x` knows has seen as many channels as its own. */
  ghost predicate Computable(channels: seq<Channel>, x: ActObserver)
  {
    x.ic < |channels| && (x.weightObs.Some? ==> forall k :: k in x.weightObs.value ==>
      x.weightObs.value[k] < |channels| && SameWidth(channels[x.weightObs.value[k]], channels[x.ic]))
  }

  lemma KnownWidths(share: bool, channels: seq<Channel>, acts: map<TensorId, ActObserver>,
                    weights: map<OpIdx, WeightObserver>, inputs: map<OpIdx, TensorId>)
    requires AllWired(share, acts, weights, inputs) && Bound(|channels|, acts, weights)
    requires Calibrated(channels, acts, weights, inputs)
    ensures forall t :: t in acts ==> Computable(channels, acts[t])
  {
    forall t, k | t in acts && acts[t].weightObs.Some? && k in acts[t].weightObs.value
      ensures acts[t].weightObs.value[k] < |channels|
      ensures SameWidth(channels[acts[t].weightObs.value[k]], channels[acts[t].ic])
    {
      assert Knows(share, t, acts[t], inputs);
      assert Wired(share, k, weights[k], acts[t]);
    }
  }

  /** Enabled together with its wiring, and no factors of unknown weights. */
  ghost predicate Startable(x: ActObserver)
  {
    x.enabled == x.weightObs.Some? && (x.enabled ==> x.factors.Keys <= x.weightObs.value.Keys)
  }

  ghost predicate WeightComputable(channels: seq<Channel>, w: WeightObserver)
  {
    w.ic < |channels| && w.act.Some? && w.act.value < |channels| && SameWidth(channels[w.ic], channels[w.act.value])
  }

  lemma WiredComputable(share: bool, channels: seq<Channel>, acts: map<TensorId, ActObserver>,
                        weights: map<OpIdx, WeightObserver>, inputs: map<OpIdx, TensorId>)
    requires AllWired(share, acts, weights, inputs) && Bound(|channels|, acts, weights)
    requires Calibrated(channels, acts, weights, inputs)
    ensures forall i :: i in weights ==> WeightComputable(channels, weights[i])
    ensures forall t :: t in acts ==> Startable(acts[t])
  {
    forall i | i in weights ensures WeightComputable(channels, weights[i]) {
      assert Wired(share, i, weights[i], acts[inputs[i]]);
    }
    forall t | t in acts ensures Startable(acts[t]) {
      assert Knows(share, t, acts[t], inputs);
    }
  }

  function Calculated(pow: Power, alpha: real, channels: seq<Channel>, x: ActObserver): ActObserver
    requires Positive(pow) && Computable(channels, x)
  {
    if x.enabled && x.weightObs.Some? then
      x.(factors := map k | k in x.weightObs.value ::
        ActFactors(pow, alpha, channels[x.weightObs.value[k]], channels[x.ic]))
    else x
  }

  function WeightCalculated(pow: Power, alpha: real, channels: seq<Channel>, w: WeightObserver): WeightObserver
    requires Positive(pow) && WeightComputable(channels, w)
  {
    w.(factors := Some(WeightFactors(pow, alpha, channels[w.ic], channels[w.act.value])))
  }

  /** The loop of `calculate_qparams` over the known weight observers. */
  method CalculateAct(pow: Power, alpha: real, channels: seq<Channel>, x: ActObserver) returns (r: ActObserver)
    requires Positive(pow) && Computable(channels, x) && Startable(x)
    ensures r == Calculated(pow, alpha, channels, x)
  {
    if !x.enabled {
      return x;
    }
    var known, factors := x.weightObs.value, x.factors;
    var todo := known.Keys;
    while todo != {}
      invariant todo <= known.Keys && factors.Keys <= known.Keys
      invariant forall k :: k in known && k !in todo ==>
        k in factors && factors[k] == ActFactors(pow, alpha, channels[known[k]], channels[x.ic])
    {
      var k :| k in todo;
      factors := factors[k := ActFactors(pow, alpha, channels[known[k]], channels[x.ic])];
      todo := todo - {k};
    }
    r := x.(factors := factors);
    assert factors.Keys == known.Keys;
    assert r.factors == Calculated(pow, alpha, channels, x).factors;
  }

  method CalculateActs(pow: Power, alpha: real, channels: seq<Channel>, acts: map<TensorId, ActObserver>)
    returns (r: map<TensorId, ActObserver>)
    requires Positive(pow)
    requires forall t :: t in acts ==> Computable(channels, acts[t]) && Startable(acts[t])
    ensures r.Keys == acts.Keys && forall t :: t in acts ==> r[t] == Calculated(pow, alpha, channels, acts[t])
  {
    r := acts;
    var todo := acts.Keys;
    while todo != {}
      invariant todo <= acts.Keys && r.Keys == acts.Keys
      invariant forall t :: t in acts ==>
        r[t] == if t in todo then acts[t] else Calculated(pow, alpha, channels, acts[t])
    {
      var t :| t in todo;
      var x := CalculateAct(pow, alpha, channels, r[t]);
      r := r[t := x];
      todo := todo - {t};
    }
  }

  method CalculateWeights(pow: Power, alpha: real, channels: seq<Channel>, weights: map<OpIdx, WeightObserver>)
    returns (r: map<OpIdx, WeightObserver>)
    requires Positive(pow) && forall i :: i in weights ==> WeightComputable(channels, weights[i])
    ensures r.Keys == weights.Keys
    ensures forall i :: i in weights ==> r[i] == WeightCalculated(pow, alpha, channels, weights[i])
  {
    r := weights;
    var todo := weights.Keys;
    while todo != {}
      invariant todo <= weights.Keys && r.Keys == weights.Keys
      invariant forall i :: i in weights ==>
        r[i] == if i in todo then weights[i] else WeightCalculated(pow, alpha, channels, weights[i])
    {
      var i :| i in todo;
      r := r[i := WeightCalculated(pow, alpha, channels, r[i])];
      todo := todo - {i};
    }
  }

  /** A factor that op `i` may find: its own if there are several, the only one otherwise. */
  ghost predicate MaySelect(fs: map<OpIdx, Vec>, i: OpIdx, s: Vec)
  {
    if |fs| > 1 then i in fs && fs[i] == s else exists k :: k in fs && fs[k] == s
  }

  lemma WiredBalanced(share: bool, pow: Power, alpha: real, channels: seq<Channel>, acts: map<TensorId, ActObserver>,
                      weights: map<OpIdx, WeightObserver>, inputs: map<OpIdx, TensorId>, i: OpIdx)
    requires Positive(pow) && AllWired(share, acts, weights, inputs) && Bound(|channels|, acts, weights)
    requires Calibrated(channels, acts, weights, inputs) && i in weights && Computable(channels, acts[inputs[i]])
    ensures WeightComputable(channels, weights[i])
    ensures Balanced(i, Calculated(pow, alpha, channels, acts[inputs[i]]),
      WeightCalculated(pow, alpha, channels, weights[i]))
  {
    var x, w := acts[inputs[i]], weights[i];
    assert Wired(share, i, w, x) && Knows(share, inputs[i], x, inputs);
    SameObserversCancel(pow, alpha, channels[w.ic], channels[x.ic]);
    SelectedFactor(share, pow, alpha, channels, i, inputs, w, x);
  }

  /** Whatever factor the linear selects, it is that of its own two observers. */
  lemma SelectedFactor(share: bool, pow: Power, alpha: real, channels: seq<Channel>, i: OpIdx,
                       inputs: map<OpIdx, TensorId>, w: WeightObserver, x: ActObserver)
    requires Positive(pow) && Computable(channels, x) && i in inputs && Wired(share, i, w, x)
    requires Knows(share, inputs[i], x, inputs)
    requires w.ic < |channels| && SameWidth(channels[w.ic], channels[x.ic])
    ensures
      var fs := Calculated(pow, alpha, channels, x).factors;
      && fs != map[] && (|fs| > 1 ==> i in fs)
      && forall s :: MaySelect(fs, i, s) ==> s == ActFactors(pow, alpha, channels[w.ic], channels[x.ic])
  {
    var fs := Calculated(pow, alpha, channels, x).factors;
    assert fs.Keys == x.weightObs.value.Keys;
    assert |fs| == |x.weightObs.value|;
    forall s | MaySelect(fs, i, s) ensures s == ActFactors(pow, alpha, channels[w.ic], channels[x.ic]) {
      if |fs| <= 1 {
        var k :| k in fs && fs[k] == s;
        SingleKey(fs, k);
      }
    }
  }

  lemma AllBalanced(share: bool, pow: Power, alpha: real, channels: seq<Channel>, acts: map<TensorId, ActObserver>,
                    weights: map<OpIdx, WeightObserver>, inputs: map<OpIdx, TensorId>,
                    acts': map<TensorId, ActObserver>, weights': map<OpIdx, WeightObserver>)
    requires Positive(pow) && AllWired(share, acts, weights, inputs) && Bound(|channels|, acts, weights)
    requires Calibrated(channels, acts, weights, inputs) && acts'.Keys == acts.Keys && weights'.Keys == weights.Keys
    requires forall t :: t in acts ==>
      Computable(channels, acts[t]) && acts'[t] == Calculated(pow, alpha, channels, acts[t])
    requires forall i :: i in weights ==>
      WeightComputable(channels, weights[i]) && weights'[i] == WeightCalculated(pow, alpha, channels, weights[i])
    ensures forall i :: i in weights' ==>
      i in inputs && inputs[i] in acts' && Balanced(i, acts'[inputs[i]], weights'[i])
  {
    forall i | i in weights' ensures Balanced(i, acts'[inputs[i]], weights'[i]) {
      WiredBalanced(share, pow, alpha, channels, acts, weights, inputs, i);
    }
  }

  /** Whatever factor linear `i` selects for its activation cancels its own weight factor, channel by channel. */
  ghost predicate Balanced(i: OpIdx, x: ActObserver, w: WeightObserver)
  {
    && w.factors.Some? && x.factors != map[] && (|x.factors| > 1 ==> i in x.factors)
    && forall s :: MaySelect(x.factors, i, s) ==> Cancel(s, w.factors.value)
  }
}
