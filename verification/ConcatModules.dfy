/**
 Concatenating nn.Linear modules (fx/concat_linear.py `canConcatLinear` and `concat`): one layer whose
 output, split at the original widths, is the list of the original outputs.
 */
module ConcatModules {
  import opened Basics
  import opened LinearAlgebra
  import opened Fx

  /** `canConcatLinear`; comparing a bias with a missing one raises. */
  function CanConcat(base: Module, other: Module): Try<bool>
    requires base.Linear? && other.Linear?
  {
    if base.traits != other.traits || base.cols != other.cols then Ok(false)
    else match base.bias
      case None => Ok(other.bias.None?)
      case Some(b) => if other.bias.None? then Raised else Ok(b.traits == other.bias.value.traits)
  }

  /** Two layers can be concatenated exactly if their weights agree on device, dtype, requires_grad and width, and so do
      their biases, if they have any. Only a bias that the second layer lacks makes the question raise, and only if the
      weights agree. */
  lemma CanConcatExactly(base: Module, other: Module)
    requires base.Linear? && other.Linear?
    ensures CanConcat(base, other) == Ok(true) <==>
      && AgreeOn(base.traits, other.traits) && base.cols == other.cols && base.bias.Some? == other.bias.Some?
      && (base.bias.Some? ==> AgreeOn(base.bias.value.traits, other.bias.value.traits))
    ensures CanConcat(base, other).Raised? <==>
      AgreeOn(base.traits, other.traits) && base.cols == other.cols && base.bias.Some? && other.bias.None?
  {
  }

  predicate AgreeOn(a: Traits, b: Traits)
  {
    a.device == b.device && a.dtype == b.dtype && a.requiresGrad == b.requiresGrad
  }

  /** Linear layers that agree with the first one on width and on having a bias. */
  ghost predicate Compatible(ms: seq<Module>)
  {
    && |ms| > 0 && ms[0].Linear?
    && (forall k :: 0 <= k < |ms| ==>
          ms[k].Linear? && WellShaped(ms[k]) && ms[k].cols == ms[0].cols && ms[k].bias.Some? == ms[0].bias.Some?)
  }

  function Weights(ms: seq<Module>): seq<Matrix>
    requires forall k :: 0 <= k < |ms| ==> ms[k].Linear?
  {
    seq(|ms|, k requires 0 <= k < |ms| => ms[k].weight)
  }

  function Biases(ms: seq<Module>): seq<Vec>
    requires forall k :: 0 <= k < |ms| ==> ms[k].Linear? && ms[k].bias.Some?
  {
    seq(|ms|, k requires 0 <= k < |ms| => ms[k].bias.value.values)
  }

  /** `concat` for a list of compatible layers. */
  function Concat(ms: seq<Module>): Module
    requires |ms| > 0 && ms[0].Linear?
    requires forall k :: 0 <= k < |ms| ==> ms[k].Linear? && ms[k].bias.Some? == ms[0].bias.Some?
  {
    Linear(Flat(Weights(ms)), ms[0].cols, ms[0].traits,
           if ms[0].bias.Some? then Some(Bias(Flat(Biases(ms)), ms[0].bias.value.traits)) else None)
  }

  function Channels(ms: seq<Module>): seq<nat>
    requires forall k :: 0 <= k < |ms| ==> ms[k].Linear?
  {
    seq(|ms|, k requires 0 <= k < |ms| => |ms[k].weight|)
  }

  ghost function Outputs(ms: seq<Module>, x: Vec): seq<Vec>
    requires Compatible(ms) && |x| == ms[0].cols
  {
    seq(|ms|, k requires 0 <= k < |ms| => LinearRow(ms[k], x))
  }

  /** One more layer appends its rows. */
  lemma ConcatLast(ms: seq<Module>)
    requires Compatible(ms) && |ms| > 1
    ensures
      var front, last := ms[..|ms| - 1], ms[|ms| - 1];
      Compatible(front) && Concat(ms).weight == Concat(front).weight + last.weight
      && Concat(ms).cols == Concat(front).cols && Concat(ms).bias.Some? == last.bias.Some? == Concat(front).bias.Some?
      && (last.bias.Some? ==>
            Concat(ms).bias.value.values == Concat(front).bias.value.values + last.bias.value.values)
  {
    var front, last := ms[..|ms| - 1], ms[|ms| - 1];
    assert Weights(ms)[..|ms| - 1] == Weights(front);
    if last.bias.Some? {
      assert Biases(ms)[..|ms| - 1] == Biases(front);
    }
  }

  lemma {:induction false} ConcatShape(ms: seq<Module>)
    requires Compatible(ms)
    ensures WellShaped(Concat(ms)) && |Concat(ms).weight| == Sum(Channels(ms))
  {
    if |ms| == 1 {
      ConcatOne(ms);
    } else {
      ConcatLast(ms);
      ConcatShape(ms[..|ms| - 1]);
      assert Channels(ms)[..|ms| - 1] == Channels(ms[..|ms| - 1]);
    }
  }

  lemma ConcatOne(ms: seq<Module>)
    requires Compatible(ms) && |ms| == 1
    ensures Concat(ms) == ms[0] && Sum(Channels(ms)) == |ms[0].weight|
  {
    assert Weights(ms) == [ms[0].weight] && [ms[0].weight][..0] == [];
    assert Flat([ms[0].weight]) == ms[0].weight;
    if ms[0].bias.Some? {
      var b := ms[0].bias.value.values;
      assert Biases(ms) == [b] && [b][..0] == [];
      assert Flat([b]) == b;
    }
    assert Channels(ms) == [|ms[0].weight|];
  }

  /** The concatenated layer computes all outputs one after the other. */
  lemma {:induction false} ConcatRow(ms: seq<Module>, x: Vec)
    requires Compatible(ms) && |x| == ms[0].cols && WellShaped(Concat(ms))
    ensures LinearRow(Concat(ms), x) == Flat(Outputs(ms, x))
  {
    if |ms| == 1 {
      ConcatOne(ms);
      assert Outputs(ms, x) == [LinearRow(ms[0], x)];
    } else {
      var front, last := ms[..|ms| - 1], ms[|ms| - 1];
      ConcatLast(ms);
      ConcatShape(front);
      ConcatRow(front, x);
      assert Outputs(ms, x)[..|ms| - 1] == Outputs(front, x);
      assert LinearRow(Concat(ms), x) == LinearRow(Concat(front), x) + LinearRow(last, x);
    }
  }

  lemma {:induction false} ChannelOffset(ms: seq<Module>, x: Vec, k: nat)
    requires Compatible(ms) && |x| == ms[0].cols && k <= |ms|
    ensures |Flat(Outputs(ms, x)[..k])| == Sum(Channels(ms)[..k])
  {
    if k > 0 {
      ChannelOffset(ms, x, k - 1);
      assert Outputs(ms, x)[..k][..k - 1] == Outputs(ms, x)[..k - 1];
      assert Channels(ms)[..k][..k - 1] == Channels(ms)[..k - 1];
    }
  }

  /** Splitting the concatenated output at the original widths gives back every layer's own output. */
  lemma ConcatThenSplit(ms: seq<Module>, x: Value, k: nat)
    requires Compatible(ms) && k < |ms| && HasWidth(x, ms[0].cols)
    ensures HasWidth(ApplyLinear(Concat(ms), x), Sum(Channels(ms)))
    ensures SplitPart(ApplyLinear(Concat(ms), x), Channels(ms), k) == ApplyLinear(ms[k], x)
  {
    ConcatShape(ms);
    var y := ApplyLinear(Concat(ms), x);
    SumPrefix(Channels(ms), k);
    forall r | 0 <= r < |x.rows|
      ensures y.rows[r][Sum(Channels(ms)[..k])..Sum(Channels(ms)[..k]) + Channels(ms)[k]] == LinearRow(ms[k], x.rows[r])
    {
      ConcatRow(ms, x.rows[r]);
      FlatSlice(Outputs(ms, x.rows[r]), k);
      ChannelOffset(ms, x.rows[r], k);
    }
    assert SplitPart(y, Channels(ms), k).rows == ApplyLinear(ms[k], x).rows;
  }

  /** A module behind the first one has outputs. */
  ghost predicate MoreOutputs(ms: seq<Module>)
    requires Compatible(ms)
  {
    exists k :: 1 <= k < |ms| && |ms[k].weight| > 0
  }

  /** With such a module the concatenated layer has more outputs than the first one, otherwise it is the first one. */
  lemma ConcatGrows(ms: seq<Module>)
    requires Compatible(ms)
    ensures WellShaped(Concat(ms))
    ensures if MoreOutputs(ms) then |Concat(ms).weight| > |ms[0].weight| else Concat(ms) == ms[0]
  {
    ConcatShape(ms);
    if k :| 1 <= k < |ms| && |ms[k].weight| > 0 {
      SumTwo(Channels(ms), k);
    } else {
      ConcatEmpty(ms);
    }
  }

  lemma {:induction false} ConcatEmpty(ms: seq<Module>)
    requires Compatible(ms) && forall k :: 1 <= k < |ms| ==> ms[k].weight == []
    ensures Concat(ms) == ms[0]
  {
    if |ms| == 1 {
      ConcatOne(ms);
    } else {
      var front, last := ms[..|ms| - 1], ms[|ms| - 1];
      ConcatLast(ms);
      ConcatEmpty(front);
      assert last.weight == [] && Concat(front).weight + last.weight == Concat(front).weight;
      if last.bias.Some? {
        assert last.bias.value.values == [];
        assert Concat(front).bias.value.values + last.bias.value.values == Concat(front).bias.value.values;
      }
    }
  }

  lemma {:induction false} SumTwo(sizes: seq<nat>, k: nat)
    requires 1 <= k < |sizes|
    ensures Sum(sizes) >= sizes[0] + sizes[k]
    decreases |sizes|
  {
    var front := sizes[..|sizes| - 1];
    if k < |sizes| - 1 {
      SumTwo(front, k);
    } else {
      SumPrefix(front, 0);
    }
  }
}
