/**
 Weight-only quantisation of one row with a scale per block of `g` elements (quantization/_quantize_utils.py
 `quantize_per_block` and `dequantize_per_block`): the complete blocks and the remainder take separate paths.
 */
module BlockCodec {
  import opened Basics
  import opened LinearAlgebra
  import opened Multiples
  import opened Rounding
  import opened WeightCodec

  // ----- Complete blocks as pieces of equal width

  /** Complete block `b`. */
  function Whole<T>(row: seq<T>, g: nat, b: nat): (block: seq<T>)
    requires Times(b, g) + g <= |row|
    ensures |block| == g && forall i :: 0 <= i < g ==> block[i] == row[Times(b, g) + i]
  {
    row[Times(b, g)..Times(b, g) + g]
  }

  /** Element `j` of complete pieces followed by a remainder. */
  lemma Assembled<T>(pieces: seq<seq<T>>, rest: seq<T>, g: nat, k: nat, j: nat)
    requires g > 0 && Uniform(pieces, g) && |pieces| == Quo(k, g) && |rest| == Rem(k, g) && j < k
    ensures |Flat(pieces) + rest| == k
    ensures Quo(j, g) < Quo(k, g) || (Quo(j, g) == Quo(k, g) && Rem(j, g) < Rem(k, g))
    ensures (Flat(pieces) + rest)[j] == if Quo(j, g) < Quo(k, g) then pieces[Quo(j, g)][Rem(j, g)] else rest[Rem(j, g)]
  {
    ElementBlock(j, k, g);
    FlatUniform(pieces, g);
    QuoRem(k, g);
    AppendAt(Flat(pieces), rest, j);
    if Quo(j, g) < Quo(k, g) {
      FlatAt(pieces, g, Quo(j, g), Rem(j, g));
    }
  }

  // ----- Parameters

  /** The number of blocks, the last of which may be incomplete. */
  function BlockCount(k: nat, g: nat): nat
    requires g > 0
  {
    Quo(k + g - 1, g)
  }

  lemma BlockCountIs(k: nat, g: nat)
    requires g > 0
    ensures BlockCount(k, g) == Quo(k, g) + if Rem(k, g) != 0 then 1 else 0
    ensures Times(Quo(k, g), g) == k - Rem(k, g)
  {
    QuoRem(k, g);
    if Rem(k, g) == 0 {
      QuoOf(Quo(k, g), g - 1, g);
    } else {
      QuoOf(Quo(k, g) + 1, Rem(k, g) - 1, g);
    }
  }

  lemma WholeEnds(row: nat, g: nat, n: nat)
    requires g > 0 && n == Quo(row, g)
    ensures forall b :: 0 <= b < n ==> Times(b, g) + g <= row
  {
    QuoRem(row, g);
    forall b | 0 <= b < n ensures Times(b, g) + g <= row {
      TimesEnd(b, n, g);
    }
  }

  /** The elements behind the complete blocks. */
  function Rest<T>(row: seq<T>, g: nat): (rest: seq<T>)
    requires g > 0
    ensures |rest| == Rem(|row|, g)
  {
    QuoRem(|row|, g);
    row[|row| - Rem(|row|, g)..]
  }

  lemma RestAt<T>(row: seq<T>, g: nat, i: nat)
    requires g > 0 && i < Rem(|row|, g)
    ensures Times(Quo(|row|, g), g) + i < |row| && Rest(row, g)[i] == row[Times(Quo(|row|, g), g) + i]
  {
    QuoRem(|row|, g);
  }

  function WholeParams(row: Row, g: nat, dtype: Dtype, sym: bool): (ps: seq<QParams>)
    requires g > 0
    ensures |ps| == Quo(|row|, g)
  {
    WholeEnds(|row|, g, Quo(|row|, g));
    seq(Quo(|row|, g), b requires 0 <= b < Quo(|row|, g) => ComputedQParams(Whole(row, g, b), dtype, sym))
  }

  /** `get_qparams`: the complete blocks first, then the remainder. */
  function BlockParams(row: Row, g: nat, dtype: Dtype, sym: bool): (ps: seq<QParams>)
    requires g > 0
    ensures |ps| == BlockCount(|row|, g)
  {
    BlockCountIs(|row|, g);
    WholeParams(row, g, dtype, sym) + if Rem(|row|, g) != 0 then [ComputedQParams(Rest(row, g), dtype, sym)] else []
  }

  /** Block `b` of a row; the last one may be incomplete. */
  function Block<T>(row: seq<T>, g: nat, b: nat): (block: seq<T>)
    requires g > 0 && b < BlockCount(|row|, g)
  {
    BlockCountIs(|row|, g);
    WholeEnds(|row|, g, Quo(|row|, g));
    if b < Quo(|row|, g) then Whole(row, g, b) else Rest(row, g)
  }

  lemma BlockParamsAt(row: Row, g: nat, dtype: Dtype, sym: bool, b: nat)
    requires g > 0 && b < BlockCount(|row|, g)
    ensures BlockParams(row, g, dtype, sym)[b] == ComputedQParams(Block(row, g, b), dtype, sym)
  {
    BlockCountIs(|row|, g);
  }

  /** Every element belongs to its block. */
  lemma BlockHas<T>(row: seq<T>, g: nat, j: nat)
    requires g > 0 && j < |row|
    ensures Quo(j, g) < BlockCount(|row|, g) && Rem(j, g) < |Block(row, g, Quo(j, g))|
    ensures Block(row, g, Quo(j, g))[Rem(j, g)] == row[j]
  {
    ElementBlock(j, |row|, g);
    if Quo(j, g) < Quo(|row|, g) {
      WholeAt(row, g, Quo(j, g), Rem(j, g), j);
    } else {
      LastAt(row, g, Rem(j, g), j);
    }
  }

  lemma LastAt<T>(row: seq<T>, g: nat, i: nat, j: nat)
    requires g > 0 && i < Rem(|row|, g) && j == Times(Quo(|row|, g), g) + i
    ensures j < |row| && Quo(|row|, g) < BlockCount(|row|, g)
    ensures i < |Block(row, g, Quo(|row|, g))| && Block(row, g, Quo(|row|, g))[i] == row[j]
  {
    BlockCountIs(|row|, g);
    RestAt(row, g, i);
  }

  lemma WholeAt<T>(row: seq<T>, g: nat, b: nat, i: nat, j: nat)
    requires g > 0 && b < Quo(|row|, g) && i < g && j == Times(b, g) + i < |row|
    ensures b < BlockCount(|row|, g) && i < |Block(row, g, b)| && Block(row, g, b)[i] == row[j]
  {
    BlockCountIs(|row|, g);
    WholeEnds(|row|, g, Quo(|row|, g));
  }

  // ----- Quantising

  /** Symmetric quantisation ignores given zero points here, unlike per channel. */
  function Effective(p: QParams, sym: bool): (q: QParams)
    ensures q.scale == p.scale
  {
    if sym then p.(zp := None) else p
  }

  ghost predicate Usable(ps: seq<QParams>)
  {
    forall b :: 0 <= b < |ps| ==> ps[b].scale != 0.0
  }

  function WholeCodes(row: Row, g: nat, dtype: Dtype, sym: bool, ps: seq<QParams>): (pieces: seq<seq<int>>)
    requires g > 0 && Quo(|row|, g) <= |ps| && Usable(ps)
    ensures |pieces| == Quo(|row|, g) && Uniform(pieces, g)
  {
    WholeEnds(|row|, g, Quo(|row|, g));
    seq(Quo(|row|, g), b requires 0 <= b < Quo(|row|, g) =>
      CodeRow(Whole(row, g, b), dtype, sym, Effective(ps[b], sym)))
  }

  function BlockCodes(row: Row, g: nat, dtype: Dtype, sym: bool, ps: seq<QParams>): (cs: seq<int>)
    requires g > 0 && |ps| == BlockCount(|row|, g) && Usable(ps)
  {
    BlockCountIs(|row|, g);
    Flat(WholeCodes(row, g, dtype, sym, ps)) + RestCodes(row, g, dtype, sym, ps)
  }

  /** The simple form: element `j` uses the parameters of block j / g. */
  function ElementCodes(row: Row, g: nat, dtype: Dtype, sym: bool, ps: seq<QParams>): (cs: seq<int>)
    requires g > 0 && |ps| == BlockCount(|row|, g) && Usable(ps)
    ensures |cs| == |row|
  {
    seq(|row|, j requires 0 <= j < |row| => ElementCode(row, g, dtype, sym, ps, j))
  }

  function ElementCode(row: Row, g: nat, dtype: Dtype, sym: bool, ps: seq<QParams>, j: nat): int
    requires g > 0 && |ps| == BlockCount(|row|, g) && Usable(ps) && j < |row|
  {
    ElementBlock(j, |row|, g);
    Code(row[j], dtype, sym, Effective(ps[Quo(j, g)], sym))
  }

  lemma ElementBlock(j: nat, k: nat, g: nat)
    requires g > 0 && j < k
    ensures Quo(j, g) < BlockCount(k, g) && j == Times(Quo(j, g), g) + Rem(j, g)
    ensures Quo(j, g) < Quo(k, g) || (Quo(j, g) == Quo(k, g) && Rem(k, g) != 0 && Rem(j, g) < Rem(k, g))
  {
    BlockCountIs(k, g);
    QuoRem(j, g);
    QuoRem(k, g);
    if Quo(j, g) > Quo(k, g) {
      TimesEnd(Quo(k, g), Quo(j, g), g);
    }
  }

  /** Blocks and remainder compute the simple form, for every width and block size. */
  lemma BlockCodesRefine(row: Row, g: nat, dtype: Dtype, sym: bool, ps: seq<QParams>)
    requires g > 0 && |ps| == BlockCount(|row|, g) && Usable(ps)
    ensures BlockCodes(row, g, dtype, sym, ps) == ElementCodes(row, g, dtype, sym, ps)
  {
    var cs, es := BlockCodes(row, g, dtype, sym, ps), ElementCodes(row, g, dtype, sym, ps);
    BlockCodesLength(row, g, dtype, sym, ps);
    forall j | 0 <= j < |row| ensures cs[j] == es[j] {
      BlockCodeAt(row, g, dtype, sym, ps, j);
    }
  }

  lemma BlockCodesLength(row: Row, g: nat, dtype: Dtype, sym: bool, ps: seq<QParams>)
    requires g > 0 && |ps| == BlockCount(|row|, g) && Usable(ps)
    ensures |BlockCodes(row, g, dtype, sym, ps)| == |row|
  {
    BlockCountIs(|row|, g);
    FlatUniform(WholeCodes(row, g, dtype, sym, ps), g);
  }

  lemma WholeCodeAt(row: Row, g: nat, dtype: Dtype, sym: bool, ps: seq<QParams>, b: nat, i: nat, j: nat)
    requires g > 0 && Quo(|row|, g) <= |ps| && Usable(ps) && b < Quo(|row|, g) && i < g && j == Times(b, g) + i
    ensures j < |row| && WholeCodes(row, g, dtype, sym, ps)[b][i] == Code(row[j], dtype, sym, Effective(ps[b], sym))
  {
    WholeEnds(|row|, g, Quo(|row|, g));
  }

  /** The codes of the remainder. */
  function RestCodes(row: Row, g: nat, dtype: Dtype, sym: bool, ps: seq<QParams>): (cs: seq<int>)
    requires g > 0 && |ps| == BlockCount(|row|, g) && Usable(ps)
    ensures |cs| == Rem(|row|, g)
  {
    BlockCountIs(|row|, g);
    if Rem(|row|, g) != 0 then CodeRow(Rest(row, g), dtype, sym, Effective(ps[Quo(|row|, g)], sym)) else []
  }

  lemma RestCodeAt(row: Row, g: nat, dtype: Dtype, sym: bool, ps: seq<QParams>, i: nat, j: nat)
    requires g > 0 && |ps| == BlockCount(|row|, g) && Usable(ps) && i < Rem(|row|, g)
    requires j == Times(Quo(|row|, g), g) + i
    ensures Quo(|row|, g) < |ps| && j < |row|
    ensures RestCodes(row, g, dtype, sym, ps)[i] == Code(row[j], dtype, sym, Effective(ps[Quo(|row|, g)], sym))
  {
    BlockCountIs(|row|, g);
    RestAt(row, g, i);
  }

  lemma BlockCodeAt(row: Row, g: nat, dtype: Dtype, sym: bool, ps: seq<QParams>, j: nat)
    requires g > 0 && |ps| == BlockCount(|row|, g) && Usable(ps) && j < |row|
    ensures |BlockCodes(row, g, dtype, sym, ps)| == |row|
    ensures BlockCodes(row, g, dtype, sym, ps)[j] == ElementCode(row, g, dtype, sym, ps, j)
  {
    BlockCountIs(|row|, g);
    ElementBlock(j, |row|, g);
    Assembled(WholeCodes(row, g, dtype, sym, ps), RestCodes(row, g, dtype, sym, ps), g, |row|, j);
    if Quo(j, g) < Quo(|row|, g) {
      WholeCodeAt(row, g, dtype, sym, ps, Quo(j, g), Rem(j, g), j);
    } else {
      RestCodeAt(row, g, dtype, sym, ps, Rem(j, g), j);
    }
  }

  // ----- Dequantising

  /** The parameters of complete block `b` when `n` columns meet `|ps|` ones: a single column serves all blocks. */
  function ParamsAt(ps: seq<QParams>, b: nat): QParams
    requires |ps| == 1 || b < |ps|
  {
    if |ps| == 1 then ps[0] else ps[b]
  }

  function WholeValues(cs: seq<int>, g: nat, dtype: Dtype, ps: seq<QParams>): (pieces: seq<seq<real>>)
    requires g > 0 && (|ps| == 1 || |ps| == Quo(|cs|, g))
    ensures |pieces| == Quo(|cs|, g) && Uniform(pieces, g)
  {
    WholeEnds(|cs|, g, Quo(|cs|, g));
    seq(Quo(|cs|, g), b requires 0 <= b < Quo(|cs|, g) => ValueRow(Whole(cs, g, b), dtype, ParamsAt(ps, b)))
  }

  function RestValues(cs: seq<int>, g: nat, dtype: Dtype, ps: seq<QParams>): (row: Row)
    requires g > 0 && (Rem(|cs|, g) != 0 ==> |ps| == 1)
    ensures |row| == Rem(|cs|, g)
  {
    if Rem(|cs|, g) != 0 then ValueRow(Rest(cs, g), dtype, ps[0]) else []
  }

  /** The values of all codes read, padding included; the shapes of codes and parameters may not match. */
  function BlockValues(cs: seq<int>, g: nat, dtype: Dtype, ps: seq<QParams>): Try<Row>
    requires g > 0
  {
    var n := Quo(|cs|, g);
    var split := if |ps| < n then |ps| else n;
    var com, rem := ps[..split], ps[split..];
    if |com| != 1 && |com| != n then Raised
    else if Rem(|cs|, g) != 0 && |rem| != 1 then Raised
    else Ok(Flat(WholeValues(cs, g, dtype, com)) + RestValues(cs, g, dtype, rem))
  }

  /** `dequantize_per_block` on one row. */
  ghost function DequantizeBlocks(st: seq<int>, dtype: Dtype, g: nat, ps: seq<QParams>, width: Option<nat>): Try<Row>
    requires g > 0 && Stored(st, dtype)
  {
    var row :- BlockValues(Load(st, dtype), g, dtype, ps);
    Ok(Cut(row, width))
  }

  /** The simple form: code `j` uses the parameters of block j / g. */
  function ElementValues(cs: seq<int>, g: nat, dtype: Dtype, ps: seq<QParams>): (row: Row)
    requires g > 0 && |ps| == BlockCount(|cs|, g)
    ensures |row| == |cs|
  {
    seq(|cs|, j requires 0 <= j < |cs| => ElementValue(cs, g, dtype, ps, j))
  }

  function ElementValue(cs: seq<int>, g: nat, dtype: Dtype, ps: seq<QParams>, j: nat): real
    requires g > 0 && |ps| == BlockCount(|cs|, g) && j < |cs|
  {
    ElementBlock(j, |cs|, g);
    Value(cs[j], dtype, ps[Quo(j, g)])
  }

  lemma WholeValueAt(cs: seq<int>, g: nat, dtype: Dtype, ps: seq<QParams>, b: nat, i: nat, j: nat)
    requires g > 0 && |ps| == Quo(|cs|, g) && b < Quo(|cs|, g) && i < g && j == Times(b, g) + i
    ensures j < |cs| && WholeValues(cs, g, dtype, ps)[b][i] == Value(cs[j], dtype, ps[b])
  {
    WholeEnds(|cs|, g, Quo(|cs|, g));
  }

  lemma RestValueAt(cs: seq<int>, g: nat, dtype: Dtype, ps: seq<QParams>, i: nat, j: nat)
    requires g > 0 && |ps| == 1 && i < Rem(|cs|, g) && j == Times(Quo(|cs|, g), g) + i
    ensures j < |cs| && RestValues(cs, g, dtype, ps)[i] == Value(cs[j], dtype, ps[0])
  {
    RestAt(cs, g, i);
  }

  /** With one column of parameters per block, nothing raises and the simple form is computed. */
  lemma BlockValuesRefine(cs: seq<int>, g: nat, dtype: Dtype, ps: seq<QParams>)
    requires g > 0 && |ps| == BlockCount(|cs|, g)
    ensures BlockValues(cs, g, dtype, ps) == Ok(ElementValues(cs, g, dtype, ps))
  {
    BlockCountIs(|cs|, g);
    var n := Quo(|cs|, g);
    var pieces, rest := WholeValues(cs, g, dtype, ps[..n]), RestValues(cs, g, dtype, ps[n..]);
    FlatUniform(pieces, g);
    assert |Flat(pieces) + rest| == |cs|;
    forall j | 0 <= j < |cs| ensures (Flat(pieces) + rest)[j] == ElementValue(cs, g, dtype, ps, j) {
      BlockValueAt(cs, g, dtype, ps, n, j);
    }
    assert Flat(pieces) + rest == ElementValues(cs, g, dtype, ps);
  }

  lemma BlockValueAt(cs: seq<int>, g: nat, dtype: Dtype, ps: seq<QParams>, n: nat, j: nat)
    requires g > 0 && |ps| == BlockCount(|cs|, g) && n == Quo(|cs|, g) <= |ps| && (Rem(|cs|, g) != 0 ==> |ps| == n + 1)
    requires j < |cs|
    ensures
      var all := Flat(WholeValues(cs, g, dtype, ps[..n])) + RestValues(cs, g, dtype, ps[n..]);
      |all| == |cs| && all[j] == ElementValue(cs, g, dtype, ps, j)
  {
    ElementBlock(j, |cs|, g);
    Assembled(WholeValues(cs, g, dtype, ps[..n]), RestValues(cs, g, dtype, ps[n..]), g, |cs|, j);
    if Quo(j, g) < n {
      WholeValueAt(cs, g, dtype, ps[..n], Quo(j, g), Rem(j, g), j);
    } else {
      RestValueAt(cs, g, dtype, ps[n..], Rem(j, g), j);
    }
  }

  // ----- Padding

  /** When the padding of an odd 4-bit row starts no block of its own. */
  ghost predicate PaddingFits(k: nat, g: nat, dtype: Dtype)
    requires g > 0
  {
    FourBit(dtype) && k % 2 == 1 ==> Rem(k, g) != 0 || k == 1
  }

  /** One more element: a new block exactly if the old ones were complete. */
  lemma NextCount(k: nat, g: nat)
    requires g > 0
    ensures BlockCount(k + 1, g) == BlockCount(k, g) + if Rem(k, g) == 0 then 1 else 0
    ensures Rem(k, g) == 0 ==>
      Quo(k + 1, g) == Quo(k, g) + (if g == 1 then 1 else 0) && Rem(k + 1, g) == if g == 1 then 0 else 1
  {
    QuoRem(k, g);
    BlockCountIs(k, g);
    BlockCountIs(k + 1, g);
    if Rem(k, g) < g - 1 {
      QuoOf(Quo(k, g), Rem(k, g) + 1, g);
    } else {
      QuoOf(Quo(k, g) + 1, 0, g);
    }
  }

  /** What the padded row gives, cut back to its width: the simple form, or a shape error. */
  lemma PaddedValues(cs: seq<int>, g: nat, dtype: Dtype, ps: seq<QParams>)
    requires g > 0 && |ps| == BlockCount(|cs|, g)
    ensures
      var r := BlockValues(cs + [0], g, dtype, ps);
      if Rem(|cs|, g) != 0 || |cs| == 1 then r.Ok? && Cut(r.value, Some(|cs|)) == ElementValues(cs, g, dtype, ps)
      else r.Raised?
  {
    NextCount(|cs|, g);
    BlockCountIs(|cs|, g);
    if Rem(|cs|, g) != 0 {
      BlockValuesRefine(cs + [0], g, dtype, ps);
      PaddedElements(cs, g, dtype, ps);
    } else if |cs| == 1 {
      SinglePadded(cs, dtype, ps);
      assert Cut(BlockValues(cs + [0], g, dtype, ps).value, Some(1)) == [Value(cs[0], dtype, ps[0])];
    }
  }

  lemma PaddedElements(cs: seq<int>, g: nat, dtype: Dtype, ps: seq<QParams>)
    requires g > 0 && |ps| == BlockCount(|cs|, g) == BlockCount(|cs| + 1, g)
    ensures ElementValues(cs + [0], g, dtype, ps)[..|cs|] == ElementValues(cs, g, dtype, ps)
  {
    var long := ElementValues(cs + [0], g, dtype, ps);
    forall j | 0 <= j < |cs| ensures long[j] == ElementValue(cs, g, dtype, ps, j) {
    }
  }

  lemma SinglePadded(cs: seq<int>, dtype: Dtype, ps: seq<QParams>)
    requires |ps| == 1 && |cs| == 1
    ensures
      var r := BlockValues(cs + [0], 1, dtype, ps);
      r.Ok? && |r.value| == 2 && r.value[0] == Value(cs[0], dtype, ps[0])
  {
    assert ps[..1] == ps && ps[1..] == [];
    var pieces := WholeValues(cs + [0], 1, dtype, ps);
    FlatUniform(pieces, 1);
    TimesOne(2);
    TimesOne(0);
    FlatAt(pieces, 1, 0, 0);
    var r := BlockValues(cs + [0], 1, dtype, ps);
    assert r == Ok(Flat(pieces) + []);
    assert pieces[0][0] == Value(cs[0], dtype, ps[0]);
  }

  /** Dequantising a stored row works exactly when the padding fits, and then is the simple form. */
  lemma DequantizeBlocksExactly(cs: seq<int>, g: nat, dtype: Dtype, ps: seq<QParams>)
    requires g > 0 && |ps| == BlockCount(|cs|, g) && InRange(cs, dtype)
    ensures Stored(Store(cs, dtype), dtype)
    ensures
      DequantizeBlocks(Store(cs, dtype), dtype, g, ps, Some(|cs|)) ==
      if PaddingFits(|cs|, g, dtype) then Ok(ElementValues(cs, g, dtype, ps)) else Raised
  {
    LoadStored(cs, dtype);
    if FourBit(dtype) && |cs| % 2 == 1 {
      PaddedValues(cs, g, dtype, ps);
    } else {
      BlockValuesRefine(cs, g, dtype, ps);
    }
  }

  // ----- Round trips

  /** `quantize_per_block` on one row, with computed parameters. */
  ghost function QuantizeBlocks(row: Row, g: nat, dtype: Dtype, sym: bool): (st: seq<int>)
    requires g > 0
    ensures Stored(st, dtype)
  {
    var ps := BlockParams(row, g, dtype, sym);
    ParamsUsable(row, g, dtype, sym);
    BlockCodesRefine(row, g, dtype, sym, ps);
    LoadStored(BlockCodes(row, g, dtype, sym, ps), dtype);
    Store(BlockCodes(row, g, dtype, sym, ps), dtype)
  }

  lemma ParamsUsable(row: Row, g: nat, dtype: Dtype, sym: bool)
    requires g > 0
    ensures Usable(BlockParams(row, g, dtype, sym))
  {
    var ps := BlockParams(row, g, dtype, sym);
    forall b | 0 <= b < |ps| ensures ps[b].scale != 0.0 {
      BlockParamsAt(row, g, dtype, sym, b);
    }
  }

  lemma ElementNear(row: Row, g: nat, dtype: Dtype, sym: bool, j: nat, p: QParams)
    requires g > 0 && (dtype == NF4 ==> sym) && j < |row| && Quo(j, g) < BlockCount(|row|, g)
    requires p == BlockParams(row, g, dtype, sym)[Quo(j, g)]
    ensures TripNear(row[j], dtype, sym, p)
  {
    BlockHas(row, g, j);
    BlockParamsAt(row, g, dtype, sym, Quo(j, g));
    ComputedNear(Block(row, g, Quo(j, g)), dtype, sym, Rem(j, g), row[j], p);
  }

  /** Each element with the parameters of its own block. */
  ghost predicate AllNear(row: Row, g: nat, dtype: Dtype, sym: bool, ps: seq<QParams>)
    requires g > 0
  {
    forall j :: 0 <= j < |row| ==> Quo(j, g) < |ps| && TripNear(row[j], dtype, sym, ps[Quo(j, g)])
  }

  /** `back` has the value of every element's own code under the parameters of its block. */
  ghost predicate Trips(back: Row, row: Row, g: nat, dtype: Dtype, sym: bool, ps: seq<QParams>)
    requires g > 0 && Usable(ps)
  {
    |back| == |row| && forall j :: 0 <= j < |row| ==>
      Quo(j, g) < |ps| && back[j] == Value(Code(row[j], dtype, sym, ps[Quo(j, g)]), dtype, ps[Quo(j, g)])
  }

  lemma OwnCode(row: Row, g: nat, dtype: Dtype, sym: bool, ps: seq<QParams>, j: nat)
    requires g > 0 && ps == BlockParams(row, g, dtype, sym) && Usable(ps) && j < |row|
    ensures Quo(j, g) < |ps| && Effective(ps[Quo(j, g)], sym) == ps[Quo(j, g)]
  {
    ElementBlock(j, |row|, g);
    BlockParamsAt(row, g, dtype, sym, Quo(j, g));
  }

  lemma ElementTrips(row: Row, g: nat, dtype: Dtype, sym: bool, ps: seq<QParams>)
    requires g > 0 && |ps| == BlockCount(|row|, g) && Usable(ps)
    requires forall j :: 0 <= j < |row| ==> Quo(j, g) < |ps| && Effective(ps[Quo(j, g)], sym) == ps[Quo(j, g)]
    ensures Trips(ElementValues(ElementCodes(row, g, dtype, sym, ps), g, dtype, ps), row, g, dtype, sym, ps)
  {
    var cs := ElementCodes(row, g, dtype, sym, ps);
    forall j | 0 <= j < |row| ensures cs[j] == Code(row[j], dtype, sym, ps[Quo(j, g)]) {
      assert cs[j] == ElementCode(row, g, dtype, sym, ps, j);
    }
  }

  lemma AllElementsNear(row: Row, g: nat, dtype: Dtype, sym: bool, ps: seq<QParams>)
    requires g > 0 && (dtype == NF4 ==> sym) && ps == BlockParams(row, g, dtype, sym)
    ensures AllNear(row, g, dtype, sym, ps)
  {
    forall j | 0 <= j < |row| ensures Quo(j, g) < |ps| && TripNear(row[j], dtype, sym, ps[Quo(j, g)]) {
      ElementBlock(j, |row|, g);
      ElementNear(row, g, dtype, sym, j, ps[Quo(j, g)]);
    }
  }

  /** Quantising and dequantising per block works exactly when the padding fits; then every element comes back as the
      value of its code under its own block's parameters, which `AllElementsNear` says is near the element. */
  lemma BlockRoundTrip(row: Row, g: nat, dtype: Dtype, sym: bool, ps: seq<QParams>)
    requires g > 0 && ps == BlockParams(row, g, dtype, sym)
    ensures Usable(ps)
    ensures
      var back := DequantizeBlocks(QuantizeBlocks(row, g, dtype, sym), dtype, g, ps, Some(|row|));
      (back.Ok? <==> PaddingFits(|row|, g, dtype)) && (back.Ok? ==> Trips(back.value, row, g, dtype, sym, ps))
  {
    QuantizedCodes(row, g, dtype, sym, ps);
    OwnTrips(row, g, dtype, sym, ps);
    DequantizeBlocksExactly(ElementCodes(row, g, dtype, sym, ps), g, dtype, ps);
  }

  lemma QuantizedCodes(row: Row, g: nat, dtype: Dtype, sym: bool, ps: seq<QParams>)
    requires g > 0 && ps == BlockParams(row, g, dtype, sym)
    ensures Usable(ps) && InRange(ElementCodes(row, g, dtype, sym, ps), dtype)
    ensures QuantizeBlocks(row, g, dtype, sym) == Store(ElementCodes(row, g, dtype, sym, ps), dtype)
  {
    ParamsUsable(row, g, dtype, sym);
    BlockCodesRefine(row, g, dtype, sym, ps);
  }

  lemma OwnTrips(row: Row, g: nat, dtype: Dtype, sym: bool, ps: seq<QParams>)
    requires g > 0 && ps == BlockParams(row, g, dtype, sym) && Usable(ps)
    ensures Trips(ElementValues(ElementCodes(row, g, dtype, sym, ps), g, dtype, ps), row, g, dtype, sym, ps)
  {
    forall j | 0 <= j < |row| ensures Quo(j, g) < |ps| && Effective(ps[Quo(j, g)], sym) == ps[Quo(j, g)] {
      OwnCode(row, g, dtype, sym, ps, j);
    }
    ElementTrips(row, g, dtype, sym, ps);
  }

  lemma SingleCount(k: nat, g: nat)
    requires 0 < k <= g
    ensures BlockCount(k, g) == 1 && Quo(k, g) == (if k == g then 1 else 0) && Rem(k, g) == if k == g then 0 else k
  {
    if k == g {
      QuoOf(1, 0, g);
      QuoOf(1, g - 1, g);
    } else {
      QuoOf(0, k, g);
      QuoOf(1, k - 1, g);
    }
  }

  lemma SingleBlock(row: Row, g: nat)
    requires 0 < |row| <= g
    ensures BlockCount(|row|, g) == 1 && Block(row, g, 0) == row
  {
    SingleCount(|row|, g);
  }

  /** A block size of at least the row's width is the per-channel form. */
  lemma OneBlock(row: Row, g: nat, dtype: Dtype, sym: bool, p: QParams)
    requires 0 < |row| <= g && p == ComputedQParams(row, dtype, sym)
    ensures BlockParams(row, g, dtype, sym) == [p] && BlockCount(|row|, g) == 1
    ensures BlockCodes(row, g, dtype, sym, [p]) == CodeRow(row, dtype, sym, p)
  {
    SingleBlock(row, g);
    BlockParamsAt(row, g, dtype, sym, 0);
    OneBlockCodes(row, g, dtype, sym, p);
  }

  lemma OneBlockCodes(row: Row, g: nat, dtype: Dtype, sym: bool, p: QParams)
    requires 0 < |row| <= g && BlockCount(|row|, g) == 1 && p.scale != 0.0 && Effective(p, sym) == p
    ensures BlockCodes(row, g, dtype, sym, [p]) == CodeRow(row, dtype, sym, p)
  {
    BlockCodesRefine(row, g, dtype, sym, [p]);
    forall j | 0 <= j < |row| ensures ElementCode(row, g, dtype, sym, [p], j) == Code(row[j], dtype, sym, p) {
      ElementBlock(j, |row|, g);
    }
    assert ElementCodes(row, g, dtype, sym, [p]) == CodeRow(row, dtype, sym, p);
  }

  /** Dequantising with one block is the per-channel form, exactly when the padding fits: not for an odd 4-bit row of
      several elements that fills its block. */
  lemma OneBlockBack(cs: seq<int>, g: nat, dtype: Dtype, p: QParams)
    requires 0 < |cs| <= g && InRange(cs, dtype)
    ensures Stored(Store(cs, dtype), dtype)
    ensures
      DequantizeBlocks(Store(cs, dtype), dtype, g, [p], Some(|cs|)) ==
      if PaddingFits(|cs|, g, dtype) then Ok(Dequantize(Store(cs, dtype), dtype, p, Some(|cs|))) else Raised
    ensures PaddingFits(|cs|, g, dtype) <==> !(FourBit(dtype) && |cs| % 2 == 1 && 1 < |cs| == g)
  {
    SingleCount(|cs|, g);
    DequantizeBlocksExactly(cs, g, dtype, [p]);
    OneBlockValues(cs, g, dtype, p);
    LoadStored(cs, dtype);
    assert Dequantize(Store(cs, dtype), dtype, p, Some(|cs|)) == ValueRow(cs, dtype, p);
  }

  lemma OneBlockValues(cs: seq<int>, g: nat, dtype: Dtype, p: QParams)
    requires 0 < |cs| <= g && BlockCount(|cs|, g) == 1
    ensures ElementValues(cs, g, dtype, [p]) == ValueRow(cs, dtype, p)
  {
    forall j | 0 <= j < |cs| ensures ElementValue(cs, g, dtype, [p], j) == Value(cs[j], dtype, p) {
      ElementBlock(j, |cs|, g);
    }
  }

  /** With given parameters, one block and per channel give the same codes for all rows exactly if INT8 quantisation is
      not told a zero point that symmetric quantisation lacks: per channel adds it, per block does not. */
  lemma OneBlockGiven(g: nat, dtype: Dtype, sym: bool, p: QParams)
    requires g > 0 && p.scale != 0.0
    ensures
      (forall row: Row | 0 < |row| <= g :: SameCodes(row, g, dtype, sym, p)) <==>
      (dtype == INT8 && sym && p.zp.Some? ==> p.zp.value == 0)
  {
    if dtype == INT8 && sym && p.zp.Some? && p.zp.value != 0 {
      var row: Row := [0.0];
      SingleCount(1, g);
      BlockCodesRefine(row, g, dtype, sym, [p]);
      ElementBlock(0, 1, g);
      assert Scaled(0.0, p.scale) == 0.0 && Round(0.0) == 0;
      assert ElementCodes(row, g, dtype, sym, [p])[0] == 0 && CodeRow(row, dtype, sym, p)[0] != 0;
      assert !SameCodes(row, g, dtype, sym, p);
    } else {
      forall row: Row | 0 < |row| <= g ensures SameCodes(row, g, dtype, sym, p) {
        SameOffsets(row, g, dtype, sym, p);
      }
    }
  }

  ghost predicate SameCodes(row: Row, g: nat, dtype: Dtype, sym: bool, p: QParams)
    requires 0 < |row| <= g && p.scale != 0.0
  {
    SingleCount(|row|, g);
    BlockCodes(row, g, dtype, sym, [p]) == CodeRow(row, dtype, sym, p)
  }

  lemma SameOffsets(row: Row, g: nat, dtype: Dtype, sym: bool, p: QParams)
    requires 0 < |row| <= g && p.scale != 0.0
    requires dtype == INT8 && sym && p.zp.Some? ==> p.zp.value == 0
    ensures SameCodes(row, g, dtype, sym, p)
  {
    SingleCount(|row|, g);
    BlockCodesRefine(row, g, dtype, sym, [p]);
    forall j | 0 <= j < |row| ensures ElementCode(row, g, dtype, sym, [p], j) == Code(row[j], dtype, sym, p) {
      ElementBlock(j, |row|, g);
    }
    assert ElementCodes(row, g, dtype, sym, [p]) == CodeRow(row, dtype, sym, p);
  }

  /** Per block, symmetric quantisation ignores given zero points but dequantisation subtracts them: the codes survive
      a second quantisation exactly when such zero points are the ones symmetric quantisation uses itself. */
  lemma BlockRecodeExactly(dtype: Dtype, sym: bool, p: QParams)
    requires p.scale > 0.0 && dtype != NF4 && (!sym ==> p.zp.Some?)
    ensures
      (forall c :: Lowest(dtype) <= c <= Highest(dtype) ==>
        Code(Value(c, dtype, p), dtype, sym, Effective(p, sym)) == c)
      <==> (sym && p.zp.Some? ==> p.zp.value == if dtype == INT4 then 8 else 0)
  {
    forall c | Lowest(dtype) <= c <= Highest(dtype)
      ensures Code(Value(c, dtype, p), dtype, sym, Effective(p, sym)) ==
        Clamp(c - RemovedOffset(dtype, p.zp) + AddedOffset(dtype, sym, Effective(p, sym).zp),
              Lowest(dtype), Highest(dtype))
    {
      RecodeInt(c, dtype, sym, p, Effective(p, sym));
    }
    var mid := if dtype == INT4 then 8 else 0;
    RecodeInt(mid, dtype, sym, p, Effective(p, sym));
    if RemovedOffset(dtype, p.zp) != AddedOffset(dtype, sym, Effective(p, sym).zp) {
      assert Code(Value(mid, dtype, p), dtype, sym, Effective(p, sym)) != mid;
    }
  }
}
