/**
 Blocked weights for large batches (transformers/optimize.py `block_weight`, `_unpack_blocked_weight` and
 `_pack_weight_for_large_batch`): reshape and permute as maps between flat and multi-dimensional indices.
 */
module BlockedWeight {
  import opened Basics
  import opened Multiples

  /** A contiguous tensor: its shape and its elements in row-major order. */
  datatype Tensor<T> = Tensor(shape: seq<nat>, data: seq<T>) {
    ghost predicate Valid() { |data| == Size(shape) }
  }

  // ----- Row-major indices

  function Size(shape: seq<nat>): nat
  {
    if shape == [] then 1 else Times(Size(shape[..|shape| - 1]), shape[|shape| - 1])
  }

  ghost predicate Within(idx: seq<nat>, shape: seq<nat>)
  {
    |idx| == |shape| && forall d :: 0 <= d < |shape| ==> idx[d] < shape[d]
  }

  function Ravel(idx: seq<nat>, shape: seq<nat>): nat
    requires |idx| == |shape|
  {
    if shape == [] then 0
    else Times(Ravel(idx[..|idx| - 1], shape[..|shape| - 1]), shape[|shape| - 1]) + idx[|idx| - 1]
  }

  function Unravel(k: nat, shape: seq<nat>): (idx: seq<nat>)
    ensures |idx| == |shape|
    decreases |shape|
  {
    if shape == [] then []
    else
      var last := shape[|shape| - 1];
      if last == 0 then seq(|shape|, _ => 0)
      else Unravel(Quo(k, last), shape[..|shape| - 1]) + [Rem(k, last)]
  }

  lemma {:induction false} RavelBelow(idx: seq<nat>, shape: seq<nat>)
    requires Within(idx, shape)
    ensures Ravel(idx, shape) < Size(shape)
    decreases |shape|
  {
    if shape != [] {
      RavelBelow(idx[..|idx| - 1], shape[..|shape| - 1]);
      TimesEnd(Ravel(idx[..|idx| - 1], shape[..|shape| - 1]), Size(shape[..|shape| - 1]), shape[|shape| - 1]);
    }
  }

  lemma {:induction false} UnravelRavel(idx: seq<nat>, shape: seq<nat>)
    requires Within(idx, shape)
    ensures Unravel(Ravel(idx, shape), shape) == idx
    decreases |shape|
  {
    if shape != [] {
      var n := |shape| - 1;
      var front, last := idx[..n], idx[n];
      assert idx == front + [last];
      UnravelRavel(front, shape[..n]);
      RavelStep(idx, shape);
      LastDigit(Ravel(front, shape[..n]), last, shape);
    }
  }

  lemma RavelStep(idx: seq<nat>, shape: seq<nat>)
    requires |idx| == |shape| > 0
    ensures
      var n := |shape| - 1;
      Ravel(idx, shape) == Times(Ravel(idx[..n], shape[..n]), shape[n]) + idx[n]
  {
  }

  lemma LastDigit(k: nat, i: nat, shape: seq<nat>)
    requires shape != [] && i < shape[|shape| - 1]
    ensures Unravel(Times(k, shape[|shape| - 1]) + i, shape) == Unravel(k, shape[..|shape| - 1]) + [i]
  {
    QuoOf(k, i, shape[|shape| - 1]);
  }

  lemma {:induction false} RavelUnravel(k: nat, shape: seq<nat>)
    requires k < Size(shape)
    ensures Within(Unravel(k, shape), shape) && Ravel(Unravel(k, shape), shape) == k
    decreases |shape|
  {
    if shape != [] {
      var front, last := shape[..|shape| - 1], shape[|shape| - 1];
      QuoBelow(k, Size(front), last);
      RavelUnravel(Quo(k, last), front);
      QuoRem(k, last);
      var idx := Unravel(k, shape);
      assert idx[..|idx| - 1] == Unravel(Quo(k, last), front);
    }
  }

  // ----- Permuting dimensions

  /** `p` and `q` undo each other on 0 .. n. */
  ghost predicate Inverse(p: seq<nat>, q: seq<nat>)
  {
    && |p| == |q|
    && (forall i :: 0 <= i < |p| ==> p[i] < |p| && q[i] < |p|)
    && (forall i, j :: 0 <= i < |p| && 0 <= j < |p| ==> (p[i] == j <==> q[j] == i))
  }

  function Arrange<T>(s: seq<T>, p: seq<nat>): (r: seq<T>)
    requires |s| == |p| && forall i :: 0 <= i < |p| ==> p[i] < |s|
    ensures |r| == |s| && forall i :: 0 <= i < |p| ==> r[i] == s[p[i]]
  {
    seq(|s|, i requires 0 <= i < |s| => s[p[i]])
  }

  lemma ArrangeBack<T>(s: seq<T>, p: seq<nat>, q: seq<nat>)
    requires Inverse(p, q) && |s| == |p|
    ensures Arrange(Arrange(s, p), q) == s
  {
    forall i | 0 <= i < |s| ensures Arrange(Arrange(s, p), q)[i] == s[i] {
      assert p[q[i]] == i;
    }
  }

  lemma ArrangeWithin(idx: seq<nat>, shape: seq<nat>, p: seq<nat>, q: seq<nat>)
    requires Inverse(p, q) && |shape| == |p| && Within(idx, Arrange(shape, p))
    ensures Within(Arrange(idx, q), shape)
  {
    forall d | 0 <= d < |shape| ensures Arrange(idx, q)[d] < shape[d] {
      assert idx[q[d]] < Arrange(shape, p)[q[d]];
      assert p[q[d]] == d;
    }
  }

  /** `permute(p)` followed by `contiguous()`: dimension `i` of the result is dimension p[i] of the input. */
  ghost function Permute<T>(t: Tensor<T>, p: seq<nat>, q: seq<nat>): (r: Tensor<T>)
    requires t.Valid() && Inverse(p, q) && |p| == |t.shape|
    ensures r.shape == Arrange(t.shape, p) && r.Valid()
  {
    var shape := Arrange(t.shape, p);
    Tensor(shape,
      seq(Size(shape), k requires 0 <= k < Size(shape) =>
        (SourcedAt(k, t.shape, shape, p, q); t.data[Source(k, t.shape, p, q)])))
  }

  /** Where element `k` of the permuted tensor comes from. */
  ghost function Source(k: nat, shape: seq<nat>, p: seq<nat>, q: seq<nat>): nat
    requires Inverse(p, q) && |p| == |shape|
  {
    Moved(Unravel(k, Arrange(shape, p)), shape, p, q)
  }

  ghost function Moved(idx: seq<nat>, shape: seq<nat>, p: seq<nat>, q: seq<nat>): nat
    requires Inverse(p, q) && |p| == |shape| == |idx|
  {
    Ravel(Arrange(idx, q), shape)
  }

  lemma MovedBelow(idx: seq<nat>, shape: seq<nat>, p: seq<nat>, q: seq<nat>)
    requires Inverse(p, q) && |p| == |shape| && Within(idx, Arrange(shape, p))
    ensures Moved(idx, shape, p, q) < Size(shape)
  {
    ArrangeWithin(idx, shape, p, q);
    RavelBelow(Arrange(idx, q), shape);
  }

  lemma SourcedAt(k: nat, shape: seq<nat>, shape': seq<nat>, p: seq<nat>, q: seq<nat>)
    requires Inverse(p, q) && |p| == |shape| && shape' == Arrange(shape, p) && k < Size(shape')
    ensures Moved(Unravel(k, shape'), shape, p, q) < Size(shape)
  {
    UnravelWithin(k, shape');
    MovedBelow(Unravel(k, shape'), shape, p, q);
  }

  lemma UnravelWithin(k: nat, shape: seq<nat>)
    requires k < Size(shape)
    ensures Within(Unravel(k, shape), shape)
  {
    RavelUnravel(k, shape);
  }

  /** Moving an index there and back. */
  lemma MovedBack(idx: seq<nat>, shape: seq<nat>, p: seq<nat>, q: seq<nat>)
    requires Inverse(p, q) && |p| == |shape| && Within(idx, shape)
    ensures Moved(idx, Arrange(shape, p), q, p) < Size(Arrange(shape, p))
    ensures Moved(Unravel(Moved(idx, Arrange(shape, p), q, p), Arrange(shape, p)), shape, p, q) == Ravel(idx, shape)
  {
    ArrangeBack(shape, p, q);
    ArrangeWithin(idx, Arrange(shape, p), q, p);
    UnravelRavel(Arrange(idx, p), Arrange(shape, p));
    RavelBelow(Arrange(idx, p), Arrange(shape, p));
    ArrangeBack(idx, p, q);
  }

  /** The two source maps undo each other. */
  lemma SourceBack(k: nat, shape: seq<nat>, p: seq<nat>, q: seq<nat>)
    requires Inverse(p, q) && |p| == |shape| && k < Size(shape)
    ensures Source(k, Arrange(shape, p), q, p) < Size(Arrange(shape, p))
    ensures Source(Source(k, Arrange(shape, p), q, p), shape, p, q) == k
  {
    ArrangeBack(shape, p, q);
    RavelUnravel(k, shape);
    MovedBack(Unravel(k, shape), shape, p, q);
  }

  /** Permuting and permuting back is the identity, for every shape and permutation. */
  lemma PermuteBack<T>(t: Tensor<T>, p: seq<nat>, q: seq<nat>)
    requires t.Valid() && Inverse(p, q) && |p| == |t.shape|
    ensures Permute(Permute(t, p, q), q, p) == t
  {
    var r := Permute(t, p, q);
    var b := Permute(r, q, p);
    ArrangeBack(t.shape, p, q);
    forall k | 0 <= k < |t.data| ensures b.data[k] == t.data[k] {
      SourceBack(k, t.shape, p, q);
      assert b.data[k] == r.data[Source(k, r.shape, q, p)];
    }
  }

  // ----- Blocking

  const FORTH: seq<nat> := [0, 2, 3, 1, 4]
  const BACK: seq<nat> := [0, 3, 1, 2, 4]

  lemma Turns()
    ensures Inverse(FORTH, BACK) && Inverse(BACK, FORTH)
  {
  }

  lemma ArrangeFive<T>(a: T, b: T, c: T, d: T, e: T)
    ensures Arrange([a, c, d, b, e], BACK) == [a, b, c, d, e] && Arrange([a, b, c, d, e], FORTH) == [a, c, d, b, e]
  {
  }

  function Reshape<T>(t: Tensor<T>, shape: seq<nat>): (r: Try<Tensor<T>>)
    requires t.Valid()
    ensures r.Ok? ==> r.value.Valid() && r.value.shape == shape && r.value.data == t.data
  {
    if Size(shape) == |t.data| then Ok(Tensor(shape, t.data)) else Raised
  }

  function BlockShape(n: nat, k: nat, nb: nat, kb: nat): seq<nat>
    requires nb > 0 && kb > 0
  {
    [Quo(n, nb), nb, Quo(k, kb), kb / 2, 2]
  }

  /** `block_weight` */
  ghost function Block<T>(w: Tensor<T>, nb: nat, kb: nat): (r: Try<Tensor<T>>)
    requires w.Valid() && |w.shape| == 2 && nb > 0 && kb > 0
  {
    Turns();
    var r :- Reshape(w, BlockShape(w.shape[0], w.shape[1], nb, kb));
    Ok(Permute(r, FORTH, BACK))
  }

  /** `reshape((n, -1))`, which divides the elements among the rows. */
  function Rows<T>(t: Tensor<T>, n: nat): (r: Try<Tensor<T>>)
    requires t.Valid()
  {
    if n > 0 && Rem(|t.data|, n) == 0 then Reshape(t, [n, Quo(|t.data|, n)]) else Raised
  }

  /** `_unpack_blocked_weight` */
  ghost function Unpack<T>(t: Tensor<T>): (r: Try<Tensor<T>>)
    requires t.Valid() && |t.shape| == 5
  {
    Turns();
    Rows(Permute(t, BACK, FORTH), Times(t.shape[0], t.shape[3]))
  }

  // ----- Sizes

  lemma SizeSnoc(shape: seq<nat>, n: nat)
    ensures Size(shape + [n]) == Times(Size(shape), n)
  {
    assert (shape + [n])[..|shape|] == shape;
  }

  lemma SizeTwo(n: nat, k: nat)
    ensures Size([n, k]) == Times(n, k)
  {
    SizeSnoc([], n);
    SizeSnoc([n], k);
    assert [] + [n] == [n] && [n] + [k] == [n, k];
  }

  /** The size of a five-dimensional shape whose first two and last three dimensions make rows and columns. */
  lemma SizeFive(a: nat, b: nat, c: nat, d: nat)
    ensures Size([a, b, c, d, 2]) == Times(Times(a, b), Times(c, d + d))
  {
    SizeTwo(a, b);
    SizeSnoc([a, b], c);
    SizeSnoc([a, b, c], d);
    SizeSnoc([a, b, c, d], 2);
    assert [a, b] + [c] == [a, b, c] && [a, b, c] + [d] == [a, b, c, d] && [a, b, c, d] + [2] == [a, b, c, d, 2];
    var n := Times(a, b);
    TimesAssociates(n, c, d);
    TimesAssociates(n, Times(c, d), 2);
    TimesTwo(Times(c, d));
    TimesDouble(c, d);
  }

  /** Both factors at most the others, and the products equal: the factors are equal. */
  lemma EqualFactors(n': nat, k': nat, n: nat, k: nat)
    requires n' <= n && k' <= k && n > 0 && k > 0
    ensures Times(n', k') == Times(n, k) <==> n' == n && k' == k
  {
    TimesMono(n', n, k');
    TimesCommutes(n, k');
    TimesCommutes(n, k);
    if k' < k {
      TimesEnd(k', k, n);
    } else if n' < n {
      TimesEnd(n', n, k);
    }
  }

  /** A matrix can be blocked exactly if both blocks divide its sides and the second is even. */
  lemma BlocksExactly<T>(w: Tensor<T>, n: nat, k: nat, nb: nat, kb: nat)
    requires w.Valid() && w.shape == [n, k] && n > 0 && k > 0 && nb > 0 && kb > 0
    ensures Block(w, nb, kb).Ok? <==> Rem(n, nb) == 0 && Rem(k, kb) == 0 && kb % 2 == 0
    ensures Block(w, nb, kb).Ok? ==> Times(Quo(n, nb), nb) == n && Times(Quo(k, kb), kb) == k
  {
    var a, c, d := Quo(n, nb), Quo(k, kb), kb / 2;
    SizeFive(a, nb, c, d);
    SizeTwo(n, k);
    QuoRem(n, nb);
    QuoRem(k, kb);
    EvenPart(c, kb, d);
    EqualFactors(Times(a, nb), Times(c, d + d), n, k);
    if c == 0 {
      assert Times(0, d + d) == 0;
    }
  }

  lemma EvenPart(c: nat, kb: nat, d: nat)
    requires d == kb / 2
    ensures Times(c, d + d) <= Times(c, kb) && (c > 0 && kb % 2 == 1 ==> Times(c, d + d) < Times(c, kb))
  {
    TimesCommutes(c, d + d);
    TimesCommutes(c, kb);
    TimesMono(d + d, kb, c);
    if kb % 2 == 1 {
      TimesEnd(d + d, kb, c);
    }
  }

  // ----- Both round trips

  lemma RowsOf<T>(t: Tensor<T>, n: nat, k: nat)
    requires t.Valid() && n > 0 && |t.data| == Times(n, k)
    ensures Rows(t, n) == Ok(Tensor([n, k], t.data))
  {
    TimesCommutes(n, k);
    QuoOf(k, 0, n);
    SizeTwo(n, k);
  }

  /** Unpacking a blocked matrix gives the matrix. */
  lemma UnpackBlock<T>(w: Tensor<T>, n: nat, k: nat, nb: nat, kb: nat)
    requires w.Valid() && w.shape == [n, k] && n > 0 && k > 0 && nb > 0 && kb > 0 && Block(w, nb, kb).Ok?
    ensures Block(w, nb, kb).value.Valid() && |Block(w, nb, kb).value.shape| == 5
    ensures Unpack(Block(w, nb, kb).value) == Ok(w)
  {
    Turns();
    BlocksExactly(w, n, k, nb, kb);
    var r := Reshape(w, BlockShape(n, k, nb, kb)).value;
    PermuteBack(r, FORTH, BACK);
    var t := Permute(r, FORTH, BACK);
    assert t.shape[0] == r.shape[0] && t.shape[3] == r.shape[1];
    SizeTwo(n, k);
    RowsOf(r, n, k);
  }

  lemma UnpackIs<T>(t: Tensor<T>, a: nat, c: nat, d: nat, b: nat)
    requires t.Valid() && t.shape == [a, c, d, b, 2] && a > 0 && b > 0 && Inverse(BACK, FORTH)
    ensures Unpack(t) == Ok(Tensor([Times(a, b), Times(c, d + d)], Permute(t, BACK, FORTH).data))
    ensures Permute(t, BACK, FORTH).shape == [a, b, c, d, 2] && Unpack(t).value.Valid()
  {
    ArrangeFive(a, b, c, d, 2);
    SizeFive(a, b, c, d);
    TimesEnd(0, a, b);
    SizeTwo(Times(a, b), Times(c, d + d));
    RowsOf(Permute(t, BACK, FORTH), Times(a, b), Times(c, d + d));
  }

  /** Blocking an unpacked tensor by its own block sizes gives the tensor. */
  lemma BlockUnpack<T>(t: Tensor<T>, a: nat, c: nat, d: nat, b: nat)
    requires t.Valid() && t.shape == [a, c, d, b, 2] && a > 0 && b > 0 && c > 0 && d > 0
    ensures
      var w := Unpack(t);
      w.Ok? && w.value.Valid() && w.value.shape == [Times(a, b), Times(c, d + d)] && Block(w.value, b, d + d) == Ok(t)
  {
    Turns();
    UnpackIs(t, a, c, d, b);
    BlockOf(Unpack(t).value, Permute(t, BACK, FORTH), a, b, c, d);
    PermuteBack(t, BACK, FORTH);
  }

  lemma BlockOf<T>(w: Tensor<T>, r: Tensor<T>, a: nat, b: nat, c: nat, d: nat)
    requires w.Valid() && r.Valid() && w.data == r.data && b > 0 && d > 0 && Inverse(FORTH, BACK)
    requires w.shape == [Times(a, b), Times(c, d + d)] && r.shape == [a, b, c, d, 2]
    ensures Block(w, b, d + d) == Ok(Permute(r, FORTH, BACK))
  {
    QuoOf(a, 0, b);
    QuoOf(c, 0, d + d);
    assert BlockShape(Times(a, b), Times(c, d + d), b, d + d) == [a, b, c, d, 2];
  }

  /** `_pack_weight_for_large_batch` */
  ghost function Pack<T>(w: Tensor<T>): (r: Option<Try<Tensor<T>>>)
    requires w.Valid() && |w.shape| == 2
  {
    if w.shape[0] % 100 == 0 && w.shape[1] % 64 == 0 then Some(Block(w, 100, 64))
    else if w.shape[0] % 64 == 0 && w.shape[1] % 64 == 0 then Some(Block(w, 64, 64))
    else None
  }

  /** Attaching an extra weight: whatever the old blocks were, the new blocked weight never fails to be made and
      unpacks to the same matrix as the old one. */
  lemma RepackKeepsMatrix<T>(t: Tensor<T>, a: nat, c: nat, d: nat, b: nat)
    requires t.Valid() && t.shape == [a, c, d, b, 2] && a > 0 && b > 0 && c > 0 && d > 0
    ensures
      var w := Unpack(t);
      w.Ok? && w.value.Valid() && |w.value.shape| == 2
      && match Pack(w.value)
         case None => true
         case Some(r) => r.Ok? && r.value.Valid() && |r.value.shape| == 5 && Unpack(r.value) == w
  {
    BlockUnpack(t, a, c, d, b);
    var w, n, k := Unpack(t).value, Times(a, b), Times(c, d + d);
    TimesEnd(0, a, b);
    TimesEnd(0, c, d + d);
    QuoIsDivision(n, 100);
    QuoIsDivision(n, 64);
    QuoIsDivision(k, 64);
    if n % 100 == 0 && k % 64 == 0 {
      BlocksExactly(w, n, k, 100, 64);
      UnpackBlock(w, n, k, 100, 64);
    } else if n % 64 == 0 && k % 64 == 0 {
      BlocksExactly(w, n, k, 64, 64);
      UnpackBlock(w, n, k, 64, 64);
    }
  }

  // ----- Which element goes where

  lemma RavelTwo(i: nat, j: nat, n: nat, k: nat)
    ensures Ravel([i, j], [n, k]) == Times(i, k) + j
  {
    assert [i, j][..1] == [i] && [n, k][..1] == [n];
    assert [i][..0] == [] && [n][..0] == [];
    assert Ravel([i], [n]) == i;
  }

  lemma RavelSnoc(idx: seq<nat>, shape: seq<nat>, i: nat, n: nat)
    requires |idx| == |shape|
    ensures Ravel(idx + [i], shape + [n]) == Times(Ravel(idx, shape), n) + i
  {
    assert (idx + [i])[..|idx|] == idx && (shape + [n])[..|shape|] == shape;
  }

  lemma RavelFive(a: nat, b: nat, c: nat, d: nat, e: nat, sa: nat, sb: nat, sc: nat, sd: nat)
    ensures Ravel([a, b, c, d, e], [sa, sb, sc, sd, 2]) ==
      Times(Times(a, sb) + b, Times(sc, sd + sd)) + Times(c, sd + sd) + (d + d) + e
  {
    RavelFour(a, b, c, d, sa, sb, sc, sd);
    RavelSnoc([a, b, c, d], [sa, sb, sc, sd], e, 2);
    assert [a, b, c, d] + [e] == [a, b, c, d, e] && [sa, sb, sc, sd] + [2] == [sa, sb, sc, sd, 2];
    Columns(Times(a, sb) + b, c, d, sc, sd);
  }

  lemma RavelFour(a: nat, b: nat, c: nat, d: nat, sa: nat, sb: nat, sc: nat, sd: nat)
    ensures Ravel([a, b, c, d], [sa, sb, sc, sd]) == Times(Times(Times(a, sb) + b, sc) + c, sd) + d
  {
    RavelTwo(a, b, sa, sb);
    RavelSnoc([a, b], [sa, sb], c, sc);
    RavelSnoc([a, b, c], [sa, sb, sc], d, sd);
    assert [a, b] + [c] == [a, b, c] && [sa, sb] + [sc] == [sa, sb, sc];
    assert [a, b, c] + [d] == [a, b, c, d] && [sa, sb, sc] + [sd] == [sa, sb, sc, sd];
  }

  lemma Columns(i: nat, c: nat, d: nat, sc: nat, sd: nat)
    ensures Times(Times(Times(i, sc) + c, sd) + d, 2) == Times(i, Times(sc, sd + sd)) + Times(c, sd + sd) + (d + d)
  {
    TimesAdd(Times(i, sc), c, sd);
    TimesAssociates(i, sc, sd);
    TimesTwo(Times(Times(i, sc) + c, sd) + d);
    TimesDouble(i, Times(sc, sd));
    TimesDouble(sc, sd);
    TimesDouble(c, sd);
  }

  /** Element (a, c, d, b, e) of the blocked weight is row a * nb + b, column c * kb + 2 * d + e of the matrix. */
  lemma BlockElement<T>(w: Tensor<T>, n: nat, k: nat, nb: nat, kb: nat, a: nat, c: nat, d: nat, b: nat, e: nat)
    requires w.Valid() && w.shape == [n, k] && n > 0 && k > 0 && nb > 0 && kb > 0 && Block(w, nb, kb).Ok?
    requires Within([a, c, d, b, e], Block(w, nb, kb).value.shape)
    ensures
      var t := Block(w, nb, kb).value;
      var i, j := Times(a, nb) + b, Times(c, kb) + 2 * d + e;
      Ravel([a, c, d, b, e], t.shape) < |t.data| && Ravel([i, j], w.shape) < |w.data|
      && t.data[Ravel([a, c, d, b, e], t.shape)] == w.data[Ravel([i, j], w.shape)]
  {
    Turns();
    BlocksExactly(w, n, k, nb, kb);
    var r := Reshape(w, BlockShape(n, k, nb, kb)).value;
    ArrangeFive(r.shape[0], r.shape[1], r.shape[2], r.shape[3], r.shape[4]);
    assert r.shape == [r.shape[0], r.shape[1], r.shape[2], r.shape[3], r.shape[4]];
    PermutedElement(r, a, c, d, b, e);
    BlockPosition(n, k, nb, kb, a, c, d, b, e);
  }

  /** Element (a, c, d, b, e) of the permuted tensor is element (a, b, c, d, e) of the input. */
  lemma PermutedElement<T>(r: Tensor<T>, a: nat, c: nat, d: nat, b: nat, e: nat)
    requires r.Valid() && |r.shape| == 5 && Inverse(FORTH, BACK) && Within([a, c, d, b, e], Arrange(r.shape, FORTH))
    ensures
      var t := Permute(r, FORTH, BACK);
      Ravel([a, c, d, b, e], t.shape) < |t.data| && Ravel([a, b, c, d, e], r.shape) < |r.data|
      && t.data[Ravel([a, c, d, b, e], t.shape)] == r.data[Ravel([a, b, c, d, e], r.shape)]
  {
    var idx, shape := [a, c, d, b, e], Arrange(r.shape, FORTH);
    RavelBelow(idx, shape);
    SourcedAt(Ravel(idx, shape), r.shape, shape, FORTH, BACK);
    SourceOfFive(a, b, c, d, e, r.shape);
  }

  lemma SourceOfFive(a: nat, b: nat, c: nat, d: nat, e: nat, shape: seq<nat>)
    requires |shape| == 5 && Inverse(FORTH, BACK) && Within([a, c, d, b, e], Arrange(shape, FORTH))
    ensures Source(Ravel([a, c, d, b, e], Arrange(shape, FORTH)), shape, FORTH, BACK) == Ravel([a, b, c, d, e], shape)
  {
    UnravelRavel([a, c, d, b, e], Arrange(shape, FORTH));
    ArrangeFive(a, b, c, d, e);
  }

  lemma BlockPosition(n: nat, k: nat, nb: nat, kb: nat, a: nat, c: nat, d: nat, b: nat, e: nat)
    requires nb > 0 && kb > 0 && kb % 2 == 0 && Times(Quo(k, kb), kb) == k
    ensures Ravel([a, b, c, d, e], BlockShape(n, k, nb, kb)) ==
      Ravel([Times(a, nb) + b, Times(c, kb) + 2 * d + e], [n, k])
  {
    RavelFive(a, b, c, d, e, Quo(n, nb), nb, Quo(k, kb), kb / 2);
    RavelTwo(Times(a, nb) + b, Times(c, kb) + 2 * d + e, n, k);
  }
}
