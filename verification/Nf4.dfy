/** The NF4 tables and maps (quantization/_quantize_utils.py `map_float_tensor_to_nf4`, `map_nf4_tensor_to_float`). */
module Nf4 {
  import opened Rounding

  const THRESHOLDS: seq<real> := [
    -1.01, -0.8480964004993439, -0.6106329262256622, -0.4599952697753906,
    -0.33967943489551544, -0.23460740596055984, -0.13791173323988914, -0.045525018125772476,
    0.03979014977812767, 0.1202552504837513, 0.2035212516784668, 0.2920137718319893,
    0.3893125355243683, 0.5016634166240692, 0.6427869200706482, 0.8614784181118011
  ]

  const LEVELS: seq<real> := [
    -1.0, -0.6961928009986877, -0.5250730514526367, -0.39491748809814453,
    -0.28444138169288635, -0.18477343022823334, -0.09105003625154495, 0.0,
    0.07958029955625534, 0.16093020141124725, 0.24611230194568634, 0.33791524171829224,
    0.44070982933044434, 0.5626170039176941, 0.7229568362236023, 1.0
  ]

  /** The last of the first `n` thresholds below `x`, by overwriting. */
  function Scan(x: real, n: nat): (i: int)
    requires n <= 16
    ensures i < n
  {
    if n == 0 then -1 else if x > THRESHOLDS[n - 1] then n - 1 else Scan(x, n - 1)
  }

  /** The code of `x`; an element below every threshold keeps the buffer's old content, here 0. */
  function Nearest(x: real): (i: nat)
    ensures i < 16
  {
    if Scan(x, 16) < 0 then 0 else Scan(x, 16)
  }

  lemma Increasing(i: nat, j: nat)
    requires i < j < 16
    ensures THRESHOLDS[i] < THRESHOLDS[j] && LEVELS[i] < LEVELS[j]
  {
  }

  lemma {:induction false} ScanIsLargest(x: real, n: nat)
    requires n <= 16
    ensures
      var i := Scan(x, n);
      (i >= 0 ==> THRESHOLDS[i] < x) && forall j :: 0 <= j < n && j > i ==> x <= THRESHOLDS[j]
  {
    if n > 0 {
      ScanIsLargest(x, n - 1);
    }
  }

  lemma NearestIs(x: real, i: nat)
    requires i < 16 && THRESHOLDS[i] < x && (i < 15 ==> x <= THRESHOLDS[i + 1])
    ensures Nearest(x) == i
  {
    ScanIsLargest(x, 16);
    var k := Scan(x, 16);
    if k > i + 1 {
      Increasing(i + 1, k);
    }
  }

  /** Every level lies in the interval of its own code. */
  lemma LevelNearest(i: nat)
    requires i < 16
    ensures Nearest(LEVELS[i]) == i
  {
    assert THRESHOLDS[i] < LEVELS[i] && (i < 15 ==> LEVELS[i] <= THRESHOLDS[i + 1]);
    NearestIs(LEVELS[i], i);
  }

  /** For the values of a normalised row, the code is the largest index whose threshold lies below the value. */
  lemma NearestIsLargest(x: real)
    requires x > THRESHOLDS[0]
    ensures THRESHOLDS[Nearest(x)] < x && forall j :: Nearest(x) < j < 16 ==> x <= THRESHOLDS[j]
  {
    ScanIsLargest(x, 16);
  }

  lemma NearestMonotone(x: real, y: real)
    requires x <= y
    ensures Nearest(x) <= Nearest(y)
  {
    ScanIsLargest(x, 16);
    ScanIsLargest(y, 16);
  }

  /** The level of a code is near every value of its interval. */
  lemma LevelNear(x: real, i: nat)
    requires i < 16 && THRESHOLDS[i] < x && (i < 15 ==> x <= THRESHOLDS[i + 1]) && -1.0 <= x <= 1.0
    ensures -0.152 <= LEVELS[i] - x <= 0.152
  {
  }

  lemma NearestError(x: real)
    requires -1.0 <= x <= 1.0
    ensures -0.152 <= LEVELS[Nearest(x)] - x <= 0.152
  {
    NearestIsLargest(x);
    LevelNear(x, Nearest(x));
  }

  function Distance(x: real, y: real): real { if x < y then y - x else x - y }

  /** Every threshold but the first lies halfway between two levels, up to the precision of the table. */
  lemma Halfway(i: nat)
    requires 1 <= i < 16
    ensures -0.000000000000001 <= 2.0 * THRESHOLDS[i] - LEVELS[i - 1] - LEVELS[i] <= 0.000000000000001
  {
  }

  /** No level is nearer to a value than that of its code, up to the same precision. */
  lemma NearestLevel(x: real, j: nat)
    requires j < 16
    ensures Distance(LEVELS[Nearest(x)], x) <= Distance(LEVELS[j], x) + 0.000000000000001
  {
    ScanIsLargest(x, 16);
    var i := Nearest(x);
    if j < i {
      Halfway(i);
      Ascending(j, i - 1);
      Increasing(j, i);
    } else if j > i {
      Halfway(i + 1);
      Ascending(i + 1, j);
      Increasing(i, j);
    }
  }

  lemma Ascending(i: nat, j: nat)
    requires i <= j < 16
    ensures LEVELS[i] <= LEVELS[j]
  {
    if i < j {
      Increasing(i, j);
    }
  }

  /** `map_float_tensor_to_nf4`: every threshold overwrites the elements above it. The buffer starts uninitialised,
      so an element below all thresholds has no defined code. */
  method MapToNf4(t: seq<real>) returns (out: array<nat>)
    ensures fresh(out) && out.Length == |t|
    ensures forall j :: 0 <= j < |t| && t[j] > THRESHOLDS[0] ==> out[j] == Nearest(t[j])
  {
    out := new nat[|t|];
    for i := 0 to 16
      invariant forall j :: 0 <= j < |t| && Scan(t[j], i) >= 0 ==> out[j] == Scan(t[j], i)
    {
      for j := 0 to |t|
        invariant forall k :: 0 <= k < j && Scan(t[k], i + 1) >= 0 ==> out[k] == Scan(t[k], i + 1)
        invariant forall k :: j <= k < |t| && Scan(t[k], i) >= 0 ==> out[k] == Scan(t[k], i)
      {
        if t[j] > THRESHOLDS[i] {
          out[j] := i;
        }
      }
    }
    forall j | 0 <= j < |t| && t[j] > THRESHOLDS[0] ensures out[j] == Nearest(t[j]) {
      ScanIsLargest(t[j], 16);
    }
  }

  /** `map_nf4_tensor_to_float`: a code outside 0..15 would keep uninitialised content; 4-bit codes are inside. */
  method MapFromNf4(codes: seq<nat>) returns (out: array<real>)
    requires forall j :: 0 <= j < |codes| ==> codes[j] < 16
    ensures fresh(out) && out.Length == |codes| && forall j :: 0 <= j < |codes| ==> out[j] == LEVELS[codes[j]]
  {
    out := new real[|codes|];
    for i := 0 to 16
      invariant forall j :: 0 <= j < |codes| && codes[j] < i ==> out[j] == LEVELS[codes[j]]
    {
      for j := 0 to |codes|
        invariant forall k :: 0 <= k < j && codes[k] < i + 1 ==> out[k] == LEVELS[codes[k]]
        invariant forall k :: j <= k < |codes| && codes[k] < i ==> out[k] == LEVELS[codes[k]]
      {
        if codes[j] == i {
          out[j] := LEVELS[i];
        }
      }
    }
  }
}
