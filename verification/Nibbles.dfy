/**
 Two 4-bit codes per byte (quantization/_quantize_utils.py: the packing at the end of `quantize_per_channel` and
 `quantize_per_block`, the unpacking in `dequantize_per_channel` and `dequantize_per_block`).
 */
module Nibbles {
  /** `hi << 4 | lo & 0xF` on bytes. */
  function PackByte(lo: nat, hi: nat): nat
  {
    hi * 16 % 256 + lo % 16
  }

  /** The bit operations are this arithmetic, on all bytes. */
  lemma BitsAreArithmetic(lo: bv8, hi: bv8, b: bv8)
    ensures (hi << 4) | (lo & 0xF) == hi * 16 + lo % 16
    ensures b & 0xF == b % 16 && b >> 4 == b / 16
  {
  }

  ghost predicate Codes(row: seq<nat>)
  {
    forall j :: 0 <= j < |row| ==> row[j] < 16
  }

  ghost predicate Bytes(row: seq<nat>)
  {
    forall j :: 0 <= j < |row| ==> row[j] < 256
  }

  /** A zero is appended to an odd number of codes. */
  function Padded(row: seq<nat>): (p: seq<nat>)
    ensures |p| % 2 == 0 && |row| <= |p| <= |row| + 1 && p[..|row|] == row
  {
    if |row| % 2 == 0 then row else row + [0]
  }

  function PackRow(row: seq<nat>): (bytes: seq<nat>)
    ensures |bytes| == (|row| + 1) / 2
  {
    var p := Padded(row);
    seq(|p| / 2, j requires 0 <= j < |p| / 2 => PackByte(p[2 * j], p[2 * j + 1]))
  }

  function UnpackRow(bytes: seq<nat>): (row: seq<nat>)
    ensures |row| == 2 * |bytes|
  {
    seq(2 * |bytes|, j requires 0 <= j < 2 * |bytes| => if j % 2 == 0 then bytes[j / 2] % 16 else bytes[j / 2] / 16)
  }

  /** The buffer is written in two passes: the even positions, then the odd ones. */
  method Unpack(bytes: seq<nat>) returns (t: array<nat>)
    ensures fresh(t) && t[..] == UnpackRow(bytes)
  {
    t := new nat[2 * |bytes|];
    for j := 0 to |bytes|
      invariant forall k :: 0 <= k < j ==> t[2 * k] == bytes[k] % 16
    {
      t[2 * j] := bytes[j] % 16;
    }
    for j := 0 to |bytes|
      invariant forall k :: 0 <= k < |bytes| ==> t[2 * k] == bytes[k] % 16
      invariant forall k :: 0 <= k < j ==> t[2 * k + 1] == bytes[k] / 16
    {
      t[2 * j + 1] := bytes[j] / 16;
    }
    forall k | 0 <= k < 2 * |bytes| ensures t[k] == UnpackRow(bytes)[k] {
      assert k == 2 * (k / 2) || k == 2 * (k / 2) + 1;
    }
  }

  lemma ByteRoundTrip(lo: nat, hi: nat)
    requires lo < 16 && hi < 16
    ensures PackByte(lo, hi) < 256 && PackByte(lo, hi) % 16 == lo && PackByte(lo, hi) / 16 == hi
  {
  }

  /** Unpacking gives back the codes, and the zero that was appended. */
  lemma UnpackPacked(row: seq<nat>)
    requires Codes(row)
    ensures Bytes(PackRow(row)) && UnpackRow(PackRow(row)) == Padded(row)
  {
    var p, bytes := Padded(row), PackRow(row);
    forall j | 0 <= j < |bytes| ensures bytes[j] < 256 && bytes[j] % 16 == p[2 * j] && bytes[j] / 16 == p[2 * j + 1] {
      ByteRoundTrip(p[2 * j], p[2 * j + 1]);
    }
    forall k | 0 <= k < |p| ensures UnpackRow(bytes)[k] == p[k] {
      assert k == 2 * (k / 2) || k == 2 * (k / 2) + 1;
    }
  }

  lemma ByteParts(b: nat)
    requires b < 256
    ensures b % 16 < 16 && b / 16 < 16 && PackByte(b % 16, b / 16) == b
  {
  }

  /** Packing what was unpacked gives back the bytes. */
  lemma PackUnpacked(bytes: seq<nat>)
    requires Bytes(bytes)
    ensures Codes(UnpackRow(bytes)) && PackRow(UnpackRow(bytes)) == bytes
  {
    var row := UnpackRow(bytes);
    forall k | 0 <= k < |row| ensures row[k] < 16 {
      ByteParts(bytes[k / 2]);
    }
    forall j | 0 <= j < |bytes| ensures PackRow(row)[j] == bytes[j] {
      assert row[2 * j] == bytes[j] % 16 && row[2 * j + 1] == bytes[j] / 16;
      ByteParts(bytes[j]);
    }
  }
}
