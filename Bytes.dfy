/** Byte-level helpers of the Modbus TCP codec: bytes as integers in 0..255, big-endian
    16-bit fields, and bitwise AND on naturals (the `&` the status decoding uses). */
module Bytes {

  predicate IsByte(b: int) { 0 <= b < 0x100 }

  predicate IsBytes(s: seq<int>) { forall i :: 0 <= i < |s| ==> IsByte(s[i]) }

  predicate IsU16(v: int) { 0 <= v < 0x1_0000 }

  /** `struct.pack('>H', v)`: two bytes, high byte first. */
  function U16BE(v: int): (r: seq<int>)
    requires IsU16(v)
    ensures |r| == 2 && IsBytes(r)
    ensures r[0] * 0x100 + r[1] == v
  {
    [v / 0x100, v % 0x100]
  }

  /** Decoding two bytes and encoding the value again gives back the two bytes. */
  lemma U16RoundTrip(hi: int, lo: int)
    requires IsByte(hi) && IsByte(lo)
    ensures IsU16(hi * 0x100 + lo)
    ensures U16BE(hi * 0x100 + lo) == [hi, lo]
  {
  }

  function Pow2(k: nat): (r: nat)
    ensures r >= 1
  {
    if k == 0 then 1 else 2 * Pow2(k - 1)
  }

  /** Bit k of v: the lowest binary digit after k halvings. */
  predicate Bit(v: nat, k: nat) {
    if k == 0 then v % 2 == 1 else Bit(v / 2, k - 1)
  }

  /** Bitwise AND of two naturals, digit by digit from the least significant end. */
  function And(a: nat, b: nat): (r: nat)
    ensures r <= a
    decreases a
  {
    if a == 0 || b == 0 then 0
    else 2 * And(a / 2, b / 2) + (if a % 2 == 1 && b % 2 == 1 then 1 else 0)
  }

  /** Masking with a single power of two is non-zero exactly when that bit is set. */
  lemma {:induction false} AndPow2(v: nat, k: nat)
    ensures (And(v, Pow2(k)) != 0) == Bit(v, k)
  {
    if k == 0 {
      if v != 0 {
        assert And(v, 1) == 2 * And(v / 2, 0) + (if v % 2 == 1 then 1 else 0);
      }
    } else {
      var p := Pow2(k - 1);
      assert Pow2(k) == 2 * p;
      if v != 0 {
        assert (2 * p) / 2 == p;
        assert (2 * p) % 2 == 0;
        assert And(v, 2 * p) == 2 * And(v / 2, p);
      }
      AndPow2(v / 2, k - 1);
    }
  }
}
