/** Byte strings, and the fixed-width integers the streams and the server's fields are made of. */
module Bytes {

  type Byte = b: int | 0 <= b < 256

  type Bytes = seq<Byte>

  // Conversions between the integer widths of the source.
  function U8(v: int): (r: Byte) { v % 0x100 }
  function U16(v: int): (r: nat) ensures r < 0x1_0000 { v % 0x1_0000 }
  function U32(v: int): (r: nat) ensures r < 0x1_0000_0000 { v % 0x1_0000_0000 }
  function I32(v: int): (r: int)
    ensures InI32(r) && (InI32(v) ==> r == v)
  {
    var u := U32(v);
    if u < 0x8000_0000 then u else u - 0x1_0000_0000
  }

  predicate InI32(v: int) { -0x8000_0000 <= v < 0x8000_0000 }

  // The memory of an unsigned number of `width` bytes, lowest byte first.
  function Le(width: nat, v: nat): (b: Bytes)
    ensures |b| == width
  {
    if width == 0 then [] else [v % 256] + Le(width - 1, v / 256)
  }

  function LeValue(b: Bytes): (v: nat) {
    if b == [] then 0 else b[0] + 256 * LeValue(b[1..])
  }

  function Pow256(n: nat): (r: nat)
    ensures r > 0
  {
    if n == 0 then 1 else 256 * Pow256(n - 1)
  }

  // What is read back is the number, cut to the width.
  lemma {:induction false} LeRoundTrip(width: nat, v: nat)
    requires v < Pow256(width)
    ensures LeValue(Le(width, v)) == v
  {
    if width > 0 {
      LeRoundTrip(width - 1, v / 256);
    }
  }

  lemma {:induction false} LeBound(b: Bytes)
    ensures LeValue(b) < Pow256(|b|)
  {
    if b != [] {
      LeBound(b[1..]);
    }
  }

  // `s` carries `w` at position `p`.
  predicate CarriesAt(s: Bytes, p: nat, w: Bytes) {
    p + |w| <= |s| && forall i :: 0 <= i < |w| ==> w[i] == s[p + i]
  }

  lemma CarriesAppend(s: Bytes, p: nat, a: Bytes, b: Bytes)
    ensures CarriesAt(s, p, a + b) <==> CarriesAt(s, p, a) && CarriesAt(s, p + |a|, b)
  {
    assert forall i :: 0 <= i < |a| ==> a[i] == (a + b)[i];
    assert forall i :: 0 <= i < |b| ==> b[i] == (a + b)[|a| + i];
  }

  lemma CarriedSlice(s: Bytes, p: nat, w: Bytes)
    requires CarriesAt(s, p, w)
    ensures p + |w| <= |s| && s[p..p + |w|] == w
  {
  }
}
