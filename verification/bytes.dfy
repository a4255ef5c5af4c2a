/** Fixed-width integers as the engine reads them: little-endian 16- and
    32-bit words, the big-endian four-character codes of RIFF, and the
    reinterpretation of a 32-bit word as a C `int` (two's complement). */
module Bytes {

  newtype byte = x: int | 0 <= x < 256

  const TWO_15: nat := 0x8000
  const TWO_16: nat := 0x1_0000
  const TWO_31: nat := 0x8000_0000
  const TWO_32: nat := 0x1_0000_0000

  predicate IsI32(i: int) {
    -(TWO_31 as int) <= i < TWO_31 as int
  }

  function U16LE(s: seq<byte>): (r: nat)
    requires |s| == 2
    ensures r < TWO_16
  {
    s[0] as nat + 256 * (s[1] as nat)
  }

  /** A 16-bit little-endian word sign-extended, as `readSint16LE`. */
  function S16LE(s: seq<byte>): (r: int)
    requires |s| == 2
    ensures -(TWO_15 as int) <= r < TWO_15 as int
    ensures r >= 0 <==> s[1] < 0x80
  {
    var u := U16LE(s);
    if u >= TWO_15 then u - TWO_16 else u
  }

  function U32LE(s: seq<byte>): (r: nat)
    requires |s| == 4
    ensures r < TWO_32
  {
    U16LE(s[0..2]) + TWO_16 * U16LE(s[2..4])
  }

  /** The value `MKTAG(a, b, c, d)` compares against: first byte most significant. */
  function U32BE(s: seq<byte>): (r: nat)
    requires |s| == 4
    ensures r < TWO_32
  {
    (((s[0] as nat) * 256 + s[1] as nat) * 256 + s[2] as nat) * 256 + s[3] as nat
  }

  /** Storing a `uint32` into an `int` field. */
  function ToInt32(u: nat): (r: int)
    requires u < TWO_32
    ensures IsI32(r)
    ensures (r - u) % TWO_32 == 0
  {
    if u >= TWO_31 then u - TWO_32 else u
  }

  /** Storing an `int` into a `uint32` field (modular). */
  function ToUint32(i: int): (r: nat)
    ensures r < TWO_32
    ensures (i - r) % TWO_32 == 0
  {
    i % TWO_32
  }

  function Le16(v: nat): (s: seq<byte>)
    requires v < TWO_16
    ensures |s| == 2
  {
    [(v % 256) as byte, (v / 256) as byte]
  }

  function Le32(v: nat): (s: seq<byte>)
    requires v < TWO_32
    ensures |s| == 4
  {
    Le16(v % TWO_16) + Le16(v / TWO_16)
  }

  function Be32(v: nat): (s: seq<byte>)
    requires v < TWO_32
    ensures |s| == 4
  {
    [(v / 0x100_0000) as byte, (v / 0x1_0000 % 256) as byte, (v / 256 % 256) as byte, (v % 256) as byte]
  }

  lemma U16RoundTrip(v: nat)
    requires v < TWO_16
    ensures U16LE(Le16(v)) == v
  {
  }

  lemma S16RoundTrip(i: int)
    requires -(TWO_15 as int) <= i < TWO_15 as int
    ensures S16LE(Le16(ToUint32(i) % TWO_16)) == i
  {
    var u := ToUint32(i) % TWO_16;
    U16RoundTrip(u);
    if i < 0 {
      assert ToUint32(i) == i + TWO_32;
      assert u == i + TWO_16;
    }
  }

  lemma U32RoundTrip(v: nat)
    requires v < TWO_32
    ensures U32LE(Le32(v)) == v
  {
    var s := Le32(v);
    assert s[0..2] == Le16(v % TWO_16);
    assert s[2..4] == Le16(v / TWO_16);
    U16RoundTrip(v % TWO_16);
    U16RoundTrip(v / TWO_16);
  }

  lemma Be32RoundTrip(v: nat)
    requires v < TWO_32
    ensures U32BE(Be32(v)) == v
  {
  }

  lemma Int32RoundTrip(i: int)
    requires IsI32(i)
    ensures ToInt32(ToUint32(i)) == i
  {
  }

  lemma Uint32RoundTrip(u: nat)
    requires u < TWO_32
    ensures ToUint32(ToInt32(u)) == u
  {
  }
}
