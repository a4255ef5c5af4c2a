/** Tagged datums: every value in the container format is a 16-bit
    little-endian type tag followed by a payload whose layout the tag selects. */
module Datums {
  import opened Bytes
  import opened Results
  import opened Chunks

  // The `DatumType` codes.
  const UINT8: nat := 0x0002
  const UINT16_1: nat := 0x0003
  const UINT16_2: nat := 0x0013
  const INT16_1: nat := 0x0006
  const INT16_2: nat := 0x0010
  const UINT32_1: nat := 0x0004
  const UINT32_2: nat := 0x0007
  const FLOAT64_1: nat := 0x0011
  const FLOAT64_2: nat := 0x0009
  const STRING: nat := 0x0012
  const FILENAME: nat := 0x000a
  const POINT_1: nat := 0x000f
  const POINT_2: nat := 0x000e
  const BOUNDING_BOX: nat := 0x000d
  const POLYGON: nat := 0x001d
  const PALETTE: nat := 0x05aa
  const REFERENCE: nat := 0x001b

  /** Every code in declaration order. */
  const AllCodes: seq<nat> := [UINT8, UINT16_1, UINT16_2, INT16_1, INT16_2, UINT32_1, UINT32_2,
                               FLOAT64_1, FLOAT64_2, STRING, FILENAME, POINT_1, POINT_2,
                               BOUNDING_BOX, POLYGON, PALETTE, REFERENCE]

  /** Raw bytes of a PALETTE payload: 256 RGB triples. */
  const PALETTE_SIZE: nat := 0x300

  /** The payload layouts; aliased codes share one layout. */
  datatype DatumKind =
    | U8Kind | U16Kind | I16Kind | U32Kind | F64Kind | StringKind
    | PointKind | BoxKind | PolygonKind | PaletteKind | ReferenceKind

  datatype Point = Point(x: int, y: int)

  /** A type tag plus exactly one payload. A FLOAT64 payload is kept as its
      eight raw bytes. */
  datatype Datum = Datum(t: nat, u: Payload)

  datatype Payload =
    | IntPayload(i: int)
    | FloatPayload(bits: seq<byte>)
    | StringPayload(text: seq<byte>)
    | PointPayload(point: Point)
    | BoxPayload(leftTop: Datum, dimensions: Datum)
    | PolygonPayload(points: seq<Datum>)
    | PalettePayload(colors: seq<byte>)
    | ReferencePayload(chunkId: nat)

  /** The payload decoder a tag selects; `None` for a tag the reader rejects. */
  function KindOf(t: nat): Option<DatumKind> {
    if t == UINT8 then Some(U8Kind)
    else if t == UINT16_1 || t == UINT16_2 then Some(U16Kind)
    else if t == INT16_1 || t == INT16_2 then Some(I16Kind)
    else if t == UINT32_1 || t == UINT32_2 then Some(U32Kind)
    else if t == FLOAT64_1 || t == FLOAT64_2 then Some(F64Kind)
    else if t == STRING || t == FILENAME then Some(StringKind)
    else if t == POINT_1 || t == POINT_2 then Some(PointKind)
    else if t == BOUNDING_BOX then Some(BoxKind)
    else if t == POLYGON then Some(PolygonKind)
    else if t == PALETTE then Some(PaletteKind)
    else if t == REFERENCE then Some(ReferenceKind)
    else None
  }

  /** The codes are pairwise distinct, so the tag alone picks the decoder. */
  lemma CodesDistinct()
    ensures forall i, j :: 0 <= i < j < |AllCodes| ==> AllCodes[i] != AllCodes[j]
  {
  }

  /** The reader accepts exactly the declared codes. */
  lemma KnownExactly(t: nat)
    ensures KindOf(t).Some? <==> t in AllCodes
  {
  }

  /** The alias pairs select the same layout. */
  lemma AliasPairs()
    ensures KindOf(UINT16_1) == KindOf(UINT16_2) == Some(U16Kind)
    ensures KindOf(INT16_1) == KindOf(INT16_2) == Some(I16Kind)
    ensures KindOf(UINT32_1) == KindOf(UINT32_2) == Some(U32Kind)
    ensures KindOf(FLOAT64_1) == KindOf(FLOAT64_2) == Some(F64Kind)
    ensures KindOf(POINT_1) == KindOf(POINT_2) == Some(PointKind)
  {
  }

  predicate NulFree(s: seq<byte>) {
    forall i :: 0 <= i < |s| ==> s[i] != 0
  }

  /** What `Common::String(buffer)` keeps of a byte buffer: everything before
      the first NUL. */
  function UntilNul(s: seq<byte>): (r: seq<byte>)
    ensures NulFree(r)
    ensures r <= s
    ensures |r| < |s| ==> s[|r|] == 0
  {
    if |s| == 0 || s[0] == 0 then [] else [s[0]] + UntilNul(s[1..])
  }

  lemma {:induction false} UntilNulKeepsNulFree(s: seq<byte>)
    requires NulFree(s)
    ensures UntilNul(s) == s
  {
    if |s| > 0 {
      assert NulFree(s[1..]) by {
        forall i | 0 <= i < |s[1..]| ensures s[1..][i] != 0 {
          assert s[1..][i] == s[i + 1];
        }
      }
      UntilNulKeepsNulFree(s[1..]);
      assert s == [s[0]] + s[1..];
    }
  }

  predicate InInt16(i: int) {
    -(TWO_15 as int) <= i < TWO_15 as int
  }

  /** A datum of point tag `t` holding a point whose coordinates fit INT16. */
  predicate IsPointDatum(d: Datum, t: nat) {
    d.t == t && d.u.PointPayload? && InInt16(d.u.point.x) && InInt16(d.u.point.y)
  }

  /** The payload agrees with the layout: the right variant and, for the
      integer layouts, a value the layout can produce. Boxes and polygons
      hold point datums, which hold no further datums. */
  predicate Shaped(d: Datum) {
    KindOf(d.t).Some? && ShapedPayload(KindOf(d.t).value, d.u)
  }

  predicate ShapedPayload(k: DatumKind, u: Payload) {
    match k
    case U8Kind => u.IntPayload? && 0 <= u.i < 256
    case U16Kind => u.IntPayload? && 0 <= u.i < TWO_16
    case I16Kind => u.IntPayload? && InInt16(u.i)
    case U32Kind => u.IntPayload? && IsI32(u.i)
    case F64Kind => u.FloatPayload? && |u.bits| == 8
    case StringKind => u.StringPayload? && |u.text| < TWO_32 && NulFree(u.text)
    case PointKind => u.PointPayload? && InInt16(u.point.x) && InInt16(u.point.y)
    case BoxKind =>
      u.BoxPayload? && IsPointDatum(u.leftTop, POINT_2) && IsPointDatum(u.dimensions, POINT_1)
    case PolygonKind =>
      && u.PolygonPayload?
      && |u.points| < TWO_16
      && forall i :: 0 <= i < |u.points| ==> IsPointDatum(u.points[i], POINT_1)
    case PaletteKind => u.PalettePayload? && |u.colors| == PALETTE_SIZE
    case ReferenceKind => u.ReferencePayload? && u.chunkId < TWO_32
  }

  /** `Datum(chunk)`: a tag, then the payload that tag selects. */
  function ReadDatum(c: Chunk): (r: Result<(Datum, Chunk)>)
    ensures r.Ok? ==> Shaped(r.value.0) && Advanced(c, r.value.1)
    ensures r.Ok? ==> r.value.1.pos >= c.pos + 2 && Budget(r.value.1) < Budget(c)
    ensures r.Ok? ==> ReadU16LE(c).Ok? && r.value.0.t == ReadU16LE(c).value.0
    decreases Budget(c), 0
  {
    var tag :- ReadU16LE(c);
    ReadWithType(tag.0, tag.1)
  }

  /** `Datum(chunk, expected)`: as `ReadDatum`, but a different tag is fatal. */
  function ReadTyped(c: Chunk, expected: nat): (r: Result<(Datum, Chunk)>)
    ensures r.Ok? ==> r.value.0.t == expected && Shaped(r.value.0) && Advanced(c, r.value.1)
    ensures r.Ok? ==> KindOf(expected).Some? && ShapedPayload(KindOf(expected).value, r.value.0.u)
    ensures r.Ok? ==> r.value.1.pos >= c.pos + 2 && Budget(r.value.1) < Budget(c)
    ensures ReadU16LE(c).Ok? && ReadU16LE(c).value.0 != expected ==>
      r == Fail(WrongDatumType(expected, ReadU16LE(c).value.0))
    decreases Budget(c), 0
  {
    var tag :- ReadU16LE(c);
    if tag.0 != expected then Fail(WrongDatumType(expected, tag.0))
    else ReadWithType(tag.0, tag.1)
  }

  /** `readWithType`: an unrecognised tag is fatal. */
  function ReadWithType(t: nat, c: Chunk): (r: Result<(Datum, Chunk)>)
    ensures KindOf(t).None? ==> r == Fail(UnknownDatumType(t))
    ensures r.Ok? ==> r.value.0.t == t && Shaped(r.value.0) && Advanced(c, r.value.1)
    ensures r.Ok? ==> KindOf(t).Some? && ShapedPayload(KindOf(t).value, r.value.0.u)
    decreases Budget(c), 3
  {
    match KindOf(t)
    case None => Fail(UnknownDatumType(t))
    case Some(k) =>
      var p :- ReadPayload(k, c);
      Ok((Datum(t, p.0), p.1))
  }

  /** The payload layouts, by kind: fixed-width integers little-endian,
      FLOAT64 and PALETTE as raw bytes, REFERENCE as a 32-bit word. */
  function ReadPayload(k: DatumKind, c: Chunk): (r: Result<(Payload, Chunk)>)
    ensures r.Ok? ==> ShapedPayload(k, r.value.0) && Advanced(c, r.value.1)
    decreases Budget(c), 2
  {
    match k
    case U8Kind =>
      var p :- ReadU8(c);
      Ok((IntPayload(p.0), p.1))
    case U16Kind =>
      var p :- ReadU16LE(c);
      Ok((IntPayload(p.0), p.1))
    case I16Kind =>
      var p :- ReadS16LE(c);
      Ok((IntPayload(p.0), p.1))
    case U32Kind =>
      var p :- ReadU32LE(c);
      Ok((IntPayload(ToInt32(p.0)), p.1))
    case F64Kind =>
      var p :- Read(c, 8);
      Ok((FloatPayload(p.0), p.1))
    case StringKind => ReadString(c)
    case PointKind => ReadPoint(c)
    case BoxKind => ReadBox(c)
    case PolygonKind => ReadPolygon(c)
    case PaletteKind =>
      var p :- Read(c, PALETTE_SIZE);
      Ok((PalettePayload(p.0), p.1))
    case ReferenceKind =>
      var p :- ReadU32LE(c);
      Ok((ReferencePayload(p.0), p.1))
  }

  /** STRING and FILENAME: a UINT32_1 size datum, then that many raw bytes,
      of which the text keeps those before the first NUL. */
  function ReadString(c: Chunk): (r: Result<(Payload, Chunk)>)
    ensures r.Ok? ==> ShapedPayload(StringKind, r.value.0) && Advanced(c, r.value.1)
    decreases Budget(c), 1
  {
    var size :- ReadTyped(c, UINT32_1);
    var p :- Read(size.1, ToUint32(size.0.u.i));
    Ok((StringPayload(UntilNul(p.0)), p.1))
  }

  /** A point: x, then y, each an INT16_2 datum. */
  function ReadPoint(c: Chunk): (r: Result<(Payload, Chunk)>)
    ensures r.Ok? ==> ShapedPayload(PointKind, r.value.0) && Advanced(c, r.value.1)
    decreases Budget(c), 1
  {
    var x :- ReadTyped(c, INT16_2);
    var y :- ReadTyped(x.1, INT16_2);
    Ok((PointPayload(Point(x.0.u.i, y.0.u.i)), y.1))
  }

  /** A bounding box: a POINT_2 datum, then a POINT_1 datum. */
  function ReadBox(c: Chunk): (r: Result<(Payload, Chunk)>)
    ensures r.Ok? ==> ShapedPayload(BoxKind, r.value.0) && Advanced(c, r.value.1)
    decreases Budget(c), 1
  {
    var leftTop :- ReadTyped(c, POINT_2);
    var dimensions :- ReadTyped(leftTop.1, POINT_1);
    Ok((BoxPayload(leftTop.0, dimensions.0), dimensions.1))
  }

  /** A polygon: a UINT16_1 count, then that many POINT_1 datums. */
  function ReadPolygon(c: Chunk): (r: Result<(Payload, Chunk)>)
    ensures r.Ok? ==> ShapedPayload(PolygonKind, r.value.0) && Advanced(c, r.value.1)
    decreases Budget(c), 1
  {
    var count :- ReadTyped(c, UINT16_1);
    var points :- ReadPoints(count.1, count.0.u.i as nat);
    Ok((PolygonPayload(points.0), points.1))
  }

  /** The point list of a polygon: `n` POINT_1 datums, in order. */
  function ReadPoints(c: Chunk, n: nat): (r: Result<(seq<Datum>, Chunk)>)
    ensures r.Ok? ==> |r.value.0| == n && Advanced(c, r.value.1)
    ensures r.Ok? ==> forall i :: 0 <= i < n ==> IsPointDatum(r.value.0[i], POINT_1)
    decreases Budget(c), 1, n
  {
    if n == 0 then Ok(([], c))
    else
      var first :- ReadTyped(c, POINT_1);
      var others :- ReadPoints(first.1, n - 1);
      Ok(([first.0] + others.0, others.1))
  }

  /** `Datum(chunk).u.i` on an integer payload. Reading `u.i` of any other
      payload reinterprets a pointer or a double, which is not modelled. */
  function AsInt(d: Datum): (r: Result<int>)
    ensures r.Ok? <==> d.u.IntPayload?
    ensures r.Ok? ==> r.value == d.u.i
  {
    if d.u.IntPayload? then Ok(d.u.i) else Fail(PayloadPun(d.t))
  }

  /** `Datum(chunk).u.f` on a FLOAT64 payload, as its raw bytes. */
  function AsFloat(d: Datum): (r: Result<seq<byte>>)
    ensures r.Ok? <==> d.u.FloatPayload?
    ensures r.Ok? ==> r.value == d.u.bits
    ensures r.Fail? ==> r.error == PayloadPun(d.t)
  {
    if d.u.FloatPayload? then Ok(d.u.bits) else Fail(PayloadPun(d.t))
  }

  /** A generic datum read for its integer value. */
  function ReadInt(c: Chunk): (r: Result<(int, Chunk)>)
    ensures r.Ok? ==> Advanced(c, r.value.1) && Budget(r.value.1) < Budget(c)
    ensures r.Ok? ==> ReadDatum(c).Ok? && ReadDatum(c).value.0.u == IntPayload(r.value.0)
  {
    var d :- ReadDatum(c);
    var i :- AsInt(d.0);
    Ok((i, d.1))
  }

  /** A typed datum of one of the integer layouts, read for its value. */
  function ReadTypedInt(c: Chunk, expected: nat): (r: Result<(int, Chunk)>)
    requires KindOf(expected) in {Some(U8Kind), Some(U16Kind), Some(I16Kind), Some(U32Kind)}
    ensures r.Ok? ==> Advanced(c, r.value.1) && Budget(r.value.1) < Budget(c)
    ensures r.Ok? <==> ReadTyped(c, expected).Ok?
    ensures r.Ok? ==> ReadTyped(c, expected).value.0 == Datum(expected, IntPayload(r.value.0))
    ensures expected in {UINT8, UINT16_1, UINT16_2} && r.Ok? ==> r.value.0 >= 0
  {
    var d :- ReadTyped(c, expected);
    Ok((d.0.u.i, d.1))
  }

  // ---------------------------------------------------------------------------
  // Encoding, the partner of the decoder.

  /** The integer layouts and the values they can carry. */
  predicate IntFits(t: nat, i: int) {
    KindOf(t) in {Some(U8Kind), Some(U16Kind), Some(I16Kind), Some(U32Kind)} &&
    ShapedPayload(KindOf(t).value, IntPayload(i))
  }

  function EncodeInt(t: nat, i: int): (s: seq<byte>)
    requires IntFits(t, i)
  {
    Le16(t) + IntBytes(KindOf(t).value, i)
  }

  /** The payload bytes of an integer layout. */
  function IntBytes(k: DatumKind, i: int): (s: seq<byte>)
    requires k in {U8Kind, U16Kind, I16Kind, U32Kind} && ShapedPayload(k, IntPayload(i))
  {
    match k
    case U8Kind => [i as byte]
    case U16Kind => Le16(i)
    case I16Kind => Le16(ToUint32(i) % TWO_16)
    case U32Kind => Le32(ToUint32(i))
  }

  function Encode(d: Datum): (s: seq<byte>)
    requires Shaped(d)
  {
    Le16(d.t) + EncodePayload(KindOf(d.t).value, d.u)
  }

  /** A point datum of tag `t`: the tag, then x and y as INT16_2 datums. */
  function EncodePoint(t: nat, p: Point): seq<byte>
    requires t in {POINT_1, POINT_2} && InInt16(p.x) && InInt16(p.y)
  {
    Le16(t) + EncodeInt(INT16_2, p.x) + EncodeInt(INT16_2, p.y)
  }

  function EncodePayload(k: DatumKind, u: Payload): (s: seq<byte>)
    requires ShapedPayload(k, u)
  {
    match k
    case U8Kind | U16Kind | I16Kind | U32Kind => IntBytes(k, u.i)
    case F64Kind => u.bits
    case StringKind => EncodeInt(UINT32_1, ToInt32(|u.text|)) + u.text
    case PointKind => EncodeInt(INT16_2, u.point.x) + EncodeInt(INT16_2, u.point.y)
    case BoxKind => EncodePoint(POINT_2, u.leftTop.u.point) + EncodePoint(POINT_1, u.dimensions.u.point)
    case PolygonKind => EncodeInt(UINT16_1, |u.points|) + EncodePoints(u.points)
    case PaletteKind => u.colors
    case ReferenceKind => Le32(u.chunkId)
  }

  function EncodePoints(ps: seq<Datum>): (s: seq<byte>)
    requires forall i :: 0 <= i < |ps| ==> IsPointDatum(ps[i], POINT_1)
  {
    if |ps| == 0 then []
    else
      assert IsPointDatum(ps[0], POINT_1);
      assert forall i :: 0 <= i < |ps[1..]| ==> ps[1..][i] == ps[i + 1];
      EncodePoint(POINT_1, ps[0].u.point) + EncodePoints(ps[1..])
  }

  /** One datum from its tag and its payload. */
  lemma DatumStep(c: Chunk, t: nat, p: Payload, n: nat)
    requires t < TWO_16 && KindOf(t).Some?
    requires HoldsAt(c, Le16(t))
    requires ReadPayload(KindOf(t).value, Skip(c, 2)) == Ok((p, Skip(Skip(c, 2), n)))
    ensures ReadDatum(c) == Ok((Datum(t, p), Skip(c, 2 + n)))
    ensures ReadTyped(c, t) == ReadDatum(c)
  {
    ReadHeld(c, Le16(t));
    U16RoundTrip(t);
    SkipSkip(c, 2, n);
  }

  lemma IntPayloadRoundTrip(k: DatumKind, i: int, c: Chunk)
    requires k in {U8Kind, U16Kind, I16Kind, U32Kind}
    requires ShapedPayload(k, IntPayload(i)) && HoldsAt(c, IntBytes(k, i))
    ensures ReadPayload(k, c) == Ok((IntPayload(i), Skip(c, |IntBytes(k, i)|)))
  {
    var bytes := IntBytes(k, i);
    ReadHeld(c, bytes);
    match k
    case U8Kind =>
    case U16Kind => U16RoundTrip(i);
    case I16Kind => S16RoundTrip(i);
    case U32Kind =>
      U32RoundTrip(ToUint32(i));
      Int32RoundTrip(i);
  }

  lemma IntRoundTrip(t: nat, i: int, c: Chunk)
    requires IntFits(t, i) && HoldsAt(c, EncodeInt(t, i))
    ensures ReadDatum(c) == Ok((Datum(t, IntPayload(i)), Skip(c, |EncodeInt(t, i)|)))
    ensures ReadTyped(c, t) == ReadDatum(c)
  {
    var k := KindOf(t).value;
    var body := IntBytes(k, i);
    HoldsAtSplit(c, Le16(t), body);
    IntPayloadRoundTrip(k, i, Skip(c, 2));
    DatumStep(c, t, IntPayload(i), |body|);
  }

  lemma PointPayloadRoundTrip(p: Point, c: Chunk)
    requires InInt16(p.x) && InInt16(p.y)
    requires HoldsAt(c, EncodeInt(INT16_2, p.x) + EncodeInt(INT16_2, p.y))
    ensures ReadPoint(c) ==
      Ok((PointPayload(p), Skip(c, |EncodeInt(INT16_2, p.x) + EncodeInt(INT16_2, p.y)|)))
  {
    var x := EncodeInt(INT16_2, p.x);
    var y := EncodeInt(INT16_2, p.y);
    HoldsAtSplit(c, x, y);
    IntRoundTrip(INT16_2, p.x, c);
    IntRoundTrip(INT16_2, p.y, Skip(c, |x|));
    SkipSkip(c, |x|, |y|);
  }

  lemma PointRoundTrip(t: nat, p: Point, c: Chunk)
    requires t in {POINT_1, POINT_2} && InInt16(p.x) && InInt16(p.y)
    requires HoldsAt(c, EncodePoint(t, p))
    ensures ReadTyped(c, t) == Ok((Datum(t, PointPayload(p)), Skip(c, |EncodePoint(t, p)|)))
    ensures ReadDatum(c) == ReadTyped(c, t)
  {
    var body := EncodeInt(INT16_2, p.x) + EncodeInt(INT16_2, p.y);
    assert EncodePoint(t, p) == Le16(t) + body;
    HoldsAtSplit(c, Le16(t), body);
    PointPayloadRoundTrip(p, Skip(c, 2));
    assert KindOf(t) == Some(PointKind);
    assert ReadPayload(PointKind, Skip(c, 2)) == ReadPoint(Skip(c, 2));
    DatumStep(c, t, PointPayload(p), |body|);
  }

  lemma StringRoundTrip(text: seq<byte>, c: Chunk)
    requires |text| < TWO_32 && NulFree(text)
    requires HoldsAt(c, EncodeInt(UINT32_1, ToInt32(|text|)) + text)
    ensures ReadString(c) == Ok((StringPayload(text), Skip(c, |EncodeInt(UINT32_1, ToInt32(|text|)) + text|)))
  {
    var size := EncodeInt(UINT32_1, ToInt32(|text|));
    HoldsAtSplit(c, size, text);
    IntRoundTrip(UINT32_1, ToInt32(|text|), c);
    Uint32RoundTrip(|text|);
    ReadHeld(Skip(c, |size|), text);
    UntilNulKeepsNulFree(text);
    SkipSkip(c, |size|, |text|);
  }

  lemma BoxRoundTrip(leftTop: Point, dimensions: Point, c: Chunk)
    requires InInt16(leftTop.x) && InInt16(leftTop.y) && InInt16(dimensions.x) && InInt16(dimensions.y)
    requires HoldsAt(c, EncodePoint(POINT_2, leftTop) + EncodePoint(POINT_1, dimensions))
    ensures ReadBox(c) == Ok((BoxPayload(Datum(POINT_2, PointPayload(leftTop)), Datum(POINT_1, PointPayload(dimensions))),
                              Skip(c, |EncodePoint(POINT_2, leftTop) + EncodePoint(POINT_1, dimensions)|)))
  {
    var a := EncodePoint(POINT_2, leftTop);
    var b := EncodePoint(POINT_1, dimensions);
    HoldsAtSplit(c, a, b);
    PointRoundTrip(POINT_2, leftTop, c);
    PointRoundTrip(POINT_1, dimensions, Skip(c, |a|));
    SkipSkip(c, |a|, |b|);
  }

  lemma PolygonRoundTrip(ps: seq<Datum>, c: Chunk)
    requires |ps| < TWO_16 && forall i :: 0 <= i < |ps| ==> IsPointDatum(ps[i], POINT_1)
    requires HoldsAt(c, EncodeInt(UINT16_1, |ps|) + EncodePoints(ps))
    ensures ReadPolygon(c) == Ok((PolygonPayload(ps), Skip(c, |EncodeInt(UINT16_1, |ps|) + EncodePoints(ps)|)))
  {
    var count := EncodeInt(UINT16_1, |ps|);
    var rest := EncodePoints(ps);
    HoldsAtSplit(c, count, rest);
    IntRoundTrip(UINT16_1, |ps|, c);
    var c2 := Skip(c, |count|);
    PointsRoundTrip(ps, c2);
    PolygonStep(c, |ps|, c2, ps, Skip(c2, |rest|));
    SkipSkip(c, |count|, |rest|);
  }

  lemma PolygonStep(c: Chunk, n: nat, c2: Chunk, points: seq<Datum>, c3: Chunk)
    requires ReadTyped(c, UINT16_1) == Ok((Datum(UINT16_1, IntPayload(n)), c2))
    requires ReadPoints(c2, n) == Ok((points, c3))
    ensures ReadPolygon(c) == Ok((PolygonPayload(points), c3))
  {
  }

  lemma {:induction false} PointsRoundTrip(ps: seq<Datum>, c: Chunk)
    requires forall i :: 0 <= i < |ps| ==> IsPointDatum(ps[i], POINT_1)
    requires HoldsAt(c, EncodePoints(ps))
    ensures ReadPoints(c, |ps|) == Ok((ps, Skip(c, |EncodePoints(ps)|)))
  {
    if |ps| > 0 {
      var p := ps[0];
      var head := EncodePoint(POINT_1, p.u.point);
      var tail := EncodePoints(ps[1..]);
      HoldsAtSplit(c, head, tail);
      PointRoundTrip(POINT_1, p.u.point, c);
      assert Datum(POINT_1, PointPayload(p.u.point)) == p;
      var c2 := Skip(c, |head|);
      PointsRoundTrip(ps[1..], c2);
      ReadPointsCons(c, |ps|, p, c2, ps[1..], Skip(c2, |tail|));
      assert ps == [p] + ps[1..];
      SkipSkip(c, |head|, |tail|);
    }
  }

  lemma ReadPointsCons(c: Chunk, n: nat, first: Datum, c2: Chunk, others: seq<Datum>, c3: Chunk)
    requires n > 0
    requires ReadTyped(c, POINT_1) == Ok((first, c2))
    requires ReadPoints(c2, n - 1) == Ok((others, c3))
    ensures ReadPoints(c, n) == Ok(([first] + others, c3))
  {
  }

  lemma PayloadRoundTrip(k: DatumKind, u: Payload, c: Chunk)
    requires ShapedPayload(k, u) && HoldsAt(c, EncodePayload(k, u))
    ensures ReadPayload(k, c) == Ok((u, Skip(c, |EncodePayload(k, u)|)))
  {
    var bytes := EncodePayload(k, u);
    match k
    case U8Kind => IntPayloadRoundTrip(k, u.i, c);
    case U16Kind => IntPayloadRoundTrip(k, u.i, c);
    case I16Kind => IntPayloadRoundTrip(k, u.i, c);
    case U32Kind => IntPayloadRoundTrip(k, u.i, c);
    case F64Kind => ReadHeld(c, bytes);
    case PaletteKind => ReadHeld(c, bytes);
    case ReferenceKind => ReadHeld(c, bytes); U32RoundTrip(u.chunkId);
    case StringKind => StringRoundTrip(u.text, c);
    case PointKind => PointPayloadRoundTrip(u.point, c);
    case BoxKind => BoxRoundTrip(u.leftTop.u.point, u.dimensions.u.point, c);
    case PolygonKind => PolygonRoundTrip(u.points, c);
  }

  /** Decoding an encoded datum gives it back and consumes exactly its bytes. */
  lemma RoundTrip(d: Datum, c: Chunk)
    requires Shaped(d) && HoldsAt(c, Encode(d))
    ensures ReadDatum(c) == Ok((d, Skip(c, |Encode(d)|)))
    ensures ReadTyped(c, d.t) == ReadDatum(c)
  {
    var k := KindOf(d.t).value;
    var body := EncodePayload(k, d.u);
    HoldsAtSplit(c, Le16(d.t), body);
    PayloadRoundTrip(k, d.u, Skip(c, 2));
    DatumStep(c, d.t, d.u, |body|);
  }

  /** `RoundTrip` for the untyped read alone. */
  lemma ReadBack(d: Datum, c: Chunk)
    requires Shaped(d) && HoldsAt(c, Encode(d))
    ensures ReadDatum(c) == Ok((d, Skip(c, |Encode(d)|)))
  {
    RoundTrip(d, c);
  }

  /** Aliased tags decode the same bytes to the same payload. */
  lemma AliasesDecodeAlike(t1: nat, t2: nat, c: Chunk)
    requires KindOf(t1) == KindOf(t2)
    ensures ReadWithType(t1, c).Ok? <==> ReadWithType(t2, c).Ok?
    ensures ReadWithType(t1, c).Ok? ==>
      ReadWithType(t1, c).value.0.u == ReadWithType(t2, c).value.0.u &&
      ReadWithType(t1, c).value.1 == ReadWithType(t2, c).value.1
  {
  }

  /** A string is cut at its first NUL byte, though all declared bytes are consumed. */
  lemma StringStopsAtNul(c: Chunk, text: seq<byte>, tail: seq<byte>)
    requires |text| + 1 + |tail| < TWO_32
    requires NulFree(text)
    requires HoldsAt(c, EncodeInt(UINT32_1, ToInt32(|text| + 1 + |tail|)) + text + [0] + tail)
    ensures ReadPayload(StringKind, c).Ok?
    ensures ReadPayload(StringKind, c).value.0 == StringPayload(text)
    ensures ReadPayload(StringKind, c).value.1.pos == c.pos + 6 + |text| + 1 + |tail|
  {
    var n := |text| + 1 + |tail|;
    var size := EncodeInt(UINT32_1, ToInt32(n));
    var raw := text + [0] + tail;
    assert size + text + [0] + tail == size + raw;
    HoldsAtSplit(c, size, raw);
    IntRoundTrip(UINT32_1, ToInt32(n), c);
    Uint32RoundTrip(n);
    ReadHeld(Skip(c, |size|), raw);
    UntilNulCut(text, tail);
  }

  lemma {:induction false} UntilNulCut(text: seq<byte>, tail: seq<byte>)
    requires NulFree(text)
    ensures UntilNul(text + [0] + tail) == text
  {
    if |text| > 0 {
      assert (text + [0] + tail)[1..] == text[1..] + [0] + tail;
      assert NulFree(text[1..]) by {
        forall i | 0 <= i < |text[1..]| ensures text[1..][i] != 0 {
          assert text[1..][i] == text[i + 1];
        }
      }
      UntilNulCut(text[1..], tail);
      assert text == [text[0]] + text[1..];
    }
  }
}
