/** Script variable declarations: an id, a type code, then a value whose
    layout the type code selects. A collection holds nested declarations. */
module Variables {
  import opened Bytes
  import opened Results
  import opened Chunks
  import D = Datums

  /** The `VariableDeclaration::Type` codes. Their values are declared in a
      header that is not part of this model, so they are a parameter. */
  datatype TypeCodes = TypeCodes(collection: int, text: int, assetId: int, boolean: int, literal: int)

  datatype Value =
    | Collection(items: seq<Declaration>)
    | Text(text: seq<byte>)
    | AssetId(asset: int)
    | Boolean(b: bool)
    | Raw(d: D.Datum)

  datatype Declaration = Declaration(id: int, kind: int, value: Value)

  /** The branch of the constructor's `switch` a type code reaches. */
  datatype Layout = CollectionLayout | TextLayout | AssetIdLayout | BooleanLayout | LiteralLayout | OtherLayout

  function LayoutOf(ty: TypeCodes, kind: int): Layout {
    if kind == ty.collection then CollectionLayout
    else if kind == ty.text then TextLayout
    else if kind == ty.assetId then AssetIdLayout
    else if kind == ty.boolean then BooleanLayout
    else if kind == ty.literal then LiteralLayout
    else OtherLayout
  }

  /** The value constructor each layout produces. */
  predicate Matches(layout: Layout, v: Value) {
    match layout
    case CollectionLayout => v.Collection?
    case TextLayout => v.Text? && D.NulFree(v.text)
    case AssetIdLayout => v.AssetId? && 0 <= v.asset < TWO_16
    case BooleanLayout => v.Boolean?
    case LiteralLayout | OtherLayout => v.Raw? && D.Shaped(v.d)
  }

  /** `VariableDeclaration(chunk)`: the id as a UINT16_1 datum and the type
      as a UINT8 datum, then the value. */
  function ReadDeclaration(ty: TypeCodes, c: Chunk): (r: Result<(Declaration, Chunk)>)
    ensures r.Ok? ==> Advanced(c, r.value.1) && Budget(r.value.1) < Budget(c)
    ensures r.Ok? ==> 0 <= r.value.0.id < TWO_16 && 0 <= r.value.0.kind < 256
    ensures r.Ok? ==> Matches(LayoutOf(ty, r.value.0.kind), r.value.0.value)
    decreases Budget(c), 1
  {
    var id :- D.ReadTypedInt(c, D.UINT16_1);
    var kind :- D.ReadTypedInt(id.1, D.UINT8);
    var value :- ReadValue(ty, LayoutOf(ty, kind.0), kind.1);
    AdvancedTransitive(c, id.1, kind.1);
    AdvancedTransitive(c, kind.1, value.1);
    Ok((Declaration(id.0, kind.0, value.0), value.1))
  }

  /** The value, by layout. A collection is a count and that many nested
      declarations; a string is a size and that many raw bytes, cut at the
      first NUL; LITERAL has no `break`, so it reads a datum and then the
      default branch reads another, which replaces it. */
  function ReadValue(ty: TypeCodes, layout: Layout, c: Chunk): (r: Result<(Value, Chunk)>)
    ensures r.Ok? ==> Advanced(c, r.value.1) && Matches(layout, r.value.0)
    decreases Budget(c), 3
  {
    match layout
    case CollectionLayout =>
      var n :- D.ReadInt(c);
      var items :- ReadItems(ty, n.1, ToUint32(n.0));
      AdvancedTransitive(c, n.1, items.1);
      Ok((Collection(items.0), items.1))
    case TextLayout =>
      var size :- D.ReadInt(c);
      var bytes :- Read(size.1, ToUint32(size.0));
      AdvancedTransitive(c, size.1, bytes.1);
      Ok((Text(D.UntilNul(bytes.0)), bytes.1))
    case AssetIdLayout =>
      var a :- D.ReadTypedInt(c, D.UINT16_1);
      Ok((AssetId(a.0), a.1))
    case BooleanLayout =>
      var raw :- D.ReadTypedInt(c, D.UINT16_1);
      Ok((Boolean(raw.0 == 1), raw.1))
    case LiteralLayout =>
      var first :- D.ReadDatum(c);
      var second :- D.ReadDatum(first.1);
      AdvancedTransitive(c, first.1, second.1);
      Ok((Raw(second.0), second.1))
    case OtherLayout =>
      var d :- D.ReadDatum(c);
      Ok((Raw(d.0), d.1))
  }

  /** The collection loop: exactly `n` nested declarations, in order. */
  function ReadItems(ty: TypeCodes, c: Chunk, n: nat): (r: Result<(seq<Declaration>, Chunk)>)
    ensures r.Ok? ==> |r.value.0| == n && Advanced(c, r.value.1)
    decreases Budget(c), 2
  {
    if n == 0 then Ok(([], c))
    else
      var first :- ReadDeclaration(ty, c);
      var others :- ReadItems(ty, first.1, n - 1);
      AdvancedTransitive(c, first.1, others.1);
      Ok(([first.0] + others.0, others.1))
  }

  // ---------------------------------------------------------------------------
  // Encoding, the partner of the reader.

  /** The number of nested declarations, which bounds the encoder's recursion. */
  function Width(d: Declaration): nat {
    if d.value.Collection? then |d.value.items| else 0
  }

  /** A declaration the encoder can write: fields within their datum widths,
      and the value of the layout its type code selects. */
  predicate Valid(ty: TypeCodes, d: Declaration)
    decreases d
  {
    && 0 <= d.id < TWO_16 && 0 <= d.kind < 256
    && Matches(LayoutOf(ty, d.kind), d.value)
    && (d.value.Collection? ==>
          |d.value.items| < TWO_16 &&
          forall i :: 0 <= i < |d.value.items| ==> Valid(ty, d.value.items[i]))
    && (d.value.Text? ==> |d.value.text| < TWO_16)
  }

  function Encode(ty: TypeCodes, d: Declaration): (s: seq<byte>)
    requires Valid(ty, d)
    decreases d, Width(d) + 2
  {
    D.EncodeInt(D.UINT16_1, d.id) + D.EncodeInt(D.UINT8, d.kind) + EncodeValue(ty, d)
  }

  /** The value's bytes. A LITERAL is written twice, since the reader keeps
      only the second of the two datums it reads. */
  function EncodeValue(ty: TypeCodes, d: Declaration): (s: seq<byte>)
    requires Valid(ty, d)
    decreases d, Width(d) + 1
  {
    hide ReadItems, ReadDeclaration, EncodeItems, Encode;
    match LayoutOf(ty, d.kind)
    case CollectionLayout => D.EncodeInt(D.UINT16_1, |d.value.items|) + EncodeItems(ty, d, 0)
    case TextLayout => D.EncodeInt(D.UINT16_1, |d.value.text|) + d.value.text
    case AssetIdLayout => D.EncodeInt(D.UINT16_1, d.value.asset)
    case BooleanLayout => D.EncodeInt(D.UINT16_1, if d.value.b then 1 else 0)
    case LiteralLayout => D.Encode(d.value.d) + D.Encode(d.value.d)
    case OtherLayout => D.Encode(d.value.d)
  }

  /** The items of a collection from index `k` on. */
  function EncodeItems(ty: TypeCodes, d: Declaration, k: nat): (s: seq<byte>)
    requires Valid(ty, d) && d.value.Collection? && k <= |d.value.items|
    decreases d, Width(d) - k
  {
    if k == |d.value.items| then []
    else Encode(ty, d.value.items[k]) + EncodeItems(ty, d, k + 1)
  }

  // ---------------------------------------------------------------------------
  // Round trip.

  /** Reading an encoded declaration gives it back and consumes exactly its
      bytes; for a collection, every nested declaration in order. */
  lemma {:induction false} RoundTrip(ty: TypeCodes, d: Declaration, c: Chunk)
    requires Valid(ty, d) && HoldsAt(c, Encode(ty, d))
    ensures ReadDeclaration(ty, c) == Ok((d, Skip(c, |Encode(ty, d)|)))
    decreases d, Width(d) + 2
  {
    var idBytes := D.EncodeInt(D.UINT16_1, d.id);
    var kindBytes := D.EncodeInt(D.UINT8, d.kind);
    var valueBytes := EncodeValue(ty, d);
    HoldsAtSplit(c, idBytes + kindBytes, valueBytes);
    HoldsAtSplit(c, idBytes, kindBytes);
    var c1 := Skip(c, |idBytes|);
    var c2 := Skip(c1, |kindBytes|);
    SkipConcat(c, idBytes, kindBytes);
    D.IntRoundTrip(D.UINT16_1, d.id, c);
    D.IntRoundTrip(D.UINT8, d.kind, c1);
    ValueRoundTrip(ty, d, c2);
    DeclarationStep(ty, c, d.id, c1, d.kind, c2, d.value, Skip(c2, |valueBytes|));
    SkipConcat(c, idBytes + kindBytes, valueBytes);
  }

  /** The reader's sequence of three reads, with their results given. */
  lemma DeclarationStep(ty: TypeCodes, c: Chunk, id: int, c1: Chunk, kind: int, c2: Chunk, v: Value, c3: Chunk)
    requires D.ReadTypedInt(c, D.UINT16_1) == Ok((id, c1))
    requires D.ReadTypedInt(c1, D.UINT8) == Ok((kind, c2))
    requires ReadValue(ty, LayoutOf(ty, kind), c2) == Ok((v, c3))
    ensures ReadDeclaration(ty, c) == Ok((Declaration(id, kind, v), c3))
  {
  }

  lemma {:induction false} ValueRoundTrip(ty: TypeCodes, d: Declaration, c: Chunk)
    requires Valid(ty, d) && HoldsAt(c, EncodeValue(ty, d))
    ensures ReadValue(ty, LayoutOf(ty, d.kind), c) == Ok((d.value, Skip(c, |EncodeValue(ty, d)|)))
    decreases d, Width(d) + 1
  {
    hide ReadItems, ReadDeclaration, EncodeItems, Encode;
    match LayoutOf(ty, d.kind)
    case CollectionLayout =>
      var count := D.EncodeInt(D.UINT16_1, |d.value.items|);
      HoldsAtSplit(c, count, EncodeItems(ty, d, 0));
      D.IntRoundTrip(D.UINT16_1, |d.value.items|, c);
      Uint32RoundTrip(|d.value.items|);
      ItemsRoundTrip(ty, d, 0, Skip(c, |count|));
      assert d.value.items[0..] == d.value.items;
      SkipConcat(c, count, EncodeItems(ty, d, 0));
    case TextLayout =>
      var size := D.EncodeInt(D.UINT16_1, |d.value.text|);
      HoldsAtSplit(c, size, d.value.text);
      D.IntRoundTrip(D.UINT16_1, |d.value.text|, c);
      Uint32RoundTrip(|d.value.text|);
      ReadHeld(Skip(c, |size|), d.value.text);
      D.UntilNulKeepsNulFree(d.value.text);
      SkipConcat(c, size, d.value.text);
    case AssetIdLayout =>
      D.IntRoundTrip(D.UINT16_1, d.value.asset, c);
    case BooleanLayout =>
      D.IntRoundTrip(D.UINT16_1, if d.value.b then 1 else 0, c);
    case LiteralLayout =>
      LiteralKeepsSecond(ty, d.value.d, d.value.d, c);
    case OtherLayout =>
      D.ReadBack(d.value.d, c);
  }

  lemma {:induction false} ItemsRoundTrip(ty: TypeCodes, d: Declaration, k: nat, c: Chunk)
    requires Valid(ty, d) && d.value.Collection? && k <= |d.value.items|
    requires HoldsAt(c, EncodeItems(ty, d, k))
    ensures ReadItems(ty, c, |d.value.items| - k) == Ok((d.value.items[k..], Skip(c, |EncodeItems(ty, d, k)|)))
    decreases d, Width(d) - k
  {
    if k < |d.value.items| {
      EncodeItemsCons(ty, d, k);
      hide ReadDeclaration, ReadValue, ReadItems, Encode, EncodeValue, EncodeItems;
      var first := Encode(ty, d.value.items[k]);
      var rest := EncodeItems(ty, d, k + 1);
      HoldsAtSplit(c, first, rest);
      var c1 := Skip(c, |first|);
      RoundTrip(ty, d.value.items[k], c);
      ItemsRoundTrip(ty, d, k + 1, c1);
      SliceCons(d.value.items, k);
      SkipConcat(c, first, rest);
      ItemsStep(ty, c, |d.value.items| - k, d.value.items[k], c1, d.value.items[k + 1..], Skip(c1, |rest|));
    } else {
      ItemsNil(ty, d, c);
    }
  }

  /** Past the last item there is nothing to write and nothing is read. */
  lemma ItemsNil(ty: TypeCodes, d: Declaration, c: Chunk)
    requires Valid(ty, d) && d.value.Collection?
    ensures EncodeItems(ty, d, |d.value.items|) == []
    ensures ReadItems(ty, c, 0) == Ok((d.value.items[|d.value.items|..], Skip(c, 0)))
  {
    assert d.value.items[|d.value.items|..] == [];
  }

  lemma EncodeItemsCons(ty: TypeCodes, d: Declaration, k: nat)
    requires Valid(ty, d) && d.value.Collection? && k < |d.value.items|
    ensures EncodeItems(ty, d, k) == Encode(ty, d.value.items[k]) + EncodeItems(ty, d, k + 1)
  {
  }

  lemma SliceCons<T>(s: seq<T>, k: nat)
    requires k < |s|
    ensures s[k..] == [s[k]] + s[k + 1..]
  {
  }

  lemma ItemsStep(ty: TypeCodes, c: Chunk, n: nat, first: Declaration, c1: Chunk, others: seq<Declaration>, c2: Chunk)
    requires n > 0
    requires ReadDeclaration(ty, c) == Ok((first, c1))
    requires ReadItems(ty, c1, n - 1) == Ok((others, c2))
    ensures ReadItems(ty, c, n) == Ok(([first] + others, c2))
  {
  }

  // ---------------------------------------------------------------------------
  // Single-branch facts.

  /** BOOLEAN is true exactly when the raw value is 1: any other value, not
      only 0, reads as false. */
  lemma BooleanIsOne(ty: TypeCodes, raw: nat, c: Chunk)
    requires raw < TWO_16 && HoldsAt(c, D.EncodeInt(D.UINT16_1, raw))
    ensures ReadValue(ty, BooleanLayout, c) == Ok((Boolean(raw == 1), Skip(c, 4)))
  {
    D.IntRoundTrip(D.UINT16_1, raw, c);
  }

  /** LITERAL falls through into the default branch: two datums are read and
      the second is kept. */
  lemma LiteralKeepsSecond(ty: TypeCodes, a: D.Datum, b: D.Datum, c: Chunk)
    requires D.Shaped(a) && D.Shaped(b) && HoldsAt(c, D.Encode(a) + D.Encode(b))
    ensures ReadValue(ty, LiteralLayout, c) == Ok((Raw(b), Skip(c, |D.Encode(a) + D.Encode(b)|)))
  {
    var ea := D.Encode(a);
    var eb := D.Encode(b);
    var c1 := Skip(c, |ea|);
    HoldsAtSplit(c, ea, eb);
    D.ReadBack(a, c);
    D.ReadBack(b, c1);
    LiteralStep(ty, c, a, c1, b, Skip(c1, |eb|));
    SkipConcat(c, ea, eb);
  }

  lemma LiteralStep(ty: TypeCodes, c: Chunk, a: D.Datum, c1: Chunk, b: D.Datum, c2: Chunk)
    requires D.ReadDatum(c) == Ok((a, c1)) && D.ReadDatum(c1) == Ok((b, c2))
    ensures ReadValue(ty, LiteralLayout, c) == Ok((Raw(b), c2))
  {
  }

  /** An unknown type code is not an error: one generic datum is read. */
  lemma UnknownTypeReadsOneDatum(ty: TypeCodes, d: Declaration, a: D.Datum, c: Chunk)
    requires LayoutOf(ty, d.kind) == OtherLayout
    requires D.Shaped(a) && HoldsAt(c, D.Encode(a))
    ensures ReadValue(ty, LayoutOf(ty, d.kind), c) == Ok((Raw(a), Skip(c, |D.Encode(a)|)))
  {
    D.ReadBack(a, c);
  }
}
