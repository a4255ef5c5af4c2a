/** An event handler record: the event type, an argument type and value,
    and the handler's body. A handler with an argument also stores a length
    datum that the reader consumes and discards. */
module EventHandlers {
  import opened Bytes
  import opened Results
  import opened Chunks
  import D = Datums
  import CodeChunks

  /** `kind` is the event type; `argValue` is read whatever `argType` is. */
  datatype Handler = Handler(kind: int, argType: int, argValue: D.Datum, code: seq<byte>)

  /** The `EventHandler` constructor. `nullArgument` is the code of
      `ArgumentType::Null`, whose value is declared in a header that is not
      part of this model. */
  function ReadHandler(nullArgument: int, c: Chunk): (r: Result<(Handler, Chunk)>)
    ensures r.Ok? ==> Advanced(c, r.value.1) && Budget(r.value.1) < Budget(c)
    ensures r.Ok? ==> D.ReadInt(c).Ok? && r.value.0.kind == D.ReadInt(c).value.0
    ensures r.Ok? ==>
      var argType := D.ReadInt(D.ReadInt(c).value.1);
      && argType.Ok? && r.value.0.argType == argType.value.0
      && D.ReadDatum(argType.value.1).Ok?
      && r.value.0.argValue == D.ReadDatum(argType.value.1).value.0
  {
    var kind :- D.ReadInt(c);
    var argType :- D.ReadInt(kind.1);
    var argValue :- D.ReadDatum(argType.1);
    var beforeCode :- ReadLength(nullArgument, argType.0, argValue.1);
    var code :- CodeChunks.ReadCodeChunk(beforeCode);
    AdvancedTransitive(c, kind.1, argType.1);
    AdvancedTransitive(c, argType.1, argValue.1);
    AdvancedTransitive(argValue.1, beforeCode, code.1);
    AdvancedTransitive(c, argValue.1, code.1);
    Ok((Handler(kind.0, argType.0, argValue.0, code.0), code.1))
  }

  /** The length datum present only when there is an argument; it must be a
      UINT32_1 datum, and its value is not used. */
  function ReadLength(nullArgument: int, argType: int, c: Chunk): (r: Result<Chunk>)
    ensures argType == nullArgument ==> r == Ok(c)
    ensures argType != nullArgument ==> (r.Ok? <==> D.ReadTyped(c, D.UINT32_1).Ok?)
    ensures argType != nullArgument && r.Ok? ==>
      r.value == D.ReadTyped(c, D.UINT32_1).value.1 && r.value.pos > c.pos
    ensures r.Ok? ==> Advanced(c, r.value)
  {
    if argType == nullArgument then Ok(c)
    else
      var len :- D.ReadTypedInt(c, D.UINT32_1);
      Ok(len.1)
  }

  // ---------------------------------------------------------------------------
  // Encoding, the partner of the reader.

  predicate Valid(h: Handler) {
    IsI32(h.kind) && IsI32(h.argType) && D.Shaped(h.argValue) && |h.code| < TWO_32
  }

  /** The length datum the writer puts after the argument value, if any. */
  function EncodeLength(nullArgument: int, argType: int, length: nat): (s: seq<byte>)
    requires length < TWO_32
  {
    if argType == nullArgument then [] else CodeChunks.EncodeLength(length)
  }

  /** The stored handler, with `length` in the length datum. */
  function Encode(nullArgument: int, h: Handler, length: nat): (s: seq<byte>)
    requires Valid(h) && length < TWO_32
  {
    D.EncodeInt(D.UINT32_1, h.kind) + D.EncodeInt(D.UINT32_1, h.argType) + D.Encode(h.argValue) +
    EncodeLength(nullArgument, h.argType, length) + CodeChunks.EncodeCodeChunk(h.code)
  }

  lemma LengthRoundTrip(nullArgument: int, argType: int, length: nat, c: Chunk)
    requires length < TWO_32 && HoldsAt(c, EncodeLength(nullArgument, argType, length))
    ensures ReadLength(nullArgument, argType, c) == Ok(Skip(c, |EncodeLength(nullArgument, argType, length)|))
  {
    if argType != nullArgument {
      D.IntRoundTrip(D.UINT32_1, ToInt32(length), c);
    }
  }

  lemma ReadStep(nullArgument: int, c: Chunk, kind: int, c1: Chunk, argType: int, c2: Chunk,
                 argValue: D.Datum, c3: Chunk, c4: Chunk, code: seq<byte>, c5: Chunk)
    requires D.ReadDatum(c) == Ok((D.Datum(D.UINT32_1, D.IntPayload(kind)), c1))
    requires D.ReadDatum(c1) == Ok((D.Datum(D.UINT32_1, D.IntPayload(argType)), c2))
    requires D.ReadDatum(c2) == Ok((argValue, c3))
    requires ReadLength(nullArgument, argType, c3) == Ok(c4)
    requires CodeChunks.ReadCodeChunk(c4) == Ok((code, c5))
    ensures ReadHandler(nullArgument, c) == Ok((Handler(kind, argType, argValue, code), c5))
  {
  }

  /** The type datums and the argument value of a stored handler. */
  lemma HeadRoundTrip(h: Handler, c: Chunk)
    requires Valid(h)
    requires HoldsAt(c, D.EncodeInt(D.UINT32_1, h.kind) + D.EncodeInt(D.UINT32_1, h.argType) + D.Encode(h.argValue))
    ensures D.ReadDatum(c) == Ok((D.Datum(D.UINT32_1, D.IntPayload(h.kind)), Skip(c, |D.EncodeInt(D.UINT32_1, h.kind)|)))
    ensures D.ReadDatum(Skip(c, |D.EncodeInt(D.UINT32_1, h.kind)|)) ==
      Ok((D.Datum(D.UINT32_1, D.IntPayload(h.argType)),
          Skip(c, |D.EncodeInt(D.UINT32_1, h.kind) + D.EncodeInt(D.UINT32_1, h.argType)|)))
    ensures D.ReadDatum(Skip(c, |D.EncodeInt(D.UINT32_1, h.kind) + D.EncodeInt(D.UINT32_1, h.argType)|)) ==
      Ok((h.argValue, Skip(c, |D.EncodeInt(D.UINT32_1, h.kind) + D.EncodeInt(D.UINT32_1, h.argType) + D.Encode(h.argValue)|)))
  {
    var kindBytes := D.EncodeInt(D.UINT32_1, h.kind);
    var typeBytes := D.EncodeInt(D.UINT32_1, h.argType);
    var valueBytes := D.Encode(h.argValue);
    HoldsAtSplit(c, kindBytes + typeBytes, valueBytes);
    HoldsAtSplit(c, kindBytes, typeBytes);
    D.IntRoundTrip(D.UINT32_1, h.kind, c);
    D.IntRoundTrip(D.UINT32_1, h.argType, Skip(c, |kindBytes|));
    SkipConcat(c, kindBytes, typeBytes);
    D.ReadBack(h.argValue, Skip(c, |kindBytes + typeBytes|));
    SkipConcat(c, kindBytes + typeBytes, valueBytes);
  }

  /** Reading a stored handler gives it back and consumes exactly its bytes,
      whatever value the length datum holds: the length is discarded. */
  lemma RoundTrip(nullArgument: int, h: Handler, length: nat, c: Chunk)
    requires Valid(h) && length < TWO_32
    requires HoldsAt(c, Encode(nullArgument, h, length))
    ensures ReadHandler(nullArgument, c) == Ok((h, Skip(c, |Encode(nullArgument, h, length)|)))
  {
    var head := D.EncodeInt(D.UINT32_1, h.kind) + D.EncodeInt(D.UINT32_1, h.argType) + D.Encode(h.argValue);
    var lengthBytes := EncodeLength(nullArgument, h.argType, length);
    var codeBytes := CodeChunks.EncodeCodeChunk(h.code);
    HoldsAtSplit(c, head + lengthBytes, codeBytes);
    HoldsAtSplit(c, head, lengthBytes);
    HeadRoundTrip(h, c);
    LengthRoundTrip(nullArgument, h.argType, length, Skip(c, |head|));
    SkipConcat(c, head, lengthBytes);
    CodeChunks.CodeChunkRoundTrip(h.code, Skip(c, |head + lengthBytes|));
    SkipConcat(c, head + lengthBytes, codeBytes);
    ReadStep(nullArgument, c,
      h.kind, Skip(c, |D.EncodeInt(D.UINT32_1, h.kind)|),
      h.argType, Skip(c, |D.EncodeInt(D.UINT32_1, h.kind) + D.EncodeInt(D.UINT32_1, h.argType)|),
      h.argValue, Skip(c, |head|),
      Skip(c, |head + lengthBytes|),
      h.code, Skip(c, |head + lengthBytes + codeBytes|));
  }

  /** With an argument, the datum after the value must be UINT32_1: any
      other tag there is fatal. */
  lemma LengthMustBeUint32(nullArgument: int, argType: int, t: nat, c: Chunk)
    requires argType != nullArgument && t < TWO_16 && t != D.UINT32_1
    requires HoldsAt(c, Le16(t))
    ensures ReadLength(nullArgument, argType, c) == Fail(WrongDatumType(D.UINT32_1, t))
  {
    ReadHeld(c, Le16(t));
    U16RoundTrip(t);
  }
}
