/** The stored form of a script body: a UINT32_1 length datum, then exactly
    that many bytes of bytecode, which the chunk is charged for. */
module CodeChunks {
  import opened Bytes
  import opened Results
  import opened Chunks
  import D = Datums

  /** The `CodeChunk` constructor: the length is taken from `u.i` into an
      unsigned field, then that many bytes become the bytecode stream. */
  function ReadCodeChunk(c: Chunk): (r: Result<(seq<byte>, Chunk)>)
    ensures r.Ok? ==> Advanced(c, r.value.1) && Budget(r.value.1) < Budget(c)
    ensures r.Ok? ==>
      var len := D.ReadTypedInt(c, D.UINT32_1);
      && len.Ok?
      && |r.value.0| == ToUint32(len.value.0)
      && r.value.1.pos == len.value.1.pos + |r.value.0|
      && r.value.1.pos <= |c.data|
      && r.value.0 == c.data[len.value.1.pos..r.value.1.pos]
    ensures D.ReadTyped(c, D.UINT32_1).Fail? ==> r.Fail?
  {
    var len :- D.ReadTypedInt(c, D.UINT32_1);
    var bytes :- Read(len.1, ToUint32(len.0));
    AdvancedTransitive(c, len.1, bytes.1);
    Ok(bytes)
  }

  /** The length datum for `n` bytes, as a UINT32_1 datum holds it. */
  function EncodeLength(n: nat): (s: seq<byte>)
    requires n < TWO_32
    ensures |s| == 6
  {
    D.EncodeInt(D.UINT32_1, ToInt32(n))
  }

  function EncodeCodeChunk(code: seq<byte>): (s: seq<byte>)
    requires |code| < TWO_32
  {
    EncodeLength(|code|) + code
  }

  /** Reading a stored body gives back exactly its bytes and nothing after
      them. */
  lemma CodeChunkRoundTrip(code: seq<byte>, c: Chunk)
    requires |code| < TWO_32 && HoldsAt(c, EncodeCodeChunk(code))
    ensures ReadCodeChunk(c) == Ok((code, Skip(c, |EncodeCodeChunk(code)|)))
  {
    var len := EncodeLength(|code|);
    HoldsAtSplit(c, len, code);
    D.IntRoundTrip(D.UINT32_1, ToInt32(|code|), c);
    Uint32RoundTrip(|code|);
    ReadHeld(Skip(c, |len|), code);
    SkipConcat(c, len, code);
  }

  /** A length the chunk cannot pay for is fatal before any bytecode is
      taken. */
  lemma OverlongBodyFails(n: nat, c: Chunk)
    requires n < TWO_32 && HoldsAt(c, EncodeLength(n))
    requires c.bytesRead + 6 + n > c.size
    ensures ReadCodeChunk(c) == Fail(Overread)
  {
    D.IntRoundTrip(D.UINT32_1, ToInt32(n), c);
    Uint32RoundTrip(n);
  }
}
