/** A script function as stored in a context: the file it belongs to, its
    id, and its body. The id is registered 19900 above the stored value. */
module Functions {
  import opened Bytes
  import opened Results
  import opened Chunks
  import D = Datums
  import CodeChunks

  const ID_OFFSET: int := 19900

  /** `id` is the registered id, as kept in the unsigned `_id` field. */
  datatype Function = Function(fileId: int, id: nat, code: seq<byte>)

  /** The registered id of a stored id: `u.i + 19900` kept in 32 bits. */
  function RegisteredId(raw: int): (r: nat)
    ensures r < TWO_32
    ensures (r - raw - ID_OFFSET) % TWO_32 == 0
  {
    ToUint32(raw + ID_OFFSET)
  }

  /** Distinct stored ids register distinct functions: the offset is a
      bijection on 32-bit values. */
  lemma RegistrationInjective(a: int, b: int)
    requires IsI32(a) && IsI32(b)
    ensures RegisteredId(a) == RegisteredId(b) <==> a == b
  {
  }

  /** The stored value a registered id came from. */
  function StoredId(id: nat): (raw: int)
    requires id < TWO_32
    ensures IsI32(raw)
  {
    ToInt32(ToUint32(id - ID_OFFSET))
  }

  lemma StoredIdRegisters(id: nat)
    requires id < TWO_32
    ensures RegisteredId(StoredId(id)) == id
  {
    var raw := StoredId(id);
    var u := ToUint32(id - ID_OFFSET);
    assert (raw - u) % TWO_32 == 0;
    assert ((raw + ID_OFFSET) - id) % TWO_32 == 0 by {
      assert (raw + ID_OFFSET) - id == (raw - u) + (u - (id - ID_OFFSET));
    }
  }

  /** The `Function` constructor: the file id, then the stored id, each a
      generic datum read for its integer, then the body. */
  function ReadFunction(c: Chunk): (r: Result<(Function, Chunk)>)
    ensures r.Ok? ==> Advanced(c, r.value.1) && Budget(r.value.1) < Budget(c)
    ensures r.Ok? ==> D.ReadInt(c).Ok? && r.value.0.fileId == D.ReadInt(c).value.0
    ensures r.Ok? ==>
      var raw := D.ReadInt(D.ReadInt(c).value.1);
      && raw.Ok?
      && r.value.0.id == RegisteredId(raw.value.0)
      && CodeChunks.ReadCodeChunk(raw.value.1) == Ok((r.value.0.code, r.value.1))
  {
    var fileId :- D.ReadInt(c);
    var raw :- D.ReadInt(fileId.1);
    var code :- CodeChunks.ReadCodeChunk(raw.1);
    AdvancedTransitive(c, fileId.1, raw.1);
    AdvancedTransitive(c, raw.1, code.1);
    Ok((Function(fileId.0, RegisteredId(raw.0), code.0), code.1))
  }

  predicate Valid(f: Function) {
    IsI32(f.fileId) && f.id < TWO_32 && |f.code| < TWO_32
  }

  /** Both ids as UINT32_1 datums, then the body. */
  function Encode(f: Function): (s: seq<byte>)
    requires Valid(f)
  {
    D.EncodeInt(D.UINT32_1, f.fileId) + D.EncodeInt(D.UINT32_1, StoredId(f.id)) +
    CodeChunks.EncodeCodeChunk(f.code)
  }

  lemma ReadStep(c: Chunk, fileId: int, c1: Chunk, raw: int, c2: Chunk, code: seq<byte>, c3: Chunk)
    requires D.ReadDatum(c) == Ok((D.Datum(D.UINT32_1, D.IntPayload(fileId)), c1))
    requires D.ReadDatum(c1) == Ok((D.Datum(D.UINT32_1, D.IntPayload(raw)), c2))
    requires CodeChunks.ReadCodeChunk(c2) == Ok((code, c3))
    ensures ReadFunction(c) == Ok((Function(fileId, RegisteredId(raw), code), c3))
  {
  }

  /** Reading a stored function gives it back, registered under the same id,
      and consumes exactly its bytes. */
  lemma RoundTrip(f: Function, c: Chunk)
    requires Valid(f) && HoldsAt(c, Encode(f))
    ensures ReadFunction(c) == Ok((f, Skip(c, |Encode(f)|)))
  {
    var fileBytes := D.EncodeInt(D.UINT32_1, f.fileId);
    var idBytes := D.EncodeInt(D.UINT32_1, StoredId(f.id));
    var codeBytes := CodeChunks.EncodeCodeChunk(f.code);
    HoldsAtSplit(c, fileBytes + idBytes, codeBytes);
    HoldsAtSplit(c, fileBytes, idBytes);
    var c1 := Skip(c, |fileBytes|);
    var c2 := Skip(c1, |idBytes|);
    SkipConcat(c, fileBytes, idBytes);
    D.IntRoundTrip(D.UINT32_1, f.fileId, c);
    D.IntRoundTrip(D.UINT32_1, StoredId(f.id), c1);
    CodeChunks.CodeChunkRoundTrip(f.code, c2);
    StoredIdRegisters(f.id);
    ReadStep(c, f.fileId, c1, StoredId(f.id), c2, f.code, Skip(c2, |codeBytes|));
    SkipConcat(c, fileBytes + idBytes, codeBytes);
  }
}
