/** The bounded reader: a RIFF chunk charges every read against its declared
    size before the shared stream is touched, and an overread is fatal. */
module Chunks {
  import opened Bytes
  import opened Results

  /** A chunk whose header declared `id` and `size`, with `bytesRead` payload
      bytes charged so far. `data` and `pos` are the underlying subfile
      stream, which the chunk shares with its subfile. */
  datatype Chunk = Chunk(id: nat, size: nat, bytesRead: nat, data: seq<byte>, pos: nat)

  /** Payload bytes the chunk still allows. */
  function Budget(c: Chunk): nat {
    if c.bytesRead <= c.size then c.size - c.bytesRead else 0
  }

  /** `c'` is `c` after some forward reads: same chunk and stream, and the
      stream advanced by exactly the bytes charged. */
  predicate Advanced(c: Chunk, c': Chunk) {
    && c'.id == c.id
    && c'.size == c.size
    && c'.data == c.data
    && c.pos <= c'.pos
    && c'.bytesRead - c.bytesRead == c'.pos - c.pos
  }

  lemma AdvancedTransitive(a: Chunk, b: Chunk, c: Chunk)
    requires Advanced(a, b) && Advanced(b, c)
    ensures Advanced(a, c)
  {
  }

  /** `incBytesRead` exactly as written, on 32-bit unsigned fields: the sum
      wraps before it is compared with the size. */
  function IncBytesReadAsWritten(bytesRead: nat, size: nat, inc: nat): (r: Result<nat>)
    requires bytesRead < TWO_32 && size < TWO_32 && inc < TWO_32
    ensures r.Ok? ==> r.value <= size
    ensures r.Fail? ==> r.error == Overread
    // A charge the count can hold is judged as intended...
    ensures bytesRead + inc < TWO_32 ==> (r.Ok? <==> bytesRead + inc <= size)
    // ...but a charge past 2^32 passes whenever its wrapped remainder fits,
    // although the true total always exceeds the size.
    ensures bytesRead + inc >= TWO_32 ==> bytesRead + inc > size && (r.Ok? <==> bytesRead + inc - TWO_32 <= size)
  {
    var sum := (bytesRead + inc) % TWO_32;
    if sum > size then Fail(Overread) else Ok(sum)
  }

  /** The wrap lets an overlong request through the guard: a read of
      0xFFFFFFFF bytes from a 10-byte chunk after 1 byte is accepted, and the
      charged count drops from 1 to 0, so the stream read that follows is
      not bounded by the chunk. */
  lemma OverlongReadPassesGuard()
    ensures 1 + 0xFFFF_FFFF > 10
    ensures IncBytesReadAsWritten(1, 10, 0xFFFF_FFFF) == Ok(0)
  {
  }

  /** `incBytesRead` as intended: the charge is compared without wrap-around. */
  function IncBytesRead(c: Chunk, inc: nat): (r: Result<Chunk>)
    ensures r.Ok? <==> c.bytesRead + inc <= c.size
    ensures r.Fail? ==> r.error == Overread
    ensures r.Ok? ==> r.value.bytesRead <= r.value.size
    ensures r.Ok? ==> r.value.bytesRead - c.bytesRead == inc
    ensures r.Ok? ==> r.value == c.(bytesRead := r.value.bytesRead)
  {
    if c.bytesRead + inc > c.size then Fail(Overread)
    else Ok(c.(bytesRead := c.bytesRead + inc))
  }

  /** `read(dataPtr, n)`: charge first, then take `n` bytes from the stream. */
  function Read(c: Chunk, n: nat): (r: Result<(seq<byte>, Chunk)>)
    ensures c.bytesRead + n > c.size ==> r == Fail(Overread)
    ensures r.Ok? <==> c.bytesRead + n <= c.size && c.pos + n <= |c.data|
    ensures r.Ok? ==> r.value.0 == c.data[c.pos..c.pos + n]
    ensures r.Ok? ==> Advanced(c, r.value.1) && r.value.1.pos == c.pos + n
    ensures r.Ok? ==> r.value.1.bytesRead <= r.value.1.size
  {
    var charged :- IncBytesRead(c, n);
    if c.pos + n > |c.data| then Fail(EndOfStream)
    else Ok((c.data[c.pos..c.pos + n], charged.(pos := c.pos + n)))
  }

  /** Two consecutive reads are one read of the combined length. */
  lemma ReadSplits(c: Chunk, a: nat, b: nat)
    requires Read(c, a + b).Ok?
    ensures Read(c, a).Ok?
    ensures Read(Read(c, a).value.1, b).Ok?
    ensures Read(c, a).value.0 + Read(Read(c, a).value.1, b).value.0 == Read(c, a + b).value.0
    ensures Read(Read(c, a).value.1, b).value.1 == Read(c, a + b).value.1
  {
    var first := Read(c, a).value;
    assert c.data[c.pos..c.pos + a] + c.data[c.pos + a..c.pos + a + b] == c.data[c.pos..c.pos + a + b];
  }

  /** `hasReadAll`, with the 32-bit subtraction of the source. */
  function HasReadAll(c: Chunk): (r: bool)
    requires c.size < TWO_32 && c.bytesRead < TWO_32
    ensures r <==> c.bytesRead == c.size
  {
    var diff := c.size - c.bytesRead;
    SmallDifferenceWraps(diff);
    diff % TWO_32 == 0
  }

  lemma SmallDifferenceWraps(d: int)
    requires -(TWO_32 as int) < d < TWO_32 as int
    ensures d % TWO_32 == 0 <==> d == 0
  {
    if d > 0 {
      assert d % TWO_32 == d;
    } else if d < 0 {
      assert d % TWO_32 == d + TWO_32;
    }
  }

  function ReadU8(c: Chunk): (r: Result<(nat, Chunk)>)
    ensures r.Ok? <==> Read(c, 1).Ok?
    ensures r.Ok? ==> r.value.0 == c.data[c.pos] as nat && r.value.1 == Read(c, 1).value.1
  {
    var p :- Read(c, 1);
    Ok((p.0[0] as nat, p.1))
  }

  function ReadU16LE(c: Chunk): (r: Result<(nat, Chunk)>)
    ensures r.Ok? <==> Read(c, 2).Ok?
    ensures r.Ok? ==> r.value.0 == U16LE(c.data[c.pos..c.pos + 2]) && r.value.1 == Read(c, 2).value.1
  {
    var p :- Read(c, 2);
    Ok((U16LE(p.0), p.1))
  }

  function ReadS16LE(c: Chunk): (r: Result<(int, Chunk)>)
    ensures r.Ok? <==> Read(c, 2).Ok?
    ensures r.Ok? ==> r.value.0 == S16LE(c.data[c.pos..c.pos + 2]) && r.value.1 == Read(c, 2).value.1
  {
    var p :- Read(c, 2);
    Ok((S16LE(p.0), p.1))
  }

  function ReadU32LE(c: Chunk): (r: Result<(nat, Chunk)>)
    ensures r.Ok? <==> Read(c, 4).Ok?
    ensures r.Ok? ==> r.value.0 == U32LE(c.data[c.pos..c.pos + 4]) && r.value.1 == Read(c, 4).value.1
  {
    var p :- Read(c, 4);
    Ok((U32LE(p.0), p.1))
  }

  /** `c` after `n` payload bytes have been read and charged. */
  function Skip(c: Chunk, n: nat): Chunk {
    c.(pos := c.pos + n, bytesRead := c.bytesRead + n)
  }

  /** The stream at the chunk's position starts with `bytes`, and the chunk
      still allows all of them to be read. */
  predicate HoldsAt(c: Chunk, bytes: seq<byte>) {
    && c.pos + |bytes| <= |c.data|
    && c.data[c.pos..c.pos + |bytes|] == bytes
    && c.bytesRead + |bytes| <= c.size
  }

  lemma ReadHeld(c: Chunk, bytes: seq<byte>)
    requires HoldsAt(c, bytes)
    ensures Read(c, |bytes|) == Ok((bytes, Skip(c, |bytes|)))
  {
  }

  lemma HoldsAtSplit(c: Chunk, a: seq<byte>, b: seq<byte>)
    requires HoldsAt(c, a + b)
    ensures HoldsAt(c, a)
    ensures HoldsAt(Skip(c, |a|), b)
  {
    assert c.data[c.pos..c.pos + |a|] == (a + b)[..|a|];
    assert c.data[c.pos + |a|..c.pos + |a| + |b|] == (a + b)[|a|..];
  }

  lemma SkipSkip(c: Chunk, a: nat, b: nat)
    ensures Skip(Skip(c, a), b) == Skip(c, a + b)
  {
  }

  /** Skipping two byte strings in turn skips their concatenation. */
  lemma SkipConcat(c: Chunk, a: seq<byte>, b: seq<byte>)
    ensures Skip(Skip(c, |a|), |b|) == Skip(c, |a + b|)
  {
  }
}
