/** A subfile is a RIFF container: the preamble checks and the chunk walk.
    Chunks start on even offsets, the word alignment of the RIFF chapter of
    the IBM/Microsoft Multimedia Programming Interface and Data
    Specifications 1.0. A chunk header is a four-character code read
    big-endian followed by a 32-bit little-endian payload size. */
module Subfiles {
  import opened Bytes
  import opened Results
  import opened Chunks

  // `MKTAG` values of the four-character codes the preamble checks.
  const RIFF: nat := 0x5249_4646
  const RATE: nat := 0x7261_7465
  const DATA: nat := 0x6461_7461

  const HEADER_SIZE: nat := 8

  /** The subfile's byte stream and its cursor. */
  datatype Stream = Stream(data: seq<byte>, pos: nat)

  /** A constructed subfile: the `rate` value, the current chunk (the LIST
      chunk after construction) and the stream, positioned after the `data`
      code. */
  datatype Subfile = Subfile(rate: nat, current: Chunk, stream: Stream)

  /** The offset `nextChunk` reads a header from: odd positions skip one byte. */
  function Align(pos: nat): (r: nat)
    ensures r % 2 == 0
    ensures r == pos || r == pos + 1
    ensures pos % 2 == 0 <==> r == pos
  {
    if pos % 2 == 1 then pos + 1 else pos
  }

  /** `nextChunk`: align, then read an 8-byte chunk header. The new chunk
      shares the stream and has charged nothing yet. */
  function NextChunk(s: Stream): (r: Result<(Chunk, Stream)>)
    ensures r.Ok? <==> Align(s.pos) + HEADER_SIZE <= |s.data|
    ensures r.Ok? ==>
      var (c, s') := r.value;
      var at := Align(s.pos);
      && c.id == U32BE(s.data[at..at + 4])
      && c.size == U32LE(s.data[at + 4..at + 8])
      && c.bytesRead == 0 && c.data == s.data && c.pos == s'.pos
      && s' == Stream(s.data, at + HEADER_SIZE)
  {
    var at := Align(s.pos);
    if at + HEADER_SIZE > |s.data| then Fail(EndOfStream)
    else
      var id := U32BE(s.data[at..at + 4]);
      var size := U32LE(s.data[at + 4..at + 8]);
      Ok((Chunk(id, size, 0, s.data, at + HEADER_SIZE), Stream(s.data, at + HEADER_SIZE)))
  }

  /** An uncharged read from the stream itself (`_stream->readUint32LE()`). */
  function StreamU32LE(s: Stream): (r: Result<(nat, Stream)>)
    ensures r.Ok? <==> s.pos + 4 <= |s.data|
    ensures r.Ok? ==> r.value == (U32LE(s.data[s.pos..s.pos + 4]), Stream(s.data, s.pos + 4))
  {
    if s.pos + 4 > |s.data| then Fail(EndOfStream)
    else Ok((U32LE(s.data[s.pos..s.pos + 4]), Stream(s.data, s.pos + 4)))
  }

  function StreamU32BE(s: Stream): (r: Result<(nat, Stream)>)
    ensures r.Ok? <==> s.pos + 4 <= |s.data|
    ensures r.Ok? ==> r.value == (U32BE(s.data[s.pos..s.pos + 4]), Stream(s.data, s.pos + 4))
  {
    if s.pos + 4 > |s.data| then Fail(EndOfStream)
    else Ok((U32BE(s.data[s.pos..s.pos + 4]), Stream(s.data, s.pos + 4)))
  }

  function StreamSkip(s: Stream, n: nat): (r: Result<Stream>)
    ensures r.Ok? <==> s.pos + n <= |s.data|
    ensures r.Ok? ==> r.value == Stream(s.data, s.pos + n)
  {
    if s.pos + n > |s.data| then Fail(EndOfStream) else Ok(Stream(s.data, s.pos + n))
  }

  /** The four-character code at a fixed offset. */
  function CodeAt(data: seq<byte>, at: nat): nat
    requires at + 4 <= |data|
  {
    U32BE(data[at..at + 4])
  }

  /** What the preamble demands, by offset: every header in it is at an even
      offset, so nothing is skipped for alignment and the layout is fixed. */
  predicate WellFormed(data: seq<byte>) {
    && |data| >= 36
    && CodeAt(data, 0) == RIFF
    && CodeAt(data, 12) == RATE
    && CodeAt(data, 32) == DATA
  }

  /** The `Subfile` constructor: RIFF header, 4 skipped bytes, the rate chunk
      and its value, the LIST header, and the `data` code. It accepts exactly
      the well-formed preambles, takes the rate from offset 20, leaves the
      stream at offset 36, and each failure names the first check that
      fails. The rate and data errors carry the id of the chunk read before
      the failing one, which is what their messages print. */
  function Open(data: seq<byte>): (r: Result<Subfile>)
    ensures r.Ok? <==> WellFormed(data)
    ensures r.Ok? ==>
      && r.value.rate == U32LE(data[20..24])
      && r.value.stream == Stream(data, 36)
      && r.value.current.id == CodeAt(data, 24)
    ensures |data| >= 36 && CodeAt(data, 0) != RIFF ==> r == Fail(NotRiff(CodeAt(data, 0)))
    ensures |data| >= 36 && CodeAt(data, 0) == RIFF && CodeAt(data, 12) != RATE ==>
      r == Fail(NotRate(CodeAt(data, 0)))
    ensures |data| >= 36 && CodeAt(data, 0) == RIFF && CodeAt(data, 12) == RATE && CodeAt(data, 32) != DATA ==>
      r == Fail(NotData(CodeAt(data, 12)))
  {
    var root :- NextChunk(Stream(data, 0));
    if root.0.id != RIFF then Fail(NotRiff(root.0.id))
    else
      var afterForm :- StreamSkip(root.1, 4);
      var rateChunk :- NextChunk(afterForm);
      if rateChunk.0.id != RATE then Fail(NotRate(root.0.id))
      else
        var rate :- StreamU32LE(rateChunk.1);
        var list :- NextChunk(rate.1);
        var tag :- StreamU32BE(list.1);
        if tag.0 != DATA then Fail(NotData(rateChunk.0.id))
        else Ok(Subfile(rate.0, list.0, tag.1))
  }

  /** A preamble built from its parts. */
  function Preamble(riffSize: nat, form: seq<byte>, rateSize: nat, rate: nat, listSize: nat): (s: seq<byte>)
    requires riffSize < TWO_32 && rateSize < TWO_32 && rate < TWO_32 && listSize < TWO_32
    requires |form| == 4
    ensures |s| == 36
  {
    Be32(RIFF) + Le32(riffSize) + form + Be32(RATE) + Le32(rateSize) + Le32(rate) +
    Be32(0x4c49_5354) + Le32(listSize) + Be32(DATA)
  }

  /** Opening a built preamble recovers its rate, whatever follows it. */
  lemma PreambleOpens(riffSize: nat, form: seq<byte>, rateSize: nat, rate: nat, listSize: nat, rest: seq<byte>)
    requires riffSize < TWO_32 && rateSize < TWO_32 && rate < TWO_32 && listSize < TWO_32
    requires |form| == 4
    ensures Open(Preamble(riffSize, form, rateSize, rate, listSize) + rest).Ok?
    ensures Open(Preamble(riffSize, form, rateSize, rate, listSize) + rest).value.rate == rate
  {
    var data := Preamble(riffSize, form, rateSize, rate, listSize) + rest;
    assert data[0..4] == Be32(RIFF);
    assert data[12..16] == Be32(RATE);
    assert data[20..24] == Le32(rate);
    assert data[32..36] == Be32(DATA);
    Be32RoundTrip(RIFF);
    Be32RoundTrip(RATE);
    Be32RoundTrip(DATA);
    U32RoundTrip(rate);
  }
}
