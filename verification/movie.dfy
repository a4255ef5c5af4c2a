/** The movie reader. A movie subfile starts with a metadata chunk (the ROOT
    section: a frameset count, a data offset and one length per frameset);
    then each frameset is a run of animation chunks holding frames and
    footers, an optional audio chunk, and a 4-byte header chunk. Stills come
    from separate chunks. Decoding a frame's bitmap header and its pixels is
    done by the bitmap code, which is not part of this model: those two steps
    are parameters. */
module Movies {
  import opened Bytes
  import opened Results
  import opened Chunks
  import D = Datums
  import S = Subfiles
  import H = AssetHeaders

  // `Movie::SectionType` codes.
  const ROOT: nat := 0x06a8
  const FRAME: nat := 0x06a9
  const FOOTER: nat := 0x06aa

  /** The three chunk ids a movie's asset header supplies: the per-frameset
      header chunk, the audio chunk and the animation chunks. */
  datatype Refs = Refs(header: nat, audio: nat, animation: nat)

  /** The asset header's references: the movie header chunk id, the audio
      id and the video (animation) id. */
  function RefsOf(r: H.ChunkRef): Refs {
    Refs(r.header, r.audio, r.video)
  }

  /** The bitmap header and the bitmap pixels of a frame, read by code
      outside this model. */
  datatype Decoders = Decoders(bitmapHeader: Chunk -> Result<Chunk>, bitmap: Chunk -> Result<Chunk>)

  /** Everything `readSubfile` takes from outside the chunk it reads: the
      references and sound encoding from the asset header, the engine
      generation, and the bitmap decoders. */
  datatype Config = Config(refs: Refs, encoding: nat, firstGeneration: bool, decoders: Decoders)

  /** The fields of `MovieFrameHeader` the movie reader sets itself. */
  datatype Frame = Frame(index: nat, keyframeEnd: nat)

  /** `MovieFrameFooter`, whose fields and their order depend on the engine
      generation. */
  datatype Footer =
    | FirstFooter(unk1: nat, unk2: nat, start: nat, end: nat, left: nat, top: nat, unk3: nat, unk4: nat,
                  index: nat)
    | LaterFooter(unk1: nat, unk2: nat, unk4: nat, start: nat, end: nat, left: nat, top: nat, unk5: nat,
                  unk6: nat, unk7: nat, index: nat, unk8: nat, unk9: nat)

  /** What one section of a frame chunk holds. */
  datatype Item = FrameItem(frame: Frame) | FooterItem(footer: Footer)

  /** A read movie: the metadata, and the frames, stills, footers and sound
      chunks in the order they were read. */
  datatype Movie = Movie(dataStartOffset: nat, chunkLengths: seq<nat>, frames: seq<Frame>, stills: seq<Frame>,
                         footers: seq<Footer>, sounds: seq<seq<byte>>)

  // ---------------------------------------------------------------------------
  // Footers.

  /** The number of datums a footer takes. */
  function FooterWidth(firstGeneration: bool): nat {
    if firstGeneration then 9 else 13
  }

  /** `n` generic datums, each read for its value as an unsigned 32-bit
      field. */
  function ReadUints(c: Chunk, n: nat): (r: Result<(seq<nat>, Chunk)>)
    ensures r.Ok? ==> |r.value.0| == n && Advanced(c, r.value.1)
    ensures r.Ok? ==> forall i :: 0 <= i < n ==> r.value.0[i] < TWO_32
    decreases n
  {
    if n == 0 then Ok(([], c))
    else
      var first :- D.ReadInt(c);
      var others :- ReadUints(first.1, n - 1);
      AdvancedTransitive(c, first.1, others.1);
      Ok(([ToUint32(first.0)] + others.0, others.1))
  }

  /** The footer whose fields were read in the order `fs`. */
  function FooterOf(firstGeneration: bool, fs: seq<nat>): (f: Footer)
    requires |fs| == FooterWidth(firstGeneration)
  {
    if firstGeneration then FirstFooter(fs[0], fs[1], fs[2], fs[3], fs[4], fs[5], fs[6], fs[7], fs[8])
    else LaterFooter(fs[0], fs[1], fs[2], fs[3], fs[4], fs[5], fs[6], fs[7], fs[8], fs[9], fs[10], fs[11], fs[12])
  }

  /** A footer's fields in the order the reader reads them. */
  function FooterFields(f: Footer): (fs: seq<nat>)
    ensures |fs| == FooterWidth(f.FirstFooter?)
  {
    match f
    case FirstFooter(unk1, unk2, start, end, left, top, unk3, unk4, index) =>
      [unk1, unk2, start, end, left, top, unk3, unk4, index]
    case LaterFooter(unk1, unk2, unk4, start, end, left, top, unk5, unk6, unk7, index, unk8, unk9) =>
      [unk1, unk2, unk4, start, end, left, top, unk5, unk6, unk7, index, unk8, unk9]
  }

  /** A footer is recovered from its fields, and a field sequence from its
      footer. */
  lemma FooterFieldsInverse(f: Footer, firstGeneration: bool, fs: seq<nat>)
    requires |fs| == FooterWidth(firstGeneration)
    ensures FooterOf(f.FirstFooter?, FooterFields(f)) == f
    ensures FooterFields(FooterOf(firstGeneration, fs)) == fs
    ensures FooterOf(firstGeneration, fs).FirstFooter? == firstGeneration
  {
  }

  /** `MovieFrameFooter(chunk)`: 9 datums in the first generation, 13 later. */
  function ReadFooter(firstGeneration: bool, c: Chunk): (r: Result<(Footer, Chunk)>)
    ensures r.Ok? ==> r.value.0.FirstFooter? == firstGeneration && Advanced(c, r.value.1)
    ensures r.Ok? <==> ReadUints(c, FooterWidth(firstGeneration)).Ok?
    ensures r.Ok? ==> FooterFields(r.value.0) == ReadUints(c, FooterWidth(firstGeneration)).value.0
  {
    var fs :- ReadUints(c, FooterWidth(firstGeneration));
    FooterFieldsInverse(FirstFooter(0, 0, 0, 0, 0, 0, 0, 0, 0), firstGeneration, fs.0);
    Ok((FooterOf(firstGeneration, fs.0), fs.1))
  }

  /** The bytes of `fs` as UINT32_1 datums. */
  function EncodeUints(fs: seq<nat>): seq<byte>
    requires forall i :: 0 <= i < |fs| ==> fs[i] < TWO_32
  {
    if |fs| == 0 then []
    else D.EncodeInt(D.UINT32_1, ToInt32(fs[0])) + EncodeUints(fs[1..])
  }

  lemma {:induction false} UintsRoundTrip(fs: seq<nat>, c: Chunk)
    requires forall i :: 0 <= i < |fs| ==> fs[i] < TWO_32
    requires HoldsAt(c, EncodeUints(fs))
    ensures ReadUints(c, |fs|) == Ok((fs, Skip(c, |EncodeUints(fs)|)))
  {
    if |fs| > 0 {
      var head := D.EncodeInt(D.UINT32_1, ToInt32(fs[0]));
      var tail := EncodeUints(fs[1..]);
      HoldsAtSplit(c, head, tail);
      D.IntRoundTrip(D.UINT32_1, ToInt32(fs[0]), c);
      Uint32RoundTrip(fs[0]);
      UintsRoundTrip(fs[1..], Skip(c, |head|));
      SkipConcat(c, head, tail);
      assert [fs[0]] + fs[1..] == fs;
    }
  }

  function EncodeFooter(f: Footer): seq<byte>
    requires forall i :: 0 <= i < |FooterFields(f)| ==> FooterFields(f)[i] < TWO_32
  {
    EncodeUints(FooterFields(f))
  }

  /** A footer written with its generation's layout reads back unchanged. */
  lemma FooterRoundTrip(f: Footer, c: Chunk)
    requires forall i :: 0 <= i < |FooterFields(f)| ==> FooterFields(f)[i] < TWO_32
    requires HoldsAt(c, EncodeFooter(f))
    ensures ReadFooter(f.FirstFooter?, c) == Ok((f, Skip(c, |EncodeFooter(f)|)))
  {
    UintsRoundTrip(FooterFields(f), c);
    FooterFieldsInverse(f, f.FirstFooter?, FooterFields(f));
  }

  // ---------------------------------------------------------------------------
  // Frames and sections.

  /** A step of the bitmap code. A step that moved the chunk backwards, or
      to another chunk, is rejected, so every read of the model moves
      forward. */
  function External(step: Chunk -> Result<Chunk>, c: Chunk): (r: Result<Chunk>)
    ensures r.Ok? ==> Advanced(c, r.value)
  {
    var c' :- step(c);
    if Advanced(c, c') then Ok(c') else Fail(ExternalDecoder)
  }

  /** `MovieFrameHeader(chunk)` and `MovieFrame(chunk, header)`: the bitmap
      header, the index and the keyframe end, then the bitmap. */
  function ReadFrame(dec: Decoders, c: Chunk): (r: Result<(Frame, Chunk)>)
    ensures r.Ok? ==> Advanced(c, r.value.1)
  {
    var c1 :- External(dec.bitmapHeader, c);
    var index :- D.ReadInt(c1);
    var keyframeEnd :- D.ReadInt(index.1);
    var c2 :- External(dec.bitmap, keyframeEnd.1);
    AdvancedTransitive(c, c1, index.1);
    AdvancedTransitive(c, index.1, keyframeEnd.1);
    AdvancedTransitive(c, keyframeEnd.1, c2);
    Ok((Frame(ToUint32(index.0), ToUint32(keyframeEnd.0)), c2))
  }

  /** The section type, then a frame for FRAME or a footer for FOOTER; any
      other type is fatal. */
  function ReadItem(cfg: Config, c: Chunk): (r: Result<(Item, Chunk)>)
    ensures r.Ok? ==> Advanced(c, r.value.1)
    ensures r.Ok? ==> D.ReadInt(c).Ok?
    ensures D.ReadInt(c).Ok? && ToUint32(D.ReadInt(c).value.0) !in {FRAME, FOOTER} ==>
      r == Fail(UnknownMovieSection(ToUint32(D.ReadInt(c).value.0)))
    ensures r.Ok? && r.value.0.FrameItem? ==> ToUint32(D.ReadInt(c).value.0) == FRAME
    ensures r.Ok? && r.value.0.FooterItem? ==>
      ToUint32(D.ReadInt(c).value.0) == FOOTER && r.value.0.footer.FirstFooter? == cfg.firstGeneration
  {
    var section :- D.ReadInt(c);
    var tag := ToUint32(section.0);
    if tag == FRAME then
      var f :- ReadFrame(cfg.decoders, section.1);
      AdvancedTransitive(c, section.1, f.1);
      Ok((FrameItem(f.0), f.1))
    else if tag == FOOTER then
      var f :- ReadFooter(cfg.firstGeneration, section.1);
      AdvancedTransitive(c, section.1, f.1);
      Ok((FooterItem(f.0), f.1))
    else Fail(UnknownMovieSection(tag))
  }

  /** `readStill`: a frame goes to the stills, a footer to the footers. */
  function ReadStill(m: Movie, cfg: Config, c: Chunk): (r: Result<(Movie, Chunk)>)
    ensures r.Ok? <==> ReadItem(cfg, c).Ok?
    ensures r.Ok? ==> Advanced(c, r.value.1)
    ensures r.Ok? && ReadItem(cfg, c).value.0.FrameItem? ==>
      r.value.0 == m.(stills := m.stills + [ReadItem(cfg, c).value.0.frame])
    ensures r.Ok? && ReadItem(cfg, c).value.0.FooterItem? ==>
      r.value.0 == m.(footers := m.footers + [ReadItem(cfg, c).value.0.footer])
  {
    var item :- ReadItem(cfg, c);
    match item.0
    case FrameItem(f) => Ok((m.(stills := m.stills + [f]), item.1))
    case FooterItem(f) => Ok((m.(footers := m.footers + [f]), item.1))
  }

  /** A FOOTER section written in the engine's layout is read by
      `readStill` into the footers, and nothing else changes. */
  lemma StillFooterRoundTrip(m: Movie, cfg: Config, c: Chunk, f: Footer)
    requires f.FirstFooter? == cfg.firstGeneration
    requires forall i :: 0 <= i < |FooterFields(f)| ==> FooterFields(f)[i] < TWO_32
    requires HoldsAt(c, EncodeUints([FOOTER]) + EncodeFooter(f))
    ensures ReadStill(m, cfg, c) == Ok((m.(footers := m.footers + [f]), Skip(c, |EncodeUints([FOOTER]) + EncodeFooter(f)|)))
  {
    var tag := EncodeUints([FOOTER]);
    assert tag == D.EncodeInt(D.UINT32_1, ToInt32(FOOTER));
    hide ReadStill, ReadItem, ReadFrame, ReadFooter, ReadUints, EncodeUints;
    HoldsAtSplit(c, tag, EncodeFooter(f));
    D.IntRoundTrip(D.UINT32_1, ToInt32(FOOTER), c);
    Uint32RoundTrip(FOOTER);
    FooterRoundTrip(f, Skip(c, |tag|));
    SkipSkip(c, |tag|, |EncodeFooter(f)|);
    StillFooter(m, cfg, c, f, Skip(c, |tag| + |EncodeFooter(f)|));
  }

  /** `readStill` on a FOOTER section whose footer reads. */
  lemma StillFooter(m: Movie, cfg: Config, c: Chunk, f: Footer, e: Chunk)
    requires D.ReadInt(c).Ok? && ToUint32(D.ReadInt(c).value.0) == FOOTER
    requires ReadFooter(cfg.firstGeneration, D.ReadInt(c).value.1) == Ok((f, e))
    ensures ReadStill(m, cfg, c) == Ok((m.(footers := m.footers + [f]), e))
  {
    hide ReadFooter, ReadFrame, D.ReadInt;
  }

  /** In a frameset, a frame goes to the animation frames, a footer to the
      footers. */
  function AddAnimation(m: Movie, item: Item): Movie {
    match item
    case FrameItem(f) => m.(frames := m.frames + [f])
    case FooterItem(f) => m.(footers := m.footers + [f])
  }

  // ---------------------------------------------------------------------------
  // Framesets.

  /** The subfile stream, positioned where the chunk's reads have left it. */
  function StreamOf(c: Chunk): S.Stream {
    S.Stream(c.data, c.pos)
  }

  /** The stream bytes after a chunk's cursor. */
  function Remaining(c: Chunk): nat {
    if c.pos <= |c.data| then |c.data| - c.pos else 0
  }

  /** `nextChunk` from where the chunk's reads stopped. */
  function Next(c: Chunk): (r: Result<Chunk>)
    ensures r.Ok? ==> r.value.data == c.data && r.value.bytesRead == 0
    ensures r.Ok? ==> c.pos < r.value.pos <= |c.data| && Remaining(r.value) < Remaining(c)
  {
    var n :- S.NextChunk(StreamOf(c));
    Ok(n.0)
  }

  /** `m'` is `m` with frames and footers appended and nothing else
      changed. */
  predicate Appended(m: Movie, m': Movie) {
    && m'.dataStartOffset == m.dataStartOffset && m'.chunkLengths == m.chunkLengths
    && m'.stills == m.stills && m'.sounds == m.sounds
    && |m.frames| <= |m'.frames| && m'.frames[..|m.frames|] == m.frames
    && |m.footers| <= |m'.footers| && m'.footers[..|m.footers|] == m.footers
  }

  lemma AppendedTransitive(m1: Movie, m2: Movie, m3: Movie)
    requires Appended(m1, m2) && Appended(m2, m3)
    ensures Appended(m1, m3)
  {
    assert m3.frames[..|m1.frames|] == m3.frames[..|m2.frames|][..|m1.frames|];
    assert m3.footers[..|m1.footers|] == m3.footers[..|m2.footers|][..|m1.footers|];
  }

  /** One section of an animation chunk, then `nextChunk`. */
  function AnimationStep(m: Movie, cfg: Config, c: Chunk): (r: Result<(Movie, Chunk)>)
    ensures r.Ok? <==> ReadItem(cfg, c).Ok? && Next(ReadItem(cfg, c).value.1).Ok?
    ensures r.Ok? ==> r.value == (AddAnimation(m, ReadItem(cfg, c).value.0), Next(ReadItem(cfg, c).value.1).value)
    ensures r.Ok? ==> Appended(m, r.value.0) && r.value.1.data == c.data && Remaining(r.value.1) < Remaining(c)
  {
    var item :- ReadItem(cfg, c);
    var next :- Next(item.1);
    assert AddAnimation(m, item.0).frames[..|m.frames|] == m.frames;
    assert AddAnimation(m, item.0).footers[..|m.footers|] == m.footers;
    Ok((AddAnimation(m, item.0), next))
  }

  /** The animation loop: while the current chunk has the animation id, its
      section is read and the next chunk fetched; the first chunk of another
      id is returned unread. */
  function Animation(m: Movie, cfg: Config, c: Chunk): (r: Result<(Movie, Chunk)>)
    ensures r.Ok? ==> r.value.1.id != cfg.refs.animation && r.value.1.data == c.data
    ensures r.Ok? ==> Appended(m, r.value.0)
    ensures c.id != cfg.refs.animation ==> r == Ok((m, c))
    decreases Remaining(c)
  {
    if c.id != cfg.refs.animation then Ok((m, c))
    else
      var step :- AnimationStep(m, cfg, c);
      var r :- Animation(step.0, cfg, step.1);
      AppendedTransitive(m, step.0, r.0);
      Ok(r)
  }

  /** `Sound::readChunk`: the whole chunk is read, then the encoding is
      checked. */
  function ReadSound(encoding: nat, c: Chunk): (r: Result<(seq<byte>, Chunk)>)
    ensures r.Ok? <==> Read(c, c.size).Ok? && H.KnownEncoding(encoding)
    ensures Read(c, c.size).Ok? && !H.KnownEncoding(encoding) ==> r == Fail(UnknownEncoding(encoding))
    ensures r.Ok? ==> r.value == Read(c, c.size).value
  {
    var bytes :- Read(c, c.size);
    if !H.KnownEncoding(encoding) then Fail(UnknownEncoding(encoding)) else Ok(bytes)
  }

  /** The audio step as written: `chunk.id = audioReference` assigns, so the
      branch runs whenever the reference is nonzero, whatever chunk came,
      and the chunk's id becomes the reference either way. */
  function AudioAsWritten(m: Movie, cfg: Config, c: Chunk): (r: Result<(Movie, Chunk)>)
    ensures r.Ok? ==> r.value.0.(sounds := m.sounds) == m
  {
    var c := c.(id := cfg.refs.audio);
    if cfg.refs.audio != 0 then
      var sound :- ReadSound(cfg.encoding, c);
      var next :- Next(sound.1);
      Ok((m.(sounds := m.sounds + [sound.0]), next))
    else Ok((m, c))
  }

  /** The audio step as intended: only a chunk with the audio id is read as
      sound. */
  function Audio(m: Movie, cfg: Config, c: Chunk): (r: Result<(Movie, Chunk)>)
    ensures r.Ok? ==> r.value.0.(sounds := m.sounds) == m
    ensures c.id != cfg.refs.audio ==> r == Ok((m, c))
    ensures c.id == cfg.refs.audio && r.Ok? ==>
      && ReadSound(cfg.encoding, c).Ok?
      && r.value.0 == m.(sounds := m.sounds + [ReadSound(cfg.encoding, c).value.0])
      && Next(ReadSound(cfg.encoding, c).value.1).Ok?
      && r.value.1 == Next(ReadSound(cfg.encoding, c).value.1).value
  {
    if c.id == cfg.refs.audio then
      var sound :- ReadSound(cfg.encoding, c);
      var next :- Next(sound.1);
      Ok((m.(sounds := m.sounds + [sound.0]), next))
    else Ok((m, c))
  }

  /** The closing header chunk: its id must be the header reference and its
      size 4, and its 4 bytes are skipped. */
  function HeaderChunk(refs: Refs, c: Chunk): (r: Result<Chunk>)
    ensures r.Ok? <==> c.id == refs.header && c.size == 4 && Read(c, 4).Ok?
    ensures c.id != refs.header ==> r == Fail(ExpectedHeaderChunk(c.id))
    ensures c.id == refs.header && c.size != 4 ==> r == Fail(BadHeaderChunkSize(c.size))
    ensures r.Ok? ==> r.value == Skip(c, 4)
  {
    if c.id != refs.header then Fail(ExpectedHeaderChunk(c.id))
    else if c.size != 4 then Fail(BadHeaderChunkSize(c.size))
    else
      var skipped :- Read(c, c.size);
      Ok(skipped.1)
  }

  /** One frameset: the next chunk, the animation chunks, the audio chunk
      (as written or as intended) and the header chunk. */
  function Frameset(m: Movie, cfg: Config, c: Chunk, intended: bool): (r: Result<(Movie, Chunk)>)
    ensures r.Ok? ==> r.value.0.stills == m.stills
    ensures r.Ok? ==> r.value.0.dataStartOffset == m.dataStartOffset && r.value.0.chunkLengths == m.chunkLengths
  {
    var first :- Next(c);
    var animated :- Animation(m, cfg, first);
    var heard :- if intended then Audio(animated.0, cfg, animated.1) else AudioAsWritten(animated.0, cfg, animated.1);
    var end :- HeaderChunk(cfg.refs, heard.1);
    Ok((heard.0, end))
  }

  /** The frameset loop: exactly `n` framesets, in order. */
  function Framesets(m: Movie, cfg: Config, c: Chunk, n: nat, intended: bool): (r: Result<(Movie, Chunk)>)
    ensures r.Ok? ==> r.value.0.stills == m.stills
    ensures r.Ok? ==> r.value.0.dataStartOffset == m.dataStartOffset && r.value.0.chunkLengths == m.chunkLengths
    decreases n
  {
    if n == 0 then Ok((m, c))
    else
      var one :- Frameset(m, cfg, c, intended);
      Framesets(one.0, cfg, one.1, n - 1, intended)
  }

  /** `readSubfile`: ROOT, the frameset count, the data offset and one
      length per frameset, then the framesets. */
  function ReadSubfile(cfg: Config, c: Chunk, intended: bool): (r: Result<Movie>)
    ensures D.ReadInt(c).Ok? && ToUint32(D.ReadInt(c).value.0) != ROOT ==>
      r == Fail(ExpectedRoot(ToUint32(D.ReadInt(c).value.0)))
    ensures r.Ok? ==> r.value.stills == []
  {
    var root :- D.ReadInt(c);
    if ToUint32(root.0) != ROOT then Fail(ExpectedRoot(ToUint32(root.0)))
    else
      var count :- D.ReadInt(root.1);
      var offset :- D.ReadInt(count.1);
      var lengths :- ReadUints(offset.1, ToUint32(count.0));
      var read :- Framesets(Movie(ToUint32(offset.0), lengths.0, [], [], [], []), cfg, lengths.1,
                            ToUint32(count.0), intended);
      Ok(read.0)
  }

  /** The metadata that `readSubfile` reads before the framesets. */
  function EncodeMetadata(offset: nat, lengths: seq<nat>): seq<byte>
    requires offset < TWO_32 && |lengths| < TWO_32
    requires forall i :: 0 <= i < |lengths| ==> lengths[i] < TWO_32
  {
    EncodeUints([ROOT, |lengths|, offset] + lengths)
  }

  /** Metadata written as UINT32_1 datums reads back: the frameset count is
      the number of lengths, and the offset and lengths land in the movie
      that the framesets then fill. */
  lemma MetadataRoundTrip(cfg: Config, c: Chunk, offset: nat, lengths: seq<nat>, intended: bool)
    requires offset < TWO_32 && |lengths| < TWO_32
    requires forall i :: 0 <= i < |lengths| ==> lengths[i] < TWO_32
    requires HoldsAt(c, EncodeMetadata(offset, lengths))
    ensures ReadSubfile(cfg, c, intended) ==
      match Framesets(Movie(offset, lengths, [], [], [], []), cfg, Skip(c, |EncodeMetadata(offset, lengths)|),
                      |lengths|, intended)
      case Ok(x) => Ok(x.0)
      case Fail(e) => Fail(e)
  {
    var all := [ROOT, |lengths|, offset] + lengths;
    UintsRoundTrip(all, c);
    hide ReadUints, D.ReadInt, Framesets, ReadSubfile, EncodeUints;
    ThreeUints(c, all, Skip(c, |EncodeMetadata(offset, lengths)|));
    assert all[3..] == lengths;
    SubfileSteps(cfg, c, intended);
  }

  /** Three fields read one datum at a time, then the rest. */
  lemma ThreeUints(c: Chunk, all: seq<nat>, e: Chunk)
    requires |all| >= 3 && ReadUints(c, |all|) == Ok((all, e))
    ensures D.ReadInt(c).Ok? && ToUint32(D.ReadInt(c).value.0) == all[0]
    ensures var c1 := D.ReadInt(c).value.1;
      D.ReadInt(c1).Ok? && ToUint32(D.ReadInt(c1).value.0) == all[1]
    ensures var c2 := D.ReadInt(D.ReadInt(c).value.1).value.1;
      D.ReadInt(c2).Ok? && ToUint32(D.ReadInt(c2).value.0) == all[2]
      && ReadUints(D.ReadInt(c2).value.1, |all| - 3) == Ok((all[3..], e))
  {
    hide ReadUints, D.ReadInt;
    UintsHead(c, |all| - 1);
    var c1 := D.ReadInt(c).value.1;
    UintsHead(c1, |all| - 2);
    var c2 := D.ReadInt(c1).value.1;
    UintsHead(c2, |all| - 3);
    assert all[1..][1..][1..] == all[3..];
  }

  /** `readSubfile` when ROOT and the three metadata reads succeed. */
  lemma SubfileSteps(cfg: Config, c: Chunk, intended: bool)
    requires D.ReadInt(c).Ok? && ToUint32(D.ReadInt(c).value.0) == ROOT
    requires var c1 := D.ReadInt(c).value.1; D.ReadInt(c1).Ok? && D.ReadInt(D.ReadInt(c1).value.1).Ok?
    requires var c2 := D.ReadInt(D.ReadInt(c).value.1).value.1;
      ReadUints(D.ReadInt(c2).value.1, ToUint32(D.ReadInt(D.ReadInt(c).value.1).value.0)).Ok?
    ensures var c1 := D.ReadInt(c).value.1;
      var count := ToUint32(D.ReadInt(c1).value.0);
      var c2 := D.ReadInt(c1).value.1;
      var offset := ToUint32(D.ReadInt(c2).value.0);
      var lengths := ReadUints(D.ReadInt(c2).value.1, count).value;
      ReadSubfile(cfg, c, intended) ==
        match Framesets(Movie(offset, lengths.0, [], [], [], []), cfg, lengths.1, count, intended)
        case Ok(x) => Ok(x.0)
        case Fail(e) => Fail(e)
  {
  }

  /** The first of `n + 1` fields is one datum, and the rest are read after
      it. */
  lemma UintsHead(c: Chunk, n: nat)
    requires ReadUints(c, n + 1).Ok?
    ensures D.ReadInt(c).Ok? && ToUint32(D.ReadInt(c).value.0) == ReadUints(c, n + 1).value.0[0]
    ensures ReadUints(D.ReadInt(c).value.1, n) == Ok((ReadUints(c, n + 1).value.0[1..], ReadUints(c, n + 1).value.1))
  {
  }

  /** The frameset loop runs its framesets one after another: `a + b`
      framesets are `a` framesets, then `b` more from where they stopped. */
  lemma {:induction false} FramesetsSplit(m: Movie, cfg: Config, c: Chunk, a: nat, b: nat, intended: bool)
    ensures Framesets(m, cfg, c, a + b, intended) ==
      match Framesets(m, cfg, c, a, intended)
      case Ok(x) => Framesets(x.0, cfg, x.1, b, intended)
      case Fail(e) => Fail(e)
    decreases a
  {
    hide Frameset;
    if a > 0 {
      var one := Frameset(m, cfg, c, intended);
      if one.Ok? {
        FramesetsSplit(one.value.0, cfg, one.value.1, a - 1, b, intended);
      }
    }
  }

  /** As written, a frameset without audio and with a zero audio reference
      loses its header chunk: the assignment sets the chunk id to 0, which is
      then compared with the header reference. As intended, the header chunk
      is found and its 4 bytes skipped. */
  lemma AudioAssignmentLosesHeader(m: Movie, cfg: Config, c: Chunk)
    requires cfg.refs.audio == 0 && cfg.refs.header != 0
    requires c.id == cfg.refs.header && c.size == 4 && Read(c, 4).Ok?
    ensures AudioAsWritten(m, cfg, c).Ok?
    ensures HeaderChunk(cfg.refs, AudioAsWritten(m, cfg, c).value.1) == Fail(ExpectedHeaderChunk(0))
    ensures Audio(m, cfg, c) == Ok((m, c))
    ensures HeaderChunk(cfg.refs, Audio(m, cfg, c).value.1) == Ok(Skip(c, 4))
  {
  }

  /** The same at the level of a whole frameset: whenever the animation
      chunks end at a well-formed header chunk, the frameset as written
      fails and the frameset as intended succeeds. */
  lemma FramesetWithoutAudio(m: Movie, cfg: Config, c: Chunk)
    requires cfg.refs.audio == 0 && cfg.refs.header != 0
    requires Next(c).Ok? && Animation(m, cfg, Next(c).value).Ok?
    requires var end := Animation(m, cfg, Next(c).value).value.1;
      end.id == cfg.refs.header && end.size == 4 && Read(end, 4).Ok?
    ensures Frameset(m, cfg, c, false) == Fail(ExpectedHeaderChunk(0))
    ensures var a := Animation(m, cfg, Next(c).value).value;
      Frameset(m, cfg, c, true) == Ok((a.0, Skip(a.1, 4)))
  {
    var a := Animation(m, cfg, Next(c).value).value;
    AudioAssignmentLosesHeader(a.0, cfg, a.1);
  }

  /** As written, a nonzero audio reference makes whatever chunk follows
      the animation chunks read as sound, the header chunk included; as
      intended, a chunk with another id is left for the header check. */
  lemma AudioAssignmentReadsHeaderAsSound(m: Movie, cfg: Config, c: Chunk)
    requires cfg.refs.audio != 0 && c.id != cfg.refs.audio
    requires var c' := c.(id := cfg.refs.audio); ReadSound(cfg.encoding, c').Ok? && Next(ReadSound(cfg.encoding, c').value.1).Ok?
    ensures AudioAsWritten(m, cfg, c).Ok?
    ensures |AudioAsWritten(m, cfg, c).value.0.sounds| == |m.sounds| + 1
    ensures Audio(m, cfg, c) == Ok((m, c))
  {
  }
}
