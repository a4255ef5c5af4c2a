/** The asset header: three leading datums, then tagged sections until the
    EMPTY tag, each section setting one or two header fields. */
module AssetHeaders {
  import opened Bytes
  import opened Results
  import opened Chunks
  import D = Datums

  // `AssetType` codes.
  const SCREEN: int := 0x0001
  const STAGE: int := 0x0002
  const PATH: int := 0x0004
  const SOUND: int := 0x0005
  const TIMER: int := 0x0006
  const IMAGE: int := 0x0007
  const HOTSPOT: int := 0x000b
  const SPRITE: int := 0x000e
  const LK_ZAZU: int := 0x000f
  const LK_CONSTELLATIONS: int := 0x0010
  const IMAGE_SET: int := 0x001d
  const CURSOR: int := 0x000c
  const PRINTER: int := 0x0019
  const MOVIE: int := 0x0016
  const PALETTE: int := 0x0017
  const TEXT: int := 0x001a
  const FONT: int := 0x001b
  const CAMERA: int := 0x001c
  const CANVAS: int := 0x001e
  const XSND: int := 0x001f
  const XSND_MIDI: int := 0x0020
  const RECORDER: int := 0x0021
  const FUNCTION: int := 0x0069

  const AssetTypes: seq<int> := [SCREEN, STAGE, PATH, SOUND, TIMER, IMAGE, HOTSPOT, SPRITE,
                                 LK_ZAZU, LK_CONSTELLATIONS, IMAGE_SET, CURSOR, PRINTER, MOVIE,
                                 PALETTE, TEXT, FONT, CAMERA, CANVAS, XSND, XSND_MIDI, RECORDER,
                                 FUNCTION]

  // `AssetHeader::SectionType` codes.
  const EMPTY: nat := 0x0000
  const SOUND_ENCODING_1: nat := 0x0001
  const SOUND_ENCODING_2: nat := 0x0002
  const EVENT_HANDLER: nat := 0x0017
  const STAGE_ID: nat := 0x0019
  const ASSET_ID: nat := 0x001a
  const CHUNK_REFERENCE: nat := 0x001b
  const MOVIE_ANIMATION_CHUNK_REFERENCE: nat := 0x06a4
  const MOVIE_AUDIO_CHUNK_REFERENCE: nat := 0x06a5
  const ASSET_REFERENCE: nat := 0x077b
  const BOUNDING_BOX: nat := 0x001c
  const MOUSE_ACTIVE_AREA: nat := 0x001d
  const Z_INDEX: nat := 0x001e
  const STARTUP: nat := 0x001f
  const TRANSPARENCY: nat := 0x0020
  const HAS_OWN_SUBFILE: nat := 0x0021
  const CURSOR_RESOURCE_ID: nat := 0x0022
  const FRAME_RATE: nat := 0x0024
  const LOAD_TYPE: nat := 0x0032
  const SOUND_INFO: nat := 0x0033
  const MOVIE_LOAD_TYPE: nat := 0x0037
  const SPRITE_CHUNK_COUNT: nat := 0x03e8
  const PALETTE_SECTION: nat := 0x05aa
  const DISSOLVE_FACTOR: nat := 0x05dc
  const GET_OFFSTAGE_EVENTS: nat := 0x05dd
  const X: nat := 0x05de
  const Y: nat := 0x05df
  const START_POINT: nat := 0x060e
  const END_POINT: nat := 0x060f
  const PATH_UNK1: nat := 0x0610
  const STEP_RATE: nat := 0x0611
  const DURATION: nat := 0x0612
  const VIEWPORT_ORIGIN: nat := 0x076f
  const LENS_OPEN: nat := 0x0770
  const STAGE_UNK1: nat := 0x0771
  const CYLINDRICAL_X: nat := 0x0772
  const CYLINDRICAL_Y: nat := 0x0773
  const ASSET_NAME: nat := 0x0bb8

  /** The video reference tag the reader uses; the enum has no such member,
      and its value is taken to be the animation reference's. */
  const MOVIE_VIDEO_CHUNK_REFERENCE: nat := MOVIE_ANIMATION_CHUNK_REFERENCE

  /** Every section code, grouped by range: below 0x1c, below 0x100, below
      0x700, the rest. */
  const TinySectionTypes: seq<nat> := [EMPTY, SOUND_ENCODING_1, SOUND_ENCODING_2, EVENT_HANDLER,
                                       STAGE_ID, ASSET_ID, CHUNK_REFERENCE]
  const LowSectionTypes: seq<nat> := [BOUNDING_BOX, MOUSE_ACTIVE_AREA, Z_INDEX, STARTUP, TRANSPARENCY,
                                      HAS_OWN_SUBFILE, CURSOR_RESOURCE_ID, FRAME_RATE, LOAD_TYPE,
                                      SOUND_INFO, MOVIE_LOAD_TYPE]
  const MidSectionTypes: seq<nat> := [SPRITE_CHUNK_COUNT, PALETTE_SECTION, DISSOLVE_FACTOR,
                                      GET_OFFSTAGE_EVENTS, X, Y, START_POINT, END_POINT, PATH_UNK1,
                                      STEP_RATE, DURATION, MOVIE_ANIMATION_CHUNK_REFERENCE,
                                      MOVIE_AUDIO_CHUNK_REFERENCE]
  const HighSectionTypes: seq<nat> := [VIEWPORT_ORIGIN, LENS_OPEN, STAGE_UNK1, CYLINDRICAL_X,
                                       CYLINDRICAL_Y, ASSET_REFERENCE, ASSET_NAME]
  const SectionTypes: seq<nat> := TinySectionTypes + LowSectionTypes + MidSectionTypes + HighSectionTypes

  // `SoundEncoding` codes.
  const PCM_S16LE_MONO_22050: nat := 0x0010
  const IMA_ADPCM_S16LE_MONO_22050: nat := 0x0004

  predicate KnownEncoding(e: nat) {
    e == PCM_S16LE_MONO_22050 || e == IMA_ADPCM_S16LE_MONO_22050
  }

  lemma AssetTypesDistinct()
    ensures forall i, j :: 0 <= i < j < |AssetTypes| ==> AssetTypes[i] != AssetTypes[j]
  {
  }

  predicate Distinct(s: seq<nat>) {
    forall i, j :: 0 <= i < j < |s| ==> s[i] != s[j]
  }

  predicate Below(s: seq<nat>, bound: nat) {
    forall i :: 0 <= i < |s| ==> s[i] < bound
  }

  predicate AtLeast(s: seq<nat>, bound: nat) {
    forall i :: 0 <= i < |s| ==> s[i] >= bound
  }

  /** Two distinct lists separated by a bound concatenate to a distinct list. */
  lemma DistinctConcat(a: seq<nat>, b: seq<nat>, bound: nat)
    requires Distinct(a) && Distinct(b) && Below(a, bound) && AtLeast(b, bound)
    ensures Distinct(a + b)
  {
    var n := |a|;
    forall i, j | 0 <= i < j < |a + b| ensures (a + b)[i] != (a + b)[j] {
      if j < n {
        assert (a + b)[i] == a[i] && (a + b)[j] == a[j];
      } else if i >= n {
        assert (a + b)[i] == b[i - n] && (a + b)[j] == b[j - n];
      } else {
        assert (a + b)[i] == a[i] && (a + b)[j] == b[j - n];
      }
    }
  }

  lemma SectionTypesDistinct()
    ensures Distinct(SectionTypes)
  {
    assert Distinct(TinySectionTypes) && Below(TinySectionTypes, 0x1c);
    assert Distinct(LowSectionTypes) && AtLeast(LowSectionTypes, 0x1c) && Below(LowSectionTypes, 0x100);
    assert Distinct(MidSectionTypes) && AtLeast(MidSectionTypes, 0x100) && Below(MidSectionTypes, 0x700);
    assert Distinct(HighSectionTypes) && AtLeast(HighSectionTypes, 0x700);
    DistinctConcat(TinySectionTypes, LowSectionTypes, 0x1c);
    var low := TinySectionTypes + LowSectionTypes;
    assert Below(low, 0x100);
    DistinctConcat(low, MidSectionTypes, 0x100);
    assert Below(low + MidSectionTypes, 0x700);
    DistinctConcat(low + MidSectionTypes, HighSectionTypes, 0x700);
  }

  /** The chunk-reference union: the plain reference `c` shares its slot
      with the movie's header chunk id. */
  datatype ChunkRef = ChunkRef(header: nat, audio: nat, video: nat)

  datatype AssetHeader = AssetHeader(
    fileNumber: nat,
    kind: int,
    id: nat,
    ref: ChunkRef,
    boundingBox: Option<D.Datum>,
    mouseActiveArea: Option<D.Datum>,
    zIndex: nat,
    assetReference: nat,
    startup: nat,
    transparency: bool,
    hasOwnSubfile: bool,
    cursorResourceId: nat,
    frameRate: nat,
    loadType: nat,
    totalChunks: nat,
    rate: nat)

  /** The header before any section; fields no section has set are zero. */
  function Initial(fileNumber: nat, kind: int, id: nat): AssetHeader {
    AssetHeader(fileNumber, kind, id, ChunkRef(0, 0, 0), None, None, 0, 0, 0, false, false, 0, 0, 0, 0, 0)
  }

  /** The sections whose one generic datum is read for its integer value. */
  predicate IntSection(tag: nat) {
    tag in {ASSET_ID, CHUNK_REFERENCE, MOVIE_AUDIO_CHUNK_REFERENCE, MOVIE_VIDEO_CHUNK_REFERENCE,
            Z_INDEX, ASSET_REFERENCE, STARTUP, TRANSPARENCY, HAS_OWN_SUBFILE, CURSOR_RESOURCE_ID,
            FRAME_RATE, LOAD_TYPE, MOVIE_LOAD_TYPE}
  }

  /** The effect of one integer-valued section. A repeated ASSET_ID is only
      compared with the id already read, and a mismatch only warns. */
  function SetInt(h: AssetHeader, tag: nat, v: int): (h': AssetHeader)
    requires IntSection(tag)
    ensures h'.fileNumber == h.fileNumber && h'.kind == h.kind && h'.id == h.id
    ensures tag == ASSET_ID ==> h' == h
    ensures tag == CHUNK_REFERENCE && h.kind == MOVIE ==> h'.ref == ChunkRef(ToUint32(v), 0, 0)
    ensures tag == CHUNK_REFERENCE && h.kind != MOVIE ==> h'.ref == h.ref.(header := ToUint32(v))
    ensures tag == CHUNK_REFERENCE ==> h' == h.(ref := h'.ref)
    ensures tag == MOVIE_AUDIO_CHUNK_REFERENCE ==> h' == h.(ref := h.ref.(audio := ToUint32(v)))
    ensures tag == MOVIE_VIDEO_CHUNK_REFERENCE ==> h' == h.(ref := h.ref.(video := ToUint32(v)))
    ensures tag == Z_INDEX ==> h' == h.(zIndex := ToUint32(v))
    ensures tag == ASSET_REFERENCE ==> h' == h.(assetReference := ToUint32(v))
    ensures tag == STARTUP ==> h' == h.(startup := ToUint32(v))
    ensures tag == TRANSPARENCY ==> h' == h.(transparency := v != 0)
    ensures tag == HAS_OWN_SUBFILE ==> h' == h.(hasOwnSubfile := v != 0)
    ensures tag == CURSOR_RESOURCE_ID ==> h' == h.(cursorResourceId := ToUint32(v))
    ensures tag == FRAME_RATE ==> h' == h.(frameRate := ToUint32(v))
    ensures tag == LOAD_TYPE || tag == MOVIE_LOAD_TYPE ==> h' == h.(loadType := ToUint32(v))
  {
    var u := ToUint32(v);
    if tag == ASSET_ID then h
    else if tag == CHUNK_REFERENCE then
      if h.kind == MOVIE then h.(ref := ChunkRef(u, 0, 0)) else h.(ref := h.ref.(header := u))
    else if tag == MOVIE_AUDIO_CHUNK_REFERENCE then h.(ref := h.ref.(audio := u))
    else if tag == MOVIE_VIDEO_CHUNK_REFERENCE then h.(ref := h.ref.(video := u))
    else if tag == Z_INDEX then h.(zIndex := u)
    else if tag == ASSET_REFERENCE then h.(assetReference := u)
    else if tag == STARTUP then h.(startup := u)
    else if tag == TRANSPARENCY then h.(transparency := v != 0)
    else if tag == HAS_OWN_SUBFILE then h.(hasOwnSubfile := v != 0)
    else if tag == CURSOR_RESOURCE_ID then h.(cursorResourceId := u)
    else if tag == FRAME_RATE then h.(frameRate := u)
    else h.(loadType := u)
  }

  /** A later section of the same tag overrides an earlier one. */
  lemma LastValueWins(h: AssetHeader, tag: nat, v1: int, v2: int)
    requires IntSection(tag) && tag != ASSET_ID && tag != CHUNK_REFERENCE
    ensures SetInt(SetInt(h, tag, v1), tag, v2) == SetInt(h, tag, v2)
  {
  }

  /** A movie's CHUNK_REFERENCE resets the audio and video references it
      shares a union with, so it must come before them. */
  lemma MovieReferenceResets(h: AssetHeader, v: int)
    requires h.kind == MOVIE
    ensures SetInt(h, CHUNK_REFERENCE, v).ref.audio == 0
    ensures SetInt(h, CHUNK_REFERENCE, v).ref.video == 0
  {
  }

  /** `readSection`: the datums a section carries and their effect. */
  function ReadSection(h: AssetHeader, tag: nat, c: Chunk): (r: Result<(AssetHeader, Chunk)>)
    ensures tag == EVENT_HANDLER ==> r == Fail(EventHandlerSection)
    ensures r.Ok? ==> Advanced(c, r.value.1) || (tag == EMPTY && r.value.1 == c)
    ensures r.Ok? ==> r.value.0.fileNumber == h.fileNumber && r.value.0.kind == h.kind && r.value.0.id == h.id
    ensures tag !in {EMPTY, EVENT_HANDLER, BOUNDING_BOX, MOUSE_ACTIVE_AREA, SOUND_INFO} && !IntSection(tag) ==>
      r == Fail(UnknownSection(tag))
  {
    if tag == EMPTY then Ok((h, c))
    else if tag == EVENT_HANDLER then Fail(EventHandlerSection)
    else if tag == BOUNDING_BOX then
      var d :- D.ReadTyped(c, D.BOUNDING_BOX);
      Ok((h.(boundingBox := Some(d.0)), d.1))
    else if tag == MOUSE_ACTIVE_AREA then
      var d :- D.ReadTyped(c, D.POLYGON);
      Ok((h.(mouseActiveArea := Some(d.0)), d.1))
    else if tag == SOUND_INFO then
      var totalChunks :- D.ReadInt(c);
      var rate :- D.ReadInt(totalChunks.1);
      AdvancedTransitive(c, totalChunks.1, rate.1);
      Ok((h.(totalChunks := ToUint32(totalChunks.0), rate := ToUint32(rate.0)), rate.1))
    else if IntSection(tag) then
      var v :- D.ReadInt(c);
      Ok((SetInt(h, tag, v.0), v.1))
    else Fail(UnknownSection(tag))
  }

  /** `getSectionType`: a typed UINT16_1 datum. */
  function ReadSectionType(c: Chunk): (r: Result<(nat, Chunk)>)
    ensures r.Ok? ==> Advanced(c, r.value.1) && Budget(r.value.1) < Budget(c)
    ensures r.Ok? <==> D.ReadTyped(c, D.UINT16_1).Ok?
    ensures r.Ok? ==> D.ReadTyped(c, D.UINT16_1).value.0 == D.Datum(D.UINT16_1, D.IntPayload(r.value.0))
  {
    var t :- D.ReadTypedInt(c, D.UINT16_1);
    Ok((t.0 as nat, t.1))
  }

  /** The section loop: read a tag, stop at EMPTY, otherwise apply the
      section and continue. */
  function ReadSections(h: AssetHeader, c: Chunk): (r: Result<(AssetHeader, Chunk)>)
    ensures r.Ok? ==> Advanced(c, r.value.1)
    ensures r.Ok? ==> r.value.0.fileNumber == h.fileNumber && r.value.0.kind == h.kind && r.value.0.id == h.id
    decreases Budget(c)
  {
    var tag :- ReadSectionType(c);
    if tag.0 == EMPTY then Ok((h, tag.1))
    else
      var next :- ReadSection(h, tag.0, tag.1);
      var rest :- ReadSections(next.0, next.1);
      AdvancedTransitive(c, tag.1, next.1);
      AdvancedTransitive(c, next.1, rest.1);
      Ok(rest)
  }

  /** The `AssetHeader` constructor: file number, type and id as generic
      datums, then the sections. */
  function ReadHeader(c: Chunk): (r: Result<(AssetHeader, Chunk)>)
    ensures r.Ok? ==> Advanced(c, r.value.1)
    ensures D.ReadInt(c).Fail? ==> r == Fail(D.ReadInt(c).error)
    ensures r.Ok? ==>
      var fileNumber := D.ReadInt(c);
      && fileNumber.Ok? && r.value.0.fileNumber == ToUint32(fileNumber.value.0)
      && var kind := D.ReadInt(fileNumber.value.1);
      && kind.Ok? && r.value.0.kind == kind.value.0
      && var id := D.ReadInt(kind.value.1);
      && id.Ok? && r.value.0.id == ToUint32(id.value.0)
  {
    var fileNumber :- D.ReadInt(c);
    var kind :- D.ReadInt(fileNumber.1);
    var id :- D.ReadInt(kind.1);
    var sections :- ReadSections(Initial(ToUint32(fileNumber.0), kind.0, ToUint32(id.0)), id.1);
    AdvancedTransitive(c, fileNumber.1, kind.1);
    AdvancedTransitive(c, kind.1, id.1);
    AdvancedTransitive(c, id.1, sections.1);
    Ok(sections)
  }

  // ---------------------------------------------------------------------------
  // Sections as values: the reference semantics the byte-level reader meets.

  /** One section: its tag and the datums it carries. */
  datatype Section = Section(tag: nat, values: seq<D.Datum>)

  /** A section the reader accepts: a handled nonzero tag, as many datums as
      it reads, typed where it reads typed, integers where it takes `u.i`. */
  predicate ValidSection(s: Section) {
    && s.tag != EMPTY && s.tag < TWO_16
    && (forall i :: 0 <= i < |s.values| ==> D.Shaped(s.values[i]))
    && if s.tag == BOUNDING_BOX then |s.values| == 1 && s.values[0].t == D.BOUNDING_BOX
       else if s.tag == MOUSE_ACTIVE_AREA then |s.values| == 1 && s.values[0].t == D.POLYGON
       else if s.tag == SOUND_INFO then
         |s.values| == 2 && s.values[0].u.IntPayload? && s.values[1].u.IntPayload?
       else IntSection(s.tag) && |s.values| == 1 && s.values[0].u.IntPayload?
  }

  /** The effect of a section on the header, independent of its bytes. */
  function Apply(h: AssetHeader, s: Section): (h': AssetHeader)
    requires ValidSection(s)
  {
    if s.tag == BOUNDING_BOX then h.(boundingBox := Some(s.values[0]))
    else if s.tag == MOUSE_ACTIVE_AREA then h.(mouseActiveArea := Some(s.values[0]))
    else if s.tag == SOUND_INFO then
      h.(totalChunks := ToUint32(s.values[0].u.i), rate := ToUint32(s.values[1].u.i))
    else SetInt(h, s.tag, s.values[0].u.i)
  }

  /** Every section of the list is valid. */
  predicate AllValid(ss: seq<Section>) {
    |ss| == 0 || (ValidSection(ss[0]) && AllValid(ss[1..]))
  }

  function ApplyAll(h: AssetHeader, ss: seq<Section>): AssetHeader
    requires AllValid(ss)
    decreases |ss|
  {
    if |ss| == 0 then h else ApplyAll(Apply(h, ss[0]), ss[1..])
  }

  function EncodeValues(ds: seq<D.Datum>): (s: seq<byte>)
    requires forall i :: 0 <= i < |ds| ==> D.Shaped(ds[i])
  {
    if |ds| == 0 then [] else D.Encode(ds[0]) + EncodeValues(ds[1..])
  }

  function EncodeSection(s: Section): seq<byte>
    requires ValidSection(s)
  {
    D.EncodeInt(D.UINT16_1, s.tag) + EncodeValues(s.values)
  }

  /** The section list followed by the EMPTY terminator. */
  function EncodeSections(ss: seq<Section>): seq<byte>
    requires AllValid(ss)
  {
    if |ss| == 0 then D.EncodeInt(D.UINT16_1, EMPTY)
    else EncodeSection(ss[0]) + EncodeSections(ss[1..])
  }

  lemma ReadIntHeld(d: D.Datum, c: Chunk)
    requires D.Shaped(d) && d.u.IntPayload? && HoldsAt(c, D.Encode(d))
    ensures D.ReadInt(c) == Ok((d.u.i, Skip(c, |D.Encode(d)|)))
  {
    D.RoundTrip(d, c);
  }

  /** A BOUNDING_BOX or MOUSE_ACTIVE_AREA section: one typed datum. */
  lemma TypedSectionRoundTrip(h: AssetHeader, s: Section, c: Chunk)
    requires ValidSection(s) && (s.tag == BOUNDING_BOX || s.tag == MOUSE_ACTIVE_AREA)
    requires HoldsAt(c, D.Encode(s.values[0]))
    ensures ReadSection(h, s.tag, c) == Ok((Apply(h, s), Skip(c, |D.Encode(s.values[0])|)))
  {
    D.RoundTrip(s.values[0], c);
  }

  /** A SOUND_INFO section: two integer datums. */
  lemma SoundInfoRoundTrip(h: AssetHeader, s: Section, c: Chunk)
    requires ValidSection(s) && s.tag == SOUND_INFO
    requires HoldsAt(c, D.Encode(s.values[0]) + D.Encode(s.values[1]))
    ensures ReadSection(h, s.tag, c) ==
      Ok((Apply(h, s), Skip(c, |D.Encode(s.values[0])| + |D.Encode(s.values[1])|)))
  {
    var d0, d1 := s.values[0], s.values[1];
    HoldsAtSplit(c, D.Encode(d0), D.Encode(d1));
    ReadIntHeld(d0, c);
    ReadIntHeld(d1, Skip(c, |D.Encode(d0)|));
    SkipSkip(c, |D.Encode(d0)|, |D.Encode(d1)|);
  }

  /** A section of one integer datum. */
  lemma IntSectionRoundTrip(h: AssetHeader, s: Section, c: Chunk)
    requires ValidSection(s) && s.tag != BOUNDING_BOX && s.tag != MOUSE_ACTIVE_AREA && s.tag != SOUND_INFO
    requires HoldsAt(c, D.Encode(s.values[0]))
    ensures ReadSection(h, s.tag, c) == Ok((Apply(h, s), Skip(c, |D.Encode(s.values[0])|)))
  {
    ReadIntHeld(s.values[0], c);
  }

  /** Reading an encoded section's datums has exactly the section's effect. */
  lemma SectionRoundTrip(h: AssetHeader, s: Section, c: Chunk)
    requires ValidSection(s) && HoldsAt(c, EncodeValues(s.values))
    ensures ReadSection(h, s.tag, c) == Ok((Apply(h, s), Skip(c, |EncodeValues(s.values)|)))
  {
    var d0 := s.values[0];
    assert EncodeValues(s.values) == D.Encode(d0) + EncodeValues(s.values[1..]);
    if s.tag == SOUND_INFO {
      var d1 := s.values[1];
      assert s.values[1..][0] == d1 && s.values[1..][1..] == [];
      assert EncodeValues(s.values[1..]) == D.Encode(d1);
      SoundInfoRoundTrip(h, s, c);
    } else {
      assert s.values[1..] == [];
      assert EncodeValues(s.values) == D.Encode(d0);
      if s.tag == BOUNDING_BOX || s.tag == MOUSE_ACTIVE_AREA {
        TypedSectionRoundTrip(h, s, c);
      } else {
        IntSectionRoundTrip(h, s, c);
      }
    }
  }

  /** An encoded tag reads back as the section type. */
  lemma TagRoundTrip(tag: nat, c: Chunk)
    requires tag < TWO_16 && HoldsAt(c, D.EncodeInt(D.UINT16_1, tag))
    ensures ReadSectionType(c) == Ok((tag, Skip(c, |D.EncodeInt(D.UINT16_1, tag)|)))
  {
    D.IntRoundTrip(D.UINT16_1, tag, c);
  }

  /** The loop's step, with the tag and the section's result as given values. */
  lemma SectionsUnfold(h: AssetHeader, c: Chunk, tag: nat, c1: Chunk, h': AssetHeader, c2: Chunk)
    requires ReadSectionType(c) == Ok((tag, c1)) && tag != EMPTY
    requires ReadSection(h, tag, c1) == Ok((h', c2))
    ensures ReadSections(h, c) == ReadSections(h', c2)
  {
  }

  /** One encoded section, tag included, advances the loop by its effect. */
  lemma SectionStep(h: AssetHeader, s: Section, c: Chunk)
    requires ValidSection(s) && HoldsAt(c, EncodeSection(s))
    ensures ReadSections(h, c) == ReadSections(Apply(h, s), Skip(c, |EncodeSection(s)|))
  {
    var tagBytes := D.EncodeInt(D.UINT16_1, s.tag);
    var values := EncodeValues(s.values);
    HoldsAtSplit(c, tagBytes, values);
    var c1 := Skip(c, |tagBytes|);
    TagRoundTrip(s.tag, c);
    SectionRoundTrip(h, s, c1);
    SkipSkip(c, |tagBytes|, |values|);
    SectionsUnfold(h, c, s.tag, c1, Apply(h, s), Skip(c1, |values|));
  }

  lemma SectionsEnd(h: AssetHeader, c: Chunk)
    requires HoldsAt(c, D.EncodeInt(D.UINT16_1, EMPTY))
    ensures ReadSections(h, c) == Ok((h, Skip(c, |D.EncodeInt(D.UINT16_1, EMPTY)|)))
  {
    D.IntRoundTrip(D.UINT16_1, EMPTY, c);
  }

  /** Reading an encoded section list applies the sections in order and
      stops exactly after the EMPTY terminator. */
  lemma {:induction false} SectionsRoundTrip(h: AssetHeader, ss: seq<Section>, c: Chunk)
    requires AllValid(ss)
    requires HoldsAt(c, EncodeSections(ss))
    ensures ReadSections(h, c) == Ok((ApplyAll(h, ss), Skip(c, |EncodeSections(ss)|)))
    decreases |ss|
  {
    if |ss| == 0 {
      SectionsEnd(h, c);
    } else {
      var first := EncodeSection(ss[0]);
      var rest := EncodeSections(ss[1..]);
      assert EncodeSections(ss) == first + rest;
      HoldsAtSplit(c, first, rest);
      SectionStep(h, ss[0], c);
      var h' := Apply(h, ss[0]);
      var c' := Skip(c, |first|);
      SectionsRoundTrip(h', ss[1..], c');
      assert ApplyAll(h, ss) == ApplyAll(h', ss[1..]);
      SkipSkip(c, |first|, |rest|);
      assert |EncodeSections(ss)| == |first| + |rest|;
      assert Skip(c', |rest|) == Skip(c, |EncodeSections(ss)|);
      assert ReadSections(h, c) == ReadSections(h', c');
    }
  }

  /** An EMPTY first tag yields the header with no section applied. */
  lemma NoSections(h: AssetHeader, c: Chunk)
    requires HoldsAt(c, D.EncodeInt(D.UINT16_1, EMPTY))
    ensures ReadSections(h, c) == Ok((h, Skip(c, 4)))
  {
    SectionsRoundTrip(h, [], c);
  }

  /** The three leading integer datums of an encoded header. */
  function EncodeLeading(f: D.Datum, k: D.Datum, i: D.Datum): seq<byte>
    requires D.Shaped(f) && D.Shaped(k) && D.Shaped(i)
  {
    D.Encode(f) + D.Encode(k) + D.Encode(i)
  }

  /** The header's step: three given integers, then the section loop. */
  lemma HeaderUnfold(c: Chunk, f: int, c1: Chunk, k: int, c2: Chunk, i: int, c3: Chunk)
    requires D.ReadInt(c) == Ok((f, c1)) && D.ReadInt(c1) == Ok((k, c2)) && D.ReadInt(c2) == Ok((i, c3))
    ensures ReadHeader(c) == ReadSections(Initial(ToUint32(f), k, ToUint32(i)), c3)
  {
  }

  /** The three leading datums read back, and the section loop starts
      right after them. */
  lemma LeadingRoundTrip(f: D.Datum, k: D.Datum, i: D.Datum, rest: seq<byte>, c: Chunk)
    requires D.Shaped(f) && f.u.IntPayload? && D.Shaped(k) && k.u.IntPayload? && D.Shaped(i) && i.u.IntPayload?
    requires HoldsAt(c, EncodeLeading(f, k, i) + rest)
    ensures HoldsAt(Skip(c, |EncodeLeading(f, k, i)|), rest)
    ensures ReadHeader(c) ==
      ReadSections(Initial(ToUint32(f.u.i), k.u.i, ToUint32(i.u.i)), Skip(c, |EncodeLeading(f, k, i)|))
  {
    var bf, bk, bi := D.Encode(f), D.Encode(k), D.Encode(i);
    hide ReadHeader, ReadSections, D.ReadInt, D.Encode;
    assert EncodeLeading(f, k, i) + rest == bf + (bk + (bi + rest));
    HoldsAtSplit(c, bf, bk + (bi + rest));
    var c1 := Skip(c, |bf|);
    HoldsAtSplit(c1, bk, bi + rest);
    var c2 := Skip(c1, |bk|);
    HoldsAtSplit(c2, bi, rest);
    var c3 := Skip(c2, |bi|);
    ReadIntHeld(f, c);
    ReadIntHeld(k, c1);
    ReadIntHeld(i, c2);
    HeaderUnfold(c, f.u.i, c1, k.u.i, c2, i.u.i, c3);
    SkipSkip(c, |bf|, |bk|);
    SkipSkip(c, |bf| + |bk|, |bi|);
  }

  /** Reading an encoded header gives the file number and id in 32 bits,
      the type, and the sections applied in order to the header with no
      section, and stops exactly after the EMPTY terminator. */
  lemma HeaderRoundTrip(f: D.Datum, k: D.Datum, i: D.Datum, ss: seq<Section>, c: Chunk)
    requires D.Shaped(f) && f.u.IntPayload? && D.Shaped(k) && k.u.IntPayload? && D.Shaped(i) && i.u.IntPayload?
    requires AllValid(ss)
    requires HoldsAt(c, EncodeLeading(f, k, i) + EncodeSections(ss))
    ensures ReadHeader(c) ==
      Ok((ApplyAll(Initial(ToUint32(f.u.i), k.u.i, ToUint32(i.u.i)), ss),
          Skip(c, |EncodeLeading(f, k, i) + EncodeSections(ss)|)))
  {
    var lead, rest := EncodeLeading(f, k, i), EncodeSections(ss);
    var h := Initial(ToUint32(f.u.i), k.u.i, ToUint32(i.u.i));
    hide *;
    LeadingRoundTrip(f, k, i, rest, c);
    SectionsRoundTrip(h, ss, Skip(c, |lead|));
    SkipSkip(c, |lead|, |rest|);
    assert |lead + rest| == |lead| + |rest|;
    var c' := Skip(c, |lead|);
    assert ReadHeader(c) == ReadSections(h, c');
    assert ReadSections(h, c') == Ok((ApplyAll(h, ss), Skip(c', |rest|)));
    assert Skip(c', |rest|) == Skip(c, |lead + rest|);
  }
}
