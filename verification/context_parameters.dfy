/** A context's parameters record: its file number, then sections until an
    EMPTY tag. A NAME section names the context, a VARIABLE section declares
    a global variable, a BYTECODE section defines a function. */
module ContextParams {
  import opened Bytes
  import opened Results
  import opened Chunks
  import D = Datums
  import V = Variables
  import F = Functions

  /** The `ContextParameters::SectionType` codes. Their values are declared
      in a header that is not part of this model, so they are a parameter. */
  datatype SectionCodes = SectionCodes(empty: nat, name: nat, fileNumber: nat, variable: nat, bytecode: nat)

  /** The reader as written, where NAME has no `break` and falls into the
      FILE_NUMBER error, and the reader with the `break` NAME evidently
      needs. */
  datatype Revision = AsWritten | Corrected

  datatype Context = Context(
    fileNumber: nat,
    name: Option<seq<byte>>,
    variables: map<int, V.Declaration>,
    functions: map<nat, F.Function>)

  function Initial(fileNumber: nat): Context {
    Context(fileNumber, None, map[], map[])
  }

  /** A section tag or a file number: a UINT16_1 datum. */
  function ReadWord(c: Chunk): (r: Result<(nat, Chunk)>)
    ensures r.Ok? ==> r.value.0 < TWO_16 && Advanced(c, r.value.1) && Budget(r.value.1) < Budget(c)
    ensures r.Ok? <==> D.ReadTyped(c, D.UINT16_1).Ok?
    ensures r.Ok? ==> D.ReadTyped(c, D.UINT16_1).value == (D.Datum(D.UINT16_1, D.IntPayload(r.value.0)), r.value.1)
  {
    var w :- D.ReadTypedInt(c, D.UINT16_1);
    Ok((w.0 as nat, w.1))
  }

  /** One section's body, by tag, in the order of the `switch`. A repeated
      file number that differs from the context's only warns. */
  function ReadSection(rev: Revision, codes: SectionCodes, ty: V.TypeCodes, ctx: Context, tag: nat, c: Chunk)
    : (r: Result<(Context, Chunk)>)
    ensures r.Ok? ==> Advanced(c, r.value.1) && r.value.0.fileNumber == ctx.fileNumber
    ensures tag == codes.name && rev == AsWritten ==> r.Fail?
    ensures tag != codes.name && tag == codes.fileNumber ==> r == Fail(FileNumberSection)
    ensures tag !in {codes.name, codes.fileNumber, codes.variable, codes.bytecode} ==> r == Fail(UnknownSection(tag))
  {
    if tag == codes.name then
      var repeated :- ReadWord(c);
      var name :- D.ReadTyped(repeated.1, D.STRING);
      var flag :- ReadWord(name.1);
      AdvancedTransitive(c, repeated.1, name.1);
      AdvancedTransitive(c, name.1, flag.1);
      if rev == AsWritten then Fail(FileNumberSection)
      else Ok((ctx.(name := Some(name.0.u.text)), flag.1))
    else if tag == codes.fileNumber then Fail(FileNumberSection)
    else if tag == codes.variable then
      var repeated :- ReadWord(c);
      var decl :- V.ReadDeclaration(ty, repeated.1);
      AdvancedTransitive(c, repeated.1, decl.1);
      Ok((ctx.(variables := ctx.variables[decl.0.id := decl.0]), decl.1))
    else if tag == codes.bytecode then
      var f :- F.ReadFunction(c);
      Ok((ctx.(functions := ctx.functions[f.0.id := f.0]), f.1))
    else Fail(UnknownSection(tag))
  }

  /** The section loop: read a tag, stop at EMPTY, otherwise read the
      section and continue. */
  function ReadSections(rev: Revision, codes: SectionCodes, ty: V.TypeCodes, ctx: Context, c: Chunk)
    : (r: Result<(Context, Chunk)>)
    ensures r.Ok? ==> Advanced(c, r.value.1) && r.value.0.fileNumber == ctx.fileNumber
    decreases Budget(c)
  {
    var tag :- ReadWord(c);
    if tag.0 == codes.empty then Ok((ctx, tag.1))
    else
      var next :- ReadSection(rev, codes, ty, ctx, tag.0, tag.1);
      var rest :- ReadSections(rev, codes, ty, next.0, next.1);
      AdvancedTransitive(c, tag.1, next.1);
      AdvancedTransitive(c, next.1, rest.1);
      Ok(rest)
  }

  /** The `ContextParameters` constructor. */
  function ReadContext(rev: Revision, codes: SectionCodes, ty: V.TypeCodes, c: Chunk): (r: Result<(Context, Chunk)>)
    ensures r.Ok? ==> Advanced(c, r.value.1)
    ensures r.Ok? ==> ReadWord(c).Ok? && r.value.0.fileNumber == ReadWord(c).value.0
  {
    var fileNumber :- ReadWord(c);
    var sections :- ReadSections(rev, codes, ty, Initial(fileNumber.0), fileNumber.1);
    AdvancedTransitive(c, fileNumber.1, sections.1);
    Ok(sections)
  }

  // ---------------------------------------------------------------------------
  // Sections as values: the reference semantics the reader meets.

  datatype Section =
    | Name(repeated: nat, text: seq<byte>, flag: nat)
    | Variable(repeated: nat, decl: V.Declaration)
    | Bytecode(f: F.Function)

  /** The codes a well-formed record uses: 16-bit and pairwise distinct. */
  predicate ValidCodes(codes: SectionCodes) {
    && codes.empty < TWO_16 && codes.name < TWO_16 && codes.fileNumber < TWO_16
    && codes.variable < TWO_16 && codes.bytecode < TWO_16
    && codes.empty !in {codes.name, codes.fileNumber, codes.variable, codes.bytecode}
    && codes.name !in {codes.fileNumber, codes.variable, codes.bytecode}
    && codes.fileNumber !in {codes.variable, codes.bytecode}
    && codes.variable != codes.bytecode
  }

  predicate ValidSection(ty: V.TypeCodes, s: Section) {
    match s
    case Name(repeated, text, flag) =>
      repeated < TWO_16 && flag < TWO_16 && |text| < TWO_32 && D.NulFree(text)
    case Variable(repeated, decl) => repeated < TWO_16 && V.Valid(ty, decl)
    case Bytecode(f) => F.Valid(f)
  }

  function TagOf(codes: SectionCodes, s: Section): nat {
    match s
    case Name(_, _, _) => codes.name
    case Variable(_, _) => codes.variable
    case Bytecode(_) => codes.bytecode
  }

  /** A section's effect on the context. */
  function Apply(ctx: Context, s: Section): Context {
    match s
    case Name(_, text, _) => ctx.(name := Some(text))
    case Variable(_, decl) => ctx.(variables := ctx.variables[decl.id := decl])
    case Bytecode(f) => ctx.(functions := ctx.functions[f.id := f])
  }

  function ApplyAll(ctx: Context, ss: seq<Section>): Context
    decreases |ss|
  {
    if |ss| == 0 then ctx else ApplyAll(Apply(ctx, ss[0]), ss[1..])
  }

  predicate AllValid(ty: V.TypeCodes, ss: seq<Section>) {
    forall i :: 0 <= i < |ss| ==> ValidSection(ty, ss[i])
  }

  function Word(w: nat): seq<byte>
    requires w < TWO_16
  {
    D.EncodeInt(D.UINT16_1, w)
  }

  /** The STRING datum of a NAME section. */
  function NameDatum(text: seq<byte>): D.Datum {
    D.Datum(D.STRING, D.StringPayload(text))
  }

  function EncodeBody(ty: V.TypeCodes, s: Section): seq<byte>
    requires ValidSection(ty, s)
  {
    match s
    case Name(repeated, text, flag) => Word(repeated) + D.Encode(NameDatum(text)) + Word(flag)
    case Variable(repeated, decl) => Word(repeated) + V.Encode(ty, decl)
    case Bytecode(f) => F.Encode(f)
  }

  function EncodeSection(codes: SectionCodes, ty: V.TypeCodes, s: Section): seq<byte>
    requires ValidCodes(codes) && ValidSection(ty, s)
  {
    Word(TagOf(codes, s)) + EncodeBody(ty, s)
  }

  /** The sections, then the EMPTY terminator. */
  function EncodeSections(codes: SectionCodes, ty: V.TypeCodes, ss: seq<Section>): seq<byte>
    requires ValidCodes(codes) && AllValid(ty, ss)
    decreases |ss|
  {
    if |ss| == 0 then Word(codes.empty)
    else EncodeSection(codes, ty, ss[0]) + EncodeSections(codes, ty, ss[1..])
  }

  function EncodeContext(codes: SectionCodes, ty: V.TypeCodes, fileNumber: nat, ss: seq<Section>): seq<byte>
    requires ValidCodes(codes) && AllValid(ty, ss) && fileNumber < TWO_16
  {
    Word(fileNumber) + EncodeSections(codes, ty, ss)
  }

  // ---------------------------------------------------------------------------
  // Round trip.

  lemma WordRoundTrip(w: nat, c: Chunk)
    requires w < TWO_16 && HoldsAt(c, Word(w))
    ensures ReadWord(c) == Ok((w, Skip(c, |Word(w)|)))
  {
    D.IntRoundTrip(D.UINT16_1, w, c);
  }

  lemma NameStep(rev: Revision, codes: SectionCodes, ty: V.TypeCodes, ctx: Context,
                 c: Chunk, repeated: nat, c1: Chunk, text: seq<byte>, c2: Chunk, flag: nat, c3: Chunk)
    requires ReadWord(c) == Ok((repeated, c1))
    requires D.ReadTyped(c1, D.STRING) == Ok((NameDatum(text), c2))
    requires ReadWord(c2) == Ok((flag, c3))
    ensures rev == Corrected ==>
      ReadSection(rev, codes, ty, ctx, codes.name, c) == Ok((ctx.(name := Some(text)), c3))
    ensures rev == AsWritten ==>
      ReadSection(rev, codes, ty, ctx, codes.name, c) == Fail(FileNumberSection)
  {
  }

  /** The three datums of a stored NAME section. */
  lemma NameDatums(repeated: nat, text: seq<byte>, flag: nat, c: Chunk)
    requires repeated < TWO_16 && flag < TWO_16 && |text| < TWO_32 && D.NulFree(text)
    requires HoldsAt(c, Word(repeated) + D.Encode(NameDatum(text)) + Word(flag))
    ensures ReadWord(c) == Ok((repeated, Skip(c, |Word(repeated)|)))
    ensures D.ReadTyped(Skip(c, |Word(repeated)|), D.STRING) ==
      Ok((NameDatum(text), Skip(c, |Word(repeated) + D.Encode(NameDatum(text))|)))
    ensures ReadWord(Skip(c, |Word(repeated) + D.Encode(NameDatum(text))|)) ==
      Ok((flag, Skip(c, |Word(repeated) + D.Encode(NameDatum(text)) + Word(flag)|)))
  {
    var a := Word(repeated);
    var b := D.Encode(NameDatum(text));
    var e := Word(flag);
    HoldsAtSplit(c, a + b, e);
    HoldsAtSplit(c, a, b);
    WordRoundTrip(repeated, c);
    SkipConcat(c, a, b);
    D.RoundTrip(NameDatum(text), Skip(c, |a|));
    WordRoundTrip(flag, Skip(c, |a + b|));
    SkipConcat(c, a + b, e);
  }

  /** A stored NAME section: the corrected reader names the context; the
      reader as written always fails, after reading all three datums. */
  lemma NameRoundTrip(rev: Revision, codes: SectionCodes, ty: V.TypeCodes, ctx: Context, s: Section, c: Chunk)
    requires ValidSection(ty, s) && s.Name?
    requires HoldsAt(c, EncodeBody(ty, s))
    ensures rev == Corrected ==>
      ReadSection(rev, codes, ty, ctx, codes.name, c) == Ok((Apply(ctx, s), Skip(c, |EncodeBody(ty, s)|)))
    ensures rev == AsWritten ==>
      ReadSection(rev, codes, ty, ctx, codes.name, c) == Fail(FileNumberSection)
  {
    NameDatums(s.repeated, s.text, s.flag, c);
    NameStep(rev, codes, ty, ctx, c,
      s.repeated, Skip(c, |Word(s.repeated)|),
      s.text, Skip(c, |Word(s.repeated) + D.Encode(NameDatum(s.text))|),
      s.flag, Skip(c, |Word(s.repeated) + D.Encode(NameDatum(s.text)) + Word(s.flag)|));
  }

  lemma VariableStep(rev: Revision, codes: SectionCodes, ty: V.TypeCodes, ctx: Context,
                     c: Chunk, repeated: nat, c1: Chunk, decl: V.Declaration, c2: Chunk)
    requires codes.variable != codes.name && codes.variable != codes.fileNumber
    requires ReadWord(c) == Ok((repeated, c1))
    requires V.ReadDeclaration(ty, c1) == Ok((decl, c2))
    ensures ReadSection(rev, codes, ty, ctx, codes.variable, c) ==
      Ok((ctx.(variables := ctx.variables[decl.id := decl]), c2))
  {
  }

  /** A stored VARIABLE section declares its variable under its id, whatever
      file number it repeats. */
  lemma VariableRoundTrip(rev: Revision, codes: SectionCodes, ty: V.TypeCodes, ctx: Context, s: Section, c: Chunk)
    requires ValidCodes(codes) && ValidSection(ty, s) && s.Variable?
    requires HoldsAt(c, EncodeBody(ty, s))
    ensures ReadSection(rev, codes, ty, ctx, codes.variable, c) == Ok((Apply(ctx, s), Skip(c, |EncodeBody(ty, s)|)))
  {
    var a := Word(s.repeated);
    var b := V.Encode(ty, s.decl);
    HoldsAtSplit(c, a, b);
    WordRoundTrip(s.repeated, c);
    V.RoundTrip(ty, s.decl, Skip(c, |a|));
    VariableStep(rev, codes, ty, ctx, c, s.repeated, Skip(c, |a|), s.decl, Skip(Skip(c, |a|), |b|));
    SkipConcat(c, a, b);
  }

  /** A stored BYTECODE section defines its function under the registered
      id. */
  lemma BytecodeRoundTrip(rev: Revision, codes: SectionCodes, ty: V.TypeCodes, ctx: Context, s: Section, c: Chunk)
    requires ValidCodes(codes) && ValidSection(ty, s) && s.Bytecode?
    requires HoldsAt(c, EncodeBody(ty, s))
    ensures ReadSection(rev, codes, ty, ctx, codes.bytecode, c) == Ok((Apply(ctx, s), Skip(c, |EncodeBody(ty, s)|)))
  {
    F.RoundTrip(s.f, c);
  }

  /** `Corrected` reads every stored section; `AsWritten` every section but
      NAME. */
  predicate Reads(rev: Revision, s: Section) {
    rev == Corrected || !s.Name?
  }

  lemma SectionRoundTrip(rev: Revision, codes: SectionCodes, ty: V.TypeCodes, ctx: Context, s: Section, c: Chunk)
    requires ValidCodes(codes) && ValidSection(ty, s) && Reads(rev, s)
    requires HoldsAt(c, EncodeBody(ty, s))
    ensures ReadSection(rev, codes, ty, ctx, TagOf(codes, s), c) == Ok((Apply(ctx, s), Skip(c, |EncodeBody(ty, s)|)))
  {
    match s
    case Name(_, _, _) => NameRoundTrip(rev, codes, ty, ctx, s, c);
    case Variable(_, _) => VariableRoundTrip(rev, codes, ty, ctx, s, c);
    case Bytecode(_) => BytecodeRoundTrip(rev, codes, ty, ctx, s, c);
  }

  lemma SectionsUnfold(rev: Revision, codes: SectionCodes, ty: V.TypeCodes, ctx: Context,
                       c: Chunk, tag: nat, c1: Chunk, ctx': Context, c2: Chunk)
    requires ReadWord(c) == Ok((tag, c1)) && tag != codes.empty
    requires ReadSection(rev, codes, ty, ctx, tag, c1) == Ok((ctx', c2))
    ensures ReadSections(rev, codes, ty, ctx, c) == ReadSections(rev, codes, ty, ctx', c2)
  {
  }

  /** One stored section, tag included, advances the loop by its effect. */
  lemma SectionStep(rev: Revision, codes: SectionCodes, ty: V.TypeCodes, ctx: Context, s: Section, c: Chunk)
    requires ValidCodes(codes) && ValidSection(ty, s) && Reads(rev, s)
    requires HoldsAt(c, EncodeSection(codes, ty, s))
    ensures ReadSections(rev, codes, ty, ctx, c) ==
      ReadSections(rev, codes, ty, Apply(ctx, s), Skip(c, |EncodeSection(codes, ty, s)|))
  {
    var tagBytes := Word(TagOf(codes, s));
    var body := EncodeBody(ty, s);
    HoldsAtSplit(c, tagBytes, body);
    WordRoundTrip(TagOf(codes, s), c);
    SectionRoundTrip(rev, codes, ty, ctx, s, Skip(c, |tagBytes|));
    SectionsUnfold(rev, codes, ty, ctx, c, TagOf(codes, s), Skip(c, |tagBytes|), Apply(ctx, s),
      Skip(Skip(c, |tagBytes|), |body|));
    SkipConcat(c, tagBytes, body);
  }

  lemma SectionsEnd(rev: Revision, codes: SectionCodes, ty: V.TypeCodes, ctx: Context, c: Chunk)
    requires ValidCodes(codes) && HoldsAt(c, Word(codes.empty))
    ensures ReadSections(rev, codes, ty, ctx, c) == Ok((ctx, Skip(c, |Word(codes.empty)|)))
  {
    WordRoundTrip(codes.empty, c);
  }

  /** The sections after the first keep the properties of the whole list. */
  lemma TailValid(rev: Revision, ty: V.TypeCodes, ss: seq<Section>)
    requires |ss| > 0 && AllValid(ty, ss)
    ensures AllValid(ty, ss[1..])
    ensures (forall i :: 0 <= i < |ss| ==> Reads(rev, ss[i])) ==>
      forall i :: 0 <= i < |ss[1..]| ==> Reads(rev, ss[1..][i])
    ensures (forall i :: 0 <= i < |ss| ==> !ss[i].Name?) ==>
      forall i :: 0 <= i < |ss[1..]| ==> !ss[1..][i].Name?
  {
    assert forall i :: 0 <= i < |ss[1..]| ==> ss[1..][i] == ss[i + 1];
  }

  /** Reading stored sections applies them in order and stops exactly after
      the EMPTY terminator. */
  lemma {:induction false} SectionsRoundTrip(rev: Revision, codes: SectionCodes, ty: V.TypeCodes, ctx: Context,
                                             ss: seq<Section>, c: Chunk)
    requires ValidCodes(codes) && AllValid(ty, ss)
    requires forall i :: 0 <= i < |ss| ==> Reads(rev, ss[i])
    requires HoldsAt(c, EncodeSections(codes, ty, ss))
    ensures ReadSections(rev, codes, ty, ctx, c) ==
      Ok((ApplyAll(ctx, ss), Skip(c, |EncodeSections(codes, ty, ss)|)))
    decreases |ss|
  {
    if |ss| == 0 {
      SectionsEnd(rev, codes, ty, ctx, c);
    } else {
      var first := EncodeSection(codes, ty, ss[0]);
      var rest := EncodeSections(codes, ty, ss[1..]);
      assert EncodeSections(codes, ty, ss) == first + rest;
      HoldsAtSplit(c, first, rest);
      SectionStep(rev, codes, ty, ctx, ss[0], c);
      TailValid(rev, ty, ss);
      SectionsRoundTrip(rev, codes, ty, Apply(ctx, ss[0]), ss[1..], Skip(c, |first|));
      SkipConcat(c, first, rest);
    }
  }

  /** Reading a stored record gives its file number and the effect of its
      sections in order. */
  lemma ContextRoundTrip(codes: SectionCodes, ty: V.TypeCodes, fileNumber: nat, ss: seq<Section>, c: Chunk)
    requires ValidCodes(codes) && AllValid(ty, ss) && fileNumber < TWO_16
    requires HoldsAt(c, EncodeContext(codes, ty, fileNumber, ss))
    ensures ReadContext(Corrected, codes, ty, c) ==
      Ok((ApplyAll(Initial(fileNumber), ss), Skip(c, |EncodeContext(codes, ty, fileNumber, ss)|)))
  {
    var head := Word(fileNumber);
    var rest := EncodeSections(codes, ty, ss);
    HoldsAtSplit(c, head, rest);
    WordRoundTrip(fileNumber, c);
    SectionsRoundTrip(Corrected, codes, ty, Initial(fileNumber), ss, Skip(c, |head|));
    SkipConcat(c, head, rest);
  }

  lemma SectionsFail(rev: Revision, codes: SectionCodes, ty: V.TypeCodes, ctx: Context,
                     c: Chunk, tag: nat, c1: Chunk, e: Error)
    requires ReadWord(c) == Ok((tag, c1)) && tag != codes.empty
    requires ReadSection(rev, codes, ty, ctx, tag, c1) == Fail(e)
    ensures ReadSections(rev, codes, ty, ctx, c) == Fail(e)
  {
  }

  /** As written, a stored NAME section ends the loop with the FILE_NUMBER
      error. */
  lemma NameFails(codes: SectionCodes, ty: V.TypeCodes, ctx: Context, s: Section, c: Chunk)
    requires ValidCodes(codes) && ValidSection(ty, s) && s.Name?
    requires HoldsAt(c, EncodeSection(codes, ty, s))
    ensures ReadSections(AsWritten, codes, ty, ctx, c) == Fail(FileNumberSection)
  {
    var tagBytes := Word(codes.name);
    HoldsAtSplit(c, tagBytes, EncodeBody(ty, s));
    WordRoundTrip(codes.name, c);
    NameRoundTrip(AsWritten, codes, ty, ctx, s, Skip(c, |tagBytes|));
    SectionsFail(AsWritten, codes, ty, ctx, c, codes.name, Skip(c, |tagBytes|), FileNumberSection);
  }

  /** As written, a record fails at its first NAME section: the sections
      before it are read, then the NAME section falls into the FILE_NUMBER
      error. */
  lemma {:induction false} NameEndsRecord(codes: SectionCodes, ty: V.TypeCodes, ctx: Context,
                                          ss: seq<Section>, s: Section, c: Chunk)
    requires ValidCodes(codes) && AllValid(ty, ss) && ValidSection(ty, s) && s.Name?
    requires forall i :: 0 <= i < |ss| ==> !ss[i].Name?
    requires HoldsAt(c, EncodeSectionList(codes, ty, ss))
    requires HoldsAt(Skip(c, |EncodeSectionList(codes, ty, ss)|), EncodeSection(codes, ty, s))
    ensures ReadSections(AsWritten, codes, ty, ctx, c) == Fail(FileNumberSection)
    decreases |ss|
  {
    if |ss| == 0 {
      assert Skip(c, |EncodeSectionList(codes, ty, ss)|) == c;
      NameFails(codes, ty, ctx, s, c);
    } else {
      var first := EncodeSection(codes, ty, ss[0]);
      var more := EncodeSectionList(codes, ty, ss[1..]);
      assert EncodeSectionList(codes, ty, ss) == first + more;
      HoldsAtSplit(c, first, more);
      SectionStep(AsWritten, codes, ty, ctx, ss[0], c);
      SkipConcat(c, first, more);
      TailValid(Corrected, ty, ss);
      NameEndsRecord(codes, ty, Apply(ctx, ss[0]), ss[1..], s, Skip(c, |first|));
    }
  }

  /** The sections without the terminator. */
  function EncodeSectionList(codes: SectionCodes, ty: V.TypeCodes, ss: seq<Section>): seq<byte>
    requires ValidCodes(codes) && AllValid(ty, ss)
    decreases |ss|
  {
    if |ss| == 0 then []
    else EncodeSection(codes, ty, ss[0]) + EncodeSectionList(codes, ty, ss[1..])
  }

  // ---------------------------------------------------------------------------
  // Effects.

  /** A later VARIABLE section with the same id replaces the earlier
      declaration: the context holds the last one. */
  lemma {:induction false} LastVariableWins(ctx: Context, ss: seq<Section>, i: nat)
    requires i < |ss| && ss[i].Variable?
    requires forall j :: i < j < |ss| && ss[j].Variable? ==> ss[j].decl.id != ss[i].decl.id
    ensures ss[i].decl.id in ApplyAll(ctx, ss).variables
    ensures ApplyAll(ctx, ss).variables[ss[i].decl.id] == ss[i].decl
    decreases |ss|
  {
    if i == 0 {
      VariableKept(Apply(ctx, ss[0]), ss[1..], ss[0].decl);
    } else {
      LastVariableWins(Apply(ctx, ss[0]), ss[1..], i - 1);
    }
  }

  /** Sections that declare no variable under `decl.id` keep it. */
  lemma {:induction false} VariableKept(ctx: Context, ss: seq<Section>, decl: V.Declaration)
    requires decl.id in ctx.variables && ctx.variables[decl.id] == decl
    requires forall j :: 0 <= j < |ss| && ss[j].Variable? ==> ss[j].decl.id != decl.id
    ensures decl.id in ApplyAll(ctx, ss).variables
    ensures ApplyAll(ctx, ss).variables[decl.id] == decl
    decreases |ss|
  {
    if |ss| > 0 {
      VariableKept(Apply(ctx, ss[0]), ss[1..], decl);
    }
  }
}
