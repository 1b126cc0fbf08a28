/** `parse_INFO` (SoundFont 2.04, section 5): the LIST/INFO chunk is a run
    of sub-chunks holding the version tags and the text fields of the bank.
    ifil, isng and INAM may appear once; the other tags collect every
    occurrence in file order. */
module Info {
  import opened Outcome
  import opened Cursors
  import opened Lists

  // ---------------------------------------------------------------------
  // Tags and field values
  // ---------------------------------------------------------------------

  /** The four-byte tag of each INFO sub-chunk, as ASCII codes. */
  function InfoTag(k: InfoKind): (t: seq<byte>)
    ensures |t| == 4
  {
    match k
    case IFIL => [0x69, 0x66, 0x69, 0x6c] // "ifil"
    case ISNG => [0x69, 0x73, 0x6e, 0x67] // "isng"
    case INAM => [0x49, 0x4e, 0x41, 0x4d] // "INAM"
    case IROM => [0x69, 0x72, 0x6f, 0x6d] // "irom"
    case IVER => [0x69, 0x76, 0x65, 0x72] // "iver"
    case ICRD => [0x49, 0x43, 0x52, 0x44] // "ICRD"
    case IENG => [0x49, 0x45, 0x4e, 0x47] // "IENG"
    case IPRD => [0x49, 0x50, 0x52, 0x44] // "IPRD"
    case ICOP => [0x49, 0x43, 0x4f, 0x50] // "ICOP"
    case ICMT => [0x49, 0x43, 0x4d, 0x54] // "ICMT"
    case ISFT => [0x49, 0x53, 0x46, 0x54] // "ISFT"
  }

  /** The form tag "INFO". */
  const InfoForm: seq<byte> := [0x49, 0x4e, 0x46, 0x4f] // "INFO"

  /** The engine name isng falls back to, "EMU8000". */
  const DefaultEngine: seq<byte> := [0x45, 0x4d, 0x55, 0x38, 0x30, 0x30, 0x30] // "EMU8000"

  /** The INFO sub-chunk a tag names, if it names one. */
  function InfoKindOf(id: seq<byte>): (r: Option<InfoKind>)
    ensures r.Some? ==> InfoTag(r.value) == id
    ensures forall k: InfoKind :: InfoTag(k) == id ==> r == Some(k)
  {
    if id == InfoTag(IFIL) then Some(IFIL)
    else if id == InfoTag(ISNG) then Some(ISNG)
    else if id == InfoTag(INAM) then Some(INAM)
    else if id == InfoTag(IROM) then Some(IROM)
    else if id == InfoTag(IVER) then Some(IVER)
    else if id == InfoTag(ICRD) then Some(ICRD)
    else if id == InfoTag(IENG) then Some(IENG)
    else if id == InfoTag(IPRD) then Some(IPRD)
    else if id == InfoTag(ICOP) then Some(ICOP)
    else if id == InfoTag(ICMT) then Some(ICMT)
    else if id == InfoTag(ISFT) then Some(ISFT)
    else None
  }

  /** The tags whose dictionary entry starts as `None` and is set once. */
  predicate Singular(k: InfoKind) {
    k == IFIL || k == ISNG || k == INAM
  }

  /** The tags read as two WORDs rather than as a ZSTR. */
  predicate Versioned(k: InfoKind) {
    k == IFIL || k == IVER
  }

  /** What one INFO sub-chunk decodes to: a version (`wMajor`, `wMinor`),
      the isng engine name with its raw text, or a text field whose value
      is `None` when the ZSTR faulted. */
  datatype Field =
    | Version(major: nat, minor: nat)
    | Engine(name: seq<byte>, raw: seq<byte>)
    | Text(value: Option<seq<byte>>, raw: seq<byte>)

  /** The field constructor each tag's parser returns. */
  predicate FitsKind(k: InfoKind, f: Field) {
    if Versioned(k) then f.Version? else if k == ISNG then f.Engine? else f.Text?
  }

  /** The field a ZSTR parser builds from the scanned text: a fault (an
      empty text, or one that fills the whole field) makes isng fall back
      to "EMU8000" and the other text fields `None`. */
  function Textual(k: InfoKind, z: ZString): (f: Field)
    requires !Versioned(k)
    ensures FitsKind(k, f) && f.raw == z.text
    ensures f.Engine? ==> (z.fault ==> f.name == DefaultEngine) && (!z.fault ==> f.name == z.text)
    ensures f.Text? ==> (f.value.None? <==> z.fault) && (f.value.Some? ==> f.value.value == z.text)
  {
    if k == ISNG then Engine(if z.fault then DefaultEngine else z.text, z.text)
    else Text(if z.fault then None else Some(z.text), z.text)
  }

  /** The parser a tag names, run on a sub-chunk of `size` bytes. A version
      sub-chunk of another size than four is an error unless errors are
      ignored, and in that case two WORDs are read all the same, whatever
      the size says. A text sub-chunk is a ZSTR over the whole size. */
  function ReadField(k: InfoKind, c: Cursor, size: nat, ignoreErrors: bool): (r: Result<Read<Field>>)
    ensures r.Success? ==> FitsKind(k, r.value.value) && r.value.next.data == c.data
    ensures Versioned(k) ==>
              && (size != 4 && !ignoreErrors ==> r == Failure(BadVersionSize(k)))
              && ((size == 4 || ignoreErrors) ==>
                    && (r.Success? <==> 4 <= Remaining(c))
                    && (r.Success? ==> r.value.next == Skip(c, 4)
                                       && Le(r.value.value.major, 2) + Le(r.value.value.minor, 2)
                                          == c.data[c.pos..c.pos + 4]))
    ensures !Versioned(k) && r.Success? ==> r.value.next == Skip(c, Min(size, Remaining(c)))
    ensures r.Failure? ==> r.error in {BadVersionSize(k), Truncated, ZstrOverrun}
  {
    if Versioned(k) then
      if size != 4 && !ignoreErrors then Failure(BadVersionSize(k))
      else
        var major :- Word(c);
        var minor :- Word(major.next);
        Success(Read(Version(major.value, minor.value), minor.next))
    else
      var z :- ZStr(c, size, 0);
      Success(Read(Textual(k, z.value), z.next))
  }

  // ---------------------------------------------------------------------
  // The INFO dictionary
  // ---------------------------------------------------------------------

  /** The INFO dictionary: the fields read so far under each tag. A
      singular tag holds at most one field; a tag missing from the map is
      one whose entry is still `None` or `[]`. */
  type Entries = map<InfoKind, seq<Field>>

  /** The fields stored under a tag, in file order. */
  function Get(m: Entries, k: InfoKind): seq<Field> {
    if k in m then m[k] else []
  }

  /** The shape parse_INFO keeps: a tag in the map holds at least one
      field, a singular tag exactly one, and every field is the one its
      tag's parser returns. */
  predicate Sound(m: Entries) {
    forall k | k in m ::
      && 0 < |m[k]| && (Singular(k) ==> |m[k]| == 1)
      && (forall i | 0 <= i < |m[k]| :: FitsKind(k, m[k][i]))
  }

  /** Storing one field: a singular tag is set when still `None` and a
      second occurrence fails (the parser calls `append` on a dictionary);
      the other tags append. */
  function Store(m: Entries, k: InfoKind, f: Field): (r: Result<Entries>)
    ensures r.Failure? <==> Singular(k) && k in m
    ensures r.Failure? ==> r.error == SingularRepeated(k)
    ensures r.Success? ==> Get(r.value, k) == Get(m, k) + [f]
                           && forall j | j != k :: Get(r.value, j) == Get(m, j)
    ensures r.Success? && Sound(m) && FitsKind(k, f) ==> Sound(r.value)
  {
    if Singular(k) && k in m then Failure(SingularRepeated(k))
    else Success(Put(m, k, f))
  }

  /** The field appended under its tag, once the tag is known to take it. */
  function Put(m: Entries, k: InfoKind, f: Field): (r: Entries)
    requires !(Singular(k) && k in m)
    ensures Get(r, k) == Get(m, k) + [f] && forall j | j != k :: Get(r, j) == Get(m, j)
    ensures Sound(m) && FitsKind(k, f) ==> Sound(r)
  {
    SoundUpdate(m, k, f);
    m[k := Get(m, k) + [f]]
  }

  lemma SoundUpdate(m: Entries, k: InfoKind, f: Field)
    requires !(Singular(k) && k in m)
    ensures Sound(m) && FitsKind(k, f) ==> Sound(m[k := Get(m, k) + [f]])
  {
    if Sound(m) && FitsKind(k, f) {
      var m' := m[k := Get(m, k) + [f]];
      forall j | j in m'
        ensures 0 < |m'[j]| && (Singular(j) ==> |m'[j]| == 1)
        ensures forall i | 0 <= i < |m'[j]| :: FitsKind(j, m'[j][i])
      {
        if j != k {
          assert m'[j] == m[j];
        }
      }
    }
  }

  // ---------------------------------------------------------------------
  // The sub-chunk loop and parse_INFO
  // ---------------------------------------------------------------------

  /** One pass of the loop body: the sub-chunk header, the test for a
      repeated singular tag, the parser the tag names, then storing its
      field. The value is the stored dictionary and the declared size. */
  function InfoStep(c: Cursor, m: Entries, ignoreErrors: bool): (r: Result<Read<(Entries, nat)>>)
    ensures r.Success? && Sound(m) ==> Sound(r.value.value.0)
    ensures ChunkHeader(c).Success? && InfoKindOf(ChunkHeader(c).value.value.id).None? ==>
              r == Failure(UnknownChunk(InfoList))
    // a second ifil, isng or INAM fails before its payload is read
    ensures ChunkHeader(c).Success? && InfoKindOf(ChunkHeader(c).value.value.id).Some?
            && Singular(InfoKindOf(ChunkHeader(c).value.value.id).value)
            && InfoKindOf(ChunkHeader(c).value.value.id).value in m ==>
              r == Failure(SingularRepeated(InfoKindOf(ChunkHeader(c).value.value.id).value))
  {
    var h :- ChunkHeader(c);
    match InfoKindOf(h.value.id)
    case None => Failure(UnknownChunk(InfoList))
    case Some(k) =>
      // `append` is looked up on the stored value before the parser runs
      if Singular(k) && k in m then Failure(SingularRepeated(k))
      else
        var f :- ReadField(k, h.next, h.value.size, ignoreErrors);
        Success(Read((Put(m, k, f.value), h.value.size), f.next))
  }

  /** A reader of one INFO sub-chunk that stores its field. */
  type InfoReader = (Cursor, Entries) -> Result<Read<(Entries, nat)>>

  /** The loop body of parse_INFO as a reader. */
  function StepReader(ignoreErrors: bool): InfoReader {
    (c: Cursor, m: Entries) => InfoStep(c, m, ignoreErrors)
  }

  /** `step` keeps the dictionary sound. */
  ghost predicate KeepsSound(step: InfoReader) {
    forall d: Cursor, m: Entries :: step(d, m).Success? && Sound(m) ==> Sound(step(d, m).value.value.0)
  }

  lemma StepReaderKeepsSound(ignoreErrors: bool)
    ensures KeepsSound(StepReader(ignoreErrors))
  {
  }

  /** The `while ckSize > 0` loop of parse_INFO, `budget` being what is
      left of the LIST size and `step` the loop body: each sub-chunk's size
      plus eight is taken off the budget, and the loop stops once it is no
      longer positive. Unlike parse_pdta, an overshoot is not an error. */
  function InfoLoop(step: InfoReader, c: Cursor, budget: int, m: Entries): (r: Result<Read<Entries>>)
    decreases budget
    ensures budget <= 0 ==> r == Success(Read(m, c))
    ensures r.Success? && Sound(m) && KeepsSound(step) ==> Sound(r.value.value)
  {
    if budget <= 0 then Success(Read(m, c))
    else
      var s :- step(c, m);
      InfoLoop(step, s.next, budget - (s.value.1 + 8), s.value.0)
  }

  /** parse_INFO: a LIST chunk of form `INFO` and its sub-chunks; without
      `ignoreErrors` an ifil sub-chunk is required. */
  function ParseInfo(c: Cursor, ignoreErrors: bool): (r: Result<Read<Entries>>)
    ensures OpenList(c, InfoForm, InfoList).Failure? ==>
              r == Failure(OpenList(c, InfoForm, InfoList).error)
    ensures r.Success? ==> Sound(r.value.value)
    ensures r.Success? && !ignoreErrors ==> IFIL in r.value.value
  {
    var open :- OpenList(c, InfoForm, InfoList);
    StepReaderKeepsSound(ignoreErrors);
    var body :- InfoLoop(StepReader(ignoreErrors), open.next, open.value, map[]);
    if IFIL !in body.value && !ignoreErrors then Failure(MissingIfil)
    else Success(body)
  }

  // ---------------------------------------------------------------------
  // What the dictionary holds
  // ---------------------------------------------------------------------

  /** One INFO sub-chunk: its tag, its declared size and its field. */
  datatype InfoChunk = InfoChunk(kind: InfoKind, size: nat, field: Field)

  /** Storing each sub-chunk's field in turn, as the loop does. */
  function StoreAll(m: Entries, es: seq<InfoChunk>): (r: Result<Entries>)
    decreases |es|
  {
    if es == [] then Success(m)
    else
      var m' :- Store(m, es[0].kind, es[0].field);
      StoreAll(m', es[1..])
  }

  /** The fields of the sub-chunks with tag `k`, in file order. */
  function Fields(es: seq<InfoChunk>, k: InfoKind): (fs: seq<Field>)
    ensures |fs| <= |es|
  {
    if es == [] then []
    else (if es[0].kind == k then [es[0].field] else []) + Fields(es[1..], k)
  }

  /** No singular tag occurs twice among the sub-chunks, nor once among
      them and once already in the dictionary. */
  predicate NoRepeat(m: Entries, es: seq<InfoChunk>) {
    && (forall i | 0 <= i < |es| :: Singular(es[i].kind) ==> es[i].kind !in m)
    && (forall i, j | 0 <= i < j < |es| :: es[i].kind == es[j].kind ==> !Singular(es[i].kind))
  }

  /** After a first sub-chunk is stored, the rest repeat no singular tag
      of the new dictionary exactly when the whole run repeated none of
      the old one. */
  lemma NoRepeatUncons(m: Entries, es: seq<InfoChunk>, m': Entries)
    requires es != [] && Store(m, es[0].kind, es[0].field) == Success(m')
    ensures NoRepeat(m, es) <==> NoRepeat(m', es[1..])
  {
    var rest := es[1..];
    if NoRepeat(m', rest) {
      forall i, j | 0 <= i < j < |es| && es[i].kind == es[j].kind
        ensures !Singular(es[i].kind)
      {
        assert es[j] == rest[j - 1];
        if i == 0 {
          assert es[i].kind in m';
        } else {
          assert es[i] == rest[i - 1];
        }
      }
      forall i | 0 <= i < |es| && Singular(es[i].kind)
        ensures es[i].kind !in m
      {
        if i > 0 {
          assert es[i] == rest[i - 1];
        }
      }
    }
    if NoRepeat(m, es) {
      forall i | 0 <= i < |rest| && Singular(rest[i].kind)
        ensures rest[i].kind !in m'
      {
        assert rest[i] == es[i + 1];
      }
      forall i, j | 0 <= i < j < |rest| && rest[i].kind == rest[j].kind
        ensures !Singular(rest[i].kind)
      {
        assert rest[i] == es[i + 1] && rest[j] == es[j + 1];
      }
    }
  }

  /** Storing a run of sub-chunks fails exactly when a singular tag would
      be set twice, and then with the error for that tag. */
  lemma {:induction false} StoreAllSucceeds(m: Entries, es: seq<InfoChunk>)
    ensures StoreAll(m, es).Success? <==> NoRepeat(m, es)
    ensures StoreAll(m, es).Failure? ==> StoreAll(m, es).error.SingularRepeated?
    decreases |es|
  {
    if es != [] {
      var s := Store(m, es[0].kind, es[0].field);
      if s.Success? {
        StoreAllSucceeds(s.value, es[1..]);
        NoRepeatUncons(m, es, s.value);
      } else {
        assert Singular(es[0].kind) && es[0].kind in m;
      }
    }
  }

  /** Storing a field appends it to its own tag's list only. */
  lemma StoreGet(m: Entries, e: InfoChunk, k: InfoKind, m': Entries)
    requires Store(m, e.kind, e.field) == Success(m')
    ensures Get(m', k) == Get(m, k) + (if e.kind == k then [e.field] else [])
  {
  }

  lemma StoreAllUncons(m: Entries, es: seq<InfoChunk>, m': Entries)
    requires es != [] && Store(m, es[0].kind, es[0].field) == Success(m')
    ensures StoreAll(m, es) == StoreAll(m', es[1..])
  {
  }

  lemma Associates(a: seq<Field>, b: seq<Field>, c: seq<Field>)
    ensures a + b + c == a + (b + c)
  {
  }

  lemma FieldsUncons(es: seq<InfoChunk>, k: InfoKind)
    requires es != []
    ensures Fields(es, k) == (if es[0].kind == k then [es[0].field] else []) + Fields(es[1..], k)
  {
  }

  /** When it succeeds, every tag holds what it held before followed by the
      fields of its sub-chunks in file order. */
  lemma {:induction false} StoreAllFields(m: Entries, es: seq<InfoChunk>, k: InfoKind)
    requires StoreAll(m, es).Success?
    ensures Get(StoreAll(m, es).value, k) == Get(m, k) + Fields(es, k)
    decreases |es|
  {
    if es != [] {
      var s := Store(m, es[0].kind, es[0].field);
      StoreAllFields(s.value, es[1..], k);
      StoreAllUncons(m, es, s.value);
      StoreGet(m, es[0], k, s.value);
      FieldsUncons(es, k);
      Associates(Get(m, k), if es[0].kind == k then [es[0].field] else [], Fields(es[1..], k));
    }
  }

  // ---------------------------------------------------------------------
  // Reading back what was written
  // ---------------------------------------------------------------------

  /** A sub-chunk a writer can emit: a version is four bytes of two WORDs;
      a text is a run of non-zero bytes shorter than the field, padded with
      zero bytes, and its field is what the parser makes of that run (an
      empty run counting as a fault). */
  predicate Writable(e: InfoChunk) {
    && e.size < 0x1_0000_0000
    && FitsKind(e.kind, e.field)
    && if Versioned(e.kind) then
         e.size == 4 && e.field.major < 0x1_0000 && e.field.minor < 0x1_0000
       else
         && NoZero(e.field.raw) && |e.field.raw| < e.size
         && e.field == Textual(e.kind, ZString(e.field.raw, |e.field.raw| == 0))
  }

  /** The payload of a sub-chunk. */
  function EncodeField(e: InfoChunk): (bs: seq<byte>)
    requires Writable(e)
    ensures |bs| == e.size
  {
    if Versioned(e.kind) then Le(e.field.major, 2) + Le(e.field.minor, 2)
    else PadZ(e.field.raw, e.size)
  }

  /** A sub-chunk as bytes: tag, size, payload. */
  function EncodeChunk(e: InfoChunk): (bs: seq<byte>)
    requires Writable(e)
    ensures |bs| == 8 + e.size
  {
    InfoTag(e.kind) + Le(e.size, 4) + EncodeField(e)
  }

  /** Sub-chunks one after another. */
  function EncodeChunks(es: seq<InfoChunk>): (bs: seq<byte>)
    requires forall i | 0 <= i < |es| :: Writable(es[i])
  {
    if es == [] then [] else EncodeChunk(es[0]) + EncodeChunks(es[1..])
  }

  /** The parser a tag names reads back a written payload. */
  lemma ReadFieldRoundTrip(e: InfoChunk, c: Cursor, ignoreErrors: bool)
    requires Writable(e) && Spells(c, EncodeField(e))
    ensures ReadField(e.kind, c, e.size, ignoreErrors) == Success(Read(e.field, Skip(c, e.size)))
  {
    if Versioned(e.kind) {
      SpellsConcat(c, Le(e.field.major, 2), Le(e.field.minor, 2));
      WordRoundTrip(c, e.field.major);
      WordRoundTrip(Skip(c, 2), e.field.minor);
      assert Skip(Skip(c, 2), 2) == Skip(c, 4);
    } else {
      ZStrRoundTrip(c, e.field.raw, e.size, 0);
    }
  }

  /** What the loop body makes of a written sub-chunk: its field stored,
      and the cursor past it. */
  function Stored(m: Entries, e: InfoChunk, d: Cursor): Result<Read<(Entries, nat)>>
    requires 8 + e.size <= Remaining(d)
  {
    var m' :- Store(m, e.kind, e.field);
    Success(Read((m', e.size), Skip(d, 8 + e.size)))
  }

  /** The loop body, once the header, the tag and the field are known. */
  lemma InfoStepKnown(c: Cursor, m: Entries, ignoreErrors: bool, h: Read<Header>, k: InfoKind, f: Read<Field>)
    requires ChunkHeader(c) == Success(h) && InfoKindOf(h.value.id) == Some(k)
    requires ReadField(k, h.next, h.value.size, ignoreErrors) == Success(f)
    ensures InfoStep(c, m, ignoreErrors) ==
              (var m' :- Store(m, k, f.value); Success(Read((m', h.value.size), f.next)))
  {
  }

  /** The loop body reads back a written sub-chunk and stores its field. */
  lemma InfoStepRoundTrip(c: Cursor, e: InfoChunk, m: Entries, ignoreErrors: bool)
    requires Writable(e) && Spells(c, EncodeChunk(e))
    ensures InfoStep(c, m, ignoreErrors) == Stored(m, e, c)
  {
    var d := Skip(c, 8);
    SpellsConcat(c, InfoTag(e.kind) + Le(e.size, 4), EncodeField(e));
    ChunkHeaderRoundTrip(c, InfoTag(e.kind), e.size);
    ReadFieldRoundTrip(e, d, ignoreErrors);
    assert Skip(d, e.size) == Skip(c, 8 + e.size);
    InfoStepKnown(c, m, ignoreErrors, Read(Header(InfoTag(e.kind), e.size), d), e.kind,
                  Read(e.field, Skip(d, e.size)));
  }

  /** `step` reads back every written sub-chunk and stores its field. */
  ghost predicate ReadsChunkBack(step: InfoReader) {
    forall d: Cursor, e: InfoChunk, m: Entries {:trigger Spells(d, EncodeChunk(e)), step(d, m)}
      | Writable(e) && Spells(d, EncodeChunk(e)) :: step(d, m) == Stored(m, e, d)
  }

  lemma StepReaderReadsBack(ignoreErrors: bool)
    ensures ReadsChunkBack(StepReader(ignoreErrors))
  {
    forall d: Cursor, e: InfoChunk, m: Entries | Writable(e) && Spells(d, EncodeChunk(e))
      ensures StepReader(ignoreErrors)(d, m) == Stored(m, e, d)
    {
      InfoStepRoundTrip(d, e, m, ignoreErrors);
    }
  }

  /** Written sub-chunks are the first one followed by the rest. */
  lemma ChunksUncons(c: Cursor, es: seq<InfoChunk>)
    requires es != [] && forall i | 0 <= i < |es| :: Writable(es[i])
    requires Spells(c, EncodeChunks(es))
    ensures forall i | 0 <= i < |es[1..]| :: Writable(es[1..][i])
    ensures |EncodeChunks(es)| == 8 + es[0].size + |EncodeChunks(es[1..])|
    ensures Spells(c, EncodeChunk(es[0])) && Spells(Skip(c, 8 + es[0].size), EncodeChunks(es[1..]))
  {
    SpellsConcat(c, EncodeChunk(es[0]), EncodeChunks(es[1..]));
  }

  /** The loop, given a budget equal to the bytes of the sub-chunks written
      at the cursor, stores their fields in file order, and fails as
      storing them does. */
  lemma {:induction false} InfoLoopRoundTrip(step: InfoReader, c: Cursor, es: seq<InfoChunk>, m: Entries)
    requires ReadsChunkBack(step)
    requires forall i | 0 <= i < |es| :: Writable(es[i])
    requires Spells(c, EncodeChunks(es))
    ensures var n := |EncodeChunks(es)|;
            var s := StoreAll(m, es);
            var r := InfoLoop(step, c, n, m);
            && (s.Failure? ==> r == Failure(s.error))
            && (s.Success? ==> r == Success(Read(s.value, Skip(c, n))))
    decreases |es|
  {
    if es == [] {
      assert Skip(c, 0) == c;
    } else {
      ChunksUncons(c, es);
      var n := |EncodeChunks(es)|;
      var d := Skip(c, 8 + es[0].size);
      assert step(c, m) == Stored(m, es[0], c);
      var s := Store(m, es[0].kind, es[0].field);
      if s.Success? {
        StoreAllUncons(m, es, s.value);
        InfoLoopRoundTrip(step, d, es[1..], s.value);
        assert Skip(d, |EncodeChunks(es[1..])|) == Skip(c, n);
      }
    }
  }

  /** parse_INFO reads a written INFO LIST back: it fails on a repeated
      singular tag, then on a missing ifil unless errors are ignored, and
      otherwise holds under each tag the fields of its sub-chunks in file
      order. */
  lemma ParseInfoRoundTrip(c: Cursor, es: seq<InfoChunk>, ignoreErrors: bool)
    requires forall i | 0 <= i < |es| :: Writable(es[i])
    requires 4 + |EncodeChunks(es)| < 0x1_0000_0000
    requires Spells(c, EncodeList(InfoForm, EncodeChunks(es)))
    ensures var r := ParseInfo(c, ignoreErrors);
            var n := 12 + |EncodeChunks(es)|;
            && (!NoRepeat(map[], es) ==> r.Failure? && r.error.SingularRepeated?)
            && (NoRepeat(map[], es) && !ignoreErrors && Fields(es, IFIL) == [] ==> r == Failure(MissingIfil))
            && (NoRepeat(map[], es) && (ignoreErrors || Fields(es, IFIL) != []) ==>
                  && n <= Remaining(c) && r.Success? && r.value.next == Skip(c, n)
                  && forall k: InfoKind :: Get(r.value.value, k) == Fields(es, k))
  {
    var body := EncodeChunks(es);
    var step := StepReader(ignoreErrors);
    OpenListRoundTrip(c, InfoForm, body, InfoList);
    StepReaderReadsBack(ignoreErrors);
    StepReaderKeepsSound(ignoreErrors);
    InfoLoopRoundTrip(step, Skip(c, 12), es, map[]);
    StoreAllSucceeds(map[], es);
    var s := StoreAll(map[], es);
    if s.Success? {
      forall k: InfoKind
        ensures Get(s.value, k) == Fields(es, k)
      {
        StoreAllFields(map[], es, k);
      }
      assert Sound(s.value);
      assert IFIL in s.value <==> Fields(es, IFIL) != [] by {
        assert Get(s.value, IFIL) == Fields(es, IFIL);
      }
      assert Skip(Skip(c, 12), |body|) == Skip(c, 12 + |body|);
    }
  }
}
