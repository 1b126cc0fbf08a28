/** `parse_pdta` (SoundFont 2.04, section 7): the LIST/pdta chunk is a run
    of sub-chunks, each decoded by the decoder its tag names into a
    dictionary, followed by the cross-reference pass that compares the index
    field of each list's second-to-last record with the length of the list
    it points into. */
module Pdta {
  import opened Outcome
  import opened Cursors
  import opened Records
  import opened Chunks
  import opened Lists

  /** The pdta dictionary: the records of each sub-chunk read so far, under
      its tag. A tag missing from the map is one whose entry is still `None`. */
  type Tables = map<Kind, seq<Record>>

  /** The form tag "pdta". */
  const PdtaForm: seq<byte> := [0x70, 0x64, 0x74, 0x61] // "pdta"

  /** Every list holds records of the shape its tag's decoder produces. */
  predicate Shaped(m: Tables) {
    forall k | k in m :: AllShape(k, m[k])
  }

  /** The four-byte tag of each sub-chunk, as ASCII codes. */
  function Tag(k: Kind): (t: seq<byte>)
    ensures |t| == 4
  {
    match k
    case PHDR => [0x70, 0x68, 0x64, 0x72] // "phdr"
    case PBAG => [0x70, 0x62, 0x61, 0x67] // "pbag"
    case PMOD => [0x70, 0x6d, 0x6f, 0x64] // "pmod"
    case PGEN => [0x70, 0x67, 0x65, 0x6e] // "pgen"
    case INST => [0x69, 0x6e, 0x73, 0x74] // "inst"
    case IBAG => [0x69, 0x62, 0x61, 0x67] // "ibag"
    case IMOD => [0x69, 0x6d, 0x6f, 0x64] // "imod"
    case IGEN => [0x69, 0x67, 0x65, 0x6e] // "igen"
    case SHDR => [0x73, 0x68, 0x64, 0x72] // "shdr"
  }

  /** The sub-chunk a tag names, if it names one. */
  function KindOf(id: seq<byte>): (r: Option<Kind>)
    ensures r.Some? ==> Tag(r.value) == id
    ensures forall k: Kind :: Tag(k) == id ==> r == Some(k)
  {
    if id == Tag(PHDR) then Some(PHDR)
    else if id == Tag(PBAG) then Some(PBAG)
    else if id == Tag(PMOD) then Some(PMOD)
    else if id == Tag(PGEN) then Some(PGEN)
    else if id == Tag(INST) then Some(INST)
    else if id == Tag(IBAG) then Some(IBAG)
    else if id == Tag(IMOD) then Some(IMOD)
    else if id == Tag(IGEN) then Some(IGEN)
    else if id == Tag(SHDR) then Some(SHDR)
    else None
  }

  // ---------------------------------------------------------------------
  // The sub-chunk loop
  // ---------------------------------------------------------------------

  /** One decoded sub-chunk: its tag, its declared size and its records. */
  datatype Piece = Piece(kind: Kind, size: nat, records: seq<Record>)

  /** One pass of the loop body: the sub-chunk header, then the decoder the
      tag names run on the declared size. */
  function ReadPiece(c: Cursor): (r: Result<Read<Piece>>)
    ensures r.Success? ==> var p := r.value.value;
              && AllShape(p.kind, p.records)
              && 8 + p.size <= Remaining(c) && r.value.next == Skip(c, 8 + p.size)
    ensures ChunkHeader(c).Success? && KindOf(ChunkHeader(c).value.value.id).None? ==>
              r == Failure(UnknownChunk(PdtaList))
  {
    var h :- ChunkHeader(c);
    match KindOf(h.value.id)
    case None => Failure(UnknownChunk(PdtaList))
    case Some(k) =>
      var recs :- DecodeRecords(k, h.next, h.value.size);
      Success(Read(Piece(k, h.value.size, recs.value), recs.next))
  }

  /** A reader of one sub-chunk. */
  type PieceReader = Cursor -> Result<Read<Piece>>

  /** The loop body of parse_pdta as a reader. */
  function PieceDecoder(): PieceReader {
    (c: Cursor) => ReadPiece(c)
  }

  /** `read` moves past exactly the sub-chunk it returns, whose records have
      the shape its tag's decoder produces. */
  ghost predicate Advances(read: PieceReader) {
    forall d: Cursor :: read(d).Success? ==>
      && AllShape(read(d).value.value.kind, read(d).value.value.records)
      && 8 + read(d).value.value.size <= Remaining(d)
      && read(d).value.next == Skip(d, 8 + read(d).value.value.size)
  }

  lemma PieceDecoderAdvances()
    ensures Advances(PieceDecoder())
  {
  }

  /** The `while ckSize > 0` loop of parse_pdta, `budget` being what is left
      of the LIST size and `read` the loop body: each sub-chunk is stored
      under its tag, replacing an earlier one with the same tag, and its size
      plus eight is taken off the budget. The loop stops once the budget is
      no longer positive; overshooting it raises. */
  function SubChunks(read: PieceReader, c: Cursor, budget: int, m: Tables): (r: Result<Read<Tables>>)
    requires Advances(read)
    decreases budget
    ensures budget < 0 ==> r == Failure(ListOverrun)
    ensures r.Success? ==> 0 <= budget <= Remaining(c) && r.value.next == Skip(c, budget)
    ensures r.Success? ==> m.Keys <= r.value.value.Keys
    ensures r.Success? && Shaped(m) ==> Shaped(r.value.value)
  {
    if budget <= 0 then
      if budget < 0 then Failure(ListOverrun) else Success(Read(m, c))
    else
      var p :- read(c);
      ShapedUpdate(m, p.value.kind, p.value.records);
      SubChunks(read, p.next, budget - (p.value.size + 8), m[p.value.kind := p.value.records])
  }

  /** Storing a list of the right shape keeps the dictionary shaped. */
  lemma ShapedUpdate(m: Tables, k: Kind, rs: seq<Record>)
    ensures Shaped(m) && AllShape(k, rs) ==> Shaped(m[k := rs])
  {
    if Shaped(m) && AllShape(k, rs) {
      var m' := m[k := rs];
      forall j | j in m'
        ensures AllShape(j, m'[j])
      {
        if j != k {
          assert m'[j] == m[j];
        }
      }
    }
  }

  // ---------------------------------------------------------------------
  // The cross-reference pass
  // ---------------------------------------------------------------------

  /** The sub-chunk whose second-to-last record holds each index field. */
  function Holder(f: IndexField): Kind {
    match f
    case PresetBagNdx => PHDR
    case GenNdx | ModNdx => PBAG
    case InstBagNdx => INST
    case InstGenNdx | InstModNdx => IBAG
  }

  /** The sub-chunk whose length each index field is compared with. phdr's
      wPresetBagNdx is compared with the length of phdr itself. */
  function Target(f: IndexField): Kind {
    match f
    case PresetBagNdx => PHDR
    case GenNdx => PGEN
    case ModNdx => PMOD
    case InstBagNdx => IBAG
    case InstGenNdx => IGEN
    case InstModNdx => IMOD
  }

  /** The value of index field `f` in a record of its holder's shape. */
  function FieldValue(f: IndexField, r: Record): nat
    requires Shape(Holder(f), r)
  {
    match f
    case PresetBagNdx => r.presetBagNdx
    case GenNdx | InstGenNdx => r.genNdx
    case ModNdx | InstModNdx => r.modNdx
    case InstBagNdx => r.instBagNdx
  }

  /** `pdta[k][-2]`: the second-to-last record of sub-chunk `k`. An absent
      sub-chunk is `None`, which cannot be indexed; a list of fewer than two
      records has no such element. */
  function SecondToLast(m: Tables, k: Kind): (r: Result<Record>)
    requires Shaped(m)
    ensures k !in m ==> r == Failure(MissingChunk(k))
    ensures k in m && |m[k]| < 2 ==> r == Failure(TooFewRecords(k))
    ensures k in m && |m[k]| >= 2 ==> r == Success(m[k][|m[k]| - 2]) && Shape(k, r.value)
  {
    if k !in m then Failure(MissingChunk(k))
    else if |m[k]| < 2 then Failure(TooFewRecords(k))
    else Success(m[k][|m[k]| - 2])
  }

  /** `len(pdta[k])`, which fails on an absent sub-chunk. */
  function Length(m: Tables, k: Kind): (r: Result<nat>)
    ensures k !in m ==> r == Failure(MissingChunk(k))
    ensures k in m ==> r == Success(|m[k]|)
  {
    if k !in m then Failure(MissingChunk(k)) else Success(|m[k]|)
  }

  /** One `if index >= length` test: it raises unless out-of-range indices
      are ignored, in which case the message is printed and recorded here as
      a warning. */
  function Flag(f: IndexField, index: nat, length: nat, lenient: bool, warnings: seq<IndexField>)
    : (r: Result<seq<IndexField>>)
    ensures index < length ==> r == Success(warnings)
    ensures index >= length && lenient ==> r == Success(warnings + [f])
    ensures index >= length && !lenient ==> r == Failure(IndexOutOfRange(f))
  {
    if index >= length then
      if lenient then Success(warnings + [f]) else Failure(IndexOutOfRange(f))
    else Success(warnings)
  }

  /** One of the six `if ...[-2][field] >= len(...)` tests: the holder's
      second-to-last record, then the target's length, then the comparison. */
  function Test(m: Tables, f: IndexField, lenient: bool, warnings: seq<IndexField>)
    : (r: Result<seq<IndexField>>)
    requires Shaped(m)
  {
    var holder :- SecondToLast(m, Holder(f));
    var length :- Length(m, Target(f));
    Flag(f, FieldValue(f, holder), length, lenient, warnings)
  }

  /** The index fields in the order the cross-reference pass tests them. */
  const TestOrder: seq<IndexField> :=
    [PresetBagNdx, GenNdx, ModNdx, InstBagNdx, InstGenNdx, InstModNdx]

  /** The tests of `fs` run in order, the first failure raising. */
  function Audit(m: Tables, fs: seq<IndexField>, lenient: bool, warnings: seq<IndexField>)
    : (r: Result<seq<IndexField>>)
    requires Shaped(m)
    decreases |fs|
  {
    if fs == [] then Success(warnings)
    else
      var w :- Test(m, fs[0], lenient, warnings);
      Audit(m, fs[1..], lenient, w)
  }

  /** The cross-reference pass after the sub-chunk loop. `lenient` is
      `ignoreIndexOutOfRange`; the result lists the index fields reported as
      out of range. */
  function CrossRef(m: Tables, lenient: bool): (r: Result<seq<IndexField>>)
    requires Shaped(m)
  {
    Audit(m, TestOrder, lenient, [])
  }

  // ---------------------------------------------------------------------
  // What each test decides
  // ---------------------------------------------------------------------

  /** What test `f` finds missing: the holder list, its second-to-last
      record, or the target list. */
  function Gap(m: Tables, f: IndexField): Option<Error> {
    if Holder(f) !in m then Some(MissingChunk(Holder(f)))
    else if |m[Holder(f)]| < 2 then Some(TooFewRecords(Holder(f)))
    else if Target(f) !in m then Some(MissingChunk(Target(f)))
    else None
  }

  /** Field `f` of the holder's second-to-last record is not below the
      length of the target list. */
  predicate OutOfRange(m: Tables, f: IndexField)
    requires Shaped(m) && Gap(m, f).None?
  {
    var rs := m[Holder(f)];
    FieldValue(f, rs[|rs| - 2]) >= |m[Target(f)]|
  }

  /** What test `f` raises, if anything. */
  function Verdict(m: Tables, f: IndexField, lenient: bool): Option<Error>
    requires Shaped(m)
  {
    if Gap(m, f).Some? then Gap(m, f)
    else if !lenient && OutOfRange(m, f) then Some(IndexOutOfRange(f))
    else None
  }

  /** Field `f` is reported as a warning. */
  predicate Warned(m: Tables, f: IndexField)
    requires Shaped(m)
  {
    Gap(m, f).None? && OutOfRange(m, f)
  }

  /** One test either raises what its verdict says or passes, adding its
      field to the warnings when it is out of range. */
  lemma AuditStep(m: Tables, fs: seq<IndexField>, lenient: bool, w: seq<IndexField>)
    requires Shaped(m) && |fs| > 0
    ensures Verdict(m, fs[0], lenient).Some? ==>
              Audit(m, fs, lenient, w) == Failure(Verdict(m, fs[0], lenient).value)
    ensures Verdict(m, fs[0], lenient).None? ==>
              Audit(m, fs, lenient, w)
                == Audit(m, fs[1..], lenient, if Warned(m, fs[0]) then w + [fs[0]] else w)
  {
  }

  /** The pass succeeds exactly when no test has a verdict, and then the
      warnings are those it started with plus the out-of-range fields among
      the tested ones; with out-of-range indices not ignored, none are added. */
  lemma {:induction false} AuditPasses(m: Tables, fs: seq<IndexField>, lenient: bool, w: seq<IndexField>)
    requires Shaped(m)
    ensures var r := Audit(m, fs, lenient, w);
            && (r.Success? <==> forall i | 0 <= i < |fs| :: Verdict(m, fs[i], lenient).None?)
            && (r.Success? ==> forall f :: f in r.value <==> f in w || (f in fs && Warned(m, f)))
            && (r.Success? && !lenient ==> r.value == w)
    decreases |fs|
  {
    if fs != [] {
      AuditStep(m, fs, lenient, w);
      var w' := if Warned(m, fs[0]) then w + [fs[0]] else w;
      AuditPasses(m, fs[1..], lenient, w');
      assert forall i | 0 < i < |fs| :: fs[i] == fs[1..][i - 1];
    }
  }

  /** The pass raises the verdict of the first test that has one. */
  lemma {:induction false} AuditFirstFailure(m: Tables, fs: seq<IndexField>, lenient: bool,
                                             w: seq<IndexField>, i: nat)
    requires Shaped(m) && i < |fs|
    requires forall j | 0 <= j < i :: Verdict(m, fs[j], lenient).None?
    requires Verdict(m, fs[i], lenient).Some?
    ensures Audit(m, fs, lenient, w) == Failure(Verdict(m, fs[i], lenient).value)
    decreases i
  {
    AuditStep(m, fs, lenient, w);
    if i > 0 {
      var w' := if Warned(m, fs[0]) then w + [fs[0]] else w;
      AuditFirstFailure(m, fs[1..], lenient, w', i - 1);
    }
  }

  /** parse_pdta's checks pass exactly when no index test has a verdict: each
      holder list is present with at least two records, each target list is
      present, and, unless out-of-range indices are ignored, every index is
      in range. The warnings are then exactly the out-of-range fields. */
  lemma CrossRefPasses(m: Tables, lenient: bool)
    requires Shaped(m)
    ensures var r := CrossRef(m, lenient);
            && (r.Success? <==> forall f: IndexField :: Verdict(m, f, lenient).None?)
            && (r.Success? ==> forall f: IndexField :: f in r.value <==> Warned(m, f))
  {
    AuditPasses(m, TestOrder, lenient, []);
    forall f: IndexField
      ensures f in TestOrder
    {
      AllTested(f);
    }
  }

  /** parse_pdta raises what the first failing test in source order raises. */
  lemma CrossRefFirstFailure(m: Tables, lenient: bool, i: nat)
    requires Shaped(m) && i < |TestOrder|
    requires forall j | 0 <= j < i :: Verdict(m, TestOrder[j], lenient).None?
    requires Verdict(m, TestOrder[i], lenient).Some?
    ensures CrossRef(m, lenient) == Failure(Verdict(m, TestOrder[i], lenient).value)
  {
    AuditFirstFailure(m, TestOrder, lenient, [], i);
  }

  /** Every index field is tested. */
  lemma AllTested(f: IndexField)
    ensures f in TestOrder
  {
    assert TestOrder[0] == PresetBagNdx && TestOrder[1] == GenNdx && TestOrder[2] == ModNdx;
    assert TestOrder[3] == InstBagNdx && TestOrder[4] == InstGenNdx && TestOrder[5] == InstModNdx;
  }

  /** No test looks at shdr. */
  lemma TestIgnoresShdr(m: Tables, f: IndexField, lenient: bool, w: seq<IndexField>)
    requires Shaped(m)
    ensures Shaped(m - {SHDR}) && Test(m - {SHDR}, f, lenient, w) == Test(m, f, lenient, w)
  {
    var m' := m - {SHDR};
    assert Holder(f) in m' <==> Holder(f) in m;
    assert Target(f) in m' <==> Target(f) in m;
    if Holder(f) in m {
      assert m'[Holder(f)] == m[Holder(f)];
    }
    if Target(f) in m {
      assert m'[Target(f)] == m[Target(f)];
    }
  }

  lemma {:induction false} AuditIgnoresShdr(m: Tables, fs: seq<IndexField>, lenient: bool,
                                            w: seq<IndexField>)
    requires Shaped(m)
    ensures Shaped(m - {SHDR}) && Audit(m - {SHDR}, fs, lenient, w) == Audit(m, fs, lenient, w)
    decreases |fs|
  {
    TestIgnoresShdr(m, if fs == [] then PresetBagNdx else fs[0], lenient, w);
    if fs != [] {
      var t := Test(m, fs[0], lenient, w);
      if t.Success? {
        AuditIgnoresShdr(m, fs[1..], lenient, t.value);
      }
    }
  }

  /** shdr is never required: the cross-reference pass gives the same answer
      whether or not the file has one. */
  lemma CrossRefIgnoresShdr(m: Tables, lenient: bool)
    requires Shaped(m)
    ensures Shaped(m - {SHDR}) && CrossRef(m - {SHDR}, lenient) == CrossRef(m, lenient)
  {
    AuditIgnoresShdr(m, TestOrder, lenient, []);
  }

  // ---------------------------------------------------------------------
  // parse_pdta
  // ---------------------------------------------------------------------

  /** What parse_pdta returns: the dictionary, and the index fields whose
      out-of-range message it printed instead of raising. */
  datatype PresetData = PresetData(tables: Tables, warnings: seq<IndexField>)

  /** The inside of the pdta LIST: the sub-chunk loop on `budget` bytes,
      then the cross-reference pass on what it stored. */
  function PdtaBody(c: Cursor, budget: int, lenient: bool): (r: Result<Read<PresetData>>)
    ensures r.Success? ==> var d := r.value.value;
              && Shaped(d.tables) && CrossRef(d.tables, lenient) == Success(d.warnings)
              && 0 <= budget <= Remaining(c) && r.value.next == Skip(c, budget)
  {
    PieceDecoderAdvances();
    var body :- SubChunks(PieceDecoder(), c, budget, map[]);
    var warnings :- CrossRef(body.value, lenient);
    Success(Read(PresetData(body.value, warnings), body.next))
  }

  /** parse_pdta: a LIST chunk of form `pdta`, its sub-chunks, then the
      cross-reference pass. */
  function ParsePdta(c: Cursor, lenient: bool): (r: Result<Read<PresetData>>)
    ensures OpenList(c, PdtaForm, PdtaList).Failure? ==>
              r == Failure(OpenList(c, PdtaForm, PdtaList).error)
    ensures r.Success? ==> var d := r.value.value;
              Shaped(d.tables) && CrossRef(d.tables, lenient) == Success(d.warnings)
  {
    var open :- OpenList(c, PdtaForm, PdtaList);
    PdtaBody(open.next, open.value, lenient)
  }

  /** Whatever parse_pdta returns has passed every index test it makes, and
      its warnings are exactly the out-of-range fields. */
  lemma ParsePdtaPasses(c: Cursor, lenient: bool)
    ensures var r := ParsePdta(c, lenient);
            r.Success? ==> var d := r.value.value;
              && Shaped(d.tables)
              && (forall f: IndexField :: Verdict(d.tables, f, lenient).None?)
              && (forall f: IndexField :: f in d.warnings <==> Warned(d.tables, f))
  {
    var r := ParsePdta(c, lenient);
    if r.Success? {
      CrossRefPasses(r.value.value.tables, lenient);
    }
  }


  // ---------------------------------------------------------------------
  // Reading back what was written
  // ---------------------------------------------------------------------

  /** A sub-chunk a writer can emit and the decoder accepts: records of the
      right shape and ranges, in the order the decoder tests, and the size
      field holding the length of their encoding. */
  predicate Writable(p: Piece) {
    && AllShape(p.kind, p.records) && AllFit(p.records) && Ordered(p.kind, None, p.records)
    && p.size == |EncodeAll(p.kind, p.records)| && p.size < 0x1_0000_0000
  }

  /** A sub-chunk as bytes: tag, size, records. */
  function EncodePiece(p: Piece): (bs: seq<byte>)
    requires Writable(p)
    ensures |bs| == 8 + p.size
  {
    Tag(p.kind) + Le(p.size, 4) + EncodeAll(p.kind, p.records)
  }

  /** Sub-chunks one after another. */
  function EncodePieces(ps: seq<Piece>): (bs: seq<byte>)
    requires forall i | 0 <= i < |ps| :: Writable(ps[i])
  {
    if ps == [] then [] else EncodePiece(ps[0]) + EncodePieces(ps[1..])
  }

  /** The dictionary after storing each sub-chunk in turn, a later one
      replacing an earlier one with the same tag. */
  function Collect(m: Tables, ps: seq<Piece>): Tables
    decreases |ps|
  {
    if ps == [] then m else Collect(m[ps[0].kind := ps[0].records], ps[1..])
  }

  /** The loop body reads back a sub-chunk written at the cursor. */
  lemma ReadPieceRoundTrip(c: Cursor, p: Piece)
    requires Writable(p) && Spells(c, EncodePiece(p))
    ensures ReadPiece(c) == Success(Read(p, Skip(c, 8 + p.size)))
  {
    var head := Tag(p.kind) + Le(p.size, 4);
    var d := Skip(c, 8);
    SpellsConcat(c, head, EncodeAll(p.kind, p.records));
    ChunkHeaderRoundTrip(c, Tag(p.kind), p.size);
    DecodeRecordsRoundTrip(p.kind, d, p.records);
    assert KindOf(Tag(p.kind)) == Some(p.kind);
    assert DecodeRecords(p.kind, d, p.size) == Success(Read(p.records, Skip(d, p.size)));
    assert Skip(d, p.size) == Skip(c, 8 + p.size);
  }

  /** `read` reads back every sub-chunk from its encoding. */
  ghost predicate ReadsPieceBack(read: PieceReader) {
    forall d: Cursor, p: Piece {:trigger Spells(d, EncodePiece(p))}
      | Writable(p) && Spells(d, EncodePiece(p)) ::
      read(d) == Success(Read(p, Skip(d, 8 + p.size)))
  }

  lemma PieceDecoderReadsBack()
    ensures ReadsPieceBack(PieceDecoder())
  {
    forall d: Cursor, p: Piece | Writable(p) && Spells(d, EncodePiece(p))
      ensures PieceDecoder()(d) == Success(Read(p, Skip(d, 8 + p.size)))
    {
      ReadPieceRoundTrip(d, p);
    }
  }

  /** One turn of the sub-chunk loop on a budget that is still positive. */
  lemma SubChunksStep(read: PieceReader, c: Cursor, budget: int, m: Tables, p: Piece, d: Cursor)
    requires Advances(read) && budget > 0 && read(c) == Success(Read(p, d))
    ensures SubChunks(read, c, budget, m) == SubChunks(read, d, budget - (p.size + 8), m[p.kind := p.records])
  {
  }

  /** Written sub-chunks are the first one followed by the rest. */
  lemma PiecesUncons(c: Cursor, ps: seq<Piece>)
    requires ps != [] && forall i | 0 <= i < |ps| :: Writable(ps[i])
    requires Spells(c, EncodePieces(ps))
    ensures forall i | 0 <= i < |ps[1..]| :: Writable(ps[1..][i])
    ensures |EncodePieces(ps)| == 8 + ps[0].size + |EncodePieces(ps[1..])|
    ensures Spells(c, EncodePiece(ps[0])) && Spells(Skip(c, 8 + ps[0].size), EncodePieces(ps[1..]))
  {
    SpellsConcat(c, EncodePiece(ps[0]), EncodePieces(ps[1..]));
  }

  /** The sub-chunk loop, given a budget equal to the bytes of the
      sub-chunks written at the cursor, reads them all back and stores them
      in file order. */
  lemma {:induction false} SubChunksRoundTrip(read: PieceReader, c: Cursor, ps: seq<Piece>, m: Tables)
    requires Advances(read) && ReadsPieceBack(read)
    requires forall i | 0 <= i < |ps| :: Writable(ps[i])
    requires Spells(c, EncodePieces(ps))
    ensures var n := |EncodePieces(ps)|;
            SubChunks(read, c, n, m) == Success(Read(Collect(m, ps), Skip(c, n)))
    decreases |ps|
  {
    if ps == [] {
      assert Skip(c, 0) == c;
    } else {
      PiecesUncons(c, ps);
      var n := |EncodePieces(ps)|;
      var d := Skip(c, 8 + ps[0].size);
      var m' := m[ps[0].kind := ps[0].records];
      assert read(c) == Success(Read(ps[0], d));
      SubChunksRoundTrip(read, d, ps[1..], m');
      SubChunksStep(read, c, n, m, ps[0], d);
      assert Skip(d, |EncodePieces(ps[1..])|) == Skip(c, n);
    }
  }

  /** Storing lists of the right shape keeps the dictionary shaped. */
  lemma {:induction false} CollectShaped(m: Tables, ps: seq<Piece>)
    requires Shaped(m) && forall i | 0 <= i < |ps| :: Writable(ps[i])
    ensures Shaped(Collect(m, ps))
    decreases |ps|
  {
    if ps != [] {
      ShapedUpdate(m, ps[0].kind, ps[0].records);
      assert forall i | 0 <= i < |ps[1..]| :: Writable(ps[1..][i]) by {
        assert forall i | 0 <= i < |ps[1..]| :: ps[1..][i] == ps[i + 1];
      }
      CollectShaped(m[ps[0].kind := ps[0].records], ps[1..]);
    }
  }

  /** The inside of a written pdta LIST reads back into the dictionary of
      its sub-chunks and then answers as the cross-reference pass on it. */
  lemma PdtaBodyRoundTrip(c: Cursor, ps: seq<Piece>, lenient: bool)
    requires forall i | 0 <= i < |ps| :: Writable(ps[i])
    requires Spells(c, EncodePieces(ps))
    ensures Shaped(Collect(map[], ps))
    ensures var m := Collect(map[], ps);
            var n := |EncodePieces(ps)|;
            var r := PdtaBody(c, n, lenient);
            && (CrossRef(m, lenient).Failure? ==> r == Failure(CrossRef(m, lenient).error))
            && (CrossRef(m, lenient).Success? ==>
                  r == Success(Read(PresetData(m, CrossRef(m, lenient).value), Skip(c, n))))
  {
    PieceDecoderAdvances();
    PieceDecoderReadsBack();
    SubChunksRoundTrip(PieceDecoder(), c, ps, map[]);
    CollectShaped(map[], ps);
  }

  /** parse_pdta reads a written pdta LIST back into the dictionary of its
      sub-chunks, a later sub-chunk replacing an earlier one with the same
      tag, and then answers as the cross-reference pass on that dictionary. */
  lemma ParsePdtaRoundTrip(c: Cursor, ps: seq<Piece>, lenient: bool)
    requires forall i | 0 <= i < |ps| :: Writable(ps[i])
    requires 4 + |EncodePieces(ps)| < 0x1_0000_0000
    requires Spells(c, EncodeList(PdtaForm, EncodePieces(ps)))
    ensures Shaped(Collect(map[], ps))
    ensures var m := Collect(map[], ps);
            var n := 12 + |EncodePieces(ps)|;
            var r := ParsePdta(c, lenient);
            && (CrossRef(m, lenient).Failure? ==> r == Failure(CrossRef(m, lenient).error))
            && (CrossRef(m, lenient).Success? ==>
                  n <= Remaining(c) && r == Success(Read(PresetData(m, CrossRef(m, lenient).value), Skip(c, n))))
  {
    var body := EncodePieces(ps);
    OpenListRoundTrip(c, PdtaForm, body, PdtaList);
    PdtaBodyRoundTrip(Skip(c, 12), ps, lenient);
    assert Skip(Skip(c, 12), |body|) == Skip(c, 12 + |body|);
  }
}
