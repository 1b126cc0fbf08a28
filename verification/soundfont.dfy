/** `parse` and `parse_sfbk`: the outer RIFF chunk of form `sfbk`, which
    holds the INFO, sdta and pdta LIST chunks in that order. */
module SoundFont {
  import opened Outcome
  import opened Cursors
  import opened Lists
  import opened Info
  import opened Sdta
  import opened Pdta

  /** The outer chunk tag "RIFF" and the SoundFont form tag "sfbk". */
  const RiffTag: seq<byte> := [0x52, 0x49, 0x46, 0x46] // "RIFF"
  const SfbkForm: seq<byte> := [0x73, 0x66, 0x62, 0x6b] // "sfbk"

  /** The two switches of the parser's constructor: `ignore_errors` (a bad
      version size and a missing ifil are let through) and
      `ignoreIndexOutOfRange` (a dangling index is reported instead of
      raised). */
  datatype Options = Options(ignoreErrors: bool, ignoreIndexOutOfRange: bool)

  /** The constructor's defaults: errors are not ignored, dangling indices
      are. `Parse(file, DefaultOptions)` is `SF2Parser(filename).parse()`. */
  const DefaultOptions: Options := Options(false, true)

  /** With the defaults, the cross-reference pass fails only on a missing
      list or a list too short to have a second-to-last record, never on an
      index out of range; those are all reported as warnings. */
  lemma DefaultsOnlyWarn(m: Tables)
    requires Shaped(m)
    ensures var r := CrossRef(m, DefaultOptions.ignoreIndexOutOfRange);
            && (r.Success? <==> forall f: IndexField :: Gap(m, f).None?)
            && (r.Success? ==> forall f: IndexField :: f in r.value <==> Warned(m, f))
  {
    CrossRefPasses(m, DefaultOptions.ignoreIndexOutOfRange);
  }

  /** What parse leaves behind: a file that is not a RIFF chunk of form
      `sfbk` leaves the three dictionaries empty (the parser only prints a
      message); otherwise the three parsed LIST chunks. */
  datatype Bank =
    | NotSoundFont
    | SoundFont(info: Entries, samples: SampleData, presets: PresetData)

  /** The three LIST chunks of a `sfbk` form, each parsed where the
      previous one ended. */
  function SfbkLists(c: Cursor, opts: Options): (r: Result<Bank>)
    ensures ParseInfo(c, opts.ignoreErrors).Failure? ==> r == Failure(ParseInfo(c, opts.ignoreErrors).error)
    ensures var info := ParseInfo(c, opts.ignoreErrors);
            info.Success? && ParseSdta(info.value.next).Failure? ==>
              r == Failure(ParseSdta(info.value.next).error)
    ensures var info := ParseInfo(c, opts.ignoreErrors);
            info.Success? && ParseSdta(info.value.next).Success? ==>
              var sdta := ParseSdta(info.value.next).value;
              var pdta := ParsePdta(sdta.next, opts.ignoreIndexOutOfRange);
              && (pdta.Failure? ==> r == Failure(pdta.error))
              && (pdta.Success? ==> r == Success(SoundFont(info.value.value, sdta.value, pdta.value.value)))
    ensures r.Success? ==> r.value.SoundFont?
    ensures r.Success? ==> && Sound(r.value.info)
                           && (!opts.ignoreErrors ==> IFIL in r.value.info)
                           && Coarsened(r.value.samples)
                           && Shaped(r.value.presets.tables)
                           && CrossRef(r.value.presets.tables, opts.ignoreIndexOutOfRange)
                                == Success(r.value.presets.warnings)
  {
    var info :- ParseInfo(c, opts.ignoreErrors);
    var sdta :- ParseSdta(info.next);
    var pdta :- ParsePdta(sdta.next, opts.ignoreIndexOutOfRange);
    Success(SoundFont(info.value, sdta.value, pdta.value))
  }

  /** parse_sfbk: the form tag, then the three LIST chunks if it is `sfbk`. */
  function ParseSfbk(c: Cursor, opts: Options): (r: Result<Bank>)
    ensures FourCC(c).value != SfbkForm ==> r == Success(NotSoundFont)
    ensures FourCC(c).value == SfbkForm ==> r == SfbkLists(Skip(c, 4), opts)
  {
    var form := FourCC(c);
    if form.value != SfbkForm then Success(NotSoundFont)
    else SfbkLists(form.next, opts)
  }

  /** parse: the outer chunk header, then parse_sfbk if it is a RIFF chunk.
      The RIFF size is not used; a chunk of another kind is skipped and
      leaves the bank empty. Too few bytes for the header raise. */
  function ParseBank(c: Cursor, opts: Options): (r: Result<Bank>)
    ensures ChunkHeader(c).Failure? ==> r == Failure(Truncated)
    ensures ChunkHeader(c).Success? && ChunkHeader(c).value.value.id != RiffTag ==> r == Success(NotSoundFont)
    ensures ChunkHeader(c).Success? && ChunkHeader(c).value.value.id == RiffTag ==>
              r == ParseSfbk(ChunkHeader(c).value.next, opts)
    ensures r.Success? && r.value.SoundFont? ==> ChunkHeader(c).value.value.id == RiffTag
  {
    var h :- ChunkHeader(c);
    if h.value.id != RiffTag then Success(NotSoundFont)
    else ParseSfbk(h.next, opts)
  }

  /** A whole file, read from its first byte. */
  function Parse(file: seq<byte>, opts: Options): (r: Result<Bank>)
    ensures |file| < 8 ==> r == Failure(Truncated)
    ensures 8 <= |file| && file[..4] != RiffTag ==> r == Success(NotSoundFont)
    ensures 8 <= |file| && file[..4] == RiffTag ==> r == ParseSfbk(Stream(file, 8), opts)
  {
    ParseBank(Stream(file, 0), opts)
  }

  // ---------------------------------------------------------------------
  // Reading a written bank back
  // ---------------------------------------------------------------------

  /** The INFO LIST of written sub-chunks. */
  function EncodeInfo(es: seq<InfoChunk>): (bs: seq<byte>)
    requires forall i | 0 <= i < |es| :: Info.Writable(es[i])
    requires 4 + |EncodeChunks(es)| < 0x1_0000_0000
    ensures |bs| == 12 + |EncodeChunks(es)|
  {
    EncodeList(InfoForm, EncodeChunks(es))
  }

  /** The sdta LIST holding one smpl sub-chunk. */
  function EncodeSdta(vs: seq<int>): (bs: seq<byte>)
    requires Int16s(vs) && 12 + 2 * |vs| < 0x1_0000_0000
    ensures |bs| == 20 + 2 * |vs|
  {
    EncodeList(SdtaForm, EncodeSmpl(vs))
  }

  /** The pdta LIST of written sub-chunks. */
  function EncodePdta(ps: seq<Piece>): (bs: seq<byte>)
    requires forall i | 0 <= i < |ps| :: Pdta.Writable(ps[i])
    requires 4 + |EncodePieces(ps)| < 0x1_0000_0000
    ensures |bs| == 12 + |EncodePieces(ps)|
  {
    EncodeList(PdtaForm, EncodePieces(ps))
  }

  /** The RIFF chunk of form `sfbk` around three LIST chunks. The declared
      size is a parameter: the parser never reads it, so it need not be the
      true one. */
  function EncodeBank(size: nat, info: seq<byte>, sdta: seq<byte>, pdta: seq<byte>): (bs: seq<byte>)
    requires size < 0x1_0000_0000
    ensures |bs| == 12 + |info| + |sdta| + |pdta|
  {
    RiffTag + Le(size, 4) + SfbkForm + info + sdta + pdta
  }

  /** The three LIST chunks one after the other. */
  function EncodeLists(es: seq<InfoChunk>, vs: seq<int>, ps: seq<Piece>): (bs: seq<byte>)
    requires forall i | 0 <= i < |es| :: Info.Writable(es[i])
    requires 4 + |EncodeChunks(es)| < 0x1_0000_0000
    requires Int16s(vs) && 12 + 2 * |vs| < 0x1_0000_0000
    requires forall i | 0 <= i < |ps| :: Pdta.Writable(ps[i])
    requires 4 + |EncodePieces(ps)| < 0x1_0000_0000
    ensures |bs| == |EncodeInfo(es)| + |EncodeSdta(vs)| + |EncodePdta(ps)|
  {
    EncodeInfo(es) + EncodeSdta(vs) + EncodePdta(ps)
  }

  /** Where each part of a written bank lies. */
  lemma BankParts(c: Cursor, size: nat, info: seq<byte>, sdta: seq<byte>, pdta: seq<byte>)
    requires size < 0x1_0000_0000
    requires Spells(c, EncodeBank(size, info, sdta, pdta))
    ensures ChunkHeader(c) == Success(Read(Header(RiffTag, size), Skip(c, 8)))
    ensures FourCC(Skip(c, 8)) == Read(SfbkForm, Skip(c, 12))
    ensures Spells(Skip(c, 12), info + sdta + pdta)
  {
    var head := RiffTag + Le(size, 4);
    assert EncodeBank(size, info, sdta, pdta) == head + SfbkForm + (info + sdta + pdta);
    SpellsConcat(c, head + SfbkForm, info + sdta + pdta);
    SpellsConcat(c, head, SfbkForm);
    ChunkHeaderRoundTrip(c, RiffTag, size);
    SkipSkip(c, 8, 4);
  }

  /** Where each of three consecutive parts lies. */
  lemma ThreeParts(c: Cursor, a: seq<byte>, b: seq<byte>, d: seq<byte>)
    requires Spells(c, a + b + d)
    ensures Spells(c, a) && Spells(Skip(c, |a|), b) && Spells(Skip(c, |a| + |b|), d)
  {
    SpellsConcat(c, a + b, d);
    SpellsConcat(c, a, b);
  }

  /** The written INFO list is read back when no singular tag repeats and
      ifil is present or errors are ignored. */
  predicate InfoReadable(es: seq<InfoChunk>, ignoreErrors: bool) {
    NoRepeat(map[], es) && (ignoreErrors || Fields(es, IFIL) != [])
  }

  /** The three written LIST chunks are read back: INFO fails on a
      repeated singular tag or a missing ifil, pdta fails on a dangling
      index unless those are ignored, and otherwise the bank holds the
      written fields in file order, the written samples scaled by 256, and
      the written pdta tables. */
  lemma SfbkListsRoundTrip(c: Cursor, es: seq<InfoChunk>, vs: seq<int>, ps: seq<Piece>, opts: Options)
    requires forall i | 0 <= i < |es| :: Info.Writable(es[i])
    requires 4 + |EncodeChunks(es)| < 0x1_0000_0000
    requires Int16s(vs) && 12 + 2 * |vs| < 0x1_0000_0000
    requires forall i | 0 <= i < |ps| :: Pdta.Writable(ps[i])
    requires 4 + |EncodePieces(ps)| < 0x1_0000_0000
    requires Spells(c, EncodeLists(es, vs, ps))
    ensures Shaped(Collect(map[], ps))
    ensures !NoRepeat(map[], es) ==>
              SfbkLists(c, opts).Failure? && SfbkLists(c, opts).error.SingularRepeated?
    ensures NoRepeat(map[], es) && !InfoReadable(es, opts.ignoreErrors) ==>
              SfbkLists(c, opts) == Failure(MissingIfil)
    ensures var x := CrossRef(Collect(map[], ps), opts.ignoreIndexOutOfRange);
            InfoReadable(es, opts.ignoreErrors) && x.Failure? ==> SfbkLists(c, opts) == Failure(x.error)
    ensures var x := CrossRef(Collect(map[], ps), opts.ignoreIndexOutOfRange);
            var r := SfbkLists(c, opts);
            InfoReadable(es, opts.ignoreErrors) && x.Success? ==>
              && r.Success?
              && (forall k :: Get(r.value.info, k) == Fields(es, k))
              && r.value.samples == SampleData(Some(Scaled(vs)), None)
              && r.value.presets == PresetData(Collect(map[], ps), x.value)
  {
    var i := EncodeInfo(es);
    var s := EncodeSdta(vs);
    ThreeParts(c, i, s, EncodePdta(ps));
    CollectShaped(map[], ps);
    ParseInfoRoundTrip(c, es, opts.ignoreErrors);
    if InfoReadable(es, opts.ignoreErrors) {
      var info := ParseInfo(c, opts.ignoreErrors).value;
      ParseSdtaRoundTrip(Skip(c, |i|), vs);
      SkipSkip(c, |i|, |s|);
      var sdta := Read(SampleData(Some(Scaled(vs)), None), Skip(c, |i| + |s|));
      assert info.next == Skip(c, |i|);
      assert Skip(Skip(c, |i|), 20 + 2 * |vs|) == sdta.next;
      assert ParseSdta(info.next) == Success(sdta);
      ParsePdtaRoundTrip(Skip(c, |i| + |s|), ps, opts.ignoreIndexOutOfRange);
    }
  }

  /** A written bank is read back as its three LIST chunks are, whatever
      size the RIFF header declares. */
  lemma ParseBankRoundTrip(c: Cursor, size: nat, es: seq<InfoChunk>, vs: seq<int>, ps: seq<Piece>, opts: Options)
    requires forall i | 0 <= i < |es| :: Info.Writable(es[i])
    requires 4 + |EncodeChunks(es)| < 0x1_0000_0000
    requires Int16s(vs) && 12 + 2 * |vs| < 0x1_0000_0000
    requires forall i | 0 <= i < |ps| :: Pdta.Writable(ps[i])
    requires 4 + |EncodePieces(ps)| < 0x1_0000_0000
    requires size < 0x1_0000_0000
    requires Spells(c, EncodeBank(size, EncodeInfo(es), EncodeSdta(vs), EncodePdta(ps)))
    ensures ParseBank(c, opts) == SfbkLists(Skip(c, 12), opts)
    ensures Shaped(Collect(map[], ps))
    ensures !NoRepeat(map[], es) ==>
              ParseBank(c, opts).Failure? && ParseBank(c, opts).error.SingularRepeated?
    ensures NoRepeat(map[], es) && !InfoReadable(es, opts.ignoreErrors) ==>
              ParseBank(c, opts) == Failure(MissingIfil)
    ensures var x := CrossRef(Collect(map[], ps), opts.ignoreIndexOutOfRange);
            InfoReadable(es, opts.ignoreErrors) && x.Failure? ==> ParseBank(c, opts) == Failure(x.error)
    ensures var x := CrossRef(Collect(map[], ps), opts.ignoreIndexOutOfRange);
            var r := ParseBank(c, opts);
            InfoReadable(es, opts.ignoreErrors) && x.Success? ==>
              && r.Success? && r.value.SoundFont?
              && (forall k :: Get(r.value.info, k) == Fields(es, k))
              && r.value.samples == SampleData(Some(Scaled(vs)), None)
              && r.value.presets == PresetData(Collect(map[], ps), x.value)
  {
    var i, s, p := EncodeInfo(es), EncodeSdta(vs), EncodePdta(ps);
    BankParts(c, size, i, s, p);
    SkipSkip(c, 8, 4);
    assert EncodeLists(es, vs, ps) == i + s + p;
    SfbkListsRoundTrip(Skip(c, 12), es, vs, ps, opts);
  }
}
