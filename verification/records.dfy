/** The nine fixed-width pdta record decoders `parse_phdr` … `parse_shdr`
    (SoundFont 2.04, sections 7.2 to 7.10): each checks that the chunk size is
    a multiple of the record width, decodes one record per width, and four of
    them reject an index field that decreases between consecutive records. */
module Records {
  import opened Outcome
  import opened Cursors

  /** One pdta record. pbag/ibag share `Bag`, pmod/imod share `ModList` and
      pgen/igen share `GenList`, as their byte layouts do. */
  datatype Record =
    | PresetHeader(name: seq<byte>, preset: nat, bank: nat, presetBagNdx: nat,
                   library: nat, genre: nat, morphology: nat)
    | Bag(genNdx: nat, modNdx: nat)
    | ModList(srcOper: nat, destOper: nat, modAmount: int, amtSrcOper: nat, transOper: nat)
    | GenList(oper: nat, genAmount: nat)
    | InstHeader(name: seq<byte>, instBagNdx: nat)
    | SampleHeader(name: seq<byte>, start: nat, end: nat, startLoop: nat, endLoop: nat,
                   sampleRate: nat, originalPitch: byte, pitchCorrection: int,
                   sampleLink: nat, sampleType: nat)

  /** The record width of each sub-chunk in bytes. */
  function Width(k: Kind): nat {
    match k
    case PHDR => 38
    case PBAG => 4
    case PMOD => 10
    case PGEN => 4
    case INST => 22
    case IBAG => 4
    case IMOD => 10
    case IGEN => 4
    case SHDR => 46
  }

  /** Which constructor the records of a sub-chunk use. */
  predicate Shape(k: Kind, r: Record) {
    match k
    case PHDR => r.PresetHeader?
    case PBAG | IBAG => r.Bag?
    case PMOD | IMOD => r.ModList?
    case PGEN | IGEN => r.GenList?
    case INST => r.InstHeader?
    case SHDR => r.SampleHeader?
  }

  predicate AllShape(k: Kind, rs: seq<Record>) {
    forall i | 0 <= i < |rs| :: Shape(k, rs[i])
  }

  predicate AllFit(rs: seq<Record>) {
    forall i | 0 <= i < |rs| :: Fits(rs[i])
  }

  predicate U16(n: int) { 0 <= n < 0x1_0000 }
  predicate U32(n: int) { 0 <= n < 0x1_0000_0000 }

  /** A 20-byte name field as ZSTR leaves it: no zero byte, at most 20 bytes. */
  predicate NameField(name: seq<byte>) {
    |name| <= 20 && NoZero(name)
  }

  /** The field ranges that the byte layout can express. */
  predicate Fits(r: Record) {
    match r
    case PresetHeader(name, preset, bank, bagNdx, library, genre, morphology) =>
      NameField(name) && U16(preset) && U16(bank) && U16(bagNdx)
      && U32(library) && U32(genre) && U32(morphology)
    case Bag(genNdx, modNdx) => U16(genNdx) && U16(modNdx)
    case ModList(srcOper, destOper, modAmount, amtSrcOper, transOper) =>
      U16(srcOper) && U16(destOper) && -0x8000 <= modAmount < 0x8000
      && U16(amtSrcOper) && U16(transOper)
    case GenList(oper, genAmount) => U16(oper) && U16(genAmount)
    case InstHeader(name, bagNdx) => NameField(name) && U16(bagNdx)
    case SampleHeader(name, start, end, startLoop, endLoop, sampleRate, _, pitchCorrection,
                      sampleLink, sampleType) =>
      NameField(name) && U32(start) && U32(end) && U32(startLoop) && U32(endLoop)
      && U32(sampleRate) && -0x80 <= pitchCorrection < 0x80
      && U16(sampleLink) && U16(sampleType)
  }

  // ---------------------------------------------------------------------
  // One record of each kind
  // ---------------------------------------------------------------------

  /** One sfPresetHeader. `check(38)` buffers the whole record before the
      name is scanned, so a 20-byte name without a zero byte still decodes. */
  function DecodePresetHeader(c: Cursor): (r: Result<Read<Record>>)
    ensures r.Success? <==> 38 <= Remaining(c)
    ensures r.Success? ==> r.value.value.PresetHeader? && Fits(r.value.value)
                           && r.value.next == Stream(c.data, c.pos + 38)
  {
    var name :- ZStr(c, 20, 38);
    var preset :- Word(name.next);
    var bank :- Word(preset.next);
    var bagNdx :- Word(bank.next);
    var library :- DWord(bagNdx.next);
    var genre :- DWord(library.next);
    var morphology :- DWord(genre.next);
    Success(Read(PresetHeader(name.value.text, preset.value, bank.value, bagNdx.value,
                              library.value, genre.value, morphology.value),
                 morphology.next))
  }

  /** One sfPresetBag or sfInstBag. */
  function DecodeBag(c: Cursor): (r: Result<Read<Record>>)
    ensures r.Success? <==> 4 <= Remaining(c)
    ensures r.Success? ==> r.value.value.Bag? && Fits(r.value.value)
                           && r.value.next == Stream(c.data, c.pos + 4)
  {
    var genNdx :- Word(c);
    var modNdx :- Word(genNdx.next);
    Success(Read(Bag(genNdx.value, modNdx.value), modNdx.next))
  }

  /** One sfModList or sfInstModList; only modAmount is signed. */
  function DecodeModList(c: Cursor): (r: Result<Read<Record>>)
    ensures r.Success? <==> 10 <= Remaining(c)
    ensures r.Success? ==> r.value.value.ModList? && Fits(r.value.value)
                           && r.value.next == Stream(c.data, c.pos + 10)
  {
    var srcOper :- Word(c);
    var destOper :- Word(srcOper.next);
    var amount :- Short(destOper.next);
    var amtSrcOper :- Word(amount.next);
    var transOper :- Word(amtSrcOper.next);
    Success(Read(ModList(srcOper.value, destOper.value, amount.value, amtSrcOper.value,
                         transOper.value),
                 transOper.next))
  }

  /** One sfGenList or sfInstGenList; genAmount is read as an unsigned WORD. */
  function DecodeGenList(c: Cursor): (r: Result<Read<Record>>)
    ensures r.Success? <==> 4 <= Remaining(c)
    ensures r.Success? ==> r.value.value.GenList? && Fits(r.value.value)
                           && r.value.next == Stream(c.data, c.pos + 4)
  {
    var oper :- Word(c);
    var amount :- Word(oper.next);
    Success(Read(GenList(oper.value, amount.value), amount.next))
  }

  /** One sfInst, with the 22-byte record buffered before the name scan. */
  function DecodeInstHeader(c: Cursor): (r: Result<Read<Record>>)
    ensures r.Success? <==> 22 <= Remaining(c)
    ensures r.Success? ==> r.value.value.InstHeader? && Fits(r.value.value)
                           && r.value.next == Stream(c.data, c.pos + 22)
  {
    var name :- ZStr(c, 20, 22);
    var bagNdx :- Word(name.next);
    Success(Read(InstHeader(name.value.text, bagNdx.value), bagNdx.next))
  }

  /** One sfSample, with the 46-byte record buffered before the name scan. */
  function DecodeSampleHeader(c: Cursor): (r: Result<Read<Record>>)
    ensures r.Success? <==> 46 <= Remaining(c)
    ensures r.Success? ==> r.value.value.SampleHeader? && Fits(r.value.value)
                           && r.value.next == Stream(c.data, c.pos + 46)
  {
    var name :- ZStr(c, 20, 46);
    var start :- DWord(name.next);
    var end :- DWord(start.next);
    var startLoop :- DWord(end.next);
    var endLoop :- DWord(startLoop.next);
    var sampleRate :- DWord(endLoop.next);
    var originalPitch :- Byte(sampleRate.next);
    var pitchCorrection :- Char(originalPitch.next);
    var sampleLink :- Word(pitchCorrection.next);
    var sampleType :- Word(sampleLink.next);
    Success(Read(SampleHeader(name.value.text, start.value, end.value, startLoop.value,
                              endLoop.value, sampleRate.value, originalPitch.value,
                              pitchCorrection.value, sampleLink.value, sampleType.value),
                 sampleType.next))
  }

  /** One record of sub-chunk `k` (the body of the `while ckSize > 0` loops). */
  function DecodeRecord(k: Kind, c: Cursor): (r: Result<Read<Record>>)
    ensures r.Success? <==> Width(k) <= Remaining(c)
    ensures r.Success? ==> Shape(k, r.value.value) && Fits(r.value.value)
                           && r.value.next == Stream(c.data, c.pos + Width(k))
  {
    match k
    case PHDR => DecodePresetHeader(c)
    case PBAG | IBAG => DecodeBag(c)
    case PMOD | IMOD => DecodeModList(c)
    case PGEN | IGEN => DecodeGenList(c)
    case INST => DecodeInstHeader(c)
    case SHDR => DecodeSampleHeader(c)
  }

  // ---------------------------------------------------------------------
  // Writing a record back
  // ---------------------------------------------------------------------

  /** The bytes of one record of sub-chunk `k`, fields in file order. */
  function Encode(k: Kind, r: Record): (bs: seq<byte>)
    requires Shape(k, r) && Fits(r)
    ensures |bs| == Width(k)
  {
    match r
    case PresetHeader(name, preset, bank, bagNdx, library, genre, morphology) =>
      PadZ(name, 20) + Le(preset, 2) + Le(bank, 2) + Le(bagNdx, 2)
      + Le(library, 4) + Le(genre, 4) + Le(morphology, 4)
    case Bag(genNdx, modNdx) => Le(genNdx, 2) + Le(modNdx, 2)
    case ModList(srcOper, destOper, amount, amtSrcOper, transOper) =>
      Le(srcOper, 2) + Le(destOper, 2) + ShortBytes(amount) + Le(amtSrcOper, 2) + Le(transOper, 2)
    case GenList(oper, amount) => Le(oper, 2) + Le(amount, 2)
    case InstHeader(name, bagNdx) => PadZ(name, 20) + Le(bagNdx, 2)
    case SampleHeader(name, start, end, startLoop, endLoop, sampleRate, originalPitch,
                      pitchCorrection, sampleLink, sampleType) =>
      PadZ(name, 20) + Le(start, 4) + Le(end, 4) + Le(startLoop, 4) + Le(endLoop, 4)
      + Le(sampleRate, 4) + [originalPitch] + CharBytes(pitchCorrection)
      + Le(sampleLink, 2) + Le(sampleType, 2)
  }

  lemma PresetHeaderRoundTrip(c: Cursor, r: Record)
    requires r.PresetHeader? && Fits(r) && Spells(c, Encode(PHDR, r))
    ensures DecodePresetHeader(c) == Success(Read(r, Skip(c, 38)))
  {
    var name := PadZ(r.name, 20);
    var preset, bank, bagNdx := Le(r.preset, 2), Le(r.bank, 2), Le(r.presetBagNdx, 2);
    var library, genre, morphology := Le(r.library, 4), Le(r.genre, 4), Le(r.morphology, 4);
    SpellsConcat(c, name + preset + bank + bagNdx + library + genre, morphology);
    SpellsConcat(c, name + preset + bank + bagNdx + library, genre);
    SpellsConcat(c, name + preset + bank + bagNdx, library);
    SpellsConcat(c, name + preset + bank, bagNdx);
    SpellsConcat(c, name + preset, bank);
    SpellsConcat(c, name, preset);
    ZStrRoundTrip(c, r.name, 20, 38);
    WordRoundTrip(Skip(c, 20), r.preset);
    WordRoundTrip(Skip(c, 22), r.bank);
    WordRoundTrip(Skip(c, 24), r.presetBagNdx);
    DWordRoundTrip(Skip(c, 26), r.library);
    DWordRoundTrip(Skip(c, 30), r.genre);
    DWordRoundTrip(Skip(c, 34), r.morphology);
  }

  lemma BagRoundTrip(c: Cursor, r: Record)
    requires r.Bag? && Fits(r) && Spells(c, Encode(PBAG, r))
    ensures DecodeBag(c) == Success(Read(r, Skip(c, 4)))
  {
    SpellsConcat(c, Le(r.genNdx, 2), Le(r.modNdx, 2));
    WordRoundTrip(c, r.genNdx);
    WordRoundTrip(Skip(c, 2), r.modNdx);
  }

  lemma ModListRoundTrip(c: Cursor, r: Record)
    requires r.ModList? && Fits(r) && Spells(c, Encode(PMOD, r))
    ensures DecodeModList(c) == Success(Read(r, Skip(c, 10)))
  {
    var srcOper, destOper, amount := Le(r.srcOper, 2), Le(r.destOper, 2), ShortBytes(r.modAmount);
    var amtSrcOper, transOper := Le(r.amtSrcOper, 2), Le(r.transOper, 2);
    SpellsConcat(c, srcOper + destOper + amount + amtSrcOper, transOper);
    SpellsConcat(c, srcOper + destOper + amount, amtSrcOper);
    SpellsConcat(c, srcOper + destOper, amount);
    SpellsConcat(c, srcOper, destOper);
    WordRoundTrip(c, r.srcOper);
    WordRoundTrip(Skip(c, 2), r.destOper);
    ShortRoundTrip(Skip(c, 4), r.modAmount);
    WordRoundTrip(Skip(c, 6), r.amtSrcOper);
    WordRoundTrip(Skip(c, 8), r.transOper);
  }

  lemma GenListRoundTrip(c: Cursor, r: Record)
    requires r.GenList? && Fits(r) && Spells(c, Encode(PGEN, r))
    ensures DecodeGenList(c) == Success(Read(r, Skip(c, 4)))
  {
    SpellsConcat(c, Le(r.oper, 2), Le(r.genAmount, 2));
    WordRoundTrip(c, r.oper);
    WordRoundTrip(Skip(c, 2), r.genAmount);
  }

  lemma InstHeaderRoundTrip(c: Cursor, r: Record)
    requires r.InstHeader? && Fits(r) && Spells(c, Encode(INST, r))
    ensures DecodeInstHeader(c) == Success(Read(r, Skip(c, 22)))
  {
    SpellsConcat(c, PadZ(r.name, 20), Le(r.instBagNdx, 2));
    ZStrRoundTrip(c, r.name, 20, 22);
    WordRoundTrip(Skip(c, 20), r.instBagNdx);
  }

  /** Where each field of an encoded sample header lies. */
  lemma SampleHeaderFields(c: Cursor, r: Record)
    requires r.SampleHeader? && Fits(r) && Spells(c, Encode(SHDR, r))
    ensures Spells(c, PadZ(r.name, 20))
    ensures Spells(Skip(c, 20), Le(r.start, 4)) && Spells(Skip(c, 24), Le(r.end, 4))
    ensures Spells(Skip(c, 28), Le(r.startLoop, 4)) && Spells(Skip(c, 32), Le(r.endLoop, 4))
    ensures Spells(Skip(c, 36), Le(r.sampleRate, 4)) && Spells(Skip(c, 40), [r.originalPitch])
    ensures Spells(Skip(c, 41), CharBytes(r.pitchCorrection))
    ensures Spells(Skip(c, 42), Le(r.sampleLink, 2)) && Spells(Skip(c, 44), Le(r.sampleType, 2))
  {
    var name, start, end := PadZ(r.name, 20), Le(r.start, 4), Le(r.end, 4);
    var startLoop, endLoop, sampleRate := Le(r.startLoop, 4), Le(r.endLoop, 4), Le(r.sampleRate, 4);
    var pitch, correction := [r.originalPitch], CharBytes(r.pitchCorrection);
    var link, kind := Le(r.sampleLink, 2), Le(r.sampleType, 2);
    var fields := name + start + end + startLoop + endLoop + sampleRate;
    SpellsConcat(c, fields + pitch + correction + link, kind);
    SpellsConcat(c, fields + pitch + correction, link);
    SpellsConcat(c, fields + pitch, correction);
    SpellsConcat(c, fields, pitch);
    SpellsConcat(c, name + start + end + startLoop + endLoop, sampleRate);
    SpellsConcat(c, name + start + end + startLoop, endLoop);
    SpellsConcat(c, name + start + end, startLoop);
    SpellsConcat(c, name + start, end);
    SpellsConcat(c, name, start);
  }

  lemma SampleHeaderRoundTrip(c: Cursor, r: Record)
    requires r.SampleHeader? && Fits(r) && Spells(c, Encode(SHDR, r))
    ensures DecodeSampleHeader(c) == Success(Read(r, Skip(c, 46)))
  {
    SampleHeaderFields(c, r);
    ZStrRoundTrip(c, r.name, 20, 46);
    DWordRoundTrip(Skip(c, 20), r.start);
    DWordRoundTrip(Skip(c, 24), r.end);
    DWordRoundTrip(Skip(c, 28), r.startLoop);
    DWordRoundTrip(Skip(c, 32), r.endLoop);
    DWordRoundTrip(Skip(c, 36), r.sampleRate);
    ByteRoundTrip(Skip(c, 40), r.originalPitch);
    CharRoundTrip(Skip(c, 41), r.pitchCorrection);
    WordRoundTrip(Skip(c, 42), r.sampleLink);
    WordRoundTrip(Skip(c, 44), r.sampleType);
  }

  /** Every record that fits its byte layout decodes back from its encoding. */
  lemma DecodeRecordRoundTrip(k: Kind, c: Cursor, r: Record)
    requires Shape(k, r) && Fits(r) && Spells(c, Encode(k, r))
    ensures DecodeRecord(k, c) == Success(Read(r, Skip(c, Width(k))))
  {
    match k
    case PHDR => PresetHeaderRoundTrip(c, r);
    case PBAG | IBAG => BagRoundTrip(c, r);
    case PMOD | IMOD => ModListRoundTrip(c, r);
    case PGEN | IGEN => GenListRoundTrip(c, r);
    case INST => InstHeaderRoundTrip(c, r);
    case SHDR => SampleHeaderRoundTrip(c, r);
  }
}
