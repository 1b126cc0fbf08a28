/** `parse_sdta` and `parse_smpl` (SoundFont 2.04, section 6): the
    LIST/sdta chunk holds the 16-bit sample data, which the parser scales
    into coarse 24-bit samples. */
module Sdta {
  import opened Outcome
  import opened Cursors
  import opened Lists
  import opened Info

  /** The form tag "sdta" and the two sub-chunk tags the loop knows. */
  const SdtaForm: seq<byte> := [0x73, 0x64, 0x74, 0x61] // "sdta"
  const SmplTag: seq<byte> := [0x73, 0x6d, 0x70, 0x6c]  // "smpl"
  const Sm24Tag: seq<byte> := [0x73, 0x6d, 0x32, 0x34]  // "sm24"

  // ---------------------------------------------------------------------
  // parse_smpl
  // ---------------------------------------------------------------------

  /** An integer reduced to 16 bits and read as two's complement, as an
      in-place multiplication on an int16 array leaves it. */
  function Wrap16(x: int): (r: int)
    ensures -0x8000 <= r < 0x8000
    ensures (r - x) % 0x1_0000 == 0
  {
    Signed16(x % 0x1_0000)
  }

  /** One sample: the little-endian int16 at `lo, hi`, multiplied by 256
      inside the int16 array. */
  function Coarse(lo: byte, hi: byte): int {
    Wrap16(Signed16(lo + 256 * hi) * 256)
  }

  /** The int16 multiplication keeps only the low byte of each sample: the
      high byte is shifted out of the 16 bits. */
  lemma CoarseKeepsLowByte(lo: byte, hi: byte)
    ensures Coarse(lo, hi) == Signed16(lo as int * 256)
    ensures Coarse(lo, hi) % 256 == 0
  {
    var u := lo + 256 * hi;
    var v := Signed16(u);
    assert v * 256 == lo * 256 + hi * 0x1_0000 - (if u >= 0x8000 then 0x100_0000 else 0);
    assert (v * 256) % 0x1_0000 == lo * 256;
  }

  /** The samples of an even run of bytes. */
  function Samples(bs: seq<byte>): (ss: seq<int>)
    requires |bs| % 2 == 0
    ensures |ss| * 2 == |bs|
    decreases |bs|
  {
    if bs == [] then [] else [Coarse(bs[0], bs[1])] + Samples(bs[2..])
  }

  /** Every sample is the low byte of its pair, scaled by 256. */
  lemma {:induction false} SamplesLowBytes(bs: seq<byte>)
    requires |bs| % 2 == 0
    ensures forall i | 0 <= i < |bs| / 2 :: Samples(bs)[i] == Signed16(bs[2 * i] as int * 256)
    decreases |bs|
  {
    if bs != [] {
      CoarseKeepsLowByte(bs[0], bs[1]);
      SamplesLowBytes(bs[2..]);
      forall i | 1 <= i < |bs| / 2
        ensures Samples(bs)[i] == Signed16(bs[2 * i] as int * 256)
      {
        assert Samples(bs)[i] == Samples(bs[2..])[i - 1];
        assert bs[2..][2 * (i - 1)] == bs[2 * i];
      }
    }
  }

  /** parse_smpl: the sub-chunk's bytes, as many of them as the input still
      holds, read as int16 samples; an odd count makes `frombuffer` raise.
      The whole available run is consumed. */
  function ParseSmpl(c: Cursor, size: nat): (r: Result<Read<seq<int>>>)
    ensures r.Success? <==> Min(size, Remaining(c)) % 2 == 0
    ensures r.Failure? ==> r.error == OddSampleData
    ensures r.Success? ==> && |r.value.value| * 2 == Min(size, Remaining(c))
                           && r.value.next == Skip(c, Min(size, Remaining(c)))
  {
    var n := Min(size, Remaining(c));
    if n % 2 != 0 then Failure(OddSampleData)
    else Success(Read(Samples(c.data[c.pos..c.pos + n]), Skip(c, n)))
  }

  /** What parse_smpl gives is the low byte of each int16 times 256. */
  lemma ParseSmplLowBytes(c: Cursor, size: nat)
    ensures var r := ParseSmpl(c, size);
            r.Success? ==> forall i | 0 <= i < |r.value.value| ::
              r.value.value[i] == Signed16(c.data[c.pos + 2 * i] as int * 256)
              && r.value.value[i] % 256 == 0
  {
    var n := Min(size, Remaining(c));
    if n % 2 == 0 {
      var bs := c.data[c.pos..c.pos + n];
      SamplesLowBytes(bs);
      forall i | 0 <= i < n / 2
        ensures Samples(bs)[i] % 256 == 0
      {
        CoarseKeepsLowByte(bs[2 * i], 0);
      }
    }
  }

  /** Every value fits a signed 16-bit integer. */
  predicate Int16s(vs: seq<int>) {
    forall i | 0 <= i < |vs| :: -0x8000 <= vs[i] < 0x8000
  }

  /** int16 samples as bytes, two's complement, little-endian. */
  function EncodeShorts(vs: seq<int>): (bs: seq<byte>)
    requires Int16s(vs)
    ensures |bs| == 2 * |vs|
  {
    if vs == [] then [] else ShortBytes(vs[0]) + EncodeShorts(vs[1..])
  }

  /** The samples parse_smpl makes of written int16 values: each value
      times 256, wrapped to 16 bits. */
  function Scaled(vs: seq<int>): (ss: seq<int>)
    ensures |ss| == |vs| && forall i | 0 <= i < |vs| :: ss[i] == Wrap16(vs[i] * 256)
  {
    seq(|vs|, i requires 0 <= i < |vs| => Wrap16(vs[i] * 256))
  }

  /** One written int16 decodes to the value times 256, wrapped. */
  lemma CoarseOfShort(v: int)
    requires -0x8000 <= v < 0x8000
    ensures Coarse(ShortBytes(v)[0], ShortBytes(v)[1]) == Wrap16(v * 256)
  {
    var u := (v + 0x1_0000) % 0x1_0000;
    var e := ShortBytes(v);
    assert Le(u / 256, 1) == [(u / 256) % 256] + Le(u / 256 / 256, 0);
    assert e == [u % 256] + Le(u / 256, 1);
    assert e[0] as int + 256 * e[1] as int == u;
    assert Signed16(u) == v;
  }

  /** The samples of written int16 values are the scaled values. */
  lemma {:induction false} SamplesRoundTrip(vs: seq<int>)
    requires Int16s(vs)
    ensures Samples(EncodeShorts(vs)) == Scaled(vs)
    decreases |vs|
  {
    if vs != [] {
      var bs := EncodeShorts(vs);
      assert bs[2..] == EncodeShorts(vs[1..]);
      CoarseOfShort(vs[0]);
      SamplesRoundTrip(vs[1..]);
      assert Samples(bs) == [Coarse(bs[0], bs[1])] + Scaled(vs[1..]);
    }
  }

  lemma Doubled(k: nat)
    ensures (2 * k) % 2 == 0
  {
  }

  /** parse_smpl on an even run of bytes the input holds. */
  lemma ParseSmplKnown(c: Cursor, bs: seq<byte>)
    requires |bs| % 2 == 0 && Spells(c, bs)
    ensures ParseSmpl(c, |bs|) == Success(Read(Samples(bs), Skip(c, |bs|)))
  {
    assert ParseSmpl(c, |bs|).value.value == Samples(c.data[c.pos..c.pos + |bs|]);
  }

  /** parse_smpl reads back written int16 values, each scaled by 256 and
      wrapped to 16 bits. */
  lemma ParseSmplRoundTrip(c: Cursor, vs: seq<int>)
    requires Int16s(vs)
    requires Spells(c, EncodeShorts(vs))
    ensures ParseSmpl(c, 2 * |vs|) == Success(Read(Scaled(vs), Skip(c, 2 * |vs|)))
  {
    var bs := EncodeShorts(vs);
    Doubled(|vs|);
    ParseSmplKnown(c, bs);
    SamplesRoundTrip(vs);
  }

  // ---------------------------------------------------------------------
  // parse_sdta
  // ---------------------------------------------------------------------

  /** What parse_sdta returns: the `smpl` samples, if a smpl sub-chunk was
      read, and the entry an sm24 sub-chunk leaves under `isng`, since the
      loop hands sm24 to the isng parser. The `sm24` entry itself is never
      set, so the merge of the two sample arrays never runs. */
  datatype SampleData = SampleData(smpl: Option<seq<int>>, isng: Option<Field>)

  /** The samples are coarse (multiples of 256 within int16) and the isng
      entry is an engine name. */
  predicate Coarsened(d: SampleData) {
    && (d.smpl.Some? ==> forall i | 0 <= i < |d.smpl.value| ::
          -0x8000 <= d.smpl.value[i] < 0x8000 && d.smpl.value[i] % 256 == 0)
    && (d.isng.Some? ==> d.isng.value.Engine?)
  }

  /** One sub-chunk of the sdta loop, its header already read: smpl is
      parsed into samples, sm24 is parsed as an isng text, and any other
      tag is left where it is (the loop does not skip its payload). */
  function SdtaField(h: Header, c: Cursor, d: SampleData): (r: Result<Read<SampleData>>)
    ensures r.Success? && Coarsened(d) ==> Coarsened(r.value.value)
  {
    if h.id == SmplTag then
      var s :- ParseSmpl(c, h.size);
      ParseSmplLowBytes(c, h.size);
      Success(Read(d.(smpl := Some(s.value)), s.next))
    else if h.id == Sm24Tag then
      var z :- ZStr(c, h.size, 0);
      Success(Read(d.(isng := Some(Textual(ISNG, z.value))), z.next))
    else
      Success(Read(d, c))
  }

  /** What each kind of sub-chunk does: an unknown tag leaves the
      dictionary and the cursor as they are, smpl stores the samples
      parse_smpl reads and fails as it does, and sm24 stores an engine
      name under `isng`, leaving the samples alone. */
  lemma SdtaFieldCases(h: Header, c: Cursor, d: SampleData)
    ensures h.id != SmplTag && h.id != Sm24Tag ==> SdtaField(h, c, d) == Success(Read(d, c))
    ensures h.id == SmplTag ==>
              var r := SdtaField(h, c, d);
              && (r.Success? <==> ParseSmpl(c, h.size).Success?)
              && (r.Success? ==> r.value == Read(d.(smpl := Some(ParseSmpl(c, h.size).value.value)),
                                                 ParseSmpl(c, h.size).value.next))
    ensures h.id == Sm24Tag && SdtaField(h, c, d).Success? ==>
              var v := SdtaField(h, c, d).value.value;
              v.smpl == d.smpl && v.isng.Some? && v.isng.value.Engine?
  {
  }

  /** One pass of the loop body: the sub-chunk header, then the sub-chunk.
      The value is the updated dictionary and the declared size. */
  function SdtaStep(c: Cursor, d: SampleData): (r: Result<Read<(SampleData, nat)>>)
    ensures r.Success? && Coarsened(d) ==> Coarsened(r.value.value.0)
  {
    var h :- ChunkHeader(c);
    var s :- SdtaField(h.value, h.next, d);
    Success(Read((s.value, h.value.size), s.next))
  }

  /** A reader of one sdta sub-chunk. */
  type SdtaReader = (Cursor, SampleData) -> Result<Read<(SampleData, nat)>>

  /** The loop body of parse_sdta as a reader. */
  function SdtaStepReader(): SdtaReader {
    (c: Cursor, d: SampleData) => SdtaStep(c, d)
  }

  /** `step` keeps the samples coarse. */
  ghost predicate KeepsCoarse(step: SdtaReader) {
    forall c: Cursor, d: SampleData :: step(c, d).Success? && Coarsened(d) ==> Coarsened(step(c, d).value.value.0)
  }

  lemma SdtaStepReaderKeepsCoarse()
    ensures KeepsCoarse(SdtaStepReader())
  {
  }

  /** The `while ckSize > 0` loop of parse_sdta, `step` being the loop
      body: each sub-chunk's size plus eight is taken off the budget
      whether or not its payload was read. */
  function SdtaLoop(step: SdtaReader, c: Cursor, budget: int, d: SampleData): (r: Result<Read<SampleData>>)
    decreases budget
    ensures budget <= 0 ==> r == Success(Read(d, c))
    ensures r.Success? && Coarsened(d) && KeepsCoarse(step) ==> Coarsened(r.value.value)
  {
    if budget <= 0 then Success(Read(d, c))
    else
      var s :- step(c, d);
      SdtaLoop(step, s.next, budget - (s.value.1 + 8), s.value.0)
  }

  /** parse_sdta: a LIST chunk of form `sdta` and its sub-chunks. */
  function ParseSdta(c: Cursor): (r: Result<Read<SampleData>>)
    ensures OpenList(c, SdtaForm, SdtaList).Failure? ==>
              r == Failure(OpenList(c, SdtaForm, SdtaList).error)
    ensures r.Success? ==> Coarsened(r.value.value)
  {
    var open :- OpenList(c, SdtaForm, SdtaList);
    SdtaStepReaderKeepsCoarse();
    SdtaLoop(SdtaStepReader(), open.next, open.value, SampleData(None, None))
  }

  // ---------------------------------------------------------------------
  // The loop on written sub-chunks
  // ---------------------------------------------------------------------

  /** The loop body, once the header and the sub-chunk's result are known. */
  lemma SdtaStepKnown(c: Cursor, d: SampleData, h: Read<Header>, s: Read<SampleData>)
    requires ChunkHeader(c) == Success(h) && SdtaField(h.value, h.next, d) == Success(s)
    ensures SdtaStep(c, d) == Success(Read((s.value, h.value.size), s.next))
  {
  }

  /** One turn of the loop, once the step's result is known. */
  lemma SdtaLoopStep(step: SdtaReader, c: Cursor, budget: int, d: SampleData, s: Read<(SampleData, nat)>)
    requires budget > 0 && step(c, d) == Success(s)
    ensures SdtaLoop(step, c, budget, d) == SdtaLoop(step, s.next, budget - (s.value.1 + 8), s.value.0)
  {
  }

  /** parse_sdta, once the LIST header is known. */
  lemma ParseSdtaKnown(c: Cursor, open: Read<int>)
    requires OpenList(c, SdtaForm, SdtaList) == Success(open)
    ensures ParseSdta(c) == SdtaLoop(SdtaStepReader(), open.next, open.value, SampleData(None, None))
  {
  }

  /** The last turn of the loop: a step that uses up the budget ends it. */
  lemma SdtaLoopLast(step: SdtaReader, c: Cursor, budget: int, d: SampleData, s: Read<(SampleData, nat)>)
    requires 0 < budget <= s.value.1 + 8 && step(c, d) == Success(s)
    ensures SdtaLoop(step, c, budget, d) == Success(Read(s.value.0, s.next))
  {
    SdtaLoopStep(step, c, budget, d, s);
  }

  /** The loop body on the header of a sub-chunk with an unknown tag: it
      reads the header and nothing more, yet reports the declared size, so
      that the loop charges the whole sub-chunk (SdtaLoopStep) while the
      next header is read from the start of this one's payload. */
  lemma UnknownSubChunkRead(c: Cursor, d: SampleData, id: seq<byte>, size: nat)
    requires |id| == 4 && id != SmplTag && id != Sm24Tag && size < 0x1_0000_0000
    requires Spells(c, id + Le(size, 4))
    ensures 8 <= Remaining(c) && SdtaStep(c, d) == Success(Read((d, size), Skip(c, 8)))
  {
    ChunkHeaderRoundTrip(c, id, size);
    SdtaFieldCases(Header(id, size), Skip(c, 8), d);
    SdtaStepKnown(c, d, Read(Header(id, size), Skip(c, 8)), Read(d, Skip(c, 8)));
  }

  /** The loop body on a smpl sub-chunk, once its header and its samples
      are known. */
  lemma SmplStepKnown(c: Cursor, n: nat, ss: seq<int>, e: Cursor)
    requires 8 <= Remaining(c)
    requires ChunkHeader(c) == Success(Read(Header(SmplTag, n), Skip(c, 8)))
    requires ParseSmpl(Skip(c, 8), n) == Success(Read(ss, e))
    ensures SdtaStep(c, SampleData(None, None)) == Success(Read((SampleData(Some(ss), None), n), e))
  {
    SdtaStepKnown(c, SampleData(None, None), Read(Header(SmplTag, n), Skip(c, 8)), Read(SampleData(Some(ss), None), e));
  }

  /** A smpl sub-chunk of int16 values as bytes. */
  function EncodeSmpl(vs: seq<int>): (bs: seq<byte>)
    requires Int16s(vs) && 2 * |vs| < 0x1_0000_0000
    ensures |bs| == 8 + 2 * |vs|
  {
    SmplTag + Le(2 * |vs|, 4) + EncodeShorts(vs)
  }

  /** The loop body on a written smpl sub-chunk of int16 values. */
  lemma SmplSubChunkRead(c: Cursor, vs: seq<int>)
    requires Int16s(vs) && 2 * |vs| < 0x1_0000_0000
    requires Spells(c, EncodeSmpl(vs))
    ensures 8 + 2 * |vs| <= Remaining(c)
    ensures SdtaStep(c, SampleData(None, None))
              == Success(Read((SampleData(Some(Scaled(vs)), None), 2 * |vs|), Skip(c, 8 + 2 * |vs|)))
  {
    var n := 2 * |vs|;
    SpellsConcat(c, SmplTag + Le(n, 4), EncodeShorts(vs));
    ChunkHeaderRoundTrip(c, SmplTag, n);
    ParseSmplRoundTrip(Skip(c, 8), vs);
    SkipSkip(c, 8, n);
    SmplStepKnown(c, n, Scaled(vs), Skip(c, 8 + n));
  }

  /** parse_sdta on a LIST whose one sub-chunk the loop body has read. */
  lemma ParseSdtaOneChunk(c: Cursor, n: nat, d: SampleData, e: Cursor)
    requires 12 <= Remaining(c)
    requires OpenList(c, SdtaForm, SdtaList) == Success(Read(8 + n, Skip(c, 12)))
    requires SdtaStep(Skip(c, 12), SampleData(None, None)) == Success(Read((d, n), e))
    ensures ParseSdta(c) == Success(Read(d, e))
  {
    ParseSdtaKnown(c, Read(8 + n, Skip(c, 12)));
    SdtaLoopLast(SdtaStepReader(), Skip(c, 12), 8 + n, SampleData(None, None), Read((d, n), e));
  }

  /** parse_sdta reads back a LIST of form `sdta` holding one smpl
      sub-chunk of int16 values: the samples are the values scaled by 256
      and wrapped, and no isng entry is made. */
  lemma ParseSdtaRoundTrip(c: Cursor, vs: seq<int>)
    requires Int16s(vs) && 12 + 2 * |vs| < 0x1_0000_0000
    requires Spells(c, EncodeList(SdtaForm, EncodeSmpl(vs)))
    ensures 20 + 2 * |vs| <= Remaining(c)
    ensures ParseSdta(c) == Success(Read(SampleData(Some(Scaled(vs)), None), Skip(c, 20 + 2 * |vs|)))
  {
    var n := 2 * |vs|;
    OpenListRoundTrip(c, SdtaForm, EncodeSmpl(vs), SdtaList);
    SmplSubChunkRead(Skip(c, 12), vs);
    SkipSkip(c, 12, 8 + n);
    ParseSdtaOneChunk(c, n, SampleData(Some(Scaled(vs)), None), Skip(c, 20 + n));
  }
}
