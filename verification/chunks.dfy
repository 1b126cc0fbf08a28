/** The sub-chunk decoders `parse_phdr` … `parse_shdr` (SoundFont 2.04,
    sections 7.2 to 7.10): a size check, then a `while ckSize > 0` loop that
    reads one record per record width, four of them testing an index field
    against the previous record's. */
module Chunks {
  import opened Outcome
  import opened Cursors
  import opened Records

  /** A reader of one record. */
  type Decoder = Cursor -> Result<Read<Record>>

  /** The reader of one record of sub-chunk `k`. */
  function RecordDecoder(k: Kind): Decoder {
    (c: Cursor) => DecodeRecord(k, c)
  }

  // ---------------------------------------------------------------------
  // Index ordering
  // ---------------------------------------------------------------------

  /** The test that makes a decoder raise between the previous record and the
      current one. For pbag the previous record's wModNdx is compared with
      the current wGenNdx: the variable meant to hold the previous wGenNdx is
      overwritten with wModNdx, and the one meant for wModNdx is never set,
      so the wModNdx test never fires. pmod, pgen, imod, igen and shdr have
      no test. */
  predicate Descends(k: Kind, prev: Record, cur: Record) {
    match k
    case PHDR => prev.PresetHeader? && cur.PresetHeader? && prev.presetBagNdx > cur.presetBagNdx
    case PBAG => prev.Bag? && cur.Bag? && prev.modNdx > cur.genNdx
    case INST => prev.InstHeader? && cur.InstHeader? && prev.instBagNdx > cur.instBagNdx
    case IBAG => prev.Bag? && cur.Bag? && (prev.genNdx > cur.genNdx || prev.modNdx > cur.modNdx)
    case _ => false
  }

  /** The sub-chunks whose decoder tests an index field. */
  predicate Checked(k: Kind) {
    k == PHDR || k == PBAG || k == INST || k == IBAG
  }

  /** Record `i` does not trip the test against record `i - 1`. */
  predicate StepOk(k: Kind, rs: seq<Record>, i: nat)
    requires 0 < i < |rs|
  {
    !Descends(k, rs[i - 1], rs[i])
  }

  /** No record of `rs` trips the test against the one before it, the first
      one being tested against `prev` when there is one. */
  predicate Ordered(k: Kind, prev: Option<Record>, rs: seq<Record>) {
    && (prev.Some? && |rs| > 0 ==> !Descends(k, prev.value, rs[0]))
    && (forall i | 0 < i < |rs| :: StepOk(k, rs, i))
  }

  lemma OrderedUncons(k: Kind, prev: Option<Record>, rs: seq<Record>)
    requires |rs| > 0
    ensures Ordered(k, prev, rs)
              == ((prev.Some? ==> !Descends(k, prev.value, rs[0])) && Ordered(k, Some(rs[0]), rs[1..]))
  {
    var tail := rs[1..];
    assert forall i | 1 < i < |rs| :: StepOk(k, rs, i) == StepOk(k, tail, i - 1);
    assert forall j | 0 < j < |tail| :: StepOk(k, tail, j) == StepOk(k, rs, j + 1);
    assert |tail| > 0 ==> (StepOk(k, rs, 1) <==> !Descends(k, rs[0], tail[0]));
  }

  // ---------------------------------------------------------------------
  // Reading consecutive records
  // ---------------------------------------------------------------------

  /** `n` records read one after another by `dec`, with no ordering test. */
  function ReadEach(dec: Decoder, c: Cursor, n: nat): (r: Result<Read<seq<Record>>>)
    decreases n
    ensures r.Success? ==> |r.value.value| == n
  {
    if n == 0 then Success(Read([], c))
    else
      var one :- dec(c);
      var rest :- ReadEach(dec, one.next, n - 1);
      Success(Read([one.value] + rest.value, rest.next))
  }

  /** The `while ckSize > 0` loop over `n` records, `prev` being the record
      read just before them: each record is tested against the one before it
      as soon as it is read. */
  function ReadChecked(k: Kind, dec: Decoder, c: Cursor, n: nat, prev: Option<Record>)
    : (r: Result<Read<seq<Record>>>)
    decreases n
    ensures r.Success? ==> |r.value.value| == n
  {
    if n == 0 then Success(Read([], c))
    else
      var one :- dec(c);
      if prev.Some? && Descends(k, prev.value, one.value) then Failure(NotMonotonic(k))
      else
        var rest :- ReadChecked(k, dec, one.next, n - 1, Some(one.value));
        Success(Read([one.value] + rest.value, rest.next))
  }

  /** Whenever reading the records fails, the loop fails too: with the
      reading error, or with an ordering error met before it. */
  lemma {:induction false} ReadCheckedFailsWithReading(k: Kind, dec: Decoder, c: Cursor, n: nat,
                                                       prev: Option<Record>)
    decreases n
    ensures var r, all := ReadChecked(k, dec, c, n, prev), ReadEach(dec, c, n);
            all.Failure? ==> r.Failure? && (r.error == NotMonotonic(k) || r.error == all.error)
  {
    if n > 0 {
      var one := dec(c);
      if one.Success? && !(prev.Some? && Descends(k, prev.value, one.value.value)) {
        ReadCheckedFailsWithReading(k, dec, one.value.next, n - 1, Some(one.value.value));
      }
    }
  }

  /** When every record reads, the loop yields them exactly when they are in
      order, and fails with an ordering error otherwise. */
  lemma {:induction false} ReadCheckedTestsOrder(k: Kind, dec: Decoder, c: Cursor, n: nat,
                                                 prev: Option<Record>)
    decreases n
    ensures var r, all := ReadChecked(k, dec, c, n, prev), ReadEach(dec, c, n);
            all.Success? ==> r == if Ordered(k, prev, all.value.value) then all else Failure(NotMonotonic(k))
  {
    var all := ReadEach(dec, c, n);
    if n > 0 && all.Success? {
      var one := dec(c).value;
      var rest := ReadEach(dec, one.next, n - 1);
      var rs := all.value.value;
      assert rs == [one.value] + rest.value.value;
      assert rs[1..] == rest.value.value;
      OrderedUncons(k, prev, rs);
      if !(prev.Some? && Descends(k, prev.value, one.value)) {
        ReadCheckedTestsOrder(k, dec, one.next, n - 1, Some(one.value));
      }
    }
  }

  // ---------------------------------------------------------------------
  // What the record reader contributes
  // ---------------------------------------------------------------------

  /** `dec` reads exactly one record width, and fails only short of it. */
  ghost predicate FixedWidth(k: Kind, dec: Decoder) {
    forall d: Cursor ::
      && (dec(d).Success? <==> Width(k) <= Remaining(d))
      && (dec(d).Success? ==> dec(d).value.next == Skip(d, Width(k)))
  }

  /** `dec` yields records of sub-chunk `k` that fit their byte layout. */
  ghost predicate YieldsValid(k: Kind, dec: Decoder) {
    forall d: Cursor :: dec(d).Success? ==> Shape(k, dec(d).value.value) && Fits(dec(d).value.value)
  }

  /** `dec` reads back every record from its encoding. */
  ghost predicate ReadsBack(k: Kind, dec: Decoder) {
    forall d: Cursor, r: Record {:trigger Spells(d, Encode(k, r))}
      | Shape(k, r) && Fits(r) && Spells(d, Encode(k, r)) ::
      dec(d) == Success(Read(r, Skip(d, Width(k))))
  }

  lemma RecordDecoderProperties(k: Kind)
    ensures FixedWidth(k, RecordDecoder(k)) && YieldsValid(k, RecordDecoder(k))
    ensures ReadsBack(k, RecordDecoder(k))
  {
    forall d: Cursor, r: Record | Shape(k, r) && Fits(r) && Spells(d, Encode(k, r))
      ensures RecordDecoder(k)(d) == Success(Read(r, Skip(d, Width(k))))
    {
      DecodeRecordRoundTrip(k, d, r);
    }
  }

  /** The bytes taken by `n` records of sub-chunk `k`. */
  function Span(k: Kind, n: nat): nat {
    if n == 0 then 0 else Width(k) + Span(k, n - 1)
  }

  lemma {:induction false} SpanIsProduct(k: Kind, n: nat)
    ensures Span(k, n) == n * Width(k)
  {
    if n > 0 {
      SpanIsProduct(k, n - 1);
    }
  }

  /** `n` fixed-width records read exactly when `n` widths remain, and then
      leave the cursor just past them. */
  lemma {:induction false} ReadEachSpan(k: Kind, dec: Decoder, c: Cursor, n: nat)
    requires FixedWidth(k, dec)
    decreases n
    ensures ReadEach(dec, c, n).Success? <==> Span(k, n) <= Remaining(c)
    ensures ReadEach(dec, c, n).Success? ==> ReadEach(dec, c, n).value.next == Skip(c, Span(k, n))
  {
    if n > 0 && Width(k) <= Remaining(c) {
      ReadEachSpan(k, dec, Skip(c, Width(k)), n - 1);
    }
  }

  lemma Cons(k: Kind, r: Record, rs: seq<Record>)
    requires Shape(k, r) && Fits(r) && AllShape(k, rs) && AllFit(rs)
    ensures AllShape(k, [r] + rs) && AllFit([r] + rs)
  {
    var s := [r] + rs;
    assert forall i | 1 <= i < |s| :: s[i] == rs[i - 1];
  }

  lemma {:induction false} ReadEachValid(k: Kind, dec: Decoder, c: Cursor, n: nat)
    requires YieldsValid(k, dec)
    decreases n
    ensures ReadEach(dec, c, n).Success? ==>
              AllShape(k, ReadEach(dec, c, n).value.value) && AllFit(ReadEach(dec, c, n).value.value)
  {
    if n > 0 && ReadEach(dec, c, n).Success? {
      var one := dec(c).value;
      ReadEachValid(k, dec, one.next, n - 1);
      Cons(k, one.value, ReadEach(dec, one.next, n - 1).value.value);
    }
  }

  /** The records of a sub-chunk, written one after another. */
  function EncodeAll(k: Kind, rs: seq<Record>): (bs: seq<byte>)
    requires AllShape(k, rs) && AllFit(rs)
    ensures |bs| == Span(k, |rs|)
  {
    if |rs| == 0 then [] else Encode(k, rs[0]) + EncodeAll(k, rs[1..])
  }

  /** The first record of an encoded run reads back, and the rest of the run follows it. */
  lemma ReadsBackFirst(k: Kind, dec: Decoder, c: Cursor, rs: seq<Record>)
    requires ReadsBack(k, dec) && AllShape(k, rs) && AllFit(rs) && Spells(c, EncodeAll(k, rs))
    requires |rs| > 0
    ensures Width(k) <= Remaining(c) && dec(c) == Success(Read(rs[0], Skip(c, Width(k))))
    ensures AllShape(k, rs[1..]) && AllFit(rs[1..]) && Spells(Skip(c, Width(k)), EncodeAll(k, rs[1..]))
  {
    SpellsConcat(c, Encode(k, rs[0]), EncodeAll(k, rs[1..]));
  }

  lemma {:induction false} ReadEachRoundTrip(k: Kind, dec: Decoder, c: Cursor, rs: seq<Record>)
    requires ReadsBack(k, dec) && AllShape(k, rs) && AllFit(rs) && Spells(c, EncodeAll(k, rs))
    decreases |rs|
    ensures ReadEach(dec, c, |rs|) == Success(Read(rs, Skip(c, Span(k, |rs|))))
  {
    if |rs| > 0 {
      ReadsBackFirst(k, dec, c, rs);
      ReadEachRoundTrip(k, dec, Skip(c, Width(k)), rs[1..]);
      assert [rs[0]] + rs[1..] == rs;
    }
  }

  // ---------------------------------------------------------------------
  // A whole sub-chunk
  // ---------------------------------------------------------------------

  /** parse_phdr … parse_shdr on a sub-chunk of `size` bytes: the size must be
      a whole number of records, every record must lie inside the input, and
      the records of the four tested sub-chunks must be in order. */
  function DecodeRecords(k: Kind, c: Cursor, size: nat): (r: Result<Read<seq<Record>>>)
    ensures size % Width(k) != 0 ==> r == Failure(BadRecordSize(k))
    ensures r.Success? ==> var rs := r.value.value;
              && |rs| * Width(k) == size && AllShape(k, rs) && AllFit(rs) && Ordered(k, None, rs)
              && size <= Remaining(c) && r.value.next == Skip(c, size)
    ensures size % Width(k) == 0 && size <= Remaining(c) && !Checked(k) ==> r.Success?
  {
    if size % Width(k) != 0 then Failure(BadRecordSize(k))
    else
      var n := size / Width(k);
      SizeInRecords(k, size);
      RecordDecoderProperties(k);
      ReadEachSpan(k, RecordDecoder(k), c, n);
      ReadEachValid(k, RecordDecoder(k), c, n);
      ReadCheckedFailsWithReading(k, RecordDecoder(k), c, n, None);
      ReadCheckedTestsOrder(k, RecordDecoder(k), c, n, None);
      var all := ReadEach(RecordDecoder(k), c, n);
      assert !Checked(k) && all.Success? ==> Ordered(k, None, all.value.value) by {
        if !Checked(k) && all.Success? {
          UncheckedOrdered(k, all.value.value);
        }
      }
      ReadChecked(k, RecordDecoder(k), c, n, None)
  }

  /** A size that is a whole number of records spans that many records. */
  lemma SizeInRecords(k: Kind, size: nat)
    requires size % Width(k) == 0
    ensures Span(k, size / Width(k)) == size && (size / Width(k)) * Width(k) == size
  {
    SpanIsProduct(k, size / Width(k));
  }

  /** The sub-chunks without an index test accept any order. */
  lemma UncheckedOrdered(k: Kind, rs: seq<Record>)
    requires !Checked(k)
    ensures Ordered(k, None, rs)
  {
    forall i | 0 < i < |rs|
      ensures StepOk(k, rs, i)
    {
    }
  }

  lemma WholeRecords(k: Kind, n: nat)
    ensures Span(k, n) % Width(k) == 0 && Span(k, n) / Width(k) == n
  {
    SpanIsProduct(k, n);
  }

  /** A sub-chunk written from records decodes back to them exactly when they
      are in order, and otherwise fails with the ordering error. */
  lemma DecodeRecordsRoundTrip(k: Kind, c: Cursor, rs: seq<Record>)
    requires AllShape(k, rs) && AllFit(rs) && Spells(c, EncodeAll(k, rs))
    ensures var size := |EncodeAll(k, rs)|;
            DecodeRecords(k, c, size)
              == if Ordered(k, None, rs) then Success(Read(rs, Skip(c, size))) else Failure(NotMonotonic(k))
  {
    var n := |rs|;
    WholeRecords(k, n);
    RecordDecoderProperties(k);
    ReadEachRoundTrip(k, RecordDecoder(k), c, rs);
    ReadCheckedTestsOrder(k, RecordDecoder(k), c, n, None);
  }

  /** pbag tests each zone's wGenNdx against the previous zone's wModNdx, so
      it rejects two zones whose indices both grow once the first zone's
      wModNdx passes the second zone's wGenNdx; ibag accepts the same bytes. */
  lemma PbagRejectsGrowingZones(c: Cursor)
    requires Spells(c, EncodeAll(PBAG, [Bag(0, 5), Bag(1, 6)]))
    ensures DecodeRecords(PBAG, c, 8) == Failure(NotMonotonic(PBAG))
    ensures DecodeRecords(IBAG, c, 8) == Success(Read([Bag(0, 5), Bag(1, 6)], Skip(c, 8)))
  {
    var rs := [Bag(0, 5), Bag(1, 6)];
    assert !StepOk(PBAG, rs, 1) && StepOk(IBAG, rs, 1);
    assert EncodeAll(IBAG, rs) == EncodeAll(PBAG, rs);
    DecodeRecordsRoundTrip(PBAG, c, rs);
    DecodeRecordsRoundTrip(IBAG, c, rs);
  }

  /** pbag never tests wModNdx against the previous wModNdx, so a shrinking
      wModNdx passes; ibag rejects the same bytes. */
  lemma PbagAcceptsShrinkingModNdx(c: Cursor)
    requires Spells(c, EncodeAll(PBAG, [Bag(0, 9), Bag(9, 1)]))
    ensures DecodeRecords(PBAG, c, 8) == Success(Read([Bag(0, 9), Bag(9, 1)], Skip(c, 8)))
    ensures DecodeRecords(IBAG, c, 8) == Failure(NotMonotonic(IBAG))
  {
    var rs := [Bag(0, 9), Bag(9, 1)];
    assert StepOk(PBAG, rs, 1) && !StepOk(IBAG, rs, 1);
    assert EncodeAll(IBAG, rs) == EncodeAll(PBAG, rs);
    DecodeRecordsRoundTrip(PBAG, c, rs);
    DecodeRecordsRoundTrip(IBAG, c, rs);
  }
}
