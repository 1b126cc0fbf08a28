/** The accessors over the parsed INFO dictionary: the singular text
    fields, and the joiners that list every occurrence of a repeatable text
    field separated by ". ". */
module Accessors {
  import opened Outcome
  import opened Cursors
  import opened Lists
  import opened Info

  /** get_szSoundEngine: the engine name of the isng entry; a bank without
      one fails on `None['szSoundEngine']`. */
  function SoundEngine(m: Entries): (r: Result<seq<byte>>)
    requires Sound(m)
    ensures r.Failure? <==> Get(m, ISNG) == []
    ensures r.Failure? ==> r.error == AbsentField
    ensures r.Success? ==> exists raw :: Get(m, ISNG) == [Engine(r.value, raw)]
  {
    if ISNG !in m then Failure(AbsentField)
    else
      assert FitsKind(ISNG, m[ISNG][0]);
      Success(m[ISNG][0].name)
  }

  /** get_szName: the name of the INAM entry, `None` when its ZSTR faulted;
      a bank without one fails on `None['szName']`. */
  function BankName(m: Entries): (r: Result<Option<seq<byte>>>)
    requires Sound(m)
    ensures r.Failure? <==> Get(m, INAM) == []
    ensures r.Failure? ==> r.error == AbsentField
    ensures r.Success? ==> exists raw :: Get(m, INAM) == [Text(r.value, raw)]
  {
    if INAM !in m then Failure(AbsentField)
    else
      assert FitsKind(INAM, m[INAM][0]);
      Success(m[INAM][0].value)
  }

  // ---------------------------------------------------------------------
  // Joining repeated text fields
  // ---------------------------------------------------------------------

  /** The separator the joiners put between two texts, ". ". */
  const Separator: seq<byte> := [0x2e, 0x20] // ". "

  /** Texts separated by ". ", defined from the right. */
  function Joined(xs: seq<seq<byte>>): (r: seq<byte>)
    requires xs != []
    decreases |xs|
  {
    if |xs| == 1 then xs[0] else xs[0] + Separator + Joined(xs[1..])
  }

  /** Appending a text at the end adds a separator and the text. */
  lemma {:induction false} JoinedSnoc(xs: seq<seq<byte>>, y: seq<byte>)
    requires xs != []
    ensures Joined(xs + [y]) == Joined(xs) + Separator + y
    decreases |xs|
  {
    if |xs| == 1 {
      assert xs + [y] == [xs[0], y];
      assert [xs[0], y][1..] == [y];
    } else {
      assert (xs + [y])[1..] == xs[1..] + [y];
      JoinedSnoc(xs[1..], y);
    }
  }

  /** Every value is present. */
  predicate AllPresent(vs: seq<Option<seq<byte>>>) {
    forall i | 0 <= i < |vs| :: vs[i].Some?
  }

  /** The texts of values that are all present. */
  function Unwrap(vs: seq<Option<seq<byte>>>): (xs: seq<seq<byte>>)
    requires AllPresent(vs)
    ensures |xs| == |vs| && forall i | 0 <= i < |vs| :: vs[i] == Some(xs[i])
  {
    seq(|vs|, i requires 0 <= i < |vs| => vs[i].value)
  }

  /** The loop of the get_* joiners: no entry gives the empty text, one
      entry gives its value as it is (`None` included), and two or more
      are joined by ". ", which fails on `str + None` as soon as one of
      them is absent. */
  method Join(vs: seq<Option<seq<byte>>>) returns (r: Result<Option<seq<byte>>>)
    ensures |vs| == 0 ==> r == Success(Some([]))
    ensures |vs| == 1 ==> r == Success(vs[0])
    ensures |vs| >= 2 ==> (r.Failure? <==> !AllPresent(vs))
    ensures r.Failure? ==> r.error == NoneInJoin
    ensures |vs| >= 2 && r.Success? ==> AllPresent(vs) && r == Success(Some(Joined(Unwrap(vs))))
  {
    if |vs| == 0 {
      return Success(Some([]));
    }
    var text := vs[0];
    var i := 1;
    while i < |vs|
      invariant 1 <= i <= |vs|
      invariant i == 1 ==> text == vs[0]
      invariant i > 1 ==> AllPresent(vs[..i]) && text == Some(Joined(Unwrap(vs[..i])))
    {
      if text.None? || vs[i].None? {
        assert !AllPresent(vs) by {
          if text.None? {
            assert vs[0].None?;
          }
        }
        return Failure(NoneInJoin);
      }
      ghost var before := vs[..i];
      assert AllPresent(before) by {
        if i == 1 {
          assert before == [vs[0]];
        }
      }
      assert Unwrap(vs[..i + 1]) == Unwrap(before) + [vs[i].value];
      JoinedSnoc(Unwrap(before), vs[i].value);
      text := Some(text.value + Separator + vs[i].value);
      i := i + 1;
    }
    assert vs[..i] == vs;
    return Success(text);
  }

  /** The tags the get_* joiners read: ICRD, IENG, ICOP, ICMT and ISFT. */
  predicate Joinable(k: InfoKind) {
    k == ICRD || k == IENG || k == ICOP || k == ICMT || k == ISFT
  }

  /** The text values stored under a text tag, in file order. */
  function TextValues(fs: seq<Field>): (vs: seq<Option<seq<byte>>>)
    requires forall i | 0 <= i < |fs| :: fs[i].Text?
    ensures |vs| == |fs| && forall i | 0 <= i < |fs| :: vs[i] == fs[i].value
  {
    seq(|fs|, i requires 0 <= i < |fs| => fs[i].value)
  }

  /** get_date, get_engName, get_copyright, get_comment and get_tools: the
      joiner over every occurrence of the tag. */
  method JoinedText(m: Entries, k: InfoKind) returns (r: Result<Option<seq<byte>>>)
    requires Sound(m) && Joinable(k)
    ensures var vs := TextValues(Get(m, k));
            && (|vs| == 0 ==> r == Success(Some([])))
            && (|vs| == 1 ==> r == Success(vs[0]))
            && (|vs| >= 2 ==> (r.Failure? <==> !AllPresent(vs)))
            && (|vs| >= 2 && r.Success? ==> AllPresent(vs) && r == Success(Some(Joined(Unwrap(vs)))))
    ensures r.Failure? ==> r.error == NoneInJoin
  {
    assert forall i | 0 <= i < |Get(m, k)| :: FitsKind(k, Get(m, k)[i]);
    r := Join(TextValues(Get(m, k)));
  }

  // ---------------------------------------------------------------------
  // The accessors on a written bank
  // ---------------------------------------------------------------------

  /** A singular tag that occurs once among the sub-chunks holds exactly
      that sub-chunk's field. */
  lemma {:induction false} FieldsOfSingular(es: seq<InfoChunk>, i: nat)
    requires i < |es| && Singular(es[i].kind) && NoRepeat(map[], es)
    ensures Fields(es, es[i].kind) == [es[i].field]
    decreases |es|
  {
    var k := es[i].kind;
    assert NoRepeat(map[], es[1..]) by {
      forall a, b | 0 <= a < b < |es[1..]| && es[1..][a].kind == es[1..][b].kind
        ensures !Singular(es[1..][a].kind)
      {
        assert es[1..][a] == es[a + 1] && es[1..][b] == es[b + 1];
      }
    }
    if i == 0 {
      assert Fields(es[1..], k) == [] by {
        FieldsAbsent(es[1..], k);
        forall j | 0 <= j < |es[1..]|
          ensures es[1..][j].kind != k
        {
          assert es[1..][j] == es[j + 1];
        }
      }
    } else {
      assert es[0].kind != k;
      assert es[1..][i - 1] == es[i];
      FieldsOfSingular(es[1..], i - 1);
    }
  }

  /** A tag no sub-chunk carries holds nothing. */
  lemma {:induction false} FieldsAbsent(es: seq<InfoChunk>, k: InfoKind)
    ensures (forall j | 0 <= j < |es| :: es[j].kind != k) ==> Fields(es, k) == []
    decreases |es|
  {
    if es != [] {
      FieldsAbsent(es[1..], k);
      assert forall j | 0 <= j < |es[1..]| :: es[1..][j] == es[j + 1];
    }
  }

  /** get_szSoundEngine on a written bank gives the isng text, or
      "EMU8000" when that text is empty. */
  lemma WrittenSoundEngine(c: Cursor, es: seq<InfoChunk>, ignoreErrors: bool, i: nat)
    requires forall j | 0 <= j < |es| :: Writable(es[j])
    requires 4 + |EncodeChunks(es)| < 0x1_0000_0000
    requires Spells(c, EncodeList(InfoForm, EncodeChunks(es)))
    requires NoRepeat(map[], es) && (ignoreErrors || Fields(es, IFIL) != [])
    requires i < |es| && es[i].kind == ISNG
    ensures ParseInfo(c, ignoreErrors).Success?
    ensures var raw := es[i].field.raw;
            SoundEngine(ParseInfo(c, ignoreErrors).value.value)
              == Success(if raw == [] then DefaultEngine else raw)
  {
    ParseInfoRoundTrip(c, es, ignoreErrors);
    FieldsOfSingular(es, i);
    assert Writable(es[i]);
  }

  /** get_szName on a written bank gives the INAM text, or `None` when
      that text is empty. */
  lemma WrittenBankName(c: Cursor, es: seq<InfoChunk>, ignoreErrors: bool, i: nat)
    requires forall j | 0 <= j < |es| :: Writable(es[j])
    requires 4 + |EncodeChunks(es)| < 0x1_0000_0000
    requires Spells(c, EncodeList(InfoForm, EncodeChunks(es)))
    requires NoRepeat(map[], es) && (ignoreErrors || Fields(es, IFIL) != [])
    requires i < |es| && es[i].kind == INAM
    ensures ParseInfo(c, ignoreErrors).Success?
    ensures var raw := es[i].field.raw;
            BankName(ParseInfo(c, ignoreErrors).value.value)
              == Success(if raw == [] then None else Some(raw))
  {
    ParseInfoRoundTrip(c, es, ignoreErrors);
    FieldsOfSingular(es, i);
    assert Writable(es[i]);
  }
}
