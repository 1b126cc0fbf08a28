/** Opening a RIFF LIST chunk: the step parse_INFO, parse_sdta and
    parse_pdta share before their sub-chunk loops. */
module Lists {
  import opened Outcome
  import opened Cursors

  /** The chunk tag "LIST". */
  const ListTag: seq<byte> := [0x4c, 0x49, 0x53, 0x54] // "LIST"

  /** Reads a LIST header and its form tag. The value is the byte budget of
      the sub-chunk loop: the LIST size counts the form tag, hence the four
      bytes taken off. A chunk that is not a LIST, or a LIST of another
      form, is rejected in that order. */
  function OpenList(c: Cursor, form: seq<byte>, section: Section): (r: Result<Read<int>>)
    requires |form| == 4
    ensures ChunkHeader(c).Failure? ==> r == Failure(Truncated)
    ensures ChunkHeader(c).Success? && c.data[c.pos..c.pos + 4] != ListTag ==>
              r == Failure(ExpectedList(section))
    ensures r.Failure? ==> r.error in {Truncated, ExpectedList(section), UnexpectedForm(section)}
    ensures r.Success? ==> (&& 12 <= Remaining(c)
                            && c.data[c.pos..c.pos + 4] == ListTag
                            && c.data[c.pos + 8..c.pos + 12] == form
                            && r.value.value + 4 == ChunkHeader(c).value.value.size
                            && r.value.next == Skip(c, 12))
  {
    var h :- ChunkHeader(c);
    if h.value.id != ListTag then Failure(ExpectedList(section))
    else
      var tag := FourCC(h.next);
      if tag.value != form then Failure(UnexpectedForm(section))
      else Success(Read(h.value.size - 4, tag.next))
  }

  /** A LIST chunk as bytes: header, form tag, then the body. */
  function EncodeList(form: seq<byte>, body: seq<byte>): (bs: seq<byte>)
    requires |form| == 4 && 4 + |body| < 0x1_0000_0000
    ensures |bs| == 12 + |body|
  {
    ListTag + Le(4 + |body|, 4) + form + body
  }

  /** OpenList reads back a written LIST header, leaving the cursor on the
      body with a budget of exactly the body's length. */
  lemma OpenListRoundTrip(c: Cursor, form: seq<byte>, body: seq<byte>, section: Section)
    requires |form| == 4 && 4 + |body| < 0x1_0000_0000
    requires Spells(c, EncodeList(form, body))
    ensures OpenList(c, form, section) == Success(Read(|body|, Skip(c, 12)))
    ensures Spells(Skip(c, 12), body)
  {
    var head := ListTag + Le(4 + |body|, 4);
    assert |head + form| == 12;
    SpellsConcat(c, head + form, body);
    SpellsConcat(c, head, form);
    ChunkHeaderRoundTrip(c, ListTag, 4 + |body|);
    assert FourCC(Skip(c, 8)) == Read(form, Skip(c, 12));
  }
}
