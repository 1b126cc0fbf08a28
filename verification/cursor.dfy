/** The byte cursor of `SF2Parser`: little-endian WORD/SHORT/DWORD/BYTE/CHAR
    reads, FOURCC tags, RIFF chunk headers and the fixed-width ZSTR text field.
    The parser's look-ahead buffer is modelled only where it changes what a
    read does (the ZSTR scan); elsewhere a read of n bytes succeeds exactly
    when n bytes remain. */
module Cursors {
  import opened Outcome

  datatype Stream = Stream(data: seq<byte>, pos: nat)

  /** A position inside (or at the end of) the input. */
  type Cursor = c: Stream | c.pos <= |c.data| witness Stream([], 0)

  /** A decoded value together with the cursor just after it. */
  datatype Read<+T> = Read(value: T, next: Cursor)

  function Remaining(c: Cursor): nat {
    |c.data| - c.pos
  }

  function Min(a: int, b: int): int {
    if a < b then a else b
  }

  function Max(a: int, b: int): int {
    if a < b then b else a
  }

  // ---------------------------------------------------------------------
  // Little-endian integers and their encoding
  // ---------------------------------------------------------------------

  function Pow256(n: nat): (r: nat)
    ensures r > 0
  {
    if n == 0 then 1 else 256 * Pow256(n - 1)
  }

  /** The unsigned integer whose little-endian bytes are `bs`. */
  function LittleEndian(bs: seq<byte>): (r: nat)
    ensures r < Pow256(|bs|)
  {
    if |bs| == 0 then 0 else bs[0] + 256 * LittleEndian(bs[1..])
  }

  /** The `width` little-endian bytes of `n` (the low bytes, if `n` is wider). */
  function Le(n: nat, width: nat): (r: seq<byte>)
    ensures |r| == width
  {
    if width == 0 then [] else [n % 256] + Le(n / 256, width - 1)
  }

  /** Encoding a decoded integer gives back the bytes it was decoded from. */
  lemma {:induction false} LeOfLittleEndian(bs: seq<byte>)
    ensures Le(LittleEndian(bs), |bs|) == bs
  {
    if |bs| > 0 {
      var x := LittleEndian(bs[1..]);
      assert (bs[0] + 256 * x) % 256 == bs[0];
      assert (bs[0] + 256 * x) / 256 == x;
      LeOfLittleEndian(bs[1..]);
      assert bs == [bs[0]] + bs[1..];
    }
  }

  /** Decoding the encoding of an integer that fits gives the integer back. */
  lemma {:induction false} LittleEndianOfLe(n: nat, width: nat)
    requires n < Pow256(width)
    ensures LittleEndian(Le(n, width)) == n
  {
    if width > 0 {
      var e := Le(n, width);
      assert e[1..] == Le(n / 256, width - 1);
      LittleEndianOfLe(n / 256, width - 1);
    }
  }

  lemma Pow256Widths()
    ensures Pow256(1) == 0x100 && Pow256(2) == 0x1_0000 && Pow256(4) == 0x1_0000_0000
  {
    assert Pow256(3) == 0x100_0000;
  }

  /** Two integers that fit in `width` bytes are equal when their encodings are. */
  lemma LeInjective(a: nat, b: nat, width: nat)
    requires a < Pow256(width) && b < Pow256(width)
    requires Le(a, width) == Le(b, width)
    ensures a == b
  {
    LittleEndianOfLe(a, width);
    LittleEndianOfLe(b, width);
  }

  /** Two's-complement reading of a 16-bit pattern. */
  function Signed16(u: nat): (r: int)
    requires u < 0x1_0000
    ensures -0x8000 <= r < 0x8000
    ensures (r + 0x1_0000) % 0x1_0000 == u
  {
    if u >= 0x8000 then u - 0x1_0000 else u
  }

  /** Two's-complement reading of an 8-bit pattern. */
  function Signed8(u: byte): (r: int)
    ensures -0x80 <= r < 0x80
    ensures (r + 0x100) % 0x100 == u
  {
    if u >= 0x80 then u - 0x100 else u
  }

  /** The two bytes that SHORT reads as `v`. */
  function ShortBytes(v: int): seq<byte>
    requires -0x8000 <= v < 0x8000
  {
    Le((v + 0x1_0000) % 0x1_0000, 2)
  }

  /** The byte that CHAR reads as `v`. */
  function CharBytes(v: int): seq<byte>
    requires -0x80 <= v < 0x80
  {
    [(v + 0x100) % 0x100]
  }

  // ---------------------------------------------------------------------
  // Fixed-width reads (sf2parser.py SHORT, WORD, DWORD, BYTE, CHAR)
  // ---------------------------------------------------------------------

  /** The next `n` bytes; `struct.unpack` raises when fewer remain. */
  function Take(c: Cursor, n: nat): (r: Result<Read<seq<byte>>>)
    ensures r.Success? <==> n <= Remaining(c)
    ensures r.Success? ==> |r.value.value| == n && r.value.next.data == c.data
                           && r.value.next.pos == c.pos + n
  {
    if c.pos + n <= |c.data| then
      Success(Read(c.data[c.pos..c.pos + n], Stream(c.data, c.pos + n)))
    else
      Failure(Truncated)
  }

  /** Unsigned 16-bit little-endian (`'<H'`). */
  function Word(c: Cursor): (r: Result<Read<nat>>)
    ensures r.Success? <==> 2 <= Remaining(c)
    ensures r.Success? ==> r.value.next.data == c.data && r.value.next.pos == c.pos + 2
    ensures r.Success? ==> r.value.value < 0x1_0000
                           && Le(r.value.value, 2) == c.data[c.pos..c.pos + 2]
  {
    var t :- Take(c, 2);
    LeOfLittleEndian(t.value);
    Success(Read(LittleEndian(t.value), t.next))
  }

  /** Signed 16-bit little-endian (`'<h'`). */
  function Short(c: Cursor): (r: Result<Read<int>>)
    ensures r.Success? <==> 2 <= Remaining(c)
    ensures r.Success? ==> r.value.next.data == c.data && r.value.next.pos == c.pos + 2
    ensures r.Success? ==>
              && -0x8000 <= r.value.value < 0x8000
              && ShortBytes(r.value.value) == c.data[c.pos..c.pos + 2]
  {
    var w :- Word(c);
    Success(Read(Signed16(w.value), w.next))
  }

  /** Unsigned 32-bit little-endian (`'<L'`). */
  function DWord(c: Cursor): (r: Result<Read<nat>>)
    ensures r.Success? <==> 4 <= Remaining(c)
    ensures r.Success? ==> r.value.next.data == c.data && r.value.next.pos == c.pos + 4
    ensures r.Success? ==> r.value.value < 0x1_0000_0000
                           && Le(r.value.value, 4) == c.data[c.pos..c.pos + 4]
  {
    var t :- Take(c, 4);
    LeOfLittleEndian(t.value);
    Success(Read(LittleEndian(t.value), t.next))
  }

  /** Unsigned 8-bit (`'B'`). */
  function Byte(c: Cursor): (r: Result<Read<byte>>)
    ensures r.Success? <==> 1 <= Remaining(c)
    ensures r.Success? ==> r.value.next.data == c.data && r.value.next.pos == c.pos + 1
    ensures r.Success? ==> [r.value.value] == c.data[c.pos..c.pos + 1]
  {
    var t :- Take(c, 1);
    Success(Read(t.value[0], t.next))
  }

  /** Signed 8-bit (`'b'`). */
  function Char(c: Cursor): (r: Result<Read<int>>)
    ensures r.Success? <==> 1 <= Remaining(c)
    ensures r.Success? ==> r.value.next.data == c.data && r.value.next.pos == c.pos + 1
    ensures r.Success? ==> -0x80 <= r.value.value < 0x80
                           && CharBytes(r.value.value) == c.data[c.pos..c.pos + 1]
  {
    var b :- Byte(c);
    Success(Read(Signed8(b.value), b.next))
  }

  // ---------------------------------------------------------------------
  // FOURCC and chunk headers
  // ---------------------------------------------------------------------

  /** Four tag bytes. Slicing a short buffer does not raise, so near the end
      of the input this yields the bytes that are left and never fails. */
  function FourCC(c: Cursor): (r: Read<seq<byte>>)
    ensures |r.value| == Min(4, Remaining(c))
    ensures r.next.data == c.data && r.next.pos == c.pos + |r.value|
    ensures r.value == c.data[c.pos..r.next.pos]
  {
    var n := Min(4, Remaining(c));
    Read(c.data[c.pos..c.pos + n], Stream(c.data, c.pos + n))
  }

  datatype Header = Header(id: seq<byte>, size: nat)

  /** A RIFF chunk header: FOURCC tag then DWORD size. */
  function ChunkHeader(c: Cursor): (r: Result<Read<Header>>)
    ensures r.Success? <==> 8 <= Remaining(c)
    ensures r.Success? ==> r.value.next.data == c.data && r.value.next.pos == c.pos + 8
    ensures r.Success? ==> r.value.value.id == c.data[c.pos..c.pos + 4]
    ensures r.Success? ==> r.value.value.size < 0x1_0000_0000
                           && Le(r.value.value.size, 4) == c.data[c.pos + 4..c.pos + 8]
  {
    var id := FourCC(c);
    var size :- DWord(id.next);
    Success(Read(Header(id.value, size.value), size.next))
  }

  // ---------------------------------------------------------------------
  // ZSTR
  // ---------------------------------------------------------------------

  predicate NoZero(s: seq<byte>) {
    forall i | 0 <= i < |s| :: s[i] != 0
  }

  /** The ZSTR scan loop: it indexes `buf[k]` BEFORE testing `k < L`, so it
      stops at the first zero byte, or at index `L`, whichever comes first,
      and fails when the index it needs lies outside the buffer. */
  function ScanZ(buf: seq<byte>, L: nat, k: nat): (r: Option<nat>)
    requires k <= L
    decreases L - k
    ensures r.None? <==> (|buf| <= L && forall i | k <= i < |buf| :: buf[i] != 0)
    ensures r.Some? ==> k <= r.value <= L && r.value < |buf|
                        && (forall i | k <= i < r.value :: buf[i] != 0)
                        && (r.value < L ==> buf[r.value] == 0)
  {
    if k >= |buf| then None
    else if buf[k] == 0 || k == L then Some(k)
    else ScanZ(buf, L, k + 1)
  }

  datatype ZString = ZString(text: seq<byte>, fault: bool)

  /** ZSTR(L). `ahead` is how many bytes the caller has already buffered
      (a whole record for phdr/inst/shdr, nothing for the INFO fields); the
      buffer then holds max(L, ahead) bytes, or what is left of the input. */
  function ZStr(c: Cursor, L: nat, ahead: nat): (r: Result<Read<ZString>>)
    // the text is the run of non-zero bytes at the cursor, cut at L or at a zero byte
    ensures r.Success? ==> var t := r.value.value.text;
      && |t| <= L && c.pos + |t| <= |c.data| && t == c.data[c.pos..c.pos + |t|] && NoZero(t)
      && (|t| < L ==> c.pos + |t| < |c.data| && c.data[c.pos + |t|] == 0)
    ensures r.Success? ==> (r.value.value.fault <==> |r.value.value.text| == L || |r.value.value.text| == 0)
    // the whole field is consumed whatever its contents
    ensures r.Success? ==> r.value.next.data == c.data && r.value.next.pos == c.pos + Min(L, Remaining(c))
    // with the record buffered beyond the field, a complete field always decodes
    ensures L < ahead && L < Remaining(c) ==> r.Success?
    // a zero byte inside a complete field always stops the scan
    ensures L <= Remaining(c) && !NoZero(c.data[c.pos..c.pos + L]) ==> r.Success?
    // with only the field buffered, a field without a zero byte makes the scan overrun
    ensures ahead <= L && L <= Remaining(c) ==>
              (r.Failure? <==> NoZero(c.data[c.pos..c.pos + L]))
    ensures r.Failure? ==> r.error == ZstrOverrun
  {
    var window := Min(Remaining(c), Max(L, ahead));
    var buf := c.data[c.pos..c.pos + window];
    match ScanZ(buf, L, 0)
    case None => Failure(ZstrOverrun)
    case Some(k) =>
      Success(Read(ZString(buf[..k], k == L || k == 0), Stream(c.data, c.pos + Min(L, Remaining(c)))))
  }

  /** A name written into an L-byte field, padded with zero bytes. */
  function PadZ(name: seq<byte>, L: nat): (r: seq<byte>)
    requires |name| <= L
    ensures |r| == L && r[..|name|] == name
    ensures forall i | |name| <= i < L :: r[i] == 0
  {
    name + seq(L - |name|, _ => 0)
  }

  /** Two prefixes of `f` that are runs of non-zero bytes, each followed by a
      zero byte or by the end of `f`, are the same run. */
  lemma SameRun(f: seq<byte>, a: seq<byte>, b: seq<byte>)
    requires |a| <= |f| && a == f[..|a|] && NoZero(a) && (|a| < |f| ==> f[|a|] == 0)
    requires |b| <= |f| && b == f[..|b|] && NoZero(b) && (|b| < |f| ==> f[|b|] == 0)
    ensures a == b
  {
    assert forall i | 0 <= i < |a| :: f[i] != 0;
    assert forall i | 0 <= i < |b| :: f[i] != 0;
  }

  /** ZSTR gives back a name written with `PadZ`; a name that fills the whole
      field needs the byte after it to be buffered. */
  lemma ZStrRoundTrip(c: Cursor, name: seq<byte>, L: nat, ahead: nat)
    requires NoZero(name) && |name| <= L && Spells(c, PadZ(name, L))
    requires |name| == L ==> L < ahead && L < Remaining(c)
    ensures ZStr(c, L, ahead) == Success(Read(ZString(name, |name| == 0 || |name| == L), Skip(c, L)))
  {
    var f := c.data[c.pos..c.pos + L];
    assert |name| < L ==> f[|name|] == 0;
    var r := ZStr(c, L, ahead);
    assert r.Success?;
    var t := r.value.value.text;
    assert t == f[..|t|];
    SameRun(f, t, name);
  }

  // ---------------------------------------------------------------------
  // Reading back what was written
  // ---------------------------------------------------------------------

  /** The cursor `n` bytes further on. */
  function Skip(c: Cursor, n: nat): (d: Cursor)
    requires n <= Remaining(c)
    ensures d.data == c.data && Remaining(d) == Remaining(c) - n
  {
    Stream(c.data, c.pos + n)
  }

  /** Skipping twice is skipping the sum. */
  lemma SkipSkip(c: Cursor, a: nat, b: nat)
    requires a + b <= Remaining(c)
    ensures Skip(Skip(c, a), b) == Skip(c, a + b)
  {
  }

  /** The bytes `bs` come next at the cursor. */
  predicate Spells(c: Cursor, bs: seq<byte>) {
    |bs| <= Remaining(c) && c.data[c.pos..c.pos + |bs|] == bs
  }

  /** Bytes that spell `a + b` spell `a`, and then `b` right after it. */
  lemma SpellsConcat(c: Cursor, a: seq<byte>, b: seq<byte>)
    requires Spells(c, a + b)
    ensures Spells(c, a) && Spells(Skip(c, |a|), b)
  {
    assert c.data[c.pos..c.pos + |a|] == (a + b)[..|a|];
    assert c.data[c.pos + |a|..c.pos + |a| + |b|] == (a + b)[|a|..];
  }

  /** WORD reads back the value whose encoding lies at the cursor. */
  lemma WordRoundTrip(c: Cursor, v: nat)
    requires v < 0x1_0000 && Spells(c, Le(v, 2))
    ensures Word(c) == Success(Read(v, Skip(c, 2)))
  {
    Pow256Widths();
    LeInjective(Word(c).value.value, v, 2);
  }

  /** DWORD reads back the value whose encoding lies at the cursor. */
  lemma DWordRoundTrip(c: Cursor, v: nat)
    requires v < 0x1_0000_0000 && Spells(c, Le(v, 4))
    ensures DWord(c) == Success(Read(v, Skip(c, 4)))
  {
    Pow256Widths();
    LeInjective(DWord(c).value.value, v, 4);
  }

  /** SHORT reads back the value whose two's-complement encoding lies at the cursor. */
  lemma ShortRoundTrip(c: Cursor, v: int)
    requires -0x8000 <= v < 0x8000 && Spells(c, ShortBytes(v))
    ensures Short(c) == Success(Read(v, Skip(c, 2)))
  {
    Pow256Widths();
    var u := Word(c).value.value;
    LeInjective(u, (v + 0x1_0000) % 0x1_0000, 2);
  }

  /** BYTE reads back the byte at the cursor. */
  lemma ByteRoundTrip(c: Cursor, v: byte)
    requires Spells(c, [v])
    ensures Byte(c) == Success(Read(v, Skip(c, 1)))
  {
  }

  /** CHAR reads back the value whose two's-complement encoding lies at the cursor. */
  lemma CharRoundTrip(c: Cursor, v: int)
    requires -0x80 <= v < 0x80 && Spells(c, CharBytes(v))
    ensures Char(c) == Success(Read(v, Skip(c, 1)))
  {
    assert Byte(c).value.value == (v + 0x100) % 0x100;
  }

  /** A chunk header reads back the tag and the size written at the cursor. */
  lemma ChunkHeaderRoundTrip(c: Cursor, id: seq<byte>, size: nat)
    requires |id| == 4 && size < 0x1_0000_0000 && Spells(c, id + Le(size, 4))
    ensures ChunkHeader(c) == Success(Read(Header(id, size), Skip(c, 8)))
  {
    SpellsConcat(c, id, Le(size, 4));
    DWordRoundTrip(Skip(c, 4), size);
  }
}
