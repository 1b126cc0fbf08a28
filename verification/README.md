# SF2Parser in Dafny

A model of `SF2Parser`, a decoder for SoundFont 2 sound banks. The model is
written as pure functions over an immutable byte sequence.

A SoundFont 2 file is a RIFF chunk of form `sfbk` that holds three LIST chunks
in order (SoundFont 2.04 Technical Specification, sections 5 to 7):
- **INFO** holds the version, the sound engine, the bank name and free-text fields.
- **sdta** holds the 16-bit sample data.
- **pdta** holds the nine "hydra" tables: `phdr`, `pbag`, `pmod`, `pgen`,
  `inst`, `ibag`, `imod`, `igen` and `shdr`.

The decoder walks this tree with a cursor and raises at the first problem it
meets. In the model, every step returns a `Result`: either the value and the
cursor after it, or an `Error` that names the cause of the failure. Errors are
grouped by cause, and a constructor's argument names the table, list, field or
tag involved, so most constructors stand for a single raise site. A few
constructors stand for several:
- `Truncated` stands for every `struct.unpack` on too few bytes, in SHORT,
  WORD, DWORD, BYTE and CHAR (sf2parser.py:38-72).
- `NotMonotonic(IBAG)` stands for both ibag ordering tests, on `wInstGenNdx`
  and on `wInstModNdx` (sf2parser.py:259-263).
- `MissingChunk(k)` and `TooFewRecords(k)` stand for Python's own failures
  (`None[-2]`, `len(None)`, a `[-2]` index out of range) wherever they occur
  in the six cross-reference tests (sf2parser.py:385-433).

Modules, in dependency order:

- `Outcome` (outcome.dfy): bytes, the tag enumerations, `Error`, `Option` and `Result`.
- `Cursors` (cursor.dfy): the read primitives `SHORT`, `WORD`, `DWORD`, `BYTE`,
  `CHAR`, `FOURCC`, `ZSTR` and `chunk_header`, with their encoders and round trips.
- `Lists` (lists.dfy): opening a `LIST` chunk of a given form. This is shared by
  `parse_INFO`, `parse_sdta` and `parse_pdta`.
- `Records` (records.dfy): one decoder for each of the nine hydra record layouts.
- `Chunks` (chunks.dfy): `parse_phdr` … `parse_shdr` on a whole sub-chunk. This
  covers the size-multiple test and the index-ordering tests, including the
  miswired `pbag` test.
- `Pdta` (pdta.dfy): `parse_pdta`. It runs the sub-chunk loop, then the six
  cross-reference tests, and the `ignoreIndexOutOfRange` switch sets their
  severity.
- `Info` (info.dfy): `parse_INFO` and its field decoders `parse_ifil` …
  `parse_ISFT`. The singular tags `ifil`, `isng` and `INAM` are stored once;
  the others are appended.
- `Sdta` (sdta.dfy): `parse_sdta` and `parse_smpl`. The int16 samples are
  scaled by 256 inside the int16 array.
- `Accessors` (accessors.dfy): `get_szSoundEngine`, `get_szName` and the
  `get_*` joiners.
- `SoundFont` (soundfont.dfy): `parse` and `parse_sfbk`. It also proves that a
  whole written bank is read back.

The model follows the code as written, including its quirks:
- **The pbag ordering test.** It compares the previous record's `wModNdx` with
  the current `wGenNdx`, and never tests `wModNdx` against itself.
- **The phdr cross-reference.** It compares against `len(phdr)`.
- **A missing pdta table fails** through `None[-2]` or `len(None)`, whatever the
  flags say. A missing `shdr` does not fail.
- **An unknown sdta sub-chunk.** Its payload is not skipped, but its size is
  still charged to the loop.
- **`ifil` and `iver`** always read two WORDs, whatever their declared size.
- **`sm24` is routed to `parse_isng`.** So the 16/24-bit merge can never run.

`ZSTR` tests `buffer[k]` before it tests `k < length`. So a field with no zero
byte reads one byte past the field. Whether that byte is buffered depends on
how much the caller asked `check` for:
- Inside a hydra record, the whole record is buffered, so the read succeeds.
- In an INFO text sub-chunk, only the field is buffered, so the read raises.

`ZStr` takes this as its `ahead` parameter.

The parser's constructor switches are the record `SoundFont.Options`. In the
source, `ignoreIndexOutOfRange` defaults to true and `ignore_errors` to false
(sf2parser.py:24-26); `SoundFont.DefaultOptions` holds these defaults, so
`Parse(file, DefaultOptions)` reads a file as `SF2Parser(filename)` does.

## Model

| member | source | states |
|---|---|---|
| Cursors.Short | sf2parser.py:38-42 | succeeds exactly when 2 bytes remain; the value is a signed 16-bit integer whose two's-complement little-endian bytes are the 2 bytes read; the cursor advances by 2 |
| Cursors.Word | sf2parser.py:44-48 | succeeds exactly when 2 bytes remain; the value is below 2^16 and its little-endian encoding is the 2 bytes read; the cursor advances by 2 |
| Cursors.DWord | sf2parser.py:50-54 | succeeds exactly when 4 bytes remain; the value is below 2^32 and its little-endian encoding is the 4 bytes read; the cursor advances by 4 |
| Cursors.FourCC | sf2parser.py:56-60 | never fails; yields the next min(4, remaining) bytes and advances past them, because slicing a short buffer does not raise |
| Cursors.Byte | sf2parser.py:62-66 | succeeds exactly when 1 byte remains; yields that byte and advances by 1 |
| Cursors.Char | sf2parser.py:68-72 | succeeds exactly when 1 byte remains; the value is a signed 8-bit integer whose two's-complement byte is the byte read; advances by 1 |
| Cursors.ZStr | sf2parser.py:74-84 | the text is the run of non-zero bytes at the cursor, ended by a zero byte or by the field length L; `fault` holds exactly when the run is empty or fills the field; the whole field is consumed; with the record buffered past the field it never fails; with only the field buffered it fails exactly when the field has no zero byte |
| Cursors.ChunkHeader | sf2parser.py:86-89 | succeeds exactly when 8 bytes remain; the tag is the first 4 bytes and the size is the little-endian DWORD after them |
| Cursors.LittleEndianOfLe | sf2parser.py:44-54 | decoding the little-endian bytes of a value that fits the width gives the value back |
| Cursors.LeOfLittleEndian | sf2parser.py:44-54 | encoding a decoded value gives back the bytes it was decoded from |
| Cursors.ShortRoundTrip | sf2parser.py:38-42 | SHORT reads back any int16 written at the cursor and advances by 2 |
| Cursors.WordRoundTrip | sf2parser.py:44-48 | WORD reads back any 16-bit value written at the cursor and advances by 2 |
| Cursors.DWordRoundTrip | sf2parser.py:50-54 | DWORD reads back any 32-bit value written at the cursor and advances by 4 |
| Cursors.ByteRoundTrip | sf2parser.py:62-66 | BYTE reads back the byte at the cursor |
| Cursors.CharRoundTrip | sf2parser.py:68-72 | CHAR reads back any int8 written at the cursor |
| Cursors.ZStrRoundTrip | sf2parser.py:74-84 | a zero-free name padded with zero bytes to L reads back as that name, with `fault` exactly when it is empty or fills L, and the cursor moves by L; a name that fills L needs the next byte buffered |
| Cursors.ChunkHeaderRoundTrip | sf2parser.py:86-89 | a written tag and 32-bit size read back as that header, 8 bytes on |
| Lists.OpenList | sf2parser.py:366-371 | too few bytes for the header fail as truncated; a tag other than LIST fails first, then a wrong form; on success the tag is LIST, the form is the expected one, the budget is the declared size minus 4 and the cursor is 12 bytes on |
| Lists.OpenListRoundTrip | sf2parser.py:366-371 | a written LIST header of the expected form opens with a budget of exactly the body's length, leaving the cursor on the body |
| Records.DecodePresetHeader | sf2parser.py:111-124 | one sfPresetHeader: succeeds exactly when 38 bytes remain, and yields a preset header whose fields fit their widths, 38 bytes on |
| Records.DecodeBag | sf2parser.py:138-143 | one sfPresetBag or sfInstBag: succeeds exactly when 4 bytes remain, and yields two 16-bit indices, 4 bytes on |
| Records.DecodeModList | sf2parser.py:175-185 | one sfModList: succeeds exactly when 10 bytes remain; only modAmount is signed |
| Records.DecodeGenList | sf2parser.py:210-217 | one sfGenList: succeeds exactly when 4 bytes remain; genAmount is unsigned |
| Records.DecodeInstHeader | sf2parser.py:228-239 | one sfInst: succeeds exactly when 22 bytes remain |
| Records.DecodeSampleHeader | sf2parser.py:333-349 | one sfSample: succeeds exactly when 46 bytes remain, with the pitch correction signed |
| Records.DecodeRecord | sf2parser.py:94-350 | one record of a table: succeeds exactly when one record width (38/4/10/4/22/4/10/4/46) remains, and yields a record of that table's shape, one width on |
| Records.PresetHeaderRoundTrip | sf2parser.py:111-124 | a written preset header reads back unchanged |
| Records.SampleHeaderRoundTrip | sf2parser.py:333-349 | a written sample header reads back unchanged |
| Records.DecodeRecordRoundTrip | sf2parser.py:94-350 | any record that fits its layout reads back from its encoding, one width on |
| Chunks.ReadEachSpan | sf2parser.py:104-125 | n fixed-width records read exactly when n widths remain, and leave the cursor just past them |
| Chunks.ReadCheckedTestsOrder | sf2parser.py:120-122 | when every record reads, the tested loop yields them exactly when no record trips the test against the one before it, and fails with the ordering error otherwise |
| Chunks.ReadCheckedFailsWithReading | sf2parser.py:111-124 | when reading the records fails, the tested loop fails too, with the reading error or with an ordering error met earlier |
| Chunks.DecodeRecords | sf2parser.py:104-125 | a size that is not a multiple of the width fails; on success the records number size/width, each fits its layout, they are in order, and exactly size bytes are consumed; the five untested tables always succeed on a whole number of records that the input holds |
| Chunks.UncheckedOrdered | sf2parser.py:172-186 | pmod, pgen, imod, igen and shdr accept their records in any order |
| Chunks.DecodeRecordsRoundTrip | sf2parser.py:94-350 | a written table reads back exactly when its records are in order, and fails with the ordering error otherwise |
| Chunks.PbagRejectsGrowingZones | sf2parser.py:146-151 | pbag rejects two zones whose first wModNdx exceeds the second wGenNdx, although both indices grow; ibag accepts the same bytes |
| Chunks.PbagAcceptsShrinkingModNdx | sf2parser.py:146-151 | pbag accepts a wModNdx that decreases; ibag rejects the same bytes |
| Pdta.KindOf | sf2parser.py:374-378 | a tag names a table exactly when it is one of the nine tags |
| Pdta.ReadPiece | sf2parser.py:373-379 | a sub-chunk with an unknown tag fails; on success the records have the table's shape and the cursor is past the header and the declared size |
| Pdta.SubChunks | sf2parser.py:372-381 | a negative budget fails as an overrun; on success the loop consumed exactly the budget, keeps every table stored before, and keeps the tables well shaped |
| Pdta.SecondToLast | sf2parser.py:386 | an absent table fails as missing, a table of fewer than two records fails, otherwise the second-to-last record |
| Pdta.Flag | sf2parser.py:386-391 | an index below the length passes; an index at or above it is a warning when out-of-range indices are ignored and fails otherwise |
| Pdta.AuditPasses | sf2parser.py:385-433 | the tests pass exactly when no test has a verdict; the warnings are then those already listed plus the out-of-range fields, and none are added when out-of-range indices are not ignored |
| Pdta.AuditFirstFailure | sf2parser.py:385-433 | the pass raises the verdict of the first test that has one |
| Pdta.CrossRefPasses | sf2parser.py:385-433 | the cross-reference pass succeeds exactly when every index field passes its test, and then the warnings are exactly the out-of-range fields |
| Pdta.CrossRefFirstFailure | sf2parser.py:385-433 | the pass fails with the verdict of the first failing test in source order |
| Pdta.AllTested | sf2parser.py:385-433 | all six index fields are tested |
| Pdta.CrossRefIgnoresShdr | sf2parser.py:385-433 | removing shdr changes nothing in the cross-reference pass, so shdr is never required |
| Pdta.ParsePdta | sf2parser.py:352-434 | a LIST failure is passed on; on success the tables are well shaped and passed the cross-reference pass, with its warnings |
| Pdta.ParsePdtaPasses | sf2parser.py:385-434 | whatever parse_pdta returns passed every index test, and its warnings are exactly the out-of-range fields |
| Pdta.ReadPieceRoundTrip | sf2parser.py:373-379 | a written sub-chunk reads back with its records, past its declared size |
| Pdta.SubChunksRoundTrip | sf2parser.py:372-381 | written sub-chunks read back into the dictionary built by storing each in file order, a repeated tag replacing the earlier table |
| Pdta.ParsePdtaRoundTrip | sf2parser.py:352-434 | a written pdta LIST reads back into that dictionary, then answers as the cross-reference pass on it: its failure, or the tables with their warnings |
| Info.InfoKindOf | sf2parser.py:639-646 | a tag names an INFO field exactly when it is one of the eleven tags |
| Info.Textual | sf2parser.py:504-612 | a text field keeps the raw run; isng becomes "EMU8000" on a fault and the run otherwise; the others become `None` on a fault and the run otherwise |
| Info.ReadField | sf2parser.py:488-612 | ifil and iver fail on a size other than 4 unless errors are ignored, and otherwise read two WORDs (4 bytes) whatever the size; a text field consumes its size, or what is left; the failures are the bad size, truncation and the ZSTR overrun |
| Info.Store | sf2parser.py:639-644 | storing fails exactly when a singular tag is already present; otherwise it appends the field to its own tag and changes no other tag |
| Info.Put | sf2parser.py:641-644 | storing a field under a tag that may take it appends it to that tag's list, leaves every other tag's list as it was, and keeps the dictionary well formed |
| Info.InfoStep | sf2parser.py:638-647 | an unknown tag fails; a second ifil, isng or INAM fails with the repeated-tag error before its payload is read; a successful step keeps the dictionary well formed |
| Info.InfoLoop | sf2parser.py:637-647 | a budget that is not positive ends the loop; an overshoot is not an error |
| Info.ParseInfo | sf2parser.py:615-652 | a LIST failure is passed on; the result is well formed, and holds ifil unless errors are ignored |
| Info.StoreAllSucceeds | sf2parser.py:639-644 | storing the sub-chunks succeeds exactly when no singular tag occurs twice, and otherwise fails with a repeated-tag error |
| Info.StoreAllFields | sf2parser.py:637-647 | after storing, each tag holds its earlier fields followed by its sub-chunks' fields in file order |
| Info.ReadFieldRoundTrip | sf2parser.py:488-612 | every field decoder reads back a written payload |
| Info.InfoStepRoundTrip | sf2parser.py:638-647 | the loop body reads back a written sub-chunk and stores its field |
| Info.InfoLoopRoundTrip | sf2parser.py:637-647 | the loop over written sub-chunks fails as storing them fails, and otherwise yields what storing them gives, past all of them |
| Info.ParseInfoRoundTrip | sf2parser.py:615-652 | a written INFO list fails on a repeated singular tag, fails on a missing ifil unless errors are ignored, and otherwise reads back every tag's fields in file order |
| Sdta.Wrap16 | sf2parser.py:447 | the result is a signed 16-bit value congruent to the input modulo 2^16 |
| Sdta.CoarseKeepsLowByte | sf2parser.py:444-447 | multiplying an int16 sample by 256 in place keeps only its low byte, so every sample is a multiple of 256 |
| Sdta.ParseSmpl | sf2parser.py:438-449 | the run read is min(size, remaining); it fails exactly when that run is odd; otherwise it yields half as many samples and consumes the run |
| Sdta.ParseSmplLowBytes | sf2parser.py:438-449 | each sample is the low byte of its int16 times 256 |
| Sdta.SamplesRoundTrip | sf2parser.py:444-447 | written int16 values decode to the values times 256, wrapped to 16 bits |
| Sdta.ParseSmplRoundTrip | sf2parser.py:438-449 | parse_smpl on written int16 values yields them scaled and wrapped, past the written bytes |
| Sdta.SdtaFieldCases | sf2parser.py:475-478 | an unknown tag leaves the samples and the cursor alone; smpl succeeds exactly when parse_smpl does and stores its samples; sm24 stores an engine name under isng and leaves the samples alone |
| Sdta.SdtaStep | sf2parser.py:474-479 | a successful step keeps every stored sample a multiple of 256 |
| Sdta.SdtaLoop | sf2parser.py:473-479 | a budget that is not positive ends the loop; the loop keeps every sample a multiple of 256 |
| Sdta.ParseSdta | sf2parser.py:460-486 | a LIST failure is passed on; every sample of the result is a multiple of 256 |
| Sdta.UnknownSubChunkRead | sf2parser.py:473-479 | a sub-chunk with an unknown tag is charged its size and 8 bytes, but the cursor stays on its payload |
| Sdta.SmplSubChunkRead | sf2parser.py:474-476 | a written smpl sub-chunk reads back as its scaled samples, past the sub-chunk |
| Sdta.ParseSdtaRoundTrip | sf2parser.py:460-486 | a written sdta LIST with one smpl sub-chunk reads back as its scaled samples and no isng entry, past the list |
| Accessors.SoundEngine | sf2parser.py:683-684 | fails exactly when there is no isng entry; otherwise yields that entry's engine name |
| Accessors.BankName | sf2parser.py:686-687 | fails exactly when there is no INAM entry; otherwise yields that entry's name, `None` when it faulted |
| Accessors.JoinedSnoc | sf2parser.py:692-693 | appending a text to a joined list adds ". " and the text |
| Accessors.Join | sf2parser.py:689-696 | no entry gives ""; one entry gives its value as it is; two or more fail exactly when one is `None`, and otherwise give the texts joined by ". " in file order |
| Accessors.JoinedText | sf2parser.py:689-732 | get_engName, get_copyright, get_comment, get_tools and get_date join every occurrence of their tag as above |
| Accessors.FieldsOfSingular | sf2parser.py:641-644 | a singular tag that occurs once holds exactly that sub-chunk's field |
| Accessors.WrittenSoundEngine | sf2parser.py:683-684 | on a written INFO list, get_szSoundEngine yields the written name, or "EMU8000" when it is empty |
| Accessors.WrittenBankName | sf2parser.py:686-687 | on a written INFO list, get_szName yields the written name, or `None` when it is empty |
| SoundFont.SfbkLists | sf2parser.py:658-662 | INFO, sdta and pdta are parsed in that order, each where the previous one ended: a failure of any of them is passed on, and otherwise the bank holds exactly their three results; a success is a bank whose INFO is well formed (with ifil unless errors are ignored), whose samples are multiples of 256, and whose tables passed the cross-reference pass |
| SoundFont.ParseSfbk | sf2parser.py:654-664 | a form other than sfbk leaves the bank empty; otherwise the three LIST chunks are read right after the form |
| SoundFont.ParseBank | sf2parser.py:667-678 | a truncated header fails; a first tag other than RIFF leaves the bank empty; a RIFF header is followed by parse_sfbk on the bytes right after it; a decoded bank always comes from a RIFF chunk |
| SoundFont.Parse | sf2parser.py:667-678 | a file of fewer than 8 bytes fails; a file not starting with RIFF leaves the bank empty; a file starting with RIFF is read by parse_sfbk from byte 8 |
| SoundFont.DefaultsOnlyWarn | sf2parser.py:24-26 | with the constructor's defaults the cross-reference pass fails only on a missing or too short list, and reports every out-of-range index as a warning |
| SoundFont.SfbkListsRoundTrip | sf2parser.py:654-662 | three written LIST chunks fail on a repeated singular tag, fail on a missing ifil unless errors are ignored, fail as the cross-reference pass fails, and otherwise read back the INFO fields in file order, the scaled samples and the written tables with their warnings |
| SoundFont.ParseBankRoundTrip | sf2parser.py:667-678 | a written RIFF/sfbk file reads as its three LIST chunks, whatever 32-bit RIFF size its header declares, true or not, with the same four outcomes |

## Left out

- Opening the file, `fp.read`, the `check` look-ahead buffer and `skip` are not modelled. The input is the whole file as a byte sequence. The buffer is modelled only where it changes behaviour, which is the ZSTR overrun (`ZStr`'s `ahead`).
- UTF-8 `.decode()` of names and FOURCC tags is not modelled. Names and tags stay byte sequences, and tags are compared as 4-byte literals. A name or tag that is not valid UTF-8 makes the source raise, and the model does not.
- `print` diagnostics are not modelled. The messages printed for out-of-range indices are recorded as a list of warnings in `PresetData`.
- `get_sfVersionTag`, `print_summary`, `list_samples` and the `__main__` block are left out. They format and print text.
- `parse_sm24` and the 16/24-bit merge (sf2parser.py:451-458, 482-485) are left out. They are unreachable, because an sm24 sub-chunk is read by `parse_isng` and the `sm24` entry is never set.
- Exception messages and exception classes are not modelled. Errors are grouped by cause, as described at the top.
- numpy is modelled only through its integer results: an int16 array multiplied by 256 wraps modulo 2^16, and `frombuffer` rejects an odd byte count.
- The accessors are modelled on the INFO dictionary of a parsed bank. On a file that is not a SoundFont, the source's dictionaries are empty, so the accessors fail on a missing key; the model does not cover that case.
- Sdta.ParseSdtaRoundTrip: covers an sdta list holding exactly one smpl sub-chunk. Unknown and sm24 sub-chunks are covered one step at a time, by `UnknownSubChunkRead` and `SdtaFieldCases`.
- SoundFont.SfbkListsRoundTrip: inherits that restriction for its sdta part, so it covers only files whose sdta list holds exactly one smpl sub-chunk.
- SoundFont.ParseBankRoundTrip: covers only files whose sdta list holds exactly one smpl sub-chunk, the restriction of `Sdta.ParseSdtaRoundTrip`. Other sdta layouts are covered one step at a time, as above.
- Info.ParseInfoRoundTrip: covers text fields whose run of non-zero bytes is shorter than the declared size, so that the ZSTR scan always meets a zero byte. A text that fills its field raises, which `ZStr`'s contract states.
