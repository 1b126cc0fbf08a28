/** Shared vocabulary of the SoundFont 2 decoder: bytes, the failure sites of
    the parser, and the Option/Result types every decoding step returns. */
module Outcome {

  /** One octet of the input file. */
  type byte = b: int | 0 <= b < 256

  /** The 4-character codes of the pdta-list sub-chunks, in file order. */
  datatype Kind = PHDR | PBAG | PMOD | PGEN | INST | IBAG | IMOD | IGEN | SHDR

  /** The LIST chunks the parser opens. */
  datatype Section = InfoList | SdtaList | PdtaList

  /** The index fields checked by the pdta cross-reference pass. */
  datatype IndexField =
    | PresetBagNdx | GenNdx | ModNdx | InstBagNdx | InstGenNdx | InstModNdx

  /** The 4-character codes of the INFO-list sub-chunks. */
  datatype InfoKind = IFIL | ISNG | INAM | IROM | IVER | ICRD | IENG | IPRD | ICOP | ICMT | ISFT

  /** Why the parser raised, grouped by cause. `Truncated` covers every
      short `struct.unpack`, `NotMonotonic(IBAG)` both ibag ordering tests,
      and `MissingChunk`/`TooFewRecords` Python's own failures in the
      cross-reference tests; the other constructors have one raise site
      each, told apart by their argument. */
  datatype Error =
    | Truncated                     // struct.unpack on fewer bytes than the format needs
    | ZstrOverrun                   // the ZSTR scan indexed past its look-ahead buffer
    | BadRecordSize(kind: Kind)     // chunk size not a multiple of the record width
    | NotMonotonic(kind: Kind)      // an index field decreased between two records
    | ExpectedList(section: Section)
    | UnexpectedForm(section: Section)
    | UnknownChunk(section: Section)
    | ListOverrun                   // pdta sub-chunks run past the declared LIST size
    | MissingChunk(kind: Kind)      // `None[-2]` or `len(None)` on an absent pdta chunk
    | TooFewRecords(kind: Kind)     // `[-2]` on a list with fewer than two records
    | IndexOutOfRange(field: IndexField)
    | SingularRepeated(tag: InfoKind) // `dict.append` on a second ifil/isng/INAM
    | BadVersionSize(tag: InfoKind)
    | MissingIfil
    | OddSampleData                 // numpy.frombuffer on an odd number of bytes
    | NoneInJoin                    // `str + None` in a get_* joiner
    | AbsentField                   // `None['key']` in a get_* accessor

  datatype Option<+T> = None | Some(value: T)

  datatype Result<+T> = Success(value: T) | Failure(error: Error) {
    predicate IsFailure() {
      Failure?
    }

    function PropagateFailure<U>(): Result<U>
      requires Failure?
    {
      Failure(error)
    }

    function Extract(): T
      requires Success?
    {
      value
    }
  }
}
