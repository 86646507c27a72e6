/** src/utils.rs: the error taxonomy of the wrapper, the C-string guard, the
    description table of the engine's status codes and the checks that turn an
    engine exception or a data-file path into an error value. */
module Utils {
  import opened Wrappers
  import opened Utf8
  import opened Text

  /** The engine's `u32` status codes. */
  newtype u32 = x: int | 0 <= x < 0x1_0000_0000

  /** What a C string is being built for. */
  datatype CStringKind = FilePath | EvidenceKey | EvidenceValue | PropertyName | HashResultSeparator

  /** The display labels as declared: `FilePath` shows as "evidence key" and
      `EvidenceKey` shares "evidence value" with `EvidenceValue`. */
  function CStringKindLabel(kind: CStringKind): string
  {
    match kind
    case FilePath => "evidence key"
    case EvidenceKey => "evidence value"
    case EvidenceValue => "evidence value"
    case PropertyName => "property name"
    case HashResultSeparator => "hash result separator"
  }

  /** The wrapper operation an error is reported against. */
  datatype Operation = ReadDataFile | InitManager | CreateEvidence | ApplyEvidence | ReadProperty

  function OperationLabel(op: Operation): string
  {
    match op
    case ReadDataFile => "read data file"
    case InitManager => "initialize manager"
    case CreateEvidence => "create evidence"
    case ApplyEvidence => "apply evidence"
    case ReadProperty => "read property"
  }

  /** Why a data-file path was refused. */
  datatype ReadFileError = NotExists | IsNotFile

  function ReadFileErrorLabel(e: ReadFileError): string
  {
    match e
    case NotExists => "file does not exist"
    case IsNotFile => "is not a file"
  }

  /** Every failure the wrapper reports. An `IOError` carries, when there is one,
      the debug text of the host's I/O error. */
  datatype FiftyOneDegreesError =
    | CStringCreationError(kind: CStringKind)
    | InternalApiError(operation: Operation, status: u32, statusMessage: string, errorMessage: string)
    | UnsafeOperationError(reason: string)
    | AssertionError(operation: Operation, reason: string)
    | IOError(context: string, cause: Option<string>)

  type FiftyOneDegreesResult<T> = Result<T, FiftyOneDegreesError>

  /** The text each error displays, with its fields substituted into the
      declared format (the internal-API format ends in an unmatched ")"). */
  function ErrorDisplay(e: FiftyOneDegreesError): string
  {
    match e
    case CStringCreationError(kind) =>
      "CString creation error for: " + CStringKindLabel(kind)
    case InternalApiError(op, status, statusMessage, errorMessage) =>
      "FiftyOneDegrees internal API error for operation: " + InternalApiDetail(op, status, statusMessage, errorMessage)
    case UnsafeOperationError(reason) =>
      "FiftyOneDegrees unsafe operation error: " + reason
    case AssertionError(op, reason) =>
      "FiftyOneDegrees assertion error for operation " + (OperationLabel(op) + ": " + reason)
    case IOError(context, cause) =>
      "FiftyOneDegrees IO error: " + (context + ", cause: " + CauseDisplay(cause))
  }

  /** The internal-API format after the operation's introduction. */
  function InternalApiDetail(op: Operation, status: u32, statusMessage: string, errorMessage: string): string
  {
    OperationLabel(op) + ", status code: " + Decimal(status as nat) + ", message: " + statusMessage
    + ", error: " + errorMessage + ")"
  }

  /** The debug text of an optional I/O cause. */
  function CauseDisplay(cause: Option<string>): string
  {
    match cause
    case None => "None"
    case Some(text) => "Some(" + text + ")"
  }

  /** The seventeenth character of every display tells the variant apart:
      a space for a C-string error, then the initial of the word after
      "FiftyOneDegrees ". */
  function Mark(e: FiftyOneDegreesError): char
  {
    match e
    case CStringCreationError(_) => ' '
    case InternalApiError(_, _, _, _) => 'i'
    case UnsafeOperationError(_) => 'u'
    case AssertionError(_, _) => 'a'
    case IOError(_, _) => 'I'
  }

  lemma CStringCreationMark(kind: CStringKind)
    ensures |ErrorDisplay(CStringCreationError(kind))| > 16
    ensures ErrorDisplay(CStringCreationError(kind))[16] == ' '
  {
    PrefixIndex("CString creation error for: ", CStringKindLabel(kind), 16);
  }

  lemma InternalApiMark(op: Operation, status: u32, statusMessage: string, errorMessage: string)
    ensures |ErrorDisplay(InternalApiError(op, status, statusMessage, errorMessage))| > 16
    ensures ErrorDisplay(InternalApiError(op, status, statusMessage, errorMessage))[16] == 'i'
  {
    PrefixIndex("FiftyOneDegrees internal API error for operation: ",
      InternalApiDetail(op, status, statusMessage, errorMessage), 16);
  }

  lemma UnsafeOperationMark(reason: string)
    ensures |ErrorDisplay(UnsafeOperationError(reason))| > 16
    ensures ErrorDisplay(UnsafeOperationError(reason))[16] == 'u'
  {
    PrefixIndex("FiftyOneDegrees unsafe operation error: ", reason, 16);
  }

  lemma AssertionMark(op: Operation, reason: string)
    ensures |ErrorDisplay(AssertionError(op, reason))| > 16
    ensures ErrorDisplay(AssertionError(op, reason))[16] == 'a'
  {
    PrefixIndex("FiftyOneDegrees assertion error for operation ", OperationLabel(op) + ": " + reason, 16);
  }

  lemma IOMark(context: string, cause: Option<string>)
    ensures |ErrorDisplay(IOError(context, cause))| > 16
    ensures ErrorDisplay(IOError(context, cause))[16] == 'I'
  {
    PrefixIndex("FiftyOneDegrees IO error: ", context + ", cause: " + CauseDisplay(cause), 16);
  }

  /** Every display is long enough to carry the mark, and carries it. */
  lemma DisplayMarks(e: FiftyOneDegreesError)
    ensures |ErrorDisplay(e)| > 16 && ErrorDisplay(e)[16] == Mark(e)
  {
    match e
    case CStringCreationError(kind) => CStringCreationMark(kind);
    case InternalApiError(op, status, statusMessage, errorMessage) =>
      InternalApiMark(op, status, statusMessage, errorMessage);
    case UnsafeOperationError(reason) => UnsafeOperationMark(reason);
    case AssertionError(op, reason) => AssertionMark(op, reason);
    case IOError(context, cause) => IOMark(context, cause);
  }

  lemma PrefixIndex(p: string, rest: string, i: nat)
    requires i < |p|
    ensures |p + rest| > i && (p + rest)[i] == p[i]
  {
  }

  /** Two errors that display alike are of the same variant. */
  lemma DisplayDeterminesVariant(a: FiftyOneDegreesError, b: FiftyOneDegreesError)
    requires ErrorDisplay(a) == ErrorDisplay(b)
    ensures a.CStringCreationError? <==> b.CStringCreationError?
    ensures a.InternalApiError? <==> b.InternalApiError?
    ensures a.UnsafeOperationError? <==> b.UnsafeOperationError?
    ensures a.AssertionError? <==> b.AssertionError?
    ensures a.IOError? <==> b.IOError?
  {
    DisplayMarks(a);
    DisplayMarks(b);
  }

  /** As declared, a NUL in an evidence key and a NUL in an evidence value are
      reported with the same text, and a NUL in the data-file path is reported
      as one in an evidence key; only the error values themselves, which carry
      the kind, tell the three apart. */
  lemma CStringKindLabelsAsDeclared()
    ensures ErrorDisplay(CStringCreationError(EvidenceKey)) == ErrorDisplay(CStringCreationError(EvidenceValue))
    ensures ErrorDisplay(CStringCreationError(FilePath)) == "CString creation error for: evidence key"
  {
  }

  /** `new_read_file_assertion_error`: a refused path is an assertion failure of
      the data-file read, whose reason is the refusal's label. */
  function NewReadFileAssertionError(e: ReadFileError): (r: FiftyOneDegreesError)
    ensures r.AssertionError? && r.operation == ReadDataFile
    ensures r.reason == (if e.NotExists? then "file does not exist" else "is not a file")
  {
    AssertionError(ReadDataFile, ReadFileErrorLabel(e))
  }

  /** `build_cstring`: the bytes of `s` ready to be handed to the engine, or the
      creation error for `kind` when they contain a NUL byte. */
  function BuildCString(kind: CStringKind, s: string): (r: FiftyOneDegreesResult<seq<byte>>)
    ensures r.Ok? <==> '\0' !in s
    ensures r.Ok? ==> r.value == Encode(s) && 0 !in r.value
    ensures r.Err? ==> r.error == CStringCreationError(kind)
  {
    EncodeHasNul(s);
    var bytes := Encode(s);
    if 0 in bytes then Err(CStringCreationError(kind)) else Ok(bytes)
  }

  /** The status code of success; the engine numbers its status codes in the
      order `StatusToErrorMessage` lists them, from 0. */
  const SUCCESS: u32 := 0

  /** How many status codes the description table lists. */
  const LISTED_STATUS_CODES: u32 := 33

  /** `status_to_error_message`: the description of each status code of the
      engine, and "Unknown error" for any other code. */
  function StatusToErrorMessage(status: u32): string
  {
    match status
    case 0 => "Success"
    case 1 => "Lack of memory"
    case 2 => "Corrupt data"
    case 3 => "Incorrect version"
    case 4 => "File not found"
    case 5 => "File busy"
    case 6 => "File failure"
    case 7 => "Not set (should never be returned)"
    case 8 => "Pointer out of bounds"
    case 9 => "Null pointer"
    case 10 => "Too many open files"
    case 11 => "Required property not present"
    case 12 => "Profile is empty"
    case 13 => "Collection failure"
    case 14 => "File copy error"
    case 15 => "File exists error"
    case 16 => "File write error"
    case 17 => "File read error"
    case 18 => "File permission denied"
    case 19 => "File path too long"
    case 20 => "File end of document"
    case 21 => "File end of documents"
    case 22 => "File end of file"
    case 23 => "Encoding error"
    case 24 => "Invalid collection config"
    case 25 => "Invalid config"
    case 26 => "Insufficient handles"
    case 27 => "Collection index out of range"
    case 28 => "Collection offset out of range"
    case 29 => "Collection file seek fail"
    case 30 => "Collection file read fail"
    case 31 => "Incorrect IP address format"
    case 32 => "Temp file error"
    case _ => "Unknown error"
  }

  /** The status code a description belongs to, if any: the table read
      backwards, used to show that no two codes share a description (it looks
      at the length first, which keeps that proof small). */
  function StatusOfMessage(message: string): Option<u32>
  {
    match |message|
    case 7 => if message == "Success" then Some(0) else None
    case 9 => if message == "File busy" then Some(5) else None
    case 12 => if message == "Corrupt data" then Some(2) else if message == "File failure" then Some(6) else if message == "Null pointer" then Some(9) else None
    case 14 => if message == "Lack of memory" then Some(1) else if message == "File not found" then Some(4) else if message == "Encoding error" then Some(23) else if message == "Invalid config" then Some(25) else None
    case 15 => if message == "File copy error" then Some(14) else if message == "File read error" then Some(17) else if message == "Temp file error" then Some(32) else None
    case 16 => if message == "Profile is empty" then Some(12) else if message == "File write error" then Some(16) else if message == "File end of file" then Some(22) else None
    case 17 => if message == "Incorrect version" then Some(3) else if message == "File exists error" then Some(15) else None
    case 18 => if message == "Collection failure" then Some(13) else if message == "File path too long" then Some(19) else None
    case 19 => if message == "Too many open files" then Some(10) else None
    case 20 => if message == "File end of document" then Some(20) else if message == "Insufficient handles" then Some(26) else None
    case 21 => if message == "Pointer out of bounds" then Some(8) else if message == "File end of documents" then Some(21) else None
    case 22 => if message == "File permission denied" then Some(18) else None
    case 25 => if message == "Invalid collection config" then Some(24) else if message == "Collection file seek fail" then Some(29) else if message == "Collection file read fail" then Some(30) else None
    case 27 => if message == "Incorrect IP address format" then Some(31) else None
    case 29 => if message == "Required property not present" then Some(11) else if message == "Collection index out of range" then Some(27) else None
    case 30 => if message == "Collection offset out of range" then Some(28) else None
    case 34 => if message == "Not set (should never be returned)" then Some(7) else None
    case _ => None
  }

  lemma StatusCodesFrom0(status: u32)
    requires status < 9
    ensures StatusOfMessage(StatusToErrorMessage(status)) == Some(status)
  {
    match status
    case 0 => case 1 => case 2 => case 3 => case 4 => case 5 => case 6 => case 7 => case 8 =>
  }

  lemma StatusCodesFrom9(status: u32)
    requires 9 <= status < 17
    ensures StatusOfMessage(StatusToErrorMessage(status)) == Some(status)
  {
    match status
    case 9 => case 10 => case 11 => case 12 => case 13 => case 14 => case 15 => case 16 =>
  }

  lemma StatusCodesFrom17(status: u32)
    requires 17 <= status < 25
    ensures StatusOfMessage(StatusToErrorMessage(status)) == Some(status)
  {
    match status
    case 17 => case 18 => case 19 => case 20 => case 21 => case 22 => case 23 => case 24 =>
  }

  lemma StatusCodesFrom25(status: u32)
    requires 25 <= status < 33
    ensures StatusOfMessage(StatusToErrorMessage(status)) == Some(status)
  {
    match status
    case 25 => case 26 => case 27 => case 28 => case 29 => case 30 => case 31 => case 32 =>
  }

  /** Reading the table backwards recovers every listed code, and finds no code
      for "Unknown error". (The codes are taken in four groups to keep each
      proof small.) */
  lemma StatusTableReversible(status: u32)
    ensures status < LISTED_STATUS_CODES ==> StatusOfMessage(StatusToErrorMessage(status)) == Some(status)
    ensures StatusOfMessage("Unknown error") == None
  {
    if status < 9 {
      StatusCodesFrom0(status);
    } else if status < 17 {
      StatusCodesFrom9(status);
    } else if status < 25 {
      StatusCodesFrom17(status);
    } else if status < LISTED_STATUS_CODES {
      StatusCodesFrom25(status);
    }
  }

  /** The listed codes have pairwise different descriptions. */
  lemma StatusMessagesDistinct(a: u32, b: u32)
    requires a < LISTED_STATUS_CODES && b < LISTED_STATUS_CODES
    requires StatusToErrorMessage(a) == StatusToErrorMessage(b)
    ensures a == b
  {
    StatusTableReversible(a);
    StatusTableReversible(b);
  }

  /** A code gets a description of its own exactly when it is listed; success
      reads "Success". */
  lemma StatusMessageFallback(status: u32)
    ensures StatusToErrorMessage(status) != "Unknown error" <==> status < LISTED_STATUS_CODES
    ensures StatusToErrorMessage(SUCCESS) == "Success"
  {
    if status < LISTED_STATUS_CODES {
      StatusTableReversible(status);
    }
  }

  /** An engine exception: its status and what `fiftyoneDegreesExceptionGetMessage`
      gives for it, the memory its message pointer designates or None for a
      null pointer. A null exception pointer is `None` where an
      `Option<Exception>` is expected. */
  datatype Exception = Exception(status: u32, message: Option<seq<byte>>)

  /** `ger_error_msg`: the text of an exception's message. */
  function GerErrorMsg(exception: Option<Exception>): (r: string)
    ensures exception.None? ==> r == "No exception available"
    ensures exception.Some? && exception.value.message.None? ==> r == "No error message available"
    ensures exception.Some? && exception.value.message.Some? ==>
      var text := Decode(UntilNul(exception.value.message.value));
      r == (if text.Some? then text.value else "Unknown error")
  {
    match exception
    case None => "No exception available"
    case Some(e) =>
      match e.message
      case None => "No error message available"
      case Some(memory) =>
        match Decode(UntilNul(memory))
        case None => "Unknown error"
        case Some(text) => text
  }

  /** A message the engine stored as the UTF-8 bytes of `text` followed by a
      NUL is read back as `text`, whatever follows the NUL. */
  lemma GerErrorMsgReadsText(status: u32, text: string, after: seq<byte>)
    requires '\0' !in text
    ensures GerErrorMsg(Some(Exception(status, Some(Encode(text) + [0] + after)))) == text
  {
    var memory := Encode(text) + [0] + after;
    EncodeHasNul(text);
    UntilNulOfTerminated(Encode(text), after);
    DecodeEncode(text);
  }

  lemma {:induction false} UntilNulOfTerminated(b: seq<byte>, after: seq<byte>)
    requires 0 !in b
    ensures UntilNul(b + [0] + after) == b
  {
    if b != [] {
      UntilNulOfTerminated(b[1..], after);
      assert (b + [0] + after)[1..] == b[1..] + [0] + after;
      assert [b[0]] + b[1..] == b;
    }
  }

  /** `verify_exception`: no error for a null exception or one whose status is
      success; otherwise the internal-API error of `operation` with the status,
      its description and the exception's message. */
  function VerifyException(exception: Option<Exception>, operation: Operation): (r: FiftyOneDegreesResult<()>)
    ensures r.Ok? <==> exception.None? || exception.value.status == SUCCESS
    ensures r.Err? ==> r.error == InternalApiError(operation, exception.value.status,
      StatusToErrorMessage(exception.value.status), GerErrorMsg(exception))
  {
    if exception.Some? && exception.value.status != SUCCESS then
      Err(InternalApiError(operation, exception.value.status,
                           StatusToErrorMessage(exception.value.status), GerErrorMsg(exception)))
    else
      Ok(())
  }

  /** What the host reports about a data-file path: whether it exists, whether
      it is a regular file, and the outcome of canonicalising it (the debug text
      of the I/O error, or the canonical path, None when it is not valid
      Unicode). */
  datatype Path = Path(pathExists: bool, isFile: bool, canonical: Result<Option<string>, string>)

  /** `verify_data_file_path`: existence is checked before being a file. */
  function VerifyDataFilePath(path: Path): (r: FiftyOneDegreesResult<()>)
    ensures r.Ok? <==> path.pathExists && path.isFile
    ensures !path.pathExists ==> r == Err(AssertionError(ReadDataFile, "file does not exist"))
    ensures path.pathExists && !path.isFile ==> r == Err(AssertionError(ReadDataFile, "is not a file"))
  {
    if !path.pathExists then Err(NewReadFileAssertionError(NotExists))
    else if !path.isFile then Err(NewReadFileAssertionError(IsNotFile))
    else Ok(())
  }
}
