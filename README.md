# fiftyonedegrees wrapper: a verified model

The `fiftyonedegrees` crate is a Rust wrapper around the 51Degrees native
device-detection engine. A caller names a data file and, optionally, the
properties to load; the wrapper loads it into a resource manager. The
caller then hands over HTTP header evidence, such as `user-agent` or
`sec-ch-ua`, and reads detected properties back as text.

This project models the part of the wrapper that sits around the native
calls:

- the property and evidence name catalogues;
- the guard that turns Rust strings into C strings;
- the table that describes engine status codes;
- the exception and data-file checks;
- the evidence collection and the detection loop that fills it;
- how a property value is read back from a fixed-size buffer;
- the initialisation order of the manager.

Contracts are proved against that model.

Every native call is a parameter:

| native reply | modelled as |
|---|---|
| allocation that may return null | a boolean |
| initialisation status | a function from what the wrapper passes to a `u32` status |
| values query | a function from (results, name, buffer length, separator) to the bytes the engine writes and the length it says it needs |

Rust's own text handling is modelled on bytes in `utf8.dfy`:

- `CString::new`;
- `CStr::from_ptr` (the bytes before the first NUL);
- `to_str` (strict UTF-8 per RFC 3629);
- `to_string_lossy` (each maximal ill-formed subpart replaced by U+FFFD).

Decimal printing and itertools' `join` are in `text.dfy`. Each comes with the reading that undoes it.

Modules:

| file | module | contents |
|---|---|---|
| `wrappers.dfy` | `Wrappers` | `Option`, `Result`, and `Collect`, a loop whose body ends in `?` |
| `utf8.dfy` | `Utf8` | bytes, UTF-8 encoding and decoding, C-string reading |
| `text.dfy` | `Text` | decimal digits, join and split |
| `utils.dfy` | `Utils` | `src/utils.rs` |
| `device_detection.dfy` | `DeviceDetection` | `src/device_detection.rs` |

`Evidence` is a class whose `Add` method appends to its retained buffers in place.

`ResultData::get_value_as_string` and `ResultData::get_value` are methods that:

1. allocate a zeroed array;
2. let the engine write into it;
3. scan it for the terminating NUL.

The two share the query step `ReadValues`.

`Manager::detect` is a method with a loop. The loop is proved against `AddPairs`, the specification of adding the pairs one after another.

Modelled as written, though it looks unintended:

- The `CStringKind` labels: `FilePath` displays as "evidence key", and both `EvidenceKey` and `EvidenceValue` display as "evidence value".
- The internal-API error format ends in an unmatched ")".

## Model

| member | source | states |
|---|---|---|
| DeviceDetection.VariantName | src/device_detection.rs:16-106 | the derived `AsRefStr`/`Display` name of each of the 74 variants, spelled as declared, and "Custom" for a custom property; no contract of its own, its properties are `ToStr`, the category lemmas and `CatalogToken` |
| DeviceDetection.ToStr | src/device_detection.rs:112-119 | a `Custom` property passes its token through verbatim; every other property is its own variant name |
| DeviceDetection.DeviceInfoTokens | src/device_detection.rs:18-21 | every variant name in the category "Device info" holds neither a NUL nor a comma |
| DeviceDetection.DevicePropertyTokens1 | src/device_detection.rs:22-30 | the first eight variant names under "Device properties" hold neither a NUL nor a comma |
| DeviceDetection.DevicePropertyTokens2 | src/device_detection.rs:31-38 | the last eight variant names under "Device properties" hold neither a NUL nor a comma |
| DeviceDetection.DeviceNativeInfoTokens | src/device_detection.rs:39-45 | every variant name in the category "Device native info" holds neither a NUL nor a comma |
| DeviceDetection.BrowserInfoTokens | src/device_detection.rs:46-55 | every variant name in the category "Browser info" holds neither a NUL nor a comma |
| DeviceDetection.BrowserOptionTokens | src/device_detection.rs:56-68 | every variant name in the category "Browser options" holds neither a NUL nor a comma |
| DeviceDetection.PlatformInfoTokens | src/device_detection.rs:69-75 | every variant name in the category "Platform info" holds neither a NUL nor a comma |
| DeviceDetection.HardwareInfoTokens | src/device_detection.rs:76-85 | every variant name in the category "Hardware info" holds neither a NUL nor a comma |
| DeviceDetection.HardwareScreenInfoTokens | src/device_detection.rs:86-94 | every variant name in the category "Hardware Screen info" holds neither a NUL nor a comma |
| DeviceDetection.HardwareNetworkTokens | src/device_detection.rs:95-99 | every variant name in the category "Hardware Network" holds neither a NUL nor a comma |
| DeviceDetection.OtherTokens | src/device_detection.rs:100-106 | every variant name in the category "Other" holds neither a NUL nor a comma |
| DeviceDetection.CatalogToken | src/device_detection.rs:17-119 | the token of every property other than `Custom` holds neither a NUL nor a comma |
| DeviceDetection.EvidenceLabel | src/device_detection.rs:121-127 | the serialised names "user-agent", "sec-ch-ua" and "sec-ch-platform" of the three declared headers; no contract of its own, its properties are `AsStr` and `KnownEvidenceKeys` |
| DeviceDetection.AsStr | src/device_detection.rs:121-145 | a `Custom` evidence name passes its token through verbatim; the others are their declared header names "user-agent", "sec-ch-ua", "sec-ch-platform" |
| DeviceDetection.Value | src/device_detection.rs:135-137 | pairs the name with the value, both unchanged |
| DeviceDetection.KnownEvidenceKeys | src/device_detection.rs:121-132 | the three known header names are pairwise distinct and each is accepted as an evidence key |
| DeviceDetection.AddEvidence | src/device_detection.rs:183-204 | success iff key and value have no NUL and the engine accepts; the key is checked first, so a NUL in both reports `EvidenceKey`; a rejected pair reports "Failed add evidence key=<key>: got null"; on success the pair is the two encodings |
| DeviceDetection.Evidence.New | src/device_detection.rs:170-181 | a null array gives "Failed to create evidence object: got null"; otherwise a fresh collection for that capacity with no pairs retained |
| DeviceDetection.Evidence.Add | src/device_detection.rs:183-204 | on success exactly one pair, the encoded key and value, is appended at the end; on any failure the retained pairs are unchanged; the outcome is that of `AddEvidence` |
| DeviceDetection.AddPairs | src/device_detection.rs:465-467 | the reference definition of the add loop: every pair added in order with `?`, stopping at the first failure; no contract of its own, its properties are `AddPairsSucceeds`, `AddPairsFirstFailure` and `Detect` |
| DeviceDetection.Adds | src/device_detection.rs:465-467 | the i-th entry is the add of the i-th pair with the engine's i-th reply |
| DeviceDetection.AddPairsSucceeds | src/device_detection.rs:465-467 | adding all pairs succeeds iff every key and value is NUL-free and the engine accepts every pair; then the retained buffers are the encoded input, in order |
| DeviceDetection.AddPairsFirstFailure | src/device_detection.rs:465-467 | adding stops at the first failing pair and reports that pair's error |
| Wrappers.CollectSucceeds | src/device_detection.rs:465-467 | a loop whose body ends in `?` succeeds iff every step does, and then collects every step's value in order |
| Wrappers.CollectFirstFailure | src/device_detection.rs:465-467 | such a loop returns the error of the first failing step |
| Wrappers.CollectKeepsFailure | src/device_detection.rs:465-467 | once such a loop has failed, later steps do not change the outcome |
| DeviceDetection.NewResultData | src/device_detection.rs:220-243 | a null results object gives "Failed to create result object: got null"; otherwise the results are created for the manager with user-agent capacity 1 and overrides 0 and filled from the evidence; the null exception slot never produces an error |
| DeviceDetection.Detect | src/device_detection.rs:452-472 | empty evidence gives `AssertionError(CreateEvidence, "Evidence data must contain at least one item")` before anything is allocated; the capacity is the length cast to 32 bits; the pairs are added in order and the first failure is returned; on success the results hold the encoded input, in order |
| DeviceDetection.LengthAsU32 | src/device_detection.rs:463 | the `as u32` cast keeps the low 32 bits: the result is below 2^32 and congruent to the length modulo 2^32, so lengths below 2^32 are unchanged |
| DeviceDetection.Overwrite | src/device_detection.rs:258-266 | the buffer keeps its length; the engine's bytes cover a prefix as far as the buffer reaches, and the rest is untouched |
| DeviceDetection.WriteReply | src/device_detection.rs:258-266 | the engine's bytes written into the array in place |
| DeviceDetection.CStrLength | src/device_detection.rs:286-288 | the scan stops at the first NUL or at the buffer's end, and the bytes before it are exactly the C string's bytes |
| DeviceDetection.ReadText | src/device_detection.rs:286-288 | the text read from the buffer never contains '\0' |
| DeviceDetection.ReadTextRoundTrip | src/device_detection.rs:286-288 | a value the engine writes as NUL-terminated UTF-8 text that fits the buffer is read back as exactly that text |
| DeviceDetection.BufferTooSmall | src/device_detection.rs:270-276 | the too-small message naming the property, the required length and the buffer length in decimal; no contract of its own, `GetValueAsString`, `GetValue` and `ReadValues` state where it is returned |
| DeviceDetection.ReadValues | src/device_detection.rs:252-288 | a zeroed buffer of the given length and the separator ", " go to the engine; a required length above the buffer length gives "Buffer too small for property: <name>, expected: <required>, actual: <length>"; an empty buffer gives "No data written for property: <name>"; otherwise the value is the text up to the first NUL |
| DeviceDetection.GetValueAsString | src/device_detection.rs:245-291 | a NUL in the property's token is a `PropertyName` C-string error; a required length above 64 is an error naming the variant; otherwise the result is None iff the text up to the first NUL is "", "Unknown" or "N/A", and is that text otherwise; the zero-length branch cannot fire; a catalogued property never gives the C-string error |
| DeviceDetection.GetValue | src/device_detection.rs:293-331 | as for `GetValueAsString`, but with a 128-byte buffer, the given name in the error, and only "" giving None, so "Unknown" and "N/A" come back as values |
| DeviceDetection.BuildConfig | src/device_detection.rs:347-362 | always the engine's high-performance preset, never an error |
| DeviceDetection.AllowList | src/device_detection.rs:377-383 | the requested tokens joined by ","; no contract of its own, its properties are `AllowListSplits`, `CatalogAllowListSplits` and `AllowListHasNul` |
| DeviceDetection.AllowListSplits | src/device_detection.rs:377-383 | the allow-list is the tokens joined by ",", in order: splitting it at its commas gives back the requested tokens, provided none holds a comma |
| DeviceDetection.CatalogAllowListSplits | src/device_detection.rs:377-383 | for any non-empty list of catalogued properties the allow-list splits back into their names, with no condition on the tokens |
| DeviceDetection.AllowListHasNul | src/device_detection.rs:377-385 | the allow-list contains a NUL iff one of the requested tokens does |
| DeviceDetection.PathCString | src/device_detection.rs:367-373 | a failed canonicalisation gives `IOError("Failed to canonicalize data file path", Some(cause))`; a non-UTF-8 path gives `IOError("Failed to convert data file path to string", None)`; otherwise the canonical path is encoded as a `FilePath` C string |
| DeviceDetection.RequiredProperties | src/device_detection.rs:377-397 | no list gives the null "all properties" sentinel; a list gives the encoded comma-joined allow-list, or a `PropertyName` C-string error iff some token holds a NUL |
| DeviceDetection.CatalogRequiredProperties | src/device_detection.rs:377-397 | a list of catalogued properties always encodes: the result is the encoded allow-list, never the C-string error |
| DeviceDetection.NewManager | src/device_detection.rs:364-427 | the path check comes first; then the canonical path, then the allow-list; success iff all of these succeed and the engine returns SUCCESS, and the manager then records exactly what was handed to the engine; a non-success status gives `InternalApiError(InitManager, status, StatusToErrorMessage(status), "Status check failed")` |
| Utils.BuildCString | src/utils.rs:70-72 | success iff the string has no '\0'; the bytes are then the string's UTF-8 encoding, with no 0 byte; failure carries the given kind |
| Utils.NewReadFileAssertionError | src/utils.rs:62-66 | an assertion error of the data-file read whose reason is "file does not exist" for a missing path and "is not a file" otherwise |
| Utils.CStringKindLabel | src/utils.rs:10-22 | the declared label of each C-string kind, mislabels included; no contract of its own, its properties are `CStringKindLabelsAsDeclared` and `DisplayMarks` |
| Utils.OperationLabel | src/utils.rs:24-36 | the declared label of each operation; no contract of its own, it appears in `ErrorDisplay` |
| Utils.ReadFileErrorLabel | src/utils.rs:38-44 | "file does not exist" and "is not a file"; no contract of its own, its property is `NewReadFileAssertionError` |
| Utils.ErrorDisplay | src/utils.rs:46-60 | the five declared error formats; no contract of its own, its properties are `DisplayMarks`, `DisplayDeterminesVariant` and `CStringKindLabelsAsDeclared` |
| Utils.DisplayMarks | src/utils.rs:46-60 | every error's display text has more than 16 characters, and its 17th character is the mark of its variant |
| Utils.DisplayDeterminesVariant | src/utils.rs:46-60 | two errors with the same display text are of the same variant |
| Utils.CStringKindLabelsAsDeclared | src/utils.rs:10-22 | a NUL in an evidence key and one in an evidence value display alike, and a bad data-file path displays as a bad evidence key |
| Utils.StatusToErrorMessage | src/utils.rs:74-111 | the 33 descriptions as listed, "Unknown error" otherwise; no contract of its own, its properties are `StatusTableReversible`, `StatusMessagesDistinct` and `StatusMessageFallback` |
| Utils.StatusTableReversible | src/utils.rs:74-111 | each of the 33 listed codes can be recovered from its description, and "Unknown error" describes none of them |
| Utils.StatusMessagesDistinct | src/utils.rs:74-111 | the 33 listed codes have pairwise distinct descriptions |
| Utils.StatusMessageFallback | src/utils.rs:74-111 | the description is "Unknown error" iff the code is not one of the 33 listed; SUCCESS is "Success" |
| Utils.GerErrorMsg | src/utils.rs:113-128 | a null exception gives "No exception available"; a null message gives "No error message available"; a message whose C string is not valid UTF-8 gives "Unknown error"; otherwise the decoded message |
| Utils.GerErrorMsgReadsText | src/utils.rs:113-128 | a message stored as NUL-terminated UTF-8 text is read back as that text |
| Utils.UntilNulOfTerminated | src/utils.rs:119-122 | the C string read from NUL-free bytes followed by a NUL is those bytes |
| Utils.VerifyException | src/utils.rs:130-146 | Ok iff the exception is null or its status is SUCCESS; otherwise `InternalApiError` of the given operation, with the status, its description and the exception's message |
| Utils.VerifyDataFilePath | src/utils.rs:148-160 | Ok iff the path exists and is a file; existence is checked first ("file does not exist"), then file-ness ("is not a file"), both against `ReadDataFile` |
| Utf8.EncodeChar | src/utils.rs:70-72 | a character's UTF-8 form has one to four bytes |
| Utf8.Step | src/device_detection.rs:286-288 | the decoder consumes between one and four bytes, never more than are there |
| Utf8.StepIsEncoding | src/utils.rs:119-122 | whatever the decoder accepts as one character is exactly that character's encoding |
| Utf8.DecodeEncode | src/utils.rs:119-122 | strict decoding of a string's UTF-8 bytes gives the string back |
| Utf8.EncodeDecode | src/utils.rs:119-122 | bytes that decode strictly are the encoding of their text |
| Utf8.LossyAgreesWithStrict | src/device_detection.rs:286-288 | on well-formed bytes, lossy decoding agrees with strict decoding |
| Utf8.LossyMarksIllFormed | src/device_detection.rs:286-288 | on ill-formed bytes, lossy decoding shows at least one U+FFFD |
| Utf8.EncodeHasNul | src/utils.rs:70-72 | a string's bytes contain 0 iff the string contains '\0' |
| Utf8.LossyHasNul | src/device_detection.rs:286-288 | lossy decoding yields '\0' iff the bytes contain 0 |
| Utf8.UntilNul | src/device_detection.rs:286-288 | the C string is a NUL-free prefix of the buffer that ends at a NUL or at the buffer's end |
| Utf8.UntilNulUnique | src/device_detection.rs:286-288 | those three facts determine the C string |
| Text.Decimal | src/device_detection.rs:270-277 | printed numbers are non-empty digit strings with no leading zero |
| Text.DecimalRoundTrip | src/device_detection.rs:270-277 | reading the printed digits back gives the number |
| Text.JoinContains | src/device_detection.rs:378-383 | a character not in the separator is in the join iff it is in some part |
| Text.SplitJoin | src/device_detection.rs:378-383 | splitting a join of one or more separator-free parts at the separator gives the parts back |

## Left out

- Freeing native objects (`Drop` for `Evidence`, `ResultData` and `Manager`) is not modelled; Rust ownership guarantees each object is freed once.
- The native engine is a parameter: data-set loading, hash matching, value rendering and allocation are not modelled. Each reply is an input: a boolean for a null check, a status function for initialisation, and a reply function for the values query.
- The evidence prefix constant handed to the native add is not modelled. The native array's pointers into the retained C strings are not modelled either: the model records the pairs the array holds, but not the aliasing.
- The filesystem is not modelled. `exists`, `is_file`, `canonicalize` and `to_str` on the data-file path are inputs, recorded in `Utils.Path`.
- An I/O error cause is carried as its debug text.
- `Manager::new` keeps a raw pointer to a block-local `Properties` value after the block ends. That scoping fault is in unsafe memory and is not modelled; the model passes the allow-list string itself to the engine.
- If the engine fills a buffer with no NUL, the Rust code reads past its end. That is undefined behaviour. The model instead takes the whole buffer as the C string.
- Status codes are numbered 0 to 32 in the order of `src/utils.rs:76-108`. This assumes the generated engine bindings (not part of this model) follow that order.
- The C buffers hold `i8`; the model reads each cell as an unsigned byte.
- GetValue: `get_value` returns `to_string_lossy()` of the local 128-byte buffer (src/device_detection.rs:295, 328-330). For valid UTF-8 that `Cow` is borrowed and points into the buffer, which is freed when the function returns, so the caller holds a dangling reference. The model returns the text the buffer held when the function returned. `get_value_as_string` copies the text with `.to_string()` and has no such fault.
- `Detect`'s thread-safety caveat is not modelled, because the model has no concurrency.
- ToStr: that the 74 variant names are pairwise distinct is not proved. It needs a reverse lookup from name to variant, in the manner of `StatusOfMessage`, over 74 literals, and no part of the model depends on it. That they hold no NUL and no comma is proved (`CatalogToken`).
- GetValueAsString: the `buf.len() == 0` branch is present in `ReadValues`, where the length is a parameter, and the model shows it fires only for a zero-length buffer. The 64- and 128-byte callers never reach it.
- The exception slot is always null at every call site, so the `verify_exception` call after each native call never fails. The model keeps the call and its never-taken error branch.
