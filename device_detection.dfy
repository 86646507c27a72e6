/** The device-detection wrapper: the catalogue of property names, evidence
    names, the evidence collection handed to the engine, the results object
    and how its values are read back as text, the resource manager and the
    detection that ties them together.

    Every call into the native engine is a parameter here: a boolean for an
    allocation that may return null, a function for a call whose answer
    depends on what it is given. */
module DeviceDetection {
  import opened Wrappers
  import opened Utf8
  import opened Text
  import opened Utils

  // ---------------------------------------------------------------------
  // Property names
  // ---------------------------------------------------------------------

  /** The properties the wrapper names, plus `Custom` for any other one. */
  datatype PropertyName =
    | DeviceId
    | DeviceType
    | CrawlerName
    | HasTouchScreen
    | IsScreenFoldable
    | IsSmallScreen
    | IsEmailBrowser
    | IsEmulatingDesktop
    | IsEmulatingDevice
    | IsWebApp
    | IsConsole
    | IsEReader
    | IsMediaHub
    | IsMobile
    | IsSmartWatch
    | IsTablet
    | IsTv
    | IsCrawler
    | IsArtificialIntelligence
    | NativeBrand
    | NativeDevice
    | NativeModel
    | NativeName
    | NativePlatform
    | BrowserFamily
    | BrowserName
    | BrowserVendor
    | BrowserVersion
    | BrowserReleaseYear
    | BrowserSourceProject
    | BrowserSourceProjectVersion
    | BrowserRank
    | Canvas
    | CookiesCapable
    | CssCanvas
    | DeviceOrientation
    | Fetch
    | Fullscreen
    | GeoLocation
    | IndexedDB
    | InVRMode
    | Javascript
    | Viewport
    | PlatformName
    | PlatformVendor
    | PlatformVersion
    | PlatformReleaseYear
    | PlatformRank
    | HardwareName
    | HardwareVendor
    | HardwareFamily
    | HardwareModel
    | HardwareModelVariants
    | HardwareCarrier
    | HardwareRank
    | OEM
    | ReleaseYear
    | BitsPerPixel
    | PixelRatio
    | ScreenInchesDiagonal
    | ScreenPixelsHeight
    | ScreenPixelsPhysicalHeight
    | ScreenPixelsPhysicalWidth
    | ScreenPixelsWidth
    | ScreenType
    | RegisteredCountry
    | RegisteredName
    | RegisteredOwner
    | Profiles
    | Popularity
    | PriceBand
    | Difference
    | Drift
    | UserAgents
    | Custom(token: string)

  /** The variant's own name, as the derived `AsRefStr` and `Display` write
      it; a custom property displays as "Custom". */
  function VariantName(p: PropertyName): string
  {
    match p
    case DeviceId => "DeviceId"
    case DeviceType => "DeviceType"
    case CrawlerName => "CrawlerName"
    case HasTouchScreen => "HasTouchScreen"
    case IsScreenFoldable => "IsScreenFoldable"
    case IsSmallScreen => "IsSmallScreen"
    case IsEmailBrowser => "IsEmailBrowser"
    case IsEmulatingDesktop => "IsEmulatingDesktop"
    case IsEmulatingDevice => "IsEmulatingDevice"
    case IsWebApp => "IsWebApp"
    case IsConsole => "IsConsole"
    case IsEReader => "IsEReader"
    case IsMediaHub => "IsMediaHub"
    case IsMobile => "IsMobile"
    case IsSmartWatch => "IsSmartWatch"
    case IsTablet => "IsTablet"
    case IsTv => "IsTv"
    case IsCrawler => "IsCrawler"
    case IsArtificialIntelligence => "IsArtificialIntelligence"
    case NativeBrand => "NativeBrand"
    case NativeDevice => "NativeDevice"
    case NativeModel => "NativeModel"
    case NativeName => "NativeName"
    case NativePlatform => "NativePlatform"
    case BrowserFamily => "BrowserFamily"
    case BrowserName => "BrowserName"
    case BrowserVendor => "BrowserVendor"
    case BrowserVersion => "BrowserVersion"
    case BrowserReleaseYear => "BrowserReleaseYear"
    case BrowserSourceProject => "BrowserSourceProject"
    case BrowserSourceProjectVersion => "BrowserSourceProjectVersion"
    case BrowserRank => "BrowserRank"
    case Canvas => "Canvas"
    case CookiesCapable => "CookiesCapable"
    case CssCanvas => "CssCanvas"
    case DeviceOrientation => "DeviceOrientation"
    case Fetch => "Fetch"
    case Fullscreen => "Fullscreen"
    case GeoLocation => "GeoLocation"
    case IndexedDB => "IndexedDB"
    case InVRMode => "InVRMode"
    case Javascript => "Javascript"
    case Viewport => "Viewport"
    case PlatformName => "PlatformName"
    case PlatformVendor => "PlatformVendor"
    case PlatformVersion => "PlatformVersion"
    case PlatformReleaseYear => "PlatformReleaseYear"
    case PlatformRank => "PlatformRank"
    case HardwareName => "HardwareName"
    case HardwareVendor => "HardwareVendor"
    case HardwareFamily => "HardwareFamily"
    case HardwareModel => "HardwareModel"
    case HardwareModelVariants => "HardwareModelVariants"
    case HardwareCarrier => "HardwareCarrier"
    case HardwareRank => "HardwareRank"
    case OEM => "OEM"
    case ReleaseYear => "ReleaseYear"
    case BitsPerPixel => "BitsPerPixel"
    case PixelRatio => "PixelRatio"
    case ScreenInchesDiagonal => "ScreenInchesDiagonal"
    case ScreenPixelsHeight => "ScreenPixelsHeight"
    case ScreenPixelsPhysicalHeight => "ScreenPixelsPhysicalHeight"
    case ScreenPixelsPhysicalWidth => "ScreenPixelsPhysicalWidth"
    case ScreenPixelsWidth => "ScreenPixelsWidth"
    case ScreenType => "ScreenType"
    case RegisteredCountry => "RegisteredCountry"
    case RegisteredName => "RegisteredName"
    case RegisteredOwner => "RegisteredOwner"
    case Profiles => "Profiles"
    case Popularity => "Popularity"
    case PriceBand => "PriceBand"
    case Difference => "Difference"
    case Drift => "Drift"
    case UserAgents => "UserAgents"
    case Custom(_) => "Custom"
  }

  /** The property name passed to the engine: a custom property passes its
      token through verbatim, every other one is its variant name. */
  function ToStr(p: PropertyName): (r: string)
    ensures p.Custom? ==> r == p.token
    ensures !p.Custom? ==> r == VariantName(p)
  {
    if p.Custom? then p.token else VariantName(p)
  }

  // ---------------------------------------------------------------------
  // Evidence names
  // ---------------------------------------------------------------------

  /** A token that can stand in a comma-separated C string: no NUL and no
      comma. */
  predicate PlainToken(s: string)
  {
    forall i :: 0 <= i < |s| ==> s[i] != '\0' && s[i] != ','
  }

  // The catalogued names are plain tokens, one lemma per category of the
  // enum as it is laid out (the verifier's cost grows quickly with the number
  // of literals in one proof); `CatalogToken` brings them together.

  /** Device info. */
  lemma DeviceInfoTokens()
    ensures PlainToken("DeviceId")
    ensures PlainToken("DeviceType")
    ensures PlainToken("CrawlerName")
  {
  }

  /** Device properties, first half. */
  lemma DevicePropertyTokens1()
    ensures PlainToken("HasTouchScreen")
    ensures PlainToken("IsScreenFoldable")
    ensures PlainToken("IsSmallScreen")
    ensures PlainToken("IsEmailBrowser")
    ensures PlainToken("IsEmulatingDesktop")
    ensures PlainToken("IsEmulatingDevice")
    ensures PlainToken("IsWebApp")
    ensures PlainToken("IsConsole")
  {
  }

  /** Device properties, second half. */
  lemma DevicePropertyTokens2()
    ensures PlainToken("IsEReader")
    ensures PlainToken("IsMediaHub")
    ensures PlainToken("IsMobile")
    ensures PlainToken("IsSmartWatch")
    ensures PlainToken("IsTablet")
    ensures PlainToken("IsTv")
    ensures PlainToken("IsCrawler")
    ensures PlainToken("IsArtificialIntelligence")
  {
  }

  /** Device native info. */
  lemma DeviceNativeInfoTokens()
    ensures PlainToken("NativeBrand")
    ensures PlainToken("NativeDevice")
    ensures PlainToken("NativeModel")
    ensures PlainToken("NativeName")
    ensures PlainToken("NativePlatform")
  {
  }

  /** Browser info. */
  lemma BrowserInfoTokens()
    ensures PlainToken("BrowserFamily")
    ensures PlainToken("BrowserName")
    ensures PlainToken("BrowserVendor")
    ensures PlainToken("BrowserVersion")
    ensures PlainToken("BrowserReleaseYear")
    ensures PlainToken("BrowserSourceProject")
    ensures PlainToken("BrowserSourceProjectVersion")
    ensures PlainToken("BrowserRank")
  {
  }

  /** Browser options. */
  lemma BrowserOptionTokens()
    ensures PlainToken("Canvas")
    ensures PlainToken("CookiesCapable")
    ensures PlainToken("CssCanvas")
    ensures PlainToken("DeviceOrientation")
    ensures PlainToken("Fetch")
    ensures PlainToken("Fullscreen")
    ensures PlainToken("GeoLocation")
    ensures PlainToken("IndexedDB")
    ensures PlainToken("InVRMode")
    ensures PlainToken("Javascript")
    ensures PlainToken("Viewport")
  {
  }

  /** Platform info. */
  lemma PlatformInfoTokens()
    ensures PlainToken("PlatformName")
    ensures PlainToken("PlatformVendor")
    ensures PlainToken("PlatformVersion")
    ensures PlainToken("PlatformReleaseYear")
    ensures PlainToken("PlatformRank")
  {
  }

  /** Hardware info. */
  lemma HardwareInfoTokens()
    ensures PlainToken("HardwareName")
    ensures PlainToken("HardwareVendor")
    ensures PlainToken("HardwareFamily")
    ensures PlainToken("HardwareModel")
    ensures PlainToken("HardwareModelVariants")
    ensures PlainToken("HardwareCarrier")
    ensures PlainToken("HardwareRank")
    ensures PlainToken("OEM")
    ensures PlainToken("ReleaseYear")
  {
  }

  /** Hardware Screen info. */
  lemma HardwareScreenInfoTokens()
    ensures PlainToken("BitsPerPixel")
    ensures PlainToken("PixelRatio")
    ensures PlainToken("ScreenInchesDiagonal")
    ensures PlainToken("ScreenPixelsHeight")
    ensures PlainToken("ScreenPixelsPhysicalHeight")
    ensures PlainToken("ScreenPixelsPhysicalWidth")
    ensures PlainToken("ScreenPixelsWidth")
    ensures PlainToken("ScreenType")
  {
  }

  /** Hardware Network. */
  lemma HardwareNetworkTokens()
    ensures PlainToken("RegisteredCountry")
    ensures PlainToken("RegisteredName")
    ensures PlainToken("RegisteredOwner")
  {
  }

  /** Other. */
  lemma OtherTokens()
    ensures PlainToken("Profiles")
    ensures PlainToken("Popularity")
    ensures PlainToken("PriceBand")
    ensures PlainToken("Difference")
    ensures PlainToken("Drift")
    ensures PlainToken("UserAgents")
  {
  }

  /** The name of any catalogued property, as passed to the engine, holds
      neither a NUL nor a comma. */
  lemma CatalogToken(p: PropertyName)
    requires !p.Custom?
    ensures '\0' !in ToStr(p) && ',' !in ToStr(p)
  {
    DeviceInfoTokens();
    DevicePropertyTokens1();
    DevicePropertyTokens2();
    DeviceNativeInfoTokens();
    BrowserInfoTokens();
    BrowserOptionTokens();
    PlatformInfoTokens();
    HardwareInfoTokens();
    HardwareScreenInfoTokens();
    HardwareNetworkTokens();
    OtherTokens();
    assert PlainToken(VariantName(p));
  }

  /** The header names the wrapper knows, plus `Custom` for any other one. */
  datatype EvidenceName = UserAgent | SecChUa | SecChPlatform | Custom(token: string)

  /** The `AsRefStr` serialisation of an evidence name: the declared header
      for the three known ones, the variant name for a custom one. */
  function EvidenceLabel(e: EvidenceName): string
  {
    match e
    case UserAgent => "user-agent"
    case SecChUa => "sec-ch-ua"
    case SecChPlatform => "sec-ch-platform"
    case Custom(_) => "Custom"
  }

  /** The evidence key handed to the engine: the header name, or a custom
      token verbatim. */
  function AsStr(e: EvidenceName): (r: string)
    ensures e.Custom? ==> r == e.token
    ensures !e.Custom? ==> r == EvidenceLabel(e)
  {
    if e.Custom? then e.token else EvidenceLabel(e)
  }

  /** Pairs an evidence name with its value, unchanged. */
  function Value(e: EvidenceName, v: string): (r: (EvidenceName, string))
    ensures r.0 == e && r.1 == v
  {
    (e, v)
  }

  /** The three known headers are distinct from one another, and each is
      accepted as an evidence key (none holds a NUL). */
  lemma KnownEvidenceKeys(a: EvidenceName, b: EvidenceName)
    requires !a.Custom? && !b.Custom?
    ensures AsStr(a) == AsStr(b) <==> a == b
    ensures BuildCString(EvidenceKey, AsStr(a)).Ok?
  {
    assert '\0' !in AsStr(a) by {
      match a
      case UserAgent =>
      case SecChUa =>
      case SecChPlatform =>
    }
  }

  // ---------------------------------------------------------------------
  // Evidence
  // ---------------------------------------------------------------------

  /** The native key/value array the engine allocates for `capacity` pairs. */
  datatype EvidenceArray = EvidenceArray(capacity: u32)

  /** What one `add` must do before touching the native array, and what it
      keeps: the key and the value encoded as C strings, the key checked
      first; `added` is whether the engine accepted the pair (a non-null
      reply). */
  function AddEvidence(key: string, val: string, added: bool): (r: FiftyOneDegreesResult<(seq<byte>, seq<byte>)>)
    ensures r.Ok? <==> '\0' !in key && '\0' !in val && added
    ensures r.Ok? ==> r.value == (Encode(key), Encode(val))
    ensures '\0' in key ==> r == Err(CStringCreationError(EvidenceKey))
    ensures '\0' !in key && '\0' in val ==> r == Err(CStringCreationError(EvidenceValue))
    ensures '\0' !in key && '\0' !in val && !added ==>
      r == Err(UnsafeOperationError("Failed add evidence key=" + key + ": got null"))
  {
    var keyCString :- BuildCString(EvidenceKey, key);
    var valCString :- BuildCString(EvidenceValue, val);
    if !added then Err(UnsafeOperationError("Failed add evidence key=" + key + ": got null"))
    else Ok((keyCString, valCString))
  }

  /** The evidence collection: the native array and the C strings it points
      into, kept alive for as long as the collection lives. */
  class Evidence {
    const evidencePtr: EvidenceArray
    var evidenceData: seq<(seq<byte>, seq<byte>)>

    constructor (ptr: EvidenceArray)
      ensures evidencePtr == ptr && evidenceData == []
    {
      evidencePtr := ptr;
      evidenceData := [];
    }

    /** Allocates the native array for `capacity` pairs; `created` is whether
        the engine returned a non-null array. */
    static method New(capacity: u32, created: bool) returns (r: FiftyOneDegreesResult<Evidence>)
      ensures r.Ok? <==> created
      ensures !created ==> r == Err(UnsafeOperationError("Failed to create evidence object: got null"))
      ensures r.Ok? ==> fresh(r.value) && r.value.evidencePtr == EvidenceArray(capacity) && r.value.evidenceData == []
    {
      if !created {
        return Err(UnsafeOperationError("Failed to create evidence object: got null"));
      }
      var evidence := new Evidence(EvidenceArray(capacity));
      return Ok(evidence);
    }

    /** Adds one header pair: on success exactly that pair, encoded, is
        appended to the retained buffers; on any failure nothing changes. */
    method Add(key: string, val: string, added: bool) returns (r: FiftyOneDegreesResult<()>)
      modifies this
      ensures r.Ok? <==> AddEvidence(key, val, added).Ok?
      ensures r.Err? ==> r.error == AddEvidence(key, val, added).error
      ensures r.Ok? ==> evidenceData == old(evidenceData) + [AddEvidence(key, val, added).value]
      ensures r.Err? ==> evidenceData == old(evidenceData)
    {
      var pair :- AddEvidence(key, val, added);
      evidenceData := evidenceData + [pair];
      return Ok(());
    }
  }

  /** The i-th add of a sequence of pairs; `accepted(i)` is the engine's
      reply to it. */
  function AddAt(pairs: seq<(EvidenceName, string)>, accepted: nat -> bool, i: nat): FiftyOneDegreesResult<(seq<byte>, seq<byte>)>
    requires i < |pairs|
  {
    AddEvidence(AsStr(pairs[i].0), pairs[i].1, accepted(i))
  }

  /** Every add of a sequence of pairs, in order. */
  function Adds(pairs: seq<(EvidenceName, string)>, accepted: nat -> bool): (r: seq<FiftyOneDegreesResult<(seq<byte>, seq<byte>)>>)
    ensures |r| == |pairs|
    ensures forall i :: 0 <= i < |pairs| ==> r[i] == AddAt(pairs, accepted, i)
  {
    seq(|pairs|, i requires 0 <= i < |pairs| => AddAt(pairs, accepted, i))
  }

  /** Adding all pairs one after another to an empty collection: the buffers
      retained when every add succeeds, or the error of the first add that
      fails. */
  function AddPairs(pairs: seq<(EvidenceName, string)>, accepted: nat -> bool): FiftyOneDegreesResult<seq<(seq<byte>, seq<byte>)>>
  {
    Collect(Adds(pairs, accepted), |pairs|)
  }

  /** Adding succeeds exactly when every pair's key and value encode and the
      engine accepts every pair, and then the retained buffers are the
      encoded pairs, in input order. */
  lemma AddPairsSucceeds(pairs: seq<(EvidenceName, string)>, accepted: nat -> bool)
    ensures AddPairs(pairs, accepted).Ok? <==>
      forall i :: 0 <= i < |pairs| ==> '\0' !in AsStr(pairs[i].0) && '\0' !in pairs[i].1 && accepted(i)
    ensures AddPairs(pairs, accepted).Ok? ==>
      var kept := AddPairs(pairs, accepted).value;
      |kept| == |pairs| &&
      forall i :: 0 <= i < |pairs| ==> kept[i] == (Encode(AsStr(pairs[i].0)), Encode(pairs[i].1))
  {
    var steps := Adds(pairs, accepted);
    CollectSucceeds(steps, |pairs|);
    forall i | 0 <= i < |pairs|
      ensures steps[i].Ok? <==> '\0' !in AsStr(pairs[i].0) && '\0' !in pairs[i].1 && accepted(i)
      ensures steps[i].Ok? ==> steps[i].value == (Encode(AsStr(pairs[i].0)), Encode(pairs[i].1))
    {
    }
  }

  /** Adding stops at the first pair that fails and reports its error. */
  lemma AddPairsFirstFailure(pairs: seq<(EvidenceName, string)>, accepted: nat -> bool, k: nat)
    requires k < |pairs|
    requires forall i :: 0 <= i < k ==> AddAt(pairs, accepted, i).Ok?
    requires AddAt(pairs, accepted, k).Err?
    ensures AddPairs(pairs, accepted) == Err(AddAt(pairs, accepted, k).error)
  {
    CollectFirstFailure(Adds(pairs, accepted), k, |pairs|);
  }

  // ---------------------------------------------------------------------
  // Results
  // ---------------------------------------------------------------------

  /** The engine's dataset configuration: the wrapper always takes the
      high-performance preset unchanged. */
  datatype ConfigHash = HighPerformanceConfig

  /** A loaded native resource manager: the configuration, the
      required-properties string (None asks for every property) and the data
      file path it was initialised from. */
  datatype ResourceManager = ResourceManager(config: ConfigHash, properties: Option<seq<byte>>, dataFilePath: seq<byte>)

  /** A native results object: the manager it was created for, the
      user-agent capacity and overrides capacity it was created with, and the
      evidence array (with the pairs that array holds) it was filled from. */
  datatype ResultsHash = ResultsHash(
    manager: ResourceManager,
    userAgentCapacity: nat,
    overridesCapacity: nat,
    evidence: EvidenceArray,
    applied: seq<(seq<byte>, seq<byte>)>)

  datatype ResultData = ResultData(resultsPtr: ResultsHash)

  /** Creates a results object for one user agent with overrides disabled and
      fills it from the evidence; `created` is whether the engine returned a
      non-null results object. The exception slot handed to the engine is
      null, so the exception check after filling always passes. */
  function NewResultData(managerPtr: ResourceManager, evidencePtr: EvidenceArray,
                         applied: seq<(seq<byte>, seq<byte>)>, created: bool): (r: FiftyOneDegreesResult<ResultData>)
    ensures r.Ok? <==> created
    ensures !created ==> r == Err(UnsafeOperationError("Failed to create result object: got null"))
    ensures r.Ok? ==> r.value.resultsPtr == ResultsHash(managerPtr, 1, 0, evidencePtr, applied)
  {
    if !created then Err(UnsafeOperationError("Failed to create result object: got null"))
    else
      var exception: Option<Exception> := None;
      match VerifyException(exception, ApplyEvidence)
      case Err(e) => Err(e)
      case Ok(_) => Ok(ResultData(ResultsHash(managerPtr, 1, 0, evidencePtr, applied)))
  }

  /** The engine's answer to a values-string query: the bytes it writes from
      the start of the buffer (those past the buffer's end are not kept) and
      the length it reports the whole value needs. */
  datatype ValuesReply = ValuesReply(written: seq<byte>, requiredLength: nat)

  /** The engine's values-string query as a function of the results object,
      the property name, the buffer length and the separator. */
  type ValuesOracle = (ResultsHash, seq<byte>, nat, seq<byte>) -> ValuesReply

  /** `before` with its first bytes replaced by `written`, as far as it
      reaches. */
  function Overwrite(before: seq<byte>, written: seq<byte>): (r: seq<byte>)
    ensures |r| == |before|
    ensures forall i :: 0 <= i < |r| ==> r[i] == if i < |written| then written[i] else before[i]
  {
    seq(|before|, i requires 0 <= i < |before| => if i < |written| then written[i] else before[i])
  }

  /** The engine writing its reply into `buf`. */
  method WriteReply(buf: array<byte>, written: seq<byte>)
    modifies buf
    ensures buf[..] == Overwrite(old(buf[..]), written)
  {
    var n := if |written| < buf.Length then |written| else buf.Length;
    for i := 0 to n
      invariant forall j :: 0 <= j < buf.Length ==> buf[j] == if j < i then written[j] else old(buf[j])
    {
      buf[i] := written[i];
    }
  }

  /** The length of the C string at the start of `buf`: the bytes before the
      first NUL. */
  method CStrLength(buf: array<byte>) returns (n: nat)
    ensures n <= buf.Length
    ensures buf[..n] == UntilNul(buf[..])
  {
    n := 0;
    while n < buf.Length && buf[n] != 0
      invariant n <= buf.Length
      invariant forall j :: 0 <= j < n ==> buf[j] != 0
    {
      n := n + 1;
    }
    UntilNulUnique(buf[..], buf[..n]);
  }

  /** A buffer of `length` zero bytes. */
  function Zeroed(length: nat): (r: seq<byte>)
    ensures |r| == length && forall i :: 0 <= i < length ==> r[i] == 0
  {
    seq(length, _ => 0)
  }

  /** The text read back from a zeroed buffer of `length` bytes once the
      engine has written `written` into it: the bytes up to the first NUL,
      decoded with ill-formed sequences replaced by U+FFFD. */
  function ReadText(length: nat, written: seq<byte>): (r: string)
    ensures '\0' !in r
  {
    var b := UntilNul(Overwrite(Zeroed(length), written));
    LossyHasNul(b);
    DecodeLossy(b)
  }

  /** A value the engine renders as the text `s`, NUL-terminated and fitting
      in the buffer, is read back as exactly `s`. */
  lemma ReadTextRoundTrip(length: nat, s: string, after: seq<byte>)
    requires '\0' !in s && |Encode(s)| < length
    ensures ReadText(length, Encode(s) + [0] + after) == s
  {
    var written := Encode(s) + [0] + after;
    var b := Overwrite(Zeroed(length), written);
    EncodeHasNul(s);
    UntilNulUnique(b, Encode(s));
    DecodeEncode(s);
    LossyAgreesWithStrict(Encode(s));
  }

  /** The error for a value longer than the buffer. */
  function BufferTooSmall(name: string, required: nat, actual: nat): FiftyOneDegreesError
  {
    UnsafeOperationError("Buffer too small for property: " + name + ", expected: " + Decimal(required) + ", actual: " + Decimal(actual))
  }

  /** The placeholder texts typed reads treat as "no value". */
  const TYPED_SENTINELS: set<string> := {"", "Unknown", "N/A"}

  /** The query both reads make: a zeroed buffer of `length` bytes and the
      separator ", " go to the engine, which writes its reply into the
      buffer. A value longer than the buffer is an error, and so is an empty
      buffer; otherwise the value is the text up to the first NUL.
      `displayName` is the name the errors show. */
  method ReadValues(result: ResultData, nameCString: seq<byte>, displayName: string, length: nat, engine: ValuesOracle)
    returns (r: FiftyOneDegreesResult<string>)
    ensures var reply := engine(result.resultsPtr, nameCString, length, Encode(", "));
      if reply.requiredLength > length then
        r == Err(BufferTooSmall(displayName, reply.requiredLength, length))
      else if length == 0 then
        r == Err(UnsafeOperationError("No data written for property: " + displayName))
      else
        r == Ok(ReadText(length, reply.written))
  {
    var buf := new byte[length](_ => 0);
    assert buf[..] == Zeroed(length);
    var sep: seq<byte>;
    match BuildCString(HashResultSeparator, ", ") {
      case Err(e) => return Err(e);
      case Ok(cstring) => sep := cstring;
    }
    var exception: Option<Exception> := None;
    var reply := engine(result.resultsPtr, nameCString, buf.Length, sep);
    WriteReply(buf, reply.written);
    match VerifyException(exception, ReadProperty) {
      case Err(e) => return Err(e);
      case Ok(_) =>
    }
    if reply.requiredLength > buf.Length {
      return Err(BufferTooSmall(displayName, reply.requiredLength, buf.Length));
    }
    if buf.Length == 0 {
      return Err(UnsafeOperationError("No data written for property: " + displayName));
    }
    var n := CStrLength(buf);
    return Ok(DecodeLossy(buf[..n]));
  }

  /** Reads a catalogued property through a 64-byte buffer. The name must
      encode as a C string; a value that needs more than the buffer is an
      error, shown with the variant's name; otherwise the text up to the
      first NUL is the value, and an empty, "Unknown" or "N/A" text is no
      value. */
  method GetValueAsString(result: ResultData, propertyName: PropertyName, engine: ValuesOracle)
    returns (r: FiftyOneDegreesResult<Option<string>>)
    ensures '\0' in ToStr(propertyName) ==> r == Err(CStringCreationError(CStringKind.PropertyName))
    ensures '\0' !in ToStr(propertyName) ==>
      var reply := engine(result.resultsPtr, Encode(ToStr(propertyName)), 64, Encode(", "));
      var text := ReadText(64, reply.written);
      if reply.requiredLength > 64 then
        r == Err(BufferTooSmall(VariantName(propertyName), reply.requiredLength, 64))
      else
        r.Ok? && (r.value.None? <==> text in TYPED_SENTINELS) && (r.value.Some? ==> r.value.value == text)
    ensures !propertyName.Custom? ==> r != Err(CStringCreationError(CStringKind.PropertyName))
  {
    if !propertyName.Custom? {
      CatalogToken(propertyName);
    }
    var propertyNameCString :- BuildCString(CStringKind.PropertyName, ToStr(propertyName));
    var valStr :- ReadValues(result, propertyNameCString, VariantName(propertyName), 64, engine);
    if valStr == "" || valStr == "Unknown" || valStr == "N/A" {
      return Ok(None);
    }
    return Ok(Some(valStr));
  }

  /** Reads a property by its engine name through a 128-byte buffer, with
      the same checks as `GetValueAsString`; only an empty text is no value. */
  method GetValue(result: ResultData, propertyName: string, engine: ValuesOracle)
    returns (r: FiftyOneDegreesResult<Option<string>>)
    ensures '\0' in propertyName ==> r == Err(CStringCreationError(CStringKind.PropertyName))
    ensures '\0' !in propertyName ==>
      var reply := engine(result.resultsPtr, Encode(propertyName), 128, Encode(", "));
      var text := ReadText(128, reply.written);
      if reply.requiredLength > 128 then
        r == Err(BufferTooSmall(propertyName, reply.requiredLength, 128))
      else
        r.Ok? && (r.value.None? <==> text == "") && (r.value.Some? ==> r.value.value == text)
  {
    var propertyNameCString :- BuildCString(CStringKind.PropertyName, propertyName);
    var valStr :- ReadValues(result, propertyNameCString, propertyName, 128, engine);
    if valStr == "" {
      return Ok(None);
    }
    return Ok(Some(valStr));
  }

  // ---------------------------------------------------------------------
  // Manager
  // ---------------------------------------------------------------------

  datatype Manager = Manager(instance: ResourceManager)

  /** The data file and, optionally, the properties to load (None loads
      every property). */
  datatype ManagerConfig = ManagerConfig(dataFilePath: Path, propertyNames: Option<seq<PropertyName>>)

  /** The engine's initialisation from a file, as a function of the
      configuration, the required-properties string and the path: the
      status it returns. */
  type InitOracle = (ConfigHash, Option<seq<byte>>, seq<byte>) -> u32

  /** The configuration the manager is built with. */
  function BuildConfig(): (r: FiftyOneDegreesResult<ConfigHash>)
    ensures r == Ok(HighPerformanceConfig)
  {
    Ok(HighPerformanceConfig)
  }

  /** The requested properties as one comma-separated allow-list. */
  function AllowList(names: seq<PropertyName>): string
  {
    Join(seq(|names|, i requires 0 <= i < |names| => ToStr(names[i])), ",")
  }

  /** The allow-list names every requested property, in order: split at its
      commas it gives the requested names back, as long as there is at
      least one and none holds a comma. */
  lemma AllowListSplits(names: seq<PropertyName>)
    requires |names| >= 1
    requires forall i :: 0 <= i < |names| ==> ',' !in ToStr(names[i])
    ensures var parts := Split(AllowList(names), ',');
      |parts| == |names| && forall i :: 0 <= i < |names| ==> parts[i] == ToStr(names[i])
  {
    SplitJoin(seq(|names|, i requires 0 <= i < |names| => ToStr(names[i])), ',');
  }

  /** For catalogued names the comma-free condition always holds: the
      allow-list of any non-empty list of them splits back into their names. */
  lemma CatalogAllowListSplits(names: seq<PropertyName>)
    requires |names| >= 1
    requires forall i :: 0 <= i < |names| ==> !names[i].Custom?
    ensures var parts := Split(AllowList(names), ',');
      |parts| == |names| && forall i :: 0 <= i < |names| ==> parts[i] == ToStr(names[i])
  {
    forall i | 0 <= i < |names|
      ensures ',' !in ToStr(names[i])
    {
      CatalogToken(names[i]);
    }
    AllowListSplits(names);
  }

  /** The allow-list holds a NUL exactly when one of the requested names
      does. */
  lemma AllowListHasNul(names: seq<PropertyName>)
    ensures '\0' in AllowList(names) <==> exists i :: 0 <= i < |names| && '\0' in ToStr(names[i])
  {
    var parts := seq(|names|, i requires 0 <= i < |names| => ToStr(names[i]));
    JoinContains(parts, ",", '\0');
    assert forall i :: 0 <= i < |names| ==> parts[i] == ToStr(names[i]);
  }

  /** The data file path handed to the engine: the canonical path as a C
      string. */
  function PathCString(path: Path): (r: FiftyOneDegreesResult<seq<byte>>)
    ensures path.canonical.Err? ==>
      r == Err(IOError("Failed to canonicalize data file path", Some(path.canonical.error)))
    ensures path.canonical == Ok(None) ==>
      r == Err(IOError("Failed to convert data file path to string", None))
    ensures path.canonical.Ok? && path.canonical.value.Some? ==>
      r == BuildCString(FilePath, path.canonical.value.value)
  {
    match path.canonical
    case Err(cause) => Err(IOError("Failed to canonicalize data file path", Some(cause)))
    case Ok(None) => Err(IOError("Failed to convert data file path to string", None))
    case Ok(Some(s)) => BuildCString(FilePath, s)
  }

  /** The required-properties string handed to the engine: none when no
      properties are named (every property is loaded), otherwise the
      allow-list as a C string. */
  function RequiredProperties(names: Option<seq<PropertyName>>): (r: FiftyOneDegreesResult<Option<seq<byte>>>)
    ensures names.None? ==> r == Ok(None)
    ensures names.Some? ==> (r.Ok? <==> forall i :: 0 <= i < |names.value| ==> '\0' !in ToStr(names.value[i]))
    ensures names.Some? && r.Ok? ==> r.value == Some(Encode(AllowList(names.value)))
    ensures names.Some? && r.Err? ==> r.error == CStringCreationError(CStringKind.PropertyName)
  {
    match names
    case None => Ok(None)
    case Some(list) =>
      AllowListHasNul(list);
      var propertiesCString :- BuildCString(CStringKind.PropertyName, AllowList(list));
      Ok(Some(propertiesCString))
  }

  /** A list of catalogued names never fails to encode: the
      required-properties string is then always the encoded allow-list. */
  lemma CatalogRequiredProperties(names: seq<PropertyName>)
    requires forall i :: 0 <= i < |names| ==> !names[i].Custom?
    ensures RequiredProperties(Some(names)) == Ok(Some(Encode(AllowList(names))))
  {
    forall i | 0 <= i < |names|
      ensures '\0' !in ToStr(names[i])
    {
      CatalogToken(names[i]);
    }
  }

  /** Loads the data file into a new manager. The path is checked first,
      then canonicalised and encoded, then the allow-list is built; the status
      the engine returns must be success. */
  function NewManager(config: ManagerConfig, init: InitOracle): (r: FiftyOneDegreesResult<Manager>)
    ensures !config.dataFilePath.pathExists ==>
      r == Err(AssertionError(ReadDataFile, "file does not exist"))
    ensures config.dataFilePath.pathExists && !config.dataFilePath.isFile ==>
      r == Err(AssertionError(ReadDataFile, "is not a file"))
    ensures VerifyDataFilePath(config.dataFilePath).Ok? && PathCString(config.dataFilePath).Err? ==>
      r == Err(PathCString(config.dataFilePath).error)
    ensures VerifyDataFilePath(config.dataFilePath).Ok? && PathCString(config.dataFilePath).Ok? &&
            RequiredProperties(config.propertyNames).Err? ==>
      r == Err(CStringCreationError(CStringKind.PropertyName))
    ensures r.Ok? <==>
      VerifyDataFilePath(config.dataFilePath).Ok? && PathCString(config.dataFilePath).Ok? &&
      RequiredProperties(config.propertyNames).Ok? &&
      init(HighPerformanceConfig, RequiredProperties(config.propertyNames).value,
           PathCString(config.dataFilePath).value) == SUCCESS
    ensures r.Ok? ==> r.value.instance == ResourceManager(HighPerformanceConfig,
      RequiredProperties(config.propertyNames).value, PathCString(config.dataFilePath).value)
    ensures VerifyDataFilePath(config.dataFilePath).Ok? && PathCString(config.dataFilePath).Ok? &&
            RequiredProperties(config.propertyNames).Ok? ==>
      var status := init(HighPerformanceConfig, RequiredProperties(config.propertyNames).value,
                         PathCString(config.dataFilePath).value);
      status != SUCCESS ==>
        r == Err(InternalApiError(InitManager, status, StatusToErrorMessage(status), "Status check failed"))
  {
    var _ :- VerifyDataFilePath(config.dataFilePath);
    var pathCString :- PathCString(config.dataFilePath);
    var properties :- RequiredProperties(config.propertyNames);
    match BuildConfig()
    case Err(e) => Err(e)
    case Ok(hashConfig) =>
      var exception: Option<Exception> := None;
      var status := init(hashConfig, properties, pathCString);
      match VerifyException(exception, InitManager)
      case Err(e) => Err(e)
      case Ok(_) =>
        if status != SUCCESS then
          Err(InternalApiError(InitManager, status, StatusToErrorMessage(status), "Status check failed"))
        else
          Ok(Manager(ResourceManager(hashConfig, properties, pathCString)))
  }

  // ---------------------------------------------------------------------
  // Detection
  // ---------------------------------------------------------------------

  /** The engine's replies during one detection: whether the evidence array
      was allocated, whether it accepted the i-th pair, and whether the
      results object was allocated. */
  datatype DetectReplies = DetectReplies(evidenceCreated: bool, addAccepted: nat -> bool, resultsCreated: bool)

  /** The capacity handed to the engine: the number of pairs cast to 32 bits,
      which keeps only the low 32 bits. */
  function LengthAsU32(n: nat): (r: u32)
    ensures n < 0x1_0000_0000 ==> r as int == n
    ensures r as int < 0x1_0000_0000 && (n - r as int) % 0x1_0000_0000 == 0
  {
    (n % 0x1_0000_0000) as u32
  }

  /** Detects against the given header pairs. No pairs is an error before
      anything is allocated; otherwise an evidence array sized to the number
      of pairs is filled with them in order, stopping at the first pair that
      fails, and a results object is created from it. */
  method Detect(manager: Manager, evidenceData: seq<(EvidenceName, string)>, native: DetectReplies)
    returns (r: FiftyOneDegreesResult<ResultData>)
    ensures |evidenceData| == 0 ==>
      r == Err(AssertionError(CreateEvidence, "Evidence data must contain at least one item"))
    ensures |evidenceData| > 0 && !native.evidenceCreated ==>
      r == Err(UnsafeOperationError("Failed to create evidence object: got null"))
    ensures |evidenceData| > 0 && native.evidenceCreated && AddPairs(evidenceData, native.addAccepted).Err? ==>
      r == Err(AddPairs(evidenceData, native.addAccepted).error)
    ensures |evidenceData| > 0 && native.evidenceCreated && AddPairs(evidenceData, native.addAccepted).Ok? ==>
      r == NewResultData(manager.instance, EvidenceArray(LengthAsU32(|evidenceData|)),
                         AddPairs(evidenceData, native.addAccepted).value, native.resultsCreated)
    ensures r.Ok? ==> |evidenceData| < 0x1_0000_0000 ==> r.value.resultsPtr.evidence.capacity as int == |evidenceData|
    ensures r.Ok? ==>
      var applied := r.value.resultsPtr.applied;
      |applied| == |evidenceData| &&
      forall i :: 0 <= i < |evidenceData| ==> applied[i] == (Encode(AsStr(evidenceData[i].0)), Encode(evidenceData[i].1))
  {
    if |evidenceData| == 0 {
      return Err(AssertionError(CreateEvidence, "Evidence data must contain at least one item"));
    }
    var evidence :- Evidence.New(LengthAsU32(|evidenceData|), native.evidenceCreated);
    ghost var adds := Adds(evidenceData, native.addAccepted);
    var i := 0;
    while i < |evidenceData|
      invariant 0 <= i <= |evidenceData|
      invariant Collect(adds, i) == Ok(evidence.evidenceData)
    {
      var (key, val) := evidenceData[i];
      var added := evidence.Add(AsStr(key), val, native.addAccepted(i));
      if added.Err? {
        CollectKeepsFailure(adds, i + 1, |evidenceData|);
        return Err(added.error);
      }
      i := i + 1;
    }
    AddPairsSucceeds(evidenceData, native.addAccepted);
    var result :- NewResultData(manager.instance, evidence.evidencePtr, evidence.evidenceData, native.resultsCreated);
    return Ok(result);
  }
}
