/** The byte-level view of text that the wrapper relies on: a Rust `&str` is
    UTF-8, a C string is the bytes before the first NUL, `CStr::to_str` decodes
    strictly and `CStr::to_string_lossy` replaces each ill-formed part with
    U+FFFD. Encoding follows RFC 3629, section 3; the lossy decoder replaces
    every maximal subpart of an ill-formed sequence by one U+FFFD, as the
    Unicode Standard (chapter 3, "U+FFFD Substitution of Maximal Subparts")
    recommends and Rust's decoder does. */
module Utf8 {
  import opened Wrappers

  /** One cell of a C string buffer, read as an unsigned byte. */
  newtype byte = b: int | 0 <= b < 0x100

  /** The character `to_string_lossy` puts in place of ill-formed input. */
  const REPLACEMENT: char := '\U{FFFD}'

  /** The UTF-8 form of one Unicode scalar value. */
  function EncodeChar(c: char): (r: seq<byte>)
    ensures 1 <= |r| <= 4
  {
    var cp := c as int;
    if cp < 0x80 then
      [cp as byte]
    else if cp < 0x800 then
      [(0xC0 + cp / 0x40) as byte, (0x80 + cp % 0x40) as byte]
    else if cp < 0x1_0000 then
      [(0xE0 + cp / 0x1000) as byte, (0x80 + cp / 0x40 % 0x40) as byte, (0x80 + cp % 0x40) as byte]
    else
      [(0xF0 + cp / 0x4_0000) as byte, (0x80 + cp / 0x1000 % 0x40) as byte,
       (0x80 + cp / 0x40 % 0x40) as byte, (0x80 + cp % 0x40) as byte]
  }

  /** The UTF-8 bytes of a string, which is what a Rust `&str` holds. */
  function Encode(s: string): seq<byte>
  {
    if s == [] then [] else EncodeChar(s[0]) + Encode(s[1..])
  }

  /** What a decoder finds at the head of a byte string: one scalar value and
      the bytes it occupies, or None and the length of the maximal subpart of
      an ill-formed sequence found there (never less than one byte). */
  datatype Decoded = Decoded(length: nat, scalar: Option<char>)

  predicate IsContinuation(b: byte) {
    0x80 <= b <= 0xBF
  }

  function Step(b: seq<byte>): (r: Decoded)
    requires |b| > 0
    ensures 1 <= r.length <= |b| && r.length <= 4
  {
    var b0 := b[0] as int;
    if b0 < 0x80 then
      Decoded(1, Some(b0 as char))
    else if 0xC2 <= b0 <= 0xDF then
      if |b| < 2 || !IsContinuation(b[1]) then Decoded(1, None)
      else Decoded(2, Some(((b0 - 0xC0) * 0x40 + (b[1] as int - 0x80)) as char))
    else if 0xE0 <= b0 <= 0xEF then
      var lo := if b0 == 0xE0 then 0xA0 else 0x80;
      var hi := if b0 == 0xED then 0x9F else 0xBF;
      if |b| < 2 || !(lo <= b[1] as int <= hi) then Decoded(1, None)
      else if |b| < 3 || !IsContinuation(b[2]) then Decoded(2, None)
      else Decoded(3, Some(((b0 - 0xE0) * 0x1000 + (b[1] as int - 0x80) * 0x40
                            + (b[2] as int - 0x80)) as char))
    else if 0xF0 <= b0 <= 0xF4 then
      var lo := if b0 == 0xF0 then 0x90 else 0x80;
      var hi := if b0 == 0xF4 then 0x8F else 0xBF;
      if |b| < 2 || !(lo <= b[1] as int <= hi) then Decoded(1, None)
      else if |b| < 3 || !IsContinuation(b[2]) then Decoded(2, None)
      else if |b| < 4 || !IsContinuation(b[3]) then Decoded(3, None)
      else Decoded(4, Some(((b0 - 0xF0) * 0x4_0000 + (b[1] as int - 0x80) * 0x1000
                            + (b[2] as int - 0x80) * 0x40 + (b[3] as int - 0x80)) as char))
    else
      Decoded(1, None)
  }

  /** Strict decoding, as `CStr::to_str`: None unless all of `b` is well-formed. */
  function Decode(b: seq<byte>): Option<string>
    decreases |b|
  {
    if b == [] then Some([])
    else
      var d := Step(b);
      match d.scalar
      case None => None
      case Some(c) =>
        match Decode(b[d.length..])
        case None => None
        case Some(s) => Some([c] + s)
  }

  /** Lossy decoding, as `CStr::to_string_lossy`. */
  function DecodeLossy(b: seq<byte>): string
    decreases |b|
  {
    if b == [] then []
    else
      var d := Step(b);
      [if d.scalar.Some? then d.scalar.value else REPLACEMENT] + DecodeLossy(b[d.length..])
  }

  /** The bytes `CStr::from_ptr` reads from a buffer: everything before the first
      NUL (the whole buffer when it holds none). */
  function UntilNul(b: seq<byte>): (r: seq<byte>)
    ensures r <= b
    ensures 0 !in r
    ensures |r| < |b| ==> b[|r|] == 0
  {
    if b == [] then []
    else if b[0] == 0 then []
    else [b[0]] + UntilNul(b[1..])
  }

  /** The three facts UntilNul promises determine it: any prefix with no NUL
      that stops at a NUL or at the end is that prefix. This follows from
      UntilNul's contract alone, with no induction. */
  lemma UntilNulUnique(b: seq<byte>, p: seq<byte>)
    requires p <= b && 0 !in p && (|p| < |b| ==> b[|p|] == 0)
    ensures p == UntilNul(b)
  {
  }

  lemma StepTwoBytes(b: seq<byte>, cp: int)
    requires 0x80 <= cp < 0x800 && |b| >= 2
    requires b[0] as int == 0xC0 + cp / 0x40 && b[1] as int == 0x80 + cp % 0x40
    ensures Step(b) == Decoded(2, Some(cp as char))
  {
    assert cp == cp / 0x40 * 0x40 + cp % 0x40;
  }

  lemma StepThreeBytes(b: seq<byte>, cp: int)
    requires 0x800 <= cp < 0x1_0000 && !(0xD800 <= cp < 0xE000) && |b| >= 3
    requires b[0] as int == 0xE0 + cp / 0x1000 && b[1] as int == 0x80 + cp / 0x40 % 0x40
    requires b[2] as int == 0x80 + cp % 0x40
    ensures Step(b) == Decoded(3, Some(cp as char))
  {
    var q := cp / 0x40;
    assert cp == q * 0x40 + cp % 0x40;
    assert q == cp / 0x1000 * 0x40 + q % 0x40;
  }

  lemma StepFourBytes(b: seq<byte>, cp: int)
    requires 0x1_0000 <= cp < 0x11_0000 && |b| >= 4
    requires b[0] as int == 0xF0 + cp / 0x4_0000 && b[1] as int == 0x80 + cp / 0x1000 % 0x40
    requires b[2] as int == 0x80 + cp / 0x40 % 0x40 && b[3] as int == 0x80 + cp % 0x40
    ensures Step(b) == Decoded(4, Some(cp as char))
  {
    var q := cp / 0x40;
    var h := cp / 0x1000;
    assert cp == q * 0x40 + cp % 0x40;
    assert q == h * 0x40 + q % 0x40;
    assert h == cp / 0x4_0000 * 0x40 + h % 0x40;
  }

  /** The decoder takes back exactly the bytes the encoder wrote for one character. */
  lemma StepEncodeChar(c: char, rest: seq<byte>)
    ensures Step(EncodeChar(c) + rest) == Decoded(|EncodeChar(c)|, Some(c))
  {
    var cp := c as int;
    var e := EncodeChar(c);
    var b := e + rest;
    assert forall i :: 0 <= i < |e| ==> b[i] == e[i];
    if cp < 0x80 {
    } else if cp < 0x800 {
      StepTwoBytes(b, cp);
    } else if cp < 0x1_0000 {
      StepThreeBytes(b, cp);
    } else {
      StepFourBytes(b, cp);
    }
  }

  lemma TwoByteIsEncoding(b: seq<byte>)
    requires |b| > 0 && 0x80 <= b[0] <= 0xDF && Step(b).scalar.Some?
    ensures b[..2] == EncodeChar(Step(b).scalar.value)
  {
    var cp, b0, p1 := Step(b).scalar.value as int, b[0] as int, b[1] as int - 0x80;
    assert cp == (b0 - 0xC0) * 0x40 + p1;
    assert cp / 0x40 == b0 - 0xC0 && cp % 0x40 == p1;
    assert b[..2] == [b[0], b[1]];
  }

  lemma ThreeByteIsEncoding(b: seq<byte>)
    requires |b| > 0 && 0xE0 <= b[0] <= 0xEF && Step(b).scalar.Some?
    ensures b[..3] == EncodeChar(Step(b).scalar.value)
  {
    var cp, b0 := Step(b).scalar.value as int, b[0] as int;
    var p1, p2 := b[1] as int - 0x80, b[2] as int - 0x80;
    assert cp == ((b0 - 0xE0) * 0x40 + p1) * 0x40 + p2;
    assert cp / 0x40 == (b0 - 0xE0) * 0x40 + p1 && cp % 0x40 == p2;
    assert cp / 0x1000 == cp / 0x40 / 0x40 == b0 - 0xE0;
    assert cp / 0x40 % 0x40 == p1;
    assert b[..3] == [b[0], b[1], b[2]];
  }

  lemma FourByteIsEncoding(b: seq<byte>)
    requires |b| > 0 && 0xF0 <= b[0] && Step(b).scalar.Some?
    ensures b[..4] == EncodeChar(Step(b).scalar.value)
  {
    var cp, b0 := Step(b).scalar.value as int, b[0] as int;
    var p1, p2, p3 := b[1] as int - 0x80, b[2] as int - 0x80, b[3] as int - 0x80;
    assert cp == (((b0 - 0xF0) * 0x40 + p1) * 0x40 + p2) * 0x40 + p3;
    assert cp / 0x40 == ((b0 - 0xF0) * 0x40 + p1) * 0x40 + p2 && cp % 0x40 == p3;
    assert cp / 0x1000 == cp / 0x40 / 0x40 == (b0 - 0xF0) * 0x40 + p1;
    assert cp / 0x40 % 0x40 == p2;
    assert cp / 0x4_0000 == cp / 0x1000 / 0x40 == b0 - 0xF0;
    assert cp / 0x1000 % 0x40 == p1;
    assert b[..4] == [b[0], b[1], b[2], b[3]];
  }

  /** Whatever the decoder accepts as one character is that character's encoding. */
  lemma StepIsEncoding(b: seq<byte>)
    requires |b| > 0 && Step(b).scalar.Some?
    ensures b[..Step(b).length] == EncodeChar(Step(b).scalar.value)
  {
    if b[0] < 0x80 {
      assert b[..1] == [b[0]];
    } else if b[0] <= 0xDF {
      TwoByteIsEncoding(b);
    } else if b[0] <= 0xEF {
      ThreeByteIsEncoding(b);
    } else {
      FourByteIsEncoding(b);
    }
  }

  /** Every byte the decoder consumes after the first is a continuation byte. */
  lemma StepContinuations(b: seq<byte>)
    requires |b| > 0
    ensures forall i :: 0 < i < Step(b).length ==> IsContinuation(b[i])
  {
  }

  lemma EncodeCons(c: char, s: string)
    ensures Encode([c] + s) == EncodeChar(c) + Encode(s)
  {
    assert ([c] + s)[1..] == s;
  }

  /** Strict decoding undoes encoding: every string survives the trip through bytes. */
  lemma {:induction false} DecodeEncode(s: string)
    ensures Decode(Encode(s)) == Some(s)
  {
    if s != [] {
      var e := EncodeChar(s[0]);
      var rest := Encode(s[1..]);
      StepEncodeChar(s[0], rest);
      assert (e + rest)[|e|..] == rest;
      DecodeEncode(s[1..]);
      assert [s[0]] + s[1..] == s;
    }
  }

  /** Encoding undoes strict decoding: bytes that decode are the encoding of their text. */
  lemma {:induction false} EncodeDecode(b: seq<byte>)
    requires Decode(b).Some?
    ensures Encode(Decode(b).value) == b
    decreases |b|
  {
    if b != [] {
      var d := Step(b);
      var c, tail := d.scalar.value, Decode(b[d.length..]).value;
      assert Decode(b).value == [c] + tail;
      calc {
        Encode([c] + tail);
        { EncodeCons(c, tail); }
        EncodeChar(c) + Encode(tail);
        { StepIsEncoding(b); EncodeDecode(b[d.length..]); }
        b[..d.length] + b[d.length..];
        b;
      }
    }
  }

  /** On well-formed input the lossy decoder agrees with the strict one. */
  lemma {:induction false} LossyAgreesWithStrict(b: seq<byte>)
    requires Decode(b).Some?
    ensures DecodeLossy(b) == Decode(b).value
    decreases |b|
  {
    if b != [] {
      LossyAgreesWithStrict(b[Step(b).length..]);
    }
  }

  /** On ill-formed input the lossy decoder shows at least one U+FFFD. */
  lemma {:induction false} LossyMarksIllFormed(b: seq<byte>)
    requires Decode(b).None?
    ensures REPLACEMENT in DecodeLossy(b)
    decreases |b|
  {
    var d := Step(b);
    var tail := DecodeLossy(b[d.length..]);
    assert DecodeLossy(b) == [DecodeLossy(b)[0]] + tail;
    if d.scalar.Some? {
      LossyMarksIllFormed(b[d.length..]);
      var k :| 0 <= k < |tail| && tail[k] == REPLACEMENT;
      assert DecodeLossy(b)[k + 1] == REPLACEMENT;
    } else {
      assert DecodeLossy(b)[0] == REPLACEMENT;
    }
  }

  lemma EncodeCharNul(c: char)
    ensures 0 in EncodeChar(c) <==> c == '\0'
  {
    var e := EncodeChar(c);
    if c as int >= 0x80 {
      assert forall i :: 0 <= i < |e| ==> e[i] >= 0x80;
    }
  }

  /** A string's UTF-8 bytes contain a NUL byte exactly when the string contains '\0'. */
  lemma {:induction false} EncodeHasNul(s: string)
    ensures 0 in Encode(s) <==> '\0' in s
  {
    if s != [] {
      EncodeCharNul(s[0]);
      EncodeHasNul(s[1..]);
      assert s == [s[0]] + s[1..];
    }
  }

  /** The decoder yields '\0' only for a NUL byte, so decoded C-string text has no '\0'. */
  lemma {:induction false} LossyHasNul(b: seq<byte>)
    ensures '\0' in DecodeLossy(b) <==> 0 in b
    decreases |b|
  {
    if b != [] {
      var d := Step(b);
      var head := if d.scalar.Some? then d.scalar.value else REPLACEMENT;
      LossyHasNul(b[d.length..]);
      assert DecodeLossy(b) == [head] + DecodeLossy(b[d.length..]);
      assert b == b[..d.length] + b[d.length..];
      assert head == '\0' <==> b[0] == 0;
      StepContinuations(b);
      assert 0 in b[..d.length] <==> b[0] == 0;
    }
  }
}
