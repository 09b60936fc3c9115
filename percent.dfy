/**
 * `encodeURIComponent` and `decodeURIComponent`: percent-encoding of the UTF-8 octets of
 * every character outside the unreserved set, as in section 2.1 of RFC 3986 (upper-case
 * hexadecimal digits), and its inverse with the error cases that make the decoder throw.
 */
module Percent {
  import opened Wrappers

  /** The characters `encodeURIComponent` leaves alone: letters, digits and - _ . ! ~ * ' ( ) */
  predicate Unreserved(c: char) {
    ('A' <= c <= 'Z') || ('a' <= c <= 'z') || ('0' <= c <= '9') ||
    c == '-' || c == '_' || c == '.' || c == '!' || c == '~' || c == '*' || c == '\'' || c == '(' || c == ')'
  }

  /** Why `decodeURIComponent` throws a URIError. */
  datatype DecodeError = MalformedEscape | InvalidUtf8

  function HexDigit(d: nat): (c: char)
    requires d < 16
    ensures Unreserved(c)
  {
    if d < 10 then (d + '0' as int) as char else (d - 10 + 'A' as int) as char
  }

  function HexValue(c: char): Option<nat> {
    if '0' <= c <= '9' then Some(c as int - '0' as int)
    else if 'A' <= c <= 'F' then Some(c as int - 'A' as int + 10)
    else if 'a' <= c <= 'f' then Some(c as int - 'a' as int + 10)
    else None
  }

  lemma HexValueOfDigit(d: nat)
    requires d < 16
    ensures HexValue(HexDigit(d)) == Some(d)
  {
  }

  /** The UTF-8 octets of one character (a Unicode scalar value). */
  function Utf8(c: char): (bs: seq<nat>)
    ensures 1 <= |bs| <= 4
    ensures forall i :: 0 <= i < |bs| ==> bs[i] < 256
  {
    var cp := c as int;
    if cp < 0x80 then [cp]
    else if cp < 0x800 then [0xC0 + cp / 64, 0x80 + cp % 64]
    else if cp < 0x10000 then [0xE0 + cp / 4096, 0x80 + (cp / 64) % 64, 0x80 + cp % 64]
    else [0xF0 + cp / 262144, 0x80 + (cp / 4096) % 64, 0x80 + (cp / 64) % 64, 0x80 + cp % 64]
  }

  /** Each octet as `%XY`. */
  function EscapeBytes(bs: seq<nat>): (r: string)
    requires forall i :: 0 <= i < |bs| ==> bs[i] < 256
    ensures |r| == 3 * |bs|
  {
    if bs == [] then [] else ['%', HexDigit(bs[0] / 16), HexDigit(bs[0] % 16)] + EscapeBytes(bs[1..])
  }

  function EncodeChar(c: char): string {
    if Unreserved(c) then [c] else EscapeBytes(Utf8(c))
  }

  /** `encodeURIComponent(s)` */
  function Encode(s: string): string {
    if s == [] then [] else EncodeChar(s[0]) + Encode(s[1..])
  }

  /** The octet escaped at index `k`, if `%XY` stands there. */
  function ReadByte(s: string, k: nat): (r: Option<nat>)
    ensures r.Some? ==> r.value < 256
  {
    if k + 3 <= |s| && s[k] == '%' && HexValue(s[k + 1]).Some? && HexValue(s[k + 2]).Some?
    then Some(HexValue(s[k + 1]).value * 16 + HexValue(s[k + 2]).value)
    else None
  }

  predicate IsContinuation(b: Option<nat>) {
    b.Some? && 0x80 <= b.value < 0xC0
  }

  /** How many octets a UTF-8 sequence has, from its leading octet (0xC2..0xF4). */
  function SequenceLength(lead: nat): nat {
    if lead < 0xE0 then 2 else if lead < 0xF0 then 3 else 4
  }

  /** The code point a multi-octet UTF-8 sequence of length `n` spells. */
  function CodePoint(n: nat, lead: nat, c1: nat, c2: nat, c3: nat): int {
    if n == 2 then (lead - 0xC0) * 64 + (c1 - 0x80)
    else if n == 3 then ((lead - 0xE0) * 64 + (c1 - 0x80)) * 64 + (c2 - 0x80)
    else (((lead - 0xF0) * 64 + (c1 - 0x80)) * 64 + (c2 - 0x80)) * 64 + (c3 - 0x80)
  }

  /** The sequence is neither overlong nor a surrogate nor beyond U+10FFFF. */
  predicate ValidScalar(n: nat, cp: int) {
    (n == 2 ==> cp >= 0x80) && (n == 3 ==> cp >= 0x800) && (n == 4 ==> 0x10000 <= cp <= 0x10FFFF) &&
    !(0xD800 <= cp < 0xE000)
  }

  /**
   * The first character of a non-empty encoded string and how many characters it took:
   * a plain character stands for itself; `%XY` escapes start a UTF-8 sequence whose
   * continuation octets must follow as further escapes.
   */
  function DecodeUnit(s: string): (r: Result<(char, nat), DecodeError>)
    requires s != []
    ensures r.Ok? ==> 1 <= r.value.1 <= |s|
  {
    if s[0] != '%' then Ok((s[0], 1))
    else
      match ReadByte(s, 0)
      case None => Err(MalformedEscape)
      case Some(b) =>
        if b < 0x80 then Ok((b as char, 3))
        else if b < 0xC2 || b >= 0xF5 then Err(InvalidUtf8)
        else
          var n := SequenceLength(b);
          if 3 * n > |s| then Err(MalformedEscape)
          else
            var b1 := ReadByte(s, 3);
            var b2 := if n >= 3 then ReadByte(s, 6) else Some(0x80);
            var b3 := if n == 4 then ReadByte(s, 9) else Some(0x80);
            if !(IsContinuation(b1) && IsContinuation(b2) && IsContinuation(b3)) then Err(InvalidUtf8)
            else
              var cp := CodePoint(n, b, b1.value, b2.value, b3.value);
              if !ValidScalar(n, cp) then Err(InvalidUtf8)
              else Ok((cp as char, 3 * n))
  }

  /** `decodeURIComponent(s)`; an `Err` is the URIError it throws. */
  function Decode(s: string): (r: Result<string, DecodeError>)
    decreases |s|
  {
    if s == [] then Ok([])
    else
      match DecodeUnit(s)
      case Err(e) => Err(e)
      case Ok((c, used)) =>
        match Decode(s[used..])
        case Err(e) => Err(e)
        case Ok(rest) => Ok([c] + rest)
  }

  // ---------------------------------------------------------------- round trip

  lemma HexPair(b: nat)
    requires b < 256
    ensures HexValue(HexDigit(b / 16)) == Some(b / 16) && HexValue(HexDigit(b % 16)) == Some(b % 16)
    ensures (b / 16) * 16 + b % 16 == b
  {
    HexValueOfDigit(b / 16);
    HexValueOfDigit(b % 16);
  }

  lemma {:induction false} EscapeBytesAt(bs: seq<nat>, i: nat)
    requires forall j :: 0 <= j < |bs| ==> bs[j] < 256
    requires i < |bs|
    ensures EscapeBytes(bs)[3 * i] == '%'
    ensures EscapeBytes(bs)[3 * i + 1] == HexDigit(bs[i] / 16)
    ensures EscapeBytes(bs)[3 * i + 2] == HexDigit(bs[i] % 16)
  {
    if i > 0 {
      EscapeBytesAt(bs[1..], i - 1);
      var t := EscapeBytes(bs[1..]);
      assert EscapeBytes(bs) == ['%', HexDigit(bs[0] / 16), HexDigit(bs[0] % 16)] + t;
      assert EscapeBytes(bs)[3 * i] == t[3 * (i - 1)];
      assert EscapeBytes(bs)[3 * i + 1] == t[3 * (i - 1) + 1];
      assert EscapeBytes(bs)[3 * i + 2] == t[3 * (i - 1) + 2];
    }
  }

  lemma ReadEscaped(bs: seq<nat>, rest: string, i: nat)
    requires forall j :: 0 <= j < |bs| ==> bs[j] < 256
    requires i < |bs|
    ensures ReadByte(EscapeBytes(bs) + rest, 3 * i) == Some(bs[i])
  {
    var e := EscapeBytes(bs);
    var s := e + rest;
    var b := bs[i];
    EscapeBytesAt(bs, i);
    assert s[3 * i] == '%';
    assert s[3 * i + 1] == HexDigit(b / 16);
    assert s[3 * i + 2] == HexDigit(b % 16);
    HexPair(b);
    ReadByteOf(s, 3 * i, b);
  }

  lemma ReadByteOf(s: string, k: nat, b: nat)
    requires b < 256 && k + 3 <= |s|
    requires s[k] == '%' && s[k + 1] == HexDigit(b / 16) && s[k + 2] == HexDigit(b % 16)
    ensures ReadByte(s, k) == Some(b)
  {
    HexPair(b);
  }

  lemma Utf8Two(cp: int)
    requires 0x80 <= cp < 0x800
    ensures 0xC2 <= 0xC0 + cp / 64 < 0xE0 && 0x80 <= 0x80 + cp % 64 < 0xC0
    ensures CodePoint(2, 0xC0 + cp / 64, 0x80 + cp % 64, 0x80, 0x80) == cp
  {
  }

  lemma Utf8Three(cp: int)
    requires 0x800 <= cp < 0x10000
    ensures 0xE0 <= 0xE0 + cp / 4096 < 0xF0
    ensures 0x80 <= 0x80 + (cp / 64) % 64 < 0xC0 && 0x80 <= 0x80 + cp % 64 < 0xC0
    ensures CodePoint(3, 0xE0 + cp / 4096, 0x80 + (cp / 64) % 64, 0x80 + cp % 64, 0x80) == cp
  {
    var q := cp / 64;
    assert q * 64 + cp % 64 == cp;
    assert (q / 64) * 64 + q % 64 == q;
    assert cp / 4096 == q / 64;
  }

  lemma Utf8Four(cp: int)
    requires 0x10000 <= cp <= 0x10FFFF
    ensures 0xF0 <= 0xF0 + cp / 262144 < 0xF5
    ensures 0x80 <= 0x80 + (cp / 4096) % 64 < 0xC0 && 0x80 <= 0x80 + (cp / 64) % 64 < 0xC0
    ensures 0x80 <= 0x80 + cp % 64 < 0xC0
    ensures CodePoint(4, 0xF0 + cp / 262144, 0x80 + (cp / 4096) % 64, 0x80 + (cp / 64) % 64, 0x80 + cp % 64) == cp
  {
    var q := cp / 64;
    var q2 := q / 64;
    assert q * 64 + cp % 64 == cp;
    assert q2 * 64 + q % 64 == q;
    assert (q2 / 64) * 64 + q2 % 64 == q2;
    assert cp / 4096 == q2;
    assert cp / 262144 == q2 / 64;
  }

  /** A well-formed escaped multi-octet sequence decodes to its code point. */
  lemma DecodeUnitMulti(s: string, lead: nat, c1: nat, c2: nat, c3: nat)
    requires s != [] && s[0] == '%' && ReadByte(s, 0) == Some(lead) && 0xC2 <= lead < 0xF5
    requires 3 * SequenceLength(lead) <= |s|
    requires ReadByte(s, 3) == Some(c1) && 0x80 <= c1 < 0xC0 && 0x80 <= c2 < 0xC0 && 0x80 <= c3 < 0xC0
    requires SequenceLength(lead) >= 3 ==> ReadByte(s, 6) == Some(c2)
    requires SequenceLength(lead) == 4 ==> ReadByte(s, 9) == Some(c3)
    requires SequenceLength(lead) < 3 ==> c2 == 0x80
    requires SequenceLength(lead) < 4 ==> c3 == 0x80
    requires ValidScalar(SequenceLength(lead), CodePoint(SequenceLength(lead), lead, c1, c2, c3))
    ensures CodePoint(SequenceLength(lead), lead, c1, c2, c3) < 0x110000
    ensures DecodeUnit(s) ==
      Ok((CodePoint(SequenceLength(lead), lead, c1, c2, c3) as char, 3 * SequenceLength(lead)))
  {
  }

  /** The escapes of one character decode to that character and nothing more. */
  lemma DecodeUnitOfEncodeChar(c: char, rest: string)
    ensures DecodeUnit(EncodeChar(c) + rest) == Ok((c, |EncodeChar(c)|))
  {
    if !Unreserved(c) {
      var cp := c as int;
      if cp < 0x80 {
        DecodeEscapedOne(c, rest);
      } else if cp < 0x800 {
        DecodeEscapedTwo(c, rest);
      } else if cp < 0x10000 {
        DecodeEscapedThree(c, rest);
      } else {
        DecodeEscapedFour(c, rest);
      }
    }
  }

  /** An escaped character below U+0080 is one `%XY` standing for itself. */
  lemma DecodeEscapedOne(c: char, rest: string)
    requires !Unreserved(c) && (c as int) < 0x80
    ensures DecodeUnit(EncodeChar(c) + rest) == Ok((c, 3))
  {
    var bs := Utf8(c);
    ReadEscaped(bs, rest, 0);
    EscapeBytesAt(bs, 0);
  }

  lemma DecodeEscapedTwo(c: char, rest: string)
    requires !Unreserved(c) && 0x80 <= (c as int) < 0x800
    ensures DecodeUnit(EncodeChar(c) + rest) == Ok((c, 6))
  {
    var s := EncodeChar(c) + rest;
    var bs := Utf8(c);
    ReadEscaped(bs, rest, 0);
    EscapeBytesAt(bs, 0);
    ReadEscaped(bs, rest, 1);
    Utf8Two(c as int);
    DecodeUnitMulti(s, bs[0], bs[1], 0x80, 0x80);
  }

  lemma DecodeEscapedThree(c: char, rest: string)
    requires !Unreserved(c) && 0x800 <= (c as int) < 0x10000
    ensures DecodeUnit(EncodeChar(c) + rest) == Ok((c, 9))
  {
    var s := EncodeChar(c) + rest;
    var bs := Utf8(c);
    ReadEscaped(bs, rest, 0);
    EscapeBytesAt(bs, 0);
    ReadEscaped(bs, rest, 1);
    ReadEscaped(bs, rest, 2);
    Utf8Three(c as int);
    DecodeUnitMulti(s, bs[0], bs[1], bs[2], 0x80);
  }

  lemma DecodeEscapedFour(c: char, rest: string)
    requires !Unreserved(c) && 0x10000 <= (c as int)
    ensures DecodeUnit(EncodeChar(c) + rest) == Ok((c, 12))
  {
    var s := EncodeChar(c) + rest;
    var bs := Utf8(c);
    ReadEscaped(bs, rest, 0);
    EscapeBytesAt(bs, 0);
    ReadEscaped(bs, rest, 1);
    ReadEscaped(bs, rest, 2);
    ReadEscaped(bs, rest, 3);
    Utf8Four(c as int);
    DecodeUnitMulti(s, bs[0], bs[1], bs[2], bs[3]);
  }

  /** `decodeURIComponent(encodeURIComponent(s)) === s` */
  lemma {:induction false} DecodeEncode(s: string)
    ensures Decode(Encode(s)) == Ok(s)
    decreases |s|
  {
    if s != [] {
      var e := EncodeChar(s[0]);
      var t := Encode(s[1..]);
      DecodeUnitOfEncodeChar(s[0], t);
      assert Encode(s) == e + t;
      assert e != [];
      assert (e + t)[|e|..] == t;
      DecodeEncode(s[1..]);
      assert Decode(e + t) == Ok([s[0]] + s[1..]);
      assert [s[0]] + s[1..] == s;
    }
  }

  /** Only unreserved characters and '%'. */
  predicate UriSafe(t: string) {
    forall i :: 0 <= i < |t| ==> Unreserved(t[i]) || t[i] == '%'
  }

  lemma {:induction false} EscapeAlphabet(bs: seq<nat>)
    requires forall i :: 0 <= i < |bs| ==> bs[i] < 256
    ensures UriSafe(EscapeBytes(bs))
  {
    if bs != [] {
      EscapeAlphabet(bs[1..]);
      var t := EscapeBytes(bs[1..]);
      assert EscapeBytes(bs) == ['%', HexDigit(bs[0] / 16), HexDigit(bs[0] % 16)] + t;
    }
  }

  /** An encoded string holds only unreserved characters and '%'. */
  lemma {:induction false} EncodeAlphabet(s: string)
    ensures UriSafe(Encode(s))
  {
    if s != [] {
      EncodeAlphabet(s[1..]);
      if !Unreserved(s[0]) { EscapeAlphabet(Utf8(s[0])); }
      assert UriSafe(EncodeChar(s[0]));
      assert Encode(s) == EncodeChar(s[0]) + Encode(s[1..]);
    }
  }

  /** The encoded text never holds a query delimiter or a character a query decoder rewrites. */
  lemma EncodeHasNoDelimiters(s: string)
    ensures forall i :: 0 <= i < |Encode(s)| ==>
      Encode(s)[i] != '&' && Encode(s)[i] != '#' && Encode(s)[i] != '+' && Encode(s)[i] != ' '
  {
    EncodeAlphabet(s);
  }
}
