/** UTF-8 and the two percent-encodings built on it: encodeURIComponent with its
    inverse (ECMA-262, section 19.2.6), and application/x-www-form-urlencoded. */
module Percent {
  import opened Wrappers
  import opened Strings

  type Byte = b: int | 0 <= b < 256

  // ---- UTF-8 ----

  predicate IsScalar(n: int) {
    0 <= n < 0xD800 || 0xE000 <= n < 0x110000
  }

  function Utf8(c: char): (r: seq<Byte>)
    ensures 1 <= |r| <= 4
  {
    var n := c as int;
    if n < 0x80 then [n]
    else if n < 0x800 then [0xC0 + n / 0x40, 0x80 + n % 0x40]
    else if n < 0x10000 then [0xE0 + n / 0x1000, 0x80 + n / 0x40 % 0x40, 0x80 + n % 0x40]
    else [0xF0 + n / 0x40000, 0x80 + n / 0x1000 % 0x40, 0x80 + n / 0x40 % 0x40, 0x80 + n % 0x40]
  }

  /** How many bytes a character takes that begins with this one; 0 if none does. */
  function Needed(b: Byte): (k: nat)
    ensures k <= 4
  {
    if b < 0x80 then 1 else if b < 0xC0 then 0 else if b < 0xE0 then 2 else if b < 0xF0 then 3 else if b < 0xF8 then 4 else 0
  }

  predicate IsTail(b: Byte) {
    0x80 <= b < 0xC0
  }

  function Scalar(n: int, least: int): Option<char>
    requires n >= 0
  {
    if least <= n && IsScalar(n) then Some(n as char) else None
  }

  /** The character these bytes, and no fewer, encode in its shortest form. */
  function Utf8Char(bs: seq<Byte>): Option<char> {
    if bs == [] || Needed(bs[0]) != |bs| || !(forall i :: 1 <= i < |bs| ==> IsTail(bs[i])) then None
    else if |bs| == 1 then Scalar(bs[0], 0)
    else
      var lead: int, tail: int := bs[0], bs[|bs| - 1];
      if |bs| == 2 then Scalar((lead - 0xC0) * 0x40 + tail - 0x80, 0x80)
      else
        var second: int := bs[1];
        if |bs| == 3 then Scalar((lead - 0xE0) * 0x1000 + (second - 0x80) * 0x40 + tail - 0x80, 0x800)
        else
          var third: int := bs[2];
          Scalar((lead - 0xF0) * 0x40000 + (second - 0x80) * 0x1000 + (third - 0x80) * 0x40 + tail - 0x80, 0x10000)
  }

  lemma Utf8RoundTripShort(c: char)
    requires c as int < 0x1000
    ensures Utf8Char(Utf8(c)) == Some(c) && Needed(Utf8(c)[0]) == |Utf8(c)|
  {
    assert IsScalar(c as int);
  }

  lemma Utf8RoundTripLong(c: char)
    requires c as int >= 0x1000
    ensures Utf8Char(Utf8(c)) == Some(c) && Needed(Utf8(c)[0]) == |Utf8(c)|
  {
    var n := c as int;
    assert IsScalar(n);
    if n < 0x10000 {
      assert n == n / 0x1000 * 0x1000 + n / 0x40 % 0x40 * 0x40 + n % 0x40;
    } else {
      assert n == n / 0x40000 * 0x40000 + n / 0x1000 % 0x40 * 0x1000 + n / 0x40 % 0x40 * 0x40 + n % 0x40;
    }
  }

  lemma Utf8RoundTrip(c: char)
    ensures Utf8Char(Utf8(c)) == Some(c) && Needed(Utf8(c)[0]) == |Utf8(c)|
  {
    if c as int < 0x1000 {
      Utf8RoundTripShort(c);
    } else {
      Utf8RoundTripLong(c);
    }
  }

  function Utf8All(s: string): seq<Byte> {
    if s == "" then [] else Utf8(s[0]) + Utf8All(s[1..])
  }

  function Utf8Decode(bs: seq<Byte>): Option<string> {
    if bs == [] then Some("")
    else
      var k := Needed(bs[0]);
      if k == 0 || k > |bs| then None
      else match (Utf8Char(bs[..k]), Utf8Decode(bs[k..]))
        case (Some(c), Some(rest)) => Some([c] + rest)
        case _ => None
  }

  lemma {:induction false} Utf8DecodeRoundTrip(s: string)
    ensures Utf8Decode(Utf8All(s)) == Some(s)
  {
    if s != "" {
      Utf8RoundTrip(s[0]);
      Utf8DecodeRoundTrip(s[1..]);
      var bs, k := Utf8All(s), |Utf8(s[0])|;
      assert bs[..k] == Utf8(s[0]) && bs[k..] == Utf8All(s[1..]);
      assert s == [s[0]] + s[1..];
    }
  }

  // ---- Escapes ----

  function HexDigit(d: nat): char
    requires d < 16
  {
    if d < 10 then (d + '0' as int) as char else (d - 10 + 'A' as int) as char
  }

  function DigitOf(c: char): Option<nat> {
    if '0' <= c <= '9' then Some((c - '0') as nat)
    else if 'A' <= c <= 'F' then Some((c - 'A') as nat + 10)
    else if 'a' <= c <= 'f' then Some((c - 'a') as nat + 10)
    else None
  }

  function Escape(b: Byte): (r: string)
    ensures |r| == 3 && r[0] == '%'
  {
    ['%', HexDigit(b / 16), HexDigit(b % 16)]
  }

  /** The byte escaped at the front of `s`, if one is. */
  function Escaped(s: string): Option<Byte> {
    if |s| < 3 || s[0] != '%' then None
    else match (DigitOf(s[1]), DigitOf(s[2]))
      case (Some(hi), Some(lo)) => if hi < 16 && lo < 16 then Some(hi * 16 + lo) else None
      case _ => None
  }

  function EscapeAll(bs: seq<Byte>): string {
    if bs == [] then "" else Escape(bs[0]) + EscapeAll(bs[1..])
  }

  /** The `k` bytes escaped at the front of `s`. */
  function ReadBytes(s: string, k: nat): (r: Option<seq<Byte>>)
    ensures r.Some? ==> |r.value| == k && 3 * k <= |s|
  {
    if k == 0 then Some([])
    else match Escaped(s)
      case None => None
      case Some(b) =>
        match ReadBytes(s[3..], k - 1)
        case None => None
        case Some(bs) => Some([b] + bs)
  }

  lemma HexRoundTrip(d: nat)
    requires d < 16
    ensures DigitOf(HexDigit(d)) == Some(d)
  {
  }

  lemma EscapeRoundTrip(b: Byte, rest: string)
    ensures Escaped(Escape(b) + rest) == Some(b)
  {
    HexRoundTrip(b / 16);
    HexRoundTrip(b % 16);
    var s := Escape(b) + rest;
    assert s[0] == '%' && s[1] == HexDigit(b / 16) && s[2] == HexDigit(b % 16);
  }

  lemma ReadBytesAfter(first: string, tail: string, bs: seq<Byte>)
    requires bs != [] && |first| == 3 && Escaped(first + tail) == Some(bs[0])
    requires ReadBytes(tail, |bs| - 1) == Some(bs[1..])
    ensures ReadBytes(first + tail, |bs|) == Some(bs)
  {
    assert (first + tail)[3..] == tail && bs == [bs[0]] + bs[1..];
  }

  lemma {:induction false} ReadEscaped(bs: seq<Byte>, rest: string)
    ensures ReadBytes(EscapeAll(bs) + rest, |bs|) == Some(bs)
    ensures |EscapeAll(bs)| == 3 * |bs|
  {
    if bs != [] {
      var first, tail := Escape(bs[0]), EscapeAll(bs[1..]) + rest;
      Regroup(first, EscapeAll(bs[1..]), rest);
      EscapeRoundTrip(bs[0], tail);
      ReadEscaped(bs[1..], rest);
      ReadBytesAfter(first, tail, bs);
    }
  }

  // ---- encodeURIComponent ----

  predicate IsAlphanumeric(c: char) {
    'A' <= c <= 'Z' || 'a' <= c <= 'z' || '0' <= c <= '9'
  }

  predicate IsUnreserved(c: char) {
    || IsAlphanumeric(c) || c == '-' || c == '_' || c == '.' || c == '!' || c == '~' || c == '*'
    || c == '\'' || c == '(' || c == ')'
  }

  function EncodeChar(c: char): string {
    if IsUnreserved(c) then [c] else EscapeAll(Utf8(c))
  }

  function Encode(s: string): string {
    if s == "" then "" else EncodeChar(s[0]) + Encode(s[1..])
  }

  /** None where decodeURIComponent throws. */
  function Decode(s: string): Option<string>
    decreases |s|
  {
    if s == "" then Some("")
    else if s[0] != '%' then
      match Decode(s[1..])
      case Some(rest) => Some([s[0]] + rest)
      case None => None
    else match Escaped(s)
      case None => None
      case Some(b) =>
        var k := Needed(b);
        if k == 0 then None
        else match ReadBytes(s, k)
          case None => None
          case Some(bs) =>
            match (Utf8Char(bs), Decode(s[3 * k..]))
            case (Some(c), Some(rest)) => Some([c] + rest)
            case _ => None
  }

  /** Decoding that gives up on malformed input. */
  function DecodeOrRaw(s: string): string {
    match Decode(s)
    case Some(r) => r
    case None => s
  }

  lemma DecodeEscaped(s: string, bs: seq<Byte>, c: char, rest: string)
    requires s != "" && s[0] == '%' && bs != [] && Escaped(s) == Some(bs[0]) && Needed(bs[0]) == |bs|
    requires ReadBytes(s, |bs|) == Some(bs) && Utf8Char(bs) == Some(c)
    requires s[3 * |bs|..] == rest && Decode(rest).Some?
    ensures Decode(s) == Some([c] + Decode(rest).value)
  {
  }

  lemma DecodeFirst(c: char, rest: string)
    requires Decode(rest).Some?
    ensures Decode(EncodeChar(c) + rest) == Some([c] + Decode(rest).value)
  {
    if IsUnreserved(c) {
      assert ([c] + rest)[1..] == rest;
    } else {
      var bs := Utf8(c);
      var s := EscapeAll(bs) + rest;
      Utf8RoundTrip(c);
      ReadEscaped(bs, rest);
      assert s[3 * |bs|..] == rest;
      assert ReadBytes(s, |bs|) == Some(bs) ==> Escaped(s).Some?;
      DecodeEscaped(s, bs, c, rest);
    }
  }

  lemma {:induction false} EncodeRoundTrip(s: string)
    ensures Decode(Encode(s)) == Some(s) && DecodeOrRaw(Encode(s)) == s
  {
    if s != "" {
      EncodeRoundTrip(s[1..]);
      DecodeFirst(s[0], Encode(s[1..]));
      assert s == [s[0]] + s[1..];
    }
  }

  /** What encoding leaves no trace of: every delimiter, and white space. */
  predicate IsSafe(c: char) {
    IsUnreserved(c) || c == '%'
  }

  lemma {:induction false} EscapesAreSafe(bs: seq<Byte>)
    ensures forall c :: c in EscapeAll(bs) ==> IsSafe(c)
  {
    if bs != [] {
      EscapesAreSafe(bs[1..]);
      assert EscapeAll(bs) == Escape(bs[0]) + EscapeAll(bs[1..]);
    }
  }

  lemma {:induction false} EncodedIsSafe(s: string)
    ensures forall c :: c in Encode(s) ==> IsSafe(c)
    ensures |Encode(s)| >= |s|
  {
    if s != "" {
      EncodedIsSafe(s[1..]);
      EscapesAreSafe(Utf8(s[0]));
      ReadEscaped(Utf8(s[0]), "");
    }
  }

  // ---- application/x-www-form-urlencoded ----

  predicate IsFormSafe(c: char) {
    IsAlphanumeric(c) || c == '*' || c == '-' || c == '.' || c == '_'
  }

  function FormEncodeChar(c: char): string {
    if IsFormSafe(c) then [c] else if c == ' ' then "+" else EscapeAll(Utf8(c))
  }

  function FormEncode(s: string): string {
    if s == "" then "" else FormEncodeChar(s[0]) + FormEncode(s[1..])
  }

  /** The bytes the front of `s` stands for, and how much of `s` says so. Escapes
      that are not well-formed stand for themselves. */
  function FormFirst(s: string): (r: (seq<Byte>, nat))
    requires s != ""
    ensures 1 <= r.1 <= |s|
  {
    if s[0] == '+' then ([0x20], 1)
    else match Escaped(s)
      case Some(b) => ([b], 3)
      case None => (Utf8(s[0]), 1)
  }

  function FormBytes(s: string): seq<Byte>
    decreases |s|
  {
    if s == "" then [] else FormFirst(s).0 + FormBytes(s[FormFirst(s).1..])
  }

  /** `repair` is what a lossy decoder makes of bytes that are not UTF-8. */
  function FormDecode(s: string, repair: seq<Byte> -> string): string {
    match Utf8Decode(FormBytes(s))
    case Some(r) => r
    case None => repair(FormBytes(s))
  }

  lemma FormFirstEscaped(b: Byte, rest: string)
    ensures FormFirst(Escape(b) + rest) == ([b], 3)
  {
    EscapeRoundTrip(b, rest);
  }

  lemma FormBytesAfter(first: string, tail: string)
    requires first != "" && FormFirst(first + tail).1 == |first|
    ensures FormBytes(first + tail) == FormFirst(first + tail).0 + FormBytes(tail)
  {
    assert (first + tail)[|first|..] == tail;
  }

  lemma RegroupBytes(bs: seq<Byte>, rest: seq<Byte>)
    requires bs != []
    ensures [bs[0]] + (bs[1..] + rest) == bs + rest
  {
  }

  lemma {:induction false} FormBytesOfEscapes(bs: seq<Byte>, rest: string)
    ensures FormBytes(EscapeAll(bs) + rest) == bs + FormBytes(rest)
  {
    if bs == [] {
      assert EscapeAll(bs) + rest == rest;
    } else {
      var first, tail := Escape(bs[0]), EscapeAll(bs[1..]) + rest;
      FormFirstEscaped(bs[0], tail);
      FormBytesAfter(first, tail);
      FormBytesOfEscapes(bs[1..], rest);
      Regroup(first, EscapeAll(bs[1..]), rest);
      RegroupBytes(bs, FormBytes(rest));
    }
  }

  lemma {:induction false} FormBytesOfEncoded(s: string)
    ensures FormBytes(FormEncode(s)) == Utf8All(s)
  {
    if s != "" {
      FormBytesOfEncoded(s[1..]);
      var c, rest := s[0], FormEncode(s[1..]);
      if IsFormSafe(c) || c == ' ' {
        FormBytesAfter(FormEncodeChar(c), rest);
      } else {
        FormBytesOfEscapes(Utf8(c), rest);
      }
    }
  }

  lemma FormRoundTrip(s: string, repair: seq<Byte> -> string)
    ensures FormDecode(FormEncode(s), repair) == s
  {
    FormBytesOfEncoded(s);
    Utf8DecodeRoundTrip(s);
  }

  lemma {:induction false} FormEncodedIsSafe(s: string)
    ensures forall c :: c in FormEncode(s) ==> IsSafe(c) || c == '+'
  {
    if s != "" {
      FormEncodedIsSafe(s[1..]);
      EscapesAreSafe(Utf8(s[0]));
    }
  }
}
