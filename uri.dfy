/**
 * `encodeURIComponent` as ECMA-262 (section 19.2.6.5, "Encode") defines it on
 * strings of Unicode scalar values: a character of the unreserved set is kept,
 * every other character is written as the percent-escaped octets of its UTF-8
 * encoding, with upper-case hex digits. Its partner is `decodeURIComponent`
 * ("Decode"), which accepts upper- and lower-case hex digits and refuses
 * malformed, truncated, overlong or surrogate sequences.
 */
module Uri {
  import opened Wrappers

  type Byte = x: int | 0 <= x < 256

  /** Letters, digits and the marks `- _ . ! ~ * ' ( )`. */
  predicate Unreserved(c: char)
  {
    ('A' <= c <= 'Z') || ('a' <= c <= 'z') || ('0' <= c <= '9') ||
    c == '-' || c == '_' || c == '.' || c == '!' || c == '~' || c == '*' ||
    c == '\'' || c == '(' || c == ')'
  }

  /** The upper-case hex digit of d. */
  function HexDigit(d: nat): (c: char)
    requires d < 16
    ensures ('0' <= c <= '9') || ('A' <= c <= 'F')
  {
    if d < 10 then ('0' as int + d) as char else ('A' as int + d - 10) as char
  }

  function HexValue(c: char): Option<nat>
  {
    if '0' <= c <= '9' then Some(c as int - '0' as int)
    else if 'A' <= c <= 'F' then Some(c as int - 'A' as int + 10)
    else if 'a' <= c <= 'f' then Some(c as int - 'a' as int + 10)
    else None
  }

  /** The UTF-8 octets of a scalar value. */
  function Utf8(c: char): (bytes: seq<Byte>)
    ensures 1 <= |bytes| <= 4
  {
    var n := c as int;
    if n < 0x80 then [n]
    else if n < 0x800 then [0xC0 + n / 0x40, 0x80 + n % 0x40]
    else if n < 0x1_0000 then [0xE0 + n / 0x1000, 0x80 + (n / 0x40) % 0x40, 0x80 + n % 0x40]
    else [0xF0 + n / 0x4_0000, 0x80 + (n / 0x1000) % 0x40, 0x80 + (n / 0x40) % 0x40, 0x80 + n % 0x40]
  }

  function Escape(b: Byte): (r: string)
    ensures |r| == 3 && r[0] == '%' && Unreserved(r[1]) && Unreserved(r[2])
  {
    ['%', HexDigit(b / 16), HexDigit(b % 16)]
  }

  function EscapeAll(bytes: seq<Byte>): (r: string)
    ensures |r| == 3 * |bytes|
    ensures forall i :: 0 <= i < |r| ==> Unreserved(r[i]) || r[i] == '%'
  {
    if bytes == [] then [] else Escape(bytes[0]) + EscapeAll(bytes[1..])
  }

  function EncodeChar(c: char): (r: string)
    ensures |r| >= 1
    ensures forall i :: 0 <= i < |r| ==> Unreserved(r[i]) || r[i] == '%'
  {
    if Unreserved(c) then [c] else EscapeAll(Utf8(c))
  }

  /** `encodeURIComponent(s)`; the result holds only unreserved characters and `%`. */
  function EncodeUriComponent(s: string): (r: string)
    ensures |r| >= |s|
    ensures forall i :: 0 <= i < |r| ==> Unreserved(r[i]) || r[i] == '%'
  {
    if s == [] then [] else EncodeChar(s[0]) + EncodeUriComponent(s[1..])
  }

  /** The octet escaped as `%XY` at position i of s, if there is one. */
  function EscapedByte(s: string, i: nat): Option<Byte>
  {
    if i + 3 <= |s| && s[i] == '%' then
      match (HexValue(s[i + 1]), HexValue(s[i + 2]))
      case (Some(hi), Some(lo)) => if hi < 16 && lo < 16 then Some(16 * hi + lo) else None
      case _ => None
    else None
  }

  /** An escaped continuation octet `10xxxxxx` at position i; its six payload bits. */
  function Continuation(s: string, i: nat): Option<int>
  {
    match EscapedByte(s, i)
    case Some(b) => if 0x80 <= b < 0xC0 then Some(b - 0x80) else None
    case None => None
  }

  predicate IsScalar(n: int)
  {
    0 <= n < 0xD800 || 0xE000 <= n < 0x11_0000
  }

  /**
   * Decodes the escaped UTF-8 sequence at the start of s into one character,
   * with the number of string characters it took.
   */
  function DecodeSequence(s: string): Option<(char, nat)>
  {
    match EscapedByte(s, 0)
    case None => None
    case Some(b0) =>
      if b0 < 0x80 then Some((b0 as char, 3))
      else if 0xC0 <= b0 < 0xE0 then
        match Continuation(s, 3)
        case None => None
        case Some(x1) =>
          var n := (b0 - 0xC0) * 0x40 + x1;
          if n < 0x80 then None else Some((n as char, 6))
      else if 0xE0 <= b0 < 0xF0 then
        match (Continuation(s, 3), Continuation(s, 6))
        case (Some(x1), Some(x2)) =>
          var n := (b0 - 0xE0) * 0x1000 + x1 * 0x40 + x2;
          if n < 0x800 || !IsScalar(n) then None else Some((n as char, 9))
        case _ => None
      else if 0xF0 <= b0 < 0xF8 then
        match (Continuation(s, 3), Continuation(s, 6), Continuation(s, 9))
        case (Some(x1), Some(x2), Some(x3)) =>
          var n := (b0 - 0xF0) * 0x4_0000 + x1 * 0x1000 + x2 * 0x40 + x3;
          if n < 0x1_0000 || !IsScalar(n) then None else Some((n as char, 12))
        case _ => None
      else None
  }

  /** `decodeURIComponent(s)`; `None` where it throws a URIError. */
  function DecodeUriComponent(s: string): Option<string>
    decreases |s|
  {
    if s == [] then Some([])
    else if s[0] != '%' then
      match DecodeUriComponent(s[1..])
      case Some(t) => Some([s[0]] + t)
      case None => None
    else
      match DecodeSequence(s)
      case None => None
      case Some((c, k)) =>
        if 0 < k <= |s| then
          match DecodeUriComponent(s[k..])
          case Some(t) => Some([c] + t)
          case None => None
        else None
  }

  lemma HexRoundTrip(d: nat)
    requires d < 16
    ensures HexValue(HexDigit(d)) == Some(d)
  {
  }

  lemma {:induction false} EscapeAllAt(bytes: seq<Byte>, k: nat)
    requires k < |bytes|
    ensures EscapeAll(bytes)[3 * k .. 3 * k + 3] == Escape(bytes[k])
  {
    if k > 0 {
      EscapeAllAt(bytes[1..], k - 1);
      assert EscapeAll(bytes) == Escape(bytes[0]) + EscapeAll(bytes[1..]);
    }
  }

  lemma EscapedByteAt(bytes: seq<Byte>, rest: string, k: nat)
    requires k < |bytes|
    ensures EscapedByte(EscapeAll(bytes) + rest, 3 * k) == Some(bytes[k])
  {
    var e := EscapeAll(bytes);
    EscapeAllAt(bytes, k);
    SliceOfPrefix(e, rest, 3 * k, 3);
    EscapedByteOf(e + rest, 3 * k, bytes[k]);
  }

  lemma SliceOfPrefix(e: string, rest: string, i: nat, n: nat)
    requires i + n <= |e|
    ensures (e + rest)[i..i + n] == e[i..i + n]
  {
  }

  lemma EscapedByteOf(s: string, i: nat, b: Byte)
    requires i + 3 <= |s| && s[i..i + 3] == Escape(b)
    ensures EscapedByte(s, i) == Some(b)
  {
    assert s[i] == '%' && s[i + 1] == HexDigit(b / 16) && s[i + 2] == HexDigit(b % 16);
    HexRoundTrip(b / 16);
    HexRoundTrip(b % 16);
  }

  lemma Utf8Two(n: int)
    requires 0x80 <= n < 0x800
    ensures 0xC0 <= 0xC0 + n / 0x40 < 0xE0 && 0x80 <= 0x80 + n % 0x40 < 0xC0
    ensures (n / 0x40) * 0x40 + n % 0x40 == n
  {
  }

  lemma Utf8Three(n: int)
    requires 0x800 <= n < 0x1_0000
    ensures 0xE0 <= 0xE0 + n / 0x1000 < 0xF0
    ensures 0 <= (n / 0x40) % 0x40 < 0x40 && 0 <= n % 0x40 < 0x40
    ensures (n / 0x1000) * 0x1000 + ((n / 0x40) % 0x40) * 0x40 + n % 0x40 == n
  {
    var q := n / 0x40;
    assert q / 0x40 == n / 0x1000;
    assert q * 0x40 + n % 0x40 == n;
    assert (q / 0x40) * 0x40 + q % 0x40 == q;
  }

  lemma Utf8Four(n: int)
    requires 0x1_0000 <= n < 0x11_0000
    ensures 0xF0 <= 0xF0 + n / 0x4_0000 < 0xF8
    ensures 0 <= (n / 0x1000) % 0x40 < 0x40 && 0 <= (n / 0x40) % 0x40 < 0x40 && 0 <= n % 0x40 < 0x40
    ensures (n / 0x4_0000) * 0x4_0000 + ((n / 0x1000) % 0x40) * 0x1000
      + ((n / 0x40) % 0x40) * 0x40 + n % 0x40 == n
  {
    var q := n / 0x40;
    var r := q / 0x40;
    assert r == n / 0x1000;
    assert r / 0x40 == n / 0x4_0000;
    assert q * 0x40 + n % 0x40 == n;
    assert r * 0x40 + q % 0x40 == q;
    assert (r / 0x40) * 0x40 + r % 0x40 == r;
  }

  /** Decoding the escapes of a non-unreserved character gives back that character. */
  lemma DecodeEncodedChar(c: char, rest: string)
    requires !Unreserved(c)
    ensures DecodeSequence(EncodeChar(c) + rest) == Some((c, |EncodeChar(c)|))
  {
    var bytes := Utf8(c);
    var s := EncodeChar(c) + rest;
    assert s == EscapeAll(bytes) + rest;
    var n := c as int;
    if n < 0x80 {
      EscapedByteAt(bytes, rest, 0);
      DecodeOne(c, s);
    } else if n < 0x800 {
      DecodeEncodedTwo(c, rest);
    } else if n < 0x1_0000 {
      DecodeEncodedThree(c, rest);
    } else {
      DecodeEncodedFour(c, rest);
    }
  }

  lemma DecodeEncodedTwo(c: char, rest: string)
    requires 0x80 <= c as int < 0x800
    ensures DecodeSequence(EscapeAll(Utf8(c)) + rest) == Some((c, 6))
  {
    var bytes := Utf8(c);
    EscapedByteAt(bytes, rest, 0);
    EscapedByteAt(bytes, rest, 1);
    Utf8Two(c as int);
    DecodeTwo(c, EscapeAll(bytes) + rest);
  }

  lemma DecodeEncodedThree(c: char, rest: string)
    requires 0x800 <= c as int < 0x1_0000
    ensures DecodeSequence(EscapeAll(Utf8(c)) + rest) == Some((c, 9))
  {
    var bytes := Utf8(c);
    EscapedByteAt(bytes, rest, 0);
    EscapedByteAt(bytes, rest, 1);
    EscapedByteAt(bytes, rest, 2);
    Utf8Three(c as int);
    DecodeThree(c, EscapeAll(bytes) + rest);
  }

  lemma DecodeEncodedFour(c: char, rest: string)
    requires 0x1_0000 <= c as int
    ensures DecodeSequence(EscapeAll(Utf8(c)) + rest) == Some((c, 12))
  {
    var bytes := Utf8(c);
    EscapedByteAt(bytes, rest, 0);
    EscapedByteAt(bytes, rest, 1);
    EscapedByteAt(bytes, rest, 2);
    EscapedByteAt(bytes, rest, 3);
    Utf8Four(c as int);
    DecodeFour(c, EscapeAll(bytes) + rest);
  }

  lemma DecodeOne(c: char, s: string)
    requires c as int < 0x80
    requires EscapedByte(s, 0) == Some(c as int)
    ensures DecodeSequence(s) == Some((c, 3))
  {
  }

  lemma DecodeTwo(c: char, s: string)
    requires 0x80 <= c as int < 0x800
    requires var b := Utf8(c); EscapedByte(s, 0) == Some(b[0]) && EscapedByte(s, 3) == Some(b[1])
    requires (c as int / 0x40) * 0x40 + c as int % 0x40 == c as int
    ensures DecodeSequence(s) == Some((c, 6))
  {
  }

  lemma DecodeThree(c: char, s: string)
    requires 0x800 <= c as int < 0x1_0000
    requires var b := Utf8(c);
      EscapedByte(s, 0) == Some(b[0]) && EscapedByte(s, 3) == Some(b[1]) && EscapedByte(s, 6) == Some(b[2])
    requires var n := c as int;
      (n / 0x1000) * 0x1000 + ((n / 0x40) % 0x40) * 0x40 + n % 0x40 == n
    ensures DecodeSequence(s) == Some((c, 9))
  {
  }

  lemma DecodeFour(c: char, s: string)
    requires 0x1_0000 <= c as int
    requires var b := Utf8(c);
      EscapedByte(s, 0) == Some(b[0]) && EscapedByte(s, 3) == Some(b[1]) &&
      EscapedByte(s, 6) == Some(b[2]) && EscapedByte(s, 9) == Some(b[3])
    requires var n := c as int;
      (n / 0x4_0000) * 0x4_0000 + ((n / 0x1000) % 0x40) * 0x1000 + ((n / 0x40) % 0x40) * 0x40 + n % 0x40 == n
    ensures DecodeSequence(s) == Some((c, 12))
  {
  }

  /** decodeURIComponent undoes encodeURIComponent on every string. */
  lemma {:induction false} DecodeEncode(s: string)
    ensures DecodeUriComponent(EncodeUriComponent(s)) == Some(s)
  {
    if s != [] {
      var head, tail := EncodeChar(s[0]), EncodeUriComponent(s[1..]);
      var e := head + tail;
      assert EncodeUriComponent(s) == e;
      DecodeEncode(s[1..]);
      if Unreserved(s[0]) {
        assert e[0] == s[0] && e[1..] == tail;
      } else {
        DecodeEncodedChar(s[0], tail);
        assert e[0] == '%';
        assert e[|head|..] == tail;
      }
      assert s == [s[0]] + s[1..];
    }
  }

  lemma {:induction false} EncodeAppend(a: string, b: string)
    ensures EncodeUriComponent(a + b) == EncodeUriComponent(a) + EncodeUriComponent(b)
  {
    if a != [] {
      assert (a + b)[1..] == a[1..] + b;
      EncodeAppend(a[1..], b);
    } else {
      assert a + b == b;
    }
  }

  predicate AllUnreserved(s: string)
  {
    forall i :: 0 <= i < |s| ==> Unreserved(s[i])
  }

  /** A string of unreserved characters is its own encoding. */
  lemma {:induction false} EncodeUnreserved(s: string)
    requires AllUnreserved(s)
    ensures EncodeUriComponent(s) == s
  {
    if s != [] {
      EncodeUnreserved(s[1..]);
      assert s == [s[0]] + s[1..];
    }
  }

  lemma EncodePrefixUnreserved(u: string, s: string, e: string)
    requires AllUnreserved(u) && EncodeUriComponent(s) == e
    ensures EncodeUriComponent(u + s) == u + e
  {
    EncodeUnreserved(u);
    EncodeAppend(u, s);
  }

  lemma EncodePrefixColon(s: string, e: string)
    requires EncodeUriComponent(s) == e
    ensures EncodeUriComponent([':'] + s) == "%3A" + e
  {
    assert ([':'] + s)[1..] == s;
    assert EncodeChar(':') == "%3A";
  }

  lemma EncodePrefixSlash(s: string, e: string)
    requires EncodeUriComponent(s) == e
    ensures EncodeUriComponent(['/'] + s) == "%2F" + e
  {
    assert (['/'] + s)[1..] == s;
    assert EncodeChar('/') == "%2F";
  }

  /** The encoding of an address `scheme://host:port/path` whose parts need no escaping. */
  lemma EncodeAddress(scheme: string, host: string, port: string, path: string)
    requires AllUnreserved(scheme) && AllUnreserved(host) && AllUnreserved(port) && AllUnreserved(path)
    ensures EncodeUriComponent(scheme + ([':'] + (['/'] + (['/'] + (host + ([':'] + (port + (['/'] + path))))))))
      == scheme + ("%3A" + ("%2F" + ("%2F" + (host + ("%3A" + (port + ("%2F" + path)))))))
  {
    EncodePrefixUnreserved(path, [], []);
    assert path + [] == path;
    var s1 := ['/'] + path;
    EncodePrefixSlash(path, path);
    var s2 := port + s1;
    EncodePrefixUnreserved(port, s1, "%2F" + path);
    var s3 := [':'] + s2;
    EncodePrefixColon(s2, port + ("%2F" + path));
    var s4 := host + s3;
    EncodePrefixUnreserved(host, s3, "%3A" + (port + ("%2F" + path)));
    var s5 := ['/'] + s4;
    EncodePrefixSlash(s4, host + ("%3A" + (port + ("%2F" + path))));
    var s6 := ['/'] + s5;
    EncodePrefixSlash(s5, "%2F" + (host + ("%3A" + (port + ("%2F" + path)))));
    var s7 := [':'] + s6;
    EncodePrefixColon(s6, "%2F" + ("%2F" + (host + ("%3A" + (port + ("%2F" + path))))));
    EncodePrefixUnreserved(scheme, s7, "%3A" + ("%2F" + ("%2F" + (host + ("%3A" + (port + ("%2F" + path)))))));
  }
}
