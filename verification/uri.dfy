/** `encodeURIComponent` (section 19.2.6.5 of ECMA-262), which every node applies to the
    identifiers it places in a URL path, and its inverse `decodeURIComponent` (section
    19.2.6.2), on strings of Unicode scalar values. */
module Uri {
  import opened Wrappers

  type Byte = b: int | 0 <= b < 256

  /** The characters `encodeURIComponent` leaves alone: letters, digits and `-_.!~*'()`. */
  predicate Unreserved(c: char) {
    || ('A' <= c <= 'Z') || ('a' <= c <= 'z') || ('0' <= c <= '9')
    || c == '-' || c == '_' || c == '.' || c == '!' || c == '~' || c == '*' || c == '\'' || c == '(' || c == ')'
  }

  /** An upper-case hexadecimal digit, as `encodeURIComponent` writes them. */
  function HexDigit(d: int): (c: char)
    requires 0 <= d < 16
    ensures Unreserved(c)
  {
    if d < 10 then ('0' as int + d) as char else ('A' as int + d - 10) as char
  }

  /** The value of a hexadecimal digit of either case. */
  function HexValue(c: char): (r: Option<int>)
    ensures r.Some? ==> 0 <= r.value < 16
  {
    if '0' <= c <= '9' then Some(c as int - '0' as int)
    else if 'A' <= c <= 'F' then Some(c as int - 'A' as int + 10)
    else if 'a' <= c <= 'f' then Some(c as int - 'a' as int + 10)
    else None
  }

  /** `%XX` for one octet. */
  function Percent(b: Byte): string {
    ['%', HexDigit(b / 16), HexDigit(b % 16)]
  }

  /** The escapes of a run of octets. */
  function Escape(bs: seq<Byte>): (r: string)
    ensures |r| == 3 * |bs|
    ensures forall i | 0 <= i < |r| :: Unreserved(r[i]) || r[i] == '%'
  {
    if |bs| == 0 then "" else Percent(bs[0]) + Escape(bs[1..])
  }

  /** The UTF-8 octets of one code point (section 3 of RFC 3629). */
  function Utf8(c: char): (bs: seq<Byte>)
    ensures 1 <= |bs| <= 4
  {
    var n := c as int;
    var m := n / 64;
    var m2 := m / 64;
    if n < 0x80 then [n]
    else if n < 0x800 then [0xC0 + m, 0x80 + n % 64]
    else if n < 0x10000 then [0xE0 + m2, 0x80 + m % 64, 0x80 + n % 64]
    else [0xF0 + m2 / 64, 0x80 + m2 % 64, 0x80 + m % 64, 0x80 + n % 64]
  }

  /** One character of `encodeURIComponent`'s output. */
  function EncodeChar(c: char): (r: string)
    ensures forall i | 0 <= i < |r| :: Unreserved(r[i]) || r[i] == '%'
  {
    if Unreserved(c) then [c] else Escape(Utf8(c))
  }

  /** `encodeURIComponent(s)`: only unreserved characters and `%` escapes remain, so the
      result never holds `/`, `?`, `#` or a space. */
  function Encode(s: string): (r: string)
    ensures forall i | 0 <= i < |r| :: Unreserved(r[i]) || r[i] == '%'
  {
    if |s| == 0 then "" else EncodeChar(s[0]) + Encode(s[1..])
  }

  /** The octet escaped as `%XX` at position `i` of `s`, if there is one. */
  function OctetAt(s: string, i: nat): Option<Byte> {
    if i + 3 <= |s| && s[i] == '%' && HexValue(s[i + 1]).Some? && HexValue(s[i + 2]).Some? then
      Some(HexValue(s[i + 1]).value * 16 + HexValue(s[i + 2]).value)
    else None
  }

  /** How many octets a UTF-8 sequence starting with `lead` has; 0 when none can start so. */
  function SequenceLength(lead: Byte): nat {
    if lead < 0x80 then 1
    else if lead < 0xC0 then 0
    else if lead < 0xE0 then 2
    else if lead < 0xF0 then 3
    else if lead < 0xF8 then 4
    else 0
  }

  /** Reads `count` escaped continuation octets (`10xxxxxx`) from position `i`, folding their
      six payload bits each into `acc`. */
  function Continue(s: string, i: nat, count: nat, acc: int): (r: Option<int>)
    ensures r.Some? && count > 0 ==> i + 3 * count <= |s|
    decreases count
  {
    if count == 0 then Some(acc)
    else
      match OctetAt(s, i)
      case Some(b) => if 0x80 <= b < 0xC0 then Continue(s, i + 3, count - 1, acc * 64 + (b - 0x80)) else None
      case None => None
  }

  /** The smallest code point that needs `len` octets; anything below is an overlong form. */
  function MinCodePoint(len: nat): int {
    if len <= 1 then 0 else if len == 2 then 0x80 else if len == 3 then 0x800 else 0x10000
  }

  predicate IsScalar(n: int) {
    (0 <= n < 0xD800) || (0xE000 <= n < 0x110000)
  }

  /** The character whose UTF-8 escapes open `s`, and how many characters those escapes take. */
  function DecodeEscape(s: string): (r: Option<(char, nat)>)
    ensures r.Some? ==> 3 <= r.value.1 <= |s|
  {
    match OctetAt(s, 0)
    case None => None
    case Some(lead) =>
      var len := SequenceLength(lead);
      if len == 0 then None
      else
        var payload := if len == 1 then lead else if len == 2 then lead - 0xC0 else if len == 3 then lead - 0xE0 else lead - 0xF0;
        match Continue(s, 3, len - 1, payload)
        case None => None
        case Some(cp) => if MinCodePoint(len) <= cp && IsScalar(cp) then Some((cp as char, 3 * len)) else None
  }

  /** `decodeURIComponent(s)`; `None` where it throws `URIError`. */
  function Decode(s: string): Option<string>
    decreases |s|
  {
    if |s| == 0 then Some("")
    else if s[0] != '%' then
      match Decode(s[1..])
      case Some(t) => Some([s[0]] + t)
      case None => None
    else
      match DecodeEscape(s)
      case None => None
      case Some((c, k)) =>
        match Decode(s[k..])
        case Some(t) => Some([c] + t)
        case None => None
  }

  /** Prepends `c` to a decoding result. */
  function Cons(c: char, r: Option<string>): Option<string> {
    match r
    case Some(t) => Some([c] + t)
    case None => None
  }

  lemma HexRoundTrip(d: int)
    requires 0 <= d < 16
    ensures HexValue(HexDigit(d)) == Some(d)
  {
  }

  /** The `i`-th escape of `Escape(bs)` reads back as `bs[i]`, whatever follows. */
  lemma {:induction false} OctetOfEscape(bs: seq<Byte>, rest: string, i: nat)
    requires i < |bs|
    ensures OctetAt(Escape(bs) + rest, 3 * i) == Some(bs[i])
  {
    var s := Escape(bs) + rest;
    if i == 0 {
      var b := bs[0];
      assert s[..3] == Percent(b);
      HexRoundTrip(b / 16);
      HexRoundTrip(b % 16);
    } else {
      OctetOfEscape(bs[1..], rest, i - 1);
      assert s[3..] == Escape(bs[1..]) + rest;
      OctetShift(s, 3 * (i - 1));
    }
  }

  /** Reading an escape three characters further on. */
  lemma OctetShift(s: string, i: nat)
    requires |s| >= 3
    ensures OctetAt(s, i + 3) == OctetAt(s[3..], i)
  {
    if i + 6 <= |s| {
      assert s[3..][i] == s[i + 3] && s[3..][i + 1] == s[i + 4] && s[3..][i + 2] == s[i + 5];
    }
  }

  /** The escapes of one character's UTF-8 octets decode to that character. */
  lemma DecodeEscapeOfUtf8(c: char, rest: string)
    requires !Unreserved(c)
    ensures DecodeEscape(Escape(Utf8(c)) + rest) == Some((c, 3 * |Utf8(c)|))
  {
    var bs := Utf8(c);
    var s := Escape(bs) + rest;
    forall i | 0 <= i < |bs| ensures OctetAt(s, 3 * i) == Some(bs[i]) {
      OctetOfEscape(bs, rest, i);
    }
    if |bs| == 1 {
      assert OctetAt(s, 0) == Some(bs[0]);
    } else if |bs| == 2 {
      DecodeTwo(c, s);
    } else if |bs| == 3 {
      DecodeThree(c, s);
    } else {
      DecodeFour(c, s);
    }
  }

  lemma DecodeTwo(c: char, s: string)
    requires 0x80 <= c as int < 0x800
    requires OctetAt(s, 0) == Some(Utf8(c)[0]) && OctetAt(s, 3) == Some(Utf8(c)[1])
    ensures DecodeEscape(s) == Some((c, 6))
  {
  }

  lemma DecodeThree(c: char, s: string)
    requires 0x800 <= c as int < 0x10000
    requires OctetAt(s, 0) == Some(Utf8(c)[0]) && OctetAt(s, 3) == Some(Utf8(c)[1])
    requires OctetAt(s, 6) == Some(Utf8(c)[2])
    ensures DecodeEscape(s) == Some((c, 9))
  {
  }

  lemma DecodeFour(c: char, s: string)
    requires 0x10000 <= c as int
    requires OctetAt(s, 0) == Some(Utf8(c)[0]) && OctetAt(s, 3) == Some(Utf8(c)[1])
    requires OctetAt(s, 6) == Some(Utf8(c)[2]) && OctetAt(s, 9) == Some(Utf8(c)[3])
    ensures DecodeEscape(s) == Some((c, 12))
  {
  }

  /** Decoding undoes the encoding of one character, whatever follows it. */
  lemma DecodeEncodeChar(c: char, rest: string)
    ensures Decode(EncodeChar(c) + rest) == Cons(c, Decode(rest))
  {
    var s := EncodeChar(c) + rest;
    if Unreserved(c) {
      assert s[1..] == rest;
    } else {
      var bs := Utf8(c);
      DecodeEscapeOfUtf8(c, rest);
      assert s[0] == '%';
      assert s[3 * |bs|..] == rest;
    }
  }

  /** `decodeURIComponent` undoes `encodeURIComponent`: distinct identifiers give distinct
      path segments, and the segment names the identifier it came from. */
  lemma {:induction false} DecodeEncode(s: string)
    ensures Decode(Encode(s)) == Some(s)
  {
    if |s| > 0 {
      DecodeEncode(s[1..]);
      DecodeEncodeChar(s[0], Encode(s[1..]));
      assert [s[0]] + s[1..] == s;
    }
  }

  /** No encoded string contains a slash. */
  lemma NoSlash(s: string)
    ensures '/' !in Encode(s)
  {
    var r := Encode(s);
    assert forall i | 0 <= i < |r| :: r[i] != '/';
  }

  /** An identifier made of unreserved characters only, such as a numeric id, goes into the
      URL unchanged. */
  lemma {:induction false} EncodeUnreserved(s: string)
    requires forall i | 0 <= i < |s| :: Unreserved(s[i])
    ensures Encode(s) == s
  {
    if |s| > 0 {
      EncodeUnreserved(s[1..]);
      assert [s[0]] + s[1..] == s;
    }
  }
}
