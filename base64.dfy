/** Base64 as the browser's `atob` decodes it (the forgiving-base64 decode of the WHATWG
    Infra standard, section 4.5), and the unpadded base64url encoding that the
    middle segment of a signed credential is written in. */
module Base64 {
  import opened Common
  import opened JsStrings

  type uint8 = x: int | 0 <= x < 256
  type uint6 = x: int | 0 <= x < 64

  // ---------------------------------------------------------------- alphabets

  /** A character of the standard alphabet `A-Z a-z 0-9 + /`. */
  predicate IsAlphabetChar(c: char) {
    ('A' <= c <= 'Z') || ('a' <= c <= 'z') || ('0' <= c <= '9') || c == '+' || c == '/'
  }

  /** Every character of `s` is in the standard alphabet. */
  predicate AllAlphabet(s: string) {
    forall i :: 0 <= i < |s| ==> IsAlphabetChar(s[i])
  }

  /** The six bits a standard-alphabet character stands for. */
  function SextetOf(c: char): uint6
    requires IsAlphabetChar(c)
  {
    if 'A' <= c <= 'Z' then c as int - 'A' as int
    else if 'a' <= c <= 'z' then c as int - 'a' as int + 26
    else if '0' <= c <= '9' then c as int - '0' as int + 52
    else if c == '+' then 62
    else 63
  }

  /** The standard-alphabet character for six bits; `SextetOf` inverts it. */
  function AlphabetChar(x: uint6): (c: char)
    ensures IsAlphabetChar(c) && SextetOf(c) == x
  {
    if x < 26 then ('A' as int + x) as char
    else if x < 52 then ('a' as int + x - 26) as char
    else if x < 62 then ('0' as int + x - 52) as char
    else if x == 62 then '+'
    else '/'
  }

  /** The URL-safe alphabet: `-` and `_` instead of `+` and `/`. */
  function UrlAlphabetChar(x: uint6): (c: char)
    ensures c != '.' && c != '='
    ensures (c == '-' <==> x == 62) && (c == '_' <==> x == 63)
    ensures x < 62 ==> c == AlphabetChar(x)
  {
    if x == 62 then '-' else if x == 63 then '_' else AlphabetChar(x)
  }

  // ---------------------------------------------------------------- groups of bits

  /** The first byte of a group: all six bits of `x0` and the top two of `x1`. */
  function HighByte(x0: uint6, x1: uint6): uint8 {
    x0 * 4 + x1 / 16
  }

  /** The second byte of a group: the low four bits of `x1` and the top four of `x2`. */
  function MiddleByte(x1: uint6, x2: uint6): uint8 {
    (x1 % 16) * 16 + x2 / 4
  }

  /** The third byte of a group: the low two bits of `x2` and all six of `x3`. */
  function LowByte(x2: uint6, x3: uint6): uint8 {
    (x2 % 4) * 64 + x3
  }

  /** Six-bit groups to bytes, four groups giving three bytes. A trailing two or three
      groups give one or two bytes, and their leftover low bits are dropped. */
  function DecodeSextets(xs: seq<uint6>): seq<uint8>
    requires |xs| % 4 != 1
  {
    if |xs| == 0 then []
    else if |xs| == 2 then [HighByte(xs[0], xs[1])]
    else if |xs| == 3 then [HighByte(xs[0], xs[1]), MiddleByte(xs[1], xs[2])]
    else [HighByte(xs[0], xs[1]), MiddleByte(xs[1], xs[2]), LowByte(xs[2], xs[3])] + DecodeSextets(xs[4..])
  }

  /** Bytes to six-bit groups, without padding: three bytes give four groups, and a
      trailing one or two bytes give two or three groups with zero low bits. */
  function EncodeSextets(b: seq<uint8>): (r: seq<uint6>)
    ensures |r| % 4 != 1
  {
    if |b| == 0 then []
    else if |b| == 1 then [b[0] / 4, (b[0] % 4) * 16]
    else if |b| == 2 then [b[0] / 4, (b[0] % 4) * 16 + b[1] / 16, (b[1] % 16) * 4]
    else
      [b[0] / 4, (b[0] % 4) * 16 + b[1] / 16, (b[1] % 16) * 4 + b[2] / 64, b[2] % 64]
      + EncodeSextets(b[3..])
  }

  // ---------------------------------------------------------------- atob

  /** The ASCII white space that forgiving-base64 removes: TAB, LF, FF, CR and SPACE. */
  predicate IsAsciiWhitespace(c: char) {
    c as int == 0x09 || c as int == 0x0A || c as int == 0x0C || c as int == 0x0D || c == ' '
  }

  /** `s` without its ASCII white space. */
  function RemoveAsciiWhitespace(s: string): (r: string)
    ensures forall i :: 0 <= i < |r| ==> !IsAsciiWhitespace(r[i])
    ensures forall c :: c in s && !IsAsciiWhitespace(c) ==> c in r
    ensures (forall i :: 0 <= i < |s| ==> !IsAsciiWhitespace(s[i])) ==> r == s
  {
    if |s| == 0 then []
    else (if IsAsciiWhitespace(s[0]) then [] else [s[0]]) + RemoveAsciiWhitespace(s[1..])
  }

  /** When the length is a multiple of four, one or two trailing `=` are removed. */
  function StripPadding(s: string): (r: string)
    ensures r == s || (|s| % 4 == 0 && r + "=" == s) || (|s| % 4 == 0 && r + "==" == s)
  {
    if |s| % 4 == 0 && |s| >= 2 && s[|s| - 2..] == "==" then s[..|s| - 2]
    else if |s| % 4 == 0 && |s| >= 1 && s[|s| - 1] == '=' then s[..|s| - 1]
    else s
  }

  /** The six-bit groups of a standard-alphabet string. */
  function Sextets(s: string): (r: seq<uint6>)
    requires AllAlphabet(s)
    ensures |r| == |s|
  {
    seq(|s|, i requires 0 <= i < |s| => SextetOf(s[i]))
  }

  /** `atob(data)` as bytes; `None` is the thrown `InvalidCharacterError`. */
  function Atob(data: string): (r: Option<seq<uint8>>)
    ensures |StripPadding(RemoveAsciiWhitespace(data))| % 4 == 1 ==> r.None?
    ensures !AllAlphabet(StripPadding(RemoveAsciiWhitespace(data))) ==> r.None?
  {
    var s := StripPadding(RemoveAsciiWhitespace(data));
    if |s| % 4 == 1 then None
    else if !AllAlphabet(s) then None
    else Some(DecodeSextets(Sextets(s)))
  }

  /** The "binary string" `atob` returns: one character per byte. */
  function Latin1(b: seq<uint8>): (r: string)
    ensures |r| == |b| && forall i :: 0 <= i < |b| ==> r[i] as int == b[i]
  {
    seq(|b|, i requires 0 <= i < |b| => b[i] as char)
  }

  // ---------------------------------------------------------------- base64url

  /** Unpadded base64url, as the middle segment of a signed credential is written. */
  function EncodeUrl(b: seq<uint8>): (r: string)
    ensures '.' !in r
  {
    var e := EncodeSextets(b);
    seq(|e|, i requires 0 <= i < |e| => UrlAlphabetChar(e[i]))
  }

  /** The URL-safe alphabet mapped back to the standard one (`-` to `+`, `_` to `/`). */
  function UrlToStandard(s: string): (r: string)
    ensures |r| == |s| && '-' !in r && '_' !in r
  {
    ReplaceAll(ReplaceAll(s, '-', '+'), '_', '/')
  }

  // ---------------------------------------------------------------- round trips

  /** Four groups give three bytes, and a trailing two or three groups one or two. */
  lemma {:induction false} DecodeLength(xs: seq<uint6>)
    requires |xs| % 4 != 1
    ensures |DecodeSextets(xs)| == |xs| * 3 / 4
  {
    if |xs| >= 4 {
      DecodeLength(xs[4..]);
    }
  }

  /** Three bytes give four groups, and a trailing one or two bytes two or three. */
  lemma {:induction false} EncodeLength(b: seq<uint8>)
    ensures |EncodeSextets(b)| == (|b| * 4 + 2) / 3
  {
    if |b| >= 3 {
      EncodeLength(b[3..]);
    }
  }

  /** One group of three bytes survives encoding and decoding. */
  lemma GroupRoundTrip(b0: uint8, b1: uint8, b2: uint8)
    ensures (b0 / 4) * 4 + ((b0 % 4) * 16 + b1 / 16) / 16 == b0
    ensures (((b0 % 4) * 16 + b1 / 16) % 16) * 16 + ((b1 % 16) * 4 + b2 / 64) / 4 == b1
    ensures (((b1 % 16) * 4 + b2 / 64) % 4) * 64 + b2 % 64 == b2
  {
    assert ((b0 % 4) * 16 + b1 / 16) / 16 == b0 % 4;
    assert ((b0 % 4) * 16 + b1 / 16) % 16 == b1 / 16;
    assert ((b1 % 16) * 4 + b2 / 64) / 4 == b1 % 16;
    assert ((b1 % 16) * 4 + b2 / 64) % 4 == b2 / 64;
  }

  /** Decoding the six-bit groups of `b` gives back `b`. */
  lemma {:induction false} DecodeEncode(b: seq<uint8>)
    ensures DecodeSextets(EncodeSextets(b)) == b
  {
    var e := EncodeSextets(b);
    if |b| == 0 {
    } else if |b| == 1 {
      GroupRoundTrip(b[0], 0, 0);
    } else if |b| == 2 {
      GroupRoundTrip(b[0], b[1], 0);
    } else {
      GroupRoundTrip(b[0], b[1], b[2]);
      DecodeEncode(b[3..]);
      assert e[4..] == EncodeSextets(b[3..]);
      assert b == b[..3] + b[3..];
    }
  }

  /** The standard-alphabet string of six-bit groups: standard base64 without
      padding. */
  function StandardChars(e: seq<uint6>): (r: string)
    ensures AllAlphabet(r) && Sextets(r) == e
  {
    seq(|e|, i requires 0 <= i < |e| => AlphabetChar(e[i]))
  }

  /** The standard-alphabet reading of an unpadded base64url string. */
  lemma UrlToStandardOfEncodeUrl(b: seq<uint8>)
    ensures UrlToStandard(EncodeUrl(b)) == StandardChars(EncodeSextets(b))
  {
  }

  /** A string of the standard alphabet has no white space and no padding for `atob`
      to remove. */
  lemma AlphabetStringIsClean(t: string)
    requires AllAlphabet(t)
    ensures StripPadding(RemoveAsciiWhitespace(t)) == t
  {
    assert RemoveAsciiWhitespace(t) == t;
    if |t| >= 1 {
      assert t[|t| - 1] != '=';
      if |t| >= 2 {
        assert t[|t| - 2..][1] == t[|t| - 1];
      }
    }
  }

  /** `atob` undoes base64url once the URL-safe characters are mapped back: the
      decoding a signed credential's payload goes through. */
  lemma AtobOfEncodeUrl(b: seq<uint8>)
    ensures Atob(UrlToStandard(EncodeUrl(b))) == Some(b)
  {
    var t := UrlToStandard(EncodeUrl(b));
    UrlToStandardOfEncodeUrl(b);
    AlphabetStringIsClean(t);
    DecodeEncode(b);
  }

  /** Without the mapping, `atob` rejects any string holding a URL-safe character. */
  lemma AtobRejectsUrlAlphabet(s: string, c: char)
    requires c == '-' || c == '_'
    requires c in s
    ensures Atob(s) == None
  {
    var w := RemoveAsciiWhitespace(s);
    var p := StripPadding(w);
    assert c in w;
    var k :| 0 <= k < |w| && w[k] == c;
    if |p| % 4 != 1 {
      if p == w {
        assert !IsAlphabetChar(p[k]);
      } else {
        assert k < |p|;
        assert w[..|p|] == p;
        assert !IsAlphabetChar(p[k]);
      }
    }
  }
}
