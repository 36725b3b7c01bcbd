/** JavaScript's `encodeURIComponent` (section 19.2.6.5 of ECMA-262): every character other than
    the unreserved ones (ASCII letters and digits and `-_.!~*'()`) becomes the `%XX` escapes of
    its UTF-8 bytes, upper-case hexadecimal. Characters here are Unicode scalar values, so the
    error a lone surrogate raises cannot occur. */
module Uri {
  import opened Wrappers

  /** The characters `encodeURIComponent` leaves as they are. */
  predicate IsUnreserved(c: char) {
    ('A' <= c <= 'Z') || ('a' <= c <= 'z') || ('0' <= c <= '9')
    || c == '-' || c == '_' || c == '.' || c == '!' || c == '~' || c == '*' || c == '\'' || c == '(' || c == ')'
  }

  /** A byte of a UTF-8 sequence after the first: `10xxxxxx`. */
  predicate IsContinuation(b: int) {
    0x80 <= b < 0xC0
  }

  /** The UTF-8 encoding of a character: one to four bytes, the first saying how many follow
      and each later one a continuation byte. */
  function Utf8(c: char): (bs: seq<int>)
    ensures 1 <= |bs| <= 4 && forall i | 0 <= i < |bs| :: 0 <= bs[i] < 256
    ensures |bs| == 1 <==> bs[0] < 0x80
    ensures |bs| == 2 <==> 0xC0 <= bs[0] < 0xE0
    ensures |bs| == 3 <==> 0xE0 <= bs[0] < 0xF0
    ensures |bs| == 4 <==> 0xF0 <= bs[0] < 0xF8
    ensures forall i | 1 <= i < |bs| :: IsContinuation(bs[i])
  {
    var n := c as int;
    if n < 0x80 then [n]
    else if n < 0x800 then [0xC0 + n / 64, 0x80 + n % 64]
    else if n < 0x10000 then [0xE0 + n / 4096, 0x80 + (n / 64) % 64, 0x80 + n % 64]
    else [0xF0 + n / 262144, 0x80 + (n / 4096) % 64, 0x80 + (n / 64) % 64, 0x80 + n % 64]
  }

  /** The code point a UTF-8 sequence of one to four bytes stands for. */
  function Utf8Value(bs: seq<int>): int
    requires 1 <= |bs| <= 4
  {
    if |bs| == 1 then bs[0]
    else if |bs| == 2 then (bs[0] - 0xC0) * 64 + (bs[1] - 0x80)
    else if |bs| == 3 then (bs[0] - 0xE0) * 4096 + (bs[1] - 0x80) * 64 + (bs[2] - 0x80)
    else (bs[0] - 0xF0) * 262144 + (bs[1] - 0x80) * 4096 + (bs[2] - 0x80) * 64 + (bs[3] - 0x80)
  }

  /** The bytes of a character stand for that character. */
  lemma Utf8RoundTrip(c: char)
    ensures Utf8Value(Utf8(c)) == c as int
  {
    var n := c as int;
    if n >= 0x10000 {
      assert n == (n / 262144) * 262144 + ((n / 4096) % 64) * 4096 + ((n / 64) % 64) * 64 + n % 64;
    } else if n >= 0x800 {
      assert n == (n / 4096) * 4096 + ((n / 64) % 64) * 64 + n % 64;
    }
  }

  /** The UTF-8 bytes of a string, character after character. */
  function Utf8Of(s: string): seq<int>
    decreases |s|
  {
    if s == [] then [] else Utf8(s[0]) + Utf8Of(s[1..])
  }

  /** An upper-case hexadecimal digit. */
  function Hex(n: int): (c: char)
    requires 0 <= n < 16
    ensures IsUnreserved(c)
  {
    if n < 10 then ('0' as int + n) as char else ('A' as int + n - 10) as char
  }

  /** The value of a hexadecimal digit of either case. */
  function HexValue(c: char): Option<int> {
    if '0' <= c <= '9' then Some(c as int - '0' as int)
    else if 'A' <= c <= 'F' then Some(c as int - 'A' as int + 10)
    else if 'a' <= c <= 'f' then Some(c as int - 'a' as int + 10)
    else None
  }

  /** `%XX` for a byte. */
  function Escape(b: int): string
    requires 0 <= b < 256
  {
    ['%', Hex(b / 16), Hex(b % 16)]
  }

  function EscapeAll(bs: seq<int>): (r: string)
    requires forall i | 0 <= i < |bs| :: 0 <= bs[i] < 256
    ensures forall i | 0 <= i < |r| :: IsUnreserved(r[i]) || r[i] == '%'
    decreases |bs|
  {
    if bs == [] then [] else Escape(bs[0]) + EscapeAll(bs[1..])
  }

  function EncodeChar(c: char): (r: string)
    ensures forall i | 0 <= i < |r| :: IsUnreserved(r[i]) || r[i] == '%'
  {
    if IsUnreserved(c) then [c] else EscapeAll(Utf8(c))
  }

  /** `encodeURIComponent(s)`. Its result holds only unreserved characters and `%`, so none
      of `&`, `=`, `#`, `?`, `/`, `+` or a space. */
  function EncodeURIComponent(s: string): (r: string)
    ensures forall i | 0 <= i < |r| :: IsUnreserved(r[i]) || r[i] == '%'
    decreases |s|
  {
    if s == [] then [] else EncodeChar(s[0]) + EncodeURIComponent(s[1..])
  }

  /** The bytes a URL reader takes from text: each `%XX` escape is the byte it names, and every
      other character its UTF-8 bytes. */
  function PercentDecode(s: string): seq<int>
    decreases |s|
  {
    if s == [] then []
    else if |s| >= 3 && s[0] == '%' && HexValue(s[1]).Some? && HexValue(s[2]).Some? then
      [HexValue(s[1]).value * 16 + HexValue(s[2]).value] + PercentDecode(s[3..])
    else Utf8(s[0]) + PercentDecode(s[1..])
  }

  lemma HexRoundTrip(n: int)
    requires 0 <= n < 16
    ensures HexValue(Hex(n)) == Some(n)
  {
  }

  /** One escape reads back as its byte, whatever follows. */
  lemma DecodeEscape(b: int, tail: string)
    requires 0 <= b < 256
    ensures PercentDecode(Escape(b) + tail) == [b] + PercentDecode(tail)
  {
    var u := Escape(b) + tail;
    HexRoundTrip(b / 16);
    HexRoundTrip(b % 16);
    assert u[0] == '%' && u[1] == Hex(b / 16) && u[2] == Hex(b % 16) && u[3..] == tail;
    assert HexValue(u[1]).value * 16 + HexValue(u[2]).value == b;
  }

  /** Escaped bytes read back as those bytes, whatever follows. */
  lemma {:induction false} DecodeEscapes(bs: seq<int>, rest: string)
    requires forall i | 0 <= i < |bs| :: 0 <= bs[i] < 256
    ensures PercentDecode(EscapeAll(bs) + rest) == bs + PercentDecode(rest)
    decreases |bs|
  {
    if bs != [] {
      var tail := EscapeAll(bs[1..]) + rest;
      assert EscapeAll(bs) + rest == Escape(bs[0]) + tail;
      DecodeEscape(bs[0], tail);
      DecodeEscapes(bs[1..], rest);
      assert bs == [bs[0]] + bs[1..];
    } else {
      assert EscapeAll(bs) + rest == rest;
    }
  }

  /** An encoded character reads back as its UTF-8 bytes, whatever follows. */
  lemma DecodeEncodedChar(c: char, rest: string)
    ensures PercentDecode(EncodeChar(c) + rest) == Utf8(c) + PercentDecode(rest)
  {
    if IsUnreserved(c) {
      assert ([c] + rest)[1..] == rest;
    } else {
      DecodeEscapes(Utf8(c), rest);
    }
  }

  /** Decoding `encodeURIComponent(s)` gives exactly the UTF-8 bytes of `s`: the encoding
      loses nothing. */
  lemma {:induction false} DecodeEncode(s: string)
    ensures PercentDecode(EncodeURIComponent(s)) == Utf8Of(s)
    decreases |s|
  {
    if s != [] {
      DecodeEncodedChar(s[0], EncodeURIComponent(s[1..]));
      DecodeEncode(s[1..]);
    }
  }

  /** No character of an encoded text delimits a query parameter, starts a fragment or is a
      space. */
  lemma EncodedHasNoDelimiters(s: string)
    ensures var e := EncodeURIComponent(s);
      forall i | 0 <= i < |e| :: e[i] != '&' && e[i] != '=' && e[i] != '#' && e[i] != '?' && e[i] != ' '
  {
  }

  /** Text of unreserved characters only is left as it is. */
  lemma {:induction false} UnreservedUnchanged(s: string)
    requires forall i | 0 <= i < |s| :: IsUnreserved(s[i])
    ensures EncodeURIComponent(s) == s
    decreases |s|
  {
    if s != [] {
      UnreservedUnchanged(s[1..]);
      assert [s[0]] + s[1..] == s;
    }
  }
}
