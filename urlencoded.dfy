/** The application/x-www-form-urlencoded format of the WHATWG URL Standard
    (section 5.1, "application/x-www-form-urlencoded parsing", and section 5.2,
    "application/x-www-form-urlencoded serializing"), which is what
    `URLSearchParams.toString()` produces and `new URLSearchParams(query)` reads.
    A parameter list is a sequence of name/value pairs; strings are sequences of
    Unicode scalar values, encoded as UTF-8 before percent-encoding. */
module Urlencoded {
  import opened Outcomes

  type Byte = b: int | 0 <= b < 256

  type Params = seq<(string, string)>

  // ---------------------------------------------------------------- UTF-8

  /** The UTF-8 encoding of one scalar value. */
  function Utf8(c: char): (bs: seq<Byte>)
    ensures 1 <= |bs| <= 4
  {
    var n := c as int;
    if n < 0x80 then [n]
    else if n < 0x800 then [0xC0 + n / 64, 0x80 + n % 64]
    else if n < 0x10000 then [0xE0 + n / 4096, 0x80 + (n / 64) % 64, 0x80 + n % 64]
    else [0xF0 + n / 262144, 0x80 + (n / 4096) % 64, 0x80 + (n / 64) % 64, 0x80 + n % 64]
  }

  function Utf8String(s: string): seq<Byte> {
    if s == [] then [] else Utf8(s[0]) + Utf8String(s[1..])
  }

  predicate IsContinuation(b: Byte) {
    0x80 <= b < 0xC0
  }

  /** Decodes the scalar value at the head of `bs` and says how many bytes it
      used. A byte that does not start a well-formed sequence decodes to
      U+FFFD and uses one byte. */
  function DecodeOne(bs: seq<Byte>): (r: (char, nat))
    requires |bs| > 0
    ensures 1 <= r.1 <= |bs|
  {
    var b0: int := bs[0];
    if b0 < 0x80 then
      (b0 as char, 1)
    else if 0xC2 <= b0 < 0xE0 && |bs| >= 2 && IsContinuation(bs[1]) then
      (((b0 - 0xC0) * 64 + (bs[1] as int - 0x80)) as char, 2)
    else if 0xE0 <= b0 < 0xF0 && |bs| >= 3 && IsContinuation(bs[1]) && IsContinuation(bs[2]) then
      var n := (b0 - 0xE0) * 4096 + (bs[1] as int - 0x80) * 64 + (bs[2] as int - 0x80);
      if 0x800 <= n && !(0xD800 <= n < 0xE000) then (n as char, 3) else ('\U{FFFD}', 1)
    else if 0xF0 <= b0 < 0xF5 && |bs| >= 4 && IsContinuation(bs[1]) && IsContinuation(bs[2])
            && IsContinuation(bs[3]) then
      var n := (b0 - 0xF0) * 262144 + (bs[1] as int - 0x80) * 4096 + (bs[2] as int - 0x80) * 64 + (bs[3] as int - 0x80);
      if 0x10000 <= n < 0x110000 then (n as char, 4) else ('\U{FFFD}', 1)
    else
      ('\U{FFFD}', 1)
  }

  function Utf8Decode(bs: seq<Byte>): string
    decreases |bs|
  {
    if bs == [] then []
    else
      var (c, k) := DecodeOne(bs);
      [c] + Utf8Decode(bs[k..])
  }

  lemma SplitDigits64(n: int)
    requires 0 <= n
    ensures n == (n / 64) * 64 + n % 64
    ensures n / 4096 == (n / 64) / 64
    ensures n / 262144 == (n / 4096) / 64
  {
  }

  /** Decoding reads back exactly the scalar value `Utf8` wrote. */
  lemma DecodeOneUtf8(c: char, rest: seq<Byte>)
    ensures DecodeOne(Utf8(c) + rest) == (c, |Utf8(c)|)
  {
    var n := c as int;
    var bs := Utf8(c) + rest;
    SplitDigits64(n);
    SplitDigits64(n / 64);
    SplitDigits64(n / 4096);
    if n < 0x80 {
    } else if n < 0x800 {
      assert bs[0] == 0xC0 + n / 64 && bs[1] == 0x80 + n % 64;
    } else if n < 0x10000 {
      assert bs[0] == 0xE0 + n / 4096 && bs[1] == 0x80 + (n / 64) % 64 && bs[2] == 0x80 + n % 64;
      assert (bs[0] as int - 0xE0) * 4096 + (bs[1] as int - 0x80) * 64 + (bs[2] as int - 0x80) == n;
    } else {
      assert bs[0] == 0xF0 + n / 262144 && bs[1] == 0x80 + (n / 4096) % 64;
      assert bs[2] == 0x80 + (n / 64) % 64 && bs[3] == 0x80 + n % 64;
      assert (bs[0] as int - 0xF0) * 262144 + (bs[1] as int - 0x80) * 4096 + (bs[2] as int - 0x80) * 64 + (bs[3] as int - 0x80) == n;
    }
  }

  lemma {:induction false} Utf8RoundTrip(s: string)
    ensures Utf8Decode(Utf8String(s)) == s
  {
    if s != [] {
      var bs := Utf8String(s);
      DecodeOneUtf8(s[0], Utf8String(s[1..]));
      assert bs[|Utf8(s[0])|..] == Utf8String(s[1..]);
      Utf8RoundTrip(s[1..]);
    }
  }

  // -------------------------------------------------------- percent-encoding

  /** The bytes the serializer leaves as they are: `*`, `-`, `.`, `_`, digits and ASCII letters. */
  predicate Unreserved(b: Byte) {
    b == 0x2A || b == 0x2D || b == 0x2E || b == 0x5F
    || (0x30 <= b <= 0x39) || (0x41 <= b <= 0x5A) || (0x61 <= b <= 0x7A)
  }

  /** An upper-case hexadecimal digit, as percent-encoding writes them. */
  function HexDigit(d: int): char
    requires 0 <= d < 16
  {
    if d < 10 then ('0' as int + d) as char else ('A' as int + d - 10) as char
  }

  predicate IsHex(c: char) {
    ('0' <= c <= '9') || ('A' <= c <= 'F') || ('a' <= c <= 'f')
  }

  function HexValue(c: char): (v: int)
    requires IsHex(c)
    ensures 0 <= v < 16
  {
    if '0' <= c <= '9' then c as int - '0' as int
    else if 'A' <= c <= 'F' then c as int - 'A' as int + 10
    else c as int - 'a' as int + 10
  }

  function EncodeByte(b: Byte): string {
    if b == 0x20 then "+"
    else if Unreserved(b) then [b as char]
    else ['%', HexDigit(b / 16), HexDigit(b % 16)]
  }

  function EncodeBytes(bs: seq<Byte>): string {
    if bs == [] then "" else EncodeByte(bs[0]) + EncodeBytes(bs[1..])
  }

  /** The urlencoded form of one name or value. */
  function EncodeString(s: string): string {
    EncodeBytes(Utf8String(s))
  }

  /** Percent-decoding after `+` has been replaced by a space. A `%` not
      followed by two hexadecimal digits stands for itself; any other
      character stands for its UTF-8 bytes. */
  function PercentDecode(s: string): seq<Byte>
    decreases |s|
  {
    if s == [] then []
    else if s[0] == '%' && |s| >= 3 && IsHex(s[1]) && IsHex(s[2]) then
      [HexValue(s[1]) * 16 + HexValue(s[2])] + PercentDecode(s[3..])
    else if s[0] == '+' then [0x20] + PercentDecode(s[1..])
    else Utf8(s[0]) + PercentDecode(s[1..])
  }

  function DecodeString(s: string): string {
    Utf8Decode(PercentDecode(s))
  }

  lemma PercentDecodeByte(b: Byte, rest: string)
    ensures PercentDecode(EncodeByte(b) + rest) == [b] + PercentDecode(rest)
  {
    var s := EncodeByte(b) + rest;
    if b == 0x20 {
      assert s[0] == '+' && s[1..] == rest;
    } else if Unreserved(b) {
      assert s[0] == b as char && s[1..] == rest;
    } else {
      assert s[0] == '%' && s[1] == HexDigit(b / 16) && s[2] == HexDigit(b % 16) && s[3..] == rest;
    }
  }

  lemma {:induction false} PercentRoundTrip(bs: seq<Byte>)
    ensures PercentDecode(EncodeBytes(bs)) == bs
  {
    if bs != [] {
      PercentDecodeByte(bs[0], EncodeBytes(bs[1..]));
      PercentRoundTrip(bs[1..]);
    }
  }

  /** Decoding an encoded name or value gives it back. */
  lemma StringRoundTrip(s: string)
    ensures DecodeString(EncodeString(s)) == s
  {
    PercentRoundTrip(Utf8String(s));
    Utf8RoundTrip(s);
  }

  /** Encoded names and values never contain the two delimiters. */
  lemma {:induction false} EncodedHasNoDelimiters(bs: seq<Byte>)
    ensures '&' !in EncodeBytes(bs) && '=' !in EncodeBytes(bs)
  {
    if bs != [] {
      EncodedHasNoDelimiters(bs[1..]);
    }
  }

  // ------------------------------------------------------ lists of pairs

  function Segment(p: (string, string)): string {
    EncodeString(p.0) + "=" + EncodeString(p.1)
  }

  /** `URLSearchParams.toString()`: each pair as `name=value`, joined by `&`. */
  function Serialize(ps: Params): (s: string)
    ensures s == "" <==> ps == []
    ensures ps != [] ==> Segment(ps[0]) <= s
  {
    if ps == [] then ""
    else if |ps| == 1 then Segment(ps[0])
    else Segment(ps[0]) + "&" + Serialize(ps[1..])
  }

  /** The first index of `c` in `s`. */
  function IndexOf(s: string, c: char): (i: nat)
    requires c in s
    ensures i < |s| && s[i] == c && c !in s[..i]
  {
    if s[0] == c then 0 else 1 + IndexOf(s[1..], c)
  }

  /** `s` cut at every `sep`. */
  function SplitOn(s: string, sep: char): (parts: seq<string>)
    ensures |parts| > 0
    decreases |s|
  {
    if sep !in s then [s]
    else
      var i := IndexOf(s, sep);
      [s[..i]] + SplitOn(s[i + 1..], sep)
  }

  /** A sequence of bytes cut at its first `=`, both sides decoded. */
  function ParsePair(seg: string): (string, string) {
    if '=' in seg then
      var i := IndexOf(seg, '=');
      (DecodeString(seg[..i]), DecodeString(seg[i + 1..]))
    else
      (DecodeString(seg), "")
  }

  function ParseSegments(segs: seq<string>): Params {
    if segs == [] then []
    else (if segs[0] == "" then [] else [ParsePair(segs[0])]) + ParseSegments(segs[1..])
  }

  /** `new URLSearchParams(query)`: empty sequences between `&`s are skipped. */
  function Parse(query: string): (ps: Params)
    ensures query == "" ==> ps == []
    ensures query != "" && '&' !in query ==> ps == [ParsePair(query)]
  {
    var segs := SplitOn(query, '&');
    assert '&' !in query ==> segs == [query] && ParseSegments(segs[1..]) == [];
    ParseSegments(segs)
  }

  /** `URLSearchParams.get(name)`: the value of the first pair with that name. */
  function Get(ps: Params, name: string): (r: Option<string>)
    ensures r.None? <==> forall k :: 0 <= k < |ps| ==> ps[k].0 != name
    ensures r.Some? ==> exists k :: 0 <= k < |ps| && ps[k] == (name, r.value)
                                    && forall j :: 0 <= j < k ==> ps[j].0 != name
  {
    if ps == [] then None
    else if ps[0].0 == name then Some(ps[0].1)
    else
      var r := Get(ps[1..], name);
      assert forall k :: 1 <= k < |ps| ==> ps[1..][k - 1] == ps[k];
      r
  }

  lemma IndexOfAfter(x: string, c: char, rest: string)
    requires c !in x
    ensures c in x + [c] + rest && IndexOf(x + [c] + rest, c) == |x|
  {
    var s := x + [c] + rest;
    assert s[|x|] == c;
    assert forall k :: 0 <= k < |x| ==> s[k] == x[k];
  }

  lemma SplitOnAfter(x: string, rest: string)
    requires '&' !in x
    ensures SplitOn(x + "&" + rest, '&') == [x] + SplitOn(rest, '&')
  {
    var s := x + "&" + rest;
    IndexOfAfter(x, '&', rest);
    assert s[..|x|] == x && s[|x| + 1..] == rest;
  }

  lemma ParseSegment(p: (string, string))
    ensures Segment(p) != "" && ParsePair(Segment(p)) == p
  {
    EncodedHasNoDelimiters(Utf8String(p.0));
    EncodedHasNoDelimiters(Utf8String(p.1));
    var x, y := EncodeString(p.0), EncodeString(p.1);
    IndexOfAfter(x, '=', y);
    var s := x + "=" + y;
    assert s[..|x|] == x && s[|x| + 1..] == y;
    StringRoundTrip(p.0);
    StringRoundTrip(p.1);
  }

  /** Parsing a serialized parameter list gives back exactly the pairs, in order. */
  lemma {:induction false} ParseSerialize(ps: Params)
    ensures Parse(Serialize(ps)) == ps
  {
    if ps == [] {
      assert SplitOn("", '&') == [""];
    } else {
      ParseSegment(ps[0]);
      var x := Segment(ps[0]);
      EncodedHasNoDelimiters(Utf8String(ps[0].0));
      EncodedHasNoDelimiters(Utf8String(ps[0].1));
      assert '&' !in x;
      if |ps| == 1 {
        assert SplitOn(x, '&') == [x];
        assert ParseSegments([x]) == [ParsePair(x)] + ParseSegments([]);
      } else {
        SplitOnAfter(x, Serialize(ps[1..]));
        ParseSerialize(ps[1..]);
        var segs := [x] + SplitOn(Serialize(ps[1..]), '&');
        assert segs[1..] == SplitOn(Serialize(ps[1..]), '&');
      }
    }
  }
}
