/**
 Query-string encoding as `urllib.parse.urlencode` performs it with its
 default `quote_plus`: each key and value is UTF-8 encoded, the always-safe
 characters `A-Z a-z 0-9 _ . - ~` are kept, a space becomes `+`, and every
 other byte becomes `%XX` with upper-case hex digits; pairs are written
 `key=value` and joined with `&`.
 */
module UrlEncoding {
  import opened Text

  /** A parameter value: the program passes integers (`limit`) and strings (`time_range`, ...). */
  datatype ParamValue = Num(n: int) | Str(s: string)

  /** A parameter dictionary, in insertion order. */
  type Params = seq<(string, ParamValue)>

  predicate AlwaysSafe(c: char) {
    || 'A' <= c <= 'Z' || 'a' <= c <= 'z' || '0' <= c <= '9'
    || c == '_' || c == '.' || c == '-' || c == '~'
  }

  /** The characters that can appear in the output of `QuotePlus`. */
  predicate Encoded(c: char) {
    AlwaysSafe(c) || c == '+' || c == '%'
  }

  /** The UTF-8 bytes of one character (a Unicode scalar value). */
  function Utf8(c: char): (r: seq<nat>)
    ensures 1 <= |r| <= 4
    ensures forall i :: 0 <= i < |r| ==> r[i] < 256
    ensures |r| == 1 <==> (c as int) < 0x80
    ensures |r| == 1 ==> r[0] == c as int
  {
    var cp := c as int;
    if cp < 0x80 then [cp]
    else if cp < 0x800 then [0xC0 + cp / 0x40, 0x80 + cp % 0x40]
    else if cp < 0x1_0000 then [0xE0 + cp / 0x1000, 0x80 + (cp / 0x40) % 0x40, 0x80 + cp % 0x40]
    else [0xF0 + (cp / 0x4_0000) % 8, 0x80 + (cp / 0x1000) % 0x40, 0x80 + (cp / 0x40) % 0x40, 0x80 + cp % 0x40]
  }

  function HexDigit(d: nat): (c: char)
    requires d < 16
    ensures AlwaysSafe(c)
  {
    if d < 10 then ('0' as int + d) as char else ('A' as int + d - 10) as char
  }

  /** `%XX` for every byte. */
  function PercentEscape(bytes: seq<nat>): (r: string)
    requires forall i :: 0 <= i < |bytes| ==> bytes[i] < 256
    ensures |r| == 3 * |bytes|
    ensures forall i :: 0 <= i < |r| ==> Encoded(r[i])
  {
    if |bytes| == 0 then ""
    else ['%', HexDigit(bytes[0] / 16), HexDigit(bytes[0] % 16)] + PercentEscape(bytes[1..])
  }

  function QuoteChar(c: char): (r: string)
    ensures forall i :: 0 <= i < |r| ==> Encoded(r[i])
    ensures AlwaysSafe(c) ==> r == [c]
  {
    if AlwaysSafe(c) then [c]
    else if c == ' ' then "+"
    else PercentEscape(Utf8(c))
  }

  /** `urllib.parse.quote_plus(s)` */
  function QuotePlus(s: string): (r: string)
    ensures forall i :: 0 <= i < |r| ==> Encoded(r[i])
    ensures (forall i :: 0 <= i < |s| ==> AlwaysSafe(s[i])) ==> r == s
    ensures |r| >= |s|
  {
    if |s| == 0 then "" else QuoteChar(s[0]) + QuotePlus(s[1..])
  }

  /** `str(v)` */
  function Stringify(v: ParamValue): string {
    match v
    case Num(n) => IntToString(n)
    case Str(s) => s
  }

  function EncodePair(p: (string, ParamValue)): string {
    QuotePlus(p.0) + "=" + QuotePlus(Stringify(p.1))
  }

  function EncodePairs(ps: Params): (r: seq<string>)
    ensures |r| == |ps|
    ensures forall i :: 0 <= i < |ps| ==> r[i] == EncodePair(ps[i])
  {
    if |ps| == 0 then [] else [EncodePair(ps[0])] + EncodePairs(ps[1..])
  }

  /**
   `urllib.parse.urlencode(params)`: the encoded pairs joined with `&`. It is
   empty exactly when there are no parameters, and otherwise begins with the
   first encoded pair; `QueryRoundTrip` reads it back pair by pair.
   */
  function UrlEncode(ps: Params): (r: string)
    ensures |ps| == 0 <==> r == ""
    ensures |ps| >= 1 ==> StartsWith(r, EncodePair(ps[0]))
  {
    var pieces := EncodePairs(ps);
    if |ps| == 0 then ""
    else
      assert |pieces[0]| >= 1 by { PairRoundTrip(ps[0]); }
      JoinStartsWithFirst(pieces, "&");
      Join(pieces, "&")
  }

  /** A join begins with its first part. */
  lemma JoinStartsWithFirst(parts: seq<string>, sep: string)
    requires |parts| >= 1
    ensures StartsWith(Join(parts, sep), parts[0])
  {
    JoinFirst(parts, sep);
  }

  lemma EncodedHasNo(s: string, c: char)
    requires forall i :: 0 <= i < |s| ==> Encoded(s[i])
    requires !Encoded(c)
    ensures c !in s
  {
  }

  /** One encoded pair holds no `&` and splits on `=` into its encoded key and value. */
  lemma PairRoundTrip(p: (string, ParamValue))
    ensures '&' !in EncodePair(p)
    ensures Split(EncodePair(p), '=') == [QuotePlus(p.0), QuotePlus(Stringify(p.1))]
  {
    var k, v := QuotePlus(p.0), QuotePlus(Stringify(p.1));
    EncodedHasNo(k, '&');
    EncodedHasNo(v, '&');
    EncodedHasNo(k, '=');
    EncodedHasNo(v, '=');
    assert Join([k, v], ['=']) == EncodePair(p);
    SplitJoin([k, v], '=');
  }

  /**
   An encoded query reads back pair by pair: splitting on `&` yields one
   `key=value` piece per parameter, in order, and splitting a piece on `=`
   yields the encoded key and value.
   */
  lemma QueryRoundTrip(ps: Params)
    requires |ps| >= 1
    ensures Split(UrlEncode(ps), '&') == EncodePairs(ps)
    ensures forall i :: 0 <= i < |ps| ==>
      Split(EncodePairs(ps)[i], '=') == [QuotePlus(ps[i].0), QuotePlus(Stringify(ps[i].1))]
  {
    var pieces := EncodePairs(ps);
    forall i | 0 <= i < |ps|
      ensures '&' !in pieces[i]
      ensures Split(pieces[i], '=') == [QuotePlus(ps[i].0), QuotePlus(Stringify(ps[i].1))]
    {
      PairRoundTrip(ps[i]);
    }
    SplitJoin(pieces, '&');
  }

  /** A hexadecimal digit of either case, as `unquote` accepts it. */
  predicate IsHex(c: char) {
    '0' <= c <= '9' || 'A' <= c <= 'F' || 'a' <= c <= 'f'
  }

  /** The value of a hexadecimal digit. */
  function HexValue(c: char): (d: nat)
    requires IsHex(c)
    ensures d < 16
  {
    if '0' <= c <= '9' then c as int - '0' as int
    else if 'A' <= c <= 'F' then c as int - 'A' as int + 10
    else c as int - 'a' as int + 10
  }

  /** The UTF-8 bytes of a string. */
  function Utf8String(s: string): seq<nat>
    decreases |s|
  {
    if |s| == 0 then [] else Utf8(s[0]) + Utf8String(s[1..])
  }

  /**
   The bytes `urllib.parse.unquote_plus(q)` decodes as UTF-8: a `+` stands for
   a space, `%` followed by two hex digits for the byte they spell, and any
   other character for its own UTF-8 bytes.
   */
  function UnquotePlusBytes(q: string): seq<nat>
    decreases |q|
  {
    if |q| == 0 then []
    else if q[0] == '%' && |q| >= 3 && IsHex(q[1]) && IsHex(q[2]) then
      [16 * HexValue(q[1]) + HexValue(q[2])] + UnquotePlusBytes(q[3..])
    else if q[0] == '+' then [0x20] + UnquotePlusBytes(q[1..])
    else Utf8(q[0]) + UnquotePlusBytes(q[1..])
  }

  lemma HexRoundTrip(d: nat)
    requires d < 16
    ensures IsHex(HexDigit(d)) && HexValue(HexDigit(d)) == d
  {
  }

  /** Percent-escaped bytes decode to themselves, whatever follows them. */
  lemma {:induction false} UnquoteEscape(bytes: seq<nat>, rest: string)
    requires forall i :: 0 <= i < |bytes| ==> bytes[i] < 256
    ensures UnquotePlusBytes(PercentEscape(bytes) + rest) == bytes + UnquotePlusBytes(rest)
    decreases |bytes|
  {
    if |bytes| > 0 {
      var b := bytes[0];
      var tail := PercentEscape(bytes[1..]) + rest;
      assert PercentEscape(bytes) + rest == ['%', HexDigit(b / 16), HexDigit(b % 16)] + tail;
      UnquoteByte(b, tail);
      UnquoteEscape(bytes[1..], rest);
      assert bytes == [b] + bytes[1..];
    } else {
      assert PercentEscape(bytes) + rest == rest;
    }
  }

  /** One escaped byte decodes to itself. */
  lemma UnquoteByte(b: nat, rest: string)
    requires b < 256
    ensures UnquotePlusBytes(['%', HexDigit(b / 16), HexDigit(b % 16)] + rest) == [b] + UnquotePlusBytes(rest)
  {
    var q := ['%', HexDigit(b / 16), HexDigit(b % 16)] + rest;
    HexRoundTrip(b / 16);
    HexRoundTrip(b % 16);
    assert q[3..] == rest;
  }

  /** One quoted character decodes to its UTF-8 bytes, whatever follows it. */
  lemma UnquoteChar(c: char, rest: string)
    ensures UnquotePlusBytes(QuoteChar(c) + rest) == Utf8(c) + UnquotePlusBytes(rest)
  {
    var q := QuoteChar(c) + rest;
    if AlwaysSafe(c) {
      assert q[0] == c && q[1..] == rest;
    } else if c == ' ' {
      assert q[0] == '+' && q[1..] == rest;
    } else {
      UnquoteEscape(Utf8(c), rest);
    }
  }

  /**
   `quote_plus` loses nothing: decoding its output with `unquote_plus` gives
   back the UTF-8 bytes of the original text, character by character.
   */
  lemma {:induction false} QuotePlusRoundTrip(s: string)
    ensures UnquotePlusBytes(QuotePlus(s)) == Utf8String(s)
    decreases |s|
  {
    if |s| > 0 {
      UnquoteChar(s[0], QuotePlus(s[1..]));
      QuotePlusRoundTrip(s[1..]);
    }
  }
}
