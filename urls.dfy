/**
 * The parts of Go's `net/url` and `strconv` that the modelled code relies on:
 * QueryEscape / QueryUnescape (on the UTF-8 bytes of a string), url.Values.Encode,
 * strconv.Itoa and strconv.Atoi (64-bit `int`).
 */
module Urls {
  import opened Wrappers
  import Strs

  type byte = b: int | 0 <= b < 256

  const Space: byte := 0x20
  const Plus: byte := 0x2B
  const Percent: byte := 0x25

  /** The UTF-8 encoding of one Unicode scalar value. */
  function EncodeRune(c: char): (r: seq<byte>)
    ensures 1 <= |r| <= 4
    ensures (|r| == 1) == (c as int < 0x80)
    ensures |r| == 1 ==> r[0] == c as int
  {
    var n := c as int;
    if n < 0x80 then [n]
    else if n < 0x800 then [0xC0 + n / 0x40, 0x80 + n % 0x40]
    else if n < 0x1_0000 then [0xE0 + n / 0x1000, 0x80 + (n / 0x40) % 0x40, 0x80 + n % 0x40]
    else [0xF0 + n / 0x4_0000, 0x80 + (n / 0x1000) % 0x40, 0x80 + (n / 0x40) % 0x40, 0x80 + n % 0x40]
  }

  /** The bytes of a Go string holding `s`. */
  function Utf8(s: string): (r: seq<byte>)
    ensures |r| >= |s|
    decreases |s|
  {
    if s == [] then [] else EncodeRune(s[0]) + Utf8(s[1..])
  }

  /** Bytes that url.QueryEscape leaves as they are. */
  predicate Unreserved(b: byte) {
    ('A' as int <= b <= 'Z' as int) || ('a' as int <= b <= 'z' as int) || ('0' as int <= b <= '9' as int)
    || b == '-' as int || b == '_' as int || b == '.' as int || b == '~' as int
  }

  /** Every byte that url.QueryEscape can produce. */
  predicate EscapedByte(b: byte) {
    Unreserved(b) || b == Plus || b == Percent
  }

  const HexDigits: string := "0123456789ABCDEF"

  function HexChar(d: nat): (r: byte)
    requires d < 16
    ensures Unreserved(r)
  {
    HexDigits[d] as int
  }

  /** The value of a hexadecimal digit byte, either case. */
  function HexValue(b: byte): (r: Option<nat>)
    ensures r.Some? ==> r.value < 16
  {
    if '0' as int <= b <= '9' as int then Some(b - '0' as int)
    else if 'a' as int <= b <= 'f' as int then Some(b - 'a' as int + 10)
    else if 'A' as int <= b <= 'F' as int then Some(b - 'A' as int + 10)
    else None
  }

  function EscapeByte(b: byte): (r: seq<byte>)
    ensures forall i :: 0 <= i < |r| ==> EscapedByte(r[i])
  {
    if Unreserved(b) then [b]
    else if b == Space then [Plus]
    else [Percent, HexChar(b / 16), HexChar(b % 16)]
  }

  /** url.QueryEscape on bytes: unreserved bytes stay, space becomes '+', every other byte becomes %XX. */
  function EscapeBytes(bs: seq<byte>): (r: seq<byte>)
    ensures forall i :: 0 <= i < |r| ==> EscapedByte(r[i])
    decreases |bs|
  {
    if bs == [] then [] else EscapeByte(bs[0]) + EscapeBytes(bs[1..])
  }

  /** url.QueryUnescape on bytes: '+' is a space, %XX is a byte, and a malformed escape is an error. */
  function QueryUnescape(s: seq<byte>): (r: Option<seq<byte>>)
    decreases |s|
  {
    if s == [] then Some([])
    else if s[0] == Percent then
      if |s| < 3 || HexValue(s[1]).None? || HexValue(s[2]).None? then None
      else match QueryUnescape(s[3..])
        case None => None
        case Some(t) => Some([HexValue(s[1]).value * 16 + HexValue(s[2]).value] + t)
    else match QueryUnescape(s[1..])
      case None => None
      case Some(t) => Some([if s[0] == Plus then Space else s[0]] + t)
  }

  /** Unescaping the escape of one byte, followed by anything, yields that byte first. */
  lemma HexValueOfHexChar(d: nat)
    requires d < 16
    ensures HexValue(HexChar(d)) == Some(d)
  {
  }

  lemma UnescapeEscapeByte(b: byte, rest: seq<byte>)
    ensures QueryUnescape(EscapeByte(b) + rest) ==
      match QueryUnescape(rest) case None => None case Some(t) => Some([b] + t)
  {
    if Unreserved(b) || b == Space {
      UnescapeSingle(b, rest);
    } else {
      UnescapePercent(b, rest);
    }
  }

  lemma UnescapeSingle(b: byte, rest: seq<byte>)
    requires Unreserved(b) || b == Space
    ensures QueryUnescape(EscapeByte(b) + rest) ==
      match QueryUnescape(rest) case None => None case Some(t) => Some([b] + t)
  {
    var e := EscapeByte(b);
    assert e == (if b == Space then [Plus] else [b]);
    assert (e + rest)[0] == e[0] && (e + rest)[1..] == rest;
  }

  lemma UnescapePercent(b: byte, rest: seq<byte>)
    requires !Unreserved(b) && b != Space
    ensures QueryUnescape(EscapeByte(b) + rest) ==
      match QueryUnescape(rest) case None => None case Some(t) => Some([b] + t)
  {
    assert EscapeByte(b) == [Percent, HexChar(b / 16), HexChar(b % 16)];
    UnescapeHex(b / 16, b % 16, rest);
  }

  lemma UnescapeHex(hi: nat, lo: nat, rest: seq<byte>)
    requires hi < 16 && lo < 16
    ensures QueryUnescape([Percent, HexChar(hi), HexChar(lo)] + rest) ==
      match QueryUnescape(rest) case None => None case Some(t) => Some([hi * 16 + lo] + t)
  {
    var s := [Percent, HexChar(hi), HexChar(lo)] + rest;
    HexValueOfHexChar(hi);
    HexValueOfHexChar(lo);
    assert s[0] == Percent && s[1] == HexChar(hi) && s[2] == HexChar(lo) && s[3..] == rest;
  }

  lemma {:induction false} UnescapeEscape(bs: seq<byte>)
    ensures QueryUnescape(EscapeBytes(bs)) == Some(bs)
    decreases |bs|
  {
    if bs != [] {
      UnescapeEscape(bs[1..]);
      UnescapeEscapeByte(bs[0], EscapeBytes(bs[1..]));
      assert [bs[0]] + bs[1..] == bs;
    }
  }

  /** The ASCII string spelled by bytes below 0x80. */
  function AsciiString(bs: seq<byte>): (r: string)
    requires forall i :: 0 <= i < |bs| ==> bs[i] < 0x80
    ensures |r| == |bs| && forall i :: 0 <= i < |bs| ==> r[i] as int == bs[i]
  {
    seq(|bs|, i requires 0 <= i < |bs| => bs[i] as char)
  }

  /** url.QueryEscape. */
  function QueryEscape(s: string): (r: string)
    ensures forall i :: 0 <= i < |r| ==> r[i] as int < 256 && EscapedByte(r[i] as int)
  {
    var e := EscapeBytes(Utf8(s));
    AsciiString(e)
  }

  /** Characters that can appear in a query that url.Values.Encode produced. */
  predicate QueryChar(c: char) {
    (c as int < 256 && EscapedByte(c as int)) || c == '=' || c == '&'
  }

  /** Every character of a join is a character of a piece or of the separator. */
  lemma {:induction false} JoinChars(parts: seq<string>, sep: string)
    requires forall k, i :: 0 <= k < |parts| && 0 <= i < |parts[k]| ==> QueryChar(parts[k][i])
    requires forall i :: 0 <= i < |sep| ==> QueryChar(sep[i])
    ensures forall i :: 0 <= i < |Strs.Join(parts, sep)| ==> QueryChar(Strs.Join(parts, sep)[i])
    decreases |parts|
  {
    if |parts| > 1 {
      JoinChars(parts[1..], sep);
      var tail := Strs.Join(parts[1..], sep);
      var s := parts[0] + sep + tail;
      forall i | 0 <= i < |s| ensures QueryChar(s[i]) {
        if i < |parts[0]| {
        } else if i < |parts[0]| + |sep| {
          assert s[i] == sep[i - |parts[0]|];
        } else {
          assert s[i] == tail[i - |parts[0]| - |sep|];
        }
      }
    }
  }

  /** One `key=value` field of an encoded query. */
  function QueryField(kv: (string, string)): (r: string)
    ensures forall i :: 0 <= i < |r| ==> QueryChar(r[i])
  {
    var k := QueryEscape(kv.0);
    var v := QueryEscape(kv.1);
    var r := k + "=" + v;
    assert forall i :: 0 <= i < |r| ==> QueryChar(r[i]) by {
      forall i | 0 <= i < |r| ensures QueryChar(r[i]) {
        if i < |k| { } else if i == |k| { } else { assert r[i] == v[i - |k| - 1]; }
      }
    }
    r
  }

  /**
   * url.Values.Encode for single-valued keys. The pairs are listed by their caller in
   * ascending key order, the order in which Encode emits them.
   */
  function EncodeQuery(pairs: seq<(string, string)>): (r: string)
    ensures forall i :: 0 <= i < |r| ==> QueryChar(r[i])
  {
    var fields := seq(|pairs|, i requires 0 <= i < |pairs| => QueryField(pairs[i]));
    JoinChars(fields, "&");
    Strs.Join(fields, "&")
  }

  /** url.URL.String() of a relative path whose RawQuery was set from `pairs`. */
  function RelativeUrl(path: string, pairs: seq<(string, string)>): (r: string)
    ensures r == path + "?" + EncodeQuery(pairs)
    ensures forall i :: |path| < i < |r| ==> QueryChar(r[i])
  {
    path + "?" + EncodeQuery(pairs)
  }

  const MinInt64: int := -0x8000_0000_0000_0000
  const MaxInt64: int := 0x7FFF_FFFF_FFFF_FFFF

  predicate IsDigit(c: char) {
    '0' <= c <= '9'
  }

  function DigitChar(d: nat): (c: char)
    requires d < 10
    ensures IsDigit(c) && c as int - '0' as int == d
  {
    ('0' as int + d) as char
  }

  /** The decimal digits of `n`, without leading zeros. */
  function NatDigits(n: nat): (r: string)
    ensures |r| >= 1 && forall i :: 0 <= i < |r| ==> IsDigit(r[i])
    decreases n
  {
    if n < 10 then [DigitChar(n)] else NatDigits(n / 10) + [DigitChar(n % 10)]
  }

  /** strconv.Itoa. */
  function Itoa(n: int): (r: string)
    ensures |r| >= 1 && (r[0] == '-' <==> n < 0) && r[0] != '+'
  {
    if n < 0 then "-" + NatDigits(-n) else NatDigits(n)
  }

  /** The value of a string of decimal digits. */
  function DigitsValue(s: string): nat
    requires forall i :: 0 <= i < |s| ==> IsDigit(s[i])
    decreases |s|
  {
    if s == [] then 0
    else
      assert IsDigit(s[|s| - 1]);
      DigitsValue(s[..|s| - 1]) * 10 + (s[|s| - 1] as int - '0' as int)
  }

  /**
   * strconv.Atoi on a 64-bit platform: an optional sign, then one or more decimal digits,
   * with the value inside the range of int64; anything else is an error.
   */
  function Atoi(s: string): (r: Option<int>)
    ensures r.Some? ==> MinInt64 <= r.value <= MaxInt64
    ensures s == [] || s == "+" || s == "-" ==> r == None
  {
    var digits := if s != [] && (s[0] == '+' || s[0] == '-') then s[1..] else s;
    if digits == [] || !(forall i :: 0 <= i < |digits| ==> IsDigit(digits[i])) then None
    else
      var n: int := DigitsValue(digits);
      var v := if s[0] == '-' then 0 - n else n;
      if MinInt64 <= v <= MaxInt64 then Some(v) else None
  }

  lemma {:induction false} DigitsValueOfNatDigits(n: nat)
    ensures DigitsValue(NatDigits(n)) == n
    decreases n
  {
    if n >= 10 {
      DigitsValueOfNatDigits(n / 10);
      var s := NatDigits(n / 10) + [DigitChar(n % 10)];
      assert s[..|s| - 1] == NatDigits(n / 10);
    }
  }

  /** Atoi reads back what Itoa writes, for every value of a 64-bit int. */
  lemma AtoiItoa(n: int)
    requires MinInt64 <= n <= MaxInt64
    ensures Atoi(Itoa(n)) == Some(n)
  {
    var m: nat := if n < 0 then -n else n;
    var ds := NatDigits(m);
    DigitsValueOfNatDigits(m);
    var s := Itoa(n);
    assert s == if n < 0 then "-" + ds else ds;
    var digits := if s != [] && (s[0] == '+' || s[0] == '-') then s[1..] else s;
    assert digits == ds;
    assert forall i :: 0 <= i < |digits| ==> IsDigit(digits[i]);
  }
}
