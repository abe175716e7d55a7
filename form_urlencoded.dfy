/**
 * The application/x-www-form-urlencoded serializer of the WHATWG URL
 * Standard (section 5.2), which `URLSearchParams.prototype.toString` uses:
 * each name and value is encoded as UTF-8, the bytes of ASCII letters and
 * digits and of `*`, `-`, `.` and `_` are kept, a space becomes `+`, every
 * other byte becomes `%` and two upper-case hexadecimal digits; pairs are
 * written `name=value` and joined with `&`.
 *
 * The parser of section 5.1 of the WHATWG URL Standard is the partner: it
 * undoes the serializer, which is what makes a serialized list of pairs a
 * faithful key for that list.
 */
module FormUrlEncoded {
  import opened Wrappers

  /** A byte value. */
  predicate IsByte(b: int) {
    0 <= b < 256
  }

  predicate AllBytes(bs: seq<int>) {
    forall i :: 0 <= i < |bs| ==> IsByte(bs[i])
  }

  // ---------------------------------------------------------------- UTF-8

  /** The UTF-8 encoding of one Unicode scalar value. */
  function Utf8(c: char): (bs: seq<int>)
    ensures 1 <= |bs| <= 4 && AllBytes(bs)
    ensures (c as int < 0x80) <==> bs == [c as int]
  {
    var cp := c as int;
    if cp < 0x80 then [cp]
    else if cp < 0x800 then [0xC0 + cp / 0x40, 0x80 + cp % 0x40]
    else if cp < 0x1_0000 then [0xE0 + cp / 0x1000, 0x80 + (cp / 0x40) % 0x40, 0x80 + cp % 0x40]
    else [0xF0 + cp / 0x4_0000, 0x80 + (cp / 0x1000) % 0x40, 0x80 + (cp / 0x40) % 0x40, 0x80 + cp % 0x40]
  }

  /** The UTF-8 encoding of a string. */
  function Utf8Of(s: string): (bs: seq<int>)
    ensures AllBytes(bs)
    ensures |s| <= |bs|
  {
    if s == [] then [] else Utf8(s[0]) + Utf8Of(s[1..])
  }

  predicate Continuation(b: int) {
    0x80 <= b < 0xC0
  }

  /** The scalar value `cp`, when it is one and needed at least `min` to be written this long. */
  function ScalarAtLeast(cp: int, min: int): Option<char> {
    if min <= cp && (0 <= cp < 0xD800 || 0xE000 <= cp < 0x11_0000) then Some(cp as char) else None
  }

  function WithLength(c: Option<char>, n: nat): Option<(char, nat)> {
    if c.Some? then Some((c.value, n)) else None
  }

  /** The first scalar value of a UTF-8 byte sequence and the number of bytes that encode it. */
  function DecodeFirst(bs: seq<int>): (r: Option<(char, nat)>)
    requires bs != []
    ensures r.Some? ==> 1 <= r.value.1 <= |bs|
  {
    var b0 := bs[0];
    if 0 <= b0 < 0x80 then Some((b0 as char, 1))
    else if 0xC0 <= b0 < 0xE0 && |bs| >= 2 && Continuation(bs[1]) then
      WithLength(ScalarAtLeast((b0 - 0xC0) * 0x40 + (bs[1] - 0x80), 0x80), 2)
    else if 0xE0 <= b0 < 0xF0 && |bs| >= 3 && Continuation(bs[1]) && Continuation(bs[2]) then
      WithLength(ScalarAtLeast((b0 - 0xE0) * 0x1000 + (bs[1] - 0x80) * 0x40 + (bs[2] - 0x80), 0x800), 3)
    else if 0xF0 <= b0 < 0xF8 && |bs| >= 4 && Continuation(bs[1]) && Continuation(bs[2]) && Continuation(bs[3]) then
      WithLength(ScalarAtLeast((b0 - 0xF0) * 0x4_0000 + (bs[1] - 0x80) * 0x1000 + (bs[2] - 0x80) * 0x40 + (bs[3] - 0x80),
                               0x1_0000), 4)
    else None
  }

  /** UTF-8 decoding; None on a malformed sequence. */
  function Utf8Decode(bs: seq<int>): Option<string>
    decreases |bs|
  {
    if bs == [] then Some([])
    else match DecodeFirst(bs)
      case None => None
      case Some((c, n)) =>
        match Utf8Decode(bs[n..])
        case None => None
        case Some(rest) => Some([c] + rest)
  }

  lemma DecodeFirstUtf8(c: char, rest: seq<int>)
    ensures DecodeFirst(Utf8(c) + rest) == Some((c, |Utf8(c)|))
  {
    var cp := c as int;
    if cp < 0x80 {
    } else if cp < 0x800 {
      DecodeTwo(c, rest);
    } else if cp < 0x1_0000 {
      DecodeThree(c, rest);
    } else {
      DecodeFour(c, rest);
    }
  }

  lemma DecodeTwo(c: char, rest: seq<int>)
    requires 0x80 <= c as int < 0x800
    ensures DecodeFirst(Utf8(c) + rest) == Some((c, 2))
  {
    var cp := c as int;
    var bs := Utf8(c) + rest;
    assert bs[0] == 0xC0 + cp / 0x40 && bs[1] == 0x80 + cp % 0x40;
    assert (cp / 0x40) * 0x40 + cp % 0x40 == cp;
  }

  lemma DecodeThree(c: char, rest: seq<int>)
    requires 0x800 <= c as int < 0x1_0000
    ensures DecodeFirst(Utf8(c) + rest) == Some((c, 3))
  {
    var cp := c as int;
    var bs := Utf8(c) + rest;
    var hi, mid, lo := cp / 0x1000, (cp / 0x40) % 0x40, cp % 0x40;
    assert bs[0] == 0xE0 + hi && bs[1] == 0x80 + mid && bs[2] == 0x80 + lo;
    assert cp / 0x40 == hi * 0x40 + mid;
    assert hi * 0x1000 + mid * 0x40 + lo == cp;
  }

  lemma DecodeFour(c: char, rest: seq<int>)
    requires 0x1_0000 <= c as int
    ensures DecodeFirst(Utf8(c) + rest) == Some((c, 4))
  {
    var cp := c as int;
    var bs := Utf8(c) + rest;
    var top, hi, mid, lo := cp / 0x4_0000, (cp / 0x1000) % 0x40, (cp / 0x40) % 0x40, cp % 0x40;
    assert bs[0] == 0xF0 + top && bs[1] == 0x80 + hi && bs[2] == 0x80 + mid && bs[3] == 0x80 + lo;
    assert cp / 0x1000 == top * 0x40 + hi;
    assert cp / 0x40 == (cp / 0x1000) * 0x40 + mid;
    assert top * 0x4_0000 + hi * 0x1000 + mid * 0x40 + lo == cp;
  }

  /** UTF-8 decoding undoes UTF-8 encoding. */
  lemma {:induction false} Utf8RoundTrip(s: string)
    ensures Utf8Decode(Utf8Of(s)) == Some(s)
  {
    if s != [] {
      var bs := Utf8Of(s);
      assert bs == Utf8(s[0]) + Utf8Of(s[1..]);
      DecodeFirstUtf8(s[0], Utf8Of(s[1..]));
      assert bs[|Utf8(s[0])|..] == Utf8Of(s[1..]);
      Utf8RoundTrip(s[1..]);
      assert [s[0]] + s[1..] == s;
    }
  }

  // ------------------------------------------------------ percent-encoding

  /** The bytes the serializer copies unchanged. */
  predicate Unreserved(b: int) {
    ('0' as int <= b <= '9' as int) || ('A' as int <= b <= 'Z' as int) || ('a' as int <= b <= 'z' as int)
    || b == '*' as int || b == '-' as int || b == '.' as int || b == '_' as int
  }

  /** An upper-case hexadecimal digit. */
  function HexDigit(n: int): (d: char)
    requires 0 <= n < 16
    ensures IsHex(d) && HexValue(d) == n
  {
    if n < 10 then ('0' as int + n) as char else ('A' as int + n - 10) as char
  }

  predicate IsHex(c: char) {
    '0' <= c <= '9' || 'A' <= c <= 'F' || 'a' <= c <= 'f'
  }

  function HexValue(c: char): int
    requires IsHex(c)
  {
    if '0' <= c <= '9' then c as int - '0' as int
    else if 'A' <= c <= 'F' then c as int - 'A' as int + 10
    else c as int - 'a' as int + 10
  }

  /** The output for one byte. */
  function EncodeByte(b: int): (r: string)
    requires IsByte(b)
    ensures r == "+" <==> b == ' ' as int
    ensures |r| == 1 && r != "+" <==> Unreserved(b)
    ensures |r| == 1 || (|r| == 3 && r[0] == '%')
    ensures '&' !in r && '=' !in r
  {
    if b == ' ' as int then "+"
    else if Unreserved(b) then [b as char]
    else ['%', HexDigit(b / 16), HexDigit(b % 16)]
  }

  function EncodeBytes(bs: seq<int>): (r: string)
    requires AllBytes(bs)
    ensures '&' !in r && '=' !in r
    ensures |bs| <= |r| <= 3 * |bs|
  {
    if bs == [] then [] else EncodeByte(bs[0]) + EncodeBytes(bs[1..])
  }

  /** One name or value, serialized. */
  function Encode(s: string): (r: string)
    ensures '&' !in r && '=' !in r
    ensures |s| <= |r|
  {
    EncodeBytes(Utf8Of(s))
  }

  /** Percent-decoding (section 5.1 of the WHATWG URL Standard): `+` is a space, `%` and two hexadecimal digits a byte, any other character its UTF-8 bytes. */
  function PercentDecode(r: string): (bs: seq<int>)
    ensures AllBytes(bs)
  {
    if r == [] then []
    else if r[0] == '+' then [0x20] + PercentDecode(r[1..])
    else if r[0] == '%' && |r| >= 3 && IsHex(r[1]) && IsHex(r[2]) then
      [16 * HexValue(r[1]) + HexValue(r[2])] + PercentDecode(r[3..])
    else Utf8(r[0]) + PercentDecode(r[1..])
  }

  lemma DecodeEncodedByte(b: int, rest: string)
    requires IsByte(b)
    ensures PercentDecode(EncodeByte(b) + rest) == [b] + PercentDecode(rest)
  {
    var r := EncodeByte(b) + rest;
    if b == ' ' as int {
      assert r[1..] == rest;
    } else if Unreserved(b) {
      assert r[0] == b as char && r[1..] == rest;
      assert Utf8(b as char) == [b];
    } else {
      assert r[0] == '%' && r[1] == HexDigit(b / 16) && r[2] == HexDigit(b % 16) && r[3..] == rest;
    }
  }

  lemma {:induction false} PercentRoundTrip(bs: seq<int>)
    requires AllBytes(bs)
    ensures PercentDecode(EncodeBytes(bs)) == bs
  {
    if bs != [] {
      DecodeEncodedByte(bs[0], EncodeBytes(bs[1..]));
      PercentRoundTrip(bs[1..]);
    }
  }

  /** A name or value, parsed back: percent-decoding then UTF-8 decoding. */
  function DecodeComponent(r: string): Option<string> {
    Utf8Decode(PercentDecode(r))
  }

  /** Decoding undoes encoding: no two names or values serialize alike. */
  lemma EncodeRoundTrip(s: string)
    ensures DecodeComponent(Encode(s)) == Some(s)
  {
    PercentRoundTrip(Utf8Of(s));
    Utf8RoundTrip(s);
  }

  /** A name or value made only of bytes the serializer keeps comes out unchanged. */
  lemma {:induction false} EncodeKeepsUnreserved(s: string)
    requires forall i :: 0 <= i < |s| ==> s[i] as int < 0x80 && Unreserved(s[i] as int)
    ensures Encode(s) == s
  {
    if s != [] {
      EncodeKeepsUnreserved(s[1..]);
      assert Utf8(s[0]) == [s[0] as int];
      assert Utf8Of(s) == [s[0] as int] + Utf8Of(s[1..]);
      assert EncodeBytes(Utf8Of(s)) == [s[0]] + EncodeBytes(Utf8Of(s[1..]));
    }
  }

  // ------------------------------------------------------------- pair lists

  function SerializePair(p: (string, string)): (r: string)
    ensures '&' !in r
  {
    Encode(p.0) + "=" + Encode(p.1)
  }

  /** `URLSearchParams.prototype.toString` over its list of name-value pairs. */
  function Serialize(pairs: seq<(string, string)>): (r: string)
    ensures pairs == [] <==> r == []
  {
    if pairs == [] then []
    else if |pairs| == 1 then SerializePair(pairs[0])
    else SerializePair(pairs[0]) + "&" + Serialize(pairs[1..])
  }

  /** The position of the first `c` in `r`, or `|r|`. */
  function IndexOf(r: string, c: char): (i: nat)
    ensures i <= |r|
    ensures i < |r| ==> r[i] == c
    ensures forall j :: 0 <= j < i ==> r[j] != c
  {
    if r == [] then 0 else if r[0] == c then 0 else 1 + IndexOf(r[1..], c)
  }

  /** The parser of section 5.1 of the WHATWG URL Standard: split on `&`, skip empty pieces, split each piece at its first `=`, decode both halves. */
  function ParseForm(r: string): Option<seq<(string, string)>>
    decreases |r|
  {
    if r == [] then Some([])
    else
      var i := IndexOf(r, '&');
      var piece := r[..i];
      var rest := if i < |r| then r[i + 1..] else [];
      if piece == [] then ParseForm(rest)
      else
        var j := IndexOf(piece, '=');
        var name := DecodeComponent(piece[..j]);
        var value := DecodeComponent(if j < |piece| then piece[j + 1..] else []);
        match ParseForm(rest)
        case Some(tail) => if name.Some? && value.Some? then Some([(name.value, value.value)] + tail) else None
        case None => None
  }

  lemma IndexOfSeparator(x: string, c: char, y: string)
    requires c !in x
    ensures IndexOf(x + [c] + y, c) == |x|
  {
    var r := x + [c] + y;
    assert r[|x|] == c;
    assert forall j :: 0 <= j < |x| ==> r[j] == x[j];
  }

  lemma IndexOfAbsent(x: string, c: char)
    requires c !in x
    ensures IndexOf(x, c) == |x|
  {
  }

  lemma ParsePair(p: (string, string))
    ensures var piece := SerializePair(p);
            var j := IndexOf(piece, '=');
            DecodeComponent(piece[..j]) == Some(p.0) && j < |piece| && DecodeComponent(piece[j + 1..]) == Some(p.1)
  {
    var piece := SerializePair(p);
    assert piece == Encode(p.0) + ['='] + Encode(p.1);
    IndexOfSeparator(Encode(p.0), '=', Encode(p.1));
    assert piece[..|Encode(p.0)|] == Encode(p.0);
    assert piece[|Encode(p.0)| + 1..] == Encode(p.1);
    EncodeRoundTrip(p.0);
    EncodeRoundTrip(p.1);
  }

  /** Parsing undoes serialization: the serialized text determines the list of pairs. */
  lemma {:induction false} SerializeRoundTrip(pairs: seq<(string, string)>)
    ensures ParseForm(Serialize(pairs)) == Some(pairs)
  {
    if pairs == [] {
      assert ParseForm([]) == Some([]);
    } else {
      var p, tail := pairs[0], pairs[1..];
      assert pairs == [p] + tail;
      if tail == [] {
        ParseOnePair(p);
      } else {
        var text := SerializePair(p) + "&" + Serialize(tail);
        assert Serialize(pairs) == text;
        SerializeRoundTrip(tail);
        ParseFirstPair(p, tail);
      }
    }
  }

  lemma ParseOnePair(p: (string, string))
    ensures ParseForm(SerializePair(p)) == Some([p])
  {
    var piece := SerializePair(p);
    ParsePair(p);
    IndexOfAbsent(piece, '&');
    assert piece[..|piece|] == piece;
    assert ParseForm([]) == Some([]);
    assert [p] + [] == [p];
  }

  lemma ParseFirstPair(p: (string, string), tail: seq<(string, string)>)
    requires tail != [] && ParseForm(Serialize(tail)) == Some(tail)
    ensures ParseForm(SerializePair(p) + "&" + Serialize(tail)) == Some([p] + tail)
  {
    var first := SerializePair(p);
    var r := first + "&" + Serialize(tail);
    ParsePair(p);
    IndexOfSeparator(first, '&', Serialize(tail));
    assert r[..|first|] == first;
    assert r[|first| + 1..] == Serialize(tail);
  }

  /** Two lists of pairs serialize alike only when they are the same list. */
  lemma SerializeInjective(a: seq<(string, string)>, b: seq<(string, string)>)
    requires Serialize(a) == Serialize(b)
    ensures a == b
  {
    SerializeRoundTrip(a);
    SerializeRoundTrip(b);
  }

  // --------------------------------------------------------------- numbers

  function DigitChar(d: int): (c: char)
    requires 0 <= d < 10
    ensures '0' <= c <= '9'
  {
    ('0' as int + d) as char
  }

  function Digits(n: nat): (r: string)
    ensures |r| >= 1 && forall i :: 0 <= i < |r| ==> '0' <= r[i] <= '9'
    ensures n >= 10 <==> |r| >= 2
    ensures r[0] == '0' <==> n == 0
  {
    if n < 10 then [DigitChar(n)] else Digits(n / 10) + [DigitChar(n % 10)]
  }

  /** The value a decimal digit string denotes. */
  function Value(r: string): int
    requires forall i :: 0 <= i < |r| ==> '0' <= r[i] <= '9'
  {
    if r == [] then 0 else 10 * Value(r[..|r| - 1]) + (r[|r| - 1] as int - '0' as int)
  }

  /** `String(n)` for an integer. */
  function Decimal(n: int): (r: string)
    ensures |r| >= 1
    ensures n < 0 <==> r[0] == '-'
  {
    if n < 0 then "-" + Digits(-n) else Digits(n)
  }

  /** The digits of a natural number denote it. */
  lemma {:induction false} DigitsValue(n: nat)
    ensures Value(Digits(n)) == n
  {
    if n >= 10 {
      DigitsValue(n / 10);
      var r := Digits(n);
      assert r[..|r| - 1] == Digits(n / 10);
    }
  }

  lemma DigitsInjective(a: nat, b: nat)
    requires Digits(a) == Digits(b)
    ensures a == b
  {
    DigitsValue(a);
    DigitsValue(b);
  }

  lemma NegativeDecimal(n: int)
    requires Decimal(n)[0] == '-'
    ensures n < 0 && Decimal(n)[1..] == Digits(-n)
  {
  }

  /** `String` is one-to-one on integers. */
  lemma DecimalInjective(m: int, n: int)
    requires Decimal(m) == Decimal(n)
    ensures m == n
  {
    if m < 0 {
      NegativeDecimal(m);
      NegativeDecimal(n);
      DigitsInjective(-m, -n);
    } else {
      assert n >= 0;
      DigitsInjective(m, n);
    }
  }
}
