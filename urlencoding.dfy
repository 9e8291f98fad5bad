/**
 * A reference model of `urlencoding::encode`, the library function the builder
 * uses to put literal HTML into a `data:` URL.  That library's code is not part
 * of this model: the builder takes its encoder as a parameter.  This module
 * takes it to be the percent-encoding of section 2.1 of RFC 3986 that leaves only
 * the unreserved characters of section 2.3 as they are and writes upper-case
 * hexadecimal digits, and proves what the builder relies on: the encoding never
 * holds a NUL byte, and percent-decoding gives the markup back.
 */
module UrlEncoding {
  import opened Errors

  const PERCENT: byte := 37

  /** ALPHA / DIGIT / "-" / "." / "_" / "~" */
  predicate Unreserved(b: byte) {
    (65 <= b <= 90) || (97 <= b <= 122) || (48 <= b <= 57) || b == 45 || b == 46 || b == 95 || b == 126
  }

  function HexDigit(n: int): (d: byte)
    requires 0 <= n < 16
    ensures d != NUL && d != PERCENT
  {
    if n < 10 then (48 + n) as byte else (55 + n) as byte
  }

  /** The value of an upper- or lower-case hexadecimal digit. */
  function HexValue(d: byte): (r: Option<int>)
    ensures r.Some? ==> 0 <= r.value < 16
  {
    if 48 <= d <= 57 then Some(d as int - 48)
    else if 65 <= d <= 70 then Some(d as int - 55)
    else if 97 <= d <= 102 then Some(d as int - 87)
    else None
  }

  lemma HexValueOfDigit(n: int)
    requires 0 <= n < 16
    ensures HexValue(HexDigit(n)) == Some(n)
  {
  }

  function EncodeByte(b: byte): (r: Text)
    ensures Unreserved(b) ==> r == [b]
    ensures !Unreserved(b) ==> |r| == 3 && r[0] == PERCENT
  {
    if Unreserved(b) then [b] else [PERCENT, HexDigit(b as int / 16), HexDigit(b as int % 16)]
  }

  function Encode(s: Text): Text {
    if s == [] then [] else EncodeByte(s[0]) + Encode(s[1..])
  }

  /** Percent-decoding; `None` for a `%` that is not followed by two hexadecimal digits. */
  function Decode(s: Text): Option<Text>
    decreases |s|
  {
    if s == [] then Some([])
    else if s[0] != PERCENT then
      match Decode(s[1..])
      case None => None
      case Some(rest) => Some([s[0]] + rest)
    else if |s| < 3 then None
    else
      match (HexValue(s[1]), HexValue(s[2]), Decode(s[3..]))
      case (Some(hi), Some(lo), Some(rest)) => Some([(hi * 16 + lo) as byte] + rest)
      case _ => None
  }

  /** The encoding holds no NUL byte, so building a `data:` URL from it never fails on one. */
  lemma {:induction false} EncodeHasNoNul(s: Text)
    ensures !HasNul(Encode(s))
  {
    if s != [] {
      EncodeHasNoNul(s[1..]);
      assert !HasNul(EncodeByte(s[0]));
      assert Encode(s) == EncodeByte(s[0]) + Encode(s[1..]);
    }
  }

  /** Decoding undoes encoding. */
  lemma {:induction false} DecodeEncode(s: Text)
    ensures Decode(Encode(s)) == Some(s)
  {
    if s != [] {
      var b, rest := s[0], Encode(s[1..]);
      DecodeEncode(s[1..]);
      var e := EncodeByte(b) + rest;
      assert Encode(s) == e;
      if Unreserved(b) {
        assert e[0] == b && e[1..] == rest;
      } else {
        HexValueOfDigit(b as int / 16);
        HexValueOfDigit(b as int % 16);
        assert e[3..] == rest;
        assert (b as int / 16) * 16 + b as int % 16 == b as int;
      }
      assert s == [b] + s[1..];
    }
  }
}
