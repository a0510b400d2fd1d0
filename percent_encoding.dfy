/**
 * Percent-encoding of one string as PHP's rawurlencode performs it
 * (section 2.1 of RFC 3986): every character outside the unreserved set of
 * section 2.3 becomes '%' followed by two upper-case hexadecimal digits.
 * A PHP string is a byte string; here each character stands for one byte,
 * and a character above 255 is passed through unchanged.
 */
module PercentEncoding {

  /** The unreserved characters of section 2.3 of RFC 3986. */
  predicate IsUnreserved(c: char) {
    ('A' <= c <= 'Z') || ('a' <= c <= 'z') || ('0' <= c <= '9')
    || c == '-' || c == '.' || c == '_' || c == '~'
  }

  /** Characters that stand for a single byte. */
  predicate IsByte(c: char) {
    (c as int) < 256
  }

  function HexDigit(d: nat): (c: char)
    requires d < 16
    ensures IsHex(c) && HexValue(c) == d
  {
    if d < 10 then ('0' as int + d) as char else ('A' as int + d - 10) as char
  }

  predicate IsHex(c: char) {
    ('0' <= c <= '9') || ('A' <= c <= 'F') || ('a' <= c <= 'f')
  }

  function HexValue(c: char): (v: nat)
    requires IsHex(c)
    ensures v < 16
  {
    if '0' <= c <= '9' then (c as int - '0' as int)
    else if 'A' <= c <= 'F' then (c as int - 'A' as int + 10)
    else (c as int - 'a' as int + 10)
  }

  /** The encoding of one character. */
  function EncodeChar(c: char): (r: string)
    ensures IsUnreserved(c) || !IsByte(c) ==> r == [c]
    ensures IsByte(c) && !IsUnreserved(c) ==>
      |r| == 3 && r[0] == '%' && IsHex(r[1]) && IsHex(r[2])
      && HexValue(r[1]) * 16 + HexValue(r[2]) == c as int
  {
    if IsUnreserved(c) || !IsByte(c) then [c]
    else ['%', HexDigit((c as int) / 16), HexDigit((c as int) % 16)]
  }

  /** rawurlencode */
  function Encode(s: string): (r: string)
  {
    if s == [] then [] else EncodeChar(s[0]) + Encode(s[1..])
  }

  /** rawurldecode: a '%' followed by two hexadecimal digits is one byte; every other character stands for itself. */
  function Decode(s: string): (r: string)
  {
    if s == [] then []
    else if s[0] == '%' && |s| >= 3 && IsHex(s[1]) && IsHex(s[2])
    then [(HexValue(s[1]) * 16 + HexValue(s[2])) as char] + Decode(s[3..])
    else [s[0]] + Decode(s[1..])
  }

  /** An encoded string holds unreserved characters, '%' and wide characters only. */
  lemma {:induction false} EncodedAlphabet(s: string)
    ensures forall i :: 0 <= i < |Encode(s)| ==>
      IsUnreserved(Encode(s)[i]) || Encode(s)[i] == '%' || !IsByte(Encode(s)[i])
  {
    if s != [] {
      EncodedAlphabet(s[1..]);
      var e := EncodeChar(s[0]);
      assert Encode(s) == e + Encode(s[1..]);
      forall i | 0 <= i < |Encode(s)|
        ensures IsUnreserved(Encode(s)[i]) || Encode(s)[i] == '%' || !IsByte(Encode(s)[i])
      {
        if i >= |e| {
          assert Encode(s)[i] == Encode(s[1..])[i - |e|];
        }
      }
    }
  }

  /** In particular, an encoded string never holds a reserved delimiter. */
  lemma EncodedHasNo(s: string, d: char)
    requires IsByte(d) && !IsUnreserved(d) && d != '%'
    ensures d !in Encode(s)
  {
    EncodedAlphabet(s);
  }

  /** Decoding undoes the encoding of one character in front of anything. */
  lemma DecodeEncodeChar(c: char, t: string)
    ensures Decode(EncodeChar(c) + t) == [c] + Decode(t)
  {
    var e := EncodeChar(c);
    if IsUnreserved(c) || !IsByte(c) {
      assert (e + t)[1..] == t;
    } else {
      assert (e + t)[3..] == t;
      assert (e + t)[0] == '%' && (e + t)[1] == e[1] && (e + t)[2] == e[2];
    }
  }

  /** rawurldecode(rawurlencode(s)) == s. */
  lemma {:induction false} DecodeEncode(s: string)
    ensures Decode(Encode(s)) == s
  {
    if s != [] {
      DecodeEncodeChar(s[0], Encode(s[1..]));
      DecodeEncode(s[1..]);
    }
  }

  /** The encoding of an unreserved string is the string itself. */
  lemma {:induction false} EncodeUnreserved(s: string)
    requires forall i :: 0 <= i < |s| ==> IsUnreserved(s[i])
    ensures Encode(s) == s
  {
    if s != [] {
      EncodeUnreserved(s[1..]);
    }
  }

  /** The encodings the tests pin: '?' is %3F and '=' is %3D. */
  lemma EncodeQuestionAndEquals()
    ensures Encode("?") == "%3F"
    ensures Encode("=") == "%3D"
  {
    assert Encode("?") == EncodeChar('?') + Encode([]);
    assert Encode("=") == EncodeChar('=') + Encode([]);
  }
}
