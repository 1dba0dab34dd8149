/**
 The base64url text encoding of section 5 of RFC 4648, with and without the padding of
 its section 3.2, and decodeB64, which reads both.
 */
module Base64 {
  import opened Wrappers

  type Byte = b: int | 0 <= b < 256

  type Digit = d: int | 0 <= d < 64

  function CharOf(d: Digit): char {
    if d < 26 then ('A' as int + d) as char
    else if d < 52 then ('a' as int + (d - 26)) as char
    else if d < 62 then ('0' as int + (d - 52)) as char
    else if d == 62 then '-'
    else '_'
  }

  predicate IsDigit(c: char) {
    'A' <= c <= 'Z' || 'a' <= c <= 'z' || '0' <= c <= '9' || c == '-' || c == '_'
  }

  function DigitOf(c: char): Digit
    requires IsDigit(c)
  {
    if 'A' <= c <= 'Z' then c as int - 'A' as int
    else if 'a' <= c <= 'z' then c as int - 'a' as int + 26
    else if '0' <= c <= '9' then c as int - '0' as int + 52
    else if c == '-' then 62
    else 63
  }

  lemma DigitRoundTrip(d: Digit)
    ensures IsDigit(CharOf(d)) && DigitOf(CharOf(d)) == d
  {
  }

  // ---------------------------------------------------------------- encoding

  /** The first n of the four digits of three bytes: six bits each. */
  function Digits(a: Byte, b: Byte, c: Byte, n: nat): string
    requires 2 <= n <= 4
  {
    [CharOf(a / 4), CharOf(a % 4 * 16 + b / 16)]
    + (if n > 2 then [CharOf(b % 16 * 4 + c / 64)] else [])
    + (if n > 3 then [CharOf(c % 64)] else [])
  }

  function Encode(bytes: seq<Byte>, padded: bool): string {
    if |bytes| == 0 then ""
    else if |bytes| == 1 then Digits(bytes[0], 0, 0, 2) + if padded then "==" else ""
    else if |bytes| == 2 then Digits(bytes[0], bytes[1], 0, 3) + if padded then "=" else ""
    else Digits(bytes[0], bytes[1], bytes[2], 4) + Encode(bytes[3..], padded)
  }

  // ---------------------------------------------------------------- decoding

  predicate AllDigits(s: string) {
    forall i :: 0 <= i < |s| ==> IsDigit(s[i])
  }

  /** The bytes of two, three or four digits. What is left over of the last digit is dropped. */
  function BytesOf(digits: string): (bytes: seq<Byte>)
    requires AllDigits(digits) && 2 <= |digits| <= 4
    ensures |bytes| == |digits| - 1
  {
    var d1 := DigitOf(digits[1]);
    [DigitOf(digits[0]) * 4 + d1 / 16]
    + (if |digits| > 2 then [d1 % 16 * 16 + DigitOf(digits[2]) / 4] else [])
    + (if |digits| > 3 then [DigitOf(digits[2]) % 4 * 64 + DigitOf(digits[3])] else [])
  }

  /** A decoder for text without line breaks: with padding it wants every group of four
      to be full, without padding it takes no "=". */
  function DecodeClean(s: string, padded: bool): Option<seq<Byte>> {
    if s == "" then Some([])
    else if |s| >= 4 && AllDigits(s[..4]) then
      (match DecodeClean(s[4..], padded)
       case None => None
       case Some(rest) => Some(BytesOf(s[..4]) + rest))
    else if padded && |s| == 4 && AllDigits(s[..3]) && s[3] == '=' then Some(BytesOf(s[..3]))
    else if padded && |s| == 4 && AllDigits(s[..2]) && s[2..] == "==" then Some(BytesOf(s[..2]))
    else if !padded && 2 <= |s| <= 3 && AllDigits(s) then Some(BytesOf(s))
    else None
  }

  /** Line breaks are skipped wherever they stand. */
  function WithoutBreaks(s: string): string {
    if s == "" then ""
    else (if s[0] == '\n' || s[0] == '\r' then "" else [s[0]]) + WithoutBreaks(s[1..])
  }

  function Decode(s: string, padded: bool): Option<seq<Byte>> {
    DecodeClean(WithoutBreaks(s), padded)
  }

  function DecodeB64(s: string): Option<seq<Byte>> {
    match Decode(s, true)
    case Some(bytes) => Some(bytes)
    case None => Decode(s, false)
  }

  // ------------------------------------------------------------- round trips

  /** Eight bits, cut between two digits, come back. */
  lemma FirstBits(a: Byte, b: Byte)
    ensures 0 <= a % 4 * 16 + b / 16 < 64 && a / 4 * 4 + (a % 4 * 16 + b / 16) / 16 == a
    ensures (a % 4 * 16 + b / 16) % 16 == b / 16
  {
  }

  lemma MiddleBits(b: Byte, c: Byte)
    ensures 0 <= b % 16 * 4 + c / 64 < 64 && b / 16 * 16 + (b % 16 * 4 + c / 64) / 4 == b
    ensures (b % 16 * 4 + c / 64) % 4 * 64 + c % 64 == c
  {
  }

  lemma GroupDigits(a: Byte, b: Byte, c: Byte, n: nat)
    requires 2 <= n <= 4
    ensures
      var s := Digits(a, b, c, n);
      && |s| == n && AllDigits(s) && DigitOf(s[0]) == a / 4 && DigitOf(s[1]) == a % 4 * 16 + b / 16
      && (n > 2 ==> DigitOf(s[2]) == b % 16 * 4 + c / 64) && (n > 3 ==> DigitOf(s[3]) == c % 64)
  {
    FirstBits(a, b);
    MiddleBits(b, c);
    DigitRoundTrip(a / 4);
    DigitRoundTrip(a % 4 * 16 + b / 16);
    DigitRoundTrip(b % 16 * 4 + c / 64);
    DigitRoundTrip(c % 64);
  }

  lemma GroupRoundTrip(a: Byte, b: Byte, c: Byte, n: nat)
    requires 2 <= n <= 4 && (n < 4 ==> c == 0) && (n < 3 ==> b == 0)
    ensures
      var s := Digits(a, b, c, n);
      |s| == n && AllDigits(s) && BytesOf(s) == [a, b, c][..n - 1]
  {
    GroupDigits(a, b, c, n);
    FirstBits(a, b);
    MiddleBits(b, c);
  }

  predicate Clean(s: string) {
    forall i :: 0 <= i < |s| ==> IsDigit(s[i]) || s[i] == '='
  }

  lemma {:induction false} CleanStays(s: string)
    requires Clean(s)
    ensures WithoutBreaks(s) == s
  {
    if s != "" {
      CleanStays(s[1..]);
    }
  }

  lemma {:induction false} EncodedIsClean(bytes: seq<Byte>, padded: bool)
    ensures Clean(Encode(bytes, padded))
  {
    if |bytes| == 1 {
      GroupRoundTrip(bytes[0], 0, 0, 2);
    } else if |bytes| == 2 {
      GroupRoundTrip(bytes[0], bytes[1], 0, 3);
    } else if |bytes| > 2 {
      GroupRoundTrip(bytes[0], bytes[1], bytes[2], 4);
      EncodedIsClean(bytes[3..], padded);
    }
  }

  lemma DecodesFull(s: string, rest: string, padded: bool)
    requires |s| == 4 && AllDigits(s)
    ensures DecodeClean(s + rest, padded) ==
            match DecodeClean(rest, padded) case None => None case Some(bytes) => Some(BytesOf(s) + bytes)
  {
  }

  /** The last group, with its padding or without. */
  lemma DecodesLast(s: string)
    requires 2 <= |s| <= 3 && AllDigits(s)
    ensures DecodeClean(s, false) == Some(BytesOf(s)) && DecodeClean(s, true) == None
    ensures DecodeClean(s + if |s| == 2 then "==" else "=", true) == Some(BytesOf(s))
  {
  }

  lemma LastRoundTrip(bytes: seq<Byte>, padded: bool)
    requires 1 <= |bytes| <= 2
    ensures DecodeClean(Encode(bytes, padded), padded) == Some(bytes)
    ensures DecodeClean(Encode(bytes, false), true) == None
  {
    var b := if |bytes| == 2 then bytes[1] else 0;
    var s := Digits(bytes[0], b, 0, |bytes| + 1);
    GroupRoundTrip(bytes[0], b, 0, |bytes| + 1);
    DecodesLast(s);
    assert s + "" == s && bytes == [bytes[0], b, 0][..|bytes|];
  }

  lemma FirstRoundTrip(bytes: seq<Byte>, padded: bool, decoder: bool)
    requires |bytes| > 2
    ensures
      DecodeClean(Encode(bytes, padded), decoder) ==
      match DecodeClean(Encode(bytes[3..], padded), decoder)
      case None => None
      case Some(rest) => Some(bytes[..3] + rest)
  {
    GroupRoundTrip(bytes[0], bytes[1], bytes[2], 4);
    DecodesFull(Digits(bytes[0], bytes[1], bytes[2], 4), Encode(bytes[3..], padded), decoder);
    assert bytes[..3] == [bytes[0], bytes[1], bytes[2]][..3];
  }

  /** Each decoder reads its own encoding. */
  lemma {:induction false} CleanRoundTrip(bytes: seq<Byte>, padded: bool)
    ensures DecodeClean(Encode(bytes, padded), padded) == Some(bytes)
  {
    if 1 <= |bytes| <= 2 {
      LastRoundTrip(bytes, padded);
    } else if |bytes| > 2 {
      CleanRoundTrip(bytes[3..], padded);
      FirstRoundTrip(bytes, padded, padded);
      assert bytes == bytes[..3] + bytes[3..];
    }
  }

  /** The bytes come in full groups of three. */
  predicate Full(bytes: seq<Byte>) {
    |bytes| == 0 || (|bytes| > 2 && Full(bytes[3..]))
  }

  /** The padded decoder refuses an unpadded text, unless the bytes fill their groups. */
  lemma {:induction false} UnpaddedAsPadded(bytes: seq<Byte>)
    ensures DecodeClean(Encode(bytes, false), true) == if Full(bytes) then Some(bytes) else None
  {
    if 1 <= |bytes| <= 2 {
      LastRoundTrip(bytes, false);
    } else if |bytes| > 2 {
      UnpaddedAsPadded(bytes[3..]);
      FirstRoundTrip(bytes, false, true);
      assert bytes == bytes[..3] + bytes[3..];
    }
  }

  /** decodeB64 reads both encodings of every byte string. */
  lemma DecodesBoth(bytes: seq<Byte>, padded: bool)
    ensures DecodeB64(Encode(bytes, padded)) == Some(bytes)
  {
    EncodedIsClean(bytes, padded);
    CleanStays(Encode(bytes, padded));
    CleanRoundTrip(bytes, padded);
    UnpaddedAsPadded(bytes);
  }
}
