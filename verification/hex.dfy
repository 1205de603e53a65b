/** `const_hex` encoding as the EVM address code uses it: `encode` writes lower-case
    digits, `decode` strips an optional `0x` and accepts either case. */
module Hex {
  import opened Wrappers
  import opened Text

  /** The lower-case digit for a nibble value. */
  function HexChar(d: nat): (c: char)
    requires d < 16
  {
    if d < 10 then ('0' as int + d) as char else ('a' as int + d - 10) as char
  }

  datatype HexError = OddLength | InvalidHexCharacter(c: char, index: nat)

  /** `{:?}` of a `char`: the character in single quotes, with Rust's short escapes. */
  function CharDebug(c: char): (r: string)
    ensures |r| >= 3 && r[0] == '\'' && r[|r| - 1] == '\''
  {
    var body := if c == '\'' then "\\'" else if c == '\\' then "\\\\"
                else if c == '\n' then "\\n" else if c == '\r' then "\\r"
                else if c == '\t' then "\\t" else if c == '\0' then "\\0"
                else [c];
    "'" + body + "'"
  }

  /** The `Display` text of `const_hex`'s `FromHexError`. */
  function ErrorText(e: HexError): string {
    match e
    case OddLength => "odd number of digits"
    case InvalidHexCharacter(c, index) => "invalid character " + CharDebug(c) + " at position " + NatToString(index)
  }

  function DigitValue(c: char): (r: Option<nat>)
    ensures r.Some? ==> r.value < 16
  {
    if '0' <= c <= '9' then Some(c as int - '0' as int)
    else if 'a' <= c <= 'f' then Some(c as int - 'a' as int + 10)
    else if 'A' <= c <= 'F' then Some(c as int - 'A' as int + 10)
    else None
  }

  /** `const_hex::encode`: two lower-case digits per byte, high nibble first. */
  function Encode(bytes: seq<byte>): (r: string)
    ensures |r| == 2 * |bytes|
  {
    if |bytes| == 0 then ""
    else [HexChar(bytes[0] / 16), HexChar(bytes[0] % 16)] + Encode(bytes[1..])
  }

  /** Every character `encode` writes is a lower-case hex digit. */
  lemma {:induction false} EncodeDigits(bytes: seq<byte>)
    ensures forall i :: 0 <= i < |Encode(bytes)| ==> DigitValue(Encode(bytes)[i]).Some? && !('A' <= Encode(bytes)[i] <= 'Z')
    decreases |bytes|
  {
    if |bytes| > 0 {
      var e := Encode(bytes);
      EncodeHead(bytes);
      EncodeDigits(bytes[1..]);
      DigitValueOfHexChar(bytes[0] / 16);
      DigitValueOfHexChar(bytes[0] % 16);
      assert forall i :: 2 <= i < |e| ==> e[i] == Encode(bytes[1..])[i - 2];
    }
  }

  function DecodeDigits(s: string, offset: nat): Result<seq<byte>, HexError>
    requires |s| % 2 == 0
    decreases |s|
  {
    if |s| == 0 then Ok([])
    else match (DigitValue(s[0]), DigitValue(s[1]))
      case (None, _) => Err(InvalidHexCharacter(s[0], offset))
      case (_, None) => Err(InvalidHexCharacter(s[1], offset + 1))
      case (Some(hi), Some(lo)) =>
        var rest :- DecodeDigits(s[2..], offset + 2);
        Ok([hi * 16 + lo] + rest)
  }

  /** `const_hex::decode`. */
  function Decode(input: string): (r: Result<seq<byte>, HexError>)
    ensures r.Ok? ==> 2 * |r.value| == |input| || 2 * |r.value| + 2 == |input|
  {
    var s := if |input| >= 2 && input[..2] == "0x" then input[2..] else input;
    if |s| % 2 != 0 then Err(OddLength) else DecodeDigitsLength(s, 0); DecodeDigits(s, 0)
  }

  lemma {:induction false} DecodeDigitsLength(s: string, offset: nat)
    requires |s| % 2 == 0
    ensures DecodeDigits(s, offset).Ok? ==> 2 * |DecodeDigits(s, offset).value| == |s|
    decreases |s|
  {
    if |s| > 0 {
      DecodeDigitsLength(s[2..], offset + 2);
    }
  }

  /** Each digit reads back as the nibble it was written for. */
  lemma {:induction false} DigitValueOfHexChar(d: nat)
    requires d < 16
    ensures DigitValue(HexChar(d)) == Some(d)
  {
  }

  /** A byte is its high nibble times sixteen plus its low nibble. */
  lemma {:induction false} NibblesOfByte(b: byte)
    ensures b / 16 < 16 && b % 16 < 16 && (b / 16) * 16 + b % 16 == b
  {
  }

  lemma {:induction false} DecodeDigitsEncode(bytes: seq<byte>, offset: nat)
    ensures DecodeDigits(Encode(bytes), offset) == Ok(bytes)
    decreases |bytes|
  {
    if |bytes| > 0 {
      var s := Encode(bytes);
      EncodeHead(bytes);
      DecodeDigitsEncode(bytes[1..], offset + 2);
      DecodeDigitsCons(s, bytes[0], bytes[1..], offset);
      assert [bytes[0]] + bytes[1..] == bytes;
    }
  }

  /** The encoding starts with the two digits of the first byte. */
  lemma {:induction false} EncodeHead(bytes: seq<byte>)
    requires |bytes| > 0
    ensures var s := Encode(bytes);
            && s[0] == HexChar(bytes[0] / 16) && s[1] == HexChar(bytes[0] % 16) && s[2..] == Encode(bytes[1..])
  {
  }

  /** The two digits of a byte in front of decodable text decode to one more byte. */
  lemma {:induction false} DecodeDigitsCons(s: string, b: byte, rest: seq<byte>, offset: nat)
    requires |s| >= 2 && |s| % 2 == 0 && s[0] == HexChar(b / 16) && s[1] == HexChar(b % 16)
    requires DecodeDigits(s[2..], offset + 2) == Ok(rest)
    ensures DecodeDigits(s, offset) == Ok([b] + rest)
  {
    NibblesOfByte(b);
    DigitValueOfHexChar(b / 16);
    DigitValueOfHexChar(b % 16);
  }

  /** Input without the `0x` prefix is decoded as a whole. */
  lemma {:induction false} DecodeUnprefixed(s: string, bytes: seq<byte>)
    requires |s| % 2 == 0 && !(|s| >= 2 && s[..2] == "0x")
    requires DecodeDigits(s, 0) == Ok(bytes)
    ensures Decode(s) == Ok(bytes)
  {
  }

  /** Input with the `0x` prefix is decoded after it. */
  lemma {:induction false} DecodePrefixed(s: string, bytes: seq<byte>)
    requires |s| % 2 == 0
    requires DecodeDigits(s, 0) == Ok(bytes)
    ensures Decode("0x" + s) == Ok(bytes)
  {
    var p := "0x" + s;
    assert p[..2] == "0x";
    assert p[2..] == s;
  }

  /** What `encode` writes never starts with `0x`: its second character is a digit. */
  lemma {:induction false} EncodeUnprefixed(bytes: seq<byte>)
    ensures !(|Encode(bytes)| >= 2 && Encode(bytes)[..2] == "0x")
  {
    var e := Encode(bytes);
    EncodeDigits(bytes);
    if |e| >= 2 {
      assert DigitValue(e[1]).Some?;
      assert e[..2][1] == e[1];
    }
  }

  /** Decoding what `encode` wrote, with or without `0x`, gives the bytes back. */
  lemma {:induction false} DecodeEncode(bytes: seq<byte>)
    ensures Decode(Encode(bytes)) == Ok(bytes)
    ensures Decode("0x" + Encode(bytes)) == Ok(bytes)
  {
    var e := Encode(bytes);
    DecodeDigitsEncode(bytes, 0);
    EncodeUnprefixed(bytes);
    DecodeUnprefixed(e, bytes);
    DecodePrefixed(e, bytes);
  }
}
