/** Stand-in for the `subtle_encoding::bech32` codec, which is not part of this model.
    It keeps the structure the address code relies on: a human-readable part (hrp),
    the separator `1` found as the LAST `1` of the string, and a data part drawn from
    the bech32 alphabet, which has no `1` in it. Each byte is written as two alphabet
    characters (high nibble, low nibble); the BIP-173 checksum and 5-bit regrouping are
    not modelled. `decode` reads lower-case data, `decode_upper` upper-case data; both
    return the hrp lower-cased, since the hrp is case-insensitive in BIP-173. */
module Bech32 {
  import opened Wrappers
  import opened Text

  const SEPARATOR: char := '1'

  /** Sixteen characters of the bech32 alphabet, one per nibble value, in lower case: the
      digits `2` to `9`, then the letters `p` to `w`. */
  function LowerChar(d: nat): (c: char)
    requires d < 16
    ensures c != SEPARATOR && !('A' <= c <= 'Z')
  {
    if d < 8 then ('2' as int + d) as char else ('p' as int + d - 8) as char
  }

  function LowerValue(c: char): (r: Option<nat>)
    ensures r.Some? ==> r.value < 16
  {
    if '2' <= c <= '9' then Some(c as int - '2' as int)
    else if 'p' <= c <= 'w' then Some(c as int - 'p' as int + 8)
    else None
  }

  /** The alphabet character in the case the variant reads. */
  function AlphabetValue(c: char, upper: bool): Option<nat> {
    if upper then (if 'A' <= c <= 'Z' then LowerValue((c as int + 32) as char) else if 'a' <= c <= 'z' then None else LowerValue(c))
    else LowerValue(c)
  }

  /** Reading a character and writing its value gives the character back. */
  lemma {:induction false} LowerCharOfValue(c: char)
    requires LowerValue(c).Some?
    ensures LowerChar(LowerValue(c).value) == c
  {
  }

  /** Writing a value and reading the character gives the value back. */
  lemma {:induction false} LowerValueOfChar(d: nat)
    requires d < 16
    ensures LowerValue(LowerChar(d)) == Some(d)
  {
  }

  function EncodeData(data: seq<byte>): (r: string)
    ensures |r| == 2 * |data|
    ensures SEPARATOR !in r && NoUpperAscii(r)
  {
    if |data| == 0 then ""
    else [LowerChar(data[0] / 16), LowerChar(data[0] % 16)] + EncodeData(data[1..])
  }

  function DecodeData(s: string, upper: bool): Option<seq<byte>>
    decreases |s|
  {
    if |s| == 0 then Some([])
    else if |s| == 1 then None
    else
      var hi :- AlphabetValue(s[0], upper);
      var lo :- AlphabetValue(s[1], upper);
      var rest :- DecodeData(s[2..], upper);
      Some([hi * 16 + lo] + rest)
  }

  /** A byte is its high nibble times sixteen plus its low nibble. */
  lemma {:induction false} NibblesOfByte(b: byte)
    ensures b / 16 < 16 && b % 16 < 16 && (b / 16) * 16 + b % 16 == b
  {
  }

  lemma {:induction false} DecodeEncodeData(data: seq<byte>)
    ensures DecodeData(EncodeData(data), false) == Some(data)
    decreases |data|
  {
    if |data| > 0 {
      var s := EncodeData(data);
      EncodeDataHead(data);
      DecodeEncodeData(data[1..]);
      DecodeDataCons(s, data[0], data[1..]);
      assert [data[0]] + data[1..] == data;
    }
  }

  /** The encoding starts with the two characters of the first byte. */
  lemma {:induction false} EncodeDataHead(data: seq<byte>)
    requires |data| > 0
    ensures var s := EncodeData(data);
            && s[0] == LowerChar(data[0] / 16) && s[1] == LowerChar(data[0] % 16) && s[2..] == EncodeData(data[1..])
  {
  }

  /** The two characters of a byte in front of decodable text decode to one more byte. */
  lemma {:induction false} DecodeDataCons(s: string, b: byte, rest: seq<byte>)
    requires |s| >= 2 && s[0] == LowerChar(b / 16) && s[1] == LowerChar(b % 16)
    requires DecodeData(s[2..], false) == Some(rest)
    ensures DecodeData(s, false) == Some([b] + rest)
  {
    NibblesOfByte(b);
    LowerValueOfChar(b / 16);
    LowerValueOfChar(b % 16);
  }

  /** Two alphabet characters read as a byte are written back as the same two characters. */
  lemma {:induction false} NibblesOfChars(c0: char, c1: char)
    requires LowerValue(c0).Some? && LowerValue(c1).Some?
    ensures var b := LowerValue(c0).value * 16 + LowerValue(c1).value;
            0 <= b < 256 && LowerChar(b / 16) == c0 && LowerChar(b % 16) == c1
  {
    var hi, lo := LowerValue(c0).value, LowerValue(c1).value;
    LowerCharOfValue(c0);
    LowerCharOfValue(c1);
    var b := hi * 16 + lo;
    assert b / 16 == hi && b % 16 == lo;
  }

  /** One step of decoding: the first two characters give the first byte, whose encoding
      they are, and the rest decodes to the remaining bytes. */
  lemma {:induction false} DecodeDataStep(s: string)
    requires DecodeData(s, false).Some? && |s| > 0
    ensures var data := DecodeData(s, false).value;
            && |s| >= 2 && |data| >= 1 && DecodeData(s[2..], false) == Some(data[1..])
            && [LowerChar(data[0] / 16), LowerChar(data[0] % 16)] == s[..2]
  {
    var data := DecodeData(s, false).value;
    NibblesOfChars(s[0], s[1]);
    assert data[1..] == DecodeData(s[2..], false).value;
  }

  lemma {:induction false} EncodeDecodeData(s: string, data: seq<byte>)
    requires DecodeData(s, false) == Some(data)
    ensures EncodeData(data) == s
    decreases |s|
  {
    if |s| > 0 {
      DecodeDataStep(s);
      EncodeDecodeData(s[2..], data[1..]);
      EncodeDataCons(data, s[..2], s[2..]);
      assert s == s[..2] + s[2..];
    }
  }

  /** The encoding of a byte followed by the encoding of the rest. */
  lemma {:induction false} EncodeDataCons(data: seq<byte>, first: string, rest: string)
    requires |data| > 0
    requires [LowerChar(data[0] / 16), LowerChar(data[0] % 16)] == first && EncodeData(data[1..]) == rest
    ensures EncodeData(data) == first + rest
  {
  }

  /** Position of the last occurrence of `c` (Rust's `rfind`). */
  function RFind(s: string, c: char): (r: Option<nat>)
    ensures r.Some? ==> r.value < |s| && s[r.value] == c && c !in s[r.value + 1..]
    ensures r.None? ==> c !in s
    decreases |s|
  {
    if |s| == 0 then None
    else if s[|s| - 1] == c then Some(|s| - 1)
    else
      var r := RFind(s[..|s| - 1], c);
      assert s == s[..|s| - 1] + [s[|s| - 1]];
      r
  }

  /** Characters BIP-173 allows in the hrp: printable ASCII 33..126. */
  predicate ValidHrp(hrp: string) {
    |hrp| >= 1 && forall i :: 0 <= i < |hrp| ==> 33 <= hrp[i] as int <= 126
  }

  predicate NoUpperAscii(s: string) {
    forall i :: 0 <= i < |s| ==> !('A' <= s[i] <= 'Z')
  }

  /** `bech32::encode(hrp, data)`. */
  function Encode(hrp: string, data: seq<byte>): string {
    hrp + [SEPARATOR] + EncodeData(data)
  }

  datatype DecodedAddress = DecodedAddress(hrp: string, data: seq<byte>)

  function DecodeWith(s: string, upper: bool): Result<DecodedAddress, string> {
    match RFind(s, SEPARATOR)
    case None => Err("encoding invalid: no separator")
    case Some(pos) =>
      var hrp := ToLowerAscii(s[..pos]);
      if !ValidHrp(hrp) then Err("encoding invalid: human-readable part")
      else match DecodeData(s[pos + 1..], upper)
        case None => Err("encoding invalid: data")
        case Some(data) => Ok(DecodedAddress(hrp, data))
  }

  /** `bech32::decode`. */
  function Decode(s: string): Result<DecodedAddress, string> {
    DecodeWith(s, false)
  }

  /** `bech32::decode_upper`. */
  function DecodeUpper(s: string): Result<DecodedAddress, string> {
    DecodeWith(s, true)
  }

  lemma {:induction false} ToLowerAsciiIdentity(s: string)
    requires NoUpperAscii(s)
    ensures ToLowerAscii(s) == s
  {
  }

  /** What a successful `decode` read: the hrp before the last separator, lower-cased, and
      the data after it. */
  lemma {:induction false} DecodeParts(s: string)
    requires Decode(s).Ok?
    ensures RFind(s, SEPARATOR).Some?
    ensures var pos := RFind(s, SEPARATOR).value;
            && Decode(s).value.hrp == ToLowerAscii(s[..pos])
            && DecodeData(s[pos + 1..], false) == Some(Decode(s).value.data)
  {
  }

  /** `decode` of a string with its last separator at `pos`, whose hrp is valid as written. */
  lemma {:induction false} DecodeAt(s: string, pos: nat, data: seq<byte>)
    requires RFind(s, SEPARATOR) == Some(pos)
    requires ValidHrp(s[..pos]) && NoUpperAscii(s[..pos])
    requires DecodeData(s[pos + 1..], false) == Some(data)
    ensures Decode(s) == Ok(DecodedAddress(s[..pos], data))
  {
    ToLowerAsciiIdentity(s[..pos]);
  }

  /** Decoding an encoded address gives back its hrp and data. */
  lemma {:induction false} DecodeEncode(hrp: string, data: seq<byte>)
    requires ValidHrp(hrp) && NoUpperAscii(hrp)
    ensures Decode(Encode(hrp, data)) == Ok(DecodedAddress(hrp, data))
  {
    EncodeLayout(hrp, data);
    DecodeEncodeData(data);
    DecodeAt(Encode(hrp, data), |hrp|, data);
  }

  /** Where the parts of an encoded address lie: the separator written is the last one. */
  lemma {:induction false} EncodeLayout(hrp: string, data: seq<byte>)
    ensures var s := Encode(hrp, data);
            && RFind(s, SEPARATOR) == Some(|hrp|)
            && s[..|hrp|] == hrp && s[|hrp| + 1..] == EncodeData(data)
  {
    var e := EncodeData(data);
    var s := Encode(hrp, data);
    assert s == (hrp + [SEPARATOR]) + e;
    RFindAfterFree(hrp + [SEPARATOR], e);
  }

  /** The last separator of a string whose tail has none is the last one of its head. */
  lemma {:induction false} RFindAfterFree(head: string, tail: string)
    requires |head| > 0 && head[|head| - 1] == SEPARATOR && SEPARATOR !in tail
    ensures RFind(head + tail, SEPARATOR) == Some(|head| - 1)
  {
    var s := head + tail;
    RFindAtLeast(s, |head| - 1, SEPARATOR);
    assert forall k :: |head| <= k < |s| ==> s[k] == tail[k - |head|];
  }

  /** The last occurrence of a character is at or after any occurrence of it. */
  lemma {:induction false} RFindAtLeast(s: string, p: nat, c: char)
    requires p < |s| && s[p] == c
    ensures RFind(s, c).Some? && RFind(s, c).value >= p
    decreases |s|
  {
    if s[|s| - 1] != c {
      assert s[..|s| - 1][p] == c;
      RFindAtLeast(s[..|s| - 1], p, c);
    }
  }

  /** A lower-case string that decodes is exactly the encoding of what it decodes to. */
  lemma {:induction false} EncodeDecode(s: string)
    requires NoUpperAscii(s) && Decode(s).Ok?
    ensures Encode(Decode(s).value.hrp, Decode(s).value.data) == s
  {
    DecodeParts(s);
    ReassembleAt(s, RFind(s, SEPARATOR).value, Decode(s).value.hrp, Decode(s).value.data);
  }

  /** A lower-case string is its lower-cased part before a separator, the separator, and the
      encoding of what the part after it decodes to. */
  lemma {:induction false} ReassembleAt(s: string, pos: nat, hrp: string, data: seq<byte>)
    requires pos < |s| && s[pos] == SEPARATOR && NoUpperAscii(s)
    requires hrp == ToLowerAscii(s[..pos]) && DecodeData(s[pos + 1..], false) == Some(data)
    ensures Encode(hrp, data) == s
  {
    NoUpperPrefix(s, pos);
    ToLowerAsciiIdentity(s[..pos]);
    EncodeDecodeData(s[pos + 1..], data);
    SplitAround(s, pos);
  }

  lemma {:induction false} NoUpperPrefix(s: string, pos: nat)
    requires pos <= |s| && NoUpperAscii(s)
    ensures NoUpperAscii(s[..pos])
  {
    assert forall i :: 0 <= i < pos ==> s[..pos][i] == s[i];
  }

  lemma {:induction false} SplitAround(s: string, pos: nat)
    requires pos < |s| && s[pos] == SEPARATOR
    ensures s[..pos] + [SEPARATOR] + s[pos + 1..] == s
  {
  }
}
