/** An EVM address: exactly twenty bytes. */
module EvmAddress {
  import opened Wrappers
  import opened Text
  import opened Keys
  import opened AddressErrors
  import Hex

  type Bytes20 = s: seq<byte> | |s| == 20 witness seq(20, _ => 0)

  datatype EvmAddr = EvmAddr(bytes: Bytes20)

  /** The message of a wrong-length byte vector. */
  function LengthError(len: nat): string {
    "Invalid length for EVM address: expected 20 bytes, got " + NatToString(len)
  }

  /** `EvmAddr::new_vec`: any vector of exactly twenty bytes. */
  function NewVec(bytes: seq<byte>): (r: Result<EvmAddr, AddressError>)
    ensures r.Ok? <==> |bytes| == 20
    ensures r.Ok? ==> r.value.bytes == bytes
    ensures r.Err? ==> r.error.InvalidFormat?
    ensures |bytes| != 20 ==> r == Err(InvalidFormat(LengthError(|bytes|)))
  {
    if |bytes| != 20 then Err(InvalidFormat(LengthError(|bytes|)))
    else Ok(EvmAddr(bytes))
  }

  /** `EvmAddr::new_pub_key`: EVM addresses cannot be derived from a key here. */
  function NewPubKey(pk: PublicKey): (r: Result<EvmAddr, AddressError>)
    ensures r == Err(UnsupportedPubKey)
  {
    Err(UnsupportedPubKey)
  }

  /** `EvmAddr::new_str`: trim, hex-decode (optional `0x`), then `new_vec`. */
  function NewStr(s: string): (r: Result<EvmAddr, AddressError>)
    ensures r.Ok? <==> Hex.Decode(Trim(s)).Ok? && |Hex.Decode(Trim(s)).value| == 20
    ensures r.Ok? ==> r.value.bytes == Hex.Decode(Trim(s)).value
    ensures r.Err? ==> r.error.InvalidFormat?
    ensures Hex.Decode(Trim(s)).Err? ==>
              r == Err(InvalidFormat("invalid hex: " + Hex.ErrorText(Hex.Decode(Trim(s)).error)))
    ensures Hex.Decode(Trim(s)).Ok? && |Hex.Decode(Trim(s)).value| != 20 ==>
              r == Err(InvalidFormat(LengthError(|Hex.Decode(Trim(s)).value|)))
  {
    match Hex.Decode(Trim(s))
    case Err(e) => Err(InvalidFormat("invalid hex: " + Hex.ErrorText(e)))
    case Ok(decoded) => NewVec(decoded)
  }

  /** The `Display` impl: `0x` and forty lower-case hex digits. */
  function Display(a: EvmAddr): (r: string)
    ensures |r| == 42 && r[..2] == "0x"
  {
    "0x" + Hex.Encode(a.bytes)
  }

  function FromStr(s: string): Result<EvmAddr, AddressError> {
    NewStr(s)
  }

  /** Serialising (`to_string`) and deserialising (`parse`) are inverse. */
  lemma {:induction false} FromStrDisplay(a: EvmAddr)
    ensures FromStr(Display(a)) == Ok(a)
  {
    var s := Display(a);
    Hex.DecodeEncode(a.bytes);
    assert !IsWhiteSpace(s[0]);
    var e := Hex.Encode(a.bytes);
    Hex.EncodeDigits(a.bytes);
    assert Hex.DigitValue(e[|e| - 1]).Some?;
    assert s[|s| - 1] == e[|e| - 1];
    assert !IsWhiteSpace(s[|s| - 1]);
    assert TrimStart(s) == s;
    assert TrimEnd(s) == s;
  }
}
