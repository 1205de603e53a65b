/** The protobuf encoding of a message whose only field is `bytes key = 1`
    (`cosmos.crypto.ed25519.PubKey`, `cosmos.crypto.secp256k1.PubKey`), as prost writes it. */
module Protobuf {
  import opened Wrappers
  import opened Text

  /** Base-128 varint, least significant group first. */
  function Varint(n: nat): (r: seq<byte>)
    ensures |r| >= 1
    decreases n
  {
    if n < 128 then [n] else [128 + n % 128] + Varint(n / 128)
  }

  datatype Decoded = Decoded(value: nat, used: nat)

  function DecodeVarint(s: seq<byte>): (r: Option<Decoded>)
    ensures r.Some? ==> 1 <= r.value.used <= |s|
    decreases |s|
  {
    if |s| == 0 then None
    else if s[0] < 128 then Some(Decoded(s[0], 1))
    else match DecodeVarint(s[1..])
      case None => None
      case Some(d) => Some(Decoded(s[0] - 128 + 128 * d.value, d.used + 1))
  }

  lemma {:induction false} DecodeVarintPrefix(n: nat, rest: seq<byte>)
    ensures DecodeVarint(Varint(n) + rest) == Some(Decoded(n, |Varint(n)|))
    decreases n
  {
    if n >= 128 {
      var s := Varint(n) + rest;
      assert s[0] == 128 + n % 128;
      assert s[1..] == Varint(n / 128) + rest;
      DecodeVarintPrefix(n / 128, rest);
    }
  }

  const KEY_TAG: byte := 0x0A

  /** prost's encoding of `{ key }`: nothing for an empty key (the proto3 default), else
      the tag of field 1 with wire type 2, the length, the bytes. */
  function EncodeKeyMessage(key: seq<byte>): (r: seq<byte>)
    ensures |key| == 0 <==> |r| == 0
  {
    if |key| == 0 then [] else [KEY_TAG] + Varint(|key|) + key
  }

  function DecodeKeyMessage(s: seq<byte>): Option<seq<byte>> {
    if |s| == 0 then Some([])
    else if s[0] != KEY_TAG then None
    else match DecodeVarint(s[1..])
      case None => None
      case Some(d) =>
        if 1 + d.used + d.value == |s| then Some(s[1 + d.used..]) else None
  }

  /** Decoding the encoded message gives the key back. */
  lemma {:induction false} DecodeEncodeKeyMessage(key: seq<byte>)
    ensures DecodeKeyMessage(EncodeKeyMessage(key)) == Some(key)
  {
    if |key| > 0 {
      var s := EncodeKeyMessage(key);
      assert s[1..] == Varint(|key|) + key;
      DecodeVarintPrefix(|key|, key);
      assert s[1 + |Varint(|key|)|..] == key;
    }
  }
}
