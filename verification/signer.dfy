/** The default methods of the `TxSigner` trait and its two helpers. */
module Signer {
  import opened Wrappers
  import opened Text
  import opened Keys
  import opened AddressErrors
  import Protobuf
  import ChainConfig
  import Address

  const ED25519_TYPE_URL: string := "/cosmos.crypto.ed25519.PubKey"
  const SECP256K1_TYPE_URL: string := "/cosmos.crypto.secp256k1.PubKey"

  /** `google.protobuf.Any`. */
  datatype Any = Any(typeUrl: string, value: seq<byte>)

  /** `SignMode`, as its protobuf enum number. */
  datatype SignMode = SignMode(code: int)

  datatype ModeInfo = Single(mode: SignMode)

  datatype SignerInfo = SignerInfo(publicKey: Option<Any>, modeInfo: Option<ModeInfo>, sequence: nat)

  /** `ClimbSignerError`, with the `InvalidPublicKeyType` case `signer.rs` returns. */
  datatype SignerError =
    | SigningFailed(message: string)
    | PublicKeyError(message: string)
    | Address(error: AddressError)
    | InvalidPublicKeyType
    | Other(message: string)

  /** `public_key_to_proto`: the key bytes in the key's own protobuf message, tagged with its type URL. */
  function PublicKeyToProto(pk: PublicKey): (r: Result<Any, SignerError>)
    ensures r.Ok?
    ensures r.value.typeUrl == (if pk.Ed25519? then ED25519_TYPE_URL else SECP256K1_TYPE_URL)
    ensures Protobuf.DecodeKeyMessage(r.value.value) == Some(pk.bytes)
  {
    Protobuf.DecodeEncodeKeyMessage(pk.bytes);
    match pk
    case Ed25519(key) => Ok(Any(ED25519_TYPE_URL, Protobuf.EncodeKeyMessage(key)))
    case Secp256k1(key) => Ok(Any(SECP256K1_TYPE_URL, Protobuf.EncodeKeyMessage(key)))
  }

  /** Reading the key back out of the `Any` (the partner of `PublicKeyToProto`). */
  function PublicKeyFromProto(any: Any): Option<PublicKey> {
    match Protobuf.DecodeKeyMessage(any.value)
    case None => None
    case Some(key) =>
      if any.typeUrl == ED25519_TYPE_URL then Some(Ed25519(key))
      else if any.typeUrl == SECP256K1_TYPE_URL then Some(Secp256k1(key))
      else None
  }

  lemma {:induction false} PublicKeyProtoRoundTrip(pk: PublicKey)
    ensures PublicKeyFromProto(PublicKeyToProto(pk).value) == Some(pk)
  {
  }

  /** `signer_info`: the key, single sign mode, and the sequence. */
  function MakeSignerInfo(publicKey: Any, sequence: nat, mode: SignMode): (r: SignerInfo)
    ensures r.publicKey == Some(publicKey) && r.modeInfo == Some(Single(mode)) && r.sequence == sequence
  {
    SignerInfo(Some(publicKey), Some(Single(mode)), sequence)
  }

  /** Default `public_key_as_proto`, given what the signer's `public_key` returned. */
  function PublicKeyAsProto(publicKey: Result<PublicKey, SignerError>): (r: Result<Any, SignerError>)
    ensures publicKey.Err? ==> r == Err(publicKey.error)
    ensures publicKey.Ok? ==> r.Ok? && PublicKeyFromProto(r.value) == Some(publicKey.value)
  {
    var pk :- publicKey;
    PublicKeyToProto(pk)
  }

  /** Default `signer_info`. */
  function DefaultSignerInfo(publicKey: Result<PublicKey, SignerError>, sequence: nat, mode: SignMode)
    : (r: Result<SignerInfo, SignerError>)
    ensures r.Ok? <==> publicKey.Ok?
    ensures r.Ok? ==> r.value.sequence == sequence && r.value.modeInfo == Some(Single(mode))
    ensures r.Ok? ==> r.value.publicKey.Some?
    ensures r.Ok? ==> PublicKeyFromProto(r.value.publicKey.value) == Some(publicKey.value)
  {
    var any :- PublicKeyAsProto(publicKey);
    Ok(MakeSignerInfo(any, sequence, mode))
  }

  /** The config crate's address kind as the address crate reads it (`Eth` is `Evm`). */
  function AddressKindOf(kind: ChainConfig.AddrKind): (r: Address.AddrKind)
    ensures kind.Cosmos? <==> r.CosmosKind?
    ensures kind.Cosmos? ==> r.prefix == kind.prefix
  {
    match kind
    case Cosmos(prefix) => Address.CosmosKind(prefix)
    case Eth => Address.EvmKind
  }

  /** Default `address`: the address the chain's kind derives from the public key. */
  function DefaultAddress(publicKey: Result<PublicKey, SignerError>, config: ChainConfig.ChainConfig,
                          accountId: seq<byte> -> seq<byte>)
    : (r: Result<Address.Address, SignerError>)
    ensures publicKey.Err? ==> r == Err(publicKey.error)
    ensures config.addressKind.Eth? ==> r.Err?
    ensures r.Ok? ==> publicKey.Ok? && publicKey.value.Secp256k1?
    ensures r.Ok? ==> Address.TryFromPubKey(publicKey.value, AddressKindOf(config.addressKind), accountId) == Ok(r.value)
  {
    var pk :- publicKey;
    match Address.TryFromPubKey(pk, AddressKindOf(config.addressKind), accountId)
    case Ok(a) => Ok(a)
    case Err(e) => Err(Address(e))
  }
}
