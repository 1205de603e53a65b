/** Public keys as the address and signer code sees them (`tendermint::PublicKey`). */
module Keys {
  import opened Text

  /** `tendermint::PublicKey`: the raw key bytes of an Ed25519 or secp256k1 key. */
  datatype PublicKey = Ed25519(bytes: seq<byte>) | Secp256k1(bytes: seq<byte>)
}
