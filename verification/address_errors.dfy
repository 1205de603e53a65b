/** Errors of the address crate (`AddressError`); `anyhow` errors become `Other`. */
module AddressErrors {
  datatype AddressError =
    | InvalidFormat(message: string)
    | InvalidPrefix(expected: string, actual: string)
    | NotEvm
    | NotCosmos
    | UnsupportedPubKey
    | Other(message: string)
}
