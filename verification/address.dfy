/** The canonical `Address` type and the `AddrKind` that selects how to parse one. */
module Address {
  import opened Wrappers
  import opened Text
  import opened Keys
  import opened AddressErrors
  import CA = CosmosAddress
  import EA = EvmAddress

  datatype Address = Cosmos(cosmos: CA.CosmosAddr) | Evm(evm: EA.EvmAddr)

  datatype AddrKind = CosmosKind(prefix: string) | EvmKind

  /** `Address::as_bytes`; `None` where the Cosmos `to_vec` would panic. */
  function AsBytes(a: Address): (r: Option<seq<byte>>)
    ensures a.Evm? ==> r == Some(a.evm.bytes)
    ensures a.Cosmos? ==> r == CA.ToVec(a.cosmos)
  {
    match a
    case Cosmos(c) => CA.ToVec(c)
    case Evm(e) => Some(e.bytes)
  }

  /** `Address::try_from_str`: parse according to the kind; a Cosmos kind fixes the prefix. */
  function TryFromStr(value: string, kind: AddrKind): (r: Result<Address, AddressError>)
    ensures r.Ok? ==> (kind.CosmosKind? <==> r.value.Cosmos?)
    ensures r.Ok? && kind.CosmosKind? ==> CA.Prefix(r.value.cosmos) == Some(kind.prefix)
    ensures kind.CosmosKind? ==> (r.Ok? <==> CA.NewStr(value, Some(kind.prefix)).Ok?)
    ensures kind.CosmosKind? && r.Ok? ==> r.value == Cosmos(CA.NewStr(value, Some(kind.prefix)).value)
    ensures kind.CosmosKind? && r.Err? ==> r.error == CA.NewStr(value, Some(kind.prefix)).error
    ensures kind.EvmKind? ==> (r.Ok? <==> EA.NewStr(value).Ok?)
    ensures kind.EvmKind? && r.Ok? ==> r.value == Evm(EA.NewStr(value).value)
    ensures kind.EvmKind? && r.Err? ==> r.error == EA.NewStr(value).error
  {
    match kind
    case CosmosKind(prefix) =>
      var c :- CA.NewStr(value, Some(prefix));
      Ok(Cosmos(c))
    case EvmKind =>
      var e :- EA.NewStr(value);
      Ok(Evm(e))
  }

  /** `Address::try_from_pub_key`. */
  function TryFromPubKey(pk: PublicKey, kind: AddrKind, accountId: seq<byte> -> seq<byte>)
    : (r: Result<Address, AddressError>)
    ensures kind.EvmKind? ==> r == Err(UnsupportedPubKey)
    ensures kind.CosmosKind? && pk.Ed25519? ==> r.Err?
    ensures r.Ok? ==> r.value.Cosmos? && CA.Prefix(r.value.cosmos) == Some(kind.prefix)
  {
    match kind
    case CosmosKind(prefix) =>
      var c :- CA.NewPubKey(pk, prefix, accountId);
      Ok(Cosmos(c))
    case EvmKind =>
      match EA.NewPubKey(pk)
      case Ok(e) => Ok(Evm(e))
      case Err(err) => Err(err)
  }

  /** The `Display` impl ignores the kind. */
  function Display(a: Address): string {
    match a
    case Cosmos(c) => CA.Display(c)
    case Evm(e) => EA.Display(e)
  }

  /** `TryFrom<Address> for EvmAddr`. */
  function ToEvm(a: Address): (r: Result<EA.EvmAddr, AddressError>)
    ensures r.Ok? <==> a.Evm?
    ensures r.Ok? ==> Evm(r.value) == a
    ensures r.Err? ==> r.error == NotEvm
  {
    match a
    case Evm(e) => Ok(e)
    case Cosmos(_) => Err(NotEvm)
  }

  /** `TryFrom<Address> for CosmosAddr`. */
  function ToCosmos(a: Address): (r: Result<CA.CosmosAddr, AddressError>)
    ensures r.Ok? <==> a.Cosmos?
    ensures r.Ok? ==> Cosmos(r.value) == a
    ensures r.Err? ==> r.error == NotCosmos
  {
    match a
    case Cosmos(c) => Ok(c)
    case Evm(_) => Err(NotCosmos)
  }

  /** The kind an address was parsed with. */
  function KindOf(a: Address): AddrKind
    requires a.Cosmos? ==> CA.Prefix(a.cosmos).Some?
  {
    match a
    case Cosmos(c) => CosmosKind(CA.Prefix(c).value)
    case Evm(_) => EvmKind
  }

  /** `AddrKind::parse_address` of an address's text, with the address's own kind, gives it back. */
  lemma {:induction false} ParseDisplay(a: Address)
    requires a.Cosmos? ==> CA.Valid(a.cosmos)
    ensures TryFromStr(Display(a), KindOf(a)) == Ok(a)
  {
    match a
    case Cosmos(c) => CA.NewStrDisplay(c);
    case Evm(e) => EA.FromStrDisplay(e);
  }

  /** Converting into an `Address` and back out is the identity. */
  lemma {:induction false} ConversionsRoundTrip(c: CA.CosmosAddr, e: EA.EvmAddr)
    ensures ToCosmos(Cosmos(c)) == Ok(c) && ToEvm(Cosmos(c)) == Err(NotEvm)
    ensures ToEvm(Evm(e)) == Ok(e) && ToCosmos(Evm(e)) == Err(NotCosmos)
  {
  }
}
