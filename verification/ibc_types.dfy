/** The IBC identifier newtypes (`ibc_types.rs`): transparent wrappers around a string,
    built by `new`, read by `as_str` and `Display`, parsed by a `FromStr` that never fails. */
module IbcTypes {
  import opened Wrappers
  import opened Text

  /** Channel ordering, serialised in snake case. */
  datatype IbcChannelOrdering = Ordered | Unordered

  /** `IbcChannelVersion`. */
  datatype IbcChannelVersion = IbcChannelVersion(id: string) {
    function AsStr(): string { id }
  }

  /** `FromStr for IbcChannelVersion`: always succeeds, and `as_str` gives the text back. */
  function ChannelVersionFromStr(s: string): (r: Result<IbcChannelVersion, string>)
    ensures r.Ok? && r.value.AsStr() == s
  {
    Ok(IbcChannelVersion(s))
  }

  /** The `Display` impl; parsing what it prints gives the identifier back. */
  function ChannelVersionDisplay(x: IbcChannelVersion): (r: string)
    ensures ChannelVersionFromStr(r) == Ok(x)
  {
    x.id
  }

  /** `IbcClientId`. */
  datatype IbcClientId = IbcClientId(id: string) {
    function AsStr(): string { id }
  }

  /** `FromStr for IbcClientId`: always succeeds, and `as_str` gives the text back. */
  function ClientIdFromStr(s: string): (r: Result<IbcClientId, string>)
    ensures r.Ok? && r.value.AsStr() == s
  {
    Ok(IbcClientId(s))
  }

  /** The `Display` impl; parsing what it prints gives the identifier back. */
  function ClientIdDisplay(x: IbcClientId): (r: string)
    ensures ClientIdFromStr(r) == Ok(x)
  {
    x.id
  }

  /** `IbcConnectionId`. */
  datatype IbcConnectionId = IbcConnectionId(id: string) {
    function AsStr(): string { id }
  }

  /** `FromStr for IbcConnectionId`: always succeeds, and `as_str` gives the text back. */
  function ConnectionIdFromStr(s: string): (r: Result<IbcConnectionId, string>)
    ensures r.Ok? && r.value.AsStr() == s
  {
    Ok(IbcConnectionId(s))
  }

  /** The `Display` impl; parsing what it prints gives the identifier back. */
  function ConnectionIdDisplay(x: IbcConnectionId): (r: string)
    ensures ConnectionIdFromStr(r) == Ok(x)
  {
    x.id
  }

  /** `IbcChannelId`. */
  datatype IbcChannelId = IbcChannelId(id: string) {
    function AsStr(): string { id }
  }

  /** `FromStr for IbcChannelId`: always succeeds, and `as_str` gives the text back. */
  function ChannelIdFromStr(s: string): (r: Result<IbcChannelId, string>)
    ensures r.Ok? && r.value.AsStr() == s
  {
    Ok(IbcChannelId(s))
  }

  /** The `Display` impl; parsing what it prints gives the identifier back. */
  function ChannelIdDisplay(x: IbcChannelId): (r: string)
    ensures ChannelIdFromStr(r) == Ok(x)
  {
    x.id
  }

  /** `IbcPortId`. */
  datatype IbcPortId = IbcPortId(id: string) {
    function AsStr(): string { id }
  }

  /** `FromStr for IbcPortId`: always succeeds, and `as_str` gives the text back. */
  function PortIdFromStr(s: string): (r: Result<IbcPortId, string>)
    ensures r.Ok? && r.value.AsStr() == s
  {
    Ok(IbcPortId(s))
  }

  /** The `Display` impl; parsing what it prints gives the identifier back. */
  function PortIdDisplay(x: IbcPortId): (r: string)
    ensures PortIdFromStr(r) == Ok(x)
  {
    x.id
  }
}
