/** The browser-facing chain configuration of the address crate (`web/shared.rs`):
    every endpoint is a string and the REST endpoint is derived from the RPC one. */
module AddressWebConfig {
  import opened Wrappers
  import CC = ChainConfig

  /** The REST port wallets such as Keplr are pointed at. */
  const REST_PORT: nat := 1317

  /** The chain configuration as this file builds it (six fields). */
  datatype ChainConfig = ChainConfig(
    chainId: CC.ChainId,
    rpcEndpoint: string,
    grpcEndpoint: string,
    gasAmount: string,
    gasDenom: string,
    addressKind: CC.AddrKind)

  datatype WebChainConfig = WebChainConfig(
    chainId: CC.ChainId,
    rpcEndpoint: string,
    grpcEndpoint: string,
    restEndpoint: string,
    gasAmount: string,
    gasDenom: string,
    addressKind: CC.AddrKind)

  /** `From<WebChainConfig> for ChainConfig`: everything but the REST endpoint. */
  function ToChainConfig(w: WebChainConfig): (r: ChainConfig)
    ensures r.chainId == w.chainId && r.rpcEndpoint == w.rpcEndpoint && r.grpcEndpoint == w.grpcEndpoint
    ensures r.gasAmount == w.gasAmount && r.gasDenom == w.gasDenom && r.addressKind == w.addressKind
  {
    ChainConfig(w.chainId, w.rpcEndpoint, w.grpcEndpoint, w.gasAmount, w.gasDenom, w.addressKind)
  }

  /** `From<ChainConfig> for WebChainConfig`: the REST endpoint is the RPC endpoint with its
      port set to 1317 by `set_port_in_url` (passed in as `setPort`); `None` where that
      fails and the `unwrap` panics. */
  function ToWebChainConfig(c: ChainConfig, setPort: (string, nat) -> Result<string, string>)
    : (r: Option<WebChainConfig>)
    ensures r.Some? <==> setPort(c.rpcEndpoint, REST_PORT).Ok?
    ensures r.Some? ==> r.value.restEndpoint == setPort(c.rpcEndpoint, REST_PORT).value
    ensures r.Some? ==> ToChainConfig(r.value) == c
  {
    match setPort(c.rpcEndpoint, REST_PORT)
    case Err(_) => None
    case Ok(rest) => Some(WebChainConfig(c.chainId, c.rpcEndpoint, c.grpcEndpoint, rest,
                                         c.gasAmount, c.gasDenom, c.addressKind))
  }

  /** Going through the chain configuration and back only re-derives the REST endpoint. */
  lemma {:induction false} WebRoundTrip(w: WebChainConfig, setPort: (string, nat) -> Result<string, string>)
    requires setPort(w.rpcEndpoint, REST_PORT).Ok?
    ensures ToWebChainConfig(ToChainConfig(w), setPort)
         == Some(w.(restEndpoint := setPort(w.rpcEndpoint, REST_PORT).value))
  {
  }
}
