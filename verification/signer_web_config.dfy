/** The browser-facing chain configuration of the signer crate (`web/shared.rs`):
    optional endpoints, and a REST endpoint present exactly when the RPC one is. */
module SignerWebConfig {
  import opened Wrappers
  import CC = ChainConfig
  import Address

  const REST_PORT: nat := 1317

  /** An `f32` carried through unchanged; floating point is not modelled. */
  datatype F32 = F32(bits: nat)

  /** The chain configuration shape this file converts to and from. */
  datatype ChainConfig = ChainConfig(
    chainId: CC.ChainId,
    rpcEndpoint: Option<string>,
    grpcEndpoint: Option<string>,
    grpcWebEndpoint: Option<string>,
    gasPrice: F32,
    gasDenom: string,
    addressKind: Address.AddrKind)

  datatype WebChainConfig = WebChainConfig(
    chainId: CC.ChainId,
    rpcEndpoint: Option<string>,
    grpcEndpoint: Option<string>,
    grpcWebEndpoint: Option<string>,
    restEndpoint: Option<string>,
    gasPrice: F32,
    gasDenom: string,
    addressKind: Address.AddrKind)

  /** `From<WebChainConfig> for ChainConfig`: everything but the REST endpoint. */
  function ToChainConfig(w: WebChainConfig): (r: ChainConfig)
    ensures r.chainId == w.chainId && r.rpcEndpoint == w.rpcEndpoint && r.grpcEndpoint == w.grpcEndpoint
    ensures r.grpcWebEndpoint == w.grpcWebEndpoint && r.gasPrice == w.gasPrice
    ensures r.gasDenom == w.gasDenom && r.addressKind == w.addressKind
  {
    ChainConfig(w.chainId, w.rpcEndpoint, w.grpcEndpoint, w.grpcWebEndpoint, w.gasPrice,
                w.gasDenom, w.addressKind)
  }

  /** `From<ChainConfig> for WebChainConfig`: with an RPC endpoint, the REST endpoint is it
      with port 1317 (`None` overall where `set_port_in_url` fails and the `unwrap`
      panics); without one, there is no REST endpoint. */
  function ToWebChainConfig(c: ChainConfig, setPort: (string, nat) -> Result<string, string>)
    : (r: Option<WebChainConfig>)
    ensures c.rpcEndpoint.None? ==> r.Some? && r.value.restEndpoint.None?
    ensures c.rpcEndpoint.Some? ==> (r.Some? <==> setPort(c.rpcEndpoint.value, REST_PORT).Ok?)
    ensures r.Some? && c.rpcEndpoint.Some? ==>
      r.value.restEndpoint == Some(setPort(c.rpcEndpoint.value, REST_PORT).value)
    ensures r.Some? ==> ToChainConfig(r.value) == c
  {
    var rest :- match c.rpcEndpoint
      case None => Some(None)
      case Some(rpc) =>
        match setPort(rpc, REST_PORT)
        case Err(_) => None
        case Ok(url) => Some(Some(url));
    Some(WebChainConfig(c.chainId, c.rpcEndpoint, c.grpcEndpoint, c.grpcWebEndpoint, rest,
                        c.gasPrice, c.gasDenom, c.addressKind))
  }

  /** Going through the chain configuration and back only re-derives the REST endpoint,
      which disappears when there is no RPC endpoint. */
  lemma {:induction false} WebRoundTrip(w: WebChainConfig, setPort: (string, nat) -> Result<string, string>)
    requires w.rpcEndpoint.Some? ==> setPort(w.rpcEndpoint.value, REST_PORT).Ok?
    ensures ToWebChainConfig(ToChainConfig(w), setPort)
         == Some(w.(restEndpoint := if w.rpcEndpoint.None? then None
                                    else Some(setPort(w.rpcEndpoint.value, REST_PORT).value)))
  {
  }
}
