/** The JavaScript side of the Keplr bridge (`bindings.js`): a registry of wallet sessions
    keyed by decimal handles from a counter. What the wallet answers to each call
    (`enable`, `getOfflineSigner`, `getKey`, `signDirect`, `experimentalSuggestChain`)
    is passed in. */
module KeplrBindings {
  import opened Wrappers
  import opened Text
  import opened JsValues
  import AddressWebConfig
  import CC = ChainConfig

  const MISSING_CHAIN: string := "keplr-missing-chain"
  const FAILED_ENABLE: string := "keplr-failed-enable"
  const NO_EXIST: string := "keplr-no-exist"
  const NO_SIGNER: string := "keplr-no-signer"
  const NO_CHAIN_INFO: string := "no chain info"
  const INVALID_PREFIX: string := "Chain config doesn't have valid cosmos address prefix"

  /** The fields of the wallet's key object the bridge reads. */
  datatype KeplrKey = KeplrKey(name: string, algo: string, bech32Address: string, pubKey: seq<byte>)

  /** The wallet's offline signer object, by identity. */
  datatype OfflineSigner = OfflineSigner(handle: nat)

  datatype Session = Session(chainId: string, keplrKey: KeplrKey, signer: OfflineSigner)

  /** Module state: `lastId` and the `lookup` map. */
  datatype Registry = Registry(lastId: nat, lookup: map<string, Session>)

  const INITIAL: Registry := Registry(0, map[])

  /** Every stored handle is the decimal text of a number the counter has reached. */
  ghost predicate Inv(reg: Registry) {
    forall id :: id in reg.lookup ==> exists n :: 1 <= n <= reg.lastId && id == NatToString(n)
  }

  lemma {:induction false} InitialInv()
    ensures Inv(INITIAL)
  {
  }

  /** The error an `enable` failure is turned into: a missing chain when the failure's text,
      lower-cased, mentions "no chain info". */
  function EnableFailure(e: JsValue): (r: JsValue)
    ensures Contains(ToLowerAscii(JsToString(e)), NO_CHAIN_INFO) ==> r == Throw(MISSING_CHAIN)
    ensures !Contains(ToLowerAscii(JsToString(e)), NO_CHAIN_INFO) ==> r == Throw(FAILED_ENABLE)
  {
    if Contains(ToLowerAscii(JsToString(e)), NO_CHAIN_INFO) then Throw(MISSING_CHAIN)
    else Throw(FAILED_ENABLE)
  }

  datatype Registered = Registered(result: Result<string, JsValue>, registry: Registry)

  /** `ffi_keplr_register_signer`. */
  function RegisterSigner(reg: Registry, chainId: string, walletPresent: bool, enable: Result<(), JsValue>,
                          signer: Result<OfflineSigner, JsValue>, key: Result<KeplrKey, JsValue>)
    : (r: Registered)
    ensures r.result.Ok? <==> walletPresent && enable.Ok? && signer.Ok? && key.Ok?
    ensures r.result.Err? ==> r.registry == reg
    ensures !walletPresent ==> r.result == Err(Throw(NO_EXIST))
    ensures walletPresent && enable.Err? ==> r.result == Err(EnableFailure(enable.error))
    ensures r.result.Ok? ==> r.result.value == NatToString(reg.lastId + 1)
    ensures r.result.Ok? ==> r.registry.lastId == reg.lastId + 1
    ensures r.result.Ok? ==> r.registry.lookup == reg.lookup[r.result.value := Session(chainId, key.value, signer.value)]
  {
    if !walletPresent then Registered(Err(Throw(NO_EXIST)), reg)
    else if enable.Err? then Registered(Err(EnableFailure(enable.error)), reg)
    else if signer.Err? then Registered(Err(signer.error), reg)
    else if key.Err? then Registered(Err(key.error), reg)
    else
      var next := reg.lastId + 1;
      var id := NatToString(next);
      Registered(Ok(id), Registry(next, reg.lookup[id := Session(chainId, key.value, signer.value)]))
  }

  /** A new handle is never one already in use. */
  lemma {:induction false} NewHandleIsFresh(reg: Registry)
    requires Inv(reg)
    ensures NatToString(reg.lastId + 1) !in reg.lookup
  {
    if NatToString(reg.lastId + 1) in reg.lookup {
      var n :| 1 <= n <= reg.lastId && NatToString(reg.lastId + 1) == NatToString(n);
      NatToStringInjective(n, reg.lastId + 1);
    }
  }

  /** Registration keeps the invariant and every earlier session. */
  lemma {:induction false} RegisterKeepsSessions(reg: Registry, chainId: string, walletPresent: bool,
                                                 enable: Result<(), JsValue>, signer: Result<OfflineSigner, JsValue>,
                                                 key: Result<KeplrKey, JsValue>)
    requires Inv(reg)
    ensures Inv(RegisterSigner(reg, chainId, walletPresent, enable, signer, key).registry)
    ensures forall id :: id in reg.lookup ==>
      id in RegisterSigner(reg, chainId, walletPresent, enable, signer, key).registry.lookup
      && RegisterSigner(reg, chainId, walletPresent, enable, signer, key).registry.lookup[id] == reg.lookup[id]
  {
    var r := RegisterSigner(reg, chainId, walletPresent, enable, signer, key);
    if r.result.Ok? {
      NewHandleIsFresh(reg);
      forall id | id in r.registry.lookup
        ensures exists n :: 1 <= n <= r.registry.lastId && id == NatToString(n)
      {
        if id != r.result.value {
          assert id in reg.lookup;
          var n :| 1 <= n <= reg.lastId && id == NatToString(n);
          assert 1 <= n <= r.registry.lastId;
        } else {
          assert id == NatToString(r.registry.lastId);
        }
      }
    }
  }

  /** The first successful registration gets the handle "1". */
  lemma {:induction false} FirstHandleIsOne(chainId: string, signer: OfflineSigner, key: KeplrKey)
    ensures RegisterSigner(INITIAL, chainId, true, Ok(()), Ok(signer), Ok(key)).result == Ok("1")
  {
    assert NatToString(1) == "1";
  }

  /** The fields of a `SignDoc` the Rust side hands over. */
  datatype JsSignDoc = JsSignDoc(bodyBytes: seq<byte>, authInfoBytes: seq<byte>, chainId: string, accountNumber: nat)

  /** The part of the wallet's `signDirect` response the bridge returns: `res.signature.signature`. */
  datatype SignDirectResponse = SignDirectResponse(signature: JsValue)

  /** `ffi_keplr_sign`: the session's signer signs for the session key's address. */
  function Sign(reg: Registry, keplrId: string, doc: JsSignDoc,
                signDirect: (OfflineSigner, string, JsSignDoc) -> Result<SignDirectResponse, JsValue>)
    : (r: Result<JsValue, JsValue>)
    ensures keplrId !in reg.lookup ==> r == Err(Throw(NO_SIGNER))
    ensures keplrId in reg.lookup ==>
      var s := reg.lookup[keplrId];
      var res := signDirect(s.signer, s.keplrKey.bech32Address, doc);
      (r.Ok? <==> res.Ok?) && (r.Ok? ==> r.value == res.value.signature)
  {
    if keplrId !in reg.lookup then Err(Throw(NO_SIGNER))
    else
      var s := reg.lookup[keplrId];
      var res :- signDirect(s.signer, s.keplrKey.bech32Address, doc);
      Ok(res.signature)
  }

  /** `ffi_keplr_public_key`: the key captured when the session was registered. */
  function PublicKey(reg: Registry, keplrId: string): (r: Result<KeplrKey, JsValue>)
    ensures keplrId !in reg.lookup ==> r == Err(Throw(NO_SIGNER))
    ensures keplrId in reg.lookup ==> r == Ok(reg.lookup[keplrId].keplrKey)
  {
    if keplrId !in reg.lookup then Err(Throw(NO_SIGNER)) else Ok(reg.lookup[keplrId].keplrKey)
  }

  datatype Currency = Currency(coinDenom: string, coinMinimalDenom: string, coinDecimals: nat, coinGeckoId: string)

  datatype Bech32Config = Bech32Config(
    accAddr: string, accPub: string, valAddr: string, valPub: string, consAddr: string, consPub: string)

  /** The chain description handed to `experimentalSuggestChain`. */
  datatype ChainInfo = ChainInfo(
    chainId: string, chainName: string, rpc: string, rest: string, coinType: nat,
    bech32Config: Bech32Config, currencies: seq<Currency>, feeCurrencies: seq<Currency>,
    stakeCurrency: Currency)

  const COIN_TYPE: nat := 118
  const COIN_DECIMALS: nat := 6

  /** The Cosmos prefix of a serialised configuration (`address_kind?.cosmos?.prefix`). */
  function CosmosPrefix(config: AddressWebConfig.WebChainConfig): Option<string> {
    match config.addressKind
    case Cosmos(p) => if |p| == 0 then None else Some(p)
    case Eth => None
  }

  /** The chain description `ffi_keplr_add_chain` builds, or the error it throws when the
      configuration has no non-empty Cosmos prefix. */
  function KeplrChainInfo(config: AddressWebConfig.WebChainConfig): (r: Result<ChainInfo, JsValue>)
    ensures r.Ok? <==> config.addressKind.Cosmos? && |config.addressKind.prefix| > 0
    ensures r.Err? ==> r.error == Throw(INVALID_PREFIX)
    ensures r.Ok? ==> var p := config.addressKind.prefix; var b := r.value.bech32Config;
      b.accAddr == p && b.accPub == p + "pub" && b.valAddr == p + "valoper" && b.valPub == p + "valoperpub"
      && b.consAddr == p + "valcons" && b.consPub == p + "valconspub"
    ensures r.Ok? ==> var id := CC.AsStr(config.chainId);
      r.value.chainId == id && r.value.chainName == id && r.value.rpc == config.rpcEndpoint
      && r.value.rest == config.restEndpoint && r.value.coinType == COIN_TYPE
    ensures r.Ok? ==> r.value.currencies == [r.value.stakeCurrency] && r.value.feeCurrencies == [r.value.stakeCurrency]
    ensures r.Ok? ==> r.value.stakeCurrency == Currency(config.gasDenom, config.gasDenom, COIN_DECIMALS, config.gasDenom)
  {
    match CosmosPrefix(config)
    case None => Err(Throw(INVALID_PREFIX))
    case Some(p) =>
      var currency := Currency(config.gasDenom, config.gasDenom, COIN_DECIMALS, config.gasDenom);
      var id := CC.AsStr(config.chainId);
      Ok(ChainInfo(id, id, config.rpcEndpoint, config.restEndpoint, COIN_TYPE,
                   Bech32Config(p, p + "pub", p + "valoper", p + "valoperpub", p + "valcons", p + "valconspub"),
                   [currency], [currency], currency))
  }

  /** What reading `window.keplr.experimentalSuggestChain` throws when there is no wallet
      (the message text is the engine's own). */
  const NO_WALLET_TYPE_ERROR: JsValue := JsError("TypeError", "window.keplr is undefined")

  /** `ffi_keplr_add_chain`: unlike registration it does not check that the wallet exists. */
  function AddChain(config: AddressWebConfig.WebChainConfig, walletPresent: bool,
                    suggest: ChainInfo -> Result<(), JsValue>)
    : (r: Result<(), JsValue>)
    ensures KeplrChainInfo(config).Err? ==> r == Err(Throw(INVALID_PREFIX))
    ensures KeplrChainInfo(config).Ok? && !walletPresent ==> r == Err(NO_WALLET_TYPE_ERROR)
    ensures KeplrChainInfo(config).Ok? && walletPresent ==> r == suggest(KeplrChainInfo(config).value)
  {
    var info :- KeplrChainInfo(config);
    if !walletPresent then Err(NO_WALLET_TYPE_ERROR) else suggest(info)
  }
}
