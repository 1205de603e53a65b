/** The Rust side of the Keplr bridge (`web/keplr.rs`) and its error type. */
module Keplr {
  import opened Wrappers
  import opened Text
  import opened JsValues
  import opened Keys
  import KB = KeplrBindings
  import AddressWebConfig

  /** `KeplrError`. */
  datatype KeplrError = MissingChain | FailedEnable | NoExist | NoSigner | Unknown(text: string) | Technical(text: string)

  /** The `Display` messages. */
  function Display(e: KeplrError): string {
    match e
    case MissingChain => "keplr: missing chain"
    case FailedEnable => "keplr: failed enable"
    case NoExist => "keplr: doesn't exist"
    case NoSigner => "keplr: no signer"
    case Unknown(s) => "keplr: unknown " + s
    case Technical(s) => "keplr: technical " + s
  }

  /** Different errors display differently. */
  lemma {:induction false} DisplayInjective(a: KeplrError, b: KeplrError)
    requires Display(a) == Display(b)
    ensures a == b
  {
    var da, db := Display(a), Display(b);
    assert da[7] == db[7] && da[8] == db[8];
    if a.Unknown? && b.Unknown? {
      assert da[15..] == a.text && db[15..] == b.text;
    } else if a.Technical? && b.Technical? {
      assert da[17..] == a.text && db[17..] == b.text;
    }
  }

  /** An approximation of `{:?}` of a `JsValue`: wasm-bindgen prints a string as its quoted
      text and other values through the JavaScript side, which this model stands in for with
      `JsToString`; escaping inside the quotes is not modelled. */
  function DebugText(v: JsValue): string {
    match v
    case JsString(s) => "JsValue(\"" + s + "\")"
    case _ => "JsValue(" + JsToString(v) + ")"
  }

  /** `From<JsValue> for KeplrError`: the four sentinel messages of a thrown `Error` map to
      their variants; any other `Error` keeps its message; anything else its debug text. */
  function FromJsValue(v: JsValue): (r: KeplrError)
    ensures v.JsError? && v.message == KB.MISSING_CHAIN <==> r == MissingChain
    ensures v.JsError? && v.message == KB.FAILED_ENABLE <==> r == FailedEnable
    ensures v.JsError? && v.message == KB.NO_EXIST <==> r == NoExist
    ensures v.JsError? && v.message == KB.NO_SIGNER <==> r == NoSigner
    ensures r.Technical? == false
    ensures r.Unknown? ==> r.text == (if v.JsError? then v.message else DebugText(v))
  {
    match v
    case JsError(_, s) =>
      if s == KB.MISSING_CHAIN then MissingChain
      else if s == KB.FAILED_ENABLE then FailedEnable
      else if s == KB.NO_EXIST then NoExist
      else if s == KB.NO_SIGNER then NoSigner
      else Unknown(s)
    case _ => Unknown(DebugText(v))
  }

  /** `KeplrSignerInner`: the handle of a registered session. */
  datatype KeplrSignerInner = KeplrSignerInner(id: string)

  /** `KeplrSigner::new` on the result of the registration call. */
  function NewSigner(ffi: Result<JsValue, JsValue>): (r: Result<KeplrSignerInner, KeplrError>)
    ensures ffi.Err? ==> r == Err(FromJsValue(ffi.error))
    ensures ffi.Ok? && ffi.value.JsString? ==> r == Ok(KeplrSignerInner(ffi.value.s))
    ensures ffi.Ok? && !ffi.value.JsString? ==> r == Err(Technical("Keplr signer id is not a string"))
  {
    match ffi
    case Err(e) => Err(FromJsValue(e))
    case Ok(JsString(id)) => Ok(KeplrSignerInner(id))
    case Ok(_) => Err(Technical("Keplr signer id is not a string"))
  }

  datatype Connected = Connected(result: Result<KeplrSignerInner, KeplrError>, registry: KB.Registry)

  /** `KeplrSigner::new` against the JavaScript registry: the bridge's error texts come
      back as the matching variants and a session gets the next decimal handle. */
  function Connect(reg: KB.Registry, chainId: string, walletPresent: bool, enable: Result<(), JsValue>,
                   signer: Result<KB.OfflineSigner, JsValue>, key: Result<KB.KeplrKey, JsValue>)
    : (r: Connected)
    ensures !walletPresent ==> r.result == Err(NoExist)
    ensures walletPresent && enable.Err? ==>
      r.result == Err(if Contains(ToLowerAscii(JsToString(enable.error)), KB.NO_CHAIN_INFO)
                      then MissingChain else FailedEnable)
    ensures r.result.Ok? <==> walletPresent && enable.Ok? && signer.Ok? && key.Ok?
    ensures r.result.Ok? ==> r.result.value.id == NatToString(reg.lastId + 1)
    ensures r.result.Ok? ==> r.result.value.id in r.registry.lookup
    ensures r.result.Ok? ==> r.registry.lookup[r.result.value.id].keplrKey == key.value
    ensures r.result.Err? ==> r.registry == reg
    ensures r.result.Err? ==> !r.result.error.Technical?
  {
    var reg2 := KB.RegisterSigner(reg, chainId, walletPresent, enable, signer, key);
    var ffi := match reg2.result
      case Ok(id) => Ok(JsString(id))
      case Err(e) => Err(e);
    Connected(NewSigner(ffi), reg2.registry)
  }

  /** `KeplrSigner::add_chain`: a serialisation failure is `Technical`; a configuration without
      a Cosmos prefix comes back as `Unknown` with the bridge's message. */
  function AddChain(config: AddressWebConfig.WebChainConfig, serializationError: Option<string>,
                    walletPresent: bool, suggest: KB.ChainInfo -> Result<(), JsValue>)
    : (r: Result<(), KeplrError>)
    ensures serializationError.Some? ==> r == Err(Technical(serializationError.value))
    ensures serializationError.None? && KB.CosmosPrefix(config).None? ==> r == Err(Unknown(KB.INVALID_PREFIX))
    ensures serializationError.None? && KB.CosmosPrefix(config).Some? && walletPresent ==>
      (r.Ok? <==> suggest(KB.KeplrChainInfo(config).value).Ok?)
  {
    if serializationError.Some? then Err(Technical(serializationError.value))
    else
      match KB.AddChain(config, walletPresent, suggest)
      case Ok(_) => Ok(())
      case Err(e) => Err(FromJsValue(e))
  }

  /** `SignDoc` as the signer receives it. */
  datatype SignDoc = SignDoc(bodyBytes: seq<byte>, authInfoBytes: seq<byte>, chainId: string, accountNumber: nat)

  function ToJsSignDoc(doc: SignDoc): (r: KB.JsSignDoc)
    ensures r.bodyBytes == doc.bodyBytes && r.authInfoBytes == doc.authInfoBytes
    ensures r.chainId == doc.chainId && r.accountNumber == doc.accountNumber
  {
    KB.JsSignDoc(doc.bodyBytes, doc.authInfoBytes, doc.chainId, doc.accountNumber)
  }

  /** `TxSigner::sign` for Keplr: the wallet's base64 signature decoded (`base64Decode`
      stands for `BASE64_STANDARD.decode`). */
  function Sign(inner: KeplrSignerInner, reg: KB.Registry, doc: SignDoc,
                signDirect: (KB.OfflineSigner, string, KB.JsSignDoc) -> Result<KB.SignDirectResponse, JsValue>,
                base64Decode: string -> Result<seq<byte>, string>)
    : (r: Result<seq<byte>, string>)
    ensures inner.id !in reg.lookup ==> r.Err?
    ensures r.Ok? ==> exists sig :: KB.Sign(reg, inner.id, ToJsSignDoc(doc), signDirect) == Ok(JsString(sig))
                                    && base64Decode(sig) == r
  {
    match KB.Sign(reg, inner.id, ToJsSignDoc(doc), signDirect)
    case Err(e) => Err(DebugText(e))
    case Ok(JsString(sig)) => base64Decode(sig)
    case Ok(_) => Err("Signature is not a string")
  }

  /** `TxSigner::public_key` for Keplr: only secp256k1 keys, and only valid points
      (`isSecp256k1Point` stands for `from_raw_secp256k1` succeeding). */
  function PublicKeyOf(inner: KeplrSignerInner, reg: KB.Registry, isSecp256k1Point: seq<byte> -> bool)
    : (r: Result<PublicKey, string>)
    ensures inner.id !in reg.lookup ==> r.Err?
    ensures r.Ok? ==> inner.id in reg.lookup && reg.lookup[inner.id].keplrKey.algo == "secp256k1"
    ensures r.Ok? ==> r.value == Secp256k1(reg.lookup[inner.id].keplrKey.pubKey) && isSecp256k1Point(r.value.bytes)
  {
    match KB.PublicKey(reg, inner.id)
    case Err(e) => Err(DebugText(e))
    case Ok(key) =>
      if key.algo == "secp256k1" then
        if isSecp256k1Point(key.pubKey) then Ok(Secp256k1(key.pubKey))
        else Err("Invalid secp256k1 public key")
      else Err("Unsupported public key algorithm: " + key.algo)
  }
}
