/** The faucet's configuration (`faucet/src/config.rs`): the file settings (`ConfigInit`),
    the environment overrides applied after reading the file, and the derived `Config`. The
    environment is a map from variable names to values, already holding whatever the optional
    `.env` file added; the TOML file is given already read. */
module FaucetConfig {
  import opened Wrappers
  import opened Text
  import opened ChainConfig
  import opened Prelude

  // ---------------------------------------------------------------------------
  // Enumerations read from text

  datatype ConfigChainAddrKindName = CosmosKind | EthKind

  /** `FromStr for ConfigChainAddrKindName`. */
  function ParseAddrKindName(s: string): (r: Result<ConfigChainAddrKindName, string>)
    ensures r.Ok? <==> s == "cosmos" || s == "eth"
    ensures r.Err? ==> r.error == "Unknown chain address kind: " + s
  {
    if s == "cosmos" then Ok(CosmosKind)
    else if s == "eth" then Ok(EthKind)
    else Err("Unknown chain address kind: " + s)
  }

  /** The snake-case name the file uses. */
  function AddrKindNameText(k: ConfigChainAddrKindName): string {
    match k
    case CosmosKind => "cosmos"
    case EthKind => "eth"
  }

  /** The parser accepts exactly the names, each for its own kind. */
  lemma {:induction false} AddrKindNameRoundTrip(k: ConfigChainAddrKindName, s: string)
    ensures ParseAddrKindName(AddrKindNameText(k)) == Ok(k)
    ensures ParseAddrKindName(s).Ok? ==> AddrKindNameText(ParseAddrKindName(s).value) == s
  {
  }

  datatype LogLevel = Trace | Debug | Info | Warn | Error

  /** `FromStr for LogLevel`: the five lower-case names. */
  function ParseLogLevel(s: string): (r: Result<LogLevel, string>)
    ensures r.Ok? <==> s in ["trace", "debug", "info", "warn", "error"]
    ensures r.Err? ==> r.error == "Unknown log level: " + s
  {
    if s == "trace" then Ok(Trace)
    else if s == "debug" then Ok(Debug)
    else if s == "info" then Ok(Info)
    else if s == "warn" then Ok(Warn)
    else if s == "error" then Ok(Error)
    else Err("Unknown log level: " + s)
  }

  function LogLevelText(l: LogLevel): string {
    match l
    case Trace => "trace"
    case Debug => "debug"
    case Info => "info"
    case Warn => "warn"
    case Error => "error"
  }

  lemma {:induction false} LogLevelRoundTrip(l: LogLevel, s: string)
    ensures ParseLogLevel(LogLevelText(l)) == Ok(l)
    ensures ParseLogLevel(s).Ok? ==> LogLevelText(ParseLogLevel(s).value) == s
  {
  }

  /** `tracing::Level`. */
  datatype Level = TRACE | DEBUG | INFO | WARN | ERROR

  /** `From<LogLevel> for tracing::Level`: level for level, so no two log levels meet. */
  function ToLevel(l: LogLevel): (r: Level)
    ensures forall m: LogLevel :: ToLevelTable(m) == r ==> m == l
  {
    ToLevelTable(l)
  }

  function ToLevelTable(l: LogLevel): Level {
    match l
    case Trace => TRACE
    case Debug => DEBUG
    case Info => INFO
    case Warn => WARN
    case Error => ERROR
  }

  // ---------------------------------------------------------------------------
  // The settings

  /** The `f32` gas price, kept as its bit pattern; reading one from text is a parameter. */
  datatype GasPrice = GasPrice(bits: nat)

  /** `ConfigInit`, the settings as the file states them; `port` is a `u16` and
      `concurrency` a `usize`. */
  datatype ConfigInit = ConfigInit(
    dotenv: Option<string>,
    logLevel: LogLevel,
    corsAllowedOrigins: Option<seq<string>>,
    port: nat,
    concurrency: nat,
    memo: Option<string>,
    mnemonicEnvVar: string,
    creditAmount: string,
    creditDenom: Option<string>,
    chainId: ChainId,
    chainRpcEndpoint: string,
    chainGrpcEndpoint: string,
    chainGasPrice: GasPrice,
    chainGasDenom: string,
    chainAddressKind: ConfigChainAddrKindName,
    chainAddressBech32Prefix: Option<string>,
    minimumCreditBalanceThreshhold: string,
    minimumCreditBalanceTopup: string)

  /** A `usize` on a 64-bit target. */
  const USIZE_LIMIT: nat := U64_LIMIT

  type Env = map<string, string>

  /** A field read from the environment where the variable is set and its value parses, the
      file's value otherwise. */
  function OrKeep<T>(env: Env, key: string, parse: string -> Option<T>, current: T): T {
    if key in env && parse(env[key]).Some? then parse(env[key]).value else current
  }

  /** A field the environment replaces whenever the variable is set. */
  function Replace<T>(env: Env, key: string, wrap: string -> T, current: T): T {
    if key in env then wrap(env[key]) else current
  }

  function ParseLogLevelOpt(s: string): Option<LogLevel> {
    match ParseLogLevel(s)
    case Ok(l) => Some(l)
    case Err(_) => None
  }

  /** The variables that fail the load when set to something unreadable. */
  predicate GasPriceReadable(env: Env, parseGasPrice: string -> Option<GasPrice>) {
    "FAUCET_CHAIN_GAS_PRICE" in env ==> parseGasPrice(env["FAUCET_CHAIN_GAS_PRICE"]).Some?
  }

  predicate AddrKindReadable(env: Env) {
    "FAUCET_CHAIN_ADDRESS_KIND" in env ==> ParseAddrKindName(env["FAUCET_CHAIN_ADDRESS_KIND"]).Ok?
  }

  /** The environment overrides of `load_inner`, applied to the file's settings. Unreadable
      log level, port or concurrency values are ignored; an unreadable gas price or address
      kind fails the load, the gas price first; every other variable replaces its field. */
  function ApplyEnv(c: ConfigInit, env: Env, parseGasPrice: string -> Option<GasPrice>): (r: Result<ConfigInit, string>)
    ensures r.Ok? <==> GasPriceReadable(env, parseGasPrice) && AddrKindReadable(env)
    ensures !GasPriceReadable(env, parseGasPrice) ==> r == Err("Failed to parse gas price")
    ensures GasPriceReadable(env, parseGasPrice) && !AddrKindReadable(env) ==> r == Err("Failed to parse chain address kind")
    ensures r.Ok? ==> r.value.dotenv == c.dotenv
    ensures r.Ok? ==> && ("FAUCET_LOG_LEVEL" in env && ParseLogLevel(env["FAUCET_LOG_LEVEL"]).Ok? ==>
                          r.value.logLevel == ParseLogLevel(env["FAUCET_LOG_LEVEL"]).value)
                      && (!("FAUCET_LOG_LEVEL" in env && ParseLogLevel(env["FAUCET_LOG_LEVEL"]).Ok?) ==>
                          r.value.logLevel == c.logLevel)
    ensures r.Ok? ==> r.value.port == OrKeep(env, "FAUCET_PORT", s => ParseUnsigned(s, U16_LIMIT), c.port)
    ensures r.Ok? ==> r.value.concurrency == OrKeep(env, "FAUCET_CONCURRENCY", s => ParseUnsigned(s, USIZE_LIMIT), c.concurrency)
    ensures r.Ok? && "FAUCET_CORS_ALLOWED_ORIGINS" !in env ==> r.value.corsAllowedOrigins == c.corsAllowedOrigins
    ensures r.Ok? && "FAUCET_CORS_ALLOWED_ORIGINS" in env ==>
              r.value.corsAllowedOrigins == Some(Split(env["FAUCET_CORS_ALLOWED_ORIGINS"], ','))
    ensures r.Ok? && "FAUCET_CHAIN_ADDRESS_KIND" in env ==>
              r.value.chainAddressKind == ParseAddrKindName(env["FAUCET_CHAIN_ADDRESS_KIND"]).value
    ensures r.Ok? && "FAUCET_CHAIN_GAS_PRICE" in env ==>
              r.value.chainGasPrice == parseGasPrice(env["FAUCET_CHAIN_GAS_PRICE"]).value
    ensures r.Ok? && "FAUCET_CHAIN_ID" in env ==> r.value.chainId == NewChainId(env["FAUCET_CHAIN_ID"])
    ensures r.Ok? && "FAUCET_MEMO" in env ==> r.value.memo == Some(env["FAUCET_MEMO"])
    ensures r.Ok? && "FAUCET_CREDIT_DENOM" in env ==> r.value.creditDenom == Some(env["FAUCET_CREDIT_DENOM"])
    ensures r.Ok? && "FAUCET_CHAIN_ADDRESS_BECH32_PREFIX" in env ==>
              r.value.chainAddressBech32Prefix == Some(env["FAUCET_CHAIN_ADDRESS_BECH32_PREFIX"])
    ensures r.Ok? ==> && r.value.chainRpcEndpoint == Replace(env, "FAUCET_CHAIN_RPC_ENDPOINT", s => s, c.chainRpcEndpoint)
                      && r.value.chainGrpcEndpoint == Replace(env, "FAUCET_CHAIN_GRPC_ENDPOINT", s => s, c.chainGrpcEndpoint)
                      && r.value.chainGasDenom == Replace(env, "FAUCET_CHAIN_GAS_DENOM", s => s, c.chainGasDenom)
                      && r.value.creditAmount == Replace(env, "FAUCET_CREDIT_AMOUNT", s => s, c.creditAmount)
                      && r.value.mnemonicEnvVar == Replace(env, "FAUCET_MNEMONIC_ENV_VAR", s => s, c.mnemonicEnvVar)
                      && r.value.minimumCreditBalanceThreshhold == c.minimumCreditBalanceThreshhold
                      && r.value.minimumCreditBalanceTopup == c.minimumCreditBalanceTopup
  {
    if !GasPriceReadable(env, parseGasPrice) then Err("Failed to parse gas price")
    else if !AddrKindReadable(env) then Err("Failed to parse chain address kind")
    else
      Ok(ConfigInit(
        c.dotenv,
        OrKeep(env, "FAUCET_LOG_LEVEL", ParseLogLevelOpt, c.logLevel),
        Replace(env, "FAUCET_CORS_ALLOWED_ORIGINS", s => Some(Split(s, ',')), c.corsAllowedOrigins),
        OrKeep(env, "FAUCET_PORT", s => ParseUnsigned(s, U16_LIMIT), c.port),
        OrKeep(env, "FAUCET_CONCURRENCY", s => ParseUnsigned(s, USIZE_LIMIT), c.concurrency),
        Replace(env, "FAUCET_MEMO", s => Some(s), c.memo),
        Replace(env, "FAUCET_MNEMONIC_ENV_VAR", s => s, c.mnemonicEnvVar),
        Replace(env, "FAUCET_CREDIT_AMOUNT", s => s, c.creditAmount),
        Replace(env, "FAUCET_CREDIT_DENOM", s => Some(s), c.creditDenom),
        Replace(env, "FAUCET_CHAIN_ID", NewChainId, c.chainId),
        Replace(env, "FAUCET_CHAIN_RPC_ENDPOINT", s => s, c.chainRpcEndpoint),
        Replace(env, "FAUCET_CHAIN_GRPC_ENDPOINT", s => s, c.chainGrpcEndpoint),
        OrKeep(env, "FAUCET_CHAIN_GAS_PRICE", parseGasPrice, c.chainGasPrice),
        Replace(env, "FAUCET_CHAIN_GAS_DENOM", s => s, c.chainGasDenom),
        OrKeep(env, "FAUCET_CHAIN_ADDRESS_KIND", s => ParseAddrKindOpt(s), c.chainAddressKind),
        Replace(env, "FAUCET_CHAIN_ADDRESS_BECH32_PREFIX", s => Some(s), c.chainAddressBech32Prefix),
        c.minimumCreditBalanceThreshhold,
        c.minimumCreditBalanceTopup))
  }

  function ParseAddrKindOpt(s: string): Option<ConfigChainAddrKindName> {
    match ParseAddrKindName(s)
    case Ok(k) => Some(k)
    case Err(_) => None
  }

  /** With no variables set the file's settings stand. */
  lemma {:induction false} ApplyEmptyEnv(c: ConfigInit, parseGasPrice: string -> Option<GasPrice>)
    ensures ApplyEnv(c, map[], parseGasPrice) == Ok(c)
  {
  }

  /** Applying the same environment twice changes nothing more. */
  lemma {:induction false} ApplyEnvIdempotent(c: ConfigInit, env: Env, parseGasPrice: string -> Option<GasPrice>)
    requires ApplyEnv(c, env, parseGasPrice).Ok?
    ensures ApplyEnv(ApplyEnv(c, env, parseGasPrice).value, env, parseGasPrice) == ApplyEnv(c, env, parseGasPrice)
  {
  }

  // ---------------------------------------------------------------------------
  // The derived configuration

  /** The chain configuration this faucet builds: no gRPC-web endpoint, the gas price as read. */
  datatype FaucetChainConfig = FaucetChainConfig(
    chainId: ChainId,
    rpcEndpoint: string,
    grpcEndpoint: string,
    grpcWebEndpoint: Option<string>,
    gasPrice: GasPrice,
    gasDenom: string,
    addressKind: AddrKind)

  datatype Config = Config(
    tracingLevel: Level,
    mnemonic: string,
    corsAllowedOrigins: Option<seq<string>>,
    port: nat,
    concurrency: nat,
    memo: Option<string>,
    chainConfig: FaucetChainConfig,
    credit: Coin,
    minimumCreditBalanceThreshhold: nat,
    minimumCreditBalanceTopup: nat)

  /** The address kind: Cosmos needs a bech32 prefix; Eth ignores any. */
  function AddressKindOf(c: ConfigInit): (r: Result<AddrKind, string>)
    ensures c.chainAddressKind.EthKind? ==> r == Ok(Eth)
    ensures c.chainAddressKind.CosmosKind? ==> (r.Ok? <==> c.chainAddressBech32Prefix.Some?)
    ensures r.Ok? && c.chainAddressKind.CosmosKind? ==> r.value == Cosmos(c.chainAddressBech32Prefix.value)
    ensures r.Err? ==> r.error == "Missing bech32 prefix"
  {
    match c.chainAddressKind
    case EthKind => Ok(Eth)
    case CosmosKind =>
      match c.chainAddressBech32Prefix
      case Some(p) => Ok(Cosmos(p))
      case None => Err("Missing bech32 prefix")
  }

  /** `TryFrom<ConfigInit> for Config`, reading the mnemonic from the variable the settings
      name. The failures, in the order they are met: no mnemonic, no bech32 prefix for a
      Cosmos chain, an unreadable threshold, an unreadable top-up (both `u128`). */
  function ToConfig(c: ConfigInit, env: Env): (r: Result<Config, string>)
    ensures r.Ok? <==> && c.mnemonicEnvVar in env && AddressKindOf(c).Ok?
                       && ParseUnsigned(c.minimumCreditBalanceThreshhold, U128_LIMIT).Some?
                       && ParseUnsigned(c.minimumCreditBalanceTopup, U128_LIMIT).Some?
    ensures c.mnemonicEnvVar !in env ==> r == Err("Missing mnemonic in " + c.mnemonicEnvVar)
    ensures c.mnemonicEnvVar in env && AddressKindOf(c).Err? ==> r == Err("Missing bech32 prefix")
    ensures c.mnemonicEnvVar in env && AddressKindOf(c).Ok? && ParseUnsigned(c.minimumCreditBalanceThreshhold, U128_LIMIT).None? ==>
              r == Err("couldn't parse minimum credit balance threshhold")
    ensures && c.mnemonicEnvVar in env && AddressKindOf(c).Ok?
            && ParseUnsigned(c.minimumCreditBalanceThreshhold, U128_LIMIT).Some?
            && ParseUnsigned(c.minimumCreditBalanceTopup, U128_LIMIT).None? ==>
              r == Err("couldn't parse minimum credit topup")
    ensures r.Ok? ==> && r.value.mnemonic == env[c.mnemonicEnvVar]
                      && r.value.tracingLevel == ToLevel(c.logLevel)
                      && r.value.corsAllowedOrigins == c.corsAllowedOrigins
                      && r.value.port == c.port && r.value.concurrency == c.concurrency && r.value.memo == c.memo
                      && r.value.credit.amount == c.creditAmount
                      && r.value.credit.denom == (if c.creditDenom.Some? then c.creditDenom.value else c.chainGasDenom)
                      && r.value.chainConfig.grpcWebEndpoint.None?
                      && r.value.chainConfig.rpcEndpoint == c.chainRpcEndpoint
                      && r.value.chainConfig.grpcEndpoint == c.chainGrpcEndpoint
                      && r.value.chainConfig.chainId == c.chainId
                      && r.value.chainConfig.gasDenom == c.chainGasDenom
                      && r.value.chainConfig.gasPrice == c.chainGasPrice
                      && r.value.chainConfig.addressKind == AddressKindOf(c).value
                      && r.value.minimumCreditBalanceThreshhold < U128_LIMIT
                      && r.value.minimumCreditBalanceThreshhold == DigitsValue(LiteralDigits(c.minimumCreditBalanceThreshhold))
                      && r.value.minimumCreditBalanceTopup < U128_LIMIT
                      && r.value.minimumCreditBalanceTopup == DigitsValue(LiteralDigits(c.minimumCreditBalanceTopup))
  {
    var denom := c.creditDenom.GetOr(c.chainGasDenom);
    // `new_coin` of a string keeps the string as the amount.
    var credit := Coin(denom, c.creditAmount);
    if c.mnemonicEnvVar !in env then Err("Missing mnemonic in " + c.mnemonicEnvVar)
    else
      var kind :- AddressKindOf(c);
      var threshold :- OkOr(ParseUnsigned(c.minimumCreditBalanceThreshhold, U128_LIMIT), "couldn't parse minimum credit balance threshhold");
      var topup :- OkOr(ParseUnsigned(c.minimumCreditBalanceTopup, U128_LIMIT), "couldn't parse minimum credit topup");
      Ok(Config(ToLevel(c.logLevel), env[c.mnemonicEnvVar], c.corsAllowedOrigins, c.port, c.concurrency, c.memo,
                FaucetChainConfig(c.chainId, c.chainRpcEndpoint, c.chainGrpcEndpoint, None, c.chainGasPrice,
                                  c.chainGasDenom, kind),
                credit, threshold, topup))
  }

  /** For an Eth chain the bech32 prefix plays no part. */
  lemma {:induction false} EthIgnoresPrefix(c: ConfigInit, env: Env, prefix: Option<string>)
    requires c.chainAddressKind.EthKind?
    ensures ToConfig(c.(chainAddressBech32Prefix := prefix), env) == ToConfig(c, env)
  {
  }
}
