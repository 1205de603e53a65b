/** Transaction building and broadcasting (`transaction.rs`): the sequence strategies, the
    `TxBuilder` and its setters, fee calculation, signing and the broadcast pipeline. Every
    network answer (account query, block height, simulation, broadcast, polling) and every
    signer answer is a field of `Network`. The `u64` sequence counter wraps like
    `AtomicU64::fetch_add`. */
module Transaction {
  import opened Wrappers
  import opened Text
  import opened Keys
  import opened ChainConfig
  import opened Signer
  import opened Prelude
  import opened Middleware
  import Address

  const DEFAULT_TX_TIMEOUT_BLOCKS: nat := 10
  const DEFAULT_GAS_MULTIPLIER: real := 1.5
  /** The default polling interval and give-up time, in nanoseconds. */
  const DEFAULT_BROADCAST_POLL_SLEEP_DURATION: nat := 1_000_000_000
  const DEFAULT_BROADCAST_POLL_TIMEOUT_DURATION: nat := 30_000_000_000

  const SIGN_MODE_UNSPECIFIED := SignMode(0)
  const SIGN_MODE_DIRECT := SignMode(1)

  /** `BroadcastMode`; the default is `Sync`. */
  datatype BroadcastMode = Unspecified | Block | Sync | Async
  const DEFAULT_BROADCAST_MODE := Sync

  // ---------------------------------------------------------------------------
  // Sequence strategies

  datatype SequenceStrategyKind =
    | Query                    // query every time
    | QueryAndIncrement        // query the first time, then count successful txs
    | SetAndIncrement(n: nat)  // start at n, then count successful txs
    | Constant(n: nat)         // n every time

  /** `SequenceStrategy`: the kind, the shared counter and the "already queried" flag. */
  datatype SequenceStrategy = SequenceStrategy(kind: SequenceStrategyKind, value: nat, hasQueried: bool)

  /** `SequenceStrategy::new`. */
  function NewSequenceStrategy(kind: SequenceStrategyKind): (r: SequenceStrategy)
    ensures r.kind == kind && !r.hasQueried
    ensures (kind.SetAndIncrement? || kind.Constant?) ==> r.value == kind.n
    ensures (kind.Query? || kind.QueryAndIncrement?) ==> r.value == 0
  {
    var start := match kind
      case SetAndIncrement(n) => n
      case Constant(n) => n
      case _ => 0;
    SequenceStrategy(kind, start, false)
  }

  /** The kinds whose counter moves after a successful transaction. */
  predicate Increments(kind: SequenceStrategyKind) {
    kind.QueryAndIncrement? || kind.SetAndIncrement?
  }

  /** The counter after a transaction landed: `fetch_add(1)` (wrapping at 2^64) for the
      incrementing kinds, nothing for the others. */
  function AfterSuccess(s: Option<SequenceStrategy>): (r: Option<SequenceStrategy>)
    ensures r.None? <==> s.None?
    ensures s.Some? ==> r.value.kind == s.value.kind && r.value.hasQueried == s.value.hasQueried
    ensures s.Some? && Increments(s.value.kind) && s.value.value < U64_LIMIT - 1 ==>
              r.value.value == s.value.value + 1
    ensures s.Some? && Increments(s.value.kind) && s.value.value == U64_LIMIT - 1 ==>
              r.value.value == 0
    ensures s.Some? && !Increments(s.value.kind) ==> r == s
  {
    match s
    case None => None
    case Some(st) =>
      if Increments(st.kind) then Some(st.(value := (st.value + 1) % U64_LIMIT)) else s
  }

  // ---------------------------------------------------------------------------
  // Messages

  datatype BaseAccount = BaseAccount(accountNumber: nat, sequence: nat)

  datatype TxBody = TxBody(messages: seq<Any>, memo: string, timeoutHeight: nat)

  datatype Fee = Fee(amount: seq<Coin>, gasLimit: nat, payer: string, granter: string)

  datatype AuthInfo = AuthInfo(signerInfos: seq<SignerInfo>, fee: Fee)

  /** `SignDoc`, with the body and auth info kept as messages (their protobuf bytes are a
      fixed encoding of them). */
  datatype SignDoc = SignDoc(body: TxBody, authInfo: AuthInfo, chainId: string, accountNumber: nat)

  datatype TxRaw = TxRaw(body: TxBody, authInfo: AuthInfo, signatures: seq<seq<byte>>)

  /** The two shapes of `AnyTxResponse`; both carry a code, codespace, raw log and hash. */
  datatype ResponseSource = Abci | Rpc
  datatype TxResponse = TxResponse(source: ResponseSource, code: nat, codespace: string, rawLog: string, txHash: string)

  datatype TxError =
    | MissingSender                                     // "must provide a sender if no sequence"
    | QueryFailed(message: string)
    | SignerFailed(error: SignerError)
    | MiddlewareFailed(message: string)
    | NoGasInfo                                         // "unable to get gas from simulation"
    | TxFailed(code: nat, codespace: string, rawLog: string)
    | UnexpectedRpcResponse
    | HeightOverflow                                    // the `u64` timeout-height addition overflows (a panic)

  /** What the chain, the signer and the middlewares answer. `scaleGas` is the floating-point
      `ceil(gas_used * multiplier)` and `networkFee` the floating-point
      `ceil(gas_price * gas_units)` of the chain config. `debugLogging` says whether
      debug-level tracing is enabled, which decides whether the signer address is computed. */
  datatype Network = Network(
    account: Address.Address -> Result<BaseAccount, string>,
    publicKey: Result<PublicKey, SignerError>,
    signerAddress: Result<string, SignerError>,
    debugLogging: bool,
    blockHeight: Result<nat, string>,
    simulate: TxRaw -> Result<Option<nat>, string>,
    sign: SignDoc -> Result<seq<byte>, SignerError>,
    broadcast: (TxRaw, BroadcastMode) -> Result<TxResponse, string>,
    poll: (string, nat, nat) -> Result<TxResponse, string>,
    mapBody: (nat, TxBody) -> Result<TxBody, string>,
    mapResp: (nat, TxResponse) -> Result<TxResponse, string>,
    scaleGas: (real, nat) -> nat,
    networkFee: nat -> nat)

  // ---------------------------------------------------------------------------
  // The builder

  /** `TxBuilder`, with the querier reduced to its chain id and gas denomination and the
      middleware lists to handles. */
  datatype TxBuilder = TxBuilder(
    chainId: ChainId,
    gasDenom: string,
    sender: Option<Address.Address>,
    txTimeoutBlocks: Option<nat>,
    sequenceStrategy: Option<SequenceStrategy>,
    accountNumber: Option<nat>,
    memo: Option<string>,
    gasCoin: Option<Coin>,
    gasUnitsOrSimulate: Option<nat>,
    gasSimulateMultiplier: Option<real>,
    broadcastMode: Option<BroadcastMode>,
    broadcastPoll: bool,
    broadcastPollSleepDuration: Option<nat>,
    broadcastPollTimeoutDuration: Option<nat>,
    middlewareMapBody: Option<seq<nat>>,
    middlewareMapResp: Option<seq<nat>>)

  /** `TxBuilder::new`: polling on, every optional setting unset. */
  function NewTxBuilder(chainId: ChainId, gasDenom: string): (r: TxBuilder)
    ensures r.chainId == chainId && r.gasDenom == gasDenom && r.broadcastPoll
    ensures r.sender.None? && r.txTimeoutBlocks.None? && r.sequenceStrategy.None? && r.accountNumber.None?
    ensures r.memo.None? && r.gasCoin.None? && r.gasUnitsOrSimulate.None? && r.gasSimulateMultiplier.None?
    ensures r.broadcastMode.None? && r.broadcastPollSleepDuration.None? && r.broadcastPollTimeoutDuration.None?
    ensures r.middlewareMapBody.None? && r.middlewareMapResp.None?
  {
    TxBuilder(chainId, gasDenom, None, None, None, None, None, None, None, None, None, true, None, None, None, None)
  }

  // Each setter sets its own field and leaves every other field as it was.

  function SetTxTimeoutBlocks(b: TxBuilder, blocks: nat): (r: TxBuilder)
    ensures r.txTimeoutBlocks == Some(blocks) && r.(txTimeoutBlocks := b.txTimeoutBlocks) == b
  {
    b.(txTimeoutBlocks := Some(blocks))
  }

  function SetMemo(b: TxBuilder, memo: string): (r: TxBuilder)
    ensures r.memo == Some(memo) && r.(memo := b.memo) == b
  {
    b.(memo := Some(memo))
  }

  function SetSequenceStrategy(b: TxBuilder, s: SequenceStrategy): (r: TxBuilder)
    ensures r.sequenceStrategy == Some(s) && r.(sequenceStrategy := b.sequenceStrategy) == b
  {
    b.(sequenceStrategy := Some(s))
  }

  function SetSender(b: TxBuilder, sender: Address.Address): (r: TxBuilder)
    ensures r.sender == Some(sender) && r.(sender := b.sender) == b
  {
    b.(sender := Some(sender))
  }

  function SetGasCoin(b: TxBuilder, coin: Coin): (r: TxBuilder)
    ensures r.gasCoin == Some(coin) && r.(gasCoin := b.gasCoin) == b
  {
    b.(gasCoin := Some(coin))
  }

  /** Takes an `Option`: `None` switches back to simulation. */
  function SetGasUnitsOrSimulate(b: TxBuilder, units: Option<nat>): (r: TxBuilder)
    ensures r.gasUnitsOrSimulate == units && r.(gasUnitsOrSimulate := b.gasUnitsOrSimulate) == b
  {
    b.(gasUnitsOrSimulate := units)
  }

  function SetGasSimulateMultiplier(b: TxBuilder, m: real): (r: TxBuilder)
    ensures r.gasSimulateMultiplier == Some(m) && r.(gasSimulateMultiplier := b.gasSimulateMultiplier) == b
  {
    b.(gasSimulateMultiplier := Some(m))
  }

  function SetAccountNumber(b: TxBuilder, n: nat): (r: TxBuilder)
    ensures r.accountNumber == Some(n) && r.(accountNumber := b.accountNumber) == b
  {
    b.(accountNumber := Some(n))
  }

  function SetBroadcastMode(b: TxBuilder, mode: BroadcastMode): (r: TxBuilder)
    ensures r.broadcastMode == Some(mode) && r.(broadcastMode := b.broadcastMode) == b
  {
    b.(broadcastMode := Some(mode))
  }

  function SetBroadcastPoll(b: TxBuilder, poll: bool): (r: TxBuilder)
    ensures r.broadcastPoll == poll && r.(broadcastPoll := b.broadcastPoll) == b
  {
    b.(broadcastPoll := poll)
  }

  function SetBroadcastPollSleepDuration(b: TxBuilder, d: nat): (r: TxBuilder)
    ensures r.broadcastPollSleepDuration == Some(d) && r.(broadcastPollSleepDuration := b.broadcastPollSleepDuration) == b
  {
    b.(broadcastPollSleepDuration := Some(d))
  }

  function SetBroadcastPollTimeoutDuration(b: TxBuilder, d: nat): (r: TxBuilder)
    ensures r.broadcastPollTimeoutDuration == Some(d) && r.(broadcastPollTimeoutDuration := b.broadcastPollTimeoutDuration) == b
  {
    b.(broadcastPollTimeoutDuration := Some(d))
  }

  function SetMiddlewareMapBody(b: TxBuilder, hs: seq<nat>): (r: TxBuilder)
    ensures r.middlewareMapBody == Some(hs) && r.(middlewareMapBody := b.middlewareMapBody) == b
  {
    b.(middlewareMapBody := Some(hs))
  }

  function SetMiddlewareMapResp(b: TxBuilder, hs: seq<nat>): (r: TxBuilder)
    ensures r.middlewareMapResp == Some(hs) && r.(middlewareMapResp := b.middlewareMapResp) == b
  {
    b.(middlewareMapResp := Some(hs))
  }

  // ---------------------------------------------------------------------------
  // The current sequence

  /** `query_base_account`: needs a sender. */
  function QueryBaseAccount(b: TxBuilder, net: Network): (r: Result<BaseAccount, TxError>)
    ensures b.sender.None? ==> r == Err(MissingSender)
    ensures b.sender.Some? ==> r == net.account(b.sender.value).MapErr(e => QueryFailed(e))
  {
    match b.sender
    case None => Err(MissingSender)
    case Some(sender) => net.account(sender).MapErr(e => QueryFailed(e))
  }

  /** The answer of `current_sequence`, whether it queried the account, and the strategy
      state afterwards. */
  datatype SequenceOutcome = SequenceOutcome(result: Result<nat, TxError>, queried: bool, strategy: Option<SequenceStrategy>)

  /** Whether the debug line of `current_sequence` lets the call through: the signer's address
      is only computed when debug logging is enabled, and then a failure there fails the call. */
  predicate SignerLogOk(net: Network) {
    !net.debugLogging || net.signerAddress.Ok?
  }

  /** `current_sequence`. After choosing the sequence it logs the signer's address at debug
      level. With debug logging enabled, a failure there fails the call even though
      `QueryAndIncrement` has already stored what it queried; with it disabled the address is
      never computed. */
  function CurrentSequence(b: TxBuilder, net: Network): (r: SequenceOutcome)
    ensures r.strategy.None? <==> b.sequenceStrategy.None?
    ensures r.strategy.Some? ==> r.strategy.value.kind == b.sequenceStrategy.value.kind
    // Queries for `Query`, for no strategy, and for `QueryAndIncrement` only until it has queried.
    ensures r.queried <==> (b.sequenceStrategy.None? || b.sequenceStrategy.value.kind.Query?
                            || (b.sequenceStrategy.value.kind.QueryAndIncrement? && !b.sequenceStrategy.value.hasQueried))
    ensures r.queried ==> (r.result.Ok? <==> QueryBaseAccount(b, net).Ok? && SignerLogOk(net))
    ensures r.queried && r.result.Ok? ==> r.result.value == QueryBaseAccount(b, net).value.sequence
    ensures !r.queried ==> (r.result.Ok? <==> SignerLogOk(net))
    ensures r.result.Err? && !SignerLogOk(net) && (!r.queried || QueryBaseAccount(b, net).Ok?) ==>
              r.result == Err(SignerFailed(net.signerAddress.error))
    ensures !r.queried && r.result.Ok? ==>
              r.result.value == (if b.sequenceStrategy.value.kind.Constant? then b.sequenceStrategy.value.kind.n
                                 else b.sequenceStrategy.value.value)
    // Only a first successful query of `QueryAndIncrement` changes the strategy.
    ensures r.strategy != b.sequenceStrategy ==>
              && b.sequenceStrategy.value.kind.QueryAndIncrement? && r.queried && QueryBaseAccount(b, net).Ok?
              && r.strategy.value.hasQueried && r.strategy.value.value == QueryBaseAccount(b, net).value.sequence
    ensures r.queried && b.sequenceStrategy.Some? && b.sequenceStrategy.value.kind.QueryAndIncrement? && QueryBaseAccount(b, net).Ok? ==>
              r.strategy.value.hasQueried && r.strategy.value.value == QueryBaseAccount(b, net).value.sequence
    // For the counting kinds, the sequence handed out is the counter's value.
    ensures r.result.Ok? && r.strategy.Some? && Increments(r.strategy.value.kind) ==> r.strategy.value.value == r.result.value
  {
    var chosen: (Result<nat, TxError>, bool, Option<SequenceStrategy>) :=
      match b.sequenceStrategy
      case None =>
        (SequenceOf(QueryBaseAccount(b, net)), true, None)
      case Some(s) =>
        match s.kind
        case Query => (SequenceOf(QueryBaseAccount(b, net)), true, b.sequenceStrategy)
        case QueryAndIncrement =>
          if !s.hasQueried then
            match QueryBaseAccount(b, net)
            case Err(e) => (Err(e), true, b.sequenceStrategy)
            case Ok(acc) => (Ok(acc.sequence), true, Some(s.(hasQueried := true, value := acc.sequence)))
          else (Ok(s.value), false, b.sequenceStrategy)
        case SetAndIncrement(_) => (Ok(s.value), false, b.sequenceStrategy)
        case Constant(n) => (Ok(n), false, b.sequenceStrategy);
    var result := if chosen.0.Ok? && !SignerLogOk(net) then Err(SignerFailed(net.signerAddress.error)) else chosen.0;
    SequenceOutcome(result, chosen.1, chosen.2)
  }

  function SequenceOf(acc: Result<BaseAccount, TxError>): (r: Result<nat, TxError>)
    ensures r.Ok? <==> acc.Ok?
    ensures r.Ok? ==> r.value == acc.value.sequence
    ensures r.Err? ==> r.error == acc.error
  {
    match acc
    case Ok(a) => Ok(a.sequence)
    case Err(e) => Err(e)
  }

  /** A successful `QueryAndIncrement` query is made once: the next call answers the stored
      value without querying. */
  lemma {:induction false} QueryAndIncrementQueriesOnce(b: TxBuilder, net: Network)
    requires b.sequenceStrategy == Some(NewSequenceStrategy(QueryAndIncrement))
    requires QueryBaseAccount(b, net).Ok? && SignerLogOk(net)
    ensures var first := CurrentSequence(b, net);
            var second := CurrentSequence(b.(sequenceStrategy := first.strategy), net);
            first.queried && !second.queried && second.result == first.result
            && second.strategy == first.strategy
  {
  }

  /** A `Constant` strategy gives its number on every call and never moves. */
  lemma {:induction false} ConstantNeverMoves(b: TxBuilder, net: Network, n: nat)
    requires b.sequenceStrategy.Some? && b.sequenceStrategy.value.kind == Constant(n)
    requires SignerLogOk(net)
    ensures CurrentSequence(b, net).result == Ok(n)
    ensures CurrentSequence(b, net).strategy == b.sequenceStrategy
    ensures AfterSuccess(b.sequenceStrategy) == b.sequenceStrategy
  {
  }

  // ---------------------------------------------------------------------------
  // Fees and signing

  /** `FeeCalculation`. The `RealNetwork` amount, a floating-point product in the Rust code, is
      given precomputed. */
  datatype FeeCalculation =
    | Simulation(gasDenom: string)
    | RealNetwork(gasDenom: string, gasUnits: nat, amount: nat)
    | RealCoin(gasCoin: Coin, gasUnits: nat)

  /** `FeeCalculation::calculate`, which never fails: exactly one coin, no payer or granter. */
  function CalculateFee(f: FeeCalculation): (r: Fee)
    ensures |r.amount| == 1 && r.payer == "" && r.granter == ""
    ensures f.Simulation? ==> r.amount[0] == Coin(f.gasDenom, "0") && r.gasLimit == 0
    ensures f.RealCoin? ==> r.amount[0] == f.gasCoin && r.gasLimit == f.gasUnits
    ensures f.RealNetwork? ==> r.amount[0].denom == f.gasDenom && r.gasLimit == f.gasUnits
    ensures f.RealNetwork? && f.amount < U128_LIMIT ==> ParseUnsigned(r.amount[0].amount, U128_LIMIT) == Some(f.amount)
  {
    match f
    case Simulation(denom) =>
      assert NatToString(0) == "0";
      Fee([NewCoin(0, denom)], 0, "", "")
    case RealNetwork(denom, units, amount) =>
      assert amount < U128_LIMIT ==> ParseUnsigned(NewCoin(amount, denom).amount, U128_LIMIT) == Some(amount) by {
        if amount < U128_LIMIT { NewCoinAmountRoundTrip(amount, denom); }
      }
      Fee([NewCoin(amount, denom)], units, "", "")
    case RealCoin(coin, units) => Fee([coin], units, "", "")
  }

  /** The timeout height written into the body: the block height plus the configured number
      of blocks, 10 by default. The sum is a `u64` addition; `None` where it overflows. */
  function TimeoutHeight(b: TxBuilder, blockHeight: nat): (r: Option<nat>)
    ensures r.Some? <==> blockHeight + b.txTimeoutBlocks.GetOr(DEFAULT_TX_TIMEOUT_BLOCKS) < U64_LIMIT
    ensures r.Some? && b.txTimeoutBlocks.None? ==> r.value == blockHeight + DEFAULT_TX_TIMEOUT_BLOCKS
    ensures r.Some? && b.txTimeoutBlocks.Some? ==> r.value == blockHeight + b.txTimeoutBlocks.value
    ensures r.Some? ==> r.value >= blockHeight
  {
    var sum := blockHeight + b.txTimeoutBlocks.GetOr(DEFAULT_TX_TIMEOUT_BLOCKS);
    if sum < U64_LIMIT then Some(sum) else None
  }

  /** `sign_tx`: one signer info, the timeout height set from the current block height, and
      exactly one signature, empty for a simulation. */
  function SignTx(b: TxBuilder, net: Network, signerInfo: SignerInfo, accountNumber: nat, body: TxBody,
                  fee: Fee, simulateOnly: bool): (r: Result<TxRaw, TxError>)
    ensures r.Ok? <==> && net.blockHeight.Ok? && TimeoutHeight(b, net.blockHeight.value).Some?
                       && (simulateOnly || net.sign(SignDocFor(b, net, signerInfo, accountNumber, body, fee)).Ok?)
    ensures net.blockHeight.Ok? && TimeoutHeight(b, net.blockHeight.value).None? ==> r == Err(HeightOverflow)
    ensures r.Ok? ==> && TimeoutHeight(b, net.blockHeight.value) == Some(r.value.body.timeoutHeight)
                      && r.value.body == body.(timeoutHeight := r.value.body.timeoutHeight)
                      && r.value.authInfo == AuthInfo([signerInfo], fee)
                      && |r.value.signatures| == 1
                      && (simulateOnly ==> r.value.signatures[0] == [])
                      && (!simulateOnly ==> r.value.signatures[0] == net.sign(SignDocFor(b, net, signerInfo, accountNumber, body, fee)).value)
  {
    var height :- net.blockHeight.MapErr(e => QueryFailed(e));
    var _ :- OkOr(TimeoutHeight(b, height), HeightOverflow);
    var doc := SignDocFor(b, net, signerInfo, accountNumber, body, fee);
    var signature :- if simulateOnly then Ok([]) else net.sign(doc).MapErr(e => SignerFailed(e));
    Ok(TxRaw(doc.body, doc.authInfo, [signature]))
  }

  /** The document `sign_tx` signs (meaningful once the block height is known). */
  function SignDocFor(b: TxBuilder, net: Network, signerInfo: SignerInfo, accountNumber: nat, body: TxBody, fee: Fee): SignDoc {
    var timeout := if net.blockHeight.Ok? then TimeoutHeight(b, net.blockHeight.value).GetOr(0) else 0;
    SignDoc(body.(timeoutHeight := timeout), AuthInfo([signerInfo], fee), ChainIdDisplay(b.chainId), accountNumber)
  }

  /** `simulate_gas`: a simulation-fee transaction signed with an empty signature; a
      simulation without gas info is an error. */
  function SimulateGas(b: TxBuilder, net: Network, signerInfo: SignerInfo, accountNumber: nat, body: TxBody): (r: Result<nat, TxError>)
    ensures r.Ok? ==> exists raw :: SignTx(b, net, signerInfo, accountNumber, body, CalculateFee(Simulation(b.gasDenom)), true) == Ok(raw)
                                   && net.simulate(raw) == Ok(Some(r.value))
    ensures (var s := SignTx(b, net, signerInfo, accountNumber, body, CalculateFee(Simulation(b.gasDenom)), true);
             s.Ok? && net.simulate(s.value) == Ok(None)) ==> r == Err(NoGasInfo)
  {
    var raw :- SignTx(b, net, signerInfo, accountNumber, body, CalculateFee(Simulation(b.gasDenom)), true);
    var info :- net.simulate(raw).MapErr(e => QueryFailed(e));
    OkOr(info, NoGasInfo)
  }

  // ---------------------------------------------------------------------------
  // Broadcasting

  /** The account number (the builder's, else the sender's account's) and the body with the
      memo (empty by default) after the body middlewares ran in list order. */
  function PrepareBody(b: TxBuilder, net: Network, messages: seq<Any>): (r: Result<(nat, TxBody), TxError>)
    ensures b.accountNumber.None? && QueryBaseAccount(b, net).Err? ==> r == Err(QueryBaseAccount(b, net).error)
    ensures r.Ok? ==> r.value.0 == (if b.accountNumber.Some? then b.accountNumber.value else QueryBaseAccount(b, net).value.accountNumber)
    ensures (b.accountNumber.Some? || QueryBaseAccount(b, net).Ok?) ==>
              (r.Ok? <==> RunMappers(b.middlewareMapBody.GetOr([]), net.mapBody, TxBody(messages, b.memo.GetOr(""), 0)).Ok?)
    ensures r.Ok? ==> RunMappers(b.middlewareMapBody.GetOr([]), net.mapBody, TxBody(messages, b.memo.GetOr(""), 0)) == Ok(r.value.1)
  {
    var accountNumber :- match b.accountNumber
      case Some(n) => Ok(n)
      case None =>
        var acc :- QueryBaseAccount(b, net);
        Ok(acc.accountNumber);
    var body :- RunMappers(b.middlewareMapBody.GetOr([]), net.mapBody, TxBody(messages, b.memo.GetOr(""), 0))
                  .MapErr(e => MiddlewareFailed(e));
    Ok((accountNumber, body))
  }

  /** The gas units: the builder's, else a simulation scaled by the multiplier (1.5 by
      default). Simulating asks for the current sequence, which can move the strategy. */
  function GasUnits(b: TxBuilder, net: Network, accountNumber: nat, body: TxBody): (r: (Result<nat, TxError>, Option<SequenceStrategy>))
    ensures b.gasUnitsOrSimulate.Some? ==> r == (Ok(b.gasUnitsOrSimulate.value), b.sequenceStrategy)
    ensures b.gasUnitsOrSimulate.None? ==> r.1 == CurrentSequence(b, net).strategy
    ensures b.gasUnitsOrSimulate.None? && r.0.Ok? ==>
              exists used :: r.0.value == net.scaleGas(b.gasSimulateMultiplier.GetOr(DEFAULT_GAS_MULTIPLIER), used)
  {
    match b.gasUnitsOrSimulate
    case Some(units) => (Ok(units), b.sequenceStrategy)
    case None =>
      var cs := CurrentSequence(b, net);
      var units := (
        var sequence :- cs.result;
        var info :- DefaultSignerInfo(net.publicKey, sequence, SIGN_MODE_UNSPECIFIED).MapErr(e => SignerFailed(e));
        var used :- SimulateGas(b.(sequenceStrategy := cs.strategy), net, info, accountNumber, body);
        Ok(net.scaleGas(b.gasSimulateMultiplier.GetOr(DEFAULT_GAS_MULTIPLIER), used)));
      (units, cs.strategy)
  }

  /** The fee: `RealCoin` with the builder's gas coin, else `RealNetwork` in the chain's gas
      denomination. */
  function FeeFor(b: TxBuilder, net: Network, units: nat): (r: Fee)
    ensures r.gasLimit == units && |r.amount| == 1
    ensures b.gasCoin.Some? ==> r.amount == [b.gasCoin.value]
    ensures b.gasCoin.None? ==> r.amount[0].denom == b.gasDenom
  {
    match b.gasCoin
    case Some(coin) => CalculateFee(RealCoin(coin, units))
    case None => CalculateFee(RealNetwork(b.gasDenom, units, net.networkFee(units)))
  }

  /** The sequence a signed transaction carries. */
  function SignedSequence(raw: TxRaw): nat
    requires |raw.authInfo.signerInfos| == 1
  {
    raw.authInfo.signerInfos[0].sequence
  }

  /** The transaction for broadcast: the current sequence (asked again), a `Direct`-mode
      signer info and a real signature. */
  function SignForBroadcast(b: TxBuilder, net: Network, accountNumber: nat, body: TxBody, fee: Fee)
    : (r: (Result<TxRaw, TxError>, Option<SequenceStrategy>))
    ensures r.1 == CurrentSequence(b, net).strategy
    ensures r.0.Ok? ==> && CurrentSequence(b, net).result.Ok?
                        && |r.0.value.signatures| == 1 && |r.0.value.authInfo.signerInfos| == 1
                        && SignedSequence(r.0.value) == CurrentSequence(b, net).result.value
                        && r.0.value.authInfo.signerInfos[0].modeInfo == Some(Single(SIGN_MODE_DIRECT))
                        && r.0.value.authInfo.fee == fee
                        && net.blockHeight.Ok? && TimeoutHeight(b, net.blockHeight.value) == Some(r.0.value.body.timeoutHeight)
                        && r.0.value.body == body.(timeoutHeight := r.0.value.body.timeoutHeight)
  {
    var cs := CurrentSequence(b, net);
    var raw := (
      var sequence :- cs.result;
      var info :- DefaultSignerInfo(net.publicKey, sequence, SIGN_MODE_DIRECT).MapErr(e => SignerFailed(e));
      SignTx(b.(sequenceStrategy := cs.strategy), net, info, accountNumber, body, fee, false));
    (raw, cs.strategy)
  }

  /** The broadcast answer, polled for when polling is on (1 s interval and 30 s limit by
      default). */
  function Response(b: TxBuilder, net: Network, raw: TxRaw): Result<TxResponse, TxError> {
    var sent :- net.broadcast(raw, b.broadcastMode.GetOr(DEFAULT_BROADCAST_MODE)).MapErr(e => QueryFailed(e));
    if sent.code != 0 then Err(TxFailed(sent.code, sent.codespace, sent.rawLog))
    else if b.broadcastPoll then
      var polled :- net.poll(sent.txHash, b.broadcastPollSleepDuration.GetOr(DEFAULT_BROADCAST_POLL_SLEEP_DURATION),
                             b.broadcastPollTimeoutDuration.GetOr(DEFAULT_BROADCAST_POLL_TIMEOUT_DURATION)).MapErr(e => QueryFailed(e));
      Ok(polled.(source := Abci))
    else Ok(sent)
  }

  /** The transaction landed: broadcast accepted it with code 0 and, when polling, it was
      found on chain with code 0. */
  predicate Landed(b: TxBuilder, net: Network, raw: TxRaw) {
    Response(b, net, raw).Ok? && Response(b, net, raw).value.code == 0
  }

  /** Whether a transaction lands does not depend on the builder's sequence strategy. */
  lemma {:induction false} LandedIgnoresStrategy(b: TxBuilder, s: Option<SequenceStrategy>, net: Network)
    ensures forall raw :: Landed(b.(sequenceStrategy := s), net, raw) == Landed(b, net, raw)
  {
  }

  /** Broadcasting a signed transaction: a non-zero code, at broadcast or after polling, is an
      error before the counter moves; a landed transaction moves it, then the response
      middlewares run. */
  function Submit(b: TxBuilder, net: Network, raw: TxRaw): (r: (Result<TxResponse, TxError>, Option<SequenceStrategy>))
    ensures r.1 == (if Landed(b, net, raw) then AfterSuccess(b.sequenceStrategy) else b.sequenceStrategy)
    ensures r.0.Ok? <==> Landed(b, net, raw) && RunMappers(b.middlewareMapResp.GetOr([]), net.mapResp, Response(b, net, raw).value).Ok?
    ensures r.0.Ok? ==> Ok(r.0.value) == RunMappers(b.middlewareMapResp.GetOr([]), net.mapResp, Response(b, net, raw).value)
    ensures var sent := net.broadcast(raw, b.broadcastMode.GetOr(DEFAULT_BROADCAST_MODE));
            sent.Ok? && sent.value.code != 0 ==> r == (Err(TxFailed(sent.value.code, sent.value.codespace, sent.value.rawLog)), b.sequenceStrategy)
  {
    match Response(b, net, raw)
    case Err(e) => (Err(e), b.sequenceStrategy)
    case Ok(resp) =>
      if resp.code != 0 then (Err(TxFailed(resp.code, resp.codespace, resp.rawLog)), b.sequenceStrategy)
      else
        var strategy := AfterSuccess(b.sequenceStrategy);
        (RunMappers(b.middlewareMapResp.GetOr([]), net.mapResp, resp).MapErr(e => MiddlewareFailed(e)), strategy)
  }

  /** What `broadcast_raw` returns, the strategy state it leaves, and the transaction it
      sent if it got that far. */
  datatype BroadcastOutcome = BroadcastOutcome(result: Result<TxResponse, TxError>, strategy: Option<SequenceStrategy>, sent: Option<TxRaw>)

  /** `broadcast_raw`. */
  function BroadcastRaw(b: TxBuilder, net: Network, messages: seq<Any>): (r: BroadcastOutcome)
    ensures r.strategy.None? <==> b.sequenceStrategy.None?
    ensures r.strategy.Some? ==> r.strategy.value.kind == b.sequenceStrategy.value.kind
    ensures r.result.Ok? ==> r.sent.Some? && Landed(b, net, r.sent.value)
    ensures r.sent.Some? ==> && |r.sent.value.signatures| == 1 && |r.sent.value.authInfo.signerInfos| == 1
                             && r.sent.value.authInfo.signerInfos[0].modeInfo == Some(Single(SIGN_MODE_DIRECT))
                             && net.blockHeight.Ok? && TimeoutHeight(b, net.blockHeight.value) == Some(r.sent.value.body.timeoutHeight)
    ensures r.sent.Some? && b.middlewareMapBody.None? ==>
              r.sent.value.body.messages == messages && r.sent.value.body.memo == b.memo.GetOr("")
    // The counter of a counting strategy ends one past the sequence used if and only if the
    // transaction landed, and at that sequence otherwise.
    ensures r.sent.Some? && r.strategy.Some? && Increments(r.strategy.value.kind) ==>
              r.strategy.value.value == (if Landed(b, net, r.sent.value)
                                         then (SignedSequence(r.sent.value) + 1) % U64_LIMIT
                                         else SignedSequence(r.sent.value))
    ensures r.sent.Some? && !Landed(b, net, r.sent.value) ==> r.result.Err?
  {
    match PrepareBody(b, net, messages)
    case Err(e) => BroadcastOutcome(Err(e), b.sequenceStrategy, None)
    case Ok((accountNumber, body)) =>
      GasSignSubmitCounter(b, net, accountNumber, body);
      GasSignSubmit(b, net, accountNumber, body)
  }

  /** `broadcast_raw` once the body is prepared: gas, then signing and submitting. */
  function GasSignSubmit(b: TxBuilder, net: Network, accountNumber: nat, body: TxBody): (r: BroadcastOutcome)
    ensures r.strategy.None? <==> b.sequenceStrategy.None?
    ensures r.strategy.Some? ==> r.strategy.value.kind == b.sequenceStrategy.value.kind
    ensures r.result.Ok? ==> r.sent.Some? && Landed(b, net, r.sent.value)
    ensures r.sent.Some? ==> && |r.sent.value.signatures| == 1 && |r.sent.value.authInfo.signerInfos| == 1
                             && r.sent.value.authInfo.signerInfos[0].modeInfo == Some(Single(SIGN_MODE_DIRECT))
                             && net.blockHeight.Ok? && TimeoutHeight(b, net.blockHeight.value) == Some(r.sent.value.body.timeoutHeight)
                             && r.sent.value.body == body.(timeoutHeight := r.sent.value.body.timeoutHeight)
  {
    var gas := GasUnits(b, net, accountNumber, body);
    var b1 := b.(sequenceStrategy := gas.1);
    match gas.0
    case Err(e) => BroadcastOutcome(Err(e), b1.sequenceStrategy, None)
    case Ok(units) =>
      LandedIgnoresStrategy(b, gas.1, net);
      SignAndSubmit(b1, net, accountNumber, body, units)
  }

  /** The counter after `GasSignSubmit`, as `SignAndSubmitCounter` states it. */
  lemma {:induction false} GasSignSubmitCounter(b: TxBuilder, net: Network, accountNumber: nat, body: TxBody)
    ensures var r := GasSignSubmit(b, net, accountNumber, body);
            && (r.sent.Some? && r.strategy.Some? && Increments(r.strategy.value.kind) ==>
                  r.strategy.value.value == (if Landed(b, net, r.sent.value)
                                             then (SignedSequence(r.sent.value) + 1) % U64_LIMIT
                                             else SignedSequence(r.sent.value)))
            && (r.sent.Some? && !Landed(b, net, r.sent.value) ==> r.result.Err?)
  {
    var gas := GasUnits(b, net, accountNumber, body);
    if gas.0.Ok? {
      SignAndSubmitCounter(b.(sequenceStrategy := gas.1), net, accountNumber, body, gas.0.value);
      LandedIgnoresStrategy(b, gas.1, net);
    }
  }

  /** The second half of `broadcast_raw`, once the gas is known: sign with the current
      sequence, then submit. */
  function SignAndSubmit(b: TxBuilder, net: Network, accountNumber: nat, body: TxBody, units: nat): (r: BroadcastOutcome)
    ensures r.strategy.None? <==> b.sequenceStrategy.None?
    ensures r.strategy.Some? ==> r.strategy.value.kind == b.sequenceStrategy.value.kind
    ensures r.result.Ok? ==> r.sent.Some? && Landed(b, net, r.sent.value)
    ensures r.sent.Some? ==> && |r.sent.value.signatures| == 1 && |r.sent.value.authInfo.signerInfos| == 1
                             && r.sent.value.authInfo.signerInfos[0].modeInfo == Some(Single(SIGN_MODE_DIRECT))
                             && net.blockHeight.Ok? && TimeoutHeight(b, net.blockHeight.value) == Some(r.sent.value.body.timeoutHeight)
                             && r.sent.value.body == body.(timeoutHeight := r.sent.value.body.timeoutHeight)
    ensures r.sent.Some? ==> CurrentSequence(b, net).result == Ok(SignedSequence(r.sent.value))
  {
    var signed := SignForBroadcast(b, net, accountNumber, body, FeeFor(b, net, units));
    var b2 := b.(sequenceStrategy := signed.1);
    match signed.0
    case Err(e) => BroadcastOutcome(Err(e), b2.sequenceStrategy, None)
    case Ok(raw) =>
      var submitted := Submit(b2, net, raw);
      LandedIgnoresStrategy(b, signed.1, net);
      BroadcastOutcome(submitted.0, submitted.1, Some(raw))
  }

  /** After signing and submitting, a counting strategy's counter is one past the sequence
      signed if and only if the transaction landed, and a transaction that did not land is
      an error. */
  lemma {:induction false} SignAndSubmitCounter(b: TxBuilder, net: Network, accountNumber: nat, body: TxBody, units: nat)
    ensures var r := SignAndSubmit(b, net, accountNumber, body, units);
            && (r.sent.Some? && r.strategy.Some? && Increments(r.strategy.value.kind) ==>
                  r.strategy.value.value == (if Landed(b, net, r.sent.value)
                                             then (SignedSequence(r.sent.value) + 1) % U64_LIMIT
                                             else SignedSequence(r.sent.value)))
            && (r.sent.Some? && !Landed(b, net, r.sent.value) ==> r.result.Err?)
  {
    var signed := SignForBroadcast(b, net, accountNumber, body, FeeFor(b, net, units));
    LandedIgnoresStrategy(b, signed.1, net);
  }

  /** A `SetAndIncrement` counter is read, never moved, while the sequence is chosen. */
  lemma {:induction false} CurrentSequenceKeepsCounter(b: TxBuilder, net: Network)
    requires b.sequenceStrategy.Some? && b.sequenceStrategy.value.kind.SetAndIncrement?
    ensures CurrentSequence(b, net).strategy == b.sequenceStrategy
    ensures CurrentSequence(b, net).result.Ok? ==> CurrentSequence(b, net).result.value == b.sequenceStrategy.value.value
  {
  }

  /** With a `SetAndIncrement` counter, the sequence signed is the counter's value when the
      broadcast started; with the counter's contract above, a landed broadcast leaves it one
      past that value, so the next transaction signs the next sequence. */
  lemma {:induction false} BroadcastSignsCounter(b: TxBuilder, net: Network, messages: seq<Any>)
    requires b.sequenceStrategy.Some? && b.sequenceStrategy.value.kind.SetAndIncrement?
    requires BroadcastRaw(b, net, messages).sent.Some?
    ensures SignedSequence(BroadcastRaw(b, net, messages).sent.value) == b.sequenceStrategy.value.value
  {
    CurrentSequenceKeepsCounter(b, net);
    var prepared := PrepareBody(b, net, messages).value;
    var gas := GasUnits(b, net, prepared.0, prepared.1);
    assert b.(sequenceStrategy := gas.1) == b;
    assert GasSignSubmit(b, net, prepared.0, prepared.1) == SignAndSubmit(b, net, prepared.0, prepared.1, gas.0.value);
    assert BroadcastRaw(b, net, messages) == GasSignSubmit(b, net, prepared.0, prepared.1);
  }

  /** `broadcast`: an RPC-shaped response is an error. */
  function Broadcast(b: TxBuilder, net: Network, messages: seq<Any>): (r: Result<TxResponse, TxError>)
    ensures r.Ok? ==> r == BroadcastRaw(b, net, messages).result && r.value.source == Abci
    ensures BroadcastRaw(b, net, messages).result.Ok? && BroadcastRaw(b, net, messages).result.value.source == Rpc ==>
              r == Err(UnexpectedRpcResponse)
    ensures BroadcastRaw(b, net, messages).result.Err? ==> r == BroadcastRaw(b, net, messages).result
  {
    var resp :- BroadcastRaw(b, net, messages).result;
    if resp.source == Abci then Ok(resp) else Err(UnexpectedRpcResponse)
  }
}
