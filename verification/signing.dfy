/** The signing client (`signing.rs`), its message builders (`signing/msg.rs`,
    `signing/contract/msg.rs`) and the `AnyClient` wrapper of the core prelude
    (`prelude.rs`). Addresses print through `Address.Display`; the contract message bodies
    are the outcome of their JSON serialisation, a parameter. */
module Signing {
  import opened Wrappers
  import opened Text
  import opened ChainConfig
  import opened Prelude
  import opened Transaction
  import opened Querier
  import Address
  import Signer

  /** `SigningClient`, with the signer left to the transaction network and the middleware
      lists as handles. */
  datatype SigningClient = SigningClient(
    querier: QueryClient,
    addr: Address.Address,
    accountNumber: nat,
    middlewareMapBody: seq<nat>,
    middlewareMapResp: seq<nat>,
    sequenceStrategy: SequenceStrategy)

  /** `SigningClient::new_with_cache`, given the address derived from the signer's key, the
      query client, and the account query: both default middleware lists are empty and the
      sequence strategy is a fresh `Query`. */
  function NewSigningClient(addr: Result<Address.Address, string>, querier: Result<QueryClient, string>,
                            account: Address.Address -> Result<BaseAccount, string>): (r: Result<SigningClient, string>)
    ensures r.Ok? <==> addr.Ok? && querier.Ok? && account(addr.value).Ok?
    ensures addr.Err? ==> r == Err(addr.error)
    ensures r.Ok? ==> && r.value.addr == addr.value && r.value.querier == querier.value
                      && r.value.accountNumber == account(addr.value).value.accountNumber
                      && r.value.middlewareMapBody == [] && r.value.middlewareMapResp == []
                      && r.value.sequenceStrategy.kind == Transaction.Query
                      && !r.value.sequenceStrategy.hasQueried
  {
    var a :- addr;
    var q :- querier;
    var acc :- account(a);
    Ok(SigningClient(q, a, acc.accountNumber, [], [], NewSequenceStrategy(Transaction.Query)))
  }

  /** `chain_id`: the querier's chain id. */
  function ClientChainId(c: SigningClient): ChainId {
    Querier.ChainIdOf(c.querier)
  }

  /** `tx_builder`: a fresh builder for the client's chain with its address as sender, its
      account number, its sequence strategy (the same counter), and each middleware list
      only when it is non-empty. */
  function TxBuilderOf(c: SigningClient): (r: TxBuilder)
    ensures r.chainId == ClientChainId(c) && r.gasDenom == c.querier.chainConfig.gasDenom
    ensures r.sender == Some(c.addr) && r.accountNumber == Some(c.accountNumber)
    ensures r.sequenceStrategy == Some(c.sequenceStrategy)
    ensures r.middlewareMapBody.Some? <==> |c.middlewareMapBody| > 0
    ensures r.middlewareMapBody.Some? ==> r.middlewareMapBody.value == c.middlewareMapBody
    ensures r.middlewareMapResp.Some? <==> |c.middlewareMapResp| > 0
    ensures r.middlewareMapResp.Some? ==> r.middlewareMapResp.value == c.middlewareMapResp
    ensures r.broadcastPoll && r.memo.None? && r.gasCoin.None? && r.gasUnitsOrSimulate.None? && r.txTimeoutBlocks.None?
  {
    var b := NewTxBuilder(ClientChainId(c), c.querier.chainConfig.gasDenom);
    var b := SetSequenceStrategy(SetAccountNumber(SetSender(b, c.addr), c.accountNumber), c.sequenceStrategy);
    var b := if |c.middlewareMapBody| > 0 then SetMiddlewareMapBody(b, c.middlewareMapBody) else b;
    if |c.middlewareMapResp| > 0 then SetMiddlewareMapResp(b, c.middlewareMapResp) else b
  }

  /** Since the builder's strategy is the client's, the next builder starts from the counter
      a broadcast left. */
  function AfterBroadcast(c: SigningClient, outcome: BroadcastOutcome): (r: SigningClient)
    requires outcome.strategy.Some?
    ensures TxBuilderOf(r).sequenceStrategy == outcome.strategy
    ensures r.(sequenceStrategy := c.sequenceStrategy) == c
  {
    c.(sequenceStrategy := outcome.strategy.value)
  }

  // ---------------------------------------------------------------------------
  // Messages

  /** `MsgSend`. */
  datatype MsgSend = MsgSend(fromAddress: string, toAddress: string, amount: seq<Coin>)

  /** `transfer_msg`, which never fails: one coin of the amount in the given denomination,
      the chain's gas denomination by default, from the client to the recipient. */
  function TransferMsg(c: SigningClient, amount: nat, recipient: Address.Address, denom: Option<string>): (r: MsgSend)
    ensures r.fromAddress == Address.Display(c.addr) && r.toAddress == Address.Display(recipient)
    ensures |r.amount| == 1
    ensures r.amount[0].denom == (if denom.Some? then denom.value else c.querier.chainConfig.gasDenom)
    ensures amount < U128_LIMIT ==> ParseUnsigned(r.amount[0].amount, U128_LIMIT) == Some(amount)
  {
    var d := denom.GetOr(c.querier.chainConfig.gasDenom);
    assert amount < U128_LIMIT ==> ParseUnsigned(NatToString(amount), U128_LIMIT) == Some(amount) by {
      if amount < U128_LIMIT { NewCoinAmountRoundTrip(amount, d); }
    }
    MsgSend(Address.Display(c.addr), Address.Display(recipient), [Coin(d, NatToString(amount))])
  }

  /** The builder `transfer` broadcasts with: the caller's if given, else `tx_builder()`. */
  function TransferBuilder(c: SigningClient, given: Option<TxBuilder>): (r: TxBuilder)
    ensures given.Some? ==> r == given.value
    ensures given.None? ==> r == TxBuilderOf(c)
  {
    match given
    case Some(b) => b
    case None => TxBuilderOf(c)
  }

  /** `cosmwasm.wasm.v1.AccessConfig`. */
  datatype AccessConfig = AccessConfig(permission: int, addresses: seq<string>)

  datatype MsgStoreCode = MsgStoreCode(sender: string, wasmByteCode: seq<byte>, instantiatePermission: Option<AccessConfig>)
  datatype MsgInstantiateContract = MsgInstantiateContract(sender: string, admin: string, codeId: nat, contractLabel: string, msg: seq<byte>, funds: seq<Coin>)
  datatype MsgExecuteContract = MsgExecuteContract(sender: string, contract: string, msg: seq<byte>, funds: seq<Coin>)
  datatype MsgMigrateContract = MsgMigrateContract(sender: string, contract: string, codeId: nat, msg: seq<byte>)

  /** `contract_upload_file_msg`: sent by the client, no instantiate permission. */
  function StoreCodeMsg(c: SigningClient, wasm: seq<byte>): (r: MsgStoreCode)
    ensures r.sender == Address.Display(c.addr) && r.wasmByteCode == wasm && r.instantiatePermission.None?
  {
    MsgStoreCode(Address.Display(c.addr), wasm, None)
  }

  /** `contract_instantiate_msg`: no admin becomes the empty string; label and funds pass
      through; a message that does not serialise is the error. */
  function InstantiateMsg(c: SigningClient, admin: Option<Address.Address>, codeId: nat, contractLabel: string,
                          funds: seq<Coin>, msg: Result<seq<byte>, string>): (r: Result<MsgInstantiateContract, string>)
    ensures r.Ok? <==> msg.Ok?
    ensures r.Ok? ==> && r.value.sender == Address.Display(c.addr)
                      && r.value.admin == (if admin.Some? then Address.Display(admin.value) else "")
                      && r.value.codeId == codeId && r.value.contractLabel == contractLabel
                      && r.value.msg == msg.value && r.value.funds == funds
  {
    var bytes :- msg;
    Ok(MsgInstantiateContract(Address.Display(c.addr), if admin.Some? then Address.Display(admin.value) else "",
                              codeId, contractLabel, bytes, funds))
  }

  /** `contract_execute_msg`: the contract is the address's text; funds pass through. */
  function ExecuteMsg(c: SigningClient, contract: Address.Address, funds: seq<Coin>, msg: Result<seq<byte>, string>)
    : (r: Result<MsgExecuteContract, string>)
    ensures r.Ok? <==> msg.Ok?
    ensures r.Ok? ==> && r.value.sender == Address.Display(c.addr) && r.value.contract == Address.Display(contract)
                      && r.value.msg == msg.value && r.value.funds == funds
  {
    var bytes :- msg;
    Ok(MsgExecuteContract(Address.Display(c.addr), Address.Display(contract), bytes, funds))
  }

  /** `contract_migrate_msg`: the code id passes through. */
  function MigrateMsg(c: SigningClient, contract: Address.Address, codeId: nat, msg: Result<seq<byte>, string>)
    : (r: Result<MsgMigrateContract, string>)
    ensures r.Ok? <==> msg.Ok?
    ensures r.Ok? ==> && r.value.sender == Address.Display(c.addr) && r.value.contract == Address.Display(contract)
                      && r.value.codeId == codeId && r.value.msg == msg.value
  {
    var bytes :- msg;
    Ok(MsgMigrateContract(Address.Display(c.addr), Address.Display(contract), codeId, bytes))
  }

  // ---------------------------------------------------------------------------
  // AnyClient

  datatype AnyClient = Signing(client: SigningClient) | Query(querier: QueryClient)

  /** `as_signing`; the query case panics (here: `None`). */
  function AsSigning(a: AnyClient): (r: Option<SigningClient>)
    ensures r.Some? <==> a.Signing?
    ensures r.Some? ==> r.value == a.client
  {
    match a
    case Signing(c) => Some(c)
    case Query(_) => None
  }

  /** `as_querier` and `From<AnyClient> for QueryClient`: the query client, or the signing
      client's own. */
  function AsQuerier(a: AnyClient): (r: QueryClient)
    ensures a.Query? ==> r == a.querier
    ensures a.Signing? ==> r == a.client.querier
  {
    match a
    case Query(q) => q
    case Signing(c) => c.querier
  }

  /** `TryFrom<AnyClient> for SigningClient`. */
  function TryIntoSigning(a: AnyClient): (r: Result<SigningClient, string>)
    ensures r.Ok? <==> a.Signing?
    ensures r.Ok? ==> r.value == a.client
    ensures r.Err? ==> r.error == "Expected SigningClient, got QueryClient"
  {
    match a
    case Signing(c) => Ok(c)
    case Query(_) => Err("Expected SigningClient, got QueryClient")
  }

  /** Wrapping a client and unwrapping it again gives it back, and both clients of a
      signing wrapper agree on the chain. */
  lemma {:induction false} AnyClientRoundTrip(c: SigningClient, q: QueryClient)
    ensures TryIntoSigning(AnyClient.Signing(c)) == Ok(c) && AsSigning(AnyClient.Signing(c)) == Some(c)
    ensures AsQuerier(AnyClient.Query(q)) == q
    ensures Querier.ChainIdOf(AsQuerier(AnyClient.Signing(c))) == ClientChainId(c)
  {
  }
}
