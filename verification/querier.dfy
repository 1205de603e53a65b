/** The query client (`querier.rs`): its settings, the connection-mode codec and probe, the
    middleware pipeline around every query, and waiting for a block height. Network answers
    (probe outcomes, observed heights, request results) are parameters. */
module Querier {
  import opened Wrappers
  import opened Text
  import opened ChainConfig
  import opened Middleware
  import opened QueryRetry

  // ---------------------------------------------------------------------------
  // Connection mode

  datatype ConnectionMode = Grpc | Rpc

  /** `From<ConnectionMode> for u8`. */
  function ConnectionModeToU8(m: ConnectionMode): (r: nat)
    ensures r < 2
  {
    match m
    case Grpc => 0
    case Rpc => 1
  }

  /** `From<u8> for ConnectionMode`; any byte but 0 and 1 panics (here: `None`). */
  function ConnectionModeFromU8(b: nat): (r: Option<ConnectionMode>)
    ensures r.Some? <==> b < 2
  {
    if b == 0 then Some(Grpc) else if b == 1 then Some(Rpc) else None
  }

  /** The `u8` codec round-trips in both directions. */
  lemma {:induction false} ConnectionModeRoundTrip(m: ConnectionMode, b: nat)
    ensures ConnectionModeFromU8(ConnectionModeToU8(m)) == Some(m)
    ensures ConnectionModeFromU8(b).Some? ==> ConnectionModeToU8(ConnectionModeFromU8(b).value) == b
  {
  }

  /** `Display`: "grpc" or "rpc", telling the modes apart. */
  function ConnectionModeDisplay(m: ConnectionMode): (r: string)
    ensures r == "grpc" || r == "rpc"
    ensures (r == "grpc") <==> m.Grpc?
  {
    match m
    case Grpc => "grpc"
    case Rpc => "rpc"
  }

  // ---------------------------------------------------------------------------
  // The client

  /** The middleware kinds: a logger on requests and responses, a retry around the request. */
  datatype QueryMapReq = RequestLogger
  datatype QueryMapResp = ResponseLogger
  datatype QueryRun = Retry(retry: QueryRetryMiddleware)

  const DEFAULT_BALANCES_PAGINATION_LIMIT: nat := 10
  /** One second, in nanoseconds. */
  const DEFAULT_WAIT_BLOCKS_POLL_SLEEP_DURATION: nat := 1_000_000_000

  /** `QueryClient` without its transport handles and cache; the shared atomic connection
      mode is a plain field. */
  datatype QueryClient = QueryClient(
    chainConfig: ChainConfig,
    middlewareMapReq: seq<QueryMapReq>,
    middlewareMapResp: seq<QueryMapResp>,
    middlewareRun: seq<QueryRun>,
    balancesPaginationLimit: nat,
    waitBlocksPollSleepDuration: nat,
    connectionMode: ConnectionMode)

  /** `QueryClient::new_with_cache`, given whether opening the gRPC channel succeeded: no
      request or response mappers, one default retry, `Grpc` unless told otherwise. */
  function NewQueryClient(config: ChainConfig, mode: Option<ConnectionMode>, grpcChannel: Result<(), string>)
    : (r: Result<QueryClient, string>)
    ensures r.Ok? <==> grpcChannel.Ok?
    ensures r.Err? ==> r.error == grpcChannel.error
    ensures r.Ok? ==> && r.value.chainConfig == config
                      && r.value.middlewareMapReq == [] && r.value.middlewareMapResp == []
                      && r.value.middlewareRun == [Retry(QueryRetryMiddleware(3, 100_000_000))]
                      && r.value.balancesPaginationLimit == 10
                      && r.value.waitBlocksPollSleepDuration == 1_000_000_000
                      && r.value.connectionMode == (if mode.Some? then mode.value else Grpc)
  {
    var _ :- grpcChannel;
    Ok(QueryClient(config, [], [], [Retry(DEFAULT_RETRY)], DEFAULT_BALANCES_PAGINATION_LIMIT,
                   DEFAULT_WAIT_BLOCKS_POLL_SLEEP_DURATION, mode.GetOr(Grpc)))
  }

  /** `chain_id` of a query client is its config's. */
  function ChainIdOf(q: QueryClient): ChainId {
    q.chainConfig.chainId
  }

  /** `set_connection_mode`: a given mode is stored. Without one, `Grpc` and then `Rpc` are
      stored and probed with a staking-params query (`probe`), stopping at the first that
      passes; if neither does, `Rpc` is left stored. Returns the client and the modes
      probed. */
  function SetConnectionMode(q: QueryClient, mode: Option<ConnectionMode>, probe: ConnectionMode -> bool)
    : (r: (QueryClient, seq<ConnectionMode>))
    ensures r.0 == q.(connectionMode := r.0.connectionMode)
    ensures mode.Some? ==> r.0.connectionMode == mode.value && r.1 == []
    ensures mode.None? ==> (r.0.connectionMode == Grpc <==> probe(Grpc))
    ensures mode.None? ==> r.1 == (if probe(Grpc) then [Grpc] else [Grpc, Rpc])
    ensures forall i :: 0 <= i < |r.1| - 1 ==> !probe(r.1[i])
  {
    match mode
    case Some(m) => (q.(connectionMode := m), [])
    case None =>
      if probe(Grpc) then (q.(connectionMode := Grpc), [Grpc])
      else (q.(connectionMode := Rpc), [Grpc, Rpc])
  }

  // ---------------------------------------------------------------------------
  // The middleware pipeline

  /** Every run middleware in turn on the same request, each one's answer replacing the
      previous; the first error stops. `None` when there are none. */
  function RunEach<Req, Resp>(hs: seq<QueryRun>, run: (QueryRun, Req) -> Result<Resp, string>, req: Req)
    : (r: Result<Option<Resp>, string>)
    ensures hs == [] ==> r == Ok(None)
    ensures r.Ok? <==> forall i :: 0 <= i < |hs| ==> run(hs[i], req).Ok?
    ensures r.Ok? && hs != [] ==> r.value == Some(run(hs[|hs| - 1], req).value)
    ensures r.Err? ==> exists i :: 0 <= i < |hs| && run(hs[i], req) == Err(r.error)
                                 && forall k :: 0 <= k < i ==> run(hs[k], req).Ok?
    decreases |hs|
  {
    if |hs| == 0 then Ok(None)
    else
      match run(hs[0], req)
      case Err(e) => Err(e)
      case Ok(resp) =>
        var rest := RunEach(hs[1..], run, req);
        assert forall i :: 1 <= i < |hs| ==> hs[i] == hs[1..][i - 1];
        if rest.Ok? && rest.value.None? then Ok(Some(resp)) else rest
  }

  /** The answer of `run_with_middleware` and whether the request was made directly. */
  datatype QueryOutcome<Resp> = QueryOutcome(result: Result<Resp, string>, requestedDirectly: bool)

  /** `run_with_middleware`: request mappers in order, then the run middlewares (the last
      answer counts) or, when there are none, the request itself, then the response mappers
      in order. The first error anywhere is the answer. */
  function RunWithMiddleware<Req(!new), Resp(!new)>(
    q: QueryClient, req: Req,
    mapReq: (QueryMapReq, Req) -> Result<Req, string>,
    run: (QueryRun, Req) -> Result<Resp, string>,
    request: Req -> Result<Resp, string>,
    mapResp: (QueryMapResp, Resp) -> Result<Resp, string>)
    : (r: QueryOutcome<Resp>)
    ensures RunMappers(q.middlewareMapReq, mapReq, req).Err? ==>
              r == QueryOutcome(Err(RunMappers(q.middlewareMapReq, mapReq, req).error), false)
    ensures r.requestedDirectly <==> RunMappers(q.middlewareMapReq, mapReq, req).Ok? && q.middlewareRun == []
    ensures RunMappers(q.middlewareMapReq, mapReq, req).Ok? && q.middlewareRun != [] ==>
              var mapped := RunMappers(q.middlewareMapReq, mapReq, req).value;
              r.result == (match RunEach(q.middlewareRun, run, mapped)
                           case Err(e) => Err(e)
                           case Ok(last) => RunMappers(q.middlewareMapResp, mapResp, last.value))
    ensures r.requestedDirectly ==>
              var mapped := RunMappers(q.middlewareMapReq, mapReq, req).value;
              r.result == (match request(mapped)
                           case Err(e) => Err(e)
                           case Ok(resp) => RunMappers(q.middlewareMapResp, mapResp, resp))
  {
    match RunMappers(q.middlewareMapReq, mapReq, req)
    case Err(e) => QueryOutcome(Err(e), false)
    case Ok(mapped) =>
      match RunEach(q.middlewareRun, run, mapped)
      case Err(e) => QueryOutcome(Err(e), false)
      case Ok(Some(resp)) => QueryOutcome(RunMappers(q.middlewareMapResp, mapResp, resp), false)
      case Ok(None) =>
        match request(mapped)
        case Err(e) => QueryOutcome(Err(e), true)
        case Ok(resp) => QueryOutcome(RunMappers(q.middlewareMapResp, mapResp, resp), true)
  }

  // ---------------------------------------------------------------------------
  // Waiting for blocks

  /** `wait_until_block_height`, given the heights its polls observe in order: it returns at
      the first poll that fails or sees at least the target. `None` means it is still
      waiting after these polls; `Some(Ok(i))` that it returned after poll i. */
  function WaitUntilBlockHeight(target: nat, polls: seq<Result<nat, string>>): (r: Option<Result<nat, string>>)
    ensures r.None? <==> forall i :: 0 <= i < |polls| ==> polls[i].Ok? && polls[i].value < target
    ensures r.Some? && r.value.Ok? ==> && r.value.value < |polls|
                                       && polls[r.value.value].Ok? && polls[r.value.value].value >= target
                                       && forall i :: 0 <= i < r.value.value ==> polls[i].Ok? && polls[i].value < target
    ensures r.Some? && r.value.Err? ==> exists i :: 0 <= i < |polls| && polls[i] == Err(r.value.error)
                                                   && forall k :: 0 <= k < i ==> polls[k].Ok? && polls[k].value < target
  {
    WaitFrom(target, polls, 0)
  }

  function WaitFrom(target: nat, polls: seq<Result<nat, string>>, from: nat): (r: Option<Result<nat, string>>)
    requires from <= |polls|
    requires forall i :: 0 <= i < from ==> polls[i].Ok? && polls[i].value < target
    ensures r.None? <==> forall i :: 0 <= i < |polls| ==> polls[i].Ok? && polls[i].value < target
    ensures r.Some? && r.value.Ok? ==> && r.value.value < |polls|
                                       && polls[r.value.value].Ok? && polls[r.value.value].value >= target
                                       && forall i :: 0 <= i < r.value.value ==> polls[i].Ok? && polls[i].value < target
    ensures r.Some? && r.value.Err? ==> exists i :: 0 <= i < |polls| && polls[i] == Err(r.value.error)
                                                   && forall k :: 0 <= k < i ==> polls[k].Ok? && polls[k].value < target
    decreases |polls| - from
  {
    if from == |polls| then None
    else
      match polls[from]
      case Err(e) => Some(Err(e))
      case Ok(h) => if h >= target then Some(Ok(from)) else WaitFrom(target, polls, from + 1)
  }

  /** Rust's panic message for an overflowing integer addition. */
  const ADD_OVERFLOW: string := "attempt to add with overflow"

  /** `wait_blocks`: wait for the current height plus `n`, a `u64` addition that panics
      (here: fails) when it overflows. */
  function WaitBlocks(n: nat, current: Result<nat, string>, polls: seq<Result<nat, string>>): (r: Option<Result<nat, string>>)
    ensures current.Err? ==> r == Some(Err(current.error))
    ensures current.Ok? && current.value + n >= U64_LIMIT ==> r == Some(Err(ADD_OVERFLOW))
    ensures current.Ok? && current.value + n < U64_LIMIT ==> r == WaitUntilBlockHeight(current.value + n, polls)
  {
    match current
    case Err(e) => Some(Err(e))
    case Ok(h) => if h + n >= U64_LIMIT then Some(Err(ADD_OVERFLOW)) else WaitUntilBlockHeight(h + n, polls)
  }

  /** Waiting for a height already reached returns at the first successful poll. */
  lemma {:induction false} WaitReachedReturnsAtOnce(target: nat, polls: seq<Result<nat, string>>)
    requires |polls| > 0 && polls[0].Ok? && polls[0].value >= target
    ensures WaitUntilBlockHeight(target, polls) == Some(Ok(0))
  {
  }
}
