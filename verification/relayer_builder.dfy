/** The relayer builder (`signing/ibc/relayer/builder.rs`): path normalisation and
    de-duplication, the clients keyed by chain id, the serialisable cache of clients,
    connections and channels with its "a|b" key codec, the per-path decision between
    creating clients, creating a connection and reusing a cached channel, and the
    collection of client infos. The handshakes and client updates themselves are network
    transactions; their outcomes are parameters. `HashMap` iteration orders are parameters
    too, given as a list of the map's keys. */
module RelayerBuilder {
  import opened Wrappers
  import opened Text
  import opened IbcTypes
  import opened ChainConfig
  import opened Relayer

  // ---------------------------------------------------------------------------
  // Paths

  /** `IbcPath`: a channel to relay between a port on each of two chains. */
  datatype IbcPath = IbcPath(
    chainId1: ChainId,
    chainId2: ChainId,
    portId1: IbcPortId,
    portId2: IbcPortId,
    channelVersion: IbcChannelVersion,
    channelOrdering: IbcChannelOrdering)

  /** The path read from the other side: chains and ports exchanged together. */
  function Flip(p: IbcPath): IbcPath {
    p.(chainId1 := p.chainId2, chainId2 := p.chainId1, portId1 := p.portId2, portId2 := p.portId1)
  }

  /** The sorting step of `IbcRelayerBuilder::new`: the smaller chain id (by `Ord` on the
      string) comes first, ports following their chains. */
  function NormalizePath(p: IbcPath): (r: IbcPath)
    ensures !StrLt(r.chainId2.id, r.chainId1.id)
    ensures r == p || r == Flip(p)
    ensures r.channelVersion == p.channelVersion && r.channelOrdering == p.channelOrdering
    ensures r == p <==> !StrLt(p.chainId2.id, p.chainId1.id)
  {
    if StrLt(p.chainId2.id, p.chainId1.id) then
      StrLtAsymmetric(p.chainId2.id, p.chainId1.id);
      Flip(p)
    else p
  }

  /** A path and its flipped copy normalise to the same path. */
  lemma {:induction false} NormalizeFlip(p: IbcPath)
    requires p.chainId1 != p.chainId2
    ensures NormalizePath(Flip(p)) == NormalizePath(p)
  {
    StrLtTotal(p.chainId1.id, p.chainId2.id);
    if StrLt(p.chainId1.id, p.chainId2.id) {
      StrLtAsymmetric(p.chainId1.id, p.chainId2.id);
    } else {
      StrLtAsymmetric(p.chainId2.id, p.chainId1.id);
    }
  }

  function NormalizePaths(paths: seq<IbcPath>): (r: seq<IbcPath>)
    ensures |r| == |paths|
    ensures forall i :: 0 <= i < |r| ==> r[i] == NormalizePath(paths[i])
  {
    seq(|paths|, i requires 0 <= i < |paths| => NormalizePath(paths[i]))
  }

  /** The first occurrence of every element, in order of first occurrence: what
      `retain(|p| found.insert(p.clone()))` keeps. */
  function FirstOccurrences<T(==)>(s: seq<T>): seq<T>
    decreases |s|
  {
    if |s| == 0 then []
    else
      var init := s[..|s| - 1];
      FirstOccurrences(init) + (if s[|s| - 1] in init then [] else [s[|s| - 1]])
  }

  /** The first occurrences are free of duplicates and hold every element. */
  lemma {:induction false} FirstOccurrencesSpec<T>(s: seq<T>)
    ensures forall i, j :: 0 <= i < j < |FirstOccurrences(s)| ==> FirstOccurrences(s)[i] != FirstOccurrences(s)[j]
    ensures forall x :: x in FirstOccurrences(s) <==> x in s
    decreases |s|
  {
    if |s| > 0 {
      var init := s[..|s| - 1];
      FirstOccurrencesSpec(init);
      assert s == init + [s[|s| - 1]];
    }
  }

  /** The de-duplicating `retain` with its `HashSet` of paths seen so far. */
  method RetainFirst<T(==)>(s: seq<T>) returns (r: seq<T>)
    ensures r == FirstOccurrences(s)
  {
    r := [];
    var found: set<T> := {};
    var i := 0;
    while i < |s|
      invariant 0 <= i <= |s|
      invariant r == FirstOccurrences(s[..i])
      invariant forall x :: x in found <==> x in s[..i]
    {
      FirstOccurrencesStep(s, i);
      if s[i] !in found {
        found := found + {s[i]};
        r := r + [s[i]];
      }
      assert s[..i + 1] == s[..i] + [s[i]];
      i := i + 1;
    }
    assert s[..|s|] == s;
  }

  /** One more element extends the first occurrences exactly when it is new. */
  lemma {:induction false} FirstOccurrencesStep<T>(s: seq<T>, i: nat)
    requires i < |s|
    ensures FirstOccurrences(s[..i + 1]) == FirstOccurrences(s[..i]) + (if s[i] in s[..i] then [] else [s[i]])
  {
    assert s[..i + 1][..i] == s[..i];
  }

  /** A signing client, reduced to its chain id and a handle telling clients apart. */
  datatype ChainClient = ChainClient(chainId: ChainId, handle: nat)

  /** The clients collected into a map keyed by chain id; a later client replaces an earlier
      one with the same chain id. */
  function ClientsByChain(clients: seq<ChainClient>): (r: map<ChainId, ChainClient>)
    ensures forall i :: 0 <= i < |clients| ==> clients[i].chainId in r
    ensures forall id :: id in r ==> r[id] in clients && r[id].chainId == id
    ensures forall i :: 0 <= i < |clients| && (forall j :: i < j < |clients| ==> clients[j].chainId != clients[i].chainId) ==>
              r[clients[i].chainId] == clients[i]
    decreases |clients|
  {
    if |clients| == 0 then map[]
    else
      var init := clients[..|clients| - 1];
      var last := clients[|clients| - 1];
      var m := ClientsByChain(init);
      assert clients == init + [last];
      ClientsByChainStep(init, last, m);
      m[last.chainId := last]
  }

  /** What `ClientsByChain` promises, for a given map. */
  predicate CollectsClients(clients: seq<ChainClient>, m: map<ChainId, ChainClient>) {
    && (forall i :: 0 <= i < |clients| ==> clients[i].chainId in m)
    && (forall id :: id in m ==> m[id] in clients && m[id].chainId == id)
    && (forall i :: 0 <= i < |clients| && (forall j :: i < j < |clients| ==> clients[j].chainId != clients[i].chainId) ==>
          m[clients[i].chainId] == clients[i])
  }

  /** Inserting one more client keyed by its chain id keeps the promise. */
  lemma {:induction false} ClientsByChainStep(init: seq<ChainClient>, last: ChainClient, m: map<ChainId, ChainClient>)
    requires CollectsClients(init, m)
    ensures CollectsClients(init + [last], m[last.chainId := last])
  {
    var clients := init + [last];
    var m' := m[last.chainId := last];
    assert forall i :: 0 <= i < |init| ==> clients[i] == init[i];
    forall i | 0 <= i < |clients| && (forall j :: i < j < |clients| ==> clients[j].chainId != clients[i].chainId)
      ensures m'[clients[i].chainId] == clients[i]
    {
      if i < |init| {
        assert clients[|init|] == last;
        assert forall j :: i < j < |init| ==> init[j].chainId == clients[j].chainId;
      }
    }
  }

  /** `IbcRelayerBuilder` after `new`: clients by chain id and the normalised, de-duplicated
      paths. The gas multipliers and log sinks are left out. */
  datatype Builder = Builder(
    clients: map<ChainId, ChainClient>,
    paths: seq<IbcPath>,
    cache: IbcCache,
    clientInfos: map<ChainKey, ClientInfo>)

  /** `IbcRelayerBuilder::new`. */
  method New(clients: seq<ChainClient>, paths: seq<IbcPath>) returns (b: Builder)
    ensures b.clients == ClientsByChain(clients)
    ensures b.paths == FirstOccurrences(NormalizePaths(paths))
    ensures forall i :: 0 <= i < |b.paths| ==> !StrLt(b.paths[i].chainId2.id, b.paths[i].chainId1.id)
    ensures forall i, j :: 0 <= i < j < |b.paths| ==> b.paths[i] != b.paths[j]
    ensures forall p :: p in b.paths <==> exists q :: q in paths && p == NormalizePath(q)
    ensures b.cache == IbcCache(map[]) && b.clientInfos == map[]
  {
    var deduped := RetainFirst(NormalizePaths(paths));
    DedupedPathsSpec(paths);
    b := Builder(ClientsByChain(clients), deduped, IbcCache(map[]), map[]);
  }

  /** The normalised, de-duplicated paths are ordered, distinct, and exactly the
      normalisations of the given paths. */
  lemma {:induction false} DedupedPathsSpec(paths: seq<IbcPath>)
    ensures var d := FirstOccurrences(NormalizePaths(paths));
            && (forall i :: 0 <= i < |d| ==> !StrLt(d[i].chainId2.id, d[i].chainId1.id))
            && (forall i, j :: 0 <= i < j < |d| ==> d[i] != d[j])
            && (forall p :: p in d <==> exists q :: q in paths && p == NormalizePath(q))
  {
    var d := FirstOccurrences(NormalizePaths(paths));
    FirstOccurrencesSpec(NormalizePaths(paths));
    NormalizedMembership(paths);
    assert forall i :: 0 <= i < |d| ==> d[i] in NormalizePaths(paths);
  }

  /** The normalised paths are ordered and are exactly the normalisations of the given
      paths. */
  lemma {:induction false} NormalizedMembership(paths: seq<IbcPath>)
    ensures forall p :: p in NormalizePaths(paths) ==> !StrLt(p.chainId2.id, p.chainId1.id)
    ensures forall p :: p in NormalizePaths(paths) <==> exists q :: q in paths && p == NormalizePath(q)
  {
    var normalized := NormalizePaths(paths);
    forall p | p in normalized
      ensures exists q :: q in paths && p == NormalizePath(q)
    {
      var i :| 0 <= i < |normalized| && normalized[i] == p;
      assert paths[i] in paths;
    }
    forall p | exists q :: q in paths && p == NormalizePath(q)
      ensures p in normalized
    {
      var q :| q in paths && p == NormalizePath(q);
      var i :| 0 <= i < |paths| && paths[i] == q;
      assert normalized[i] == p;
    }
  }

  /** `get_signing_client`. */
  function GetSigningClient(clients: map<ChainId, ChainClient>, id: ChainId): (r: Result<ChainClient, string>)
    ensures r.Ok? <==> id in clients
    ensures r.Ok? ==> r.value == clients[id]
    ensures r.Err? ==> r.error == "No signing client found for chain " + id.id
  {
    if id in clients then Ok(clients[id]) else Err("No signing client found for chain " + ChainIdDisplay(id))
  }

  // ---------------------------------------------------------------------------
  // The cache

  datatype ChainKey = ChainKey(chainId1: ChainId, chainId2: ChainId)
  datatype ConnKey = ConnKey(connectionId1: IbcConnectionId, connectionId2: IbcConnectionId)
  datatype ChannelKey = ChannelKey(portId1: IbcPortId, portId2: IbcPortId)

  /** A cached channel: its id on each side and its version. */
  datatype CachedChannel = CachedChannel(channelId: IbcChannelId, counterpartyChannelId: IbcChannelId, version: IbcChannelVersion)

  datatype ChannelCache = ChannelCache(channels: map<ChannelKey, CachedChannel>)

  datatype ClientCache = ClientCache(clientId1: IbcClientId, clientId2: IbcClientId, connections: map<ConnKey, ChannelCache>)

  datatype IbcCache = IbcCache(chains: map<ChainKey, ClientCache>)

  /** The start of `prep_cache_inner`: a supplied cache replaces the current one, then entries
      for a chain pair without a client on both chains are dropped. */
  function PrepCacheStart(current: IbcCache, initial: Option<IbcCache>, clients: map<ChainId, ChainClient>): (r: IbcCache)
    ensures var base := if initial.Some? then initial.value else current;
      && (forall k :: k in r.chains <==> k in base.chains && k.chainId1 in clients && k.chainId2 in clients)
      && (forall k :: k in r.chains ==> r.chains[k] == base.chains[k])
  {
    var base := initial.GetOr(current);
    IbcCache(map k | k in base.chains && k.chainId1 in clients && k.chainId2 in clients :: base.chains[k])
  }

  /** `get_ibc_client_cache`. */
  function GetClientCache(cache: IbcCache, key: ChainKey): (r: Result<ClientCache, string>)
    ensures r.Ok? <==> key in cache.chains
    ensures r.Ok? ==> r.value == cache.chains[key]
    ensures r.Err? ==> r.error == "No chain cache found for chains " + key.chainId1.id + " and " + key.chainId2.id
  {
    if key in cache.chains then Ok(cache.chains[key])
    else Err("No chain cache found for chains " + ChainIdDisplay(key.chainId1) + " and " + ChainIdDisplay(key.chainId2))
  }

  /** A connection of the cache holds a channel for the path's ports whose stored version is
      the path's version. */
  predicate Reusable(cc: ClientCache, conn: ConnKey, path: IbcPath) {
    && conn in cc.connections
    && ChannelKey(path.portId1, path.portId2) in cc.connections[conn].channels
    && cc.connections[conn].channels[ChannelKey(path.portId1, path.portId2)].version == path.channelVersion
  }

  /** The `find_map` over the cached connections (visited in `order`, the map's iteration
      order): the first connection with a reusable channel for the path. A channel for the
      same ports with another version is passed over. */
  function FindReusableChannel(cc: ClientCache, path: IbcPath, order: seq<ConnKey>): (r: Option<(ConnKey, CachedChannel)>)
    ensures r.None? <==> forall i :: 0 <= i < |order| ==> !Reusable(cc, order[i], path)
    ensures r.Some? ==> && r.value.0 in order && Reusable(cc, r.value.0, path)
                        && r.value.1 == cc.connections[r.value.0].channels[ChannelKey(path.portId1, path.portId2)]
                        && r.value.1.version == path.channelVersion
    ensures r.Some? ==> forall i :: 0 <= i < |order| && order[i] != r.value.0 && !(r.value.0 in order[..i]) ==> !Reusable(cc, order[i], path)
    decreases |order|
  {
    if |order| == 0 then None
    else
      var conn := order[0];
      if Reusable(cc, conn, path) then
        Some((conn, cc.connections[conn].channels[ChannelKey(path.portId1, path.portId2)]))
      else
        var rest := FindReusableChannel(cc, path, order[1..]);
        assert forall i :: 1 <= i < |order| ==> order[i] == order[1..][i - 1] && order[..i] == [order[0]] + order[1..][..i - 1];
        rest
  }

  /** What to do for one path. */
  datatype PathStep =
    | CreateClients
    | CreateConnection(clientId1: IbcClientId, clientId2: IbcClientId)
    | ReuseChannel(clientId1: IbcClientId, clientId2: IbcClientId, conn: ConnKey, channel: CachedChannel)

  /** The decision of `prep_cache_inner` for one path. Both chains need a signing client. A
      cached client pair is used only if updating both clients succeeded (`updated`);
      otherwise fresh clients are created. With usable clients, a cached channel of the same
      version is reused, else a new connection is made. */
  function PlanPath(b: Builder, cache: IbcCache, path: IbcPath, updated: bool, order: seq<ConnKey>): (r: Result<PathStep, string>)
    ensures r.Ok? <==> path.chainId1 in b.clients && path.chainId2 in b.clients
    ensures path.chainId1 !in b.clients ==> r == Err("No signing client found for chain " + path.chainId1.id)
    ensures path.chainId1 in b.clients && path.chainId2 !in b.clients ==>
              r == Err("No signing client found for chain " + path.chainId2.id)
    ensures var key := ChainKey(path.chainId1, path.chainId2);
      && (r.Ok? && (key !in cache.chains || !updated) ==> r.value == CreateClients)
      && (r.Ok? && key in cache.chains && updated ==>
            && r.value != CreateClients
            && r.value.clientId1 == cache.chains[key].clientId1
            && r.value.clientId2 == cache.chains[key].clientId2
            && (r.value.ReuseChannel? <==> exists i :: 0 <= i < |order| && Reusable(cache.chains[key], order[i], path))
            && (r.value.ReuseChannel? ==> r.value.channel.version == path.channelVersion))
  {
    var _ :- GetSigningClient(b.clients, path.chainId1);
    var _ :- GetSigningClient(b.clients, path.chainId2);
    var key := ChainKey(path.chainId1, path.chainId2);
    match GetClientCache(cache, key)
    case Err(_) => Ok(CreateClients)
    case Ok(cc) =>
      if !updated then Ok(CreateClients)
      else
        match FindReusableChannel(cc, path, order)
        case None => Ok(CreateConnection(cc.clientId1, cc.clientId2))
        case Some((conn, ch)) => Ok(ReuseChannel(cc.clientId1, cc.clientId2, conn, ch))
  }

  /** `IbcConnectionHandshake`: the clients and connection a connection handshake produced. */
  datatype ConnectionHandshake = ConnectionHandshake(
    clientId: IbcClientId, counterpartyClientId: IbcClientId,
    connectionId: IbcConnectionId, counterpartyConnectionId: IbcConnectionId)

  /** The cache after a handshake with brand-new clients: the chain pair's entry is replaced
      by the new clients and their one connection, with no channels yet. */
  function RecordNewClients(cache: IbcCache, key: ChainKey, h: ConnectionHandshake): (r: IbcCache)
    ensures key in r.chains
    ensures r.chains[key].clientId1 == h.clientId && r.chains[key].clientId2 == h.counterpartyClientId
    ensures r.chains[key].connections == map[ConnKey(h.connectionId, h.counterpartyConnectionId) := ChannelCache(map[])]
    ensures forall k :: k != key ==> (k in r.chains <==> k in cache.chains)
    ensures forall k :: k != key && k in r.chains ==> r.chains[k] == cache.chains[k]
  {
    IbcCache(cache.chains[key := ClientCache(h.clientId, h.counterpartyClientId,
                                             map[ConnKey(h.connectionId, h.counterpartyConnectionId) := ChannelCache(map[])])])
  }

  /** The cache after a new connection over cached clients: the connection is added with no
      channels, and the client pair's other connections are kept. */
  function RecordNewConnection(cache: IbcCache, key: ChainKey, cc: ClientCache, h: ConnectionHandshake): (r: IbcCache)
    ensures key in r.chains
    ensures var conn := ConnKey(h.connectionId, h.counterpartyConnectionId);
      && r.chains[key].connections.Keys == cc.connections.Keys + {conn}
      && r.chains[key].connections[conn] == ChannelCache(map[])
      && (forall c :: c in cc.connections && c != conn ==> r.chains[key].connections[c] == cc.connections[c])
    ensures forall k :: k != key ==> (k in r.chains <==> k in cache.chains)
    ensures forall k :: k != key && k in r.chains ==> r.chains[k] == cache.chains[k]
  {
    var conn := ConnKey(h.connectionId, h.counterpartyConnectionId);
    IbcCache(cache.chains[key := cc.(connections := cc.connections[conn := ChannelCache(map[])])])
  }

  /** The cache after a channel handshake: the channel is stored under the path's ports on the
      connection, with the path's version. The Rust code unwraps the chain and connection
      entries, which the earlier steps of the same path have just written. */
  function RecordChannel(cache: IbcCache, key: ChainKey, conn: ConnKey, path: IbcPath,
                         channelId: IbcChannelId, counterpartyChannelId: IbcChannelId): (r: IbcCache)
    requires key in cache.chains && conn in cache.chains[key].connections
    ensures r.chains.Keys == cache.chains.Keys
    ensures r.chains[key].connections.Keys == cache.chains[key].connections.Keys
    ensures Reusable(r.chains[key], conn, path)
    ensures r.chains[key].connections[conn].channels[ChannelKey(path.portId1, path.portId2)]
            == CachedChannel(channelId, counterpartyChannelId, path.channelVersion)
  {
    var cc := cache.chains[key];
    var chans := cc.connections[conn].channels;
    var entry := CachedChannel(channelId, counterpartyChannelId, path.channelVersion);
    IbcCache(cache.chains[key := cc.(connections := cc.connections[conn := ChannelCache(chans[ChannelKey(path.portId1, path.portId2) := entry])])])
  }

  /** A recorded channel is found again by the next preparation of the same path, whatever
      order the connections are visited in. */
  lemma {:induction false} RecordedChannelReused(cache: IbcCache, key: ChainKey, conn: ConnKey, path: IbcPath,
                              channelId: IbcChannelId, counterpartyChannelId: IbcChannelId, order: seq<ConnKey>)
    requires key in cache.chains && conn in cache.chains[key].connections
    requires conn in order
    ensures var r := RecordChannel(cache, key, conn, path, channelId, counterpartyChannelId);
            FindReusableChannel(r.chains[key], path, order).Some?
  {
    var r := RecordChannel(cache, key, conn, path, channelId, counterpartyChannelId);
    var i :| 0 <= i < |order| && order[i] == conn;
    assert Reusable(r.chains[key], order[i], path);
  }

  // ---------------------------------------------------------------------------
  // Client infos

  /** A protobuf `Duration` (`i64` seconds, `i32` nanoseconds). */
  datatype ProtoDuration = ProtoDuration(seconds: int, nanos: int)

  /** `Duration::new(seconds as u64, nanos as u32)`: the casts wrap negative values, and
      `Duration::new` carries whole seconds out of the nanoseconds, panicking (here: `None`)
      when the seconds overflow. */
  function TrustingPeriod(d: ProtoDuration): (r: Option<Relayer.Duration>)
    ensures var secs := d.seconds % U64_LIMIT;
            var nanos := d.nanos % U32_LIMIT;
      && (r.Some? <==> secs + nanos / NANOS_PER_SEC < U64_LIMIT)
      && (r.Some? ==> ValidDuration(r.value) && DurationNanos(r.value) == secs * NANOS_PER_SEC + nanos)
  {
    var secs := d.seconds % U64_LIMIT;
    var nanos := d.nanos % U32_LIMIT;
    var carried := secs + nanos / NANOS_PER_SEC;
    if carried < U64_LIMIT then Some(Relayer.Duration(carried, nanos % NANOS_PER_SEC)) else None
  }

  /** The new client info of a path whose chain pair has none yet: the handshake's clients
      and connection, the trusting periods of both client states, default update state and
      the path's one channel. */
  function NewClientInfo(path: IbcPath, h: ConnectionHandshake, channel: ClientInfoChannel,
                         trusting1: Option<ProtoDuration>, trusting2: Option<ProtoDuration>): (r: Result<ClientInfo, string>)
    ensures r.Ok? <==> && trusting1.Some? && trusting2.Some?
                       && TrustingPeriod(trusting1.value).Some? && TrustingPeriod(trusting2.value).Some?
    ensures (trusting1.None? || trusting2.None?) ==> r == Err("No trusting period found")
    ensures (&& trusting1.Some? && trusting2.Some?
             && (TrustingPeriod(trusting1.value).None? || TrustingPeriod(trusting2.value).None?)) ==>
              r == Err("overflow in Duration::new")
    ensures r.Ok? ==> && r.value.trustingPeriod1 == TrustingPeriod(trusting1.value).value
                      && r.value.trustingPeriod2 == TrustingPeriod(trusting2.value).value
    ensures r.Ok? ==> && r.value.chainId1 == path.chainId1 && r.value.chainId2 == path.chainId2
                      && r.value.clientId1 == h.clientId && r.value.clientId2 == h.counterpartyClientId
                      && r.value.connectionId1 == h.connectionId && r.value.connectionId2 == h.counterpartyConnectionId
                      && r.value.update1 == DEFAULT_CLIENT_UPDATE && r.value.update2 == DEFAULT_CLIENT_UPDATE
                      && r.value.channels == [channel]
  {
    var t1 :- OkOr(trusting1, "No trusting period found");
    var t2 :- OkOr(trusting2, "No trusting period found");
    var d1 :- OkOr(TrustingPeriod(t1), "overflow in Duration::new");
    var d2 :- OkOr(TrustingPeriod(t2), "overflow in Duration::new");
    Ok(ClientInfo(path.chainId1, path.chainId2, h.clientId, h.counterpartyClientId, d1, d2,
                  DEFAULT_CLIENT_UPDATE, DEFAULT_CLIENT_UPDATE, h.connectionId, h.counterpartyConnectionId, [channel]))
  }

  /** The channel a path contributes to its client info. */
  function PathChannel(path: IbcPath, channelId: IbcChannelId, counterpartyChannelId: IbcChannelId): ClientInfoChannel {
    ClientInfoChannel(channelId, counterpartyChannelId, path.portId1, path.portId2, path.channelVersion, path.channelOrdering)
  }

  /** The end of a path's preparation: an existing client info of the chain pair gets the
      channel appended; otherwise the new info is added. */
  function AddChannel(infos: map<ChainKey, ClientInfo>, key: ChainKey, channel: ClientInfoChannel,
                      newInfo: Result<ClientInfo, string>): (r: Result<map<ChainKey, ClientInfo>, string>)
    requires newInfo.Ok? ==> newInfo.value.channels == [channel]
    ensures key in infos ==> r.Ok? && r.value.Keys == infos.Keys
                             && r.value[key] == infos[key].(channels := infos[key].channels + [channel])
    ensures key !in infos ==> r.Ok? == newInfo.Ok?
    ensures key !in infos && r.Ok? ==> r.value == infos[key := newInfo.value]
    ensures r.Ok? ==> key in r.value && r.value[key].channels[|r.value[key].channels| - 1] == channel
    ensures r.Ok? ==> forall k :: k != key ==> (k in r.value <==> k in infos)
    ensures r.Ok? ==> forall k :: k != key && k in infos ==> r.value[k] == infos[k]
  {
    if key in infos then
      Ok(infos[key := infos[key].(channels := infos[key].channels + [channel])])
    else
      var info :- newInfo;
      Ok(infos[key := info])
  }

  /** `build`: the collected client infos, in the map's iteration order `order` (each key
      once); none is an error. */
  function Build(infos: map<ChainKey, ClientInfo>, order: seq<ChainKey>): (r: Result<seq<ClientInfo>, string>)
    requires forall k :: k in infos <==> k in order
    requires |order| == |infos|
    ensures r.Ok? <==> |infos| > 0
    ensures r.Err? ==> r.error == "No client infos found"
    ensures r.Ok? ==> |r.value| == |order| && forall i :: 0 <= i < |order| ==> r.value[i] == infos[order[i]]
  {
    if |infos| == 0 then Err("No client infos found")
    else
      assert order != [] by {
        var k :| k in infos;
        assert k in order;
      }
      Ok(seq(|order|, i requires 0 <= i < |order| => infos[order[i]]))
  }

  // ---------------------------------------------------------------------------
  // Cache key codec

  /** The JSON string of a cache key: both parts joined by '|'. */
  function EncodeKey(a: string, b: string): (r: string)
    ensures |r| == |a| + |b| + 1
  {
    a + "|" + b
  }

  /** The parts of a cache key string: exactly two '|'-separated parts, else `error`. */
  function DecodeKey(s: string, error: string): (r: Result<(string, string), string>)
    ensures r.Ok? <==> Count(s, '|') == 1
    ensures r.Err? ==> r.error == error
    ensures r.Ok? ==> '|' !in r.value.0 && '|' !in r.value.1 && EncodeKey(r.value.0, r.value.1) == s
  {
    var parts := Split(s, '|');
    SplitLength(s, '|');
    if |parts| != 2 then Err(error)
    else
      SplitPiecesFree(s, '|');
      JoinSplit(s, '|');
      assert Join(parts, '|') == parts[0] + ['|'] + Join(parts[1..], '|');
      assert Join(parts[1..], '|') == parts[1];
      Ok((parts[0], parts[1]))
  }

  /** Parts free of '|' decode to themselves. */
  lemma {:induction false} KeyRoundTrip(a: string, b: string, error: string)
    requires '|' !in a && '|' !in b
    ensures DecodeKey(EncodeKey(a, b), error) == Ok((a, b))
  {
    assert EncodeKey(a, b) == a + ['|'] + b;
    SplitAtSeparator(a, b, '|');
    SplitNoSeparator(a, '|');
    SplitNoSeparator(b, '|');
    SplitLength(EncodeKey(a, b), '|');
  }

  function SerializeChainKey(k: ChainKey): string {
    EncodeKey(ChainIdDisplay(k.chainId1), ChainIdDisplay(k.chainId2))
  }

  function DeserializeChainKey(s: string): (r: Result<ChainKey, string>)
    ensures r.Ok? <==> Count(s, '|') == 1
    ensures r.Err? ==> r.error == "invalid IbcCacheClientKey format"
    ensures r.Ok? ==> SerializeChainKey(r.value) == s
  {
    var parts :- DecodeKey(s, "invalid IbcCacheClientKey format");
    Ok(ChainKey(NewChainId(parts.0), NewChainId(parts.1)))
  }

  /** A chain key whose ids contain no '|' survives serialisation. */
  lemma {:induction false} ChainKeyRoundTrip(k: ChainKey)
    requires '|' !in k.chainId1.id && '|' !in k.chainId2.id
    ensures DeserializeChainKey(SerializeChainKey(k)) == Ok(k)
  {
    KeyRoundTrip(k.chainId1.id, k.chainId2.id, "invalid IbcCacheClientKey format");
  }

  function SerializeConnKey(k: ConnKey): string {
    EncodeKey(ConnectionIdDisplay(k.connectionId1), ConnectionIdDisplay(k.connectionId2))
  }

  function DeserializeConnKey(s: string): (r: Result<ConnKey, string>)
    ensures r.Ok? <==> Count(s, '|') == 1
    ensures r.Err? ==> r.error == "invalid IbcCacheConnectionKey format"
    ensures r.Ok? ==> SerializeConnKey(r.value) == s
  {
    var parts :- DecodeKey(s, "invalid IbcCacheConnectionKey format");
    Ok(ConnKey(IbcConnectionId(parts.0), IbcConnectionId(parts.1)))
  }

  /** A connection key whose ids contain no '|' survives serialisation. */
  lemma {:induction false} ConnKeyRoundTrip(k: ConnKey)
    requires '|' !in k.connectionId1.id && '|' !in k.connectionId2.id
    ensures DeserializeConnKey(SerializeConnKey(k)) == Ok(k)
  {
    KeyRoundTrip(k.connectionId1.id, k.connectionId2.id, "invalid IbcCacheConnectionKey format");
  }

  function SerializeChannelKey(k: ChannelKey): string {
    EncodeKey(PortIdDisplay(k.portId1), PortIdDisplay(k.portId2))
  }

  function DeserializeChannelKey(s: string): (r: Result<ChannelKey, string>)
    ensures r.Ok? <==> Count(s, '|') == 1
    ensures r.Err? ==> r.error == "invalid IbcCacheChannelKey format"
    ensures r.Ok? ==> SerializeChannelKey(r.value) == s
  {
    var parts :- DecodeKey(s, "invalid IbcCacheChannelKey format");
    Ok(ChannelKey(IbcPortId(parts.0), IbcPortId(parts.1)))
  }

  /** A channel key whose ports contain no '|' survives serialisation. */
  lemma {:induction false} ChannelKeyRoundTrip(k: ChannelKey)
    requires '|' !in k.portId1.id && '|' !in k.portId2.id
    ensures DeserializeChannelKey(SerializeChannelKey(k)) == Ok(k)
  {
    KeyRoundTrip(k.portId1.id, k.portId2.id, "invalid IbcCacheChannelKey format");
  }
}
