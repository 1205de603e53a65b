/** The IBC handshake and packet message builders (`signing/ibc/msg.rs`): the connection
    opening handshake of ICS-3 (Connection Semantics), the channel opening handshake and
    packet relay messages of ICS-4 (Channel & Packet Semantics). The remote queries the
    builders make are parameters: the client-state query gives the latest height, and the
    proof queries are total functions of their arguments. */
module IbcMsg {
  import opened Wrappers
  import opened Text
  import opened IbcTypes
  import IbcEvents
  import opened Abci

  // ---------------------------------------------------------------------------
  // Constants

  /** A connection version: an identifier and the channel orderings it supports. */
  datatype ConnVersion = ConnVersion(identifier: string, features: seq<string>)

  datatype MerklePrefix = MerklePrefix(keyPrefix: seq<byte>)

  /** `IBC_VERSION`: ibc-go's default connection version. */
  const IBC_VERSION: ConnVersion := ConnVersion("1", ["ORDER_ORDERED", "ORDER_UNORDERED"])

  /** `IBC_MERKLE_PREFIX`: the bytes of "ibc", the default counterparty prefix of ICS-3. */
  const IBC_MERKLE_PREFIX: MerklePrefix := MerklePrefix(Utf8("ibc"))

  /** The prefix is the three ASCII bytes of "ibc". */
  lemma {:induction false} MerklePrefixBytes()
    ensures IBC_MERKLE_PREFIX.keyPrefix == [0x69, 0x62, 0x63]
  {
    Utf8Ascii("ibc");
  }

  /** Channel states and orderings as the `i32` codes of ibc-go's `channel.proto`. */
  const CHANNEL_STATE_INIT: int := 1
  const CHANNEL_STATE_TRYOPEN: int := 2

  function OrderCode(o: IbcChannelOrdering): int {
    match o
    case Unordered => 1
    case Ordered => 2
  }

  /** The decoding direction of the ordering code; 0 (`ORDER_NONE_UNSPECIFIED`) and unknown
      codes have no ordering. */
  function OrderFromCode(c: int): (r: Option<IbcChannelOrdering>)
    ensures r.Some? <==> c == 1 || c == 2
  {
    if c == 1 then Some(Unordered) else if c == 2 then Some(Ordered) else None
  }

  /** The ordering code decodes back to the ordering, and only an ordering's code decodes. */
  lemma {:induction false} OrderCodeRoundTrip(o: IbcChannelOrdering, c: int)
    ensures OrderFromCode(OrderCode(o)) == Some(o)
    ensures OrderFromCode(c) == Some(o) <==> c == OrderCode(o)
  {
  }

  // ---------------------------------------------------------------------------
  // Remote query results

  /** The connection states of `connection.proto`; unknown codes read as unspecified. */
  datatype ConnectionState = Uninitialized | Init | TryOpen | Open

  /** `IbcConnectionProofs`, the counterparty's connection and its proofs at one height. */
  datatype ConnectionProofs = ConnectionProofs(
    queryHeight: nat,
    proofHeight: RevisionHeight,
    consensusHeight: RevisionHeight,
    connectionState: ConnectionState,
    connectionProof: seq<byte>,
    clientStateProof: seq<byte>,
    consensusProof: seq<byte>,
    clientState: seq<byte>)

  /** The two fields of `IbcChannelProofs` the builders use. */
  datatype ChannelProofs = ChannelProofs(proofHeight: RevisionHeight, channelProof: seq<byte>)

  /** The result of an ABCI proof query: the stored value and its proof. */
  datatype AbciProof = AbciProof(value: seq<byte>, proof: seq<byte>)

  /** The errors of the builders (all `anyhow` errors in the Rust code). */
  datatype MsgError =
    | QueryFailed(msg: string)
    | MissingLatestHeight
    | ConnectionNotInit(state: ConnectionState)
    | ConnectionNotTryOpen(queryHeight: nat, state: ConnectionState)
    | HeightUnderflow
    | CommitmentValueEmpty
    | CommitmentProofEmpty
    | AckValueEmpty
    | AckProofEmpty
    | AckMissing
    | AckEmpty

  /** The latest height of the local client state; a failed query or a client state without
      a height is an error. */
  function LatestHeight(clientState: Result<Option<RevisionHeight>, string>): (r: Result<RevisionHeight, MsgError>)
    ensures r.Ok? <==> clientState.Ok? && clientState.value.Some?
    ensures r.Ok? ==> r.value == clientState.value.value
    ensures clientState.Err? ==> r == Err(QueryFailed(clientState.error))
    ensures clientState == Ok(None) ==> r == Err(MissingLatestHeight)
  {
    var h :- clientState.MapErr(e => QueryFailed(e));
    OkOr(h, MissingLatestHeight)
  }

  /** The counterparty's connection proofs, queried at the latest height of the local client. */
  function CounterpartyConnection(
    clientState: Result<Option<RevisionHeight>, string>,
    connProofs: (RevisionHeight, IbcClientId, IbcConnectionId) -> Result<ConnectionProofs, string>,
    cpClient: IbcClientId, cpConn: IbcConnectionId): (r: Result<ConnectionProofs, MsgError>)
    ensures r.Ok? <==> LatestHeight(clientState).Ok?
                       && connProofs(LatestHeight(clientState).value, cpClient, cpConn).Ok?
    ensures r.Ok? ==> r.value == connProofs(LatestHeight(clientState).value, cpClient, cpConn).value
    ensures LatestHeight(clientState).Err? ==> r == Err(LatestHeight(clientState).error)
  {
    var h :- LatestHeight(clientState);
    connProofs(h, cpClient, cpConn).MapErr(e => QueryFailed(e))
  }

  /** The counterparty's channel proofs, queried at the latest height of the local client. */
  function CounterpartyChannel(
    clientState: Result<Option<RevisionHeight>, string>,
    chanProofs: (RevisionHeight, IbcChannelId, IbcPortId) -> Result<ChannelProofs, string>,
    cpChannel: IbcChannelId, cpPort: IbcPortId): (r: Result<ChannelProofs, MsgError>)
    ensures r.Ok? <==> LatestHeight(clientState).Ok?
                       && chanProofs(LatestHeight(clientState).value, cpChannel, cpPort).Ok?
    ensures r.Ok? ==> r.value == chanProofs(LatestHeight(clientState).value, cpChannel, cpPort).value
    ensures LatestHeight(clientState).Err? ==> r == Err(LatestHeight(clientState).error)
  {
    var h :- LatestHeight(clientState);
    chanProofs(h, cpChannel, cpPort).MapErr(e => QueryFailed(e))
  }

  // ---------------------------------------------------------------------------
  // Connection handshake (ICS-3)

  datatype ConnCounterparty = ConnCounterparty(clientId: string, connectionId: string, prefix: Option<MerklePrefix>)

  datatype MsgConnectionOpenInit = MsgConnectionOpenInit(
    clientId: string, counterparty: Option<ConnCounterparty>, version: Option<ConnVersion>,
    delayPeriod: nat, signer: string)

  datatype MsgConnectionOpenTry = MsgConnectionOpenTry(
    clientId: string,
    clientState: Option<seq<byte>>,
    proofHeight: Option<RevisionHeight>,
    proofClient: seq<byte>,
    proofInit: seq<byte>,
    proofConsensus: seq<byte>,
    consensusHeight: Option<RevisionHeight>,
    counterpartyVersions: seq<ConnVersion>,
    counterparty: Option<ConnCounterparty>,
    signer: string,
    hostConsensusStateProof: seq<byte>,
    previousConnectionId: string,
    delayPeriod: nat)

  datatype MsgConnectionOpenAck = MsgConnectionOpenAck(
    connectionId: string,
    counterpartyConnectionId: string,
    clientState: Option<seq<byte>>,
    proofHeight: Option<RevisionHeight>,
    proofClient: seq<byte>,
    proofTry: seq<byte>,
    proofConsensus: seq<byte>,
    consensusHeight: Option<RevisionHeight>,
    signer: string,
    version: Option<ConnVersion>,
    hostConsensusStateProof: seq<byte>)

  datatype MsgConnectionOpenConfirm = MsgConnectionOpenConfirm(
    connectionId: string, proofAck: seq<byte>, proofHeight: Option<RevisionHeight>, signer: string)

  /** `ibc_open_connection_init_msg`: the counterparty's connection id is not known yet, so it
      is empty; the prefix and version are the defaults and there is no delay. */
  function ConnectionOpenInit(signer: string, client: IbcClientId, cpClient: IbcClientId): (r: MsgConnectionOpenInit)
    ensures r.clientId == client.id
    ensures r.counterparty == Some(ConnCounterparty(cpClient.id, "", Some(IBC_MERKLE_PREFIX)))
    ensures r.version == Some(IBC_VERSION) && r.delayPeriod == 0
    ensures r.signer == signer
  {
    MsgConnectionOpenInit(
      ClientIdDisplay(client),
      Some(ConnCounterparty(ClientIdDisplay(cpClient), "", Some(IBC_MERKLE_PREFIX))),
      Some(IBC_VERSION), 0, signer)
  }

  /** `ibc_open_connection_try_msg`: answers the counterparty's `Init` with its proofs; any
      other counterparty state is refused. */
  function ConnectionOpenTry(
    signer: string, client: IbcClientId, cpClient: IbcClientId, cpConn: IbcConnectionId,
    clientState: Result<Option<RevisionHeight>, string>,
    connProofs: (RevisionHeight, IbcClientId, IbcConnectionId) -> Result<ConnectionProofs, string>): (r: Result<MsgConnectionOpenTry, MsgError>)
    ensures var q := CounterpartyConnection(clientState, connProofs, cpClient, cpConn);
      && (r.Ok? <==> q.Ok? && q.value.connectionState == Init)
      && (q.Err? ==> r == Err(q.error))
      && (q.Ok? && q.value.connectionState != Init ==> r == Err(ConnectionNotInit(q.value.connectionState)))
      && (r.Ok? ==>
            && r.value.clientId == client.id
            && r.value.counterparty == Some(ConnCounterparty(cpClient.id, cpConn.id, Some(IBC_MERKLE_PREFIX)))
            && r.value.counterpartyVersions == [IBC_VERSION]
            && r.value.clientState == Some(q.value.clientState)
            && r.value.proofHeight == Some(q.value.proofHeight)
            && r.value.consensusHeight == Some(q.value.consensusHeight)
            && r.value.proofInit == q.value.connectionProof
            && r.value.proofClient == q.value.clientStateProof
            && r.value.proofConsensus == q.value.consensusProof
            && r.value.hostConsensusStateProof == []
            && r.value.previousConnectionId == ""
            && r.value.delayPeriod == 0
            && r.value.signer == signer)
  {
    var p :- CounterpartyConnection(clientState, connProofs, cpClient, cpConn);
    if p.connectionState != Init then Err(ConnectionNotInit(p.connectionState))
    else
      Ok(MsgConnectionOpenTry(
        ClientIdDisplay(client), Some(p.clientState), Some(p.proofHeight),
        p.clientStateProof, p.connectionProof, p.consensusProof, Some(p.consensusHeight),
        [IBC_VERSION],
        Some(ConnCounterparty(ClientIdDisplay(cpClient), ConnectionIdDisplay(cpConn), Some(IBC_MERKLE_PREFIX))),
        signer, [], "", 0))
  }

  /** `ibc_open_connection_ack_msg`: answers the counterparty's `TryOpen`; any other
      counterparty state is refused, the error naming the query height. */
  function ConnectionOpenAck(
    signer: string, client: IbcClientId, cpClient: IbcClientId,
    conn: IbcConnectionId, cpConn: IbcConnectionId,
    clientState: Result<Option<RevisionHeight>, string>,
    connProofs: (RevisionHeight, IbcClientId, IbcConnectionId) -> Result<ConnectionProofs, string>): (r: Result<MsgConnectionOpenAck, MsgError>)
    ensures var q := CounterpartyConnection(clientState, connProofs, cpClient, cpConn);
      && (r.Ok? <==> q.Ok? && q.value.connectionState == TryOpen)
      && (q.Err? ==> r == Err(q.error))
      && (q.Ok? && q.value.connectionState != TryOpen ==>
            r == Err(ConnectionNotTryOpen(q.value.queryHeight, q.value.connectionState)))
      && (r.Ok? ==>
            && r.value.connectionId == conn.id
            && r.value.counterpartyConnectionId == cpConn.id
            && r.value.version == Some(IBC_VERSION)
            && r.value.clientState == Some(q.value.clientState)
            && r.value.proofHeight == Some(q.value.proofHeight)
            && r.value.consensusHeight == Some(q.value.consensusHeight)
            && r.value.proofTry == q.value.connectionProof
            && r.value.proofClient == q.value.clientStateProof
            && r.value.proofConsensus == q.value.consensusProof
            && r.value.hostConsensusStateProof == []
            && r.value.signer == signer)
  {
    var p :- CounterpartyConnection(clientState, connProofs, cpClient, cpConn);
    if p.connectionState != TryOpen then Err(ConnectionNotTryOpen(p.queryHeight, p.connectionState))
    else
      Ok(MsgConnectionOpenAck(
        ConnectionIdDisplay(conn), ConnectionIdDisplay(cpConn), Some(p.clientState),
        Some(p.proofHeight), p.clientStateProof, p.connectionProof, p.consensusProof,
        Some(p.consensusHeight), signer, Some(IBC_VERSION), []))
  }

  /** `ibc_open_connection_confirm_msg`: carries the counterparty's connection proof; the
      counterparty's state is not checked here. */
  function ConnectionOpenConfirm(
    signer: string, client: IbcClientId, cpClient: IbcClientId,
    conn: IbcConnectionId, cpConn: IbcConnectionId,
    clientState: Result<Option<RevisionHeight>, string>,
    connProofs: (RevisionHeight, IbcClientId, IbcConnectionId) -> Result<ConnectionProofs, string>): (r: Result<MsgConnectionOpenConfirm, MsgError>)
    ensures var q := CounterpartyConnection(clientState, connProofs, cpClient, cpConn);
      && (r.Ok? <==> q.Ok?)
      && (q.Err? ==> r == Err(q.error))
      && (r.Ok? ==> r.value == MsgConnectionOpenConfirm(conn.id, q.value.connectionProof, Some(q.value.proofHeight), signer))
  {
    var p :- CounterpartyConnection(clientState, connProofs, cpClient, cpConn);
    Ok(MsgConnectionOpenConfirm(ConnectionIdDisplay(conn), p.connectionProof, Some(p.proofHeight), signer))
  }

  /** On the same counterparty connection, open-try and open-ack never both succeed: ICS-3
      answers `Init` with `OpenTry` and `TryOpen` with `OpenAck`. */
  lemma {:induction false} TryAndAckExclusive(
    signer: string, client: IbcClientId, cpClient: IbcClientId,
    conn: IbcConnectionId, cpConn: IbcConnectionId,
    clientState: Result<Option<RevisionHeight>, string>,
    connProofs: (RevisionHeight, IbcClientId, IbcConnectionId) -> Result<ConnectionProofs, string>)
    ensures !(ConnectionOpenTry(signer, client, cpClient, cpConn, clientState, connProofs).Ok?
              && ConnectionOpenAck(signer, client, cpClient, conn, cpConn, clientState, connProofs).Ok?)
  {
  }

  // ---------------------------------------------------------------------------
  // Channel handshake (ICS-4)

  datatype ChanCounterparty = ChanCounterparty(portId: string, channelId: string)

  datatype Channel = Channel(
    state: int, ordering: int, counterparty: Option<ChanCounterparty>,
    connectionHops: seq<string>, version: string, upgradeSequence: nat)

  datatype MsgChannelOpenInit = MsgChannelOpenInit(portId: string, channel: Option<Channel>, signer: string)

  datatype MsgChannelOpenTry = MsgChannelOpenTry(
    portId: string, previousChannelId: string, channel: Option<Channel>,
    counterpartyVersion: string, proofInit: seq<byte>, proofHeight: Option<RevisionHeight>,
    signer: string)

  datatype MsgChannelOpenAck = MsgChannelOpenAck(
    portId: string, channelId: string, counterpartyChannelId: string, counterpartyVersion: string,
    proofTry: seq<byte>, proofHeight: Option<RevisionHeight>, signer: string)

  datatype MsgChannelOpenConfirm = MsgChannelOpenConfirm(
    portId: string, channelId: string, proofAck: seq<byte>, proofHeight: Option<RevisionHeight>, signer: string)

  /** `ibc_open_channel_init_msg`: a channel in state `Init` over the one given connection,
      whose counterparty channel is not known yet. It never fails. */
  function ChannelOpenInit(
    signer: string, conn: IbcConnectionId, port: IbcPortId, version: IbcChannelVersion,
    ordering: IbcChannelOrdering, cpPort: IbcPortId): (r: MsgChannelOpenInit)
    ensures r.portId == port.id && r.signer == signer && r.channel.Some?
    ensures r.channel.value.state == CHANNEL_STATE_INIT
    ensures OrderFromCode(r.channel.value.ordering) == Some(ordering)
    ensures r.channel.value.counterparty == Some(ChanCounterparty(cpPort.id, ""))
    ensures r.channel.value.connectionHops == [conn.id]
    ensures r.channel.value.version == version.id
    ensures r.channel.value.upgradeSequence == 0
  {
    MsgChannelOpenInit(
      PortIdDisplay(port),
      Some(Channel(CHANNEL_STATE_INIT, OrderCode(ordering),
                   Some(ChanCounterparty(PortIdDisplay(cpPort), "")),
                   [ConnectionIdDisplay(conn)], ChannelVersionDisplay(version), 0)),
      signer)
  }

  /** `ibc_open_channel_try_msg`: a channel in state `TryOpen` that names the counterparty's
      channel, with the counterparty's channel proof. */
  function ChannelOpenTry(
    signer: string, client: IbcClientId, conn: IbcConnectionId, port: IbcPortId,
    version: IbcChannelVersion, cpPort: IbcPortId, cpChannel: IbcChannelId,
    cpVersion: IbcChannelVersion, ordering: IbcChannelOrdering,
    clientState: Result<Option<RevisionHeight>, string>,
    chanProofs: (RevisionHeight, IbcChannelId, IbcPortId) -> Result<ChannelProofs, string>): (r: Result<MsgChannelOpenTry, MsgError>)
    ensures var q := CounterpartyChannel(clientState, chanProofs, cpChannel, cpPort);
      && (r.Ok? <==> q.Ok?)
      && (q.Err? ==> r == Err(q.error))
      && (r.Ok? ==>
            && r.value.portId == port.id
            && r.value.previousChannelId == ""
            && r.value.channel.Some?
            && r.value.channel.value.state == CHANNEL_STATE_TRYOPEN
            && OrderFromCode(r.value.channel.value.ordering) == Some(ordering)
            && r.value.channel.value.counterparty == Some(ChanCounterparty(cpPort.id, cpChannel.id))
            && r.value.channel.value.connectionHops == [conn.id]
            && r.value.channel.value.version == version.id
            && r.value.channel.value.upgradeSequence == 0
            && r.value.counterpartyVersion == cpVersion.id
            && r.value.proofInit == q.value.channelProof
            && r.value.proofHeight == Some(q.value.proofHeight)
            && r.value.signer == signer)
  {
    var p :- CounterpartyChannel(clientState, chanProofs, cpChannel, cpPort);
    Ok(MsgChannelOpenTry(
      PortIdDisplay(port), "",
      Some(Channel(CHANNEL_STATE_TRYOPEN, OrderCode(ordering),
                   Some(ChanCounterparty(PortIdDisplay(cpPort), ChannelIdDisplay(cpChannel))),
                   [ConnectionIdDisplay(conn)], ChannelVersionDisplay(version), 0)),
      ChannelVersionDisplay(cpVersion), p.channelProof, Some(p.proofHeight), signer))
  }

  /** `ibc_open_channel_ack_msg`. */
  function ChannelOpenAck(
    signer: string, client: IbcClientId, chan: IbcChannelId, port: IbcPortId,
    cpPort: IbcPortId, cpChannel: IbcChannelId, cpVersion: IbcChannelVersion,
    clientState: Result<Option<RevisionHeight>, string>,
    chanProofs: (RevisionHeight, IbcChannelId, IbcPortId) -> Result<ChannelProofs, string>): (r: Result<MsgChannelOpenAck, MsgError>)
    ensures var q := CounterpartyChannel(clientState, chanProofs, cpChannel, cpPort);
      && (r.Ok? <==> q.Ok?)
      && (q.Err? ==> r == Err(q.error))
      && (r.Ok? ==> r.value == MsgChannelOpenAck(port.id, chan.id, cpChannel.id, cpVersion.id,
                                                 q.value.channelProof, Some(q.value.proofHeight), signer))
  {
    var p :- CounterpartyChannel(clientState, chanProofs, cpChannel, cpPort);
    Ok(MsgChannelOpenAck(PortIdDisplay(port), ChannelIdDisplay(chan), ChannelIdDisplay(cpChannel),
                         ChannelVersionDisplay(cpVersion), p.channelProof, Some(p.proofHeight), signer))
  }

  /** `ibc_open_channel_confirm_msg`. */
  function ChannelOpenConfirm(
    signer: string, client: IbcClientId, chan: IbcChannelId, port: IbcPortId,
    cpPort: IbcPortId, cpChannel: IbcChannelId,
    clientState: Result<Option<RevisionHeight>, string>,
    chanProofs: (RevisionHeight, IbcChannelId, IbcPortId) -> Result<ChannelProofs, string>): (r: Result<MsgChannelOpenConfirm, MsgError>)
    ensures var q := CounterpartyChannel(clientState, chanProofs, cpChannel, cpPort);
      && (r.Ok? <==> q.Ok?)
      && (q.Err? ==> r == Err(q.error))
      && (r.Ok? ==> r.value == MsgChannelOpenConfirm(port.id, chan.id, q.value.channelProof,
                                                     Some(q.value.proofHeight), signer))
  {
    var p :- CounterpartyChannel(clientState, chanProofs, cpChannel, cpPort);
    Ok(MsgChannelOpenConfirm(PortIdDisplay(port), ChannelIdDisplay(chan), p.channelProof, Some(p.proofHeight), signer))
  }

  /** Init and try describe the same channel end except for the state and for the counterparty
      channel id, which only try knows. */
  lemma {:induction false} ChannelInitTryAgree(
    signer: string, client: IbcClientId, conn: IbcConnectionId, port: IbcPortId,
    version: IbcChannelVersion, cpPort: IbcPortId, cpChannel: IbcChannelId,
    cpVersion: IbcChannelVersion, ordering: IbcChannelOrdering,
    clientState: Result<Option<RevisionHeight>, string>,
    chanProofs: (RevisionHeight, IbcChannelId, IbcPortId) -> Result<ChannelProofs, string>)
    requires ChannelOpenTry(signer, client, conn, port, version, cpPort, cpChannel, cpVersion,
                            ordering, clientState, chanProofs).Ok?
    ensures var init := ChannelOpenInit(signer, conn, port, version, ordering, cpPort).channel.value;
            var try := ChannelOpenTry(signer, client, conn, port, version, cpPort, cpChannel, cpVersion,
                                      ordering, clientState, chanProofs).value.channel.value;
            try == init.(state := CHANNEL_STATE_TRYOPEN, counterparty := Some(ChanCounterparty(cpPort.id, cpChannel.id)))
  {
  }

  // ---------------------------------------------------------------------------
  // Packets

  /** The wire packet of `channel.proto`. */
  datatype ProtoPacket = ProtoPacket(
    sequence: nat,
    sourcePort: string,
    sourceChannel: string,
    destinationPort: string,
    destinationChannel: string,
    timeoutHeight: Option<RevisionHeight>,
    timeoutTimestamp: nat,
    data: seq<byte>)

  /** The timeout height on the wire: none, or (revision, height). */
  function ConvertTimeout(t: IbcEvents.TimeoutHeight): (r: Option<RevisionHeight>)
    ensures r.None? <==> t.NoTimeout?
    ensures t.Revision? ==> r == Some(RevisionHeight(t.revision, t.height))
  {
    match t
    case NoTimeout => None
    case Revision(height, revision) => Some(RevisionHeight(revision, height))
  }

  /** `convert_ibc_packet` (which never fails): ids and sequence copied, connection ids, ack
      and kind dropped, and absent data sent as empty bytes. */
  function ConvertPacket(p: IbcEvents.IbcPacket): (r: ProtoPacket)
    ensures r.sequence == p.sequence && r.timeoutTimestamp == p.timeoutTimestamp
    ensures r.sourcePort == p.srcPortId.id && r.sourceChannel == p.srcChannelId.id
    ensures r.destinationPort == p.dstPortId.id && r.destinationChannel == p.dstChannelId.id
    ensures p.data.Some? ==> r.data == p.data.value
    ensures p.data.None? ==> r.data == []
    ensures r.timeoutHeight == ConvertTimeout(p.timeoutHeight)
  {
    ProtoPacket(
      p.sequence, PortIdDisplay(p.srcPortId), ChannelIdDisplay(p.srcChannelId),
      PortIdDisplay(p.dstPortId), ChannelIdDisplay(p.dstChannelId),
      ConvertTimeout(p.timeoutHeight), p.timeoutTimestamp, p.data.GetOr([]))
  }

  /** A timeout height read from a packet event as "{revision}-{height}" reaches the wire as
      that (revision, height), and "0-0" as no timeout height. */
  lemma {:induction false} TimeoutFromEventText(revision: nat, height: nat)
    requires revision < U64_LIMIT && height < U64_LIMIT
    ensures var t := IbcEvents.ParseTimeoutHeight(NatToString(revision) + "-" + NatToString(height));
      && t.Ok?
      && ConvertTimeout(t.value) == (if revision == 0 && height == 0 then None
                                     else Some(RevisionHeight(revision, height)))
  {
    IbcEvents.TimeoutHeightFormatted(revision, height);
  }

  /** The wire packet with source and destination exchanged. */
  function SwapEnds(q: ProtoPacket): (r: ProtoPacket)
    ensures r.sourcePort == q.destinationPort && r.destinationPort == q.sourcePort
    ensures r.sourceChannel == q.destinationChannel && r.destinationChannel == q.sourceChannel
  {
    q.(sourcePort := q.destinationPort, destinationPort := q.sourcePort,
       sourceChannel := q.destinationChannel, destinationChannel := q.sourceChannel)
  }

  /** Converting an inverted packet is converting the packet and exchanging the ends. */
  lemma {:induction false} ConvertInvert(p: IbcEvents.IbcPacket)
    ensures ConvertPacket(IbcEvents.Invert(p)) == SwapEnds(ConvertPacket(p))
  {
  }

  datatype MsgRecvPacket = MsgRecvPacket(
    packet: Option<ProtoPacket>, proofCommitment: seq<byte>, proofHeight: Option<RevisionHeight>, signer: string)

  datatype MsgAcknowledgement = MsgAcknowledgement(
    packet: Option<ProtoPacket>, acknowledgement: seq<byte>, proofAcked: seq<byte>,
    proofHeight: Option<RevisionHeight>, signer: string)

  /** The height the packet proofs are queried at: one below the proof height. The Rust code
      subtracts on `u64`, which panics (debug) at height 0; that is an error here. */
  function QueryHeight(proofHeight: RevisionHeight): (r: Result<nat, MsgError>)
    ensures r.Ok? <==> proofHeight.revisionHeight > 0
    ensures r.Ok? ==> r.value + 1 == proofHeight.revisionHeight
    ensures r.Err? ==> r.error == HeightUnderflow
  {
    if proofHeight.revisionHeight == 0 then Err(HeightUnderflow) else Ok(proofHeight.revisionHeight - 1)
  }

  /** The packet's stored commitment or acknowledgement on the source chain, queried one block
      below the latest height of the local client. */
  function PacketStore(
    clientState: Result<Option<RevisionHeight>, string>,
    abci: (AbciProofKind, nat) -> Result<AbciProof, string>,
    kind: AbciProofKind): (r: Result<AbciProof, MsgError>)
    ensures r.Ok? <==> && LatestHeight(clientState).Ok?
                       && QueryHeight(LatestHeight(clientState).value).Ok?
                       && abci(kind, QueryHeight(LatestHeight(clientState).value).value).Ok?
    ensures r.Ok? ==> r.value == abci(kind, LatestHeight(clientState).value.revisionHeight - 1).value
  {
    var h :- LatestHeight(clientState);
    var qh :- QueryHeight(h);
    abci(kind, qh).MapErr(e => QueryFailed(e))
  }

  /** `ibc_packet_recv_msg`: the commitment of the packet on its source chain, at one block
      below the proof height; an empty value or proof is refused. */
  function RecvPacket(
    signer: string, client: IbcClientId, packet: IbcEvents.IbcPacket,
    clientState: Result<Option<RevisionHeight>, string>,
    abci: (AbciProofKind, nat) -> Result<AbciProof, string>): (r: Result<MsgRecvPacket, MsgError>)
    ensures var kind := IbcPacketCommitment(packet.srcPortId, packet.srcChannelId, packet.sequence);
            var s := PacketStore(clientState, abci, kind);
      && (r.Ok? <==> s.Ok? && |s.value.value| > 0 && |s.value.proof| > 0)
      && (s.Err? ==> r == Err(s.error))
      && (s.Ok? && |s.value.value| == 0 ==> r == Err(CommitmentValueEmpty))
      && (s.Ok? && |s.value.value| > 0 && |s.value.proof| == 0 ==> r == Err(CommitmentProofEmpty))
      && (r.Ok? ==>
            && r.value.packet == Some(ConvertPacket(packet))
            && r.value.proofCommitment == s.value.proof
            && r.value.proofHeight == Some(LatestHeight(clientState).value)
            && r.value.signer == signer)
  {
    var h :- LatestHeight(clientState);
    var store :- PacketStore(clientState, abci, IbcPacketCommitment(packet.srcPortId, packet.srcChannelId, packet.sequence));
    if |store.value| == 0 then Err(CommitmentValueEmpty)
    else if |store.proof| == 0 then Err(CommitmentProofEmpty)
    else Ok(MsgRecvPacket(Some(ConvertPacket(packet)), store.proof, Some(h), signer))
  }

  /** `ibc_packet_ack_msg`: the acknowledgement stored on the packet's source chain, at one
      block below the proof height. The value and proof must be non-empty and the packet
      must carry a non-empty acknowledgement; the packet is then inverted back to the
      original send direction before conversion. */
  function AckPacket(
    signer: string, client: IbcClientId, packet: IbcEvents.IbcPacket,
    clientState: Result<Option<RevisionHeight>, string>,
    abci: (AbciProofKind, nat) -> Result<AbciProof, string>): (r: Result<MsgAcknowledgement, MsgError>)
    ensures var kind := IbcPacketAck(packet.srcPortId, packet.srcChannelId, packet.sequence);
            var s := PacketStore(clientState, abci, kind);
      && (r.Ok? <==> && s.Ok? && |s.value.value| > 0 && |s.value.proof| > 0
                     && packet.ack.Some? && |packet.ack.value| > 0)
      && (s.Err? ==> r == Err(s.error))
      && (s.Ok? && |s.value.value| == 0 ==> r == Err(AckValueEmpty))
      && (s.Ok? && |s.value.value| > 0 && |s.value.proof| == 0 ==> r == Err(AckProofEmpty))
      && (s.Ok? && |s.value.value| > 0 && |s.value.proof| > 0 && packet.ack.None? ==> r == Err(AckMissing))
      && (s.Ok? && |s.value.value| > 0 && |s.value.proof| > 0 && packet.ack == Some([]) ==> r == Err(AckEmpty))
      && (r.Ok? ==>
            && r.value.packet == Some(ConvertPacket(IbcEvents.Invert(packet)))
            && r.value.acknowledgement == packet.ack.value
            && r.value.proofAcked == s.value.proof
            && r.value.proofHeight == Some(LatestHeight(clientState).value)
            && r.value.signer == signer)
  {
    var h :- LatestHeight(clientState);
    var store :- PacketStore(clientState, abci, IbcPacketAck(packet.srcPortId, packet.srcChannelId, packet.sequence));
    if |store.value| == 0 then Err(AckValueEmpty)
    else if |store.proof| == 0 then Err(AckProofEmpty)
    else
      var ack :- OkOr(packet.ack, AckMissing);
      if |ack| == 0 then Err(AckEmpty)
      else Ok(MsgAcknowledgement(Some(ConvertPacket(IbcEvents.Invert(packet.(ack := None)))), ack, store.proof, Some(h), signer))
  }

  /** For one packet, the acknowledgement message carries the receive message's packet with
      its ends exchanged, and both prove at the same height. */
  lemma {:induction false} RecvAckOpposite(
    signer: string, client: IbcClientId, packet: IbcEvents.IbcPacket,
    clientState: Result<Option<RevisionHeight>, string>,
    abci: (AbciProofKind, nat) -> Result<AbciProof, string>)
    requires RecvPacket(signer, client, packet, clientState, abci).Ok?
    requires AckPacket(signer, client, packet, clientState, abci).Ok?
    ensures var recv := RecvPacket(signer, client, packet, clientState, abci).value;
            var ack := AckPacket(signer, client, packet, clientState, abci).value;
      && recv.packet.Some? && ack.packet == Some(SwapEnds(recv.packet.value))
      && ack.proofHeight == recv.proofHeight
  {
    ConvertInvert(packet);
  }
}
