/** ABCI proof queries (`querier/abci.rs`): the store each kind of proof is read from and
    the key it is read under. The IBC keys are the commitment paths of the "Path-space"
    section of ICS-24 (Host Requirements). */
module Abci {
  import opened Wrappers
  import opened Text
  import opened IbcTypes
  import Address

  /** `layer_climb_proto::RevisionHeight`. */
  datatype RevisionHeight = RevisionHeight(revisionNumber: nat, revisionHeight: nat)

  datatype AbciProofKind =
    | IbcClientState(clientId: IbcClientId)
    | IbcConnection(connectionId: IbcConnectionId)
    | IbcConsensus(clientId: IbcClientId, height: RevisionHeight)
    | IbcChannel(channelId: IbcChannelId, portId: IbcPortId)
    | IbcPacketCommitment(portId: IbcPortId, channelId: IbcChannelId, sequence: nat)
    | IbcPacketReceive(portId: IbcPortId, channelId: IbcChannelId, sequence: nat)
    | IbcPacketAck(portId: IbcPortId, channelId: IbcChannelId, sequence: nat)
    | StakingParams
    | AuthBaseAccount(address: Address.Address)
  {
    predicate IsIbc() {
      !StakingParams? && !AuthBaseAccount?
    }
  }

  const IBC_STORE_PATH: string := "store/ibc/key"
  const STAKING_STORE_PATH: string := "store/staking/key"
  const ACCOUNT_STORE_PATH: string := "store/acc/key"

  /** `AbciProofKind::path`: the IBC store for the seven IBC kinds, else the staking or
      account store. */
  function Path(k: AbciProofKind): (r: string)
    ensures r == IBC_STORE_PATH <==> k.IsIbc()
    ensures r == STAKING_STORE_PATH <==> k.StakingParams?
    ensures r == ACCOUNT_STORE_PATH <==> k.AuthBaseAccount?
  {
    match k
    case StakingParams => STAKING_STORE_PATH
    case AuthBaseAccount(_) => ACCOUNT_STORE_PATH
    case _ => IBC_STORE_PATH
  }

  /** The ICS-24 path of an IBC kind, segment by segment. */
  function Segments(k: AbciProofKind): seq<string>
    requires k.IsIbc()
  {
    match k
    case IbcClientState(c) => ["clients", c.id, "clientState"]
    case IbcConnection(c) => ["connections", c.id]
    case IbcConsensus(c, h) =>
      ["clients", c.id, "consensusStates",
       NatToString(h.revisionNumber) + "-" + NatToString(h.revisionHeight)]
    case IbcChannel(chan, port) => ["channelEnds", "ports", port.id, "channels", chan.id]
    case IbcPacketCommitment(port, chan, s) =>
      ["commitments", "ports", port.id, "channels", chan.id, "sequences", NatToString(s)]
    case IbcPacketReceive(port, chan, s) =>
      ["receipts", "ports", port.id, "channels", chan.id, "sequences", NatToString(s)]
    case IbcPacketAck(port, chan, s) =>
      ["acks", "ports", port.id, "channels", chan.id, "sequences", NatToString(s)]
  }

  /** "a/b". */
  function Sub(a: string, b: string): string {
    a + "/" + b
  }

  /** The key text of an IBC kind, as `format!` writes it. */
  function IbcKey(k: AbciProofKind): string
    requires k.IsIbc()
  {
    match k
    case IbcClientState(c) => Sub("clients", Sub(c.id, "clientState"))
    case IbcConnection(c) => Sub("connections", c.id)
    case IbcConsensus(c, h) =>
      Sub("clients", Sub(c.id, Sub("consensusStates",
        NatToString(h.revisionNumber) + "-" + NatToString(h.revisionHeight))))
    case IbcChannel(chan, port) => Sub("channelEnds", Sub("ports", Sub(port.id, Sub("channels", chan.id))))
    case IbcPacketCommitment(port, chan, s) => Sub("commitments", PacketKeyTail(port, chan, s))
    case IbcPacketReceive(port, chan, s) => Sub("receipts", PacketKeyTail(port, chan, s))
    case IbcPacketAck(port, chan, s) => Sub("acks", PacketKeyTail(port, chan, s))
  }

  /** "ports/{port}/channels/{channel}/sequences/{sequence}". */
  function PacketKeyTail(port: IbcPortId, chan: IbcChannelId, s: nat): string {
    Sub("ports", Sub(port.id, Sub("channels", Sub(chan.id, Sub("sequences", NatToString(s))))))
  }

  lemma {:induction false} SplitSub(a: string, b: string)
    requires '/' !in a
    ensures Split(Sub(a, b), '/') == [a] + Split(b, '/')
  {
    assert Sub(a, b) == a + ['/'] + b;
    SplitAtSeparator(a, b, '/');
    SplitNoSeparator(a, '/');
  }

  lemma {:induction false} SplitLeaf(a: string)
    requires '/' !in a
    ensures Split(a, '/') == [a]
  {
    SplitNoSeparator(a, '/');
  }

  /** The IBC identifiers of a kind contain no '/'. */
  predicate SlashFree(k: AbciProofKind) {
    match k
    case IbcClientState(c) => '/' !in c.id
    case IbcConnection(c) => '/' !in c.id
    case IbcConsensus(c, _) => '/' !in c.id
    case IbcChannel(chan, port) => '/' !in chan.id && '/' !in port.id
    case IbcPacketCommitment(port, chan, _) => '/' !in chan.id && '/' !in port.id
    case IbcPacketReceive(port, chan, _) => '/' !in chan.id && '/' !in port.id
    case IbcPacketAck(port, chan, _) => '/' !in chan.id && '/' !in port.id
    case _ => true
  }

  lemma {:induction false} NatToStringNoSeparators(n: nat)
    ensures '/' !in NatToString(n) && '-' !in NatToString(n)
  {
    assert forall c :: c in NatToString(n) ==> IsDigit(c);
  }

  /** Splitting a key at '/' gives back its segments, provided no identifier holds a '/'. */
  lemma {:induction false} KeySegments(k: AbciProofKind)
    requires k.IsIbc() && SlashFree(k)
    ensures Split(IbcKey(k), '/') == Segments(k)
  {
    match k
    case IbcClientState(c) => ClientStateSegments(c);
    case IbcConnection(c) =>
      SplitLeaf(c.id);
      SplitSub("connections", c.id);
    case IbcConsensus(c, h) => ConsensusSegments(c, h);
    case IbcChannel(chan, port) => ChannelSegments(chan, port);
    case IbcPacketCommitment(port, chan, s) => PacketSegments("commitments", port, chan, s);
    case IbcPacketReceive(port, chan, s) => PacketSegments("receipts", port, chan, s);
    case IbcPacketAck(port, chan, s) => PacketSegments("acks", port, chan, s);
  }

  lemma {:induction false} PacketSegments(head: string, port: IbcPortId, chan: IbcChannelId, s: nat)
    requires '/' !in head && '/' !in port.id && '/' !in chan.id
    ensures Split(Sub(head, PacketKeyTail(port, chan, s)), '/')
      == [head, "ports", port.id, "channels", chan.id, "sequences", NatToString(s)]
  {
    PacketKeyTailSegments(port, chan, s);
    SplitSub(head, PacketKeyTail(port, chan, s));
  }

  lemma {:induction false} ClientStateSegments(c: IbcClientId)
    requires '/' !in c.id
    ensures Split(IbcKey(IbcClientState(c)), '/') == ["clients", c.id, "clientState"]
  {
    SplitLeaf("clientState");
    SplitSub(c.id, "clientState");
    SplitSub("clients", Sub(c.id, "clientState"));
  }

  lemma {:induction false} ConsensusSegments(c: IbcClientId, h: RevisionHeight)
    requires '/' !in c.id
    ensures Split(IbcKey(IbcConsensus(c, h)), '/') == Segments(IbcConsensus(c, h))
  {
    var hs := NatToString(h.revisionNumber) + "-" + NatToString(h.revisionHeight);
    NatToStringNoSeparators(h.revisionNumber);
    NatToStringNoSeparators(h.revisionHeight);
    assert '/' !in hs;
    SplitLeaf(hs);
    SplitSub("consensusStates", hs);
    SplitSub(c.id, Sub("consensusStates", hs));
    SplitSub("clients", Sub(c.id, Sub("consensusStates", hs)));
  }

  lemma {:induction false} ChannelSegments(chan: IbcChannelId, port: IbcPortId)
    requires '/' !in chan.id && '/' !in port.id
    ensures Split(IbcKey(IbcChannel(chan, port)), '/') == ["channelEnds", "ports", port.id, "channels", chan.id]
  {
    SplitLeaf(chan.id);
    SplitSub("channels", chan.id);
    SplitSub(port.id, Sub("channels", chan.id));
    SplitSub("ports", Sub(port.id, Sub("channels", chan.id)));
    SplitSub("channelEnds", Sub("ports", Sub(port.id, Sub("channels", chan.id))));
  }

  lemma {:induction false} PacketKeyTailSegments(port: IbcPortId, chan: IbcChannelId, s: nat)
    requires '/' !in port.id && '/' !in chan.id
    ensures Split(PacketKeyTail(port, chan, s), '/')
      == ["ports", port.id, "channels", chan.id, "sequences", NatToString(s)]
  {
    NatToStringNoSeparators(s);
    SplitLeaf(NatToString(s));
    SplitSub("sequences", NatToString(s));
    SplitSub(chan.id, Sub("sequences", NatToString(s)));
    SplitSub("channels", Sub(chan.id, Sub("sequences", NatToString(s))));
    SplitSub(port.id, Sub("channels", Sub(chan.id, Sub("sequences", NatToString(s)))));
    SplitSub("ports", Sub(port.id, Sub("channels", Sub(chan.id, Sub("sequences", NatToString(s))))));
  }

  /** A consensus height's "{revision}-{height}" segment determines the height. */
  lemma {:induction false} HeightSegmentInjective(a: RevisionHeight, b: RevisionHeight)
    requires NatToString(a.revisionNumber) + "-" + NatToString(a.revisionHeight)
      == NatToString(b.revisionNumber) + "-" + NatToString(b.revisionHeight)
    ensures a == b
  {
    var x1, y1 := NatToString(a.revisionNumber), NatToString(a.revisionHeight);
    var x2, y2 := NatToString(b.revisionNumber), NatToString(b.revisionHeight);
    NatToStringNoSeparators(a.revisionNumber);
    NatToStringNoSeparators(a.revisionHeight);
    NatToStringNoSeparators(b.revisionNumber);
    NatToStringNoSeparators(b.revisionHeight);
    assert x1 + "-" + y1 == x1 + ['-'] + y1;
    assert x2 + "-" + y2 == x2 + ['-'] + y2;
    SplitAtSeparator(x1, y1, '-');
    SplitAtSeparator(x2, y2, '-');
    SplitNoSeparator(x1, '-');
    SplitNoSeparator(y1, '-');
    SplitNoSeparator(x2, '-');
    SplitNoSeparator(y2, '-');
    assert [x1] + [y1] == [x2] + [y2];
    assert ([x1] + [y1])[0] == x1 && ([x2] + [y2])[0] == x2;
    assert ([x1] + [y1])[1] == y1 && ([x2] + [y2])[1] == y2;
    NatToStringInjective(a.revisionNumber, b.revisionNumber);
    NatToStringInjective(a.revisionHeight, b.revisionHeight);
  }

  /** Distinct IBC proof kinds are read under distinct keys (identifiers without '/'). */
  lemma {:induction false} IbcKeyInjective(k1: AbciProofKind, k2: AbciProofKind)
    requires k1.IsIbc() && SlashFree(k1) && k2.IsIbc() && SlashFree(k2)
    requires IbcKey(k1) == IbcKey(k2)
    ensures k1 == k2
  {
    KeySegments(k1);
    KeySegments(k2);
    var s1, s2 := Segments(k1), Segments(k2);
    assert s1 == s2;
    match k1
    case IbcConsensus(_, h1) =>
      assert k2.IbcConsensus? by { assert |s2| == 4 && s2[2] == "consensusStates"; }
      HeightSegmentInjective(h1, k2.height);
    case IbcPacketCommitment(_, _, n) =>
      assert k2.IbcPacketCommitment? by { assert |s2| == 7 && s2[0] == "commitments"; }
      NatToStringInjective(n, k2.sequence);
    case IbcPacketReceive(_, _, n) =>
      assert k2.IbcPacketReceive? by { assert |s2| == 7 && s2[0] == "receipts"; }
      NatToStringInjective(n, k2.sequence);
    case IbcPacketAck(_, _, n) =>
      assert k2.IbcPacketAck? by { assert |s2| == 7 && s2[0] == "acks"; }
      NatToStringInjective(n, k2.sequence);
    case IbcClientState(_) =>
      assert k2.IbcClientState? by { assert |s2| == 3; }
    case IbcConnection(_) =>
      assert k2.IbcConnection? by { assert |s2| == 2; }
    case IbcChannel(_, _) =>
      assert k2.IbcChannel? by { assert |s2| == 5; }
  }

  /** `AbciProofKind::data_bytes`: the UTF-8 key for the IBC kinds, the single byte 0x01 for
      the staking parameters, and 0x01 followed by the address bytes for an account. `None`
      stands for the panic of `as_bytes` on an address that does not decode. */
  function DataBytes(k: AbciProofKind): (r: Option<seq<byte>>)
    ensures k.IsIbc() ==> r == Some(Utf8(IbcKey(k)))
    ensures k.StakingParams? ==> r == Some([0x01])
    ensures k.AuthBaseAccount? ==> (r.Some? <==> Address.AsBytes(k.address).Some?)
    ensures k.AuthBaseAccount? && r.Some? ==> r.value == [0x01] + Address.AsBytes(k.address).value
  {
    match k
    case StakingParams => Some([0x01])
    case AuthBaseAccount(a) =>
      (match Address.AsBytes(a) case Some(bytes) => Some([0x01] + bytes) case None => None)
    case _ => Some(Utf8(IbcKey(k)))
  }

  /** `tendermint::AbciQueryRequest` as sent over gRPC. */
  datatype AbciQueryRequest = AbciQueryRequest(path: string, data: seq<byte>, height: int, prove: bool)

  /** The gRPC query of `AbciProofReq::request`: the kind's path and data, proving on, and the
      `u64` height converted to `i64`, which fails above `i64::MAX`. */
  function GrpcRequest(k: AbciProofKind, height: nat): (r: Result<AbciQueryRequest, string>)
    requires height < U64_LIMIT
    ensures r.Ok? <==> height <= I64_MAX && DataBytes(k).Some?
    ensures r.Ok? ==> r.value.path == Path(k) && r.value.data == DataBytes(k).value
    ensures r.Ok? ==> r.value.height == height && r.value.prove
  {
    var data :- OkOr(DataBytes(k), "address does not decode");
    if height > I64_MAX then Err("out of range integral type conversion attempted")
    else Ok(AbciQueryRequest(Path(k), data, height, true))
  }
}
