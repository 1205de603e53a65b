/** IBC packet events (`events/ibc.rs`): the packet kind of an event, the attribute parser
    that builds an `IbcPacket`, and `invert`. The event types and attribute keys are those
    of ibc-go's event documentation (`events/constants.rs`). */
module IbcEvents {
  import opened Wrappers
  import opened Text
  import Hex
  import opened IbcTypes
  import Events

  const EVENT_TYPE_SEND_PACKET: string := "send_packet"
  const EVENT_TYPE_RECV_PACKET: string := "recv_packet"
  const EVENT_TYPE_ACK_PACKET: string := "acknowledge_packet"
  const EVENT_TYPE_TIMEOUT_PACKET: string := "timeout_packet"
  const EVENT_TYPE_WRITE_ACK: string := "write_acknowledgement"

  const ATTR_CONNECTION_ID: string := "connection_id"
  const ATTR_TIMEOUT_HEIGHT: string := "packet_timeout_height"
  const ATTR_TIMEOUT_TIMESTAMP: string := "packet_timeout_timestamp"
  const ATTR_SEQUENCE: string := "packet_sequence"
  const ATTR_SRC_PORT: string := "packet_src_port"
  const ATTR_SRC_CHANNEL: string := "packet_src_channel"
  const ATTR_DST_PORT: string := "packet_dst_port"
  const ATTR_DST_CHANNEL: string := "packet_dst_channel"
  const ATTR_ACK_HEX: string := "packet_ack_hex"
  const ATTR_DATA_HEX: string := "packet_data_hex"

  /** `IbcPacketTimeoutHeight`; revision 0 and height 0 together mean "no timeout height". */
  datatype TimeoutHeight = NoTimeout | Revision(height: nat, revision: nat)

  datatype PacketKind = Send | Receive | WriteAck | Ack | Timeout

  datatype IbcPacket = IbcPacket(
    srcPortId: IbcPortId,
    srcChannelId: IbcChannelId,
    dstPortId: IbcPortId,
    dstChannelId: IbcChannelId,
    srcConnectionId: IbcConnectionId,
    dstConnectionId: IbcConnectionId,
    sequence: nat,
    timeoutHeight: TimeoutHeight,
    timeoutTimestamp: nat,
    data: Option<seq<byte>>,
    ack: Option<seq<byte>>,
    kind: PacketKind)

  /** The errors of the parser (all `anyhow` errors in the Rust code). */
  datatype PacketError =
    | NotPacketEvent(ty: string)
    | InvalidInteger(text: string)
    | MissingHeight
    | InvalidHex(error: Hex.HexError)
    | MissingField(name: string)

  /** `IbcPacket::invert`: swaps source and destination of port, channel and connection. */
  function Invert(p: IbcPacket): (r: IbcPacket)
    ensures r.srcPortId == p.dstPortId && r.dstPortId == p.srcPortId
    ensures r.srcChannelId == p.dstChannelId && r.dstChannelId == p.srcChannelId
    ensures r.srcConnectionId == p.dstConnectionId && r.dstConnectionId == p.srcConnectionId
    ensures r.(srcPortId := p.srcPortId, dstPortId := p.dstPortId,
               srcChannelId := p.srcChannelId, dstChannelId := p.dstChannelId,
               srcConnectionId := p.srcConnectionId, dstConnectionId := p.dstConnectionId) == p
  {
    p.(srcPortId := p.dstPortId, dstPortId := p.srcPortId,
       srcChannelId := p.dstChannelId, dstChannelId := p.srcChannelId,
       srcConnectionId := p.dstConnectionId, dstConnectionId := p.srcConnectionId)
  }

  /** Inverting twice restores the packet. */
  lemma {:induction false} InvertInvolution(p: IbcPacket)
    ensures Invert(Invert(p)) == p
  {
  }

  // ---------------------------------------------------------------------------
  // Packet kind

  /** The event type each kind is recognised by. */
  function KindEventType(k: PacketKind): string {
    match k
    case Send => EVENT_TYPE_SEND_PACKET
    case Receive => EVENT_TYPE_RECV_PACKET
    case Ack => EVENT_TYPE_ACK_PACKET
    case WriteAck => EVENT_TYPE_WRITE_ACK
    case Timeout => EVENT_TYPE_TIMEOUT_PACKET
  }

  /** The position of a kind in the order the types are tested. */
  function KindRank(k: PacketKind): nat {
    match k
    case Send => 0
    case Receive => 1
    case Ack => 2
    case WriteAck => 3
    case Timeout => 4
  }

  /** `TryFrom<&Event> for IbcPacketKind`: the first kind, in the order send, recv, ack,
      write-ack, timeout, whose type the event has (`wasm-` alias included). */
  function KindFromEvent(e: Events.Event): (r: Result<PacketKind, PacketError>)
    ensures r.Ok? ==> Events.IsType(e, KindEventType(r.value))
    ensures r.Ok? ==> forall k :: KindRank(k) < KindRank(r.value) ==> !Events.IsType(e, KindEventType(k))
    ensures r.Err? <==> forall k :: !Events.IsType(e, KindEventType(k))
    ensures r.Err? ==> r.error == NotPacketEvent(e.ty)
  {
    if Events.IsType(e, EVENT_TYPE_SEND_PACKET) then Ok(Send)
    else if Events.IsType(e, EVENT_TYPE_RECV_PACKET) then Ok(Receive)
    else if Events.IsType(e, EVENT_TYPE_ACK_PACKET) then Ok(Ack)
    else if Events.IsType(e, EVENT_TYPE_WRITE_ACK) then Ok(WriteAck)
    else if Events.IsType(e, EVENT_TYPE_TIMEOUT_PACKET) then Ok(Timeout)
    else Err(NotPacketEvent(e.ty))
  }

  /** An event whose type is a kind's type, plain or `wasm-` prefixed, has that kind. */
  lemma {:induction false} KindOfEventType(k: PacketKind, wasm: bool, attrs: seq<Events.Attribute>)
    ensures KindFromEvent(Events.Event(if wasm then "wasm-" + KindEventType(k) else KindEventType(k), attrs)) == Ok(k)
  {
    var e := Events.Event(if wasm then "wasm-" + KindEventType(k) else KindEventType(k), attrs);
    match k
    case Send =>
    case Receive =>
      OtherKindType(e, Send, k, wasm);
    case Ack =>
      OtherKindType(e, Send, k, wasm);
      OtherKindType(e, Receive, k, wasm);
    case WriteAck =>
      OtherKindType(e, Send, k, wasm);
      OtherKindType(e, Receive, k, wasm);
      OtherKindType(e, Ack, k, wasm);
    case Timeout =>
      OtherKindType(e, Send, k, wasm);
      OtherKindType(e, Receive, k, wasm);
      OtherKindType(e, Ack, k, wasm);
      OtherKindType(e, WriteAck, k, wasm);
  }

  /** No kind's type, plain or prefixed, is another kind's type. */
  lemma {:induction false} OtherKindType(e: Events.Event, j: PacketKind, k: PacketKind, wasm: bool)
    requires j != k
    requires e.ty == if wasm then "wasm-" + KindEventType(k) else KindEventType(k)
    ensures !Events.IsType(e, KindEventType(j))
  {
    var t, u := KindEventType(j), KindEventType(k);
    assert t != u;
    KindTypeUnprefixed(j);
    KindTypeUnprefixed(k);
    assert ("wasm-" + t)[..5] == "wasm-" && ("wasm-" + t)[5..] == t;
    assert ("wasm-" + u)[..5] == "wasm-" && ("wasm-" + u)[5..] == u;
  }

  lemma {:induction false} KindTypeUnprefixed(k: PacketKind)
    ensures |KindEventType(k)| >= 5 && KindEventType(k)[..5] != "wasm-"
  {
    var t := KindEventType(k);
    assert t[0] != 'w' || t[1] != 'a';
  }

  // ---------------------------------------------------------------------------
  // Attribute values

  /** The `packet_timeout_height` value "{revision}-{height}": the first two '-'-separated
      pieces as `u64`s (further pieces are ignored), "0-0" meaning no timeout height. The
      first piece always exists, so "missing revision" cannot occur. */
  function ParseTimeoutHeight(v: string): (r: Result<TimeoutHeight, PacketError>)
    ensures ParseU64(Split(v, '-')[0]).None? ==> r == Err(InvalidInteger(Split(v, '-')[0]))
    ensures '-' !in v && ParseU64(v).Some? ==> r == Err(MissingHeight)
    ensures r.Ok? && r.value.Revision? ==> r.value.revision < U64_LIMIT && r.value.height < U64_LIMIT
    ensures r.Ok? && r.value.Revision? ==> r.value.revision != 0 || r.value.height != 0
  {
    var pieces := Split(v, '-');
    assert '-' !in v ==> pieces == [v] by {
      if '-' !in v { SplitNoSeparator(v, '-'); }
    }
    var revision :- OkOr(ParseU64(pieces[0]), InvalidInteger(pieces[0]));
    if |pieces| < 2 then Err(MissingHeight)
    else
      var height :- OkOr(ParseU64(pieces[1]), InvalidInteger(pieces[1]));
      if revision == 0 && height == 0 then Ok(NoTimeout) else Ok(Revision(height, revision))
  }

  /** Parsing the "{revision}-{height}" text of two `u64`s gives them back, or no timeout
      height for "0-0". */
  lemma {:induction false} TimeoutHeightFormatted(revision: nat, height: nat)
    requires revision < U64_LIMIT && height < U64_LIMIT
    ensures ParseTimeoutHeight(NatToString(revision) + "-" + NatToString(height))
      == Ok(if revision == 0 && height == 0 then NoTimeout else Revision(height, revision))
  {
    var a, b := NatToString(revision), NatToString(height);
    assert a + "-" + b == a + ['-'] + b;
    SplitAtSeparator(a, b, '-');
    assert '-' !in a && '-' !in b;
    SplitNoSeparator(a, '-');
    SplitNoSeparator(b, '-');
    ParseNatToString(revision, U64_LIMIT);
    ParseNatToString(height, U64_LIMIT);
  }

  /** An attribute the parser accepts on its own: the typed keys must carry a `u64`, a
      timeout height, or hex text. */
  predicate AttrValid(a: Events.Attribute) {
    && (a.key == ATTR_SEQUENCE ==> ParseU64(a.value).Some?)
    && (a.key == ATTR_TIMEOUT_HEIGHT ==> ParseTimeoutHeight(a.value).Ok?)
    && (a.key == ATTR_TIMEOUT_TIMESTAMP ==> ParseU64(a.value).Some?)
    && (a.key == ATTR_DATA_HEX ==> Hex.Decode(a.value).Ok?)
    && (a.key == ATTR_ACK_HEX ==> Hex.Decode(a.value).Ok?)
  }

  /** The value of the last attribute with the key. */
  function LastValue(attrs: seq<Events.Attribute>, key: string): Option<string>
    decreases |attrs|
  {
    if |attrs| == 0 then None
    else
      var rest := LastValue(attrs[1..], key);
      if rest.Some? then rest
      else if attrs[0].key == key then Some(attrs[0].value)
      else None
  }

  /** `LastValue` is the value of an attribute with the key that no later one has. */
  lemma {:induction false} LastValueIsLast(attrs: seq<Events.Attribute>, key: string)
    ensures LastValue(attrs, key).None? <==> forall i :: 0 <= i < |attrs| ==> attrs[i].key != key
    ensures LastValue(attrs, key).Some? ==> exists i :: (0 <= i < |attrs| && attrs[i].key == key
      && attrs[i].value == LastValue(attrs, key).value
      && forall j :: i < j < |attrs| ==> attrs[j].key != key)
    decreases |attrs|
  {
    if |attrs| > 0 {
      LastValueIsLast(attrs[1..], key);
      assert forall i :: 1 <= i < |attrs| ==> attrs[i] == attrs[1..][i - 1];
      var rest := LastValue(attrs[1..], key);
      if rest.Some? {
        var i :| 0 <= i < |attrs[1..]| && attrs[1..][i].key == key && attrs[1..][i].value == rest.value
          && forall j :: i < j < |attrs[1..]| ==> attrs[1..][j].key != key;
        assert attrs[i + 1].key == key && attrs[i + 1].value == rest.value;
      } else if attrs[0].key == key {
        assert forall j :: 0 < j < |attrs| ==> attrs[j].key != key;
      }
    }
  }

  lemma {:induction false} LastValueSingle(a: Events.Attribute, key: string)
    ensures LastValue([a], key) == if a.key == key then Some(a.value) else None
  {
    assert [a][1..] == [];
  }

  /** Under a valid attribute list, the last value of a key is one its key accepts. */
  lemma {:induction false} LastValueValid(attrs: seq<Events.Attribute>, key: string)
    requires forall i :: 0 <= i < |attrs| ==> AttrValid(attrs[i])
    ensures LastValue(attrs, key).Some? ==> AttrValid(Events.Attribute(key, LastValue(attrs, key).value))
  {
    LastValueIsLast(attrs, key);
    if LastValue(attrs, key).Some? {
      var i :| 0 <= i < |attrs| && attrs[i].key == key && attrs[i].value == LastValue(attrs, key).value;
      assert attrs[i] == Events.Attribute(key, LastValue(attrs, key).value);
    }
  }

  // ---------------------------------------------------------------------------
  // The attribute loop

  /** `IbcPacketBuilder`: the fields seen so far. */
  datatype Builder = Builder(
    srcPortId: Option<IbcPortId>,
    srcChannelId: Option<IbcChannelId>,
    dstPortId: Option<IbcPortId>,
    dstChannelId: Option<IbcChannelId>,
    connectionId: Option<IbcConnectionId>,
    sequence: Option<nat>,
    timeoutHeight: Option<TimeoutHeight>,
    timeoutTimestamp: Option<nat>,
    data: Option<seq<byte>>,
    ack: Option<seq<byte>>)

  const EMPTY: Builder := Builder(None, None, None, None, None, None, None, None, None, None)

  function ToOption<T, E>(r: Result<T, E>): Option<T> {
    if r.Ok? then Some(r.value) else None
  }


  /** One iteration of the loop over the attributes. */
  function Step(b: Builder, a: Events.Attribute): (r: Result<Builder, PacketError>)
    ensures r.Ok? <==> AttrValid(a)
  {
    var k, v := a.key, a.value;
    if k == ATTR_SRC_PORT then Ok(b.(srcPortId := Some(IbcPortId(v))))
    else if k == ATTR_SRC_CHANNEL then Ok(b.(srcChannelId := Some(IbcChannelId(v))))
    else if k == ATTR_DST_PORT then Ok(b.(dstPortId := Some(IbcPortId(v))))
    else if k == ATTR_DST_CHANNEL then Ok(b.(dstChannelId := Some(IbcChannelId(v))))
    else if k == ATTR_CONNECTION_ID then Ok(b.(connectionId := Some(IbcConnectionId(v))))
    else if k == ATTR_SEQUENCE then
      var n :- OkOr(ParseU64(v), InvalidInteger(v));
      Ok(b.(sequence := Some(n)))
    else if k == ATTR_TIMEOUT_HEIGHT then
      var h :- ParseTimeoutHeight(v);
      Ok(b.(timeoutHeight := Some(h)))
    else if k == ATTR_TIMEOUT_TIMESTAMP then
      var n :- OkOr(ParseU64(v), InvalidInteger(v));
      Ok(b.(timeoutTimestamp := Some(n)))
    else if k == ATTR_DATA_HEX then
      var d :- Hex.Decode(v).MapErr(e => InvalidHex(e));
      Ok(b.(data := Some(d)))
    else if k == ATTR_ACK_HEX then
      var d :- Hex.Decode(v).MapErr(e => InvalidHex(e));
      Ok(b.(ack := Some(d)))
    else Ok(b)
  }

  /** The loop: the attributes in order, stopping at the first error. */
  function Fold(b: Builder, attrs: seq<Events.Attribute>): Result<Builder, PacketError>
    decreases |attrs|
  {
    if |attrs| == 0 then Ok(b)
    else
      var b' :- Step(b, attrs[0]);
      Fold(b', attrs[1..])
  }

  /** The loop succeeds exactly when every attribute is valid; otherwise it stops with the
      error of the first invalid one. */
  lemma {:induction false} FoldOk(b: Builder, attrs: seq<Events.Attribute>)
    ensures Fold(b, attrs).Ok? <==> forall i :: 0 <= i < |attrs| ==> AttrValid(attrs[i])
    ensures Fold(b, attrs).Err? ==> exists i :: (0 <= i < |attrs| && !AttrValid(attrs[i])
      && (forall j :: 0 <= j < i ==> AttrValid(attrs[j]))
      && Step(EMPTY, attrs[i]) == Err(Fold(b, attrs).error))
    decreases |attrs|
  {
    if |attrs| > 0 {
      assert forall i :: 1 <= i < |attrs| ==> attrs[i] == attrs[1..][i - 1];
      if AttrValid(attrs[0]) {
        FoldOk(Step(b, attrs[0]).value, attrs[1..]);
        if Fold(b, attrs).Err? {
          var i :| 0 <= i < |attrs[1..]| && !AttrValid(attrs[1..][i])
            && (forall j :: 0 <= j < i ==> AttrValid(attrs[1..][j]))
            && Step(EMPTY, attrs[1..][i]) == Err(Fold(b, attrs).error);
          assert !AttrValid(attrs[i + 1]);
        }
      } else {
        StepErrorIndependent(b, attrs[0]);
      }
    }
  }

  /** The error an attribute causes does not depend on the fields seen before it. */
  lemma {:induction false} StepErrorIndependent(b: Builder, a: Events.Attribute)
    requires !AttrValid(a)
    ensures Step(b, a) == Step(EMPTY, a)
  {
  }

  /** Reference for the loop's result: each field holds the parse of the value of the LAST
      attribute with its key, or what it held before when the key does not occur. */
  function Expected(b: Builder, attrs: seq<Events.Attribute>): Builder {
    var srcPort := LastValue(attrs, ATTR_SRC_PORT);
    var srcChannel := LastValue(attrs, ATTR_SRC_CHANNEL);
    var dstPort := LastValue(attrs, ATTR_DST_PORT);
    var dstChannel := LastValue(attrs, ATTR_DST_CHANNEL);
    var connection := LastValue(attrs, ATTR_CONNECTION_ID);
    var sequence := LastValue(attrs, ATTR_SEQUENCE);
    var height := LastValue(attrs, ATTR_TIMEOUT_HEIGHT);
    var timestamp := LastValue(attrs, ATTR_TIMEOUT_TIMESTAMP);
    var data := LastValue(attrs, ATTR_DATA_HEX);
    var ack := LastValue(attrs, ATTR_ACK_HEX);
    Builder(
      if srcPort.Some? then Some(IbcPortId(srcPort.value)) else b.srcPortId,
      if srcChannel.Some? then Some(IbcChannelId(srcChannel.value)) else b.srcChannelId,
      if dstPort.Some? then Some(IbcPortId(dstPort.value)) else b.dstPortId,
      if dstChannel.Some? then Some(IbcChannelId(dstChannel.value)) else b.dstChannelId,
      if connection.Some? then Some(IbcConnectionId(connection.value)) else b.connectionId,
      if sequence.Some? then ParseU64(sequence.value) else b.sequence,
      if height.Some? then ToOption(ParseTimeoutHeight(height.value)) else b.timeoutHeight,
      if timestamp.Some? then ParseU64(timestamp.value) else b.timeoutTimestamp,
      if data.Some? then ToOption(Hex.Decode(data.value)) else b.data,
      if ack.Some? then ToOption(Hex.Decode(ack.value)) else b.ack)
  }

  /** One valid attribute sets exactly the field of its key. */
  lemma {:induction false} StepExpected(b: Builder, a: Events.Attribute)
    requires AttrValid(a)
    ensures Step(b, a) == Ok(Expected(b, [a]))
  {
    forall key { LastValueSingle(a, key); }
  }

  /** A later occurrence of a key overrides an earlier one. */
  lemma {:induction false} ExpectedCons(b: Builder, attrs: seq<Events.Attribute>)
    requires |attrs| > 0
    ensures Expected(Expected(b, [attrs[0]]), attrs[1..]) == Expected(b, attrs)
  {
    forall key { LastValueSingle(attrs[0], key); }
  }

  /** When the loop succeeds, every field holds the parse of the last attribute with its key. */
  lemma {:induction false} FoldLastWins(b: Builder, attrs: seq<Events.Attribute>)
    requires Fold(b, attrs).Ok?
    ensures Fold(b, attrs) == Ok(Expected(b, attrs))
    decreases |attrs|
  {
    if |attrs| > 0 {
      StepExpected(b, attrs[0]);
      FoldLastWins(Expected(b, [attrs[0]]), attrs[1..]);
      ExpectedCons(b, attrs);
    }
  }

  /** `TryFrom<&Event> for IbcPacket`: the kind, then the attribute loop, then the required
      fields in the order connection id, src port, src channel, dst port, dst channel,
      sequence, timeout height, timeout timestamp. The event's one connection id becomes
      both the source and the destination connection. */
  function FromEvent(e: Events.Event): (r: Result<IbcPacket, PacketError>)
    ensures r.Ok? <==>
      && KindFromEvent(e).Ok?
      && (forall i :: 0 <= i < |e.attributes| ==> AttrValid(e.attributes[i]))
      && LastValue(e.attributes, ATTR_CONNECTION_ID).Some?
      && LastValue(e.attributes, ATTR_SRC_PORT).Some?
      && LastValue(e.attributes, ATTR_SRC_CHANNEL).Some?
      && LastValue(e.attributes, ATTR_DST_PORT).Some?
      && LastValue(e.attributes, ATTR_DST_CHANNEL).Some?
      && LastValue(e.attributes, ATTR_SEQUENCE).Some?
      && LastValue(e.attributes, ATTR_TIMEOUT_HEIGHT).Some?
      && LastValue(e.attributes, ATTR_TIMEOUT_TIMESTAMP).Some?
    ensures KindFromEvent(e).Err? ==> r == Err(NotPacketEvent(e.ty))
    ensures (&& KindFromEvent(e).Ok?
             && (forall i :: 0 <= i < |e.attributes| ==> AttrValid(e.attributes[i]))
             && LastValue(e.attributes, ATTR_CONNECTION_ID).None?) ==> r == Err(MissingField("connection id"))
    ensures r.Ok? ==> r.value.kind == KindFromEvent(e).value
    ensures r.Ok? ==> r.value.srcConnectionId == r.value.dstConnectionId
    ensures r.Ok? ==> LastValue(e.attributes, ATTR_CONNECTION_ID) == Some(r.value.srcConnectionId.id)
    ensures r.Ok? ==> LastValue(e.attributes, ATTR_SRC_PORT) == Some(r.value.srcPortId.id)
    ensures r.Ok? ==> LastValue(e.attributes, ATTR_SRC_CHANNEL) == Some(r.value.srcChannelId.id)
    ensures r.Ok? ==> LastValue(e.attributes, ATTR_DST_PORT) == Some(r.value.dstPortId.id)
    ensures r.Ok? ==> LastValue(e.attributes, ATTR_DST_CHANNEL) == Some(r.value.dstChannelId.id)
    ensures r.Ok? ==> ParseU64(LastValue(e.attributes, ATTR_SEQUENCE).value) == Some(r.value.sequence)
    ensures r.Ok? ==> ParseTimeoutHeight(LastValue(e.attributes, ATTR_TIMEOUT_HEIGHT).value) == Ok(r.value.timeoutHeight)
    ensures r.Ok? ==> ParseU64(LastValue(e.attributes, ATTR_TIMEOUT_TIMESTAMP).value) == Some(r.value.timeoutTimestamp)
    ensures r.Ok? ==> (r.value.data.Some? <==> LastValue(e.attributes, ATTR_DATA_HEX).Some?)
    ensures r.Ok? && r.value.data.Some? ==> Hex.Decode(LastValue(e.attributes, ATTR_DATA_HEX).value) == Ok(r.value.data.value)
    ensures r.Ok? ==> (r.value.ack.Some? <==> LastValue(e.attributes, ATTR_ACK_HEX).Some?)
    ensures r.Ok? && r.value.ack.Some? ==> Hex.Decode(LastValue(e.attributes, ATTR_ACK_HEX).value) == Ok(r.value.ack.value)
  {
    FoldOk(EMPTY, e.attributes);
    var kind :- KindFromEvent(e);
    var b :- Fold(EMPTY, e.attributes);
    FoldLastWins(EMPTY, e.attributes);
    LastValueValid(e.attributes, ATTR_SEQUENCE);
    LastValueValid(e.attributes, ATTR_TIMEOUT_HEIGHT);
    LastValueValid(e.attributes, ATTR_TIMEOUT_TIMESTAMP);
    LastValueValid(e.attributes, ATTR_DATA_HEX);
    LastValueValid(e.attributes, ATTR_ACK_HEX);
    Build(b, kind)
  }

  /** The required fields after the loop, in order; the first missing one is the error. */
  function Build(b: Builder, kind: PacketKind): (r: Result<IbcPacket, PacketError>)
    ensures r.Ok? <==> && b.connectionId.Some? && b.srcPortId.Some? && b.srcChannelId.Some?
                       && b.dstPortId.Some? && b.dstChannelId.Some? && b.sequence.Some?
                       && b.timeoutHeight.Some? && b.timeoutTimestamp.Some?
    ensures b.connectionId.None? ==> r == Err(MissingField("connection id"))
    ensures r.Ok? ==> r.value == IbcPacket(b.srcPortId.value, b.srcChannelId.value, b.dstPortId.value, b.dstChannelId.value,
                                           b.connectionId.value, b.connectionId.value, b.sequence.value,
                                           b.timeoutHeight.value, b.timeoutTimestamp.value, b.data, b.ack, kind)
  {
    var connectionId :- OkOr(b.connectionId, MissingField("connection id"));
    var srcPortId :- OkOr(b.srcPortId, MissingField("src port"));
    var srcChannelId :- OkOr(b.srcChannelId, MissingField("src channel"));
    var dstPortId :- OkOr(b.dstPortId, MissingField("dst port"));
    var dstChannelId :- OkOr(b.dstChannelId, MissingField("dst channel"));
    var sequence :- OkOr(b.sequence, MissingField("sequence"));
    var timeoutHeight :- OkOr(b.timeoutHeight, MissingField("timeout height"));
    var timeoutTimestamp :- OkOr(b.timeoutTimestamp, MissingField("timeout timestamp"));
    Ok(IbcPacket(srcPortId, srcChannelId, dstPortId, dstChannelId, connectionId, connectionId,
                 sequence, timeoutHeight, timeoutTimestamp, b.data, b.ack, kind))
  }
}
